/** The authentication routes: `/google`, `/refresh`, `/logout`,
    `/logout-all`, `/me` and `/account`. Each handler is a specification
    function from the database before the request to the database after it,
    the reply (or the error passed on to the error handler) and the steps it
    took, in order; `AuthServer` runs the same steps on the tables. The
    outcome of Google's verifier, the id a new user would get and the random
    refresh token are inputs. */
module AuthRoutes {
  import opened Wrappers
  import opened Errors
  import opened Json
  import Connection
  import JS = JwtService
  import RL = RateLimiter
  import OA = OAuthService
  import MW = AuthMiddleware
  import RV = RequestValidation

  /** What the handlers read from a request. */
  datatype HttpRequest = HttpRequest(body: Value, ip: Option<string>, userAgent: Option<string>, authorization: Option<string>)

  /** The `data` (or `message`) of a successful reply; every success is
      answered with status 200. */
  datatype Reply =
    | SignedIn(user: OA.SignIn, tokens: JS.TokenPair)
    | Refreshed(tokens: JS.TokenPair)
    | Done(message: string)
    | Profile(view: OA.UserView)

  /** The three tables the routes touch. */
  datatype Db = Db(limits: seq<RL.Counter>, refresh: seq<JS.RefreshRecord>, users: seq<OA.User>)

  /** The middleware and service calls, as a handler makes them. */
  datatype Step =
    | LimitAttempts | Validate | VerifyGoogle | FindOrCreate | UpdateLastSeen | IssueTokens | ResetLimits
    | Authenticate | Rotate | RevokeToken | RevokeAll | LookUpUser | DeactivateUser

  datatype Flow = Flow(db: Db, result: Result<Reply, Failure>, steps: seq<Step>)

  /** The steps of a sign-in that succeeds. */
  const GoogleOrder := [LimitAttempts, Validate, VerifyGoogle, FindOrCreate, UpdateLastSeen, IssueTokens, ResetLimits]

  /** `req.body.email` as the attempt limiter uses it. */
  function BodyEmail(body: Value): (e: Option<string>)
    ensures e.Some? <==> Member(body, "email").Some? && Member(body, "email").value.Str?
    ensures e.Some? ==> Member(body, "email") == Some(Str(e.value))
  {
    match Member(body, "email")
    case Some(Str(s)) => Some(s)
    case _ => None
  }

  /** The device data built from a request. */
  function RequestDevice(req: HttpRequest): (d: JS.DeviceInfo)
    ensures req.userAgent.Some? && Member(Member(req.body, "deviceInfo").GetOr(Null), "userAgent").None? ==>
              "userAgent" in d && d["userAgent"] == Str(req.userAgent.value)
    ensures req.ip.Some? && Member(Member(req.body, "deviceInfo").GetOr(Null), "ipAddress").None? ==>
              "ipAddress" in d && d["ipAddress"] == Str(req.ip.value)
    ensures Member(req.body, "deviceInfo").Some? && Member(req.body, "deviceInfo").value.Object? ==>
              var sent := Member(req.body, "deviceInfo").value.fields;
              forall k :: k in sent ==> k in d && d[k] == sent[k]
  {
    RV.DeviceData(req.userAgent, req.ip, Member(req.body, "deviceInfo"))
  }

  /** The `users` table as the rotation's `JOIN users` sees it: each user id
      with its email (active or not). */
  function UsersById(rows: seq<OA.User>): (m: map<string, string>)
    ensures forall id :: id in m <==> OA.HasId(rows, id)
    ensures forall id :: id in m ==> FirstEmailIs(rows, id, m[id])
  {
    if |rows| == 0 then map[]
    else
      var rest := UsersById(rows[1..]);
      UsersByIdStep(rows, rest);
      rest[rows[0].id := rows[0].email]
  }

  /** The map of the rows after the first, updated with the first row, maps
      each id to the email of its first row. */
  lemma UsersByIdStep(rows: seq<OA.User>, rest: map<string, string>)
    requires |rows| > 0
    requires forall id :: id in rest <==> OA.HasId(rows[1..], id)
    requires forall id :: id in rest ==> FirstEmailIs(rows[1..], id, rest[id])
    ensures var m := rest[rows[0].id := rows[0].email];
            && (forall id :: id in m <==> OA.HasId(rows, id))
            && (forall id :: id in m ==> FirstEmailIs(rows, id, m[id]))
  {
    var m := rest[rows[0].id := rows[0].email];
    forall id ensures id in m <==> OA.HasId(rows, id) {
      if OA.HasId(rows, id) && rows[0].id != id {
        var i :| 0 <= i < |rows| && rows[i].id == id;
        assert rows[1..][i - 1].id == id;
      }
      if id in rest {
        var i :| 0 <= i < |rows[1..]| && rows[1..][i].id == id;
        assert rows[i + 1].id == id;
      }
    }
    forall id | id in m ensures FirstEmailIs(rows, id, m[id]) {
      if id == rows[0].id {
        assert rows[0].id == id && m[id] == rows[0].email;
      } else {
        var i :| 0 <= i < |rows[1..]| && rows[1..][i].id == id && rows[1..][i].email == rest[id]
                 && forall k :: 0 <= k < i ==> rows[1..][k].id != id;
        assert rows[i + 1].id == id && m[id] == rows[i + 1].email;
        assert forall k :: 1 <= k < i + 1 ==> rows[k] == rows[1..][k - 1];
      }
    }
  }

  /** Row `i` is the first with the id, and its email is `email`. */
  predicate FirstEmailIs(rows: seq<OA.User>, id: string, email: string) {
    exists i :: 0 <= i < |rows| && rows[i].id == id && rows[i].email == email
                && forall k :: 0 <= k < i ==> rows[k].id != id
  }

  // ---------------------------------------------------------------------------
  // POST /google

  /** `POST /google`: limiter, validation, verification, then the steps of
      `SignInVerified`. */
  function GoogleSignIn(tokens: JS.JwtService, db: Db, req: HttpRequest, google: OA.Verification, now: int,
                        freshId: string, freshToken: string): (f: Flow)
    requires JS.UsableConfig(tokens.config)
    ensures |f.steps| >= 1 && f.steps[0] == LimitAttempts
  {
    var (limits, limited) := RL.AttemptLimiter(db.limits, req.ip, BodyEmail(req.body), now);
    var db1 := db.(limits := limits);
    if limited.Err? then Flow(db1, Err(limited.error), GoogleOrder[..1])
    else
      var valid := RV.ValidateRequest(RV.GoogleAuthSchema, req.body);
      if valid.Err? then Flow(db1, Err(valid.error), GoogleOrder[..2])
      else match OA.VerifyGoogleToken(google)
        case Err(e) => Flow(db1, Err(e), GoogleOrder[..3])
        case Ok(info) => SignInVerified(tokens, db1, req, info, now, freshId, freshToken)
  }

  /** The rest of `POST /google` once the Google account is known:
      find-or-create, last-seen update, token issue, limiter reset. */
  function SignInVerified(tokens: JS.JwtService, db: Db, req: HttpRequest, info: OA.GoogleUserInfo, now: int,
                          freshId: string, freshToken: string): (f: Flow)
    requires JS.UsableConfig(tokens.config)
    ensures f.result.Err? ==> f.db == db && f.steps == GoogleOrder[..4]
    ensures f.result.Ok? ==> f.steps == GoogleOrder
  {
    var found := OA.FindOrCreate(db.users, info, now, freshId);
    if found.result.Err? then Flow(db, Err(found.result.error), GoogleOrder[..4])
    else
      var user := found.result.value;
      var users := OA.Touch(found.state, user.userId, now);
      var refresh := db.refresh + [tokens.IssuedRecord(user.userId, freshToken, now, Some(RequestDevice(req)))];
      var pair := JS.TokenPair(tokens.AccessToken(user.userId, user.email, now), freshToken,
                               JS.ExpiryInSeconds(tokens.config.accessExpiry));
      var cleared := RL.Reset(db.limits, RL.ClientAddress(req.ip), Some(user.email));
      Flow(Db(cleared, refresh, users), Ok(SignedIn(user, pair)), GoogleOrder)
  }

  /** The sign-in runs its steps in order and stops at the first failure;
      the limiter is reset exactly when every step succeeded. A failed
      sign-in still counts the attempt, and writes nothing else. */
  lemma GoogleStepsAreOrdered(tokens: JS.JwtService, db: Db, req: HttpRequest, google: OA.Verification, now: int,
                              freshId: string, freshToken: string)
    requires JS.UsableConfig(tokens.config)
    ensures var f := GoogleSignIn(tokens, db, req, google, now, freshId, freshToken);
            && 1 <= |f.steps| <= |GoogleOrder| && f.steps == GoogleOrder[..|f.steps|]
            && (f.result.Ok? <==> ResetLimits in f.steps)
            && (f.result.Ok? <==> f.steps == GoogleOrder)
            && (f.result.Err? ==>
                  && f.db.refresh == db.refresh && f.db.users == db.users
                  && f.db.limits == RL.AttemptLimiter(db.limits, req.ip, BodyEmail(req.body), now).0)
  {
    ShortPrefixesDoNotReset();
    var (limits, limited) := RL.AttemptLimiter(db.limits, req.ip, BodyEmail(req.body), now);
    var f := GoogleSignIn(tokens, db, req, google, now, freshId, freshToken);
    if limited.Err? {
      assert f.steps == GoogleOrder[..1] && ResetLimits !in f.steps;
    } else if RV.ValidateRequest(RV.GoogleAuthSchema, req.body).Err? {
      assert f.steps == GoogleOrder[..2] && ResetLimits !in f.steps;
    } else if OA.VerifyGoogleToken(google).Err? {
      assert f.steps == GoogleOrder[..3] && ResetLimits !in f.steps;
    } else {
      var info := OA.VerifyGoogleToken(google).value;
      assert f == SignInVerified(tokens, db.(limits := limits), req, info, now, freshId, freshToken);
      VerifiedStepsAreOrdered(tokens, db.(limits := limits), req, info, now, freshId, freshToken);
    }
  }

  /** Once the Google account is known, the sign-in either stops after
      find-or-create without a reset or runs every step. */
  lemma VerifiedStepsAreOrdered(tokens: JS.JwtService, db: Db, req: HttpRequest, info: OA.GoogleUserInfo, now: int,
                                freshId: string, freshToken: string)
    requires JS.UsableConfig(tokens.config)
    ensures var f := SignInVerified(tokens, db, req, info, now, freshId, freshToken);
            && 1 <= |f.steps| <= |GoogleOrder| && f.steps == GoogleOrder[..|f.steps|]
            && (f.result.Ok? <==> ResetLimits in f.steps)
            && (f.result.Ok? <==> f.steps == GoogleOrder)
            && (f.result.Err? ==> f.db == db)
  {
    var f := SignInVerified(tokens, db, req, info, now, freshId, freshToken);
    if f.result.Err? {
      ShortPrefixesDoNotReset();
      assert f.steps == GoogleOrder[..4] && ResetLimits !in f.steps;
    } else {
      assert f.steps == GoogleOrder && GoogleOrder[6] == ResetLimits;
    }
  }

  /** No proper prefix of the sign-in order contains the reset. */
  lemma ShortPrefixesDoNotReset()
    ensures forall k :: 0 <= k < |GoogleOrder| ==> ResetLimits !in GoogleOrder[..k]
  {
    forall k | 0 <= k < |GoogleOrder| ensures ResetLimits !in GoogleOrder[..k] {
      assert forall j :: 0 <= j < k ==> GoogleOrder[..k][j] == GoogleOrder[j];
    }
  }

  /** A body that fails validation is refused with a `ValidationError` (400)
      after the attempt was counted, before Google is asked. */
  lemma InvalidGoogleBodyIsRefused(tokens: JS.JwtService, db: Db, req: HttpRequest, google: OA.Verification, now: int,
                                   freshId: string, freshToken: string)
    requires JS.UsableConfig(tokens.config)
    requires RL.AttemptLimiter(db.limits, req.ip, BodyEmail(req.body), now).1.Ok?
    requires !RV.Conforms(RV.GoogleAuthSchema, req.body)
    ensures var f := GoogleSignIn(tokens, db, req, google, now, freshId, freshToken);
            && f.steps == [LimitAttempts, Validate]
            && f.result.Err? && f.result.error.App? && f.result.error.error.cls == Validation
            && f.result.error.error.statusCode == 400
  {
    assert GoogleOrder[..2] == [LimitAttempts, Validate];
  }

  /** A successful sign-in clears the counters of the address and the
      user's email, but keeps the address's counters without an email. */
  lemma SignInResetKeepsAddressCounters(tokens: JS.JwtService, db: Db, req: HttpRequest, google: OA.Verification, now: int,
                                        freshId: string, freshToken: string)
    requires JS.UsableConfig(tokens.config)
    ensures var f := GoogleSignIn(tokens, db, req, google, now, freshId, freshToken);
            var limited := RL.AttemptLimiter(db.limits, req.ip, BodyEmail(req.body), now).0;
            f.result.Ok? ==>
              && (forall c :: c in f.db.limits ==>
                    !(c.ip == RL.ClientAddress(req.ip) && c.email == Some(f.result.value.user.email)))
              && (forall c :: c in limited && c.email.None? ==> c in f.db.limits)
  {
    var (limits, limited) := RL.AttemptLimiter(db.limits, req.ip, BodyEmail(req.body), now);
    var f := GoogleSignIn(tokens, db, req, google, now, freshId, freshToken);
    if f.result.Ok? {
      var info := OA.VerifyGoogleToken(google).value;
      assert f == SignInVerified(tokens, db.(limits := limits), req, info, now, freshId, freshToken);
      assert f.db.limits == RL.Reset(limits, RL.ClientAddress(req.ip), Some(f.result.value.user.email));
    }
  }

  /** The user a find-or-create returns is in the table afterwards. */
  lemma SignedInUserExists(rows: seq<OA.User>, info: OA.GoogleUserInfo, now: int, freshId: string)
    requires OA.FindOrCreate(rows, info, now, freshId).result.Ok?
    ensures var o := OA.FindOrCreate(rows, info, now, freshId);
            OA.HasId(o.state, o.result.value.userId)
  {
    var o := OA.FindOrCreate(rows, info, now, freshId);
    match OA.ByGoogleId(rows, info.id)
    case Some(i) =>
      assert o.state[i].id == o.result.value.userId;
    case None =>
      match OA.ByEmail(rows, info.email)
      case Some(i) =>
        assert o.state[i].id == o.result.value.userId;
      case None =>
        assert o.state[|rows|].id == o.result.value.userId;
  }

  /** The refresh token a sign-in returns is accepted by `/refresh` at the
      same instant, provided the refresh expiry is not zero. */
  lemma SignInTokenRotates(tokens: JS.JwtService, db: Db, req: HttpRequest, google: OA.Verification, now: int,
                           freshId: string, freshToken: string, device: Option<JS.DeviceInfo>, nextToken: string)
    requires JS.UsableConfig(tokens.config)
    requires GoogleSignIn(tokens, db, req, google, now, freshId, freshToken).result.Ok?
    requires JS.ExpiryInSeconds(tokens.config.refreshExpiry) > 0
    ensures var f := GoogleSignIn(tokens, db, req, google, now, freshId, freshToken);
            var answer := f.result.value.tokens.refreshToken;
            tokens.Rotation(f.db.refresh, answer, device, now, nextToken, UsersById(f.db.users), None).result.Ok?
  {
    var f := GoogleSignIn(tokens, db, req, google, now, freshId, freshToken);
    var info := OA.VerifyGoogleToken(google).value;
    var found := OA.FindOrCreate(db.users, info, now, freshId);
    var user := found.result.value;
    SignedInUserExists(db.users, info, now, freshId);
    var k :| 0 <= k < |found.state| && found.state[k].id == user.userId;
    assert f.db.users[k].id == user.userId;
    var users := UsersById(f.db.users);
    assert user.userId in users;
    var h := tokens.hash(freshToken);
    var n := |db.refresh|;
    assert JS.Redeemable(f.db.refresh[n], h, now, users);
    var i := JS.FindValid(f.db.refresh, h, now, users);
    assert i.Some?;
    tokens.RotationSucceeds(f.db.refresh, freshToken, device, now, nextToken, users, i.value);
  }

  // ---------------------------------------------------------------------------
  // POST /refresh

  /** `POST /refresh`: validation, then the rotation with the request's
      device data. No attempt limiter runs on this route. */
  function RefreshRoute(tokens: JS.JwtService, db: Db, req: HttpRequest, now: int, freshToken: string): (f: Flow)
    requires JS.UsableConfig(tokens.config)
    ensures f.db.limits == db.limits && f.db.users == db.users
    ensures f.result.Err? ==> f.db.refresh == db.refresh
    ensures f.steps == [Validate] || f.steps == [Validate, Rotate]
    ensures f.steps == [Validate, Rotate] <==> RV.Conforms(RV.RefreshTokenSchema, req.body)
  {
    var valid := RV.ValidateRequest(RV.RefreshTokenSchema, req.body);
    if valid.Err? then Flow(db, Err(valid.error), [Validate])
    else
      var token := Member(req.body, "refreshToken").value.s;
      var o := tokens.Rotation(db.refresh, token, Some(RequestDevice(req)), now, freshToken, UsersById(db.users), None);
      var result := if o.result.Ok? then Ok(Refreshed(o.result.value)) else Err(o.result.error);
      Flow(db.(refresh := o.state), result, [Validate, Rotate])
  }

  /** The refresh route never touches the limiter or the users, and changes
      the refresh tokens only by a successful rotation of the token sent. */
  lemma RefreshTouchesOnlyTokens(tokens: JS.JwtService, db: Db, req: HttpRequest, now: int, freshToken: string)
    requires JS.UsableConfig(tokens.config)
    ensures var f := RefreshRoute(tokens, db, req, now, freshToken);
            && f.db.limits == db.limits && f.db.users == db.users
            && LimitAttempts !in f.steps
            && (f.result.Err? ==> f.db.refresh == db.refresh)
            && (f.result.Ok? ==>
                  && RV.Conforms(RV.RefreshTokenSchema, req.body) && f.steps == [Validate, Rotate]
                  && f.db.refresh == tokens.Rotation(db.refresh, Member(req.body, "refreshToken").value.s,
                                                     Some(RequestDevice(req)), now, freshToken, UsersById(db.users), None).state)
  {
  }

  // ---------------------------------------------------------------------------
  // The authenticated routes

  /** `logout` with a `refreshToken` that is truthy but not a string:
      `hashToken` throws a `TypeError`, answered as an internal error. */
  const NonStringToken := "hashToken received a value that is not a string"

  /** `POST /logout`: authentication, then the revocation of the token in
      the body. */
  function LogoutRoute(tokens: JS.JwtService, db: Db, req: HttpRequest, now: int): (f: Flow)
    ensures f.db.limits == db.limits && f.db.users == db.users
    ensures f.result.Err? ==> f.db == db
    ensures |f.steps| >= 1 && f.steps[0] == Authenticate
    ensures f.result.Ok? ==> f.steps == [Authenticate, RevokeToken] && |f.db.refresh| == |db.refresh|
  {
    var auth := MW.Authenticate(req.authorization, tokens, now);
    if auth.Err? then Flow(db, Err(auth.error), [Authenticate])
    else match Member(req.body, "refreshToken")
      case Some(Str(token)) =>
        if token == "" then Flow(db, Err(App(ValidationError("Refresh token is required"))), [Authenticate])
        else Flow(db.(refresh := JS.RevokeHash(db.refresh, tokens.hash(token))), Ok(Done("Logged out successfully")),
                  [Authenticate, RevokeToken])
      case Some(v) =>
        if !Truthy(v) then Flow(db, Err(App(ValidationError("Refresh token is required"))), [Authenticate])
        else Flow(db, Err(Plain(NonStringToken)), [Authenticate, RevokeToken])
      case None => Flow(db, Err(App(ValidationError("Refresh token is required"))), [Authenticate])
  }

  /** Logging out without a refresh token is a `ValidationError` and revokes
      nothing; with one, exactly the rows of that token are revoked; without
      a valid access token nothing happens. */
  lemma LogoutRevokesOnlyTheToken(tokens: JS.JwtService, db: Db, req: HttpRequest, now: int)
    ensures var f := LogoutRoute(tokens, db, req, now);
            && f.db.limits == db.limits && f.db.users == db.users
            && (MW.Authenticate(req.authorization, tokens, now).Err? ==> f.db == db && f.result.error.IsAuthentication())
            && (MW.Authenticate(req.authorization, tokens, now).Ok? && (Member(req.body, "refreshToken").None? || !Truthy(Member(req.body, "refreshToken").value)) ==>
                  f.db == db && f.result == Err(App(ValidationError("Refresh token is required"))))
            && (MW.Authenticate(req.authorization, tokens, now).Ok? && Member(req.body, "refreshToken").Some?
                && Member(req.body, "refreshToken").value.Str? && Member(req.body, "refreshToken").value.s != "" ==>
                  && f.db.refresh == JS.RevokeHash(db.refresh, tokens.hash(Member(req.body, "refreshToken").value.s))
                  && f.result == Ok(Done("Logged out successfully")))
  {
  }

  /** `POST /logout-all`: authentication, then every token of the user is
      revoked. */
  function LogoutAllRoute(tokens: JS.JwtService, db: Db, req: HttpRequest, now: int): (f: Flow)
    ensures f.db.limits == db.limits && f.db.users == db.users
    ensures f.result.Err? ==> f.db == db
    ensures f.result.Ok? ==> f.steps == [Authenticate, RevokeAll] && |f.db.refresh| == |db.refresh|
  {
    match MW.Authenticate(req.authorization, tokens, now)
    case Err(e) => Flow(db, Err(e), [Authenticate])
    case Ok(user) =>
      Flow(db.(refresh := JS.RevokeUser(db.refresh, user.userId)), Ok(Done("Logged out from all devices")),
           [Authenticate, RevokeAll])
  }

  /** Logging out everywhere revokes every refresh token of the
      authenticated user, so none of them can be rotated any more, and
      leaves the other users' tokens, the users and the limiter alone. */
  lemma LogoutAllRevokesTheUsersTokens(tokens: JS.JwtService, db: Db, req: HttpRequest, now: int,
                                       tokenHash: string, later: int, users: map<string, string>)
    ensures var f := LogoutAllRoute(tokens, db, req, now);
            && f.db.limits == db.limits && f.db.users == db.users
            && (MW.Authenticate(req.authorization, tokens, now).Err? ==> f.db == db && f.steps == [Authenticate])
            && (MW.Authenticate(req.authorization, tokens, now).Ok? ==>
                  var userId := MW.Authenticate(req.authorization, tokens, now).value.userId;
                  && f.result == Ok(Done("Logged out from all devices"))
                  && |f.db.refresh| == |db.refresh|
                  && (forall i :: 0 <= i < |db.refresh| && db.refresh[i].userId == userId ==>
                        f.db.refresh[i].revoked && !JS.Redeemable(f.db.refresh[i], tokenHash, later, users))
                  && (forall i :: 0 <= i < |db.refresh| && db.refresh[i].userId != userId ==>
                        f.db.refresh[i] == db.refresh[i]))
  {
  }

  /** `GET /me`: authentication, then the selected columns of the user's
      row if it is active. */
  function MeRoute(tokens: JS.JwtService, db: Db, req: HttpRequest, now: int): (f: Flow)
    ensures f.db == db
  {
    match MW.Authenticate(req.authorization, tokens, now)
    case Err(e) => Flow(db, Err(e), [Authenticate])
    case Ok(user) =>
      match OA.GetUser(db.users, user.userId)
      case Ok(row) => Flow(db, Ok(Profile(row)), [Authenticate, LookUpUser])
      case Err(e) => Flow(db, Err(e), [Authenticate, LookUpUser])
  }

  /** `/me` with a valid access token answers with the selected columns of
      the user's first active row, and writes nothing. */
  lemma MeRepliesWithTheUser(tokens: JS.JwtService, db: Db, req: HttpRequest, now: int, i: nat)
    requires MW.Authenticate(req.authorization, tokens, now).Ok?
    requires var id := MW.Authenticate(req.authorization, tokens, now).value.userId;
             && i < |db.users| && db.users[i].id == id && db.users[i].isActive
             && forall j :: 0 <= j < i ==> !(db.users[j].id == id && db.users[j].isActive)
    ensures MeRoute(tokens, db, req, now) == Flow(db, Ok(Profile(OA.Selected(db.users[i]))), [Authenticate, LookUpUser])
  {
    OA.GetUserFindsFirstActive(db.users, MW.Authenticate(req.authorization, tokens, now).value.userId, i);
  }

  /** `DELETE /account`: authentication, every token of the user revoked,
      then the user deactivated. */
  function DeleteAccountRoute(tokens: JS.JwtService, db: Db, req: HttpRequest, now: int): (f: Flow)
    ensures f.db.limits == db.limits
    ensures f.result.Err? ==> f.db == db
    ensures f.result.Ok? ==> f.steps == [Authenticate, RevokeAll, DeactivateUser]
                             && |f.db.refresh| == |db.refresh| && |f.db.users| == |db.users|
  {
    match MW.Authenticate(req.authorization, tokens, now)
    case Err(e) => Flow(db, Err(e), [Authenticate])
    case Ok(user) =>
      Flow(db.(refresh := JS.RevokeUser(db.refresh, user.userId), users := OA.Deactivate(db.users, user.userId, now)),
           Ok(Done("Account deactivated successfully")), [Authenticate, RevokeAll, DeactivateUser])
  }

  /** After the account is deleted, the tokens are revoked before the user
      is deactivated; none of the user's refresh tokens can be rotated, and
      `/me` with the user's access token fails with `User not found`. */
  lemma DeletedAccountIsClosed(tokens: JS.JwtService, db: Db, req: HttpRequest, now: int, later: int,
                               tokenHash: string, users: map<string, string>, meRequest: HttpRequest)
    requires MW.Authenticate(req.authorization, tokens, now).Ok?
    requires MW.Authenticate(meRequest.authorization, tokens, later) == MW.Authenticate(req.authorization, tokens, now)
    ensures var f := DeleteAccountRoute(tokens, db, req, now);
            var userId := MW.Authenticate(req.authorization, tokens, now).value.userId;
            && f.steps == [Authenticate, RevokeAll, DeactivateUser]
            && (forall i :: 0 <= i < |f.db.refresh| && f.db.refresh[i].userId == userId ==>
                  !JS.Redeemable(f.db.refresh[i], tokenHash, later, users))
            && MeRoute(tokens, f.db, meRequest, later).result == Err(App(AuthenticationError("User not found")))
  {
    var userId := MW.Authenticate(req.authorization, tokens, now).value.userId;
    OA.DeactivatedUserIsGone(db.users, userId, now, "", "");
  }

  // ---------------------------------------------------------------------------
  // The server

  /** The routes over the three tables. */
  class AuthServer {
    const limits: RL.RateLimitTable
    const tokens: JS.JwtService
    const users: OA.UserTable

    constructor (limits: RL.RateLimitTable, tokens: JS.JwtService, users: OA.UserTable)
      ensures this.limits == limits && this.tokens == tokens && this.users == users
    {
      this.limits := limits;
      this.tokens := tokens;
      this.users := users;
    }

    function Tables(): Db
      reads limits, tokens, users
    {
      Db(limits.rows, tokens.rows, users.rows)
    }

    method PostGoogle(req: HttpRequest, google: OA.Verification, now: int, freshId: string, freshToken: string)
      returns (r: Result<Reply, Failure>, steps: seq<Step>)
      requires JS.UsableConfig(tokens.config)
      modifies limits, tokens, users
      ensures var f := GoogleSignIn(tokens, old(Tables()), req, google, now, freshId, freshToken);
              Tables() == f.db && r == f.result && steps == f.steps
    {
      var limited := limits.AuthAttemptLimiter(req.ip, BodyEmail(req.body), now);
      if limited.Err? {
        return Err(limited.error), GoogleOrder[..1];
      }
      var valid := RV.ValidateRequest(RV.GoogleAuthSchema, req.body);
      if valid.Err? {
        return Err(valid.error), GoogleOrder[..2];
      }
      var info := OA.VerifyGoogleToken(google);
      if info.Err? {
        return Err(info.error), GoogleOrder[..3];
      }
      r, steps := CompleteSignIn(req, info.value, now, freshId, freshToken);
    }

    method CompleteSignIn(req: HttpRequest, info: OA.GoogleUserInfo, now: int, freshId: string, freshToken: string)
      returns (r: Result<Reply, Failure>, steps: seq<Step>)
      requires JS.UsableConfig(tokens.config)
      modifies limits, tokens, users
      ensures var f := SignInVerified(tokens, old(Tables()), req, info, now, freshId, freshToken);
              Tables() == f.db && r == f.result && steps == f.steps
    {
      var found := users.FindOrCreateUser(info, now, freshId);
      if found.Err? {
        return Err(found.error), GoogleOrder[..4];
      }
      var user := found.value;
      users.UpdateUserLastSeen(user.userId, now);
      var pair := tokens.GenerateTokenPair(user.userId, user.email, Some(RequestDevice(req)), now, freshToken, None);
      limits.ResetAuthRateLimit(RL.ClientAddress(req.ip), Some(user.email));
      r, steps := Ok(SignedIn(user, pair.value)), GoogleOrder;
    }

    method PostRefresh(req: HttpRequest, now: int, freshToken: string) returns (r: Result<Reply, Failure>, steps: seq<Step>)
      requires JS.UsableConfig(tokens.config)
      modifies tokens
      ensures var f := RefreshRoute(tokens, old(Tables()), req, now, freshToken);
              Tables() == f.db && r == f.result && steps == f.steps
    {
      steps := [Validate];
      var valid := RV.ValidateRequest(RV.RefreshTokenSchema, req.body);
      if valid.Err? {
        return Err(valid.error), steps;
      }
      steps := steps + [Rotate];
      var token := Member(req.body, "refreshToken").value.s;
      var pair := tokens.RefreshTokenPair(token, Some(RequestDevice(req)), now, freshToken, UsersById(users.rows), None);
      r := if pair.Ok? then Ok(Refreshed(pair.value)) else Err(pair.error);
    }

    /** Runs `authenticateToken` on a request object of its own; the user it
        sets is the one the handler reads. */
    method AuthenticateRequest(req: HttpRequest, now: int) returns (user: Result<MW.AuthUser, Failure>)
      ensures user == MW.Authenticate(req.authorization, tokens, now)
    {
      var request := new MW.Request(req.authorization);
      var next := MW.AuthenticateToken(request, tokens, now);
      if next.Err? {
        return Err(next.error);
      }
      return Ok(request.user.value);
    }

    method PostLogout(req: HttpRequest, now: int) returns (r: Result<Reply, Failure>, steps: seq<Step>)
      modifies tokens
      ensures var f := LogoutRoute(tokens, old(Tables()), req, now);
              Tables() == f.db && r == f.result && steps == f.steps
    {
      steps := [Authenticate];
      var auth := AuthenticateRequest(req, now);
      if auth.Err? {
        return Err(auth.error), steps;
      }
      var token := Member(req.body, "refreshToken");
      if token.None? || !Truthy(token.value) {
        return Err(App(ValidationError("Refresh token is required"))), steps;
      }
      steps := steps + [RevokeToken];
      if !token.value.Str? {
        return Err(Plain(NonStringToken)), steps;
      }
      tokens.RevokeRefreshToken(token.value.s);
      r := Ok(Done("Logged out successfully"));
    }

    method PostLogoutAll(req: HttpRequest, now: int) returns (r: Result<Reply, Failure>, steps: seq<Step>)
      modifies tokens
      ensures var f := LogoutAllRoute(tokens, old(Tables()), req, now);
              Tables() == f.db && r == f.result && steps == f.steps
    {
      steps := [Authenticate];
      var auth := AuthenticateRequest(req, now);
      if auth.Err? {
        return Err(auth.error), steps;
      }
      steps := steps + [RevokeAll];
      tokens.RevokeAllUserTokens(auth.value.userId);
      r := Ok(Done("Logged out from all devices"));
    }

    method GetMe(req: HttpRequest, now: int) returns (r: Result<Reply, Failure>, steps: seq<Step>)
      ensures var f := MeRoute(tokens, Tables(), req, now);
              r == f.result && steps == f.steps
    {
      steps := [Authenticate];
      var auth := AuthenticateRequest(req, now);
      if auth.Err? {
        return Err(auth.error), steps;
      }
      steps := steps + [LookUpUser];
      var row := users.GetUserById(auth.value.userId);
      r := if row.Ok? then Ok(Profile(row.value)) else Err(row.error);
    }

    method DeleteAccount(req: HttpRequest, now: int) returns (r: Result<Reply, Failure>, steps: seq<Step>)
      modifies tokens, users
      ensures var f := DeleteAccountRoute(tokens, old(Tables()), req, now);
              Tables() == f.db && r == f.result && steps == f.steps
    {
      steps := [Authenticate];
      var auth := AuthenticateRequest(req, now);
      if auth.Err? {
        return Err(auth.error), steps;
      }
      steps := steps + [RevokeAll];
      tokens.RevokeAllUserTokens(auth.value.userId);
      steps := steps + [DeactivateUser];
      users.DeactivateUser(auth.value.userId, now);
      r := Ok(Done("Account deactivated successfully"));
    }
  }
}
