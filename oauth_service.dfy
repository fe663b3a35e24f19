/** The Google sign-in service: the reading of a verified Google ID token's
    payload, and the find-or-create decision over the `users` table, with
    the last-seen update, the lookup by id and the deactivation. Google's
    verifier is not part of this model: what it returned (or threw) is the
    input `Verification`. The id the database would assign to a new user
    is the parameter `freshId`. */
module OAuthService {
  import opened Wrappers
  import opened Errors
  import opened Connection

  // ---------------------------------------------------------------------------
  // Construction

  datatype GoogleClient = GoogleClient(clientId: string, clientSecret: string)

  const CredentialsMissing := "Google OAuth credentials must be provided in environment variables"

  /** The constructor: both `GOOGLE_CLIENT_ID` and `GOOGLE_CLIENT_SECRET`
      must be set and non-empty. */
  function ConfigureGoogle(env: map<string, string>): (r: Result<GoogleClient, Failure>)
    ensures r.Ok? <==> "GOOGLE_CLIENT_ID" in env && env["GOOGLE_CLIENT_ID"] != ""
                       && "GOOGLE_CLIENT_SECRET" in env && env["GOOGLE_CLIENT_SECRET"] != ""
    ensures r.Ok? ==> r.value == GoogleClient(env["GOOGLE_CLIENT_ID"], env["GOOGLE_CLIENT_SECRET"])
    ensures r.Err? ==> r == Err(Plain(CredentialsMissing))
  {
    var id := if "GOOGLE_CLIENT_ID" in env then env["GOOGLE_CLIENT_ID"] else "";
    var secret := if "GOOGLE_CLIENT_SECRET" in env then env["GOOGLE_CLIENT_SECRET"] else "";
    if id == "" || secret == "" then Err(Plain(CredentialsMissing)) else Ok(GoogleClient(id, secret))
  }

  // ---------------------------------------------------------------------------
  // verifyGoogleToken

  /** The claims of a verified Google ID token that the service reads; each
      may be absent. */
  datatype GooglePayload = GooglePayload(sub: Option<string>, email: Option<string>, emailVerified: Option<bool>,
                                         name: Option<string>, picture: Option<string>, locale: Option<string>)

  /** What `verifyIdToken` and `getPayload` produced: a ticket, possibly
      without a payload, or an error thrown by the verifier. */
  datatype Verification = Ticket(payload: Option<GooglePayload>) | Thrown(error: Failure)

  datatype GoogleUserInfo = GoogleUserInfo(id: string, email: string, verifiedEmail: bool, name: string, picture: string,
                                           locale: Option<string>)

  /** `x || ''` for an optional string. */
  function OrEmpty(s: Option<string>): (r: string)
    ensures s.Some? ==> r == s.value
    ensures s.None? ==> r == ""
  {
    if s.Some? then s.value else ""
  }

  /** Was the error thrown as an `AuthenticationError` or a
      `ValidationError`? Those pass the `catch` unchanged. */
  predicate PassesCatch(e: Failure) {
    e.App? && (e.error.cls == Authentication || e.error.cls == Validation)
  }

  /** `verifyGoogleToken`: the user information read from the payload, or
      the classified failure. */
  function VerifyGoogleToken(v: Verification): (r: Result<GoogleUserInfo, Failure>)
    ensures v.Ticket? && v.payload.None? ==> r == Err(App(AuthenticationError("Invalid Google token payload")))
    ensures v.Ticket? && v.payload.Some? ==>
              var p := v.payload.value;
              && (p.email.None? || p.email == Some("") || p.sub.None? || p.sub == Some("") ==>
                    r == Err(App(ValidationError("Google token missing required fields"))))
              && (p.email.Some? && p.email != Some("") && p.sub.Some? && p.sub != Some("") ==>
                    r == Ok(GoogleUserInfo(p.sub.value, p.email.value, p.emailVerified.GetOr(false),
                                           OrEmpty(p.name), OrEmpty(p.picture), p.locale)))
    ensures v.Thrown? && PassesCatch(v.error) ==> r == Err(v.error)
    ensures v.Thrown? && !PassesCatch(v.error) ==> r == Err(App(AuthenticationError("Failed to verify Google token")))
    ensures r.Ok? ==> r.value.id != "" && r.value.email != ""
    ensures r.Err? ==> PassesCatch(r.error)
  {
    match v
    case Thrown(e) =>
      if PassesCatch(e) then Err(e) else Err(App(AuthenticationError("Failed to verify Google token")))
    case Ticket(None) => Err(App(AuthenticationError("Invalid Google token payload")))
    case Ticket(Some(p)) =>
      if p.email.None? || p.email.value == "" || p.sub.None? || p.sub.value == "" then
        Err(App(ValidationError("Google token missing required fields")))
      else
        Ok(GoogleUserInfo(p.sub.value, p.email.value, p.emailVerified.GetOr(false), OrEmpty(p.name), OrEmpty(p.picture), p.locale))
  }

  // ---------------------------------------------------------------------------
  // The users table

  /** A row of `users`. */
  datatype User = User(id: string, email: string, displayName: string, profilePictureUrl: Option<string>,
                       googleId: Option<string>, emailVerified: bool, isActive: bool,
                       lastSeenAt: Option<int>, updatedAt: Option<int>)

  /** What `findOrCreateUser` returns. */
  datatype SignIn = SignIn(userId: string, email: string, isNewUser: bool)

  predicate UniqueIds(rows: seq<User>) {
    forall i, j :: 0 <= i < j < |rows| ==> rows[i].id != rows[j].id
  }

  predicate HasId(rows: seq<User>, id: string) {
    exists i :: 0 <= i < |rows| && rows[i].id == id
  }

  /** The first active user with that Google id. */
  function ByGoogleId(rows: seq<User>, googleId: string): (r: Option<nat>)
    ensures r.Some? ==> r.value < |rows| && rows[r.value].isActive && rows[r.value].googleId == Some(googleId)
    ensures r.Some? ==> forall i :: 0 <= i < r.value ==> !(rows[i].isActive && rows[i].googleId == Some(googleId))
    ensures r.None? ==> forall i :: 0 <= i < |rows| ==> !(rows[i].isActive && rows[i].googleId == Some(googleId))
  {
    if |rows| == 0 then None
    else if rows[0].isActive && rows[0].googleId == Some(googleId) then Some(0)
    else
      var r := ByGoogleId(rows[1..], googleId);
      if r.Some? then Some(r.value + 1) else None
  }

  /** The first active user with that email. */
  function ByEmail(rows: seq<User>, email: string): (r: Option<nat>)
    ensures r.Some? ==> r.value < |rows| && rows[r.value].isActive && rows[r.value].email == email
    ensures r.Some? ==> forall i :: 0 <= i < r.value ==> !(rows[i].isActive && rows[i].email == email)
    ensures r.None? ==> forall i :: 0 <= i < |rows| ==> !(rows[i].isActive && rows[i].email == email)
  {
    if |rows| == 0 then None
    else if rows[0].isActive && rows[0].email == email then Some(0)
    else
      var r := ByEmail(rows[1..], email);
      if r.Some? then Some(r.value + 1) else None
  }

  /** `!user.google_id`: no Google account linked yet. */
  predicate Unlinked(u: User) {
    u.googleId.None? || u.googleId == Some("")
  }

  /** Linking a Google account: the user with that id gets the Google id,
      the verified flag, the picture and a new update time. */
  function Link(rows: seq<User>, id: string, info: GoogleUserInfo, now: int): (r: seq<User>)
    ensures |r| == |rows|
    ensures forall i :: 0 <= i < |rows| ==>
              r[i] == if rows[i].id == id
                      then rows[i].(googleId := Some(info.id), emailVerified := info.verifiedEmail,
                                    profilePictureUrl := Some(info.picture), updatedAt := Some(now))
                      else rows[i]
  {
    seq(|rows|, i requires 0 <= i < |rows| =>
      if rows[i].id == id
      then rows[i].(googleId := Some(info.id), emailVerified := info.verifiedEmail,
                    profilePictureUrl := Some(info.picture), updatedAt := Some(now))
      else rows[i])
  }

  /** The row `createUser` inserts: active, linked to the Google account. */
  function NewUser(info: GoogleUserInfo, freshId: string): User {
    User(freshId, info.email, info.name, Some(info.picture), Some(info.id), info.verifiedEmail, true, None, None)
  }

  const EmailConflict := "Email already associated with different Google account"

  /** The body of `findOrCreateUser`'s transaction callback. */
  function FindOrCreateSteps(rows: seq<User>, info: GoogleUserInfo, now: int, freshId: string)
    : (o: (seq<User>, Result<SignIn, Failure>))
  {
    match ByGoogleId(rows, info.id)
    case Some(i) => (rows, Ok(SignIn(rows[i].id, rows[i].email, false)))
    case None =>
      match ByEmail(rows, info.email)
      case Some(i) =>
        if Unlinked(rows[i]) then (Link(rows, rows[i].id, info, now), Ok(SignIn(rows[i].id, rows[i].email, false)))
        else (rows, Err(App(ValidationError(EmailConflict))))
      case None => (rows + [NewUser(info, freshId)], Ok(SignIn(freshId, info.email, true)))
  }

  /** `findOrCreateUser(info)`, in a transaction over the table. */
  function FindOrCreate(rows: seq<User>, info: GoogleUserInfo, now: int, freshId: string): TxOutcome<seq<User>, SignIn> {
    Transaction(rows, (s: seq<User>) => FindOrCreateSteps(s, info, now, freshId))
  }

  /** An active user with the Google id is returned as it is, and nothing is
      written. */
  lemma FoundByGoogleId(rows: seq<User>, info: GoogleUserInfo, now: int, freshId: string, i: nat)
    requires ByGoogleId(rows, info.id) == Some(i)
    ensures var o := FindOrCreate(rows, info, now, freshId);
            o.state == rows && o.result == Ok(SignIn(rows[i].id, rows[i].email, false))
  {
  }

  /** Otherwise an active, unlinked user with the email gets the Google
      account linked; only that user's row changes. */
  lemma LinkedByEmail(rows: seq<User>, info: GoogleUserInfo, now: int, freshId: string, i: nat)
    requires UniqueIds(rows)
    requires ByGoogleId(rows, info.id).None? && ByEmail(rows, info.email) == Some(i) && Unlinked(rows[i])
    ensures var o := FindOrCreate(rows, info, now, freshId);
            && o.result == Ok(SignIn(rows[i].id, rows[i].email, false))
            && |o.state| == |rows|
            && o.state[i] == rows[i].(googleId := Some(info.id), emailVerified := info.verifiedEmail,
                                      profilePictureUrl := Some(info.picture), updatedAt := Some(now))
            && forall j :: 0 <= j < |rows| && j != i ==> o.state[j] == rows[j]
  {
  }

  /** An active user with the email but another Google account is a
      conflict, and nothing is written. */
  lemma ConflictChangesNothing(rows: seq<User>, info: GoogleUserInfo, now: int, freshId: string, i: nat)
    requires ByGoogleId(rows, info.id).None? && ByEmail(rows, info.email) == Some(i) && !Unlinked(rows[i])
    ensures var o := FindOrCreate(rows, info, now, freshId);
            o.state == rows && o.result == Err(App(ValidationError(EmailConflict))) && o.statements[1] == Rollback
  {
  }

  /** Otherwise exactly one new active user is inserted. */
  lemma CreatesOneUser(rows: seq<User>, info: GoogleUserInfo, now: int, freshId: string)
    requires ByGoogleId(rows, info.id).None? && ByEmail(rows, info.email).None?
    ensures var o := FindOrCreate(rows, info, now, freshId);
            && o.state == rows + [NewUser(info, freshId)]
            && o.state[|rows|].isActive
            && o.result == Ok(SignIn(freshId, info.email, true))
  {
  }

  /** With a fresh id for new users, ids stay unique. */
  lemma FindOrCreateKeepsIdsUnique(rows: seq<User>, info: GoogleUserInfo, now: int, freshId: string)
    requires UniqueIds(rows) && !HasId(rows, freshId)
    ensures UniqueIds(FindOrCreate(rows, info, now, freshId).state)
  {
    var o := FindOrCreate(rows, info, now, freshId);
    if ByGoogleId(rows, info.id).None? && ByEmail(rows, info.email).None? {
      assert o.state == rows + [NewUser(info, freshId)];
    }
  }

  /** Signing in is stable: once a sign-in succeeded, signing in again with
      the same Google account finds the same user, as an existing user, and
      writes nothing. */
  lemma {:induction false} SignInIsStable(rows: seq<User>, info: GoogleUserInfo, now: int, freshId: string,
                                          later: int, freshId': string)
    requires UniqueIds(rows)
    requires FindOrCreate(rows, info, now, freshId).result.Ok?
    ensures var first := FindOrCreate(rows, info, now, freshId);
            var second := FindOrCreate(first.state, info, later, freshId');
            && second.state == first.state
            && second.result == Ok(SignIn(first.result.value.userId, first.result.value.email, false))
  {
    var first := FindOrCreate(rows, info, now, freshId);
    match ByGoogleId(rows, info.id)
    case Some(i) =>
    case None =>
      match ByEmail(rows, info.email)
      case Some(i) =>
        var s := first.state;
        assert s == Link(rows, rows[i].id, info, now);
        assert s[i].googleId == Some(info.id) && s[i].isActive;
        forall j | 0 <= j < i ensures !(s[j].isActive && s[j].googleId == Some(info.id)) {
          assert rows[j].id != rows[i].id;
        }
        assert ByGoogleId(s, info.id) == Some(i);
      case None =>
        var s := first.state;
        assert s == rows + [NewUser(info, freshId)];
        forall j | 0 <= j < |rows| ensures !(s[j].isActive && s[j].googleId == Some(info.id)) {
          assert s[j] == rows[j];
        }
        assert s[|rows|].isActive && s[|rows|].googleId == Some(info.id);
        assert ByGoogleId(s, info.id).Some?;
  }

  /** The last-seen update: the users with that id get `now` as last seen. */
  function Touch(rows: seq<User>, id: string, now: int): (r: seq<User>)
    ensures |r| == |rows|
    ensures forall i :: 0 <= i < |rows| ==> r[i] == if rows[i].id == id then rows[i].(lastSeenAt := Some(now)) else rows[i]
  {
    seq(|rows|, i requires 0 <= i < |rows| => if rows[i].id == id then rows[i].(lastSeenAt := Some(now)) else rows[i])
  }

  /** Deactivation: the users with that id become inactive, updated at
      `now`. */
  function Deactivate(rows: seq<User>, id: string, now: int): (r: seq<User>)
    ensures |r| == |rows|
    ensures forall i :: 0 <= i < |rows| ==>
              r[i] == if rows[i].id == id then rows[i].(isActive := false, updatedAt := Some(now)) else rows[i]
  {
    seq(|rows|, i requires 0 <= i < |rows| =>
      if rows[i].id == id then rows[i].(isActive := false, updatedAt := Some(now)) else rows[i])
  }

  /** The columns `getUserById` selects, of those the model keeps. */
  datatype UserView = UserView(id: string, email: string, displayName: string, profilePictureUrl: Option<string>,
                               emailVerified: bool, lastSeenAt: Option<int>)

  function Selected(u: User): UserView {
    UserView(u.id, u.email, u.displayName, u.profilePictureUrl, u.emailVerified, u.lastSeenAt)
  }

  /** `getUserById`: the selected columns of the first active row with the
      id. */
  function GetUser(rows: seq<User>, id: string): (r: Result<UserView, Failure>)
    ensures r.Ok? ==> r.value.id == id
    ensures r.Ok? ==> exists i :: 0 <= i < |rows| && rows[i].id == id && rows[i].isActive && r.value == Selected(rows[i])
    ensures r.Err? <==> forall i :: 0 <= i < |rows| ==> !(rows[i].id == id && rows[i].isActive)
    ensures r.Err? ==> r.error == App(AuthenticationError("User not found"))
  {
    if |rows| == 0 then Err(App(AuthenticationError("User not found")))
    else if rows[0].id == id && rows[0].isActive then Ok(Selected(rows[0]))
    else
      var r := GetUser(rows[1..], id);
      assert forall i :: 0 < i < |rows| ==> rows[i] == rows[1..][i - 1];
      r
  }

  /** The lookup answers with the first active row that has the id. */
  lemma {:induction false} GetUserFindsFirstActive(rows: seq<User>, id: string, i: nat)
    requires i < |rows| && rows[i].id == id && rows[i].isActive
    requires forall j :: 0 <= j < i ==> !(rows[j].id == id && rows[j].isActive)
    ensures GetUser(rows, id) == Ok(Selected(rows[i]))
  {
    if i > 0 {
      assert rows[1..][i - 1] == rows[i];
      GetUserFindsFirstActive(rows[1..], id, i - 1);
    }
  }

  /** A deactivated user is never found again, by id, Google id or email;
      deactivation changes no other user. */
  lemma DeactivatedUserIsGone(rows: seq<User>, id: string, now: int, googleId: string, email: string)
    ensures var after := Deactivate(rows, id, now);
            && GetUser(after, id) == Err(App(AuthenticationError("User not found")))
            && (ByGoogleId(after, googleId).Some? ==> after[ByGoogleId(after, googleId).value].id != id)
            && (ByEmail(after, email).Some? ==> after[ByEmail(after, email).value].id != id)
            && forall i :: 0 <= i < |rows| && rows[i].id != id ==> after[i] == rows[i]
  {
  }

  /** A deactivated user signing in again with the same Google account, when
      no other user holds that account or email, gets a new account. */
  lemma DeactivatedUserSignsUpAgain(rows: seq<User>, id: string, now: int, info: GoogleUserInfo, later: int, freshId: string)
    requires forall i :: 0 <= i < |rows| && (rows[i].googleId == Some(info.id) || rows[i].email == info.email) ==> rows[i].id == id
    ensures var after := Deactivate(rows, id, now);
            FindOrCreate(after, info, later, freshId).result == Ok(SignIn(freshId, info.email, true))
  {
    var after := Deactivate(rows, id, now);
    assert ByGoogleId(after, info.id).None?;
    assert ByEmail(after, info.email).None?;
  }

  /** The last-seen update changes nothing but `last_seen_at`, and does not
      change who can be found. */
  lemma TouchKeepsLookups(rows: seq<User>, id: string, now: int, other: string)
    ensures GetUser(Touch(rows, id, now), other).Ok? <==> GetUser(rows, other).Ok?
    ensures forall i :: 0 <= i < |rows| ==> Touch(rows, id, now)[i].(lastSeenAt := rows[i].lastSeenAt) == rows[i]
  {
  }

  /** The `users` table. */
  class UserTable {
    var rows: seq<User>

    constructor ()
      ensures rows == []
    {
      rows := [];
    }

    method FindOrCreateUser(info: GoogleUserInfo, now: int, freshId: string) returns (r: Result<SignIn, Failure>)
      modifies this
      ensures var o := FindOrCreate(old(rows), info, now, freshId);
              rows == o.state && r == o.result
    {
      var outcome := FindOrCreate(rows, info, now, freshId);
      rows := outcome.state;
      r := outcome.result;
    }

    method UpdateUserLastSeen(userId: string, now: int)
      modifies this
      ensures rows == Touch(old(rows), userId, now)
    {
      rows := Touch(rows, userId, now);
    }

    method GetUserById(userId: string) returns (r: Result<UserView, Failure>)
      ensures r == GetUser(rows, userId)
      ensures r.Err? <==> forall i :: 0 <= i < |rows| ==> !(rows[i].id == userId && rows[i].isActive)
    {
      r := GetUser(rows, userId);
    }

    method DeactivateUser(userId: string, now: int)
      modifies this
      ensures rows == Deactivate(old(rows), userId, now)
    {
      rows := Deactivate(rows, userId, now);
    }
  }
}
