/** The token service: access tokens issued through an abstract JWT codec,
    random refresh tokens stored by hash in the `refresh_tokens` table, their
    single-use rotation inside a transaction, revocation and the cleanup
    sweep. Time is the parameter `now` in milliseconds, shared by the
    service and the database. The random refresh token a call would draw is
    the parameter `freshToken`. */
module JwtService {
  import opened Wrappers
  import opened Strings
  import opened Errors
  import opened Connection
  import Json

  /** The device data object stored with a refresh token as JSON. Its
      declared members are `userAgent`, `ipAddress` and `deviceId`, but every
      member the caller puts in is stored. */
  type DeviceInfo = map<string, Json.Value>

  /** The claims of a token: `type` is `'access'` for the tokens issued here. */
  datatype Payload = Payload(userId: string, email: string, tokenType: string)

  datatype TokenPair = TokenPair(accessToken: string, refreshToken: string, expiresIn: int)

  /** A row of `refresh_tokens`. */
  datatype RefreshRecord = RefreshRecord(userId: string, tokenHash: string, expiresAt: int, revoked: bool, deviceInfo: Option<DeviceInfo>)

  /** What `jwt.verify` does with a token: it accepts it with its payload, or
      throws a `JsonWebTokenError` (malformed, bad signature) or a
      `TokenExpiredError`. Whether the library's `TokenExpiredError` is also
      a `JsonWebTokenError` is its own class hierarchy, carried by the flag. */
  datatype CodecOutcome = Accepted(payload: Payload) | Malformed | Expired(isJsonWebTokenError: bool)

  /** The JWT library: signing a payload at a time, and verifying a token at
      a time. */
  datatype Codec = Codec(sign: (Payload, int) -> string, verify: (string, int) -> CodecOutcome)

  /** A codec accepts a token it has just signed, with its payload. */
  ghost predicate SoundAtIssue(codec: Codec) {
    forall p: Payload, t: int :: codec.verify(codec.sign(p, t), t) == Accepted(p)
  }

  // ---------------------------------------------------------------------------
  // Construction and expiry strings

  datatype JwtConfig = JwtConfig(accessSecret: string, refreshSecret: string, accessExpiry: string, refreshExpiry: string)

  const SecretsMissing := "JWT secrets must be provided in environment variables"

  /** `process.env.KEY || default`: an unset or empty variable takes the
      default. */
  function OrDefault(env: map<string, string>, key: string, default: string): (r: string)
    ensures key in env && env[key] != "" ==> r == env[key]
    ensures key !in env || env[key] == "" ==> r == default
  {
    if key in env && env[key] != "" then env[key] else default
  }

  /** The constructor: both secrets must be set and non-empty; the expiries
      default to `15m` and `7d`. */
  function Configure(env: map<string, string>): (r: Result<JwtConfig, Failure>)
    ensures r.Ok? <==> "JWT_ACCESS_SECRET" in env && env["JWT_ACCESS_SECRET"] != ""
                       && "JWT_REFRESH_SECRET" in env && env["JWT_REFRESH_SECRET"] != ""
    ensures r.Err? ==> r.error == Plain(SecretsMissing)
    ensures r.Ok? ==> && r.value.accessSecret == env["JWT_ACCESS_SECRET"]
                      && r.value.refreshSecret == env["JWT_REFRESH_SECRET"]
                      && r.value.accessExpiry == OrDefault(env, "JWT_ACCESS_EXPIRY", "15m")
                      && r.value.refreshExpiry == OrDefault(env, "JWT_REFRESH_EXPIRY", "7d")
  {
    var access := if "JWT_ACCESS_SECRET" in env then env["JWT_ACCESS_SECRET"] else "";
    var refresh := if "JWT_REFRESH_SECRET" in env then env["JWT_REFRESH_SECRET"] else "";
    var config := JwtConfig(access, refresh, OrDefault(env, "JWT_ACCESS_EXPIRY", "15m"), OrDefault(env, "JWT_REFRESH_EXPIRY", "7d"));
    if access == "" || refresh == "" then Err(Plain(SecretsMissing)) else Ok(config)
  }

  /** Unset expiries take their defaults; a missing secret fails. */
  lemma ConfigureDefaults(env: map<string, string>)
    requires "JWT_ACCESS_SECRET" in env && env["JWT_ACCESS_SECRET"] != ""
    requires "JWT_REFRESH_SECRET" in env && env["JWT_REFRESH_SECRET"] != ""
    requires "JWT_ACCESS_EXPIRY" !in env && "JWT_REFRESH_EXPIRY" !in env
    ensures Configure(env).Ok?
    ensures Configure(env).value.accessExpiry == "15m" && Configure(env).value.refreshExpiry == "7d"
    ensures Configure(env - {"JWT_ACCESS_SECRET"}) == Err(Plain(SecretsMissing))
  {
  }

  /** The units `getExpiryInSeconds` knows, with their length in seconds. */
  function UnitSeconds(unit: char): Option<nat> {
    if unit == 's' then Some(1)
    else if unit == 'm' then Some(60)
    else if unit == 'h' then Some(3600)
    else if unit == 'd' then Some(86400)
    else None
  }

  /** An expiry string whose number part is digits when its unit is known
      (the `parseInt` results that are not a number are not modelled). */
  predicate WellFormedExpiry(expiry: string) {
    |expiry| > 0 && UnitSeconds(expiry[|expiry| - 1]).Some? ==> IsDigits(expiry[..|expiry| - 1])
  }

  /** `getExpiryInSeconds(expiry)`: the number before the last character
      times that unit's seconds; an unknown unit (or an empty string) means
      900 seconds. */
  function ExpiryInSeconds(expiry: string): (n: nat)
    requires WellFormedExpiry(expiry)
    ensures |expiry| == 0 || UnitSeconds(expiry[|expiry| - 1]).None? ==> n == 900
  {
    if |expiry| == 0 then 900
    else match UnitSeconds(expiry[|expiry| - 1])
      case None => 900
      case Some(seconds) => DigitsValue(expiry[..|expiry| - 1]) * seconds
  }

  /** A number followed by a known unit is that many units. */
  lemma ExpiryOfNumberAndUnit(n: nat, unit: char)
    requires UnitSeconds(unit).Some?
    ensures WellFormedExpiry(NatToString(n) + [unit])
    ensures ExpiryInSeconds(NatToString(n) + [unit]) == n * UnitSeconds(unit).value
  {
    var e := NatToString(n) + [unit];
    assert e[..|e| - 1] == NatToString(n);
    DigitsValueOfNatToString(n);
  }

  /** The defaults: fifteen minutes and seven days. */
  lemma DefaultExpiries()
    ensures WellFormedExpiry("15m") && ExpiryInSeconds("15m") == 900
    ensures WellFormedExpiry("7d") && ExpiryInSeconds("7d") == 604800
  {
    assert NatToString(15) + ['m'] == "15m";
    ExpiryOfNumberAndUnit(15, 'm');
    assert NatToString(7) + ['d'] == "7d";
    ExpiryOfNumberAndUnit(7, 'd');
  }

  predicate UsableConfig(config: JwtConfig) {
    WellFormedExpiry(config.accessExpiry) && WellFormedExpiry(config.refreshExpiry)
  }

  // ---------------------------------------------------------------------------
  // The refresh_tokens statements

  /** The row the rotation's `SELECT ... JOIN users` returns first: the first
      row with the hash, not revoked, not yet expired, whose user exists.
      `users` maps each user id of the `users` table to its email. */
  function FindValid(rows: seq<RefreshRecord>, tokenHash: string, now: int, users: map<string, string>): (r: Option<nat>)
    ensures r.Some? ==> r.value < |rows| && Redeemable(rows[r.value], tokenHash, now, users)
    ensures r.Some? ==> forall i :: 0 <= i < r.value ==> !Redeemable(rows[i], tokenHash, now, users)
    ensures r.None? ==> forall i :: 0 <= i < |rows| ==> !Redeemable(rows[i], tokenHash, now, users)
  {
    if |rows| == 0 then None
    else if Redeemable(rows[0], tokenHash, now, users) then Some(0)
    else
      var r := FindValid(rows[1..], tokenHash, now, users);
      if r.Some? then Some(r.value + 1) else None
  }

  predicate Redeemable(row: RefreshRecord, tokenHash: string, now: int, users: map<string, string>) {
    row.tokenHash == tokenHash && !row.revoked && row.expiresAt > now && row.userId in users
  }

  /** Revocation by hash: every row with that token hash is marked revoked. */
  function RevokeHash(rows: seq<RefreshRecord>, tokenHash: string): (r: seq<RefreshRecord>)
    ensures |r| == |rows|
    ensures forall i :: 0 <= i < |rows| ==>
              r[i] == if rows[i].tokenHash == tokenHash then rows[i].(revoked := true) else rows[i]
  {
    seq(|rows|, i requires 0 <= i < |rows| => if rows[i].tokenHash == tokenHash then rows[i].(revoked := true) else rows[i])
  }

  /** Revocation by user: every unrevoked row of that user is marked
      revoked. */
  function RevokeUser(rows: seq<RefreshRecord>, userId: string): (r: seq<RefreshRecord>)
    ensures |r| == |rows|
    ensures forall i :: 0 <= i < |rows| ==>
              r[i] == if rows[i].userId == userId && !rows[i].revoked then rows[i].(revoked := true) else rows[i]
  {
    seq(|rows|, i requires 0 <= i < |rows| =>
      if rows[i].userId == userId && !rows[i].revoked then rows[i].(revoked := true) else rows[i])
  }

  /** The cleanup predicate: expired before `now`, or revoked. */
  predicate Sweepable(row: RefreshRecord, now: int) {
    row.expiresAt < now || row.revoked
  }

  /** The cleanup sweep: the rows kept once expired and revoked rows are
      deleted. */
  function Sweep(rows: seq<RefreshRecord>, now: int): (r: seq<RefreshRecord>)
    ensures |r| <= |rows|
    ensures forall x :: x in r <==> x in rows && !Sweepable(x, now)
    ensures multiset(r) <= multiset(rows)
  {
    if |rows| == 0 then []
    else
      assert rows == [rows[0]] + rows[1..];
      (if Sweepable(rows[0], now) then [] else [rows[0]]) + Sweep(rows[1..], now)
  }

  /** The sweep keeps every row it does not match, in order, and the number
      it reports is the number of rows that matched. */
  lemma {:induction false} SweepCount(rows: seq<RefreshRecord>, now: int)
    ensures |rows| - |Sweep(rows, now)| == |SweptRows(rows, now)|
    ensures forall x :: x in SweptRows(rows, now) <==> x in rows && Sweepable(x, now)
    ensures multiset(Sweep(rows, now)) + multiset(SweptRows(rows, now)) == multiset(rows)
  {
    if |rows| > 0 {
      SweepCount(rows[1..], now);
      assert rows == [rows[0]] + rows[1..];
    }
  }

  /** The rows the sweep deletes. */
  function SweptRows(rows: seq<RefreshRecord>, now: int): seq<RefreshRecord> {
    if |rows| == 0 then []
    else (if Sweepable(rows[0], now) then [rows[0]] else []) + SweptRows(rows[1..], now)
  }

  /** An update never clears a revoked flag: row `i` stays revoked. */
  predicate RevocationKept(before: seq<RefreshRecord>, after: seq<RefreshRecord>) {
    |before| <= |after| && forall i :: 0 <= i < |before| && before[i].revoked ==> after[i].revoked
  }

  /** Apart from the revoked flag, an update changes nothing in row `i`. */
  predicate OnlyRevocations(before: seq<RefreshRecord>, after: seq<RefreshRecord>) {
    |before| <= |after| && forall i :: 0 <= i < |before| ==> after[i] == before[i].(revoked := after[i].revoked)
  }

  /** Revoking by hash or by user only sets flags, never clears one, and a
      second identical call changes nothing. */
  lemma RevocationsOnlySetFlags(rows: seq<RefreshRecord>, tokenHash: string, userId: string)
    ensures RevocationKept(rows, RevokeHash(rows, tokenHash)) && OnlyRevocations(rows, RevokeHash(rows, tokenHash))
    ensures RevocationKept(rows, RevokeUser(rows, userId)) && OnlyRevocations(rows, RevokeUser(rows, userId))
    ensures RevokeHash(RevokeHash(rows, tokenHash), tokenHash) == RevokeHash(rows, tokenHash)
    ensures RevokeUser(RevokeUser(rows, userId), userId) == RevokeUser(rows, userId)
  {
  }

  /** After revoking by hash no row with that hash can be redeemed; after
      revoking by user none of the user's rows can. Rows of other hashes
      (users) are untouched. */
  lemma RevokedRowsAreDead(rows: seq<RefreshRecord>, tokenHash: string, userId: string, now: int, users: map<string, string>)
    ensures FindValid(RevokeHash(rows, tokenHash), tokenHash, now, users).None?
    ensures forall i :: 0 <= i < |rows| && rows[i].tokenHash != tokenHash ==> RevokeHash(rows, tokenHash)[i] == rows[i]
    ensures forall i :: 0 <= i < |rows| && rows[i].userId == userId ==> RevokeUser(rows, userId)[i].revoked
    ensures forall i :: 0 <= i < |rows| && rows[i].userId != userId ==> RevokeUser(rows, userId)[i] == rows[i]
  {
  }

  // ---------------------------------------------------------------------------
  // The service

  class JwtService {
    const config: JwtConfig
    const codec: Codec
    /** `hashToken`. */
    const hash: string -> string
    /** The `refresh_tokens` table. */
    var rows: seq<RefreshRecord>

    constructor (config: JwtConfig, codec: Codec, hash: string -> string)
      requires UsableConfig(config)
      ensures this.config == config && this.codec == codec && this.hash == hash && rows == []
    {
      this.config := config;
      this.codec := codec;
      this.hash := hash;
      rows := [];
    }

    /** `generateAccessToken`: the signed `{userId, email, type: 'access'}`. */
    function AccessToken(userId: string, email: string, now: int): string {
      codec.sign(Payload(userId, email, "access"), now)
    }

    /** The row `storeRefreshToken` inserts for a refresh token issued at
        `now`. */
    function IssuedRecord(userId: string, refreshToken: string, now: int, deviceInfo: Option<DeviceInfo>): (rec: RefreshRecord)
      requires UsableConfig(config)
      ensures rec.userId == userId && rec.tokenHash == hash(refreshToken) && !rec.revoked
      ensures rec.expiresAt == now + ExpiryInSeconds(config.refreshExpiry) * 1000
      ensures rec.expiresAt > now || ExpiryInSeconds(config.refreshExpiry) == 0
    {
      RefreshRecord(userId, hash(refreshToken), now + ExpiryInSeconds(config.refreshExpiry) * 1000, false, deviceInfo)
    }

    /** `generateTokenPair(userId, email, deviceInfo)`: issues an access token
        and the refresh token `freshToken`, whose row is inserted. When the
        insert fails (`storeError`), that error is thrown and nothing is
        written. */
    method GenerateTokenPair(userId: string, email: string, deviceInfo: Option<DeviceInfo>, now: int,
                             freshToken: string, storeError: Option<string>) returns (r: Result<TokenPair, Failure>)
      requires UsableConfig(config)
      modifies this
      ensures storeError.Some? ==> r == Err(Plain(storeError.value)) && rows == old(rows)
      ensures storeError.None? ==>
                && r == Ok(TokenPair(AccessToken(userId, email, now), freshToken, ExpiryInSeconds(config.accessExpiry)))
                && rows == old(rows) + [IssuedRecord(userId, freshToken, now, deviceInfo)]
    {
      var accessToken := AccessToken(userId, email, now);
      var expiresIn := ExpiryInSeconds(config.accessExpiry);
      if storeError.Some? {
        return Err(Plain(storeError.value));
      }
      rows := rows + [IssuedRecord(userId, freshToken, now, deviceInfo)];
      return Ok(TokenPair(accessToken, freshToken, expiresIn));
    }

    /** `verifyAccessToken(token)` at time `now`. A thrown
        `AuthenticationError('Invalid token type')` is not a library error
        and passes through the `catch` unchanged. */
    function VerifyAccessToken(token: string, now: int): (r: Result<Payload, Failure>)
      ensures r.Ok? <==> codec.verify(token, now).Accepted? && codec.verify(token, now).payload.tokenType == "access"
      ensures r.Ok? ==> r.value == codec.verify(token, now).payload
      ensures r.Err? ==> r.error.IsAuthentication()
      ensures codec.verify(token, now).Accepted? && r.Err? ==> r.error.error.message == "Invalid token type"
    {
      match codec.verify(token, now)
      case Accepted(payload) =>
        if payload.tokenType != "access" then Err(App(AuthenticationError("Invalid token type"))) else Ok(payload)
      case Malformed => Err(App(AuthenticationError("Invalid access token")))
      case Expired(isJsonWebTokenError) =>
        if isJsonWebTokenError then Err(App(AuthenticationError("Invalid access token")))
        else Err(App(AuthenticationError("Access token expired")))
    }

    /** An access token just issued verifies to the user's claims. */
    lemma IssuedAccessTokenVerifies(userId: string, email: string, now: int)
      requires SoundAtIssue(codec)
      ensures VerifyAccessToken(AccessToken(userId, email, now), now) == Ok(Payload(userId, email, "access"))
    {
    }

    /** The body of the rotation's transaction callback, on the table as the
        callback sees it. */
    function RotationSteps(rows: seq<RefreshRecord>, refreshToken: string, deviceInfo: Option<DeviceInfo>, now: int,
                           freshToken: string, users: map<string, string>, storeError: Option<string>)
      : (o: (seq<RefreshRecord>, Result<TokenPair, Failure>))
      requires UsableConfig(config)
      ensures FindValid(rows, hash(refreshToken), now, users).None? ==>
                o == (rows, Err(App(AuthenticationError("Invalid or expired refresh token"))))
    {
      var tokenHash := hash(refreshToken);
      match FindValid(rows, tokenHash, now, users)
      case None => (rows, Err(App(AuthenticationError("Invalid or expired refresh token"))))
      case Some(i) =>
        var userId := rows[i].userId;
        var revoked := RevokeHash(rows, tokenHash);
        var pair := TokenPair(AccessToken(userId, users[userId], now), freshToken, ExpiryInSeconds(config.accessExpiry));
        if storeError.Some? then (revoked, Err(Plain(storeError.value)))
        else (revoked + [IssuedRecord(userId, freshToken, now, deviceInfo)], Ok(pair))
    }

    /** `refreshTokenPair(refreshToken, deviceInfo)`: the rotation as a
        transaction over the table `rows`. */
    function Rotation(rows: seq<RefreshRecord>, refreshToken: string, deviceInfo: Option<DeviceInfo>, now: int,
                      freshToken: string, users: map<string, string>, storeError: Option<string>)
      : (o: TxOutcome<seq<RefreshRecord>, TokenPair>)
      requires UsableConfig(config)
      ensures o.result.Err? ==> o.state == rows
    {
      Transaction(rows, (s: seq<RefreshRecord>) => RotationSteps(s, refreshToken, deviceInfo, now, freshToken, users, storeError))
    }

    /** A token with no redeemable row is refused with an
        `AuthenticationError` and nothing changes. */
    lemma RotationRefusesUnredeemable(rows: seq<RefreshRecord>, refreshToken: string, deviceInfo: Option<DeviceInfo>, now: int,
                                      freshToken: string, users: map<string, string>, storeError: Option<string>)
      requires UsableConfig(config)
      requires forall i :: 0 <= i < |rows| ==> !Redeemable(rows[i], hash(refreshToken), now, users)
      ensures var o := Rotation(rows, refreshToken, deviceInfo, now, freshToken, users, storeError);
              && o.state == rows
              && o.result == Err(App(AuthenticationError("Invalid or expired refresh token")))
              && o.statements == [Begin, Rollback, Release]
    {
    }

    /** A failed insert of the new row rolls the revocation back. */
    lemma RotationRollsBackOnStoreFailure(rows: seq<RefreshRecord>, refreshToken: string, deviceInfo: Option<DeviceInfo>, now: int,
                                          freshToken: string, users: map<string, string>, message: string)
      requires UsableConfig(config)
      ensures var o := Rotation(rows, refreshToken, deviceInfo, now, freshToken, users, Some(message));
              && o.state == rows && o.result.Err?
              && (o.result.error == Plain(message) || o.result.error.IsAuthentication())
    {
    }

    /** A successful rotation revokes every row with the presented token's
        hash, appends one row for the same user keyed by the new token, and
        returns the new token with an access token for that user. */
    lemma RotationSucceeds(rows: seq<RefreshRecord>, refreshToken: string, deviceInfo: Option<DeviceInfo>, now: int,
                           freshToken: string, users: map<string, string>, i: nat)
      requires UsableConfig(config)
      requires FindValid(rows, hash(refreshToken), now, users) == Some(i)
      ensures var o := Rotation(rows, refreshToken, deviceInfo, now, freshToken, users, None);
              && o.result == Ok(TokenPair(AccessToken(rows[i].userId, users[rows[i].userId], now), freshToken,
                                          ExpiryInSeconds(config.accessExpiry)))
              && o.state == RevokeHash(rows, hash(refreshToken)) + [IssuedRecord(rows[i].userId, freshToken, now, deviceInfo)]
              && o.statements == [Begin, Commit, Release]
              && RevocationKept(rows, o.state) && OnlyRevocations(rows, o.state)
              && |o.state| == |rows| + 1
    {
    }

    /** Rotation is single use: once a token has been rotated (and the new
        token hashes differently), presenting it again fails, at any time. */
    lemma RotationIsSingleUse(rows: seq<RefreshRecord>, refreshToken: string, deviceInfo: Option<DeviceInfo>, now: int,
                              freshToken: string, users: map<string, string>, later: int, deviceInfo': Option<DeviceInfo>,
                              freshToken': string, storeError': Option<string>)
      requires UsableConfig(config)
      requires hash(freshToken) != hash(refreshToken)
      requires Rotation(rows, refreshToken, deviceInfo, now, freshToken, users, None).result.Ok?
      ensures var o := Rotation(rows, refreshToken, deviceInfo, now, freshToken, users, None);
              Rotation(o.state, refreshToken, deviceInfo', later, freshToken', users, storeError').result
                == Err(App(AuthenticationError("Invalid or expired refresh token")))
    {
      var h := hash(refreshToken);
      var i := FindValid(rows, h, now, users).value;
      RotationSucceeds(rows, refreshToken, deviceInfo, now, freshToken, users, i);
      var o := Rotation(rows, refreshToken, deviceInfo, now, freshToken, users, None);
      forall k | 0 <= k < |o.state| ensures !Redeemable(o.state[k], h, later, users) {
        if k < |rows| {
          assert o.state[k] == RevokeHash(rows, h)[k];
        } else {
          assert o.state[k] == IssuedRecord(rows[i].userId, freshToken, now, deviceInfo);
        }
      }
    }

    /** A refresh token just issued can be rotated while it has not expired,
        as long as its user exists. */
    lemma IssuedTokenIsRedeemable(userId: string, freshToken: string, issuedAt: int, deviceInfo: Option<DeviceInfo>,
                                  now: int, users: map<string, string>, deviceInfo': Option<DeviceInfo>, freshToken': string)
      requires UsableConfig(config)
      requires userId in users && now < issuedAt + ExpiryInSeconds(config.refreshExpiry) * 1000
      ensures var table := rows + [IssuedRecord(userId, freshToken, issuedAt, deviceInfo)];
              Rotation(table, freshToken, deviceInfo', now, freshToken', users, None).result.Ok?
    {
      var table := rows + [IssuedRecord(userId, freshToken, issuedAt, deviceInfo)];
      assert Redeemable(table[|rows|], hash(freshToken), now, users);
    }

    /** `refreshTokenPair`. `users` is the `users` table as the join sees it,
        `freshToken` the new random token, and `storeError` the error of the
        insert of the new row, if it fails. */
    method RefreshTokenPair(refreshToken: string, deviceInfo: Option<DeviceInfo>, now: int, freshToken: string,
                            users: map<string, string>, storeError: Option<string>) returns (r: Result<TokenPair, Failure>)
      requires UsableConfig(config)
      modifies this
      ensures var o := Rotation(old(rows), refreshToken, deviceInfo, now, freshToken, users, storeError);
              rows == o.state && r == o.result
    {
      var outcome := Rotation(rows, refreshToken, deviceInfo, now, freshToken, users, storeError);
      rows := outcome.state;
      r := outcome.result;
    }

    /** `revokeRefreshToken(refreshToken)`; it never fails, whether or not
        a row matches. */
    method RevokeRefreshToken(refreshToken: string)
      modifies this
      ensures rows == RevokeHash(old(rows), hash(refreshToken))
    {
      rows := RevokeHash(rows, hash(refreshToken));
    }

    /** `revokeAllUserTokens(userId)`. */
    method RevokeAllUserTokens(userId: string)
      modifies this
      ensures rows == RevokeUser(old(rows), userId)
    {
      rows := RevokeUser(rows, userId);
    }

    /** `cleanupExpiredTokens()`: deletes the expired and revoked rows and
        returns how many there were. */
    method CleanupExpiredTokens(now: int) returns (deleted: nat)
      modifies this
      ensures rows == Sweep(old(rows), now)
      ensures deleted == |old(rows)| - |rows|
    {
      var kept := Sweep(rows, now);
      deleted := |rows| - |kept|;
      rows := kept;
    }
  }
}
