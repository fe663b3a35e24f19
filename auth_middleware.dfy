/** The authentication middleware: the access token is the second
    space-separated field of the `Authorization` header, verified by the
    token service; `authenticateToken` requires it, `optionalAuth` only uses
    it when it verifies. */
module AuthMiddleware {
  import opened Wrappers
  import opened Strings
  import opened Errors
  import opened JwtService

  /** `req.user`. */
  datatype AuthUser = AuthUser(userId: string, email: string)

  /** The second space-separated field of the `Authorization` header, when
      the header is present and that field is non-empty. The first field
      (the scheme, `Bearer` by convention) is not looked at. */
  function ExtractToken(header: Option<string>): (t: Option<string>)
    ensures header.None? || header.value == "" ==> t.None?
    ensures t.Some? ==> t.value != "" && ' ' !in t.value
    ensures t.Some? ==> |Split(header.value, ' ')| >= 2 && t.value == Split(header.value, ' ')[1]
    ensures header.Some? && |Split(header.value, ' ')| >= 2 && Split(header.value, ' ')[1] != "" ==> t.Some?
  {
    if header.None? || header.value == "" then None
    else
      var fields := Split(header.value, ' ');
      if |fields| >= 2 && fields[1] != "" then Some(fields[1]) else None
  }

  /** A header `<scheme> <token>`, possibly followed by more space-separated
      text, yields the token, whatever the scheme. */
  lemma SecondFieldIsTheToken(scheme: string, token: string, tail: string)
    requires ' ' !in scheme && ' ' !in token && token != ""
    requires tail == "" || tail[0] == ' '
    ensures ExtractToken(Some(scheme + " " + token + tail)) == Some(token)
  {
    var header := scheme + " " + token + tail;
    assert header == scheme + [' '] + (token + tail);
    SplitAfterPiece(scheme, token + tail, ' ');
    if tail == "" {
      SplitNoSeparator(token, ' ');
      assert token + tail == token;
    } else {
      assert token + tail == token + [' '] + tail[1..];
      SplitAfterPiece(token, tail[1..], ' ');
    }
  }

  /** A header with no space in it carries no token. */
  lemma SingleFieldHasNoToken(header: string)
    requires ' ' !in header
    ensures ExtractToken(Some(header)).None?
  {
    SplitNoSeparator(header, ' ');
  }

  const TokenRequired := "Access token required"

  /** The outcome of `authenticateToken`: the user taken from the verified
      payload, or the error passed to `next`. */
  function Authenticate(header: Option<string>, tokens: JwtService, now: int): (r: Result<AuthUser, Failure>)
    ensures ExtractToken(header).None? ==> r == Err(App(AuthenticationError(TokenRequired)))
    ensures ExtractToken(header).Some? ==>
              var v := tokens.VerifyAccessToken(ExtractToken(header).value, now);
              && (r.Ok? <==> v.Ok?)
              && (v.Ok? ==> r.value == AuthUser(v.value.userId, v.value.email))
              && (v.Err? ==> r == Err(v.error))
    ensures r.Err? ==> r.error.IsAuthentication()
  {
    match ExtractToken(header)
    case None => Err(App(AuthenticationError(TokenRequired)))
    case Some(token) =>
      match tokens.VerifyAccessToken(token, now)
      case Ok(payload) => Ok(AuthUser(payload.userId, payload.email))
      case Err(e) => Err(e)
  }

  /** An access token just issued, sent as `Bearer <token>`, authenticates
      its user. */
  lemma IssuedTokenAuthenticates(tokens: JwtService, userId: string, email: string, now: int)
    requires SoundAtIssue(tokens.codec)
    requires ' ' !in tokens.AccessToken(userId, email, now) && tokens.AccessToken(userId, email, now) != ""
    ensures Authenticate(Some("Bearer " + tokens.AccessToken(userId, email, now)), tokens, now) == Ok(AuthUser(userId, email))
  {
    var token := tokens.AccessToken(userId, email, now);
    SecondFieldIsTheToken("Bearer", token, "");
    assert "Bearer" + " " + token + "" == "Bearer " + token;
    tokens.IssuedAccessTokenVerifies(userId, email, now);
  }

  /** The request as the middleware sees it. */
  class Request {
    const authorization: Option<string>
    var user: Option<AuthUser>

    constructor (authorization: Option<string>)
      ensures this.authorization == authorization && user.None?
    {
      this.authorization := authorization;
      user := None;
    }
  }

  /** `authenticateToken`: on success `req.user` is set and the request
      proceeds (`Ok`); otherwise the error is passed on and `req.user` is
      left as it was. */
  method AuthenticateToken(req: Request, tokens: JwtService, now: int) returns (next: Result<(), Failure>)
    modifies req
    ensures var a := Authenticate(req.authorization, tokens, now);
            && (a.Ok? ==> next == Ok(()) && req.user == Some(a.value))
            && (a.Err? ==> next == Err(a.error) && req.user == old(req.user))
  {
    var a := Authenticate(req.authorization, tokens, now);
    if a.Err? {
      return Err(a.error);
    }
    req.user := Some(a.value);
    return Ok(());
  }

  /** `optionalAuth`: the request always proceeds; `req.user` is set exactly
      when `authenticateToken` would have accepted it. */
  method OptionalAuth(req: Request, tokens: JwtService, now: int)
    modifies req
    ensures var a := Authenticate(req.authorization, tokens, now);
            && (a.Ok? ==> req.user == Some(a.value))
            && (a.Err? ==> req.user == old(req.user))
  {
    var token := ExtractToken(req.authorization);
    if token.Some? {
      var verified := tokens.VerifyAccessToken(token.value, now);
      if verified.Ok? {
        req.user := Some(AuthUser(verified.value.userId, verified.value.email));
      }
    }
  }
}
