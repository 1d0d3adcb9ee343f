/** Admin authentication: the password login that mints a signed, 24-hour
    token, and the middleware gate that admits a request only with a token
    that verifies. */
module Auth {
  import opened Common
  import opened Http
  import Configuration

  datatype LoginRequest = LoginRequest(password: string)

  /** The claim set of an admin token: the admin flag and the expiry instant. */
  datatype Claims = Claims(admin: bool, exp: Time)

  const TokenLifetime: int := 24 * 60 * 60

  /** HS256 signing and verification under the server's fixed secret. The
      signing library is not modelled: its two operations are parameters.
      `sign` may fail; `verify(token, now)` says whether the token's signature
      checks and it has not expired at `now`. */
  datatype Jwt = Jwt(sign: Claims -> Option<string>, verify: (string, Time) -> bool)

  /** What the model relies on from the library: a token it signs is not
      empty and verifies exactly until its expiry instant. */
  ghost predicate Sound(jwt: Jwt) {
    forall c: Claims :: jwt.sign(c).Some? ==>
      && jwt.sign(c).value != ""
      && forall t: Time :: jwt.verify(jwt.sign(c).value, t) <==> t < c.exp
  }

  /** The claims of a token issued at `now`. */
  function IssuedClaims(now: Time): Claims {
    Claims(true, now + TokenLifetime)
  }

  /** POST /api/admin/login. */
  function AdminLogin(httpMethod: string, body: Option<LoginRequest>, env: Configuration.Env, jwt: Jwt, now: Time): (r: Response)
    ensures httpMethod == MethodOptions ==> r == Preflight
    ensures httpMethod != MethodOptions && body.None? ==> r == Error(StatusBadRequest, "Invalid request body")
    ensures (httpMethod != MethodOptions && body.Some? && body.value.password != Configuration.LoadConfig(env).adminPassword)
              ==> r == Error(StatusUnauthorized, "Invalid password")
    ensures (httpMethod != MethodOptions && body.Some? && body.value.password == Configuration.LoadConfig(env).adminPassword)
              ==> match jwt.sign(IssuedClaims(now))
                  case Some(token) => r == Response(StatusOK, Some(TokenBody(token)))
                  case None => r == Error(StatusInternalServerError, "Failed to generate token")
    // a token is only ever handed out for the configured password
    ensures r.body.Some? && r.body.value.TokenBody? ==>
              && httpMethod != MethodOptions && body.Some?
              && body.value.password == Configuration.LoadConfig(env).adminPassword
              && jwt.sign(Claims(true, now + TokenLifetime)) == Some(r.body.value.token)
  {
    if httpMethod == MethodOptions then Preflight
    else if body.None? then Error(StatusBadRequest, "Invalid request body")
    else if body.value.password != Configuration.LoadConfig(env).adminPassword then
      Error(StatusUnauthorized, "Invalid password")
    else
      match jwt.sign(IssuedClaims(now))
      case Some(token) => Response(StatusOK, Some(TokenBody(token)))
      case None => Error(StatusInternalServerError, "Failed to generate token")
  }

  /** Whatever the configuration, an empty password never logs in: the
      configured password is never empty. */
  lemma EmptyPasswordRejected(httpMethod: string, env: Configuration.Env, jwt: Jwt, now: Time)
    requires httpMethod != MethodOptions
    ensures AdminLogin(httpMethod, Some(LoginRequest("")), env, jwt, now) == Error(StatusUnauthorized, "Invalid password")
  {
  }

  /** The token string the middleware verifies: the header without a leading
      "Bearer " when something follows it, otherwise the whole header. */
  function ExtractToken(header: string): (token: string)
    ensures |header| > 7 && StartsWith(header, "Bearer ") ==> "Bearer " + token == header
    ensures !(|header| > 7 && StartsWith(header, "Bearer ")) ==> token == header
  {
    if |header| > 7 && header[..7] == "Bearer " then header[7..] else header
  }

  /** A non-empty token sent as "Bearer <token>" is extracted exactly. */
  lemma BearerRoundTrip(token: string)
    requires token != ""
    ensures ExtractToken("Bearer " + token) == token
  {
    var header := "Bearer " + token;
    assert header[..7] == "Bearer ";
    assert header[7..] == token;
  }

  /** What the middleware does with a request before the wrapped handler. */
  datatype Gate = Forward | Reject(response: Response)

  /** The decision of AdminAuthMiddleware(next) for a request with the given
      method and Authorization header ("" when the header is absent). */
  function AdminAuthMiddleware(httpMethod: string, authorization: string, jwt: Jwt, now: Time): (g: Gate)
    ensures g.Forward? <==> httpMethod != MethodOptions && authorization != "" && jwt.verify(ExtractToken(authorization), now)
    ensures httpMethod == MethodOptions ==> g == Reject(Preflight)
    ensures httpMethod != MethodOptions && authorization == "" ==> g == Reject(Error(StatusUnauthorized, "Missing authorization header"))
    ensures httpMethod != MethodOptions && g.Reject? ==> (authorization == "" || g == Reject(Error(StatusUnauthorized, "Invalid token")))
  {
    if httpMethod == MethodOptions then Reject(Preflight)
    else if authorization == "" then Reject(Error(StatusUnauthorized, "Missing authorization header"))
    else if !jwt.verify(ExtractToken(authorization), now) then Reject(Error(StatusUnauthorized, "Invalid token"))
    else Forward
  }

  /** Every refusal by the gate on a non-preflight request is a 401. */
  lemma GateRejectsWithUnauthorized(httpMethod: string, authorization: string, jwt: Jwt, now: Time)
    requires httpMethod != MethodOptions
    requires AdminAuthMiddleware(httpMethod, authorization, jwt, now).Reject?
    ensures AdminAuthMiddleware(httpMethod, authorization, jwt, now).response.status == StatusUnauthorized
  {
  }

  /** A token obtained by logging in at `issued` with the configured password
      opens the gate, sent as a bearer token, exactly until 24 hours later. */
  lemma LoginTokenOpensGate(env: Configuration.Env, jwt: Jwt, issued: Time, httpMethod: string, t: Time)
    requires Sound(jwt)
    requires httpMethod != MethodOptions
    requires jwt.sign(IssuedClaims(issued)).Some?
    ensures var r := AdminLogin(MethodPost, Some(LoginRequest(Configuration.LoadConfig(env).adminPassword)), env, jwt, issued);
            && r.status == StatusOK && r.body.Some? && r.body.value.TokenBody?
            && (AdminAuthMiddleware(httpMethod, "Bearer " + r.body.value.token, jwt, t).Forward? <==> t < issued + TokenLifetime)
  {
    var token := jwt.sign(IssuedClaims(issued)).value;
    assert token != "" && (jwt.verify(token, t) <==> t < issued + TokenLifetime);
    BearerRoundTrip(token);
  }

  /** A token whose expiry has passed is refused even though its signature is good. */
  lemma ExpiredTokenRejected(jwt: Jwt, c: Claims, httpMethod: string, t: Time)
    requires Sound(jwt)
    requires jwt.sign(c).Some? && c.exp <= t
    ensures AdminAuthMiddleware(httpMethod, "Bearer " + jwt.sign(c).value, jwt, t).Reject?
  {
    var token := jwt.sign(c).value;
    assert token != "" && !jwt.verify(token, t);
    BearerRoundTrip(token);
  }
}
