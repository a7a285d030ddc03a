/** `TokenService`: issuing access and refresh tokens, verifying them with the
    token-type check, and writing the refresh cookie. */
module Token {
  import opened Common
  import opened Jwt
  import opened Http

  /** The token settings read from the environment. */
  datatype TokenConfig = TokenConfig(
    accessKey: string, accessMinutes: int,
    refreshKey: string, refreshDays: int,
    nodeEnv: string)

  predicate IsProduction(cfg: TokenConfig) {
    cfg.nodeEnv == "production"
  }

  const AccessType: string := "access"
  const RefreshType: string := "refresh"

  /** The claims actually signed: the payload's id, role and isActive, stamped
      with the token type. */
  function Stamp(p: Claims, typ: string): Claims {
    Claims(p.id, p.role, p.isActive, Some(typ))
  }

  /** `accessToken(payload)`: signed with the access secret, stamped `access`. */
  function AccessToken(jwt: JwtService, cfg: TokenConfig, p: Claims): (token: string)
    ensures Jwt.Sound(jwt) ==> jwt.verify(cfg.accessKey, token) == Some(Stamp(p, AccessType))
  {
    jwt.sign(cfg.accessKey, Stamp(p, AccessType), Minutes(cfg.accessMinutes))
  }

  /** `refreshToken(payload)`: signed with the refresh secret, stamped `refresh`. */
  function RefreshToken(jwt: JwtService, cfg: TokenConfig, p: Claims): (token: string)
    ensures Jwt.Sound(jwt) ==> jwt.verify(cfg.refreshKey, token) == Some(Stamp(p, RefreshType))
  {
    jwt.sign(cfg.refreshKey, Stamp(p, RefreshType), Days(cfg.refreshDays))
  }

  /** `payload.type && payload.type !== expected`: a missing or empty type passes. */
  predicate WrongType(c: Claims, expected: string) {
    c.typ.Some? && c.typ.value != "" && c.typ.value != expected
  }

  /** Verification under `secret` followed by the type check; every failure
      becomes the same Unauthorized `message`. */
  function VerifyTyped(jwt: JwtService, secret: string, token: string, expected: string, message: string): (r: Result<Claims>)
    ensures r.Ok? <==> jwt.verify(secret, token).Some? && !WrongType(jwt.verify(secret, token).value, expected)
    ensures r.Ok? ==> jwt.verify(secret, token) == Some(r.value)
    ensures r.Err? ==> r.error == Unauthorized(message)
  {
    match jwt.verify(secret, token)
    case None => Err(Unauthorized(message))
    case Some(c) => if WrongType(c, expected) then Err(Unauthorized(message)) else Ok(c)
  }

  function VerifyAccessToken(jwt: JwtService, cfg: TokenConfig, token: string): (r: Result<Claims>)
    ensures r.Ok? <==> jwt.verify(cfg.accessKey, token).Some? && !WrongType(jwt.verify(cfg.accessKey, token).value, AccessType)
    ensures r.Ok? ==> jwt.verify(cfg.accessKey, token) == Some(r.value)
    ensures r.Err? ==> r.error == Unauthorized("Invalid or expired access token")
  {
    VerifyTyped(jwt, cfg.accessKey, token, AccessType, "Invalid or expired access token")
  }

  function VerifyRefreshToken(jwt: JwtService, cfg: TokenConfig, token: string): (r: Result<Claims>)
    ensures r.Ok? <==> jwt.verify(cfg.refreshKey, token).Some? && !WrongType(jwt.verify(cfg.refreshKey, token).value, RefreshType)
    ensures r.Ok? ==> jwt.verify(cfg.refreshKey, token) == Some(r.value)
    ensures r.Err? ==> r.error == Unauthorized("Invalid or expired refresh token")
  {
    VerifyTyped(jwt, cfg.refreshKey, token, RefreshType, "Invalid or expired refresh token")
  }

  /** A freshly issued access token verifies as an access token and carries the
      payload's id, role and isActive. */
  lemma AccessTokenVerifies(jwt: JwtService, cfg: TokenConfig, p: Claims)
    requires Jwt.Sound(jwt)
    ensures VerifyAccessToken(jwt, cfg, AccessToken(jwt, cfg, p)) == Ok(Stamp(p, AccessType))
  {
  }

  lemma RefreshTokenVerifies(jwt: JwtService, cfg: TokenConfig, p: Claims)
    requires Jwt.Sound(jwt)
    ensures VerifyRefreshToken(jwt, cfg, RefreshToken(jwt, cfg, p)) == Ok(Stamp(p, RefreshType))
  {
  }

  /** A refresh token is never accepted as an access token, whatever the two
      secrets are: either its signature fails or its type does. */
  lemma RefreshTokenIsNotAccess(jwt: JwtService, cfg: TokenConfig, p: Claims)
    requires Jwt.Sound(jwt)
    ensures VerifyAccessToken(jwt, cfg, RefreshToken(jwt, cfg, p)).Err?
  {
    var l := Days(cfg.refreshDays);
    assert jwt.verify(cfg.accessKey, jwt.sign(cfg.refreshKey, Stamp(p, RefreshType), l)) in {None, Some(Stamp(p, RefreshType))};
  }

  lemma AccessTokenIsNotRefresh(jwt: JwtService, cfg: TokenConfig, p: Claims)
    requires Jwt.Sound(jwt)
    ensures VerifyRefreshToken(jwt, cfg, AccessToken(jwt, cfg, p)).Err?
  {
    var l := Minutes(cfg.accessMinutes);
    assert jwt.verify(cfg.refreshKey, jwt.sign(cfg.accessKey, Stamp(p, AccessType), l)) in {None, Some(Stamp(p, AccessType))};
  }

  const MillisPerDay: int := 24 * 60 * 60 * 1000

  /** The refresh-cookie options: always httpOnly on path `/`, `secure` exactly in
      production, and SameSite `none` only where the cookie is also secure. */
  function CookieOptionsFor(days: int, production: bool): (o: CookieOptions)
    ensures o.httpOnly && o.path == "/"
    ensures o.secure <==> production
    ensures o.sameSite == "none" <==> o.secure
    ensures !o.secure ==> o.sameSite == "lax"
    ensures o.maxAge == days * 86400000
    ensures days >= 0 ==> o.maxAge >= 0
  {
    CookieOptions(
      httpOnly := true,
      secure := production,
      sameSite := if production then "none" else "lax",
      maxAge := days * MillisPerDay,
      path := "/")
  }

  /** `writeCookie(res, key, value, days)`: appends one cookie to the response. */
  method WriteCookie(res: Response, cfg: TokenConfig, key: string, value: string, days: int)
    modifies res
    ensures res.cookies == old(res.cookies) + [SetCookie(key, value, CookieOptionsFor(days, IsProduction(cfg)))]
  {
    res.cookies := res.cookies + [SetCookie(key, value, CookieOptionsFor(days, IsProduction(cfg)))];
  }
}
