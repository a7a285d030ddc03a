/** `AuthCommonService.signIn`: the one login used by clients, markets and
    admins. */
module AuthCommon {
  import opened Common
  import opened Json
  import opened Jwt
  import opened Http
  import opened Token
  import opened Crypto
  import opened SuccessResponse

  const BadCredentials: string := "Username or password incorrect"
  const DefaultCookieKey: string := "token"
  const DefaultCookieDays: int := 15

  /** The row the login lookup found, as the sign-in reads it: its id, stored
      password digest, role, optional active flag and the whole row. */
  datatype Account = Account(id: string, password: string, role: string, isActive: Option<bool>, row: Json)

  /** The optional parameters of `signIn`. */
  datatype SignInOptions = SignInOptions(
    cookieKey: Option<string>,
    cookieDays: Option<int>,
    safeUser: Option<Account -> Json>,
    extraData: Option<Account -> map<string, Json>>)

  /** Who may sign in: an existing, not deactivated account whose digest matches
      the password. Every refusal is the same error, so a caller cannot tell a
      missing account, a deactivated one and a wrong password apart. */
  function CheckCredentials(hasher: Hasher, found: Option<Account>, password: string): (r: Result<Account>)
    ensures r.Ok? <==> found.Some? && found.value.isActive != Some(false) && hasher.compare(password, found.value.password)
    ensures r.Ok? ==> r.value == found.value
    ensures r.Err? ==> r.error == BadRequest(BadCredentials)
  {
    if found.None? then Err(BadRequest(BadCredentials))
    else if found.value.isActive == Some(false) then Err(BadRequest(BadCredentials))
    else if !hasher.compare(password, found.value.password) then Err(BadRequest(BadCredentials))
    else Ok(found.value)
  }

  /** A deactivated account answers exactly like a missing one, whatever
      password is tried. */
  lemma InactiveLooksMissing(hasher: Hasher, a: Account, password: string, other: string)
    requires a.isActive == Some(false)
    ensures CheckCredentials(hasher, Some(a), password) == CheckCredentials(hasher, None, other)
  {
  }

  /** With an ideal bcrypt, an active account signs in with exactly the password
      its digest was made from. */
  lemma PasswordDecides(hasher: Hasher, a: Account, secret: string, password: string)
    requires Crypto.Sound(hasher)
    requires a.password == hasher.hash(secret) && a.isActive != Some(false)
    ensures CheckCredentials(hasher, Some(a), password).Ok? <==> password == secret
  {
    assert hasher.compare(secret, hasher.hash(secret));
    if hasher.compare(password, hasher.hash(secret)) {
      assert password == secret;
    }
  }

  /** `{ id, role: String(role), isActive }` */
  function PayloadOf(a: Account): (p: Claims)
    ensures p.id == a.id && p.role == a.role && p.isActive == a.isActive && p.typ.None?
  {
    Claims(a.id, a.role, a.isActive, None)
  }

  /** `{ accessToken, role, user: safe, ...extra }`: keys of the extra data
      override the three fixed ones. */
  function LoginData(jwt: JwtService, cfg: TokenConfig, a: Account, opts: SignInOptions): (d: Json)
    ensures d.JObj?
    ensures var extra := if opts.extraData.Some? then opts.extraData.value(a) else map[];
            forall k :: k in extra ==> d.Get(k) == extra[k]
    ensures var extra := if opts.extraData.Some? then opts.extraData.value(a) else map[];
            "accessToken" !in extra ==> d.Get("accessToken") == JStr(AccessToken(jwt, cfg, PayloadOf(a)))
    ensures var extra := if opts.extraData.Some? then opts.extraData.value(a) else map[];
            "role" !in extra ==> d.Get("role") == JStr(a.role)
    ensures var extra := if opts.extraData.Some? then opts.extraData.value(a) else map[];
            "user" !in extra ==> d.Get("user") == (if opts.safeUser.Some? then opts.safeUser.value(a) else a.row)
  {
    var safe := if opts.safeUser.Some? then opts.safeUser.value(a) else a.row;
    var extra := if opts.extraData.Some? then opts.extraData.value(a) else map[];
    JObj(map["accessToken" := JStr(AccessToken(jwt, cfg, PayloadOf(a))), "role" := JStr(a.role), "user" := safe] + extra)
  }

  /** The access token handed out at login is accepted by the access check and
      carries the account's id, role and active flag. */
  lemma LoginAccessTokenVerifies(jwt: JwtService, cfg: TokenConfig, a: Account, opts: SignInOptions)
    requires Jwt.Sound(jwt)
    requires opts.extraData.None?
    ensures LoginData(jwt, cfg, a, opts).Get("accessToken").JStr?
    ensures VerifyAccessToken(jwt, cfg, LoginData(jwt, cfg, a, opts).Get("accessToken").s)
            == Ok(Claims(a.id, a.role, a.isActive, Some(AccessType)))
  {
    AccessTokenVerifies(jwt, cfg, PayloadOf(a));
  }

  /** The login: on success the refresh token goes into one cookie and the access
      token into the body; on failure nothing is written. */
  method SignIn(res: Response, hasher: Hasher, jwt: JwtService, cfg: TokenConfig,
                found: Option<Account>, password: string, opts: SignInOptions) returns (r: Result<Success>)
    modifies res
    ensures r.Ok? <==> CheckCredentials(hasher, found, password).Ok?
    ensures r.Err? ==> r.error == BadRequest(BadCredentials) && res.cookies == old(res.cookies)
    ensures r.Ok? ==> res.cookies == old(res.cookies) + [SetCookie(
              opts.cookieKey.GetOr(DefaultCookieKey),
              RefreshToken(jwt, cfg, PayloadOf(found.value)),
              CookieOptionsFor(opts.cookieDays.GetOr(DefaultCookieDays), IsProduction(cfg)))]
    ensures r.Ok? ==> r.value == SuccessRes(LoginData(jwt, cfg, found.value, opts), 200)
  {
    var checked := CheckCredentials(hasher, found, password);
    if checked.Err? {
      return Err(checked.error);
    }
    var account := checked.value;
    var payload := PayloadOf(account);
    var refresh := RefreshToken(jwt, cfg, payload);
    WriteCookie(res, cfg, opts.cookieKey.GetOr(DefaultCookieKey), refresh, opts.cookieDays.GetOr(DefaultCookieDays));
    return Ok(SuccessRes(LoginData(jwt, cfg, account, opts), 200));
  }
}
