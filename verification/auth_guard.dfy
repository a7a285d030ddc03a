/** `AuthGuard.canActivate`: a Bearer access token in the `Authorization` header,
    verified under the access secret, becomes `req.user`. */
module AuthGuard {
  import opened Common
  import opened Strings
  import opened Jwt
  import opened Http
  import opened Token

  const HeaderMissing: string := "Authorization header missing"
  const BadFormat: string := "Invalid authorization format"
  const BadToken: string := "Invalid or expired token"

  /** `req.headers['authorization'] || req.headers['Authorization']`: an empty
      first header falls through to the second. */
  function AuthHeader(headers: map<string, string>): (h: Option<string>)
    ensures "authorization" in headers && headers["authorization"] != "" ==> h == Some(headers["authorization"])
    ensures ("authorization" !in headers || headers["authorization"] == "") ==>
      h == (if "Authorization" in headers then Some(headers["Authorization"]) else None)
  {
    if "authorization" in headers && headers["authorization"] != "" then Some(headers["authorization"])
    else if "Authorization" in headers then Some(headers["Authorization"])
    else None
  }

  /** The header's shape: after trimming, exactly two white-space separated
      words, the first of them `Bearer`. */
  function ParseBearer(header: Option<string>): (r: Result<string>)
    ensures header.None? || header.value == "" ==> r == Err(Unauthorized(HeaderMissing))
    ensures r.Err? && header.Some? && header.value != "" ==> r.error == Unauthorized(BadFormat)
    ensures r.Ok? ==> r.value != "" && NoWhitespace(r.value)
  {
    if header.None? || header.value == "" then Err(Unauthorized(HeaderMissing))
    else
      var parts := SplitWs(Trim(header.value));
      if |parts| != 2 then Err(Unauthorized(BadFormat))
      else if parts[0] != "Bearer" || parts[1] == "" then Err(Unauthorized(BadFormat))
      else Ok(parts[1])
  }

  /** What the guard accepts is a trimmed header of the form `Bearer`, a run of
      white space, then the token. */
  lemma AcceptedHeaderShape(h: string)
    requires ParseBearer(Some(h)).Ok?
    ensures exists w :: w != "" && AllWhitespace(w) && Trim(h) == "Bearer" + w + ParseBearer(Some(h)).value
  {
    var s := Trim(h);
    var t := ParseBearer(Some(h)).value;
    var parts, runs := SplitWs(s), Runs(s);
    assert parts == ["Bearer", t];
    assert |runs| == 1 && runs[0] != "" && AllWhitespace(runs[0]);
    assert s == "Bearer" + runs[0] + t by {
      SplitWsRebuilds(s);
      TwoPieces("Bearer", t, runs);
    }
  }

  lemma TwoPieces(x: string, y: string, runs: seq<string>)
    requires |runs| == 1
    ensures Interleave([x, y], runs) == x + runs[0] + y
  {
    assert [x, y][1..] == [y];
  }

  /** And every header of that form, with any white space around it, is accepted
      with its token. */
  lemma WellFormedHeaderParses(a: string, w: string, t: string, b: string)
    requires AllWhitespace(a) && AllWhitespace(b)
    requires w != "" && AllWhitespace(w)
    requires t != "" && NoWhitespace(t)
    ensures ParseBearer(Some(a + "Bearer" + w + t + b)) == Ok(t)
  {
    var s := Trim(a + "Bearer" + w + t + b);
    assert s == "Bearer" + w + t by {
      BearerIsWord();
      PaddedBearerTrims(a, w, t, b);
    }
    assert SplitWs(s) == ["Bearer", t] by {
      BearerIsWord();
      SplitWsTwoWords("Bearer", w, t);
    }
  }

  lemma BearerIsWord()
    ensures NoWhitespace("Bearer")
  {
    assert "Bearer" == ['B', 'e', 'a', 'r', 'e', 'r'];
  }

  lemma PaddedBearerTrims(a: string, w: string, t: string, b: string)
    requires AllWhitespace(a) && AllWhitespace(b)
    requires t != "" && NoWhitespace(t)
    requires NoWhitespace("Bearer")
    ensures Trim(a + "Bearer" + w + t + b) == "Bearer" + w + t
  {
    var core := "Bearer" + w + t;
    assert core[0] == "Bearer"[0];
    assert core[|core| - 1] == t[|t| - 1];
    assert a + "Bearer" + w + t + b == a + core + b;
    TrimOfPadded(a, core, b);
  }

  /** The token check inside the `try`: signature and expiry under the access
      secret, then the type and the active flag. Every failure is rewritten to
      the same message by the `catch`. */
  function CheckToken(jwt: JwtService, cfg: TokenConfig, token: string): (r: Result<Claims>)
    ensures r.Ok? <==> jwt.verify(cfg.accessKey, token).Some?
                       && !WrongType(jwt.verify(cfg.accessKey, token).value, AccessType)
                       && jwt.verify(cfg.accessKey, token).value.isActive != Some(false)
    ensures r.Ok? ==> jwt.verify(cfg.accessKey, token) == Some(r.value)
    ensures r.Err? ==> r.error == Unauthorized(BadToken)
  {
    match jwt.verify(cfg.accessKey, token)
    case None => Err(Unauthorized(BadToken))
    case Some(c) =>
      if WrongType(c, AccessType) then Err(Unauthorized(BadToken))
      else if c.isActive == Some(false) then Err(Unauthorized(BadToken))
      else Ok(c)
  }

  /** An access token issued for an active (or unflagged) payload passes the
      check and yields the stamped payload. */
  lemma IssuedAccessTokenPasses(jwt: JwtService, cfg: TokenConfig, p: Claims)
    requires Jwt.Sound(jwt)
    requires p.isActive != Some(false)
    ensures CheckToken(jwt, cfg, AccessToken(jwt, cfg, p)) == Ok(Stamp(p, AccessType))
  {
    AccessTokenVerifies(jwt, cfg, p);
  }

  /** A refresh token presented as a Bearer token is always refused. */
  lemma RefreshTokenRefused(jwt: JwtService, cfg: TokenConfig, p: Claims)
    requires Jwt.Sound(jwt)
    ensures CheckToken(jwt, cfg, RefreshToken(jwt, cfg, p)).Err?
  {
    RefreshTokenIsNotAccess(jwt, cfg, p);
  }

  /** A token issued for a deactivated user is refused even though it verifies. */
  lemma InactiveTokenRefused(jwt: JwtService, cfg: TokenConfig, p: Claims)
    requires Jwt.Sound(jwt)
    requires p.isActive == Some(false)
    ensures CheckToken(jwt, cfg, AccessToken(jwt, cfg, p)).Err?
  {
    AccessTokenVerifies(jwt, cfg, p);
  }

  /** The whole guard: `req.user` is set only on success, to the verified claims. */
  method CanActivate(req: Request, jwt: JwtService, cfg: TokenConfig) returns (r: Result<bool>)
    modifies req
    ensures r.Ok? <==> ParseBearer(AuthHeader(req.headers)).Ok?
                       && CheckToken(jwt, cfg, ParseBearer(AuthHeader(req.headers)).value).Ok?
    ensures r.Ok? ==> r.value && req.user == Some(CheckToken(jwt, cfg, ParseBearer(AuthHeader(req.headers)).value).value)
    ensures r.Err? ==> req.user == old(req.user)
    ensures r.Err? && ParseBearer(AuthHeader(req.headers)).Err? ==> r.error == ParseBearer(AuthHeader(req.headers)).error
    ensures r.Err? && ParseBearer(AuthHeader(req.headers)).Ok? ==> r.error == Unauthorized(BadToken)
    ensures req.lang == old(req.lang) && req.nextCalls == old(req.nextCalls)
  {
    var parsed := ParseBearer(AuthHeader(req.headers));
    if parsed.Err? {
      return Err(parsed.error);
    }
    var checked := CheckToken(jwt, cfg, parsed.value);
    if checked.Err? {
      return Err(checked.error);
    }
    req.user := Some(checked.value);
    return Ok(true);
  }
}
