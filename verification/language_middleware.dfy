/** `LanguageMiddleware.use`: picks the response language `uz` or `ru` for every
    request from the refresh-token cookie, then passes the request on. */
module LanguageMiddleware {
  import opened Common
  import opened Strings
  import opened Jwt
  import opened Http
  import opened Token
  import opened Entities

  /** The error `decodeURIComponent` throws on a malformed escape. */
  const URIError: Exception := OtherError("URIError")

  predicate IsHexDigit(c: char) {
    ('0' <= c <= '9') || ('a' <= c <= 'f') || ('A' <= c <= 'F')
  }

  /** A `%` that is not followed by two hexadecimal digits. */
  predicate BadEscape(s: string) {
    exists i :: 0 <= i < |s| && s[i] == '%' && (i + 2 >= |s| || !IsHexDigit(s[i + 1]) || !IsHexDigit(s[i + 2]))
  }

  /** What the model relies on of `decodeURIComponent` (given as `decode`, `None`
      where it throws): text without `%` comes back unchanged and a broken
      escape throws. Decoding of valid escapes is left abstract. */
  ghost predicate UriDecoder(decode: string -> Option<string>) {
    && (forall s :: '%' !in s ==> decode(s) == Some(s))
    && (forall s :: BadEscape(s) ==> decode(s) == None)
  }

  /** `.map((c) => c.trim())` */
  function TrimAll(parts: seq<string>): (r: seq<string>)
    ensures |r| == |parts|
    ensures forall i :: 0 <= i < |r| ==> r[i] == Trim(parts[i])
  {
    seq(|parts|, i requires 0 <= i < |parts| => Trim(parts[i]))
  }

  /** `.find((c) => c.startsWith('token='))`: the first such segment. */
  function FindTokenSegment(segments: seq<string>): (r: Option<string>)
    ensures r.None? <==> forall i :: 0 <= i < |segments| ==> !StartsWith(segments[i], "token=")
    ensures r.Some? ==> exists i :: 0 <= i < |segments| && segments[i] == r.value && StartsWith(r.value, "token=")
                                  && forall j :: 0 <= j < i ==> !StartsWith(segments[j], "token=")
  {
    if segments == [] then None
    else if StartsWith(segments[0], "token=") then Some(segments[0])
    else
      var r := FindTokenSegment(segments[1..]);
      assert forall i :: 1 <= i < |segments| ==> segments[i] == segments[1..][i - 1];
      if r.Some? then
        var i :| 0 <= i < |segments[1..]| && segments[1..][i] == r.value && StartsWith(r.value, "token=")
                 && forall j :: 0 <= j < i ==> !StartsWith(segments[1..][j], "token=");
        assert segments[i + 1] == r.value;
        r
      else r
  }

  /** `match.split('=')[1] || ''`: the text between the first and the second `=`. */
  function EncodedValue(segment: string): (v: string)
    ensures '=' !in v
  {
    var parts := Split(segment, '=');
    if |parts| > 1 then parts[1] else ""
  }

  /** The raw `Cookie` header path: the first `token=` segment, percent-decoded
      (`""` when there is none). A failing decode throws. */
  function HeaderToken(header: string, decode: string -> Option<string>): (r: Result<string>)
    ensures r.Err? ==> r.error == URIError
    ensures FindTokenSegment(TrimAll(Split(header, ';'))).None? ==> r == Ok("")
    ensures FindTokenSegment(TrimAll(Split(header, ';'))).Some? ==>
      var encoded := EncodedValue(FindTokenSegment(TrimAll(Split(header, ';'))).value);
      && (r.Ok? <==> decode(encoded).Some?)
      && (r.Ok? ==> decode(encoded) == Some(r.value))
  {
    match FindTokenSegment(TrimAll(Split(header, ';')))
    case None => Ok("")
    case Some(segment) =>
      match decode(EncodedValue(segment))
      case None => Err(URIError)
      case Some(t) => Ok(t)
  }

  /** The token the middleware works with (`""` for none): the parsed cookie if it
      is non-empty, otherwise the token of a non-empty raw `Cookie` header. */
  function CookieToken(cookies: Option<map<string, string>>, header: Option<string>, decode: string -> Option<string>): (r: Result<string>)
    ensures cookies.Some? && "token" in cookies.value && cookies.value["token"] != "" ==> r == Ok(cookies.value["token"])
    ensures !(cookies.Some? && "token" in cookies.value && cookies.value["token"] != "") ==>
      r == if header.Some? && header.value != "" then HeaderToken(header.value, decode) else Ok("")
    ensures r.Err? ==> r.error == URIError
  {
    var raw := if cookies.Some? && "token" in cookies.value then cookies.value["token"] else "";
    if raw == "" && header.Some? && header.value != "" then HeaderToken(header.value, decode)
    else Ok(raw)
  }

  /** A `Cookie` header holding just `token=<t>` yields `t` when `t` needs no
      decoding. */
  lemma HeaderTokenExtracted(t: string, decode: string -> Option<string>)
    requires UriDecoder(decode)
    requires t != "" && ';' !in t && '=' !in t && '%' !in t && !IsWhitespace(t[|t| - 1])
    ensures HeaderToken("token=" + t, decode) == Ok(t)
  {
    SingleTokenSegment(t);
    assert decode(t) == Some(t);
  }

  /** A broken escape in the header token makes `use` throw. */
  lemma MalformedHeaderTokenThrows(t: string, decode: string -> Option<string>)
    requires UriDecoder(decode)
    requires t != "" && ';' !in t && '=' !in t && !IsWhitespace(t[|t| - 1]) && BadEscape(t)
    ensures HeaderToken("token=" + t, decode) == Err(URIError)
  {
    SingleTokenSegment(t);
    assert decode(t) == None;
  }

  /** The header `token=<t>` is one segment, found as the token segment, whose
      encoded value is `t`. */
  lemma SingleTokenSegment(t: string)
    requires t != "" && ';' !in t && '=' !in t && !IsWhitespace(t[|t| - 1])
    ensures FindTokenSegment(TrimAll(Split("token=" + t, ';'))) == Some("token=" + t)
    ensures EncodedValue("token=" + t) == t
  {
    var h := "token=" + t;
    assert h == "token" + ['='] + t by { TokenKeyFacts(); }
    assert StartsWith(h, "token=") by { TokenKeyFacts(); KeyPrefix("token", t); }
    assert ';' !in h by { TokenKeyFacts(); }
    assert Trim(h) == h by { SegmentIsTrimmed(t); }
    SegmentFound(h);
    assert EncodedValue(h) == t by { TokenKeyFacts(); SegmentValue("token", t); }
  }

  lemma TokenKeyFacts()
    ensures "token" + ['='] == "token="
    ensures ';' !in "token" && '=' !in "token"
  {
  }

  lemma SegmentFound(h: string)
    requires StartsWith(h, "token=") && ';' !in h && Trim(h) == h
    ensures FindTokenSegment(TrimAll(Split(h, ';'))) == Some(h)
  {
    SplitWithoutSeparator(h, ';');
    TrimAllSingle(h);
    FindSingle(h);
  }

  lemma KeyPrefix(k: string, t: string)
    requires k + ['='] == "token="
    ensures StartsWith(k + ['='] + t, "token=")
  {
    assert (k + ['='] + t)[..|k + ['=']|] == k + ['='];
  }

  lemma TrimAllSingle(h: string)
    requires Trim(h) == h
    ensures TrimAll([h]) == [h]
  {
  }

  lemma FindSingle(h: string)
    requires StartsWith(h, "token=")
    ensures FindTokenSegment([h]) == Some(h)
  {
  }

  lemma SegmentValue(k: string, t: string)
    requires '=' !in k && '=' !in t
    ensures EncodedValue(k + ['='] + t) == t
  {
    SplitWithoutSeparator(t, '=');
    SplitAtFirst(k, t, '=');
  }

  lemma SegmentIsTrimmed(t: string)
    requires t != "" && !IsWhitespace(t[|t| - 1])
    ensures Trim("token=" + t) == "token=" + t
  {
    var h := "token=" + t;
    assert h[0] == 't';
    assert h[|h| - 1] == t[|t| - 1];
    assert "" + h + "" == h;
    TrimOfPadded("", h, "");
  }

  /** The language of a verified payload: `ru` only for a client or market
      whose stored language is Russian; admins, unknown roles, missing rows and
      missing payloads all get `uz`. */
  function LangFor(payload: Option<Claims>, clients: map<string, ClientAccount>, markets: map<string, MarketAccount>): (lang: string)
    ensures lang == "uz" || lang == "ru"
    ensures lang == "ru" <==>
      payload.Some? &&
        ((payload.value.role == "client" && payload.value.id in clients && clients[payload.value.id].language == RU) ||
         (payload.value.role == "market" && payload.value.id in markets && markets[payload.value.id].language == RU))
  {
    if payload.None? then "uz"
    else
      var role := payload.value.role;
      if role == "" || role == "admin" || role == "superadmin" then "uz"
      else if role == "client" then
        if payload.value.id in clients && clients[payload.value.id].language == RU then "ru" else "uz"
      else if role == "market" then
        if payload.value.id in markets && markets[payload.value.id].language == RU then "ru" else "uz"
      else "uz"
  }

  /** No token: `uz`. Otherwise the token is verified under the refresh secret,
      with no type check; a failed verification also gives `uz`. */
  function LangForToken(token: string, jwt: JwtService, cfg: TokenConfig,
                        clients: map<string, ClientAccount>, markets: map<string, MarketAccount>): (lang: string)
    ensures lang == "uz" || lang == "ru"
    ensures token == "" || jwt.verify(cfg.refreshKey, token).None? ==> lang == "uz"
  {
    if token == "" then "uz" else LangFor(jwt.verify(cfg.refreshKey, token), clients, markets)
  }

  /** A client's own refresh cookie selects the language stored on the client. */
  lemma ClientRefreshTokenSelectsLanguage(jwt: JwtService, cfg: TokenConfig, p: Claims,
                                          clients: map<string, ClientAccount>, markets: map<string, MarketAccount>)
    requires Jwt.Sound(jwt)
    requires p.role == "client" && p.id in clients
    ensures RefreshToken(jwt, cfg, p) != "" ==>
      (LangForToken(RefreshToken(jwt, cfg, p), jwt, cfg, clients, markets) == "ru" <==> clients[p.id].language == RU)
  {
    RefreshTokenVerifies(jwt, cfg, p);
  }

  /** An admin's token never selects Russian. */
  lemma AdminTokenSelectsUzbek(jwt: JwtService, cfg: TokenConfig, p: Claims,
                               clients: map<string, ClientAccount>, markets: map<string, MarketAccount>)
    requires Jwt.Sound(jwt)
    requires p.role == "admin" || p.role == "superadmin"
    ensures LangForToken(RefreshToken(jwt, cfg, p), jwt, cfg, clients, markets) == "uz"
  {
    RefreshTokenVerifies(jwt, cfg, p);
  }

  /** The middleware: unless the header token fails to decode, `req.lang` is set
      to `uz` or `ru` and `next()` is called exactly once. */
  method Use(req: Request, jwt: JwtService, cfg: TokenConfig,
             clients: map<string, ClientAccount>, markets: map<string, MarketAccount>,
             decode: string -> Option<string>) returns (r: Result<Unit>)
    modifies req
    ensures r.Err? <==> CookieToken(req.cookies, req.Header("cookie"), decode).Err?
    ensures r.Err? ==> r.error == URIError && req.lang == old(req.lang) && req.nextCalls == old(req.nextCalls)
    ensures r.Ok? ==> req.nextCalls == old(req.nextCalls) + 1
    ensures r.Ok? ==> req.lang == Some(LangForToken(CookieToken(req.cookies, req.Header("cookie"), decode).value, jwt, cfg, clients, markets))
    ensures r.Ok? ==> req.lang == Some("uz") || req.lang == Some("ru")
    ensures req.user == old(req.user)
  {
    var token := CookieToken(req.cookies, req.Header("cookie"), decode);
    if token.Err? {
      return Err(token.error);
    }
    req.lang := Some(LangForToken(token.value, jwt, cfg, clients, markets));
    req.nextCalls := req.nextCalls + 1;
    return Ok(Unit);
  }
}
