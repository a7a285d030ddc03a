/** The parts of an Express request and response the core reads or writes. */
module Http {
  import opened Common
  import opened Jwt

  /** The options object passed to `res.cookie`. */
  datatype CookieOptions = CookieOptions(httpOnly: bool, secure: bool, sameSite: string, maxAge: int, path: string)

  /** One `Set-Cookie` the response will carry. */
  datatype SetCookie = SetCookie(name: string, value: string, options: CookieOptions)

  class Response {
    /** The cookies set on this response, in order. */
    var cookies: seq<SetCookie>

    constructor()
      ensures cookies == []
    {
      cookies := [];
    }
  }

  class Request {
    /** Header values by name as the client sent them. */
    const headers: map<string, string>
    /** `req.cookies` as filled by a cookie parser, if one ran. */
    const cookies: Option<map<string, string>>
    /** `req.ip` */
    const ip: Option<string>
    /** `req.originalUrl`, which the Express adapter's `getRequestUrl` returns,
        and `req.method` */
    const originalUrl: string
    const httpMethod: string
    /** `req.user`, set by the authentication guard. */
    var user: Option<Claims>
    /** `req.lang`, set by the language middleware. */
    var lang: Option<string>
    /** How many times the middleware chain's `next()` has been called. */
    var nextCalls: nat

    constructor(headers: map<string, string>, cookies: Option<map<string, string>>, ip: Option<string>, originalUrl: string, httpMethod: string)
      ensures this.headers == headers && this.cookies == cookies && this.ip == ip
      ensures this.originalUrl == originalUrl && this.httpMethod == httpMethod
      ensures user == None && lang == None && nextCalls == 0
    {
      this.headers := headers;
      this.cookies := cookies;
      this.ip := ip;
      this.originalUrl := originalUrl;
      this.httpMethod := httpMethod;
      user := None;
      lang := None;
      nextCalls := 0;
    }

    /** `req.headers[name]`, `undefined` when absent. */
    function Header(name: string): Option<string>
      reads this
    {
      if name in headers then Some(headers[name]) else None
    }
  }
}
