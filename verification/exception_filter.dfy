/** `AllExceptionsFilter.catch`: every exception becomes a status, an error name
    and a message; server errors and rate limiting are logged with the client's
    address. */
module ExceptionFilter {
  import opened Common
  import opened Strings
  import opened Http

  const DefaultStatus: int := 500
  const DefaultMessage: string := "Internal server error"
  const DefaultError: string := "InternalServerError"
  const RateLimitMessage: string := "Rate limit exceeded (Potential DDoS attack)"

  /** The JSON error body; the timestamp is left out. */
  datatype ErrorBody = ErrorBody(statusCode: int, error: string, message: Message, path: string, httpMethod: string)

  /** `httpAdapter.reply(response, body, status)` */
  datatype Reply = Reply(httpStatus: int, body: ErrorBody)

  /** What gets logged: the status, the client address and the level
      (`warn` for 429, `error` otherwise). */
  datatype LogEntry = LogEntry(statusCode: int, ip: string, warn: bool)

  /** `shouldLog` */
  predicate ShouldLog(status: int) {
    status >= 500 || status == 429
  }

  /** `opt || fallback` for an optional string. */
  function OrElse(s: Option<string>, fallback: string): (r: string)
    ensures s.Some? && s.value != "" ==> r == s.value
    ensures !(s.Some? && s.value != "") ==> r == fallback
  {
    if s.Some? && s.value != "" then s.value else fallback
  }

  /** The first entry of `x-forwarded-for`, then `x-real-ip`, both trimmed, then
      `req.ip`; the first non-empty one wins, else "Unknown IP". */
  function ClientIp(xff: Option<string>, xri: Option<string>, ip: Option<string>): (r: string)
    ensures r != ""
    ensures xff.Some? && Trim(Split(xff.value, ',')[0]) != "" ==> r == Trim(Split(xff.value, ',')[0])
    ensures xff.Some? && Trim(Split(xff.value, ',')[0]) != "" ==> ',' !in r && StartsWith(xff.value, Split(xff.value, ',')[0])
    ensures (xff.None? || Trim(Split(xff.value, ',')[0]) == "") && xri.Some? && Trim(xri.value) != "" ==> r == Trim(xri.value)
    ensures (xff.None? || Trim(Split(xff.value, ',')[0]) == "") && (xri.None? || Trim(xri.value) == "")
            ==> r == OrElse(ip, "Unknown IP")
  {
    var first := if xff.Some? then Trim(Split(xff.value, ',')[0]) else "";
    if first != "" then
      var parts := Split(xff.value, ',');
      FirstPieceIsPrefix(parts, ',');
      assert ',' !in first by {
        if ',' in first {
          TrimKeepsCharacters(parts[0], ',');
        }
      }
      first
    else if xri.Some? && Trim(xri.value) != "" then Trim(xri.value)
    else OrElse(ip, "Unknown IP")
  }

  lemma FirstPieceIsPrefix(parts: seq<string>, sep: char)
    requires |parts| >= 1
    ensures StartsWith(Join(parts, sep), parts[0])
  {
  }

  /** `catch(exception, host)`: the reply and, when `ShouldLog`, the log entry. */
  method Catch(exception: Exception, request: Request) returns (reply: Reply, logged: Option<LogEntry>)
    ensures reply.body.statusCode == reply.httpStatus
    ensures reply.body.path == request.originalUrl && reply.body.httpMethod == request.httpMethod
    ensures exception.OtherError? ==>
      reply.httpStatus == DefaultStatus && reply.body.message == Text(DefaultMessage) && reply.body.error == DefaultError
    ensures exception.HttpException? ==> reply.httpStatus == exception.status
    ensures exception.HttpException? && exception.status == 429 ==>
      reply.body.message == Text(RateLimitMessage) && reply.body.error == "TooManyRequests"
    ensures exception.HttpException? && exception.status != 429 && exception.response.ObjectBody? ==>
      var b := exception.response;
      && reply.body.message == (if b.message.Texts? || b.message.Truthy() then b.message
                                else Text(OrElse(b.error, DefaultMessage)))
      && reply.body.error == OrElse(b.error, DefaultError)
    ensures exception.HttpException? && exception.status != 429 && exception.response.StringBody? ==>
      reply.body.message == Text(exception.response.text) && reply.body.error == DefaultError
    ensures exception.QueryFailedError? && exception.code == UniqueViolation ==>
      reply.httpStatus == 409 && reply.body.message == Text("Duplicate entry") && reply.body.error == "Conflict"
    ensures exception.QueryFailedError? && exception.code != UniqueViolation ==>
      reply.httpStatus == 500 && reply.body.message == Text("Database error") && reply.body.error == DefaultError
    ensures exception.StatusObject? ==>
      && reply.httpStatus == (if exception.statusCode.Some? && exception.statusCode.value != 0
                              then exception.statusCode.value else DefaultStatus)
      && reply.body.message == (if exception.message.Truthy() then exception.message else Text(DefaultMessage))
      && reply.body.error == OrElse(exception.error, DefaultError)
    ensures logged.Some? <==> ShouldLog(reply.httpStatus)
    ensures logged.Some? ==>
      logged.value == LogEntry(reply.httpStatus,
                               ClientIp(request.Header("x-forwarded-for"), request.Header("x-real-ip"), request.ip),
                               reply.httpStatus == 429)
  {
    var httpStatus := DefaultStatus;
    var message: Message := Text(DefaultMessage);
    var errorType := DefaultError;

    match exception {
      case HttpException(status, responseBody) =>
        httpStatus := status;
        if httpStatus == 429 {
          message := Text(RateLimitMessage);
          errorType := "TooManyRequests";
        } else if responseBody.ObjectBody? {
          var msg := responseBody.message;
          if msg.Texts? {
            message := msg;
          } else if msg.Truthy() {
            message := msg;
          } else {
            message := Text(OrElse(responseBody.error, DefaultMessage));
          }
          errorType := OrElse(responseBody.error, errorType);
        } else if responseBody.StringBody? {
          message := Text(responseBody.text);
        }
      case QueryFailedError(code) =>
        if code == UniqueViolation {
          httpStatus := 409;
          message := Text("Duplicate entry");
          errorType := "Conflict";
        } else {
          message := Text("Database error");
        }
      case StatusObject(statusCode, msg, error) =>
        httpStatus := if statusCode.Some? && statusCode.value != 0 then statusCode.value else DefaultStatus;
        message := if msg.Truthy() then msg else message;
        errorType := OrElse(error, errorType);
      case OtherError(_) =>
    }

    if ShouldLog(httpStatus) {
      var clientIp := ClientIp(request.Header("x-forwarded-for"), request.Header("x-real-ip"), request.ip);
      logged := Some(LogEntry(httpStatus, clientIp, httpStatus == 429));
    } else {
      logged := None;
    }

    reply := Reply(httpStatus, ErrorBody(httpStatus, errorType, message, request.originalUrl, request.httpMethod));
  }
}
