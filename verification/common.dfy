/** Shared vocabulary of the model: optional values, the tri-state of a JavaScript
    DTO property (absent / null / given), the exceptions the services throw and the
    result of an operation that may throw one of them. */
module Common {

  datatype Option<+T> = None | Some(value: T) {
    function GetOr(default: T): T {
      match this
      case Some(v) => v
      case None => default
    }
  }

  /** A property of a request DTO: left out (`undefined`), sent as `null`, or given. */
  datatype Field<+T> = Absent | Null | Given(value: T) {
    /** `dto.x !== undefined` */
    predicate Defined() { !Absent? }
    /** `dto.x ?? null` */
    function OrNull(): Option<T> {
      match this
      case Given(v) => Some(v)
      case _ => None
    }
  }

  /** A non-empty string was sent (`if (dto.x)`). */
  predicate Sent(f: Field<string>) {
    f.Given? && f.value != ""
  }

  /** JavaScript truthiness of a nullable string column. */
  predicate Truthy(s: Option<string>) {
    s.Some? && s.value != ""
  }

  /** The `message` property of an error body: missing, a string, or an array of strings. */
  datatype Message = NoMessage | Text(text: string) | Texts(items: seq<string>) {
    /** JavaScript truthiness: an empty string is falsy, every array is truthy. */
    predicate Truthy() {
      match this
      case NoMessage => false
      case Text(s) => s != ""
      case Texts(_) => true
    }
  }

  /** What `HttpException.getResponse()` returns. */
  datatype ResponseBody = ObjectBody(message: Message, error: Option<string>) | StringBody(text: string) | OtherBody

  /** Everything that can be thrown inside a request and reach the global filter. */
  datatype Exception =
    | HttpException(status: int, response: ResponseBody)
    | QueryFailedError(code: string)
    | StatusObject(statusCode: Option<int>, message: Message, error: Option<string>)
    | OtherError(name: string)

  /** The built-in Nest exceptions: `{statusCode, message, error}` bodies. */
  function BadRequest(msg: string): Exception { HttpException(400, ObjectBody(Text(msg), Some("Bad Request"))) }
  function Unauthorized(msg: string): Exception { HttpException(401, ObjectBody(Text(msg), Some("Unauthorized"))) }
  function Forbidden(msg: string): Exception { HttpException(403, ObjectBody(Text(msg), Some("Forbidden"))) }
  function NotFound(msg: string): Exception { HttpException(404, ObjectBody(Text(msg), Some("Not Found"))) }
  function Conflict(msg: string): Exception { HttpException(409, ObjectBody(Text(msg), Some("Conflict"))) }

  /** A JavaScript `TypeError`, e.g. calling `.trim()` on `undefined` or `null`. */
  const TypeError: Exception := OtherError("TypeError")

  /** PostgreSQL SQLSTATE codes raised by the repositories' constraints. */
  const UniqueViolation: string := "23505"
  const NotNullViolation: string := "23502"
  const ForeignKeyViolation: string := "23503"

  datatype Result<+T> = Ok(value: T) | Err(error: Exception) {
    predicate IsFailure() { Err? }
    function PropagateFailure<U>(): Result<U>
      requires Err?
    {
      Err(error)
    }
    function Extract(): T
      requires Ok?
    {
      value
    }
  }

  /** An operation that returns nothing but may throw. */
  datatype Unit = Unit

  /** A table after a save under `id` that either happened (the outcome is the
      saved row) or was refused (the outcome is the error): nothing else moves. */
  function Stored<T>(rows: map<string, T>, id: string, o: Result<T>): (t: map<string, T>)
    ensures o.Err? ==> t == rows
    ensures o.Ok? ==> id in t && t[id] == o.value && forall k :: k != id ==> (k in t <==> k in rows) && (k in rows ==> t[k] == rows[k])
  {
    if o.Ok? then rows[id := o.value] else rows
  }
}
