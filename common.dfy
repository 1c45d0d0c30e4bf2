/** Values shared by every endpoint: optional values, HTTP replies and failures. */
module Common {

  datatype Option<+T> = None | Some(value: T) {
    /** `x || d` and `x ?? d` on an absent value, and destructuring defaults. */
    function GetOr(default: T): T {
      match this
      case Some(v) => v
      case None => default
    }
  }

  /** An early return: an HTTP status code and the `error` text of the JSON body. */
  datatype Failure = Failure(status: int, message: string)

  datatype Result<+T> = Ok(value: T) | Err(failure: Failure)

  /** The JSON body of a reply: either the payload or `{ error: message }`. */
  datatype Body<+T> = Data(value: T) | Error(message: string)

  /** What `res.status(code).json(body)` sends. */
  datatype Reply<+T> = Reply(status: int, body: Body<T>)

  function FailureReply<T>(f: Failure): Reply<T> {
    Reply(f.status, Error(f.message))
  }

  const OK: int := 200
  const CREATED: int := 201
  const BAD_REQUEST: int := 400
  const NOT_FOUND: int := 404
  const METHOD_NOT_ALLOWED: int := 405
  const INTERNAL_ERROR: int := 500

  const MethodNotAllowed: string := "Método no permitido"
}
