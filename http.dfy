/**
 * Shapes shared by every handler of the API: an optional value, the error
 * pair (status, message) that a failing handler hands on to the error
 * middleware, and the status codes the handlers use.
 */
module Http {

  datatype Option<+T> = None | Some(value: T)
  {
    /** The JavaScript `x || fallback` reading of an optional value. */
    function GetOr(default: T): T
    {
      match this
      case Some(v) => v
      case None => default
    }
  }

  /** What the client receives when a request fails: the response status and
      the message of the Error passed to next(). */
  datatype Error = Error(status: int, message: string)

  datatype Result<+T> = Ok(value: T) | Fail(error: Error)

  const StatusOk: int := 200
  const StatusCreated: int := 201
  const StatusBadRequest: int := 400
  const StatusUnauthorized: int := 401
  const StatusForbidden: int := 403
  const StatusNotFound: int := 404
  /** An exception thrown inside a handler reaches the error middleware with
      the response status still at 200, which it reports as 500. */
  const StatusServerError: int := 500

  /** `s || fallback` for a request string, where '' is falsy. */
  function OrElse(s: string, fallback: string): string
  {
    if s != "" then s else fallback
  }

  /** String.prototype.startsWith. */
  predicate StartsWith(s: string, prefix: string)
  {
    |prefix| <= |s| && s[..|prefix|] == prefix
  }

  /** A failure reported as 500 whose message begins with `prefix`: an
      exception of a library (Mongoose, bcrypt), of which the model keeps the
      status and the leading words of the message. */
  predicate ServerFailure<T>(r: Result<T>, prefix: string)
  {
    r.Fail? && r.error.status == StatusServerError && StartsWith(r.error.message, prefix)
  }
}
