/**
 * The Express error boundary: `notFound` turns an unmatched URL into a 404
 * error, and `errorHandler` turns any error into the JSON reply the client
 * sees, normalising a status that was never set.
 */
module ErrorMiddleware {
  import opened Http

  /** The Error object handed to next(): its message and its stack trace. */
  datatype ServerError = ServerError(message: string, stack: string)

  /** The JSON body of an error reply; `stack` is null in production. */
  datatype ErrorBody = ErrorBody(message: string, stack: Option<string>)

  datatype ErrorReply = ErrorReply(status: int, body: ErrorBody)

  /** errorHandler: `resStatus` is the status the failing handler set, or 200
      when it set none; `nodeEnv` is process.env.NODE_ENV. */
  function ErrorHandler(resStatus: int, err: ServerError, nodeEnv: Option<string>): (r: ErrorReply)
    ensures r.status != StatusOk
    ensures resStatus == StatusOk ==> r.status == StatusServerError
    ensures resStatus != StatusOk ==> r.status == resStatus
    ensures r.body.message == err.message
    ensures r.body.stack.None? <==> nodeEnv == Some("production")
    ensures r.body.stack.Some? ==> r.body.stack.value == err.stack
  {
    var status := if resStatus == StatusOk then StatusServerError else resStatus;
    var stack := if nodeEnv == Some("production") then None else Some(err.stack);
    ErrorReply(status, ErrorBody(err.message, stack))
  }

  /** notFound: the status it sets and the error it forwards. */
  function NotFound(originalUrl: string): (e: Error)
    ensures e.status == StatusNotFound
    ensures |e.message| == |"Not Found - "| + |originalUrl|
    ensures e.message[..|"Not Found - "|] == "Not Found - "
    ensures e.message[|"Not Found - "|..] == originalUrl
  {
    Error(StatusNotFound, "Not Found - " + originalUrl)
  }

  /** Normalising is idempotent: a reply's status survives a second pass. */
  lemma HandlerIdempotent(resStatus: int, err: ServerError, nodeEnv: Option<string>)
    ensures ErrorHandler(ErrorHandler(resStatus, err, nodeEnv).status, err, nodeEnv)
            == ErrorHandler(resStatus, err, nodeEnv)
  {
  }

  /** Every status a handler of this API sets reaches the client unchanged. */
  lemma HandlerKeepsHandlerStatus(e: Error, stack: string, nodeEnv: Option<string>)
    requires e.status in {StatusBadRequest, StatusUnauthorized, StatusForbidden, StatusNotFound, StatusServerError}
    ensures ErrorHandler(e.status, ServerError(e.message, stack), nodeEnv).status == e.status
    ensures ErrorHandler(e.status, ServerError(e.message, stack), nodeEnv).body.message == e.message
  {
  }

  /** notFound followed by errorHandler gives a 404 reply naming the URL. */
  lemma NotFoundReply(originalUrl: string, stack: string, nodeEnv: Option<string>)
    ensures var e := NotFound(originalUrl);
            var reply := ErrorHandler(e.status, ServerError(e.message, stack), nodeEnv);
            reply.status == StatusNotFound && reply.body.message == "Not Found - " + originalUrl
  {
  }
}
