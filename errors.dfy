/** Errors as the handlers raise them and the two error middlewares: `notFound`, which answers
    every unmatched route, and `errorHandler`, which turns an error into the JSON envelope
    `{ message }` with a status code. */
module Errors {
  import opened Js

  /** An error object as `errorHandler` reads it: `err.message` (a string on every Error)
      and `err.code`, which `new HttpError(message, code)` sets and a plain `Error` lacks. */
  datatype HttpError = HttpError(message: string, code: Option<int>)

  /** What a route handler does with a request: answer with a status and a JSON payload, or
      pass an error to `next`. */
  datatype Reply<T> = Respond(status: int, payload: T) | Next(error: HttpError)

  /** `new HttpError(message, code)` */
  function Raise(message: string, code: int): HttpError {
    HttpError(message, Some(code))
  }

  /** `new HttpError(error)` for a caught exception: its text becomes the message and there is
      no code. */
  function Wrap(thrown: string): HttpError {
    HttpError(thrown, None)
  }

  const NotFoundPrefix: string := "Not Found - "
  const UnknownError: string := "An unknown error occurred."
  const FallbackStatus: int := 500
  /** The status Express gives a response nobody has set one on. */
  const DefaultResponseStatus: int := 200

  /** The effect of `notFound`: the status set on the response, and the error passed on. */
  datatype Forwarded = Forwarded(status: int, error: HttpError)

  /** `notFound`: set status 404 and forward a plain `Error` naming the requested URL. */
  function NotFound(originalUrl: string): (f: Forwarded)
    ensures f.status == 404
    ensures f.error.code == None
    ensures StartsWith(f.error.message, NotFoundPrefix)
    ensures f.error.message[|NotFoundPrefix|..] == originalUrl
  {
    Forwarded(404, HttpError(NotFoundPrefix + originalUrl, None))
  }

  /** What `errorHandler` does: hand the error on to Express's own handler, or write the
      envelope `{ message }` with a status. */
  datatype Handling = PassOn(error: HttpError) | Envelope(status: int, message: string)

  /** `errorHandler`: `res.status(err.code || 500).json({ message: err.message ||
      "An unknown error occurred." })`, unless the response's headers are already out
      (`headersSent`), in which case the error goes on to Express's own handler. */
  function ErrorHandler(err: HttpError, headersSent: bool): (h: Handling)
    ensures headersSent <==> h.PassOn?
    ensures h.PassOn? ==> h.error == err
    ensures h.Envelope? ==> h.status != 0 && h.message != ""
    ensures h.Envelope? && TruthyCode(err.code) ==> h.status == err.code.value
    ensures h.Envelope? && !TruthyCode(err.code) ==> h.status == FallbackStatus
    ensures h.Envelope? && err.message != "" ==> h.message == err.message
    ensures h.Envelope? && err.message == "" ==> h.message == UnknownError
  {
    if headersSent then PassOn(err)
    else
      Envelope(if TruthyCode(err.code) then err.code.value else FallbackStatus,
               if err.message != "" then err.message else UnknownError)
  }

  /** `errorHandler` exactly as written: its guard reads `res.headerSent`, a property that
      neither Express 4 nor Node's response defines (the flag is `res.headersSent`). The guard is
      therefore always undefined, and the handler attempts to write the envelope whatever
      `headersSent` is. */
  function ErrorHandlerAsWritten(err: HttpError, headersSent: bool): (h: Handling)
    ensures h.Envelope?
  {
    ErrorHandler(err, false)
  }

  /** An error raised after the response has gone out is not passed on as written: the handler
      attempts to write the envelope, which then throws because the headers are out, so the error
      reaching Express's default handler is that throw instead of `err`. The guard on the real
      flag passes `err` itself on. */
  lemma LateErrorIsNotPassedOn(err: HttpError)
    ensures ErrorHandlerAsWritten(err, true).Envelope?
    ensures ErrorHandler(err, true) == PassOn(err)
    ensures forall sent: bool :: ErrorHandlerAsWritten(err, sent) == ErrorHandler(err, false)
  {
  }

  /** An unmatched route as the middleware chain runs it: `notFound`, then `errorHandler`. */
  function UnmatchedRouteAsWritten(originalUrl: string): Handling {
    ErrorHandler(NotFound(originalUrl).error, false)
  }

  /** The error from `notFound` has no code, so `errorHandler` overwrites the 404 it set:
      an unmatched route is answered with 500. */
  lemma UnmatchedRouteAnswers500(originalUrl: string)
    ensures UnmatchedRouteAsWritten(originalUrl) == Envelope(500, NotFoundPrefix + originalUrl)
    ensures UnmatchedRouteAsWritten(originalUrl).status != NotFound(originalUrl).status
  {
  }

  /** The evidently intended handler: when the error carries no code, a status that an earlier
      middleware already set on the response (`statusSoFar`) is kept instead of 500. */
  function ErrorHandlerKeepingStatus(err: HttpError, headersSent: bool, statusSoFar: int): (h: Handling)
    ensures TruthyCode(err.code) || statusSoFar == DefaultResponseStatus || headersSent
            ==> h == ErrorHandler(err, headersSent)
    ensures !headersSent && !TruthyCode(err.code) && statusSoFar != DefaultResponseStatus
            ==> h == Envelope(statusSoFar, ErrorHandler(err, false).message)
  {
    if headersSent then PassOn(err)
    else
      var status :=
        if TruthyCode(err.code) then err.code.value
        else if statusSoFar != DefaultResponseStatus then statusSoFar
        else FallbackStatus;
      Envelope(status, if err.message != "" then err.message else UnknownError)
  }

  /** An unmatched route with the corrected handler: answered with the 404 `notFound` set. */
  function UnmatchedRoute(originalUrl: string): (h: Handling)
    ensures h == Envelope(404, NotFoundPrefix + originalUrl)
  {
    var f := NotFound(originalUrl);
    ErrorHandlerKeepingStatus(f.error, false, f.status)
  }
}
