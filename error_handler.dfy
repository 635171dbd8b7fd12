/**
 * The application's error type and the Express error handler that turns any
 * thrown error into the JSON envelope `{error: {code, message, timestamp}}`.
 */
module ErrorHandler {
  import opened Wrappers

  /** `AppError`: an Error with a message, an HTTP status code and a stable code. */
  datatype AppError = AppError(message: string, statusCode: int, code: string)

  const DefaultCode: string := "INTERNAL_ERROR"
  const DefaultMessage: string := "Internal server error"
  const DefaultStatus: int := 500

  /**
   * `new AppError(message, statusCode, code)`: the code parameter defaults to
   * 'INTERNAL_ERROR' only when it is not passed at all (`None`); an empty code
   * is stored as given.
   */
  function NewAppError(message: string, statusCode: int, code: Option<string>): (e: AppError)
    ensures e.message == message && e.statusCode == statusCode
    ensures code.None? ==> e.code == DefaultCode
    ensures code.Some? ==> e.code == code.value
  {
    AppError(message, statusCode, if code.Some? then code.value else DefaultCode)
  }

  /**
   * Whatever reaches the error handler: an AppError, or any other thrown value
   * whose `statusCode` and `code` may be missing. The stack is logged only.
   */
  datatype Thrown = Thrown(statusCode: Option<int>, code: Option<string>, message: string, stack: string)

  function FromAppError(e: AppError, stack: string): Thrown {
    Thrown(Some(e.statusCode), Some(e.code), e.message, stack)
  }

  /** The JSON body sent to the client; it has no field for the stack. */
  datatype ErrorBody = ErrorBody(code: string, message: string, timestamp: string)
  datatype ErrorResponse = ErrorResponse(status: int, body: ErrorBody)

  /**
   * The envelope `errorHandler` computes. Each field falls back to its default
   * when the thrown value's field is falsy (missing, 0 or "").
   */
  function Envelope(err: Thrown, timestamp: string): (r: ErrorResponse)
    ensures r.status != 0 && r.body.code != "" && r.body.message != ""
    ensures r.body.timestamp == timestamp
    ensures err.statusCode.Some? && err.statusCode.value != 0 ==> r.status == err.statusCode.value
    ensures err.statusCode.None? || err.statusCode.value == 0 ==> r.status == DefaultStatus
    ensures err.code.Some? && err.code.value != "" ==> r.body.code == err.code.value
    ensures err.code.None? || err.code.value == "" ==> r.body.code == DefaultCode
    ensures err.message != "" ==> r.body.message == err.message
    ensures err.message == "" ==> r.body.message == DefaultMessage
  {
    var statusCode := if err.statusCode.Some? && err.statusCode.value != 0 then err.statusCode.value else DefaultStatus;
    var code := if err.code.Some? && err.code.value != "" then err.code.value else DefaultCode;
    var message := if err.message != "" then err.message else DefaultMessage;
    ErrorResponse(statusCode, ErrorBody(code, message, timestamp))
  }

  /**
   * Every AppError whose status, code and message are all set reaches the
   * client unchanged, whatever its stack.
   */
  lemma AppErrorPassesThrough(e: AppError, stack: string, timestamp: string)
    requires e.statusCode != 0 && e.code != "" && e.message != ""
    ensures Envelope(FromAppError(e, stack), timestamp) == ErrorResponse(e.statusCode, ErrorBody(e.code, e.message, timestamp))
  {
  }

  /** The Express response object, as far as the handler writes it. */
  class Response {
    var status: Option<int>
    var json: Option<ErrorBody>

    constructor()
      ensures status == None && json == None
    {
      status := None;
      json := None;
    }

    /** `errorHandler(err, req, res, next)`: `res.status(statusCode).json({error: ...})`. */
    method ErrorHandler(err: Thrown, timestamp: string)
      modifies this
      ensures status == Some(Envelope(err, timestamp).status)
      ensures json == Some(Envelope(err, timestamp).body)
    {
      var response := Envelope(err, timestamp);
      status := Some(response.status);
      json := Some(response.body);
    }
  }
}
