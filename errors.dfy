/**
 * Error classification: the mapping from an error's `code` string to the
 * HTTP status and default text of the JSON answer, and the three helpers that
 * build coded errors.
 */
module Errors {
  import opened Js

  /** An `Error` object with the optional `code` and `status` properties the helpers assign. */
  datatype Error = Error(message: string, code: Option<string>, status: Option<int>)

  /** The object `errorHandler` returns: `message`, `code` and, in development and test only, the original `error`. */
  datatype Response = Response(message: string, code: int, error: Option<Error>)

  /** The statuses `errorHandler` can answer with. */
  const Statuses: set<int> := {400, 403, 404, 409, 422, 500}

  /** `message || fallback` for an optional message argument. */
  function MessageOr(message: Option<string>, fallback: string): string
  {
    if message.Some? && message.value != "" then message.value else fallback
  }

  predicate ShowsDetails(environment: Option<string>)
  {
    environment == Some("development") || environment == Some("test")
  }

  /** The status and default text that the `switch` on `err.code` selects. */
  function StatusAndText(code: Option<string>): (int, string)
  {
    if code == Some("ER_DUP_ENTRY") then (409, "Conflict")
    else if code == Some("BAD_REQUEST") then (400, "Bad Request")
    else if code == Some("FORBIDDEN") then (403, "Forbidden")
    else if code == Some("NOT_FOUND") then (404, "Not Found")
    else if code == Some("UNPROCESSABLE_ENTITY") then (422, "Unprocessable Entity")
    else (500, "Server Error")
  }

  /** What `errorHandler(err, environment, message)` returns. */
  function Classify(err: Error, environment: Option<string>, message: Option<string>): Response
  {
    var (status, text) := StatusAndText(err.code);
    Response(MessageOr(message, text), status, if ShowsDetails(environment) then Some(err) else None)
  }

  /** `errorHandler`: fills the answer field by field in a `switch`, then attaches the error in development and test. */
  method ErrorHandler(err: Error, environment: Option<string>, message: Option<string>) returns (r: Response)
    ensures r == Classify(err, environment, message)
    ensures r.code in Statuses
  {
    var responseMessage: string;
    var responseCode: int;
    if err.code == Some("ER_DUP_ENTRY") {
      responseMessage, responseCode := MessageOr(message, "Conflict"), 409;
    } else if err.code == Some("BAD_REQUEST") {
      responseMessage, responseCode := MessageOr(message, "Bad Request"), 400;
    } else if err.code == Some("FORBIDDEN") {
      responseMessage, responseCode := MessageOr(message, "Forbidden"), 403;
    } else if err.code == Some("NOT_FOUND") {
      responseMessage, responseCode := MessageOr(message, "Not Found"), 404;
    } else if err.code == Some("UNPROCESSABLE_ENTITY") {
      responseMessage, responseCode := MessageOr(message, "Unprocessable Entity"), 422;
    } else {
      responseMessage, responseCode := MessageOr(message, "Server Error"), 500;
    }
    var attached: Option<Error> := None;
    if environment == Some("development") || environment == Some("test") {
      attached := Some(err);
    }
    r := Response(responseMessage, responseCode, attached);
  }

  /** The five recognised codes map to their statuses; every other code, or none, to 500 'Server Error'. */
  lemma ClassifyTable(err: Error, environment: Option<string>)
    ensures err.code == Some("ER_DUP_ENTRY") ==> Classify(err, environment, None).code == 409
    ensures err.code == Some("BAD_REQUEST") ==> Classify(err, environment, None).code == 400
    ensures err.code == Some("FORBIDDEN") ==> Classify(err, environment, None).code == 403
    ensures err.code == Some("NOT_FOUND") ==> Classify(err, environment, None).code == 404
    ensures err.code == Some("UNPROCESSABLE_ENTITY") ==> Classify(err, environment, None).code == 422
    ensures err.code !in {Some("ER_DUP_ENTRY"), Some("BAD_REQUEST"), Some("FORBIDDEN"), Some("NOT_FOUND"), Some("UNPROCESSABLE_ENTITY")}
            ==> Classify(err, environment, None) == Response("Server Error", 500, Classify(err, environment, None).error)
    ensures Classify(err, environment, None).code in Statuses
  {
  }

  /** A supplied message replaces the default text and never changes the status. */
  lemma MessageKeepsStatus(err: Error, environment: Option<string>, message: string)
    ensures Classify(err, environment, Some(message)).code == Classify(err, environment, None).code
    ensures message != "" ==> Classify(err, environment, Some(message)).message == message
    ensures message == "" ==> Classify(err, environment, Some(message)) == Classify(err, environment, None)
  {
  }

  /** The original error reaches the answer only in the development and test environments. */
  lemma DetailsOnlyInDevelopment(err: Error, environment: Option<string>, message: Option<string>)
    ensures Classify(err, environment, message).error.Some? <==> ShowsDetails(environment)
    ensures Classify(err, environment, message).error.Some? ==> Classify(err, environment, message).error.value == err
  {
  }

  /** `error403()` */
  function Error403(): Error
  {
    Error("Forbidden", Some("FORBIDDEN"), Some(403))
  }

  /** `error404()` */
  function Error404(): Error
  {
    Error("Not Found", Some("NOT_FOUND"), Some(404))
  }

  /** `error422(message = 'Unprocessable Entity')` */
  function Error422(message: Option<string>): Error
  {
    var text := if message.Some? then message.value else "Unprocessable Entity";
    Error(text, Some("UNPROCESSABLE_ENTITY"), Some(422))
  }

  /** Each helper's error classifies back to its own status, which is also the `status` it carries. */
  lemma HelpersClassifyToOwnStatus(environment: Option<string>, message: Option<string>)
    ensures Classify(Error403(), environment, None) == Response("Forbidden", 403, Classify(Error403(), environment, None).error)
    ensures Classify(Error404(), environment, None) == Response("Not Found", 404, Classify(Error404(), environment, None).error)
    ensures Classify(Error422(message), environment, None).code == 422
    ensures Error403().status == Some(Classify(Error403(), environment, None).code)
    ensures Error404().status == Some(Classify(Error404(), environment, None).code)
    ensures Error422(message).status == Some(Classify(Error422(message), environment, None).code)
    ensures Error422(None).message == "Unprocessable Entity"
  {
  }

  /** An error without a recognised code, such as a TypeError thrown by the runtime. */
  function RuntimeError(message: string): Error
  {
    Error(message, None, None)
  }
}
