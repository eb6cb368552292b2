/**
 * What a request handler returns, and Python truthiness of request fields.
 * The web framework itself (routing, serialization) is outside the model.
 */
module Http {
  import opened Wrappers

  const OK: nat := 200
  const ACCEPTED: nat := 202
  const BAD_REQUEST: nat := 400
  const NOT_FOUND: nat := 404
  const SERVER_ERROR: nat := 500

  /** A JSON object whose values are strings, as the handlers build them. */
  type Fields = map<string, string>

  datatype Body =
    | ErrorMessage(text: string)            // {'error': text}
    | Json(fields: Fields)                   // any other JSON object
    | JsonList(records: seq<Fields>)         // a JSON array of objects
    | JsonNullable(values: map<string, Option<string>>)  // an object whose values may be null
    | FileDownload(path: string)             // send_file(path)
    | FrameworkError                         // an exception escaped the handler

  datatype Response = Response(status: nat, body: Body)

  /** An exception that escapes a handler becomes the framework's 500 page. */
  const Uncaught := Response(SERVER_ERROR, FrameworkError)

  function Error(status: nat, text: string): Response {
    Response(status, ErrorMessage(text))
  }

  /** Python truthiness of an optional string: present and non-empty. */
  predicate Truthy(s: Option<string>) {
    s.Some? && s.value != ""
  }

  /** An uploaded file part; it is falsy when its file name is empty. */
  datatype Upload = Upload(filename: string)

  predicate Present(u: Option<Upload>) {
    u.Some? && u.value.filename != ""
  }

  /** How a call into code outside the model ended: normally, or by raising with a message. */
  datatype RunOutcome = Completed | Raised(message: string)
}
