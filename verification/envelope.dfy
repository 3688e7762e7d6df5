/** The JSON error body both exception filters write, and what a filter produces:
    the HTTP status, the body and whether it logged the failure with `console.error`. */
module Envelope {
  import opened Wrappers

  const BadRequest := 400
  const NotFound := 404
  const Conflict := 409
  const InternalServerError := 500

  /** A `message` property: one string, or the array of strings class-validator puts there. */
  datatype Message = Text(text: string) | Texts(items: seq<string>)

  /** A JSON object with the properties the filters read or write. */
  datatype Body = Body(
    error: Option<string>,
    details: Option<map<string, string>>,
    message: Option<Message>,
    path: Option<string>)

  datatype Reply = Reply(status: int, body: Body, logged: bool)

  /** `{ error: "Validation failed", details }` */
  function ValidationBody(details: map<string, string>): Body
  {
    Body(Some("Validation failed"), Some(details), None, None)
  }

  /** `{ error: "Tool not found", message }` */
  function ToolNotFoundBody(message: Message): Body
  {
    Body(Some("Tool not found"), None, Some(message), None)
  }

  /** The one body every 500 reply carries; it holds nothing from the failure. */
  const InternalErrorBody := Body(Some("Internal server error"), None,
                                  Some(Text("Database connection failed")), None)

  /** An error envelope: an `error` text and at least one of `details` and `message`. */
  predicate IsEnvelope(b: Body)
  {
    b.error.Some? && (b.details.Some? || b.message.Some?)
  }
}
