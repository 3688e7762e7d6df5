/** `PrismaExceptionFilter.catch`: maps the Prisma client's errors to a status and an
    error envelope, logging exactly the failures it answers with 500. */
module PrismaExceptionFilter {
  import opened Envelope
  import opened Wrappers

  /** The five error classes the filter is registered for, and anything else that
      reaches its last branch. `detail` stands for everything the error carries besides
      its class and code: its message, its meta (the violated column) and its stack. */
  datatype PrismaError =
    | KnownRequest(code: string, detail: string)
    | Initialization(detail: string)
    | UnknownRequest(detail: string)
    | RustPanic(detail: string)
    | ValidationError(detail: string)
    | Unlisted(detail: string)

  /** Unique constraint violation. */
  const UniqueViolation := "P2002"
  /** Record required by the operation not found. */
  const RecordNotFound := "P2025"

  const NameNotUniqueBody := ValidationBody(map["name" := "Tool name must be unique"])
  const ToolDoesNotExistBody := ToolNotFoundBody(Text("Tool does not exist"))
  const DatabaseRequestFailedBody := ValidationBody(map["general" := "Database request failed"])

  function Catch(e: PrismaError): (r: Reply)
    ensures IsEnvelope(r.body)
    ensures r.status in {BadRequest, NotFound, Conflict, InternalServerError}
    ensures r.logged <==> r.status == InternalServerError
    ensures r.status == InternalServerError ==> r.body == InternalErrorBody
  {
    match e
    case KnownRequest(code, _) =>
      if code == UniqueViolation then Reply(Conflict, NameNotUniqueBody, false)
      else if code == RecordNotFound then Reply(NotFound, ToolDoesNotExistBody, false)
      else Reply(InternalServerError, InternalErrorBody, true)
    case Initialization(_) => Reply(InternalServerError, InternalErrorBody, true)
    case UnknownRequest(_) => Reply(InternalServerError, InternalErrorBody, true)
    case RustPanic(_) => Reply(InternalServerError, InternalErrorBody, true)
    case ValidationError(_) => Reply(BadRequest, DatabaseRequestFailedBody, false)
    case Unlisted(_) => Reply(InternalServerError, InternalErrorBody, true)
  }

  /** The reply depends on the error's class and code only: no raw error text, and no
      violated column, ever reaches the body. */
  lemma NoDetailLeaks(e: PrismaError, other: string)
    ensures Catch(e.(detail := other)) == Catch(e)
  {
  }

  /** P2002 is answered 409 with the name-uniqueness body, whatever column was violated. */
  lemma UniqueViolationIsConflict(detail: string)
    ensures Catch(KnownRequest(UniqueViolation, detail)) == Reply(Conflict, NameNotUniqueBody, false)
  {
  }

  /** P2025 is answered 404 "Tool does not exist". */
  lemma RecordNotFoundIsNotFound(detail: string)
    ensures Catch(KnownRequest(RecordNotFound, detail)) == Reply(NotFound, ToolDoesNotExistBody, false)
  {
  }

  /** Every other known-request code, and the initialization, unknown-request and
      Rust-panic errors, are answered with the constant 500 reply and logged. */
  lemma StoreFailuresAreInternal(e: PrismaError)
    requires || (e.KnownRequest? && e.code != UniqueViolation && e.code != RecordNotFound)
             || e.Initialization? || e.UnknownRequest? || e.RustPanic?
    ensures Catch(e) == Reply(InternalServerError, InternalErrorBody, true)
  {
  }

  /** A Prisma validation error is answered 400 with `details.general`, not logged. */
  lemma ValidationErrorIsBadRequest(detail: string)
    ensures Catch(ValidationError(detail)) == Reply(BadRequest, DatabaseRequestFailedBody, false)
  {
  }
}
