/** The error middleware: a first-match chain from the fields of a thrown
    error to an HTTP status and JSON body, and the catch-all 404 for unknown
    routes. */
module ErrorHandler {

  /** The fields of a thrown error that the middleware reads. JavaScript's
      `||` treats an unset field and a falsy one alike, so an unset `status`
      is 0 and an unset `code` or `message` is "". */
  datatype AppError = AppError(
    name: string,
    code: string,
    status: int,
    message: string,
    details: seq<string>)

  datatype ErrorBody =
    | ValidationFailed(details: seq<string>)   // { error: 'Validation Error', details }
    | DuplicateEntry                           // { error: 'Duplicate entry', message }
    | RecordNotFound                           // { error: 'Not found', message }
    | Plain(error: string)                     // { error }
    | RouteNotFound(path: string)              // { error: 'Route not found', path }

  datatype ErrorReply = ErrorReply(status: int, body: ErrorBody)

  /** The `error` string of a body. */
  function ErrorText(b: ErrorBody): string {
    match b
    case ValidationFailed(_) => "Validation Error"
    case DuplicateEntry => "Duplicate entry"
    case RecordNotFound => "Not found"
    case Plain(e) => e
    case RouteNotFound(_) => "Route not found"
  }

  /** The ORM's codes for a unique-constraint violation and for a missing row. */
  const UniqueViolation := "P2002"
  const MissingRow := "P2025"

  /** An error the ORM throws with the given code. */
  function OrmError(code: string): AppError {
    AppError("PrismaClientKnownRequestError", code, 0, "", [])
  }

  function Handle(err: AppError): (r: ErrorReply)
    // a validation error wins over every code check
    ensures r.body.ValidationFailed? <==> err.name == "ValidationError"
    ensures r.body.ValidationFailed? ==> r.status == 400 && r.body.details == err.details
    ensures r.body.DuplicateEntry? <==> err.name != "ValidationError" && err.code == UniqueViolation
    ensures r.body.DuplicateEntry? ==> r.status == 409
    ensures r.body.RecordNotFound? <==> err.name != "ValidationError" && err.code == MissingRow
    ensures r.body.RecordNotFound? ==> r.status == 404
    // everything else: the error's own status and message, with defaults
    ensures r.body.Plain? <==>
      err.name != "ValidationError" && err.code != UniqueViolation && err.code != MissingRow
    ensures r.body.Plain? ==> r.status == (if err.status != 0 then err.status else 500)
    ensures r.body.Plain? ==> r.body.error == (if err.message != "" then err.message else "Internal server error")
    ensures r.status != 0 && ErrorText(r.body) != ""
    ensures !r.body.RouteNotFound?
  {
    if err.name == "ValidationError" then ErrorReply(400, ValidationFailed(err.details))
    else if err.code == UniqueViolation then ErrorReply(409, DuplicateEntry)
    else if err.code == MissingRow then ErrorReply(404, RecordNotFound)
    else ErrorReply(if err.status != 0 then err.status else 500,
                    Plain(if err.message != "" then err.message else "Internal server error"))
  }

  /** The reply to a request that matched no route. */
  function NotFound(path: string): (r: ErrorReply)
    ensures r.status == 404 && r.body.RouteNotFound? && r.body.path == path
  {
    ErrorReply(404, RouteNotFound(path))
  }

  /** An ORM update of a row that does not exist reaches the client as 404. */
  lemma MissingRowIsNotFound()
    ensures Handle(OrmError(MissingRow)) == ErrorReply(404, RecordNotFound)
  {
  }
}
