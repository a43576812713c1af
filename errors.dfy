/** Typed HTTP errors (`AppError` and its four subclasses). Each carries an HTTP status
    and, as its response body, an error envelope. */
module AppErrors {
  import opened Wrappers
  import opened ApiResponses

  const BadRequest := 400
  const Unauthorized := 401
  const Forbidden := 403
  const NotFound := 404
  const InternalServerError := 500

  datatype HttpError = HttpError(status: int, body: ApiResponse<()>)

  function CodeOr(code: Option<string>, default: string): string {
    match code
    case Some(c) => if c != "" then c else default
    case None => default
  }

  /** `new AppError(message, statusCode?, code?, details?)`: status defaults to 500
      (a default parameter, so only an absent status is replaced) and an absent or
      empty code becomes `INTERNAL_ERROR` (the code uses `||`). */
  function AppError(message: string, statusCode: Option<int>, code: Option<string>,
                    details: Option<string>): (e: HttpError)
    ensures statusCode.None? ==> e.status == InternalServerError
    ensures statusCode.Some? ==> e.status == statusCode.value
    ensures e.body == Error(CodeOr(code, "INTERNAL_ERROR"), message, details)
    ensures (code.None? || code == Some("")) ==> e.body.error.value.code == "INTERNAL_ERROR"
    ensures !e.body.success && WellFormed(e.body) && e.body.error.value.message == message
  {
    HttpError(statusCode.GetOr(InternalServerError), Error(CodeOr(code, "INTERNAL_ERROR"), message, details))
  }

  function ValidationError(message: string, details: Option<string>): (e: HttpError)
    ensures e.status == 400 && e.body.error == Some(ErrorInfo("VALIDATION_ERROR", message, details))
    ensures !e.body.success
  {
    AppError(message, Some(BadRequest), Some("VALIDATION_ERROR"), details)
  }

  /** `"<resource> not found"`, followed by `" with id: <id>"` only for a non-empty id. */
  function NotFoundMessage(resource: string, id: Option<string>): string {
    resource + " not found" + (if id.Some? && id.value != "" then " with id: " + id.value else "")
  }

  function NotFoundError(resource: string, id: Option<string>): (e: HttpError)
    ensures e.status == 404 && !e.body.success
    ensures e.body.error == Some(ErrorInfo("NOT_FOUND", NotFoundMessage(resource, id), None))
  {
    AppError(NotFoundMessage(resource, id), Some(NotFound), Some("NOT_FOUND"), None)
  }

  /** The id can be read back from a not-found message after its fixed prefix,
      and a missing or empty id leaves only the prefix. */
  lemma NotFoundMessageShape(resource: string, id: Option<string>)
    ensures var m := NotFoundMessage(resource, id);
            var p := resource + " not found";
            StartsWithPrefix(m, p)
            && (id.Some? && id.value != "" ==> m[|p|..] == " with id: " + id.value)
            && (id.None? || id.value == "" ==> m == p)
  {
  }

  predicate StartsWithPrefix(s: string, p: string) { |p| <= |s| && s[..|p|] == p }

  /** `new UnauthorizedError(message = 'Unauthorized')`: the default replaces only an
      absent message. */
  function UnauthorizedError(message: Option<string>): (e: HttpError)
    ensures e.status == 401
    ensures e.body.error == Some(ErrorInfo("UNAUTHORIZED", message.GetOr("Unauthorized"), None))
  {
    AppError(message.GetOr("Unauthorized"), Some(Unauthorized), Some("UNAUTHORIZED"), None)
  }

  function ForbiddenError(message: Option<string>): (e: HttpError)
    ensures e.status == 403
    ensures e.body.error == Some(ErrorInfo("FORBIDDEN", message.GetOr("Forbidden"), None))
  {
    AppError(message.GetOr("Forbidden"), Some(Forbidden), Some("FORBIDDEN"), None)
  }

  /** Every typed error is a client or server error whose body is an error envelope. */
  lemma SubclassesAreErrorEnvelopes(message: string, details: Option<string>, resource: string,
                                    id: Option<string>, m: Option<string>)
    ensures forall e :: e in {ValidationError(message, details), NotFoundError(resource, id),
                              UnauthorizedError(m), ForbiddenError(m)}
              ==> 400 <= e.status < 500 && !e.body.success && WellFormed(e.body)
  {
  }
}
