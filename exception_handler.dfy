/** GlobalExceptionHandler: the HTTP status and JSON body each handled exception becomes. */
module ExceptionHandler {
  import opened Wrappers
  import opened Text
  import opened Exceptions

  const BAD_REQUEST: int := 400
  const FORBIDDEN: int := 403
  const NOT_FOUND: int := 404

  datatype ErrorResponse = ErrorResponse(status: int, body: map<string, string>)

  function Respond(status: int, e: Exception): ErrorResponse
  {
    ErrorResponse(status, map["error" := Message(e)])
  }

  /** The response for an exception, or None when no handler matches (the
      framework's default error page then applies). A NumberFormatException
      reaches the IllegalArgumentException handler, its nearest superclass. */
  function Handle(e: Exception): (r: Option<ErrorResponse>)
    ensures r.Some? <==> !(e.NoSuchElement? || e.IncorrectResultSize? || e.DataIntegrityViolation?)
    ensures r.Some? ==> r.value.body == map["error" := Message(e)] && |r.value.body| == 1
    ensures (r.Some? && r.value.status == NOT_FOUND) <==> (e.InvoiceNotFound? || e.UserNotFound?)
    ensures (r.Some? && r.value.status == FORBIDDEN) <==> e.AccessDeniedToInvoice?
    ensures (r.Some? && r.value.status == BAD_REQUEST) <==> (e.NoUnbilledHoursFound? || IsIllegalArgument(e))
  {
    match e
    case UserNotFound(_) => Some(Respond(NOT_FOUND, e))
    case IllegalArgument(_) => Some(Respond(BAD_REQUEST, e))
    case NumberFormat(_) => Some(Respond(BAD_REQUEST, e))
    case InvoiceNotFound(_) => Some(Respond(NOT_FOUND, e))
    case AccessDeniedToInvoice(_) => Some(Respond(FORBIDDEN, e))
    case NoUnbilledHoursFound(_) => Some(Respond(BAD_REQUEST, e))
    case NoSuchElement => None
    case IncorrectResultSize => None
    case DataIntegrityViolation(_) => None
  }

  /** The three invoice exceptions carry the id in their message, as the
      integration tests read it back from the `error` field. */
  lemma InvoiceErrorBodies(id: nat)
    ensures Handle(InvoiceNotFound(id)) ==
      Some(ErrorResponse(NOT_FOUND, map["error" := "Factuur met ID " + NatToString(id) + " niet gevonden"]))
    ensures Handle(AccessDeniedToInvoice(id)) ==
      Some(ErrorResponse(FORBIDDEN, map["error" := "Geen toegang tot factuur met ID " + NatToString(id)]))
    ensures Handle(NoUnbilledHoursFound(id)) ==
      Some(ErrorResponse(BAD_REQUEST, map["error" := "Geen ongefactureerde uren gevonden voor clientId=" + NatToString(id)]))
  {
  }
}
