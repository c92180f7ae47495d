/** The exceptions the core throws, each with the data its message is built from. */
module Exceptions {
  import opened Text

  datatype Exception =
    | InvoiceNotFound(id: int)             // InvoiceNotFoundException
    | AccessDeniedToInvoice(id: int)       // AccessDeniedToInvoiceException
    | NoUnbilledHoursFound(clientId: int)  // NoUnbilledHoursFoundException
    | IllegalArgument(message: string)     // IllegalArgumentException
    | NumberFormat(input: string)          // NumberFormatException thrown by Integer.parseInt
    | UserNotFound(message: string)        // UserNotFoundException
    | NoSuchElement                        // Optional.orElseThrow() on an empty Optional
    | IncorrectResultSize                  // an Optional-returning query that matched several rows
    | DataIntegrityViolation(column: string) // an insert the database rejects: a NOT NULL column left null

  /** `getMessage()` of each exception. */
  function Message(e: Exception): string
  {
    match e
    case InvoiceNotFound(id) => "Factuur met ID " + IntToString(id) + " niet gevonden"
    case AccessDeniedToInvoice(id) => "Geen toegang tot factuur met ID " + IntToString(id)
    case NoUnbilledHoursFound(c) => "Geen ongefactureerde uren gevonden voor clientId=" + IntToString(c)
    case IllegalArgument(m) => m
    case NumberFormat(s) => "For input string: \"" + s + "\""
    case UserNotFound(m) => m
    case NoSuchElement => "No value present"
    case IncorrectResultSize => "query did not return a unique result"
    case DataIntegrityViolation(c) => "NULL not allowed for column \"" + c + "\""
  }

  /** `NumberFormatException` is a subclass of `IllegalArgumentException`. */
  predicate IsIllegalArgument(e: Exception)
  {
    e.IllegalArgument? || e.NumberFormat?
  }
}
