/** The persisted records of the invoice core (Invoice, InvoiceItem, TimeEntry,
    Client, Project) and the request records the services receive.
    A row's id is its key in the store's table, not a field of the record. */
module Entities {
  import opened Wrappers
  import opened Text

  /** A `Long` primary key. */
  type Id = int

  /** A `BigDecimal` amount, compared by value (scale is not modelled). */
  type Money = real

  /** A `LocalDate`, as a day number. */
  type Date = int

  /** A Java `int`. */
  type Int32 = x: int | -0x8000_0000 <= x < 0x8000_0000

  datatype InvoiceStatus = UNPAID | PAID | OVERDUE

  /** `InvoiceStatus.name()`. */
  function StatusName(s: InvoiceStatus): string
  {
    match s
    case UNPAID => "UNPAID"
    case PAID => "PAID"
    case OVERDUE => "OVERDUE"
  }

  /** `InvoiceStatus.valueOf(name)`: exact, case-sensitive match on a constant's name. */
  function StatusValueOf(name: string): (r: Option<InvoiceStatus>)
    ensures r.Some? <==> name in {"UNPAID", "PAID", "OVERDUE"}
    ensures r.Some? ==> StatusName(r.value) == name
  {
    if name == "UNPAID" then Some(UNPAID)
    else if name == "PAID" then Some(PAID)
    else if name == "OVERDUE" then Some(OVERDUE)
    else None
  }

  /** `InvoiceStatus.valueOf(status.toUpperCase())`, as both invoice services parse a request's status. */
  function ParseStatus(status: string): (r: Option<InvoiceStatus>)
    ensures r.Some? ==> ToUpperCase(status) == StatusName(r.value)
    ensures r.None? ==> forall s: InvoiceStatus :: ToUpperCase(status) != StatusName(s)
  {
    StatusValueOf(ToUpperCase(status))
  }

  /** `Enum.valueOf` rejects an unknown name with this message. */
  function UnknownStatusMessage(enumClass: string, status: string): string
  {
    "No enum constant " + enumClass + "." + ToUpperCase(status)
  }

  /** Every constant's name parses back to it, in upper and in lower case. */
  lemma StatusNameRoundTrip(s: InvoiceStatus)
    ensures StatusValueOf(StatusName(s)) == Some(s)
    ensures ParseStatus(StatusName(s)) == Some(s)
    ensures ParseStatus(LowerName(s)) == Some(s)
  {
    assert ToUpperCase(StatusName(s)) == StatusName(s);
    assert ToUpperCase(LowerName(s)) == StatusName(s);
  }

  function LowerName(s: InvoiceStatus): string
  {
    match s
    case UNPAID => "unpaid"
    case PAID => "paid"
    case OVERDUE => "overdue"
  }

  /** dal/entity/Invoice/Invoice.java: the owner-scoped invoice. */
  datatype Invoice = Invoice(
    invoiceNumber: string,
    senderName: string,
    receiverName: string,
    amount: Money,
    issueDate: Date,
    dueDate: Date,
    status: InvoiceStatus,
    createdBy: string)

  /** dal/entity/Invoice/InvoiceItem.java: a line of an invoice, optionally
      backed by the time entry it was generated from. */
  datatype InvoiceItem = InvoiceItem(
    description: string,
    hoursWorked: Int32,
    hourlyRate: Money,
    subTotal: Money,
    invoice: Id,
    timeEntry: Option<Id>)

  /** dal/entity/Invoice/TimeEntry.java: `invoice == None` means unbilled. */
  datatype TimeEntry = TimeEntry(
    description: string,
    hours: Int32,
    hourlyRate: Money,
    date: Date,
    client: Id,
    project: Option<Id>,
    invoice: Option<Id>,
    createdBy: string)

  /** dal/entity/Client/Client.java, reduced to the fields the core reads. */
  datatype Client = Client(name: string, createdBy: string)

  /** dal/entity/Project/Project.java: name and hour limit are nullable columns. */
  datatype Project = Project(name: Option<string>, client: Option<Id>, agreedHoursLimit: Option<Int32>)

  /** InvoiceItemDTO as a request line: `subTotal` is whatever the client sent. */
  datatype ItemRequest = ItemRequest(
    description: string,
    hoursWorked: Int32,
    hourlyRate: Money,
    subTotal: Option<Money>)

  /** CreateInvoiceRequestDTO. */
  datatype InvoiceRequest = InvoiceRequest(
    invoiceNumber: string,
    senderName: string,
    receiverName: string,
    issueDate: Date,
    dueDate: Date,
    status: string,
    items: seq<ItemRequest>)

  /** InvoiceItemDTO as a response line; `date` is the backing time entry's date. */
  datatype ItemView = ItemView(
    description: string,
    hoursWorked: Int32,
    hourlyRate: Money,
    subTotal: Money,
    date: Option<Date>)
}
