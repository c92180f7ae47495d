/** The owner-scoped invoice service: every by-id operation first finds the
    invoice, then checks that the caller created it, and only then reads or
    writes. The repositories are the fields of a `Database`; notifications
    over the push channel are left out (their failures are caught and logged,
    so they never change a result). */
module InvoiceService {
  import opened Wrappers
  import opened Text
  import opened Exceptions
  import opened Entities
  import opened Billing
  import opened Store

  /** The enum class `InvoiceStatus.valueOf` names in its error message. */
  const STATUS_CLASS: string := "com.example.zorgmate.dal.entity.Invoice.InvoiceStatus"

  /** A generated invoice is due fourteen days after it is issued. */
  const PAYMENT_TERM_DAYS: int := 14

  /** InvoiceResponseDTO. */
  datatype InvoiceView = InvoiceView(
    id: Id,
    invoiceNumber: string,
    issueDate: Date,
    dueDate: Date,
    status: string,
    totalAmount: Money,
    senderName: string,
    receiverName: string,
    items: seq<ItemView>)

  /** `findById(id).orElseThrow(...)` followed by the owner check: an absent id
      is reported before a foreign owner, and owners are compared exactly. */
  function Authorize(invoices: map<Id, Invoice>, id: Id, username: string): (r: Result<Invoice, Exception>)
    ensures r == Failure(InvoiceNotFound(id)) <==> id !in invoices
    ensures r == Failure(AccessDeniedToInvoice(id)) <==> id in invoices && invoices[id].createdBy != username
    ensures r.Success? <==> id in invoices && invoices[id].createdBy == username
    ensures r.Success? ==> r.value == invoices[id]
  {
    if id !in invoices then Failure(InvoiceNotFound(id))
    else if invoices[id].createdBy != username then Failure(AccessDeniedToInvoice(id))
    else Success(invoices[id])
  }

  /** An item as a response line; the date is that of the time entry it was generated from. */
  function ItemViewOf(item: InvoiceItem, entries: map<Id, TimeEntry>): (v: ItemView)
    ensures v.subTotal == item.subTotal
    ensures v.date.Some? <==> item.timeEntry.Some? && item.timeEntry.value in entries
  {
    ItemView(item.description, item.hoursWorked, item.hourlyRate, item.subTotal,
      if item.timeEntry.Some? && item.timeEntry.value in entries then Some(entries[item.timeEntry.value].date) else None)
  }

  /** mapToDTO: the invoice's fields, its status by name, and one line per item in order. */
  function MapToDTO(id: Id, invoice: Invoice, items: seq<InvoiceItem>, entries: map<Id, TimeEntry>): (v: InvoiceView)
    ensures v.id == id && v.totalAmount == invoice.amount
    ensures ParseStatus(v.status) == Some(invoice.status)
    ensures |v.items| == |items|
    ensures forall i :: 0 <= i < |items| ==> v.items[i] == ItemViewOf(items[i], entries)
  {
    StatusNameRoundTrip(invoice.status);
    InvoiceView(id, invoice.invoiceNumber, invoice.issueDate, invoice.dueDate, StatusName(invoice.status),
      invoice.amount, invoice.senderName, invoice.receiverName,
      seq(|items|, i requires 0 <= i < |items| => ItemViewOf(items[i], entries)))
  }

  /** `findByCreatedBy(username)`: the caller's invoices, ascending. */
  function OwnedIds(db: Database, username: string): (ids: seq<Id>)
    requires db.Valid()
    reads db
    ensures forall k :: k in ids <==> k in db.invoices && db.invoices[k].createdBy == username
    ensures forall i, j :: 0 <= i < j < |ids| ==> ids[i] < ids[j]
  {
    IdsWhere(db.invoices, (inv: Invoice) => inv.createdBy == username, db.nextInvoiceId)
  }

  /** An invoice with the items `findByInvoiceId` lists for it, as a response. */
  function ViewOf(db: Database, id: Id): InvoiceView
    requires id in db.invoices
    reads db
  {
    StoredView(db.invoices, db.items, db.timeEntries, db.nextItemId, id)
  }

  function StoredView(invoices: map<Id, Invoice>, items: map<Id, InvoiceItem>, entries: map<Id, TimeEntry>, hi: int, id: Id): InvoiceView
    requires id in invoices
  {
    MapToDTO(id, invoices[id], ItemsOf(items, id, hi), entries)
  }

  /** getInvoiceByIdForUser. */
  function GetInvoiceByIdForUser(db: Database, id: Id, username: string): (r: Result<InvoiceView, Exception>)
    reads db
    ensures r.Failure? <==> Authorize(db.invoices, id, username).Failure?
    ensures r.Failure? ==> r.error == Authorize(db.invoices, id, username).error
    ensures r.Success? ==> r.value.id == id && r.value.totalAmount == db.invoices[id].amount
  {
    match Authorize(db.invoices, id, username)
    case Failure(e) => Failure(e)
    case Success(invoice) => Success(ViewOf(db, id))
  }

  /** In a consistent store, the total an invoice shows is the sum of the lines it shows. */
  lemma ShownTotalIsSumOfLines(db: Database, id: Id, username: string)
    requires db.Valid()
    requires GetInvoiceByIdForUser(db, id, username).Success?
    ensures var v := GetInvoiceByIdForUser(db, id, username).value; v.totalAmount == LinesTotal(v.items)
  {
    var items := ItemsOf(db.items, id, db.nextItemId);
    var v := ViewOf(db, id);
    ListedTotalIsTotal(db.items, id, db.nextItemId);
    LinesTotalIsTotal(items, v.items);
  }

  /** The listed invoices as responses, in the listed order. */
  function StoredViews(invoices: map<Id, Invoice>, items: map<Id, InvoiceItem>, entries: map<Id, TimeEntry>, hi: int, ids: seq<Id>)
    : (r: seq<InvoiceView>)
    requires forall k :: k in ids ==> k in invoices
    ensures |r| == |ids|
    ensures forall i :: 0 <= i < |ids| ==> r[i] == StoredView(invoices, items, entries, hi, ids[i]) && r[i].id == ids[i]
  {
    assert forall i :: 0 <= i < |ids| ==> ids[i] in ids;
    seq(|ids|, i requires 0 <= i < |ids| => StoredView(invoices, items, entries, hi, ids[i]))
  }

  /** getInvoicesForUser: one response per invoice of the caller, in
      ascending id order (which invoices those are, `OwnedIds` states). */
  function GetInvoicesForUser(db: Database, username: string): (r: seq<InvoiceView>)
    requires db.Valid()
    reads db
    ensures |r| == |OwnedIds(db, username)|
    ensures forall i :: 0 <= i < |r| ==> r[i].id == OwnedIds(db, username)[i]
  {
    StoredViews(db.invoices, db.items, db.timeEntries, db.nextItemId, OwnedIds(db, username))
  }

  /** Every invoice the listing shows is shown exactly as the by-id lookup shows it. */
  lemma ListingAgreesWithLookup(db: Database, username: string, i: int)
    requires db.Valid() && 0 <= i < |GetInvoicesForUser(db, username)|
    ensures var v := GetInvoicesForUser(db, username)[i]; GetInvoiceByIdForUser(db, v.id, username) == Success(v)
  {
    var ids := OwnedIds(db, username);
    assert ids[i] in ids;
  }

  /** The invoice after updateInvoiceForUser's setters: every request field, the
      parsed status and the recomputed amount; the owner is kept. */
  function Revised(invoice: Invoice, req: InvoiceRequest, status: InvoiceStatus, amount: Money): (r: Invoice)
    ensures r.createdBy == invoice.createdBy && r.status == status && r.amount == amount
    ensures r.invoiceNumber == req.invoiceNumber && r.senderName == req.senderName && r.receiverName == req.receiverName
    ensures r.issueDate == req.issueDate && r.dueDate == req.dueDate
  {
    invoice.(invoiceNumber := req.invoiceNumber, senderName := req.senderName, receiverName := req.receiverName,
             issueDate := req.issueDate, dueDate := req.dueDate, status := status, amount := amount)
  }

  /** updateInvoiceForUser: after the owner check and the status parse, the
      invoice's items are replaced by the request's lines at server prices and
      its amount becomes their total. A failure of either check, or an unknown
      status, changes nothing. */
  method UpdateInvoiceForUser(db: Database, id: Id, req: InvoiceRequest, username: string)
    returns (r: Result<InvoiceView, Exception>)
    requires db.Valid()
    modifies db
    ensures db.Valid()
    ensures r.Success? <==> Authorize(old(db.invoices), id, username).Success? && ParseStatus(req.status).Some?
    ensures Authorize(old(db.invoices), id, username).Failure? ==> r == Failure(Authorize(old(db.invoices), id, username).error)
    ensures Authorize(old(db.invoices), id, username).Success? && ParseStatus(req.status).None? ==>
      r == Failure(IllegalArgument(UnknownStatusMessage(STATUS_CLASS, req.status)))
    ensures r.Failure? ==> unchanged(db)
    ensures r.Success? ==>
      && db.invoices == old(db.invoices)[id := Revised(old(db.invoices)[id], req, ParseStatus(req.status).value, RequestAmount(req.items))]
      && ItemsOf(db.items, id, db.nextItemId) == MapToEntities(req.items, id)
      && (forall k :: k != id ==> ItemsOf(db.items, k, db.nextItemId) == ItemsOf(old(db.items), k, old(db.nextItemId)))
      && db.timeEntries == old(db.timeEntries) && db.clients == old(db.clients) && db.projects == old(db.projects)
      && db.nextItemId == old(db.nextItemId) + |req.items|
      && db.nextInvoiceId == old(db.nextInvoiceId) && db.nextEntryId == old(db.nextEntryId)
      && db.nextClientId == old(db.nextClientId) && db.nextProjectId == old(db.nextProjectId)
      && r.value == MapToDTO(id, db.invoices[id], MapToEntities(req.items, id), db.timeEntries)
  {
    var auth := Authorize(db.invoices, id, username);
    if auth.Failure? {
      return Failure(auth.error);
    }
    var status := ParseStatus(req.status);
    if status.None? {
      return Failure(IllegalArgument(UnknownStatusMessage(STATUS_CLASS, req.status)));
    }
    ghost var t0 := db.Snapshot();
    db.items := RemoveItemsOf(db.items, id);
    var updated := MapToEntities(req.items, id);
    db.SaveAllItems(updated);
    var amount := Total(updated);
    var invoice := Revised(auth.value, req, status.value, amount);
    db.invoices := db.invoices[id := invoice];

    RequestTotal(req.items, id);
    ReplaceKeepsConsistent(t0, id, updated, invoice, db.items);
    ConsistentCarries(Replaced(t0, id, invoice, db.items, |updated|), db.Snapshot());
    ReplacedListingsUpTo(old(db.items), old(db.nextItemId), id, updated, db.items, db.nextItemId);
    r := Success(MapToDTO(id, invoice, updated, db.timeEntries));
  }

  /** deleteInvoiceForUser: the owned invoice goes, and the declared cascade
      takes its items and the time entries billed on it along. */
  method DeleteInvoiceForUser(db: Database, id: Id, username: string) returns (r: Result<(), Exception>)
    requires db.Valid()
    modifies db
    ensures db.Valid()
    ensures r.Success? <==> Authorize(old(db.invoices), id, username).Success?
    ensures r.Failure? ==> r.error == Authorize(old(db.invoices), id, username).error && unchanged(db)
    ensures r.Success? ==>
      && db.invoices == old(db.invoices) - {id}
      && db.items == RemoveItemsOf(old(db.items), id)
      && db.timeEntries == RemoveEntriesOf(old(db.timeEntries), id)
      && ItemsOf(db.items, id, db.nextItemId) == []
      && (forall k :: k != id ==> ItemsOf(db.items, k, db.nextItemId) == ItemsOf(old(db.items), k, db.nextItemId))
      && db.clients == old(db.clients) && db.projects == old(db.projects)
      && db.nextInvoiceId == old(db.nextInvoiceId) && db.nextItemId == old(db.nextItemId)
      && db.nextEntryId == old(db.nextEntryId) && db.nextClientId == old(db.nextClientId)
      && db.nextProjectId == old(db.nextProjectId)
  {
    var auth := Authorize(db.invoices, id, username);
    if auth.Failure? {
      return Failure(auth.error);
    }
    ghost var t0 := db.Snapshot();
    db.invoices := db.invoices - {id};
    db.items := RemoveItemsOf(db.items, id);
    db.timeEntries := RemoveEntriesOf(db.timeEntries, id);
    CascadeKeepsConsistent(t0, id);
    ConsistentCarries(CascadeDeleted(t0, id), db.Snapshot());
    ItemsOfNoneBetween(db.items, id, 0, db.nextItemId);
    forall k | k != id
      ensures ItemsOf(db.items, k, db.nextItemId) == ItemsOf(old(db.items), k, db.nextItemId)
    {
      RemoveKeepsOthers(old(db.items), id, k, db.nextItemId);
    }
    r := Success(());
  }

  /** updateInvoiceStatusForUser: only the status of the owned invoice changes. */
  method UpdateInvoiceStatusForUser(db: Database, id: Id, status: InvoiceStatus, username: string)
    returns (r: Result<(), Exception>)
    requires db.Valid()
    modifies db
    ensures db.Valid()
    ensures r.Success? <==> Authorize(old(db.invoices), id, username).Success?
    ensures r.Failure? ==> r.error == Authorize(old(db.invoices), id, username).error && unchanged(db)
    ensures r.Success? ==>
      && db.invoices == old(db.invoices)[id := old(db.invoices)[id].(status := status)]
      && db.items == old(db.items) && db.timeEntries == old(db.timeEntries)
      && db.clients == old(db.clients) && db.projects == old(db.projects)
      && db.nextInvoiceId == old(db.nextInvoiceId) && db.nextItemId == old(db.nextItemId)
      && db.nextEntryId == old(db.nextEntryId) && db.nextClientId == old(db.nextClientId)
      && db.nextProjectId == old(db.nextProjectId)
  {
    var auth := Authorize(db.invoices, id, username);
    if auth.Failure? {
      return Failure(auth.error);
    }
    db.invoices := db.invoices[id := auth.value.(status := status)];
    r := Success(());
  }

  /** The `filter(e -> e.getCreatedBy().equals(username))` step: the listed
      entries the caller created, in the listed order. */
  function FilterOwned(ids: seq<Id>, entries: map<Id, TimeEntry>, username: string): (r: seq<Id>)
    requires forall k :: k in ids ==> k in entries
    ensures forall k :: k in r <==> k in ids && entries[k].createdBy == username
  {
    if ids == [] then []
    else
      var last := ids[|ids| - 1];
      var front := FilterOwned(ids[..|ids| - 1], entries, username);
      assert forall k :: k in ids ==> k in ids[..|ids| - 1] || k == last;
      front + (if entries[last].createdBy == username then [last] else [])
  }

  predicate Ascending(s: seq<Id>)
  {
    forall i, j :: 0 <= i < j < |s| ==> s[i] < s[j]
  }

  /** Filtering an ascending listing keeps it ascending. */
  lemma {:induction false} FilterOwnedKeepsOrder(ids: seq<Id>, entries: map<Id, TimeEntry>, username: string)
    requires forall k :: k in ids ==> k in entries
    requires forall i, j :: 0 <= i < j < |ids| ==> ids[i] < ids[j]
    ensures Ascending(FilterOwned(ids, entries, username))
    decreases |ids|
  {
    if ids != [] {
      var last := ids[|ids| - 1];
      var front := ids[..|ids| - 1];
      assert forall j :: 0 <= j < |front| ==> front[j] == ids[j] && ids[j] < last;
      FilterOwnedKeepsOrder(front, entries, username);
      var f := FilterOwned(front, entries, username);
      assert Ascending(f);
      forall i | 0 <= i < |f| ensures f[i] < last {
        assert f[i] in f;
        var j :| 0 <= j < |front| && front[j] == f[i];
      }
      var r := FilterOwned(ids, entries, username);
      assert r == f + (if entries[last].createdBy == username then [last] else []);
      forall i, j | 0 <= i < j < |r| ensures r[i] < r[j] {
        if j < |f| {
          assert r[i] == f[i] && r[j] == f[j];
          assert f[i] < f[j];
        } else {
          assert r[i] == f[i] && r[j] == last;
          assert f[i] < last;
        }
      }
    }
  }

  /** The entries autoGenerateInvoiceFromUnbilled bills: the caller's unbilled
      entries of `client`, ascending. */
  function SelectUnbilled(entries: map<Id, TimeEntry>, client: Id, username: string, hi: int): (r: seq<Id>)
    ensures forall k :: k in r <==>
      && 0 <= k < hi && k in entries
      && entries[k].client == client && entries[k].invoice.None? && entries[k].createdBy == username
    ensures forall i, j :: 0 <= i < j < |r| ==> r[i] < r[j]
  {
    FilterOwnedKeepsOrder(UnbilledIds(entries, client, hi), entries, username);
    FilterOwned(UnbilledIds(entries, client, hi), entries, username)
  }

  /** The first loop of autoGenerateInvoiceFromUnbilled: one item per selected
      entry and the running total of their subtotals. */
  method BuildItems(selected: seq<Id>, entries: map<Id, TimeEntry>, invoice: Id)
    returns (items: seq<InvoiceItem>, total: Money)
    requires forall k :: k in selected ==> k in entries
    ensures items == ItemsFromEntries(selected, entries, invoice)
    ensures total == Total(items)
  {
    items, total := [], 0.0;
    for i := 0 to |selected|
      invariant |items| == i
      invariant forall j :: 0 <= j < i ==> items[j] == ItemFromEntry(selected[j], entries[selected[j]], invoice)
      invariant total == Total(items)
    {
      assert selected[i] in selected;
      var entry := entries[selected[i]];
      var subtotal := Subtotal(entry.hours, entry.hourlyRate);
      total := total + subtotal;
      var item := ItemFromEntry(selected[i], entry, invoice);
      TotalSnoc(items, item);
      items := items + [item];
    }
  }

  /** The last loop of autoGenerateInvoiceFromUnbilled: every selected entry
      is set to the new invoice. */
  method LinkSelected(entries: map<Id, TimeEntry>, selected: seq<Id>, invoice: Id)
    returns (linked: map<Id, TimeEntry>)
    requires forall k :: k in selected ==> k in entries
    ensures linked == LinkEntries(entries, selected, invoice)
  {
    linked := entries;
    for i := 0 to |selected|
      invariant linked.Keys == entries.Keys
      invariant forall k :: k in linked ==> linked[k] == if k in selected[..i] then entries[k].(invoice := Some(invoice)) else entries[k]
    {
      assert forall k :: k in selected[..i + 1] <==> k in selected[..i] || k == selected[i];
      linked := linked[selected[i] := entries[selected[i]].(invoice := Some(invoice))];
    }
    assert selected[..|selected|] == selected;
    assert forall k :: k in linked ==> linked[k] == LinkEntries(entries, selected, invoice)[k];
  }

  /** Once the selected entries point at the new invoice, none of them is
      unbilled any more and nothing is left to select. */
  lemma NothingLeftToBill(entries: map<Id, TimeEntry>, client: Id, username: string, hi: int, invoice: Id)
    ensures var selected := SelectUnbilled(entries, client, username, hi);
      forall k :: k !in SelectUnbilled(LinkEntries(entries, selected, invoice), client, username, hi)
  {
    var selected := SelectUnbilled(entries, client, username, hi);
    var linked := LinkEntries(entries, selected, invoice);
    var after := SelectUnbilled(linked, client, username, hi);
    assert forall k :: k in linked && linked[k].invoice.None? ==> k !in selected && linked[k] == entries[k];
  }

  /** The writes of autoGenerateInvoiceFromUnbilled: the invoice saved under
      the next id, its items saved after it, and every selected entry billed
      on it. */
  method SaveGeneratedInvoice(db: Database, invoice: Invoice, items: seq<InvoiceItem>, selected: seq<Id>)
    requires db.Valid()
    requires forall k :: k in selected ==> k in db.timeEntries && db.timeEntries[k].invoice.None?
    requires |items| == |selected|
    requires forall i :: 0 <= i < |items| ==>
      items[i] == ItemFromEntry(selected[i], db.timeEntries[selected[i]], db.nextInvoiceId)
    requires invoice.amount == Total(items)
    modifies db
    ensures db.Valid()
    ensures db.invoices == old(db.invoices)[old(db.nextInvoiceId) := invoice] && db.nextInvoiceId == old(db.nextInvoiceId) + 1
    ensures ItemsOf(db.items, old(db.nextInvoiceId), db.nextItemId) == items
    ensures forall k :: k != old(db.nextInvoiceId) ==>
      ItemsOf(db.items, k, db.nextItemId) == ItemsOf(old(db.items), k, old(db.nextItemId))
    ensures db.timeEntries == LinkEntries(old(db.timeEntries), selected, old(db.nextInvoiceId))
    ensures db.clients == old(db.clients) && db.projects == old(db.projects)
    ensures db.nextItemId == old(db.nextItemId) + |items| && db.nextEntryId == old(db.nextEntryId)
    ensures db.nextClientId == old(db.nextClientId) && db.nextProjectId == old(db.nextProjectId)
  {
    ghost var t0 := db.Snapshot();
    var newId := db.nextInvoiceId;
    db.invoices := db.invoices[newId := invoice];
    db.nextInvoiceId := newId + 1;
    db.SaveAllItems(items);
    var linked := LinkSelected(db.timeEntries, selected, newId);
    db.timeEntries := linked;
    GenerateKeepsConsistent(t0, selected, items, invoice, db.items);
    ConsistentCarries(Generated(t0, invoice, db.items, |items|, selected), db.Snapshot());
    NewInvoiceListing(old(db.invoices), old(db.items), old(db.timeEntries), newId, old(db.nextItemId), items,
      db.items, db.nextItemId);
    OtherListingsKept(old(db.items), items, old(db.nextItemId), newId, db.items, db.nextItemId);
  }

  /** autoGenerateInvoiceFromUnbilled: the caller's unbilled entries of the
      client become one new UNPAID invoice due after fourteen days, with one
      item per entry, and every consumed entry is billed on it. With nothing
      to bill it fails and saves nothing. */
  method AutoGenerateInvoiceFromUnbilled(db: Database, clientId: Id, username: string, today: Date, year: int)
    returns (r: Result<InvoiceView, Exception>)
    requires db.Valid()
    modifies db
    ensures db.Valid()
    ensures r.Failure? <==> SelectUnbilled(old(db.timeEntries), clientId, username, old(db.nextEntryId)) == []
    ensures r.Failure? ==> r.error == NoUnbilledHoursFound(clientId) && unchanged(db)
    ensures r.Success? ==>
      var selected := SelectUnbilled(old(db.timeEntries), clientId, username, old(db.nextEntryId));
      var newId := old(db.nextInvoiceId);
      var items := ItemsFromEntries(selected, old(db.timeEntries), newId);
      && newId !in old(db.invoices) && newId in db.invoices && db.nextInvoiceId == newId + 1
      && db.invoices == old(db.invoices)[newId := db.invoices[newId]]
      && db.invoices[newId].invoiceNumber == InvoiceNumber(year, |old(db.invoices)|)
      && db.invoices[newId].senderName == username && db.invoices[newId].createdBy == username
      && db.invoices[newId].receiverName == old(db.clients)[clientId].name
      && db.invoices[newId].amount == Total(items)
      && db.invoices[newId].issueDate == today && db.invoices[newId].dueDate == today + PAYMENT_TERM_DAYS
      && db.invoices[newId].status == UNPAID
      && ItemsOf(db.items, newId, db.nextItemId) == items
      && (forall k :: k != newId ==> ItemsOf(db.items, k, db.nextItemId) == ItemsOf(old(db.items), k, old(db.nextItemId)))
      && db.timeEntries == LinkEntries(old(db.timeEntries), selected, newId)
      && (forall k :: k !in SelectUnbilled(db.timeEntries, clientId, username, db.nextEntryId))
      && db.clients == old(db.clients) && db.projects == old(db.projects)
      && db.nextItemId == old(db.nextItemId) + |items| && db.nextEntryId == old(db.nextEntryId)
      && db.nextClientId == old(db.nextClientId) && db.nextProjectId == old(db.nextProjectId)
      && r.value == MapToDTO(newId, db.invoices[newId], items, db.timeEntries)
  {
    var selected := SelectUnbilled(db.timeEntries, clientId, username, db.nextEntryId);
    if |selected| == 0 {
      return Failure(NoUnbilledHoursFound(clientId));
    }
    var newId := db.nextInvoiceId;
    var items, total := BuildItems(selected, db.timeEntries, newId);
    assert selected[0] in selected;
    assert EntryLinked(db.timeEntries[selected[0]], db.invoices, db.clients, db.projects);
    var invoice := Invoice(InvoiceNumber(year, |db.invoices|), username,
      db.clients[db.timeEntries[selected[0]].client].name, total, today, today + PAYMENT_TERM_DAYS, UNPAID, username);
    SaveGeneratedInvoice(db, invoice, items, selected);
    NothingLeftToBill(old(db.timeEntries), clientId, username, db.nextEntryId, newId);
    r := Success(MapToDTO(newId, invoice, items, db.timeEntries));
  }
}
