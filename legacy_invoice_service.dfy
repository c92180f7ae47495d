/** Service/impl/InvoiceServiceImpl.java: the older invoice service, with no
    owner on an invoice and no ownership checks. It works on the invoices of
    dal/entity/Invoice.java and their items, and answers with the invoice
    number parsed to an `int`. Its invoices share the `invoices` table and the
    one `InvoiceRepository` with the owner-scoped service; this model gives
    each service a store of its own. */
module LegacyInvoiceService {
  import opened Wrappers
  import opened Text
  import opened Exceptions
  import opened Entities
  import opened Billing
  import opened Store

  /** The enum the status string is looked up in. */
  const LEGACY_STATUS_CLASS: string := "com.example.zorgmate.dal.entity.InvoiceStatus"

  /** dal/entity/Invoice.java: an invoice without an owner. */
  datatype LegacyInvoice = LegacyInvoice(
    invoiceNumber: string,
    senderName: string,
    receiverName: string,
    amount: Money,
    issueDate: Date,
    dueDate: Date,
    status: InvoiceStatus)

  /** InvoiceResponseDTO as this service fills it: the number is parsed to an
      `int`, and the listing operations leave the names null (None). */
  datatype LegacyView = LegacyView(
    id: Id,
    issueDate: Date,
    dueDate: Date,
    invoiceNumber: int,
    status: string,
    totalAmount: Money,
    senderName: Option<string>,
    receiverName: Option<string>,
    items: seq<ItemView>)

  /** The invoice a request describes, as create and update both fill it in. */
  function FromRequest(dto: InvoiceRequest, status: InvoiceStatus, amount: Money): (r: LegacyInvoice)
    ensures r.invoiceNumber == dto.invoiceNumber && r.senderName == dto.senderName && r.receiverName == dto.receiverName
    ensures r.issueDate == dto.issueDate && r.dueDate == dto.dueDate
    ensures r.status == status && r.amount == amount
  {
    LegacyInvoice(dto.invoiceNumber, dto.senderName, dto.receiverName, amount, dto.issueDate, dto.dueDate, status)
  }

  /** `new InvoiceItemDTO(description, hours, rate, subTotal)`: no date. */
  function Line(item: InvoiceItem): ItemView
  {
    ItemView(item.description, item.hoursWorked, item.hourlyRate, item.subTotal, None)
  }

  function Lines(items: seq<InvoiceItem>): (r: seq<ItemView>)
    ensures |r| == |items| && forall i :: 0 <= i < |items| ==> r[i] == Line(items[i])
  {
    seq(|items|, i requires 0 <= i < |items| => Line(items[i]))
  }

  /** The response for an invoice whose number parsed to `number`: its dates,
      the status by name, the stored amount, the names only when `named`, and
      one line per item, the lines adding up to the items' total. */
  function View(id: Id, inv: LegacyInvoice, number: int, items: seq<InvoiceItem>, named: bool): (v: LegacyView)
    ensures v.id == id && v.invoiceNumber == number && v.issueDate == inv.issueDate && v.dueDate == inv.dueDate
    ensures StatusValueOf(v.status) == Some(inv.status) && v.totalAmount == inv.amount
    ensures (v.senderName.Some? <==> named) && (v.receiverName.Some? <==> named)
    ensures named ==> v.senderName == Some(inv.senderName) && v.receiverName == Some(inv.receiverName)
    ensures |v.items| == |items| && forall i :: 0 <= i < |items| ==> v.items[i] == Line(items[i])
    ensures LinesTotal(v.items) == Total(items)
  {
    StatusNameRoundTrip(inv.status);
    LinesTotalIsTotal(items, Lines(items));
    LegacyView(id, inv.issueDate, inv.dueDate, number, StatusName(inv.status), inv.amount,
      if named then Some(inv.senderName) else None, if named then Some(inv.receiverName) else None, Lines(items))
  }

  // Integrity of the tables.

  /** Every stored amount is the sum of the subtotals of the invoice's items. */
  predicate LegacyAmountsMatch(invoices: map<Id, LegacyInvoice>, items: map<Id, InvoiceItem>, hi: int)
  {
    forall k :: k in invoices ==> invoices[k].amount == ListedTotal(items, k, hi)
  }

  predicate LegacyConsistent(invoices: map<Id, LegacyInvoice>, items: map<Id, InvoiceItem>, nextInvoiceId: Id, nextItemId: Id)
  {
    && 1 <= nextInvoiceId && 1 <= nextItemId
    && IdsBelow(invoices.Keys, nextInvoiceId) && IdsBelow(items.Keys, nextItemId)
    && (forall k :: k in items ==> items[k].invoice in invoices)
    && LegacyAmountsMatch(invoices, items, nextItemId)
  }

  /** An invoice set to the total of the items it now lists, with every other
      invoice keeping its listing, keeps the amounts matching. */
  lemma AmountsFollowListing(invoices: map<Id, LegacyInvoice>, items: map<Id, InvoiceItem>, n: Id,
    id: Id, revised: LegacyInvoice, batch: seq<InvoiceItem>, items': map<Id, InvoiceItem>, hi: Id)
    requires LegacyAmountsMatch(invoices, items, n)
    requires revised.amount == Total(batch) && ItemsOf(items', id, hi) == batch
    requires forall k :: k != id ==> ItemsOf(items', k, hi) == ItemsOf(items, k, n)
    ensures LegacyAmountsMatch(invoices[id := revised], items', hi)
  {
    forall k | k in invoices[id := revised] ensures invoices[id := revised][k].amount == ListedTotal(items', k, hi) {
      if k == id {
        ListingTotal(items', id, hi, batch);
      } else {
        SameListingSameTotal(items', k, hi, items, k, n);
      }
    }
  }

  /** Saving a new invoice under the next id, with its items after every
      stored item, lists exactly those items for it; the other invoices keep
      their listings. */
  lemma CreatedListings(invoices: map<Id, LegacyInvoice>, items: map<Id, InvoiceItem>, ni: Id, nit: Id,
    batch: seq<InvoiceItem>, items': map<Id, InvoiceItem>, hi: Id)
    requires LegacyConsistent(invoices, items, ni, nit)
    requires forall j :: 0 <= j < |batch| ==> batch[j].invoice == ni
    requires Appended(items', items, batch, nit) && hi == nit + |batch|
    ensures ItemsOf(items', ni, hi) == batch
    ensures forall k :: k != ni ==> ItemsOf(items', k, hi) == ItemsOf(items, k, nit)
  {
    forall key | key in items ensures key < nit && items[key].invoice != ni {
      assert items[key].invoice in invoices;
    }
    BatchIsWholeListing(items, batch, nit, ni, items');
    forall k | k != ni ensures ItemsOf(items', k, hi) == ItemsOf(items, k, nit) {
      OtherInvoicesUnaffected(items, batch, nit, k, items');
    }
  }

  /** Saving a new invoice with its items keeps the store consistent. */
  lemma CreatedConsistent(invoices: map<Id, LegacyInvoice>, items: map<Id, InvoiceItem>, ni: Id, nit: Id,
    invoice: LegacyInvoice, batch: seq<InvoiceItem>, invoices': map<Id, LegacyInvoice>, items': map<Id, InvoiceItem>, ni': Id, hi: Id)
    requires LegacyConsistent(invoices, items, ni, nit)
    requires forall j :: 0 <= j < |batch| ==> batch[j].invoice == ni
    requires invoice.amount == Total(batch)
    requires invoices' == invoices[ni := invoice] && ni' == ni + 1
    requires Appended(items', items, batch, nit) && hi == nit + |batch|
    ensures LegacyConsistent(invoices', items', ni', hi)
  {
    CreatedListings(invoices, items, ni, nit, batch, items', hi);
    AmountsFollowListing(invoices, items, nit, ni, invoice, batch, items', hi);
    BatchIdsBelow(items, batch, nit, items');
  }

  /** Replacing an invoice and all its items keeps the store consistent. */
  lemma RevisedConsistent(invoices: map<Id, LegacyInvoice>, items: map<Id, InvoiceItem>, ni: Id, nit: Id,
    id: Id, revised: LegacyInvoice, batch: seq<InvoiceItem>, invoices': map<Id, LegacyInvoice>, items': map<Id, InvoiceItem>, hi: Id)
    requires LegacyConsistent(invoices, items, ni, nit)
    requires id in invoices && revised.amount == Total(batch)
    requires forall j :: 0 <= j < |batch| ==> batch[j].invoice == id
    requires invoices' == invoices[id := revised]
    requires Appended(items', RemoveItemsOf(items, id), batch, nit) && hi == nit + |batch|
    ensures LegacyConsistent(invoices', items', ni, hi)
  {
    ReplacedListingsUpTo(items, nit, id, batch, items', hi);
    AmountsFollowListing(invoices, items, nit, id, revised, batch, items', hi);
    BatchIdsBelow(RemoveItemsOf(items, id), batch, nit, items');
  }

  /** Removing an invoice with its items keeps the store consistent, and the
      other invoices keep their listings. */
  lemma DeletedConsistent(invoices: map<Id, LegacyInvoice>, items: map<Id, InvoiceItem>, ni: Id, nit: Id, id: Id)
    requires LegacyConsistent(invoices, items, ni, nit)
    ensures LegacyConsistent(invoices - {id}, RemoveItemsOf(items, id), ni, nit)
    ensures forall k :: k != id ==> ItemsOf(RemoveItemsOf(items, id), k, nit) == ItemsOf(items, k, nit)
  {
    forall k | k != id ensures ItemsOf(RemoveItemsOf(items, id), k, nit) == ItemsOf(items, k, nit) {
      RemoveKeepsOthers(items, id, k, nit);
    }
    var invoices' := invoices - {id};
    forall k | k in invoices' ensures invoices'[k].amount == ListedTotal(RemoveItemsOf(items, id), k, nit) {
      SameListingSameTotal(RemoveItemsOf(items, id), k, nit, items, k, nit);
    }
  }

  /** The older service's store. */
  class LegacyDatabase {
    var invoices: map<Id, LegacyInvoice>
    var items: map<Id, InvoiceItem>
    var nextInvoiceId: Id
    var nextItemId: Id

    predicate Valid()
      reads this
    {
      LegacyConsistent(invoices, items, nextInvoiceId, nextItemId)
    }

    constructor ()
      ensures Valid() && invoices == map[] && items == map[] && nextInvoiceId == 1 && nextItemId == 1
    {
      invoices, items, nextInvoiceId, nextItemId := map[], map[], 1, 1;
    }

    /** `invoiceItemRepository.saveAll(batch)`. */
    method SaveAllItems(batch: seq<InvoiceItem>)
      requires forall k :: k in items ==> k < nextItemId
      modifies this
      ensures nextItemId == old(nextItemId) + |batch|
      ensures Appended(items, old(items), batch, old(nextItemId))
      ensures invoices == old(invoices) && nextInvoiceId == old(nextInvoiceId)
    {
      items, nextItemId := SaveAll(items, nextItemId, batch);
    }
  }

  /** The writes of createInvoice once the status is known: the invoice saved
      with amount 0 under the next id, its items saved, and the amount set to
      their total and saved again. */
  method SaveNewInvoice(db: LegacyDatabase, dto: InvoiceRequest, status: InvoiceStatus)
    returns (id: Id, invoice: LegacyInvoice, items: seq<InvoiceItem>)
    requires db.Valid()
    modifies db
    ensures db.Valid()
    ensures id == old(db.nextInvoiceId) && items == MapToEntities(dto.items, id)
    ensures invoice == FromRequest(dto, status, RequestAmount(dto.items))
    ensures db.invoices == old(db.invoices)[id := invoice] && db.nextInvoiceId == id + 1
    ensures db.nextItemId == old(db.nextItemId) + |dto.items|
    ensures ItemsOf(db.items, id, db.nextItemId) == items
    ensures forall k :: k != id ==> ItemsOf(db.items, k, db.nextItemId) == ItemsOf(old(db.items), k, old(db.nextItemId))
  {
    id := db.nextInvoiceId;
    invoice := FromRequest(dto, status, 0.0);
    db.invoices := db.invoices[id := invoice];
    db.nextInvoiceId := id + 1;
    items := MapToEntities(dto.items, id);
    db.SaveAllItems(items);
    var total := Total(items);
    invoice := invoice.(amount := total);
    db.invoices := db.invoices[id := invoice];
    RequestTotal(dto.items, id);
    CreatedConsistent(old(db.invoices), old(db.items), old(db.nextInvoiceId), old(db.nextItemId), invoice, items,
      db.invoices, db.items, db.nextInvoiceId, db.nextItemId);
    CreatedListings(old(db.invoices), old(db.items), old(db.nextInvoiceId), old(db.nextItemId), items, db.items, db.nextItemId);
  }

  /** createInvoice: an unknown status fails before anything is saved; then
      the invoice is saved with amount 0, its items are saved, the amount is
      set to their total and saved, and only then is the number parsed, so an
      invoice number that is not an `int` fails with everything already stored. */
  method CreateInvoice(db: LegacyDatabase, dto: InvoiceRequest) returns (r: Result<LegacyView, Exception>)
    requires db.Valid()
    modifies db
    ensures db.Valid()
    ensures ParseStatus(dto.status).None? ==>
      r == Failure(IllegalArgument(UnknownStatusMessage(LEGACY_STATUS_CLASS, dto.status))) && unchanged(db)
    ensures ParseStatus(dto.status).Some? ==>
      var id := old(db.nextInvoiceId);
      && db.invoices == old(db.invoices)[id := FromRequest(dto, ParseStatus(dto.status).value, RequestAmount(dto.items))]
      && db.nextInvoiceId == id + 1
      && db.nextItemId == old(db.nextItemId) + |dto.items|
      && ItemsOf(db.items, id, db.nextItemId) == MapToEntities(dto.items, id)
      && (forall k :: k != id ==> ItemsOf(db.items, k, db.nextItemId) == ItemsOf(old(db.items), k, old(db.nextItemId)))
      && (r.Failure? <==> ParseInt(dto.invoiceNumber).None?)
      && (r.Failure? ==> r.error == NumberFormat(dto.invoiceNumber))
      && (r.Success? ==> r.value == View(id, db.invoices[id], ParseInt(dto.invoiceNumber).value, MapToEntities(dto.items, id), true))
  {
    var status := ParseStatus(dto.status);
    if status.None? {
      return Failure(IllegalArgument(UnknownStatusMessage(LEGACY_STATUS_CLASS, dto.status)));
    }
    var id, invoice, items := SaveNewInvoice(db, dto, status.value);
    var number := ParseInt(invoice.invoiceNumber);
    if number.None? {
      return Failure(NumberFormat(invoice.invoiceNumber));
    }
    r := Success(View(id, invoice, number.value, items, true));
  }

  /** updateInvoice: an absent id or an unknown status fails with nothing
      changed; otherwise every field is taken from the request, the items are
      replaced and the amount is their total, and the number is parsed last. */
  method UpdateInvoice(db: LegacyDatabase, id: Id, dto: InvoiceRequest) returns (r: Result<LegacyView, Exception>)
    requires db.Valid()
    modifies db
    ensures db.Valid()
    ensures id !in old(db.invoices) ==> r == Failure(IllegalArgument("Factuur niet gevonden")) && unchanged(db)
    ensures id in old(db.invoices) && ParseStatus(dto.status).None? ==>
      r == Failure(IllegalArgument(UnknownStatusMessage(LEGACY_STATUS_CLASS, dto.status))) && unchanged(db)
    ensures id in old(db.invoices) && ParseStatus(dto.status).Some? ==>
      && db.invoices == old(db.invoices)[id := FromRequest(dto, ParseStatus(dto.status).value, RequestAmount(dto.items))]
      && db.nextInvoiceId == old(db.nextInvoiceId)
      && db.nextItemId == old(db.nextItemId) + |dto.items|
      && ItemsOf(db.items, id, db.nextItemId) == MapToEntities(dto.items, id)
      && (forall k :: k != id ==> ItemsOf(db.items, k, db.nextItemId) == ItemsOf(old(db.items), k, old(db.nextItemId)))
      && (r.Failure? <==> ParseInt(dto.invoiceNumber).None?)
      && (r.Failure? ==> r.error == NumberFormat(dto.invoiceNumber))
      && (r.Success? ==> r.value == View(id, db.invoices[id], ParseInt(dto.invoiceNumber).value, MapToEntities(dto.items, id), true))
  {
    if id !in db.invoices {
      return Failure(IllegalArgument("Factuur niet gevonden"));
    }
    var status := ParseStatus(dto.status);
    if status.None? {
      return Failure(IllegalArgument(UnknownStatusMessage(LEGACY_STATUS_CLASS, dto.status)));
    }
    db.items := RemoveItemsOf(db.items, id);
    var items := MapToEntities(dto.items, id);
    db.SaveAllItems(items);
    var invoice := FromRequest(dto, status.value, Total(items));
    db.invoices := db.invoices[id := invoice];
    RequestTotal(dto.items, id);
    RevisedConsistent(old(db.invoices), old(db.items), old(db.nextInvoiceId), old(db.nextItemId), id, invoice, items,
      db.invoices, db.items, db.nextItemId);
    ReplacedListingsUpTo(old(db.items), old(db.nextItemId), id, items, db.items, db.nextItemId);
    var number := ParseInt(invoice.invoiceNumber);
    if number.None? {
      return Failure(NumberFormat(invoice.invoiceNumber));
    }
    r := Success(View(id, invoice, number.value, items, true));
  }

  /** deleteInvoice: an absent id fails with nothing changed; otherwise the
      invoice's items are removed, then the invoice. */
  method DeleteInvoice(db: LegacyDatabase, id: Id) returns (r: Result<(), Exception>)
    requires db.Valid()
    modifies db
    ensures db.Valid()
    ensures id !in old(db.invoices) ==>
      r == Failure(IllegalArgument("Factuur met ID " + IntToString(id) + " niet gevonden")) && unchanged(db)
    ensures id in old(db.invoices) ==>
      && r.Success?
      && db.invoices == old(db.invoices) - {id}
      && db.items == RemoveItemsOf(old(db.items), id)
      && (forall k :: k != id ==> ItemsOf(db.items, k, db.nextItemId) == ItemsOf(old(db.items), k, old(db.nextItemId)))
      && db.nextInvoiceId == old(db.nextInvoiceId) && db.nextItemId == old(db.nextItemId)
  {
    if id !in db.invoices {
      return Failure(IllegalArgument("Factuur met ID " + IntToString(id) + " niet gevonden"));
    }
    DeletedConsistent(db.invoices, db.items, db.nextInvoiceId, db.nextItemId, id);
    db.items := RemoveItemsOf(db.items, id);
    db.invoices := db.invoices - {id};
    r := Success(());
  }

  /** updateInvoiceStatus: an absent id fails; otherwise only the status changes. */
  method UpdateInvoiceStatus(db: LegacyDatabase, id: Id, status: InvoiceStatus) returns (r: Result<(), Exception>)
    requires db.Valid()
    modifies db
    ensures db.Valid()
    ensures id !in old(db.invoices) ==> r == Failure(IllegalArgument("Factuur niet gevonden")) && unchanged(db)
    ensures id in old(db.invoices) ==>
      && r.Success?
      && db.invoices == old(db.invoices)[id := old(db.invoices)[id].(status := status)]
      && db.items == old(db.items) && db.nextInvoiceId == old(db.nextInvoiceId) && db.nextItemId == old(db.nextItemId)
  {
    if id !in db.invoices {
      return Failure(IllegalArgument("Factuur niet gevonden"));
    }
    db.invoices := db.invoices[id := db.invoices[id].(status := status)];
    r := Success(());
  }

  /** A listed invoice as a response: the number as parseInt reads it, the
      stored amount, no names, and one line per item `findByInvoiceId` lists,
      the lines adding up to the total of those items. */
  function ListedView(invoices: map<Id, LegacyInvoice>, items: map<Id, InvoiceItem>, hi: int, k: Id): (v: LegacyView)
    requires k in invoices && ParseInt(invoices[k].invoiceNumber).Some?
    ensures v.id == k && ParseInt(invoices[k].invoiceNumber) == Some(v.invoiceNumber)
    ensures v.senderName.None? && v.receiverName.None? && v.totalAmount == invoices[k].amount
    ensures |v.items| == |ItemsOf(items, k, hi)| && LinesTotal(v.items) == ListedTotal(items, k, hi)
  {
    ListedTotalIsTotal(items, k, hi);
    View(k, invoices[k], ParseInt(invoices[k].invoiceNumber).value, ItemsOf(items, k, hi), false)
  }

  /** The position of the first of the first `n` listed invoices whose number
      does not parse, or `n` when every one of them parses. */
  function FirstUnparsed(invoices: map<Id, LegacyInvoice>, ids: seq<Id>, n: nat): (i: nat)
    requires n <= |ids| && forall j :: 0 <= j < |ids| ==> ids[j] in invoices
    ensures i <= n
    ensures forall j :: 0 <= j < i ==> ParseInt(invoices[ids[j]].invoiceNumber).Some?
    ensures i < n ==> ParseInt(invoices[ids[i]].invoiceNumber).None?
  {
    if n == 0 then 0
    else
      var f := FirstUnparsed(invoices, ids, n - 1);
      if f < n - 1 then f
      else if ParseInt(invoices[ids[n - 1]].invoiceNumber).None? then n - 1
      else n
  }

  /** The first `n` listed invoices mapped to responses in order; the first
      whose number does not parse makes the whole listing fail. */
  function ListedViews(invoices: map<Id, LegacyInvoice>, items: map<Id, InvoiceItem>, hi: int, ids: seq<Id>, n: nat)
    : (r: Result<seq<LegacyView>, Exception>)
    requires n <= |ids| && forall i :: 0 <= i < |ids| ==> ids[i] in invoices
    ensures r.Success? <==> forall i :: 0 <= i < n ==> ParseInt(invoices[ids[i]].invoiceNumber).Some?
    ensures r.Failure? ==>
      exists i :: 0 <= i < n && ParseInt(invoices[ids[i]].invoiceNumber).None?
        && (forall j :: 0 <= j < i ==> ParseInt(invoices[ids[j]].invoiceNumber).Some?)
        && r.error == NumberFormat(invoices[ids[i]].invoiceNumber)
    ensures r.Success? ==> |r.value| == n && forall i :: 0 <= i < n ==> r.value[i] == ListedView(invoices, items, hi, ids[i])
  {
    var first := FirstUnparsed(invoices, ids, n);
    if first < n then
      Failure(NumberFormat(invoices[ids[first]].invoiceNumber))
    else
      Success(seq(n, i requires 0 <= i < n => ListedView(invoices, items, hi, ids[i])))
  }

  /** findByStatus(status), ascending. */
  function StatusIds(invoices: map<Id, LegacyInvoice>, status: InvoiceStatus, hi: int): (ids: seq<Id>)
    ensures forall k :: k in ids <==> 0 <= k < hi && k in invoices && invoices[k].status == status
    ensures forall i, j :: 0 <= i < j < |ids| ==> ids[i] < ids[j]
  {
    IdsWhere(invoices, (inv: LegacyInvoice) => inv.status == status, hi)
  }

  /** findAll(), ascending. */
  function AllIds(invoices: map<Id, LegacyInvoice>, hi: int): (ids: seq<Id>)
    ensures forall k :: k in ids <==> 0 <= k < hi && k in invoices
    ensures forall i, j :: 0 <= i < j < |ids| ==> ids[i] < ids[j]
  {
    IdsWhere(invoices, (inv: LegacyInvoice) => true, hi)
  }

  /** getInvoicesByStatus: one response per invoice with that status, in id
      order, each with its own items; it fails if any of their numbers does
      not parse. */
  function GetInvoicesByStatus(db: LegacyDatabase, status: InvoiceStatus): (r: Result<seq<LegacyView>, Exception>)
    requires db.Valid()
    reads db
    ensures var ids := StatusIds(db.invoices, status, db.nextInvoiceId);
      && (r.Success? <==> forall k :: k in ids ==> ParseInt(db.invoices[k].invoiceNumber).Some?)
      && (r.Success? ==> |r.value| == |ids|)
      && (r.Success? ==> forall i :: 0 <= i < |ids| ==> r.value[i] == ListedView(db.invoices, db.items, db.nextItemId, ids[i]))
  {
    var ids := StatusIds(db.invoices, status, db.nextInvoiceId);
    ListedViews(db.invoices, db.items, db.nextItemId, ids, |ids|)
  }

  /** getAllInvoices: one response per stored invoice, in id order. */
  function GetAllInvoices(db: LegacyDatabase): (r: Result<seq<LegacyView>, Exception>)
    requires db.Valid()
    reads db
    ensures var ids := AllIds(db.invoices, db.nextInvoiceId);
      && (r.Success? <==> forall k :: k in ids ==> ParseInt(db.invoices[k].invoiceNumber).Some?)
      && (r.Success? ==> |r.value| == |ids|)
      && (r.Success? ==> forall i :: 0 <= i < |ids| ==> r.value[i] == ListedView(db.invoices, db.items, db.nextItemId, ids[i]))
  {
    var ids := AllIds(db.invoices, db.nextInvoiceId);
    ListedViews(db.invoices, db.items, db.nextItemId, ids, |ids|)
  }

  /** Every response getInvoicesByStatus lists carries the status asked for,
      and every invoice with that status is listed. */
  lemma ByStatusIsExact(db: LegacyDatabase, status: InvoiceStatus)
    requires db.Valid() && GetInvoicesByStatus(db, status).Success?
    ensures var vs := GetInvoicesByStatus(db, status).value;
      && (forall i :: 0 <= i < |vs| ==> vs[i].id in db.invoices && vs[i].status == StatusName(status))
      && (forall k :: k in db.invoices && db.invoices[k].status == status ==> exists i :: 0 <= i < |vs| && vs[i].id == k)
  {
    var ids := StatusIds(db.invoices, status, db.nextInvoiceId);
    var vs := GetInvoicesByStatus(db, status).value;
    forall k | k in db.invoices && db.invoices[k].status == status
      ensures exists i :: 0 <= i < |vs| && vs[i].id == k
    {
      assert k in ids;
      var i :| 0 <= i < |ids| && ids[i] == k;
      assert vs[i].id == k;
    }
  }

  /** In a consistent store every listed response shows a total equal to the
      sum of the lines it shows. */
  lemma ListedTotalsAdd(db: LegacyDatabase, k: Id)
    requires db.Valid() && k in db.invoices && ParseInt(db.invoices[k].invoiceNumber).Some?
    ensures var v := ListedView(db.invoices, db.items, db.nextItemId, k); v.totalAmount == LinesTotal(v.items)
  {
    var items := ItemsOf(db.items, k, db.nextItemId);
    ListedTotalIsTotal(db.items, k, db.nextItemId);
    LinesTotalIsTotal(items, Lines(items));
  }
}
