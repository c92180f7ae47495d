/** The tables of the owner-scoped invoice core (invoices, invoice_items,
    time_entries, clients, projects), their IDENTITY counters, the repository
    queries the services run against them, and the integrity the services keep.

    The derived queries and `findAll` carry no ORDER BY, so the database may
    return their rows in any order. The model fixes one: ascending id order,
    which under IDENTITY keys is insertion order. The listing functions below
    walk the ids from 0 up to the next free id. */
module Store {
  import opened Wrappers
  import opened Entities
  import opened Exceptions
  import opened Billing

  /** The ids below `hi` whose row in `m` satisfies `p`, in ascending order:
      a derived `findByX` query. */
  function IdsWhere<T>(m: map<Id, T>, p: T -> bool, hi: int): (r: seq<Id>)
    ensures forall k :: k in r <==> 0 <= k < hi && k in m && p(m[k])
    ensures forall i, j :: 0 <= i < j < |r| ==> r[i] < r[j]
    decreases hi
  {
    if hi <= 0 then []
    else
      var below := IdsWhere(m, p, hi - 1);
      MembersBelow(below, hi - 1);
      below + (if hi - 1 in m && p(m[hi - 1]) then [hi - 1] else [])
  }

  /** Every element of a sequence whose members all lie below `bound` lies below it. */
  lemma MembersBelow(s: seq<Id>, bound: int)
    requires forall k :: k in s ==> k < bound
    ensures forall i :: 0 <= i < |s| ==> s[i] < bound
  {
    forall i | 0 <= i < |s| ensures s[i] < bound {
      assert s[i] in s;
    }
  }

  /** An `Optional`-returning derived query over the listed matches: empty
      when nothing matches, the one match when exactly one does, and an
      `IncorrectResultSizeDataAccessException` when several do. */
  function SingleResult(matches: seq<Id>): (r: Result<Option<Id>, Exception>)
    ensures r == Success(None) <==> |matches| == 0
    ensures r.Success? && r.value.Some? <==> |matches| == 1
    ensures r.Success? && r.value.Some? ==> r.value.value == matches[0]
    ensures r.Failure? <==> |matches| > 1
    ensures r.Failure? ==> r.error == IncorrectResultSize
  {
    if |matches| == 0 then Success(None)
    else if |matches| == 1 then Success(Some(matches[0]))
    else Failure(IncorrectResultSize)
  }

  /** `findByClientIdAndInvoiceIsNull(client)`: the unbilled time entries of
      `client` with id below `hi`, ascending. */
  function UnbilledIds(entries: map<Id, TimeEntry>, client: Id, hi: int): (r: seq<Id>)
    ensures forall k :: k in r <==> 0 <= k < hi && k in entries && entries[k].client == client && entries[k].invoice.None?
    ensures forall i, j :: 0 <= i < j < |r| ==> r[i] < r[j]
  {
    IdsWhere(entries, (e: TimeEntry) => e.client == client && e.invoice.None?, hi)
  }

  /** Row `k` of `m` exists and belongs to invoice `inv`. */
  predicate RowOf(m: map<Id, InvoiceItem>, k: Id, inv: Id)
  {
    k in m && m[k].invoice == inv
  }

  /** The ids of the items of `inv` below `hi`, ascending. */
  function ItemIds(m: map<Id, InvoiceItem>, inv: Id, hi: int): (r: seq<Id>)
    ensures forall k :: k in r <==> 0 <= k < hi && RowOf(m, k, inv)
    ensures forall i, j :: 0 <= i < j < |r| ==> r[i] < r[j]
  {
    IdsWhere(m, (item: InvoiceItem) => item.invoice == inv, hi)
  }

  /** `findByInvoiceId(inv)`: the items of `inv` with id below `hi`, ascending
      (ItemsOfListing states that the listing is complete and in id order). */
  function ItemsOf(m: map<Id, InvoiceItem>, inv: Id, hi: int): (r: seq<InvoiceItem>)
    ensures forall i :: 0 <= i < |r| ==> r[i].invoice == inv
    decreases hi
  {
    if hi <= 0 then []
    else ItemsOf(m, inv, hi - 1) + (if RowOf(m, hi - 1, inv) then [m[hi - 1]] else [])
  }

  /** The listing holds exactly the rows of `inv` below `hi`, one per id, in
      ascending id order: its i-th item is the row at the i-th such id, and
      every such row is in it. */
  lemma {:induction false} ItemsOfListing(m: map<Id, InvoiceItem>, inv: Id, hi: int)
    ensures |ItemsOf(m, inv, hi)| == |ItemIds(m, inv, hi)|
    ensures forall i :: 0 <= i < |ItemsOf(m, inv, hi)| ==>
      ItemIds(m, inv, hi)[i] in m && ItemsOf(m, inv, hi)[i] == m[ItemIds(m, inv, hi)[i]]
    ensures forall k :: 0 <= k < hi && RowOf(m, k, inv) ==> m[k] in ItemsOf(m, inv, hi)
    decreases hi
  {
    var ids := ItemIds(m, inv, hi);
    var r := ItemsOf(m, inv, hi);
    if hi > 0 {
      ItemsOfListing(m, inv, hi - 1);
      assert ids == ItemIds(m, inv, hi - 1) + (if RowOf(m, hi - 1, inv) then [hi - 1] else []);
    }
    forall k | 0 <= k < hi && RowOf(m, k, inv) ensures m[k] in r {
      assert k in ids;
      var i :| 0 <= i < |ids| && ids[i] == k;
      assert r[i] == m[k];
    }
  }

  /** Two tables that hold the same rows of `inv` below `hi` list the same items. */
  lemma {:induction false} ItemsOfSame(m1: map<Id, InvoiceItem>, m2: map<Id, InvoiceItem>, inv: Id, hi: int)
    requires forall k :: 0 <= k < hi ==> (RowOf(m1, k, inv) <==> RowOf(m2, k, inv))
    requires forall k :: 0 <= k < hi && RowOf(m1, k, inv) && RowOf(m2, k, inv) ==> m1[k] == m2[k]
    ensures ItemsOf(m1, inv, hi) == ItemsOf(m2, inv, hi)
    decreases hi
  {
    if hi > 0 {
      ItemsOfSame(m1, m2, inv, hi - 1);
    }
  }

  /** Ids in [lo, hi) holding no row of `inv` add nothing to the listing. */
  lemma {:induction false} ItemsOfNoneBetween(m: map<Id, InvoiceItem>, inv: Id, lo: int, hi: int)
    requires 0 <= lo <= hi
    requires forall k :: lo <= k < hi ==> !RowOf(m, k, inv)
    ensures ItemsOf(m, inv, hi) == ItemsOf(m, inv, lo)
    decreases hi
  {
    if hi > lo {
      ItemsOfNoneBetween(m, inv, lo, hi - 1);
    }
  }

  /** `batch` sits at ids base, base+1, ... of `m`, every item belonging to `inv`. */
  predicate StoredAt(m: map<Id, InvoiceItem>, batch: seq<InvoiceItem>, base: int, inv: Id)
  {
    && (forall k :: base <= k < base + |batch| ==> k in m && m[k] == batch[k - base])
    && (forall j :: 0 <= j < |batch| ==> batch[j].invoice == inv)
  }

  /** A batch stored at consecutive ids from `base`, above every other row of
      `inv`, is listed back in the order it was saved. */
  lemma {:induction false} ItemsOfBatch(m: map<Id, InvoiceItem>, inv: Id, base: int, batch: seq<InvoiceItem>, n: nat)
    requires 0 <= base && n <= |batch|
    requires forall k :: 0 <= k < base ==> !RowOf(m, k, inv)
    requires StoredAt(m, batch, base, inv)
    ensures ItemsOf(m, inv, base + n) == batch[..n]
    decreases n
  {
    if n == 0 {
      ItemsOfNoneBetween(m, inv, 0, base);
    } else {
      ItemsOfBatch(m, inv, base, batch, n - 1);
      assert RowOf(m, base + n - 1, inv) && m[base + n - 1] == batch[n - 1];
      assert batch[..n] == batch[..n - 1] + [batch[n - 1]];
    }
  }

  /** `after` is `before` with `batch` saved at ids base, base+1, ...: what
      `saveAll(batch)` leaves behind under IDENTITY keys. */
  ghost predicate Appended(after: map<Id, InvoiceItem>, before: map<Id, InvoiceItem>, batch: seq<InvoiceItem>, base: Id)
  {
    && (forall k :: k in after <==> k in before || base <= k < base + |batch|)
    && (forall k :: k in before && !(base <= k < base + |batch|) ==> after[k] == before[k])
    && (forall k :: base <= k < base + |batch| ==> after[k] == batch[k - base])
  }

  /** `deleteAll(findByInvoiceId(inv))`: every item of `inv` removed. */
  function RemoveItemsOf(m: map<Id, InvoiceItem>, inv: Id): (r: map<Id, InvoiceItem>)
    ensures forall k :: k in r <==> k in m && m[k].invoice != inv
    ensures forall k :: k in r ==> r[k] == m[k]
  {
    map k | k in m && m[k].invoice != inv :: m[k]
  }

  /** The time entries the invoice's cascade removes with it. */
  function RemoveEntriesOf(m: map<Id, TimeEntry>, inv: Id): (r: map<Id, TimeEntry>)
    ensures forall k :: k in r <==> k in m && m[k].invoice != Some(inv)
    ensures forall k :: k in r ==> r[k] == m[k]
  {
    map k | k in m && m[k].invoice != Some(inv) :: m[k]
  }

  /** `entry.setInvoice(invoice)` for every entry listed in `ids`. */
  function LinkEntries(m: map<Id, TimeEntry>, ids: seq<Id>, inv: Id): (r: map<Id, TimeEntry>)
    ensures r.Keys == m.Keys
    ensures forall k :: k in r && k in ids ==> r[k] == m[k].(invoice := Some(inv))
    ensures forall k :: k in r && k !in ids ==> r[k] == m[k]
  {
    map k | k in m :: if k in ids then m[k].(invoice := Some(inv)) else m[k]
  }

  // Integrity of the tables.

  /** IDENTITY keys: every id was handed out, from 1 up. */
  predicate IdsBelow(keys: set<Id>, next: Id)
  {
    forall k :: k in keys ==> 1 <= k < next
  }

  /** An item belongs to a stored invoice, carries the server subtotal, and a
      time entry it was generated from is stored and billed on the same invoice. */
  predicate ItemLinked(item: InvoiceItem, invoices: map<Id, Invoice>, entries: map<Id, TimeEntry>)
  {
    && item.invoice in invoices
    && WellPriced(item)
    && (item.timeEntry.Some? ==>
          item.timeEntry.value in entries && entries[item.timeEntry.value].invoice == Some(item.invoice))
  }

  predicate ItemsLinked(items: map<Id, InvoiceItem>, invoices: map<Id, Invoice>, entries: map<Id, TimeEntry>)
  {
    forall k :: k in items ==> ItemLinked(items[k], invoices, entries)
  }

  /** A time entry's client, project and invoice, when set, are stored. */
  predicate EntryLinked(e: TimeEntry, invoices: map<Id, Invoice>, clients: map<Id, Client>, projects: map<Id, Project>)
  {
    && e.client in clients
    && (e.project.Some? ==> e.project.value in projects)
    && (e.invoice.Some? ==> e.invoice.value in invoices)
  }

  predicate EntriesLinked(entries: map<Id, TimeEntry>, invoices: map<Id, Invoice>, clients: map<Id, Client>, projects: map<Id, Project>)
  {
    forall k :: k in entries ==> EntryLinked(entries[k], invoices, clients, projects)
  }

  /** The sum of the subtotals of the items of `inv` stored under an id below `hi`. */
  function ListedTotal(m: map<Id, InvoiceItem>, inv: Id, hi: int): Money
    decreases hi
  {
    if hi <= 0 then 0.0 else ListedTotal(m, inv, hi - 1) + (if RowOf(m, hi - 1, inv) then m[hi - 1].subTotal else 0.0)
  }

  /** Summing the stored rows is totalling the listing `findByInvoiceId` returns. */
  lemma {:induction false} ListedTotalIsTotal(m: map<Id, InvoiceItem>, inv: Id, hi: int)
    ensures ListedTotal(m, inv, hi) == Total(ItemsOf(m, inv, hi))
    decreases hi
  {
    if hi > 0 {
      ListedTotalIsTotal(m, inv, hi - 1);
      var last := if RowOf(m, hi - 1, inv) then [m[hi - 1]] else [];
      TotalAppend(ItemsOf(m, inv, hi - 1), last);
      assert last != [] ==> Total(last) == SumUpTo(last, 0) + last[0].subTotal;
    }
  }

  /** A listing that is a known sequence of items sums to that sequence's total. */
  lemma ListingTotal(m: map<Id, InvoiceItem>, inv: Id, hi: int, listing: seq<InvoiceItem>)
    requires ItemsOf(m, inv, hi) == listing
    ensures ListedTotal(m, inv, hi) == Total(listing)
  {
    ListedTotalIsTotal(m, inv, hi);
  }

  /** Two equal listings sum to the same amount. */
  lemma SameListingSameTotal(m1: map<Id, InvoiceItem>, inv1: Id, hi1: int, m2: map<Id, InvoiceItem>, inv2: Id, hi2: int)
    requires ItemsOf(m1, inv1, hi1) == ItemsOf(m2, inv2, hi2)
    ensures ListedTotal(m1, inv1, hi1) == ListedTotal(m2, inv2, hi2)
  {
    ListedTotalIsTotal(m1, inv1, hi1);
    ListedTotalIsTotal(m2, inv2, hi2);
  }

  /** Every stored amount is the total of the invoice's stored items. */
  predicate AmountsMatch(invoices: map<Id, Invoice>, items: map<Id, InvoiceItem>, hi: int)
  {
    forall k :: k in invoices ==> invoices[k].amount == ListedTotal(items, k, hi)
  }

  /** Saving a batch of other invoices' items above `base` leaves the listing of `k` as it was. */
  lemma OtherInvoicesUnaffected(lower: map<Id, InvoiceItem>, batch: seq<InvoiceItem>, base: Id, k: Id, m: map<Id, InvoiceItem>)
    requires 0 <= base && forall key :: key in lower ==> key < base
    requires forall j :: 0 <= j < |batch| ==> batch[j].invoice != k
    requires Appended(m, lower, batch, base)
    ensures ItemsOf(m, k, base + |batch|) == ItemsOf(lower, k, base)
  {
    forall key | base <= key < base + |batch| ensures !RowOf(m, key, k) {
      assert m[key] == batch[key - base];
    }
    ItemsOfNoneBetween(m, k, base, base + |batch|);
    ItemsOfSame(m, lower, k, base);
  }

  /** Saving a batch of `inv`'s items above `base` leaves the listing of every
      other invoice as it was. */
  lemma OtherListingsKept(lower: map<Id, InvoiceItem>, batch: seq<InvoiceItem>, base: Id, inv: Id, m: map<Id, InvoiceItem>, hi: Id)
    requires 0 <= base && forall key :: key in lower ==> key < base
    requires forall j :: 0 <= j < |batch| ==> batch[j].invoice == inv
    requires Appended(m, lower, batch, base) && hi == base + |batch|
    ensures forall k :: k != inv ==> ItemsOf(m, k, hi) == ItemsOf(lower, k, base)
  {
    forall k | k != inv ensures ItemsOf(m, k, hi) == ItemsOf(lower, k, base) {
      OtherInvoicesUnaffected(lower, batch, base, k, m);
    }
  }

  /** The rows of a table after a batch of `inv` was saved above `base`: the
      batch above `base`, no row of `inv` below it. */
  lemma UnionRows(lower: map<Id, InvoiceItem>, batch: seq<InvoiceItem>, base: Id, inv: Id, m: map<Id, InvoiceItem>)
    requires 0 <= base && forall key :: key in lower ==> key < base && lower[key].invoice != inv
    requires forall j :: 0 <= j < |batch| ==> batch[j].invoice == inv
    requires Appended(m, lower, batch, base)
    ensures StoredAt(m, batch, base, inv)
    ensures forall k :: 0 <= k < base ==> !RowOf(m, k, inv)
  {
    forall k | 0 <= k < base && k in m ensures m[k].invoice != inv {
      assert k in lower && m[k] == lower[k];
    }
  }

  /** A batch saved above a table holding no item of `inv` is the whole listing of `inv`. */
  lemma BatchIsWholeListing(lower: map<Id, InvoiceItem>, batch: seq<InvoiceItem>, base: Id, inv: Id, m: map<Id, InvoiceItem>)
    requires 0 <= base && forall key :: key in lower ==> key < base && lower[key].invoice != inv
    requires forall j :: 0 <= j < |batch| ==> batch[j].invoice == inv
    requires Appended(m, lower, batch, base)
    ensures ItemsOf(m, inv, base + |batch|) == batch
  {
    UnionRows(lower, batch, base, inv, m);
    ItemsOfBatch(m, inv, base, batch, |batch|);
    assert batch[..|batch|] == batch;
  }

  /** Removing the items of `id` leaves every other invoice's listing as it was. */
  lemma RemoveKeepsOthers(items: map<Id, InvoiceItem>, id: Id, k: Id, hi: int)
    requires k != id
    ensures ItemsOf(RemoveItemsOf(items, id), k, hi) == ItemsOf(items, k, hi)
  {
    ItemsOfSame(RemoveItemsOf(items, id), items, k, hi);
  }

  lemma LinkedItemsStored(items: map<Id, InvoiceItem>, invoices: map<Id, Invoice>, entries: map<Id, TimeEntry>)
    requires ItemsLinked(items, invoices, entries)
    ensures forall k :: k in items ==> items[k].invoice in invoices
  {
    forall k | k in items ensures items[k].invoice in invoices {
      assert ItemLinked(items[k], invoices, entries);
    }
  }

  /** Saving a batch from the next free id keeps the keys below the advanced counter. */
  lemma BatchIdsBelow(lower: map<Id, InvoiceItem>, batch: seq<InvoiceItem>, n: Id, items': map<Id, InvoiceItem>)
    requires 1 <= n && IdsBelow(lower.Keys, n)
    requires Appended(items', lower, batch, n)
    ensures IdsBelow(items'.Keys, n + |batch|)
  {
  }

  /** updateInvoiceForUser's writes keep every stored amount the total of the
      invoice's items: the items of `id` replaced by a batch saved from `n`, and
      the invoice's new amount the batch's total. */
  lemma ReplaceKeepsAmounts(
    invoices: map<Id, Invoice>, items: map<Id, InvoiceItem>, n: Id, id: Id, batch: seq<InvoiceItem>,
    revised: Invoice, invoices': map<Id, Invoice>, items': map<Id, InvoiceItem>)
    requires 1 <= n && IdsBelow(items.Keys, n) && AmountsMatch(invoices, items, n)
    requires forall j :: 0 <= j < |batch| ==> batch[j].invoice == id
    requires id in invoices && invoices' == invoices[id := revised] && revised.amount == Total(batch)
    requires Appended(items', RemoveItemsOf(items, id), batch, n)
    ensures AmountsMatch(invoices', items', n + |batch|)
  {
    ReplacedListings(items, n, id, batch, items');
    forall k | k in invoices' ensures invoices'[k].amount == ListedTotal(items', k, n + |batch|) {
      if k == id {
        ListingTotal(items', id, n + |batch|, batch);
      } else {
        SameListingSameTotal(items', k, n + |batch|, items, k, n);
      }
    }
  }

  /** After the items of `id` are replaced by a batch saved from `n`, `id`
      lists exactly the batch and every other invoice lists what it listed before. */
  lemma ReplacedListings(items: map<Id, InvoiceItem>, n: Id, id: Id, batch: seq<InvoiceItem>, items': map<Id, InvoiceItem>)
    requires 1 <= n && IdsBelow(items.Keys, n)
    requires forall j :: 0 <= j < |batch| ==> batch[j].invoice == id
    requires Appended(items', RemoveItemsOf(items, id), batch, n)
    ensures ItemsOf(items', id, n + |batch|) == batch
    ensures forall k :: k != id ==> ItemsOf(items', k, n + |batch|) == ItemsOf(items, k, n)
  {
    var lower := RemoveItemsOf(items, id);
    BatchIsWholeListing(lower, batch, n, id, items');
    forall k | k != id
      ensures ItemsOf(items', k, n + |batch|) == ItemsOf(items, k, n)
    {
      OtherInvoicesUnaffected(lower, batch, n, k, items');
      RemoveKeepsOthers(items, id, k, n);
    }
  }

  /** The replacing batch is server-priced and generated from no time entry, so
      every stored item stays linked. */
  lemma ReplaceKeepsItemLinks(
    invoices: map<Id, Invoice>, items: map<Id, InvoiceItem>, entries: map<Id, TimeEntry>,
    n: Id, id: Id, batch: seq<InvoiceItem>, invoices': map<Id, Invoice>, items': map<Id, InvoiceItem>)
    requires IdsBelow(items.Keys, n) && ItemsLinked(items, invoices, entries)
    requires forall j :: 0 <= j < |batch| ==> batch[j].invoice == id && WellPriced(batch[j]) && batch[j].timeEntry.None?
    requires id in invoices && invoices'.Keys == invoices.Keys
    requires Appended(items', RemoveItemsOf(items, id), batch, n)
    ensures ItemsLinked(items', invoices', entries)
  {
    forall k | k in items' ensures ItemLinked(items'[k], invoices', entries) {
      if n <= k < n + |batch| {
        assert items'[k] == batch[k - n];
      } else {
        assert items'[k] == items[k] && ItemLinked(items[k], invoices, entries);
      }
    }
  }

  /** deleteInvoiceForUser's cascade keeps the tables consistent: the invoice,
      its items and the time entries billed on it go together. */
  lemma CascadeKeepsIntegrity(
    invoices: map<Id, Invoice>, items: map<Id, InvoiceItem>, entries: map<Id, TimeEntry>,
    clients: map<Id, Client>, projects: map<Id, Project>, n: Id, id: Id,
    invoices': map<Id, Invoice>, items': map<Id, InvoiceItem>, entries': map<Id, TimeEntry>)
    requires ItemsLinked(items, invoices, entries) && EntriesLinked(entries, invoices, clients, projects)
    requires AmountsMatch(invoices, items, n)
    requires invoices' == invoices - {id} && items' == RemoveItemsOf(items, id) && entries' == RemoveEntriesOf(entries, id)
    ensures ItemsLinked(items', invoices', entries')
    ensures EntriesLinked(entries', invoices', clients, projects)
    ensures AmountsMatch(invoices', items', n)
  {
    forall k | k in invoices' ensures invoices'[k].amount == ListedTotal(items', k, n) {
      RemoveKeepsOthers(items, id, k, n);
      SameListingSameTotal(items', k, n, items, k, n);
    }
    forall k | k in items' ensures ItemLinked(items'[k], invoices', entries') {
      assert ItemLinked(items[k], invoices, entries);
    }
    forall k | k in entries' ensures EntryLinked(entries'[k], invoices', clients, projects) {
      assert EntryLinked(entries[k], invoices, clients, projects);
    }
  }

  /** The batch saved for a new invoice from `n` is that invoice's whole listing. */
  lemma NewInvoiceListing(
    invoices: map<Id, Invoice>, items: map<Id, InvoiceItem>, entries: map<Id, TimeEntry>,
    newId: Id, n: Id, batch: seq<InvoiceItem>, items': map<Id, InvoiceItem>, hi: Id)
    requires IdsBelow(invoices.Keys, newId) && 1 <= n && IdsBelow(items.Keys, n)
    requires ItemsLinked(items, invoices, entries)
    requires forall j :: 0 <= j < |batch| ==> batch[j].invoice == newId
    requires Appended(items', items, batch, n)
    requires hi == n + |batch|
    ensures ItemsOf(items', newId, hi) == batch
  {
    LinkedItemsStored(items, invoices, entries);
    forall key | key in items ensures key < n && items[key].invoice != newId {
      assert items[key].invoice in invoices;
    }
    BatchIsWholeListing(items, batch, n, newId, items');
  }

  /** autoGenerateInvoiceFromUnbilled's writes keep every stored amount the
      total of the invoice's items: a new invoice at `newId` whose amount is the
      total of the batch saved for it from `n`. */
  lemma GenerateKeepsAmounts(
    invoices: map<Id, Invoice>, items: map<Id, InvoiceItem>, entries: map<Id, TimeEntry>,
    newId: Id, n: Id, batch: seq<InvoiceItem>, invoice: Invoice, invoices': map<Id, Invoice>, items': map<Id, InvoiceItem>)
    requires IdsBelow(invoices.Keys, newId) && 1 <= n && IdsBelow(items.Keys, n)
    requires ItemsLinked(items, invoices, entries) && AmountsMatch(invoices, items, n)
    requires forall j :: 0 <= j < |batch| ==> batch[j].invoice == newId
    requires invoices' == invoices[newId := invoice] && invoice.amount == Total(batch)
    requires Appended(items', items, batch, n)
    ensures AmountsMatch(invoices', items', n + |batch|)
  {
    NewInvoiceListing(invoices, items, entries, newId, n, batch, items', n + |batch|);
    LinkedItemsStored(items, invoices, entries);
    forall k | k in invoices'
      ensures invoices'[k].amount == ListedTotal(items', k, n + |batch|)
    {
      if k == newId {
        ListingTotal(items', newId, n + |batch|, batch);
      } else {
        OtherInvoicesUnaffected(items, batch, n, k, items');
        SameListingSameTotal(items', k, n + |batch|, items, k, n);
      }
    }
  }

  /** An item generated from a selected entry points at that entry, now billed
      on the new invoice. */
  lemma NewItemLinked(item: InvoiceItem, selected: seq<Id>, entries: map<Id, TimeEntry>, newId: Id, i: int,
    invoices': map<Id, Invoice>, entries': map<Id, TimeEntry>)
    requires forall k :: k in selected ==> k in entries
    requires 0 <= i < |selected| && item == ItemFromEntry(selected[i], entries[selected[i]], newId)
    requires newId in invoices' && entries' == LinkEntries(entries, selected, newId)
    ensures ItemLinked(item, invoices', entries')
  {
    assert selected[i] in selected;
  }

  /** An older item was not generated from an unbilled entry, so linking the
      selected entries leaves its own entry as it was. */
  lemma OldItemLinked(item: InvoiceItem, invoices: map<Id, Invoice>, entries: map<Id, TimeEntry>,
    selected: seq<Id>, newId: Id, invoices': map<Id, Invoice>, entries': map<Id, TimeEntry>)
    requires ItemLinked(item, invoices, entries)
    requires forall k :: k in selected ==> k in entries && entries[k].invoice.None?
    requires invoices.Keys <= invoices'.Keys
    requires entries' == LinkEntries(entries, selected, newId)
    ensures ItemLinked(item, invoices', entries')
  {
    if item.timeEntry.Some? {
      var t := item.timeEntry.value;
      assert t in entries && entries[t].invoice.Some?;
      assert t !in selected;
      assert entries'[t] == entries[t];
    }
  }

  /** Old items keep their links; new items point at entries now billed on the
      new invoice. */
  lemma GenerateKeepsItemLinks(
    invoices: map<Id, Invoice>, items: map<Id, InvoiceItem>, entries: map<Id, TimeEntry>,
    newId: Id, n: Id, selected: seq<Id>, batch: seq<InvoiceItem>, invoice: Invoice,
    invoices': map<Id, Invoice>, items': map<Id, InvoiceItem>, entries': map<Id, TimeEntry>)
    requires forall key :: key in items ==> key < n
    requires ItemsLinked(items, invoices, entries)
    requires forall k :: k in selected ==> k in entries && entries[k].invoice.None?
    requires |batch| == |selected|
    requires forall i :: 0 <= i < |batch| ==> batch[i] == ItemFromEntry(selected[i], entries[selected[i]], newId)
    requires invoices' == invoices[newId := invoice]
    requires Appended(items', items, batch, n)
    requires entries' == LinkEntries(entries, selected, newId)
    ensures ItemsLinked(items', invoices', entries')
  {
    forall k | k in items' ensures ItemLinked(items'[k], invoices', entries') {
      if n <= k < n + |batch| {
        assert items'[k] == batch[k - n];
        NewItemLinked(items'[k], selected, entries, newId, k - n, invoices', entries');
      } else {
        assert items'[k] == items[k];
        OldItemLinked(items[k], invoices, entries, selected, newId, invoices', entries');
      }
    }
  }

  /** Linking entries to a stored invoice keeps every entry's references stored. */
  lemma LinkKeepsEntryLinks(
    invoices: map<Id, Invoice>, entries: map<Id, TimeEntry>, clients: map<Id, Client>, projects: map<Id, Project>,
    newId: Id, selected: seq<Id>, invoice: Invoice, invoices': map<Id, Invoice>, entries': map<Id, TimeEntry>)
    requires EntriesLinked(entries, invoices, clients, projects)
    requires invoices' == invoices[newId := invoice]
    requires entries' == LinkEntries(entries, selected, newId)
    ensures EntriesLinked(entries', invoices', clients, projects)
  {
    forall k | k in entries' ensures EntryLinked(entries'[k], invoices', clients, projects) {
      assert EntryLinked(entries[k], invoices, clients, projects);
    }
  }

  /** The contents of the store at one moment. */
  datatype Tables = Tables(
    invoices: map<Id, Invoice>,
    items: map<Id, InvoiceItem>,
    timeEntries: map<Id, TimeEntry>,
    clients: map<Id, Client>,
    projects: map<Id, Project>,
    nextInvoiceId: Id,
    nextItemId: Id,
    nextEntryId: Id,
    nextClientId: Id,
    nextProjectId: Id)

  /** What the services keep true of the store: keys handed out by the
      counters, references that resolve, and every stored amount the total
      of the invoice's stored items. */
  predicate Consistent(t: Tables)
  {
    && 1 <= t.nextInvoiceId && 1 <= t.nextItemId && 1 <= t.nextEntryId && 1 <= t.nextClientId && 1 <= t.nextProjectId
    && IdsBelow(t.invoices.Keys, t.nextInvoiceId)
    && IdsBelow(t.items.Keys, t.nextItemId)
    && IdsBelow(t.timeEntries.Keys, t.nextEntryId)
    && IdsBelow(t.clients.Keys, t.nextClientId)
    && IdsBelow(t.projects.Keys, t.nextProjectId)
    && ItemsLinked(t.items, t.invoices, t.timeEntries)
    && EntriesLinked(t.timeEntries, t.invoices, t.clients, t.projects)
    && AmountsMatch(t.invoices, t.items, t.nextItemId)
  }

  /** Consistency of a store read off the tables and counters it holds. */
  lemma ConsistentFrom(t: Tables, invoices: map<Id, Invoice>, items: map<Id, InvoiceItem>,
    timeEntries: map<Id, TimeEntry>, clients: map<Id, Client>, projects: map<Id, Project>,
    nextInvoiceId: Id, nextItemId: Id, nextEntryId: Id, nextClientId: Id, nextProjectId: Id)
    requires t.invoices == invoices && t.items == items && t.timeEntries == timeEntries
    requires t.clients == clients && t.projects == projects
    requires t.nextInvoiceId == nextInvoiceId && t.nextItemId == nextItemId && t.nextEntryId == nextEntryId
    requires t.nextClientId == nextClientId && t.nextProjectId == nextProjectId
    requires 1 <= nextInvoiceId && 1 <= nextItemId && 1 <= nextEntryId && 1 <= nextClientId && 1 <= nextProjectId
    requires IdsBelow(invoices.Keys, nextInvoiceId) && IdsBelow(items.Keys, nextItemId)
    requires IdsBelow(timeEntries.Keys, nextEntryId) && IdsBelow(clients.Keys, nextClientId)
    requires IdsBelow(projects.Keys, nextProjectId)
    requires ItemsLinked(items, invoices, timeEntries) && EntriesLinked(timeEntries, invoices, clients, projects)
    requires AmountsMatch(invoices, items, nextItemId)
    ensures Consistent(t)
  {
  }

  /** The amounts invariant holds of a store holding the tables it was shown for. */
  lemma AmountsCarry(invoices: map<Id, Invoice>, items: map<Id, InvoiceItem>, hi: Id, t: Tables)
    requires AmountsMatch(invoices, items, hi)
    requires t.invoices == invoices && t.items == items && t.nextItemId == hi
    ensures AmountsMatch(t.invoices, t.items, t.nextItemId)
  {
  }

  /** Two stores holding the same tables and counters are consistent together. */
  lemma ConsistentCarries(t: Tables, u: Tables)
    requires Consistent(t)
    requires u.invoices == t.invoices && u.items == t.items && u.timeEntries == t.timeEntries
    requires u.clients == t.clients && u.projects == t.projects
    requires u.nextInvoiceId == t.nextInvoiceId && u.nextItemId == t.nextItemId && u.nextEntryId == t.nextEntryId
    requires u.nextClientId == t.nextClientId && u.nextProjectId == t.nextProjectId
    ensures Consistent(u)
  {
    ConsistentFrom(u, t.invoices, t.items, t.timeEntries, t.clients, t.projects,
      t.nextInvoiceId, t.nextItemId, t.nextEntryId, t.nextClientId, t.nextProjectId);
  }

  /** The store after updateInvoiceForUser's writes: the invoice revised, its
      items replaced by `items'`, the item counter advanced past the batch. */
  function Replaced(t: Tables, id: Id, revised: Invoice, items': map<Id, InvoiceItem>, count: nat): Tables
  {
    t.(invoices := t.invoices[id := revised], items := items', nextItemId := t.nextItemId + count)
  }

  /** Revising an invoice in place keeps every time entry's links. */
  lemma RevisedEntriesLinked(t: Tables, id: Id, revised: Invoice)
    requires Consistent(t) && id in t.invoices
    ensures EntriesLinked(t.timeEntries, t.invoices[id := revised], t.clients, t.projects)
  {
    forall k | k in t.timeEntries ensures EntryLinked(t.timeEntries[k], t.invoices[id := revised], t.clients, t.projects) {
      assert EntryLinked(t.timeEntries[k], t.invoices, t.clients, t.projects);
    }
  }

  /** The amounts of the store after updateInvoiceForUser's writes, proved
      apart from the rest of its consistency. */
  lemma ReplacedAmountsMatch(t: Tables, id: Id, batch: seq<InvoiceItem>, revised: Invoice, items': map<Id, InvoiceItem>)
    requires 1 <= t.nextItemId && IdsBelow(t.items.Keys, t.nextItemId) && AmountsMatch(t.invoices, t.items, t.nextItemId)
    requires id in t.invoices && revised.amount == Total(batch)
    requires forall j :: 0 <= j < |batch| ==> batch[j].invoice == id
    requires Appended(items', RemoveItemsOf(t.items, id), batch, t.nextItemId)
    ensures AmountsMatch(Replaced(t, id, revised, items', |batch|).invoices, Replaced(t, id, revised, items', |batch|).items,
                         Replaced(t, id, revised, items', |batch|).nextItemId)
  {
    ReplaceKeepsAmounts(t.invoices, t.items, t.nextItemId, id, batch, revised, t.invoices[id := revised], items');
    AmountsCarry(t.invoices[id := revised], items', t.nextItemId + |batch|, Replaced(t, id, revised, items', |batch|));
  }

  /** The same listings, read up to the item counter the writes leave behind. */
  lemma ReplacedListingsUpTo(items: map<Id, InvoiceItem>, n: Id, id: Id, batch: seq<InvoiceItem>,
    items': map<Id, InvoiceItem>, hi: Id)
    requires 1 <= n && IdsBelow(items.Keys, n)
    requires forall j :: 0 <= j < |batch| ==> batch[j].invoice == id
    requires Appended(items', RemoveItemsOf(items, id), batch, n)
    requires hi == n + |batch|
    ensures ItemsOf(items', id, hi) == batch
    ensures forall k :: k != id ==> ItemsOf(items', k, hi) == ItemsOf(items, k, n)
  {
    ReplacedListings(items, n, id, batch, items');
  }

  /** updateInvoiceForUser's writes keep the store consistent. */
  lemma ReplaceKeepsConsistent(t: Tables, id: Id, batch: seq<InvoiceItem>, revised: Invoice, items': map<Id, InvoiceItem>)
    requires Consistent(t) && id in t.invoices
    requires forall j :: 0 <= j < |batch| ==> batch[j].invoice == id && WellPriced(batch[j]) && batch[j].timeEntry.None?
    requires revised.amount == Total(batch)
    requires Appended(items', RemoveItemsOf(t.items, id), batch, t.nextItemId)
    ensures Consistent(Replaced(t, id, revised, items', |batch|))
  {
    ReplacedAmountsMatch(t, id, batch, revised, items');
    ReplaceKeepsItemLinks(t.invoices, t.items, t.timeEntries, t.nextItemId, id, batch, t.invoices[id := revised], items');
    RevisedEntriesLinked(t, id, revised);
    BatchIdsBelow(RemoveItemsOf(t.items, id), batch, t.nextItemId, items');
  }

  /** The store after deleteInvoiceForUser: the invoice, its items and the
      time entries billed on it gone. */
  function CascadeDeleted(t: Tables, id: Id): Tables
  {
    t.(invoices := t.invoices - {id}, items := RemoveItemsOf(t.items, id),
       timeEntries := RemoveEntriesOf(t.timeEntries, id))
  }

  /** deleteInvoiceForUser's cascade keeps the store consistent. */
  lemma CascadeKeepsConsistent(t: Tables, id: Id)
    requires Consistent(t)
    ensures Consistent(CascadeDeleted(t, id))
  {
    CascadeKeepsIntegrity(t.invoices, t.items, t.timeEntries, t.clients, t.projects, t.nextItemId, id,
      t.invoices - {id}, RemoveItemsOf(t.items, id), RemoveEntriesOf(t.timeEntries, id));
  }

  /** The store after autoGenerateInvoiceFromUnbilled: the new invoice under the
      next invoice id, its items `items'`, the selected entries billed on it. */
  function Generated(t: Tables, invoice: Invoice, items': map<Id, InvoiceItem>, count: nat, selected: seq<Id>): Tables
  {
    t.(invoices := t.invoices[t.nextInvoiceId := invoice], nextInvoiceId := t.nextInvoiceId + 1,
       items := items', nextItemId := t.nextItemId + count,
       timeEntries := LinkEntries(t.timeEntries, selected, t.nextInvoiceId))
  }

  /** The amounts of the store after autoGenerateInvoiceFromUnbilled's writes,
      proved apart from the rest of its consistency. */
  lemma GeneratedAmountsMatch(t: Tables, selected: seq<Id>, batch: seq<InvoiceItem>, invoice: Invoice,
    items': map<Id, InvoiceItem>)
    requires IdsBelow(t.invoices.Keys, t.nextInvoiceId) && 1 <= t.nextItemId && IdsBelow(t.items.Keys, t.nextItemId)
    requires ItemsLinked(t.items, t.invoices, t.timeEntries) && AmountsMatch(t.invoices, t.items, t.nextItemId)
    requires forall j :: 0 <= j < |batch| ==> batch[j].invoice == t.nextInvoiceId
    requires invoice.amount == Total(batch)
    requires Appended(items', t.items, batch, t.nextItemId)
    ensures AmountsMatch(Generated(t, invoice, items', |batch|, selected).invoices,
      Generated(t, invoice, items', |batch|, selected).items, Generated(t, invoice, items', |batch|, selected).nextItemId)
  {
    GenerateKeepsAmounts(t.invoices, t.items, t.timeEntries, t.nextInvoiceId, t.nextItemId, batch, invoice,
      t.invoices[t.nextInvoiceId := invoice], items');
    AmountsCarry(t.invoices[t.nextInvoiceId := invoice], items', t.nextItemId + |batch|,
      Generated(t, invoice, items', |batch|, selected));
  }

  /** autoGenerateInvoiceFromUnbilled's writes keep the store consistent. */
  lemma GenerateKeepsConsistent(t: Tables, selected: seq<Id>, batch: seq<InvoiceItem>, invoice: Invoice,
    items': map<Id, InvoiceItem>)
    requires Consistent(t)
    requires forall k :: k in selected ==> k in t.timeEntries && t.timeEntries[k].invoice.None?
    requires |batch| == |selected|
    requires forall i :: 0 <= i < |batch| ==>
      batch[i] == ItemFromEntry(selected[i], t.timeEntries[selected[i]], t.nextInvoiceId)
    requires invoice.amount == Total(batch)
    requires Appended(items', t.items, batch, t.nextItemId)
    ensures Consistent(Generated(t, invoice, items', |batch|, selected))
  {
    GeneratedAmountsMatch(t, selected, batch, invoice, items');
    GenerateKeepsItemLinks(t.invoices, t.items, t.timeEntries, t.nextInvoiceId, t.nextItemId, selected, batch, invoice,
      t.invoices[t.nextInvoiceId := invoice], items', LinkEntries(t.timeEntries, selected, t.nextInvoiceId));
    LinkKeepsEntryLinks(t.invoices, t.timeEntries, t.clients, t.projects, t.nextInvoiceId, selected, invoice,
      t.invoices[t.nextInvoiceId := invoice], LinkEntries(t.timeEntries, selected, t.nextInvoiceId));
    BatchIdsBelow(t.items, batch, t.nextItemId, items');
  }

  /** A time entry whose client, project and invoice resolve, stored under the
      next id, keeps the store consistent. */
  lemma EntryAddedConsistent(t: Tables, e: TimeEntry)
    requires Consistent(t) && EntryLinked(e, t.invoices, t.clients, t.projects)
    ensures Consistent(t.(timeEntries := t.timeEntries[t.nextEntryId := e], nextEntryId := t.nextEntryId + 1))
  {
    var entries' := t.timeEntries[t.nextEntryId := e];
    forall k | k in t.items ensures ItemLinked(t.items[k], t.invoices, entries') {
      assert ItemLinked(t.items[k], t.invoices, t.timeEntries);
    }
  }

  /** The NOT NULL column `TimeEntry.createdBy` is stored in. */
  const CREATED_BY_COLUMN: string := "created_by"

  /** A time entry as a builder hands it to `save`, before the INSERT checks
      it: `createdBy` may still be null. */
  datatype EntryDraft = EntryDraft(
    description: string,
    hours: Int32,
    hourlyRate: Money,
    date: Date,
    client: Id,
    project: Option<Id>,
    invoice: Option<Id>,
    createdBy: Option<string>)

  /** A stored entry seen as the draft it was inserted from. */
  function DraftOf(e: TimeEntry): (d: EntryDraft)
    ensures d.createdBy == Some(e.createdBy)
  {
    EntryDraft(e.description, e.hours, e.hourlyRate, e.date, e.client, e.project, e.invoice, Some(e.createdBy))
  }

  /** The INSERT's NOT NULL check on `created_by`: a draft with the column set
      becomes the row it describes; a null is refused, naming the column. */
  function CheckNotNull(d: EntryDraft): (r: Result<TimeEntry, Exception>)
    ensures r.Failure? <==> d.createdBy.None?
    ensures r.Failure? ==> r.error == DataIntegrityViolation(CREATED_BY_COLUMN)
    ensures r.Success? ==> DraftOf(r.value) == d
  {
    if d.createdBy.None? then Failure(DataIntegrityViolation(CREATED_BY_COLUMN))
    else Success(TimeEntry(d.description, d.hours, d.hourlyRate, d.date, d.client, d.project, d.invoice, d.createdBy.value))
  }

  /** The store behind the owner-scoped services. */
  class Database {
    var invoices: map<Id, Invoice>
    var items: map<Id, InvoiceItem>
    var timeEntries: map<Id, TimeEntry>
    var clients: map<Id, Client>
    var projects: map<Id, Project>
    var nextInvoiceId: Id
    var nextItemId: Id
    var nextEntryId: Id
    var nextClientId: Id
    var nextProjectId: Id

    /** The tables and counters as one value. */
    function Snapshot(): Tables
      reads this
    {
      Tables(invoices, items, timeEntries, clients, projects,
             nextInvoiceId, nextItemId, nextEntryId, nextClientId, nextProjectId)
    }

    predicate Valid()
      reads this
    {
      Consistent(Snapshot())
    }

    /** An empty schema; every IDENTITY sequence starts at 1. */
    constructor ()
      ensures Valid()
      ensures invoices == map[] && items == map[] && timeEntries == map[] && clients == map[] && projects == map[]
      ensures nextInvoiceId == 1 && nextItemId == 1 && nextEntryId == 1 && nextClientId == 1 && nextProjectId == 1
    {
      invoices, items, timeEntries, clients, projects := map[], map[], map[], map[], map[];
      nextInvoiceId, nextItemId, nextEntryId, nextClientId, nextProjectId := 1, 1, 1, 1, 1;
    }

    /** `clientRepository.save(client)` for a new client. */
    method SaveClient(c: Client) returns (id: Id)
      requires Valid()
      modifies this
      ensures Valid()
      ensures id == old(nextClientId) && id !in old(clients)
      ensures clients == old(clients)[id := c] && nextClientId == id + 1
      ensures invoices == old(invoices) && items == old(items) && timeEntries == old(timeEntries) && projects == old(projects)
      ensures nextInvoiceId == old(nextInvoiceId) && nextItemId == old(nextItemId)
      ensures nextEntryId == old(nextEntryId) && nextProjectId == old(nextProjectId)
    {
      id := nextClientId;
      clients := clients[id := c];
      nextClientId := nextClientId + 1;
    }

    /** `projectRepository.save(project)` for a new project. */
    method SaveProject(p: Project) returns (id: Id)
      requires Valid()
      modifies this
      ensures Valid()
      ensures id == old(nextProjectId) && id !in old(projects)
      ensures projects == old(projects)[id := p] && nextProjectId == id + 1
      ensures invoices == old(invoices) && items == old(items) && timeEntries == old(timeEntries) && clients == old(clients)
      ensures nextInvoiceId == old(nextInvoiceId) && nextItemId == old(nextItemId)
      ensures nextEntryId == old(nextEntryId) && nextClientId == old(nextClientId)
    {
      id := nextProjectId;
      projects := projects[id := p];
      nextProjectId := nextProjectId + 1;
    }

    /** `timeEntryRepository.save(entry)` for a new entry. */
    method SaveTimeEntry(e: TimeEntry) returns (id: Id)
      requires Valid() && EntryLinked(e, invoices, clients, projects)
      modifies this
      ensures Valid()
      ensures id == old(nextEntryId) && id !in old(timeEntries)
      ensures timeEntries == old(timeEntries)[id := e] && nextEntryId == id + 1
      ensures invoices == old(invoices) && items == old(items) && clients == old(clients) && projects == old(projects)
      ensures nextInvoiceId == old(nextInvoiceId) && nextItemId == old(nextItemId)
      ensures nextClientId == old(nextClientId) && nextProjectId == old(nextProjectId)
    {
      ghost var t0 := Snapshot();
      id := nextEntryId;
      timeEntries := timeEntries[id := e];
      nextEntryId := nextEntryId + 1;
      EntryAddedConsistent(t0, e);
      ConsistentCarries(t0.(timeEntries := t0.timeEntries[t0.nextEntryId := e], nextEntryId := t0.nextEntryId + 1), Snapshot());
    }

    /** `timeEntryRepository.save(draft)` for a new entry, NOT NULL check
        included: a null `created_by` is refused with nothing written; any
        other draft is stored under the next id. */
    method InsertTimeEntry(d: EntryDraft) returns (r: Result<Id, Exception>)
      requires Valid()
      requires d.client in clients && (d.project.Some? ==> d.project.value in projects)
      requires d.invoice.Some? ==> d.invoice.value in invoices
      modifies this
      ensures Valid()
      ensures d.createdBy.None? ==> r == Failure(DataIntegrityViolation(CREATED_BY_COLUMN)) && unchanged(this)
      ensures d.createdBy.Some? ==>
        && r == Success(old(nextEntryId))
        && old(nextEntryId) !in old(timeEntries)
        && timeEntries == old(timeEntries)[old(nextEntryId) := CheckNotNull(d).value]
        && DraftOf(timeEntries[old(nextEntryId)]) == d
        && nextEntryId == old(nextEntryId) + 1
        && invoices == old(invoices) && items == old(items) && clients == old(clients) && projects == old(projects)
        && nextInvoiceId == old(nextInvoiceId) && nextItemId == old(nextItemId)
        && nextClientId == old(nextClientId) && nextProjectId == old(nextProjectId)
    {
      var row := CheckNotNull(d);
      if row.Failure? {
        return Failure(row.error);
      }
      var id := SaveTimeEntry(row.value);
      r := Success(id);
    }

    /** `itemRepository.saveAll(batch)`: each item saved in turn under the next id. */
    method SaveAllItems(batch: seq<InvoiceItem>)
      requires forall k :: k in items ==> k < nextItemId
      modifies this
      ensures nextItemId == old(nextItemId) + |batch|
      ensures Appended(items, old(items), batch, old(nextItemId))
      ensures invoices == old(invoices) && timeEntries == old(timeEntries) && clients == old(clients) && projects == old(projects)
      ensures nextInvoiceId == old(nextInvoiceId) && nextEntryId == old(nextEntryId)
      ensures nextClientId == old(nextClientId) && nextProjectId == old(nextProjectId)
    {
      items, nextItemId := SaveAll(items, nextItemId, batch);
    }
  }

  /** `saveAll(batch)` on an item table whose next IDENTITY value is `base`:
      each item is inserted in turn under the next id. */
  method SaveAll(before: map<Id, InvoiceItem>, base: Id, batch: seq<InvoiceItem>)
    returns (after: map<Id, InvoiceItem>, next: Id)
    requires forall k :: k in before ==> k < base
    ensures next == base + |batch|
    ensures Appended(after, before, batch, base)
  {
    after, next := before, base;
    for i := 0 to |batch|
      invariant next == base + i
      invariant Appended(after, before, batch[..i], base)
    {
      after := after[next := batch[i]];
      next := next + 1;
    }
    assert batch[..|batch|] == batch;
  }
}
