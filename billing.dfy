/** The invoice arithmetic both invoice services share: server-side subtotals,
    the total as a fold over item subtotals, request lines turned into items,
    time entries turned into items, and the generated invoice number. */
module Billing {
  import opened Wrappers
  import opened Text
  import opened Entities

  /** `hourlyRate.multiply(BigDecimal.valueOf(hours))`. */
  function Subtotal(hours: Int32, rate: Money): (r: Money)
    ensures hours == 0 ==> r == 0.0
    ensures hours >= 0 && rate >= 0.0 ==> r >= 0.0
  {
    rate * (hours as real)
  }

  /** An item whose stored subtotal is the server-computed one. */
  predicate WellPriced(item: InvoiceItem)
  {
    item.subTotal == Subtotal(item.hoursWorked, item.hourlyRate)
  }

  /** calculateTotalAmount: `reduce(ZERO, add)` over the subtotals, left to right. */
  function Total(items: seq<InvoiceItem>): (r: Money)
    ensures items == [] ==> r == 0.0
    ensures (forall i :: 0 <= i < |items| ==> items[i].subTotal >= 0.0) ==> r >= 0.0
  {
    SumUpTo(items, |items|)
  }

  /** The subtotals of the first `n` items, added left to right. */
  function SumUpTo(items: seq<InvoiceItem>, n: nat): (r: Money)
    requires n <= |items|
    ensures (forall i :: 0 <= i < n ==> items[i].subTotal >= 0.0) ==> r >= 0.0
  {
    if n == 0 then 0.0 else SumUpTo(items, n - 1) + items[n - 1].subTotal
  }

  /** The running sum depends on nothing but the subtotals it has passed. */
  lemma {:induction false} SumUpToSame(a: seq<InvoiceItem>, b: seq<InvoiceItem>, n: nat)
    requires n <= |a| && n <= |b|
    requires forall i :: 0 <= i < n ==> a[i].subTotal == b[i].subTotal
    ensures SumUpTo(a, n) == SumUpTo(b, n)
  {
    if n > 0 {
      SumUpToSame(a, b, n - 1);
    }
  }

  /** Running on past `a` into `b` adds `b`'s running sum to `a`'s total. */
  lemma {:induction false} SumAcross(a: seq<InvoiceItem>, b: seq<InvoiceItem>, j: nat)
    requires j <= |b|
    ensures SumUpTo(a + b, |a| + j) == Total(a) + SumUpTo(b, j)
  {
    if j == 0 {
      SumUpToSame(a + b, a, |a|);
    } else {
      SumAcross(a, b, j - 1);
      assert (a + b)[|a| + j - 1] == b[j - 1];
    }
  }

  /** Summing two lists of items one after the other gives the sum of both totals. */
  lemma TotalAppend(a: seq<InvoiceItem>, b: seq<InvoiceItem>)
    ensures Total(a + b) == Total(a) + Total(b)
  {
    SumAcross(a, b, |b|);
  }

  /** A single item's total is its subtotal. */
  lemma TotalSingle(x: InvoiceItem)
    ensures Total([x]) == x.subTotal
  {
    assert Total([x]) == SumUpTo([x], 0) + x.subTotal;
  }

  /** Adding one item to a list adds its subtotal to the total. */
  lemma TotalSnoc(items: seq<InvoiceItem>, x: InvoiceItem)
    ensures Total(items + [x]) == Total(items) + x.subTotal
  {
    SumUpToSame(items + [x], items, |items|);
  }

  /** The amount a request asks for, summed front to back: an independent
      reference for what the stored total must be. */
  function RequestAmount(reqs: seq<ItemRequest>): Money
  {
    if reqs == [] then 0.0 else Subtotal(reqs[0].hoursWorked, reqs[0].hourlyRate) + RequestAmount(reqs[1..])
  }

  /** mapToEntities: one item per request line, in order, attached to `invoice`,
      with the subtotal recomputed from rate and hours. */
  function MapToEntities(reqs: seq<ItemRequest>, invoice: Id): (r: seq<InvoiceItem>)
    ensures |r| == |reqs|
    ensures forall i :: 0 <= i < |r| ==>
      && r[i].description == reqs[i].description
      && r[i].hoursWorked == reqs[i].hoursWorked
      && r[i].hourlyRate == reqs[i].hourlyRate
      && r[i].invoice == invoice
      && r[i].timeEntry.None?
      && WellPriced(r[i])
  {
    seq(|reqs|, i requires 0 <= i < |reqs| =>
      InvoiceItem(reqs[i].description, reqs[i].hoursWorked, reqs[i].hourlyRate,
                  Subtotal(reqs[i].hoursWorked, reqs[i].hourlyRate), invoice, None))
  }

  /** Two requests that differ only in the subtotals the client sent. */
  predicate SameButSubtotals(a: seq<ItemRequest>, b: seq<ItemRequest>)
  {
    |a| == |b| &&
    forall i :: 0 <= i < |a| ==>
      a[i].description == b[i].description && a[i].hoursWorked == b[i].hoursWorked && a[i].hourlyRate == b[i].hourlyRate
  }

  /** The client's `subTotal` has no influence on the stored items. */
  lemma ClientSubtotalIgnored(a: seq<ItemRequest>, b: seq<ItemRequest>, invoice: Id)
    requires SameButSubtotals(a, b)
    ensures MapToEntities(a, invoice) == MapToEntities(b, invoice)
  {
  }

  /** The stored total of a request's items is the amount the request asks for
      at server prices; an empty request totals zero. */
  lemma {:induction false} RequestTotal(reqs: seq<ItemRequest>, invoice: Id)
    ensures Total(MapToEntities(reqs, invoice)) == RequestAmount(reqs)
    decreases |reqs|
  {
    if reqs != [] {
      var items := MapToEntities(reqs, invoice);
      assert items == MapToEntities(reqs[..1], invoice) + MapToEntities(reqs[1..], invoice);
      TotalAppend(MapToEntities(reqs[..1], invoice), MapToEntities(reqs[1..], invoice));
      var first := MapToEntities(reqs[..1], invoice);
      assert Total(first) == SumUpTo(first, 0) + first[0].subTotal;
      RequestTotal(reqs[1..], invoice);
    }
  }

  /** The item autoGenerateInvoiceFromUnbilled builds for time entry `id`. */
  function ItemFromEntry(id: Id, e: TimeEntry, invoice: Id): (item: InvoiceItem)
    ensures WellPriced(item) && item.timeEntry == Some(id) && item.invoice == invoice
    ensures item.description == e.description && item.hoursWorked == e.hours && item.hourlyRate == e.hourlyRate
  {
    InvoiceItem(e.description, e.hours, e.hourlyRate, Subtotal(e.hours, e.hourlyRate), invoice, Some(id))
  }

  /** The loop of autoGenerateInvoiceFromUnbilled, as a value: one item per
      selected entry, in the order the entries were selected. */
  function ItemsFromEntries(ids: seq<Id>, entries: map<Id, TimeEntry>, invoice: Id): (r: seq<InvoiceItem>)
    requires forall k :: k in ids ==> k in entries
    ensures |r| == |ids|
    ensures forall i :: 0 <= i < |r| ==> r[i] == ItemFromEntry(ids[i], entries[ids[i]], invoice)
  {
    seq(|ids|, i requires 0 <= i < |ids| => ItemFromEntry(ids[i], entries[ids[i]], invoice))
  }

  /** `"INV-" + year + "-" + String.format("%04d", count + 1)`. */
  function InvoiceNumber(year: int, count: nat): (r: string)
    ensures StartsWith(r, "INV-" + IntToString(year) + "-")
    ensures |r| >= |"INV-" + IntToString(year) + "-"| + 4
  {
    var prefix := "INV-" + IntToString(year) + "-";
    var digits := ZeroPad(NatToString(count + 1), 4);
    assert (prefix + digits)[..|prefix|] == prefix;
    prefix + digits
  }

  /** The number is the fixed prefix, the year, a dash, and at least four
      digits spelling `count + 1`. */
  lemma InvoiceNumberShape(year: int, count: nat)
    ensures var prefix := "INV-" + IntToString(year) + "-";
      var n := InvoiceNumber(year, count);
      && StartsWith(n, prefix)
      && |n| >= |prefix| + 4
      && AllDigits(n[|prefix|..])
      && DigitsValue(n[|prefix|..]) == count + 1
  {
    var prefix := "INV-" + IntToString(year) + "-";
    var n := InvoiceNumber(year, count);
    var digits := ZeroPad(NatToString(count + 1), 4);
    assert n == prefix + digits;
    assert n[|prefix|..] == digits;
    assert n[..|prefix|] == prefix;
    ZeroPadValue(NatToString(count + 1), 4);
    NatToStringRoundTrip(count + 1);
  }

  /** Within one year, different invoice counts give different numbers. */
  lemma InvoiceNumberInjective(year: int, c1: nat, c2: nat)
    requires InvoiceNumber(year, c1) == InvoiceNumber(year, c2)
    ensures c1 == c2
  {
    InvoiceNumberShape(year, c1);
    InvoiceNumberShape(year, c2);
  }

  /** The sum of the response lines' subtotals, front to back. */
  function LinesTotal(lines: seq<ItemView>): Money
  {
    if lines == [] then 0.0 else lines[0].subTotal + LinesTotal(lines[1..])
  }

  /** The response lines add up to the total of the items they show. */
  lemma {:induction false} LinesTotalIsTotal(items: seq<InvoiceItem>, lines: seq<ItemView>)
    requires |lines| == |items| && forall i :: 0 <= i < |items| ==> lines[i].subTotal == items[i].subTotal
    ensures LinesTotal(lines) == Total(items)
    decreases |items|
  {
    if items != [] {
      LinesTotalIsTotal(items[1..], lines[1..]);
      TotalAppend([items[0]], items[1..]);
      assert [items[0]] + items[1..] == items;
      TotalSingle(items[0]);
    }
  }
}
