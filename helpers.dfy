/**
 * The invoice calculator and the record generators (project/src/utils/helpers.ts).
 * Identifiers, the current date and the random draw are parameters.
 */
module Helpers {
  import opened Options
  import opened Types
  import opened Text

  /** The four amounts `calculateInvoice` returns. */
  datatype Totals = Totals(subtotal: real, taxAmount: real, discountAmount: real, total: real)

  /** `items.reduce((sum, item) => sum + item.total, 0)`: the line totals added left to right. */
  function SumTotals(items: seq<InvoiceItem>): (r: real)
    ensures (forall i :: 0 <= i < |items| ==> items[i].total >= 0.0) ==> r >= 0.0
    ensures |items| == 1 ==> r == items[0].total
  {
    if |items| == 0 then 0.0 else SumTotals(items[..|items| - 1]) + items[|items| - 1].total
  }

  /** `calculateInvoice(items, tax = 0, discount = 0)`; `tax` and `discount` are percentages. */
  function CalculateInvoice(items: seq<InvoiceItem>, tax: real := 0.0, discount: real := 0.0): (r: Totals)
    ensures r.subtotal == SumTotals(items)
    ensures 100.0 * r.total == r.subtotal * (100.0 + tax - discount)
  {
    var subtotal := SumTotals(items);
    var taxAmount := (subtotal * tax) / 100.0;
    var discountAmount := (subtotal * discount) / 100.0;
    Totals(subtotal, taxAmount, discountAmount, subtotal + taxAmount - discountAmount)
  }

  /** The stored amounts of an invoice. */
  function TotalsOf(inv: Invoice): Totals {
    Totals(inv.subtotal, inv.taxAmount, inv.discountAmount, inv.total)
  }

  /** The invariant the application keeps for a saved invoice: its amounts are those of its items and rates. */
  predicate TotalsConsistent(inv: Invoice) {
    TotalsOf(inv) == CalculateInvoice(inv.items, inv.tax, inv.discount)
  }

  /** A line item whose total is its quantity times its price. */
  predicate LineConsistent(item: InvoiceItem) {
    item.total == item.quantity * item.price
  }

  /** The independent reference sum: quantity times price over all lines. */
  function SumLineAmounts(items: seq<InvoiceItem>): real {
    if |items| == 0 then 0.0 else items[0].quantity * items[0].price + SumLineAmounts(items[1..])
  }

  lemma {:induction false} SumTotalsConcat(a: seq<InvoiceItem>, b: seq<InvoiceItem>)
    ensures SumTotals(a + b) == SumTotals(a) + SumTotals(b)
    decreases |b|
  {
    if |b| == 0 {
      assert a + b == a;
    } else {
      assert (a + b)[..|a + b| - 1] == a + b[..|b| - 1];
      SumTotalsConcat(a, b[..|b| - 1]);
    }
  }

  /** When every line total is quantity times price, the subtotal is the sum of quantity times price. */
  lemma {:induction false} SubtotalOfConsistentLines(items: seq<InvoiceItem>)
    requires forall k :: 0 <= k < |items| ==> LineConsistent(items[k])
    ensures CalculateInvoice(items).subtotal == SumLineAmounts(items)
  {
    if |items| > 0 {
      SubtotalOfConsistentLines(items[1..]);
      SumTotalsConcat([items[0]], items[1..]);
      assert [items[0]] + items[1..] == items;
      assert SumTotals([items[0]]) == items[0].total;
    }
  }

  /** The subtotal sums the `total` fields only: the quantity and price fields are not consulted. */
  lemma SubtotalIgnoresQuantityAndPrice(items: seq<InvoiceItem>, others: seq<InvoiceItem>)
    requires |items| == |others|
    requires forall k :: 0 <= k < |items| ==> items[k].total == others[k].total
    ensures CalculateInvoice(items).subtotal == CalculateInvoice(others).subtotal
  {
    SumTotalsSameTotals(items, others);
  }

  lemma {:induction false} SumTotalsSameTotals(items: seq<InvoiceItem>, others: seq<InvoiceItem>)
    requires |items| == |others|
    requires forall k :: 0 <= k < |items| ==> items[k].total == others[k].total
    ensures SumTotals(items) == SumTotals(others)
  {
    if |items| > 0 {
      SumTotalsSameTotals(items[..|items| - 1], others[..|others| - 1]);
    }
  }

  /** Adding a line adds its total to the subtotal. */
  lemma SubtotalAppend(items: seq<InvoiceItem>, item: InvoiceItem, tax: real, discount: real)
    ensures CalculateInvoice(items + [item], tax, discount).subtotal ==
            CalculateInvoice(items, tax, discount).subtotal + item.total
  {
    assert (items + [item])[..|items|] == items;
  }

  /** The four amounts satisfy the invoice's defining equations. */
  lemma CalculateInvoiceEquations(items: seq<InvoiceItem>, tax: real, discount: real)
    ensures var r := CalculateInvoice(items, tax, discount);
      && r.taxAmount == r.subtotal * tax / 100.0
      && r.discountAmount == r.subtotal * discount / 100.0
      && r.total == r.subtotal + r.taxAmount - r.discountAmount
  {
  }

  /** No items: all four amounts are zero, whatever the rates. */
  lemma CalculateEmpty(tax: real, discount: real)
    ensures CalculateInvoice([], tax, discount) == Totals(0.0, 0.0, 0.0, 0.0)
  {
  }

  /** With the default rates the total is the subtotal. */
  lemma CalculateDefaultRates(items: seq<InvoiceItem>)
    ensures var r := CalculateInvoice(items);
      r.taxAmount == 0.0 && r.discountAmount == 0.0 && r.total == r.subtotal
  {
  }

  /** With rates between 0 and 100 and a non-negative subtotal, no amount is negative or above the subtotal plus tax. */
  lemma CalculateBounds(items: seq<InvoiceItem>, tax: real, discount: real)
    requires 0.0 <= tax <= 100.0 && 0.0 <= discount <= 100.0
    requires SumTotals(items) >= 0.0
    ensures var r := CalculateInvoice(items, tax, discount);
      && 0.0 <= r.taxAmount <= r.subtotal
      && 0.0 <= r.discountAmount <= r.subtotal
      && 0.0 <= r.total <= 2.0 * r.subtotal
  {
    var st := SumTotals(items);
    MulNonNegative(st, tax);
    MulNonNegative(st, 100.0 - tax);
    MulNonNegative(st, discount);
    MulNonNegative(st, 100.0 - discount);
  }

  lemma MulNonNegative(a: real, b: real)
    requires 0.0 <= a && 0.0 <= b
    ensures 0.0 <= a * b
  {
  }

  /** One line of 2 x 100 at 10% tax and 5% discount: 200, 20, 10, 210. */
  lemma CalculateExample()
    ensures CalculateInvoice([InvoiceItem("i1", "p1", "", 2.0, 100.0, 200.0)], 10.0, 5.0) ==
            Totals(200.0, 20.0, 10.0, 210.0)
  {
    var items := [InvoiceItem("i1", "p1", "", 2.0, 100.0, 200.0)];
    assert items[..0] == [];
  }

  /** The random suffix: `Math.floor(random * 1000)` for a draw in [0, 1). */
  function RandomSuffixValue(random: real): (v: nat)
    requires 0.0 <= random < 1.0
    ensures v < 1000 && v as real <= random * 1000.0 < v as real + 1.0
  {
    (random * 1000.0).Floor as nat
  }

  /**
   * `generateInvoiceNumber()`: `INV-` + the year without its first two digits +
   * the 1-based month padded to 2 digits + `-` + the random suffix padded to 3 digits.
   * `monthIndex` is `getMonth()` (0 for January).
   */
  function GenerateInvoiceNumber(fullYear: nat, monthIndex: nat, random: real): (r: string)
    requires 0.0 <= random < 1.0
    ensures |r| >= 9 && r[..4] == "INV-"
  {
    var year := SliceFrom(NatToString(fullYear), 2);
    var month := PadStart(NatToString(monthIndex + 1), 2, '0');
    var suffix := PadStart(NatToString(RandomSuffixValue(random)), 3, '0');
    "INV-" + year + month + "-" + suffix
  }

  lemma {:induction false} FourDigits(n: nat)
    requires 1000 <= n < 10000
    ensures NatToString(n) == [DigitChar(n / 1000), DigitChar(n / 100 % 10), DigitChar(n / 10 % 10), DigitChar(n % 10)]
  {
    var a, b, c := n / 10, n / 100, n / 1000;
    assert a / 10 == b && b / 10 == c;
    assert a % 10 == n / 10 % 10 && b % 10 == n / 100 % 10;
    assert NatToString(c) == [DigitChar(n / 1000)];
    assert NatToString(b) == NatToString(c) + [DigitChar(b % 10)];
    assert NatToString(a) == NatToString(b) + [DigitChar(a % 10)];
    assert NatToString(n) == NatToString(a) + [DigitChar(n % 10)];
  }

  /** A number below 10^width, padded to `width`, is `width` digits long and reads back as itself. */
  lemma PaddedDigits(n: nat, width: nat)
    requires 0 < width && n < Pow10(width)
    ensures var p := PadStart(NatToString(n), width, '0');
      && |p| == width
      && (forall k :: 0 <= k < |p| ==> IsDigit(p[k]))
      && ParseDigits(p) == n
  {
    var s := NatToString(n);
    NatToStringLength(n, width);
    NatToStringRoundTrip(n);
    if |s| < width {
      ParseDigitsLeadingZeros(Repeat('0', width - |s|), s);
    }
  }

  /** The year part of a four-digit year is its last two digits. */
  lemma YearPart(fullYear: nat)
    requires 1000 <= fullYear <= 9999
    ensures var year := SliceFrom(NatToString(fullYear), 2);
      && |year| == 2
      && (forall k :: 0 <= k < 2 ==> IsDigit(year[k]))
      && ParseDigits(year) == fullYear % 100
  {
    FourDigits(fullYear);
    var d1, d0 := fullYear / 10 % 10, fullYear % 10;
    assert SliceFrom(NatToString(fullYear), 2) == [DigitChar(d1), DigitChar(d0)];
    TwoDigits(d1, d0);
    LastTwoDigits(fullYear);
  }

  lemma TwoDigits(d1: nat, d0: nat)
    requires d1 < 10 && d0 < 10
    ensures ParseDigits([DigitChar(d1), DigitChar(d0)]) == 10 * d1 + d0
  {
    var hi := [DigitChar(d1)];
    var s := hi + [DigitChar(d0)];
    assert s[..1] == hi;
    assert hi[..0] == [];
    DigitRoundTrip(d1);
    DigitRoundTrip(d0);
    assert ParseDigits(hi) == d1;
    assert ParseDigits(s) == 10 * ParseDigits(hi) + DigitValue(DigitChar(d0));
    assert [DigitChar(d1), DigitChar(d0)] == s;
  }

  lemma LastTwoDigits(n: nat)
    ensures 10 * (n / 10 % 10) + n % 10 == n % 100
  {
    var q := n / 100;
    var m := n % 100;
    assert n == 100 * q + m;
    assert n / 10 == 10 * q + m / 10;
    assert n / 10 % 10 == m / 10;
    assert n % 10 == m % 10;
  }

  lemma AssembleNumber(year: string, month: string, suffix: string)
    requires |year| == 2 && |month| == 2 && |suffix| == 3
    ensures var r := "INV-" + year + month + "-" + suffix;
      && |r| == 12 && r[..4] == "INV-" && r[8] == '-'
      && r[4..6] == year && r[6..8] == month && r[9..12] == suffix
  {
  }

  /**
   * For a four-digit year the invoice number is 12 characters, `INV-YYMM-RRR`,
   * and its three numeric fields read back as the year's last two digits, the
   * 1-based month and the random suffix.
   */
  lemma InvoiceNumberFormat(fullYear: nat, monthIndex: nat, random: real)
    requires 1000 <= fullYear <= 9999 && monthIndex < 12 && 0.0 <= random < 1.0
    ensures var r := GenerateInvoiceNumber(fullYear, monthIndex, random);
      && |r| == 12
      && r[..4] == "INV-" && r[8] == '-'
      && (forall k :: 4 <= k < 8 || 9 <= k < 12 ==> IsDigit(r[k]))
      && ParseDigits(r[4..6]) == fullYear % 100
      && ParseDigits(r[6..8]) == monthIndex + 1
      && ParseDigits(r[9..12]) == RandomSuffixValue(random)
  {
    var year := SliceFrom(NatToString(fullYear), 2);
    var month := PadStart(NatToString(monthIndex + 1), 2, '0');
    var v := RandomSuffixValue(random);
    var suffix := PadStart(NatToString(v), 3, '0');
    YearPart(fullYear);
    PaddedDigits(monthIndex + 1, 2);
    PaddedDigits(v, 3);
    AssembleNumber(year, month, suffix);
    var r := GenerateInvoiceNumber(fullYear, monthIndex, random);
    assert r == "INV-" + year + month + "-" + suffix;
    forall k | 4 <= k < 8 || 9 <= k < 12 ensures IsDigit(r[k]) {
      if k < 6 { assert r[k] == year[k - 4]; }
      else if k < 8 { assert r[k] == month[k - 6]; }
      else { assert r[k] == suffix[k - 9]; }
    }
  }

  /** `createEmptyInvoiceItem(productId = '', price = 0)`: one unit, no description, total equal to the price. */
  function CreateEmptyInvoiceItem(id: string, productId: string := "", price: real := 0.0): (r: InvoiceItem)
    ensures r.id == id && r.productId == productId && r.price == price
    ensures r.quantity == 1.0 && r.description == ""
    ensures LineConsistent(r)
  {
    InvoiceItem(id, productId, "", 1.0, price, price)
  }

  /**
   * `createEmptyInvoice()`: a draft with no client and no items whose amounts
   * are those of an empty item list. `today`, `dueDate` (30 days later) and
   * `createdAt` are the clock's readings.
   */
  function CreateEmptyInvoice(id: string, fullYear: nat, monthIndex: nat, random: real,
                              today: string, dueDate: string, createdAt: string): (r: Invoice)
    requires 0.0 <= random < 1.0
    ensures r.id == id && r.createdAt == createdAt
    ensures r.invoiceNumber == GenerateInvoiceNumber(fullYear, monthIndex, random)
    ensures r.status == Draft && r.items == [] && r.clientId == ""
    ensures r.issueDate == today && r.dueDate == dueDate && r.notes == None
    ensures r.tax == 0.0 && r.discount == 0.0
    ensures TotalsOf(r) == Totals(0.0, 0.0, 0.0, 0.0)
    ensures TotalsConsistent(r)
  {
    Invoice(id, GenerateInvoiceNumber(fullYear, monthIndex, random), "", today, dueDate, [],
            0.0, 0.0, 0.0, 0.0, 0.0, 0.0, None, Draft, createdAt)
  }
}
