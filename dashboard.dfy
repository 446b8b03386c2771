/**
 * The dashboard (project/src/pages/Dashboard.tsx): the statistics effect and
 * the recent and upcoming invoice lists. Dates are compared through
 * `timeOf`, the caller's stand-in for `new Date(text).getTime()`.
 */
module Dashboard {
  import opened Types
  import Sorting
  import Storage

  /** The `stats` state record. */
  datatype Stats = Stats(
    totalRevenue: real,
    paidInvoices: nat,
    pendingAmount: real,
    overdueAmount: real,
    averageInvoice: real,
    invoiceCount: nat,
    clientCount: nat,
    productCount: nat)

  const InitialStats: Stats := Stats(0.0, 0, 0.0, 0.0, 0.0, 0, 0, 0)

  /** `invoices.filter(inv => inv.status === status)`, in list order. */
  function WithStatus(invoices: seq<Invoice>, status: Status): (r: seq<Invoice>)
    ensures |r| <= |invoices|
    ensures forall k :: 0 <= k < |r| ==> r[k].status == status
    ensures multiset(r) <= multiset(invoices)
  {
    if |invoices| == 0 then []
    else
      var last := invoices[|invoices| - 1];
      var front := invoices[..|invoices| - 1];
      assert invoices == front + [last];
      WithStatus(front, status) + (if last.status == status then [last] else [])
  }

  /** Every invoice with the status is kept, as often as it occurs. */
  lemma {:induction false} WithStatusComplete(invoices: seq<Invoice>, status: Status, x: Invoice)
    requires x.status == status
    ensures multiset(WithStatus(invoices, status))[x] == multiset(invoices)[x]
  {
    if |invoices| > 0 {
      var front := invoices[..|invoices| - 1];
      assert invoices == front + [invoices[|invoices| - 1]];
      WithStatusComplete(front, status, x);
    }
  }

  /** `reduce((sum, inv) => sum + inv.total, 0)`, left to right. */
  function SumOfTotals(invoices: seq<Invoice>): (r: real)
    ensures (forall i :: 0 <= i < |invoices| ==> invoices[i].total >= 0.0) ==> r >= 0.0
    ensures |invoices| == 1 ==> r == invoices[0].total
  {
    if |invoices| == 0 then 0.0
    else SumOfTotals(invoices[..|invoices| - 1]) + invoices[|invoices| - 1].total
  }

  /** `count > 0 ? total / count : 0`. */
  function Average(total: real, count: nat): (r: real)
    ensures count > 0 ==> r * (count as real) == total
    ensures count == 0 ==> r == 0.0
  {
    if count > 0 then total / (count as real) else 0.0
  }

  /** The mean of the invoice totals, times the number of invoices, is the grand total. */
  lemma AverageOfTotals(invoices: seq<Invoice>)
    ensures Average(SumOfTotals(invoices), |invoices|) * (|invoices| as real) == SumOfTotals(invoices)
  {
    if |invoices| == 0 {
      assert SumOfTotals(invoices) == 0.0;
    }
  }

  /** The branch of the effect that runs when there is at least one invoice. */
  function ComputeStats(invoices: seq<Invoice>, clientCount: nat, productCount: nat): (r: Stats)
    ensures r.invoiceCount == |invoices| && r.clientCount == clientCount && r.productCount == productCount
    ensures r.totalRevenue == SumOfTotals(WithStatus(invoices, Paid))
    ensures r.pendingAmount == SumOfTotals(WithStatus(invoices, Pending))
    ensures r.overdueAmount == SumOfTotals(WithStatus(invoices, Overdue))
    ensures r.paidInvoices == |WithStatus(invoices, Paid)| <= |invoices|
    ensures r.averageInvoice == Average(SumOfTotals(invoices), |invoices|)
  {
    var paid := WithStatus(invoices, Paid);
    var average := Average(SumOfTotals(invoices), |invoices|);
    Stats(SumOfTotals(paid), |paid|,
          SumOfTotals(WithStatus(invoices, Pending)), SumOfTotals(WithStatus(invoices, Overdue)),
          average, |invoices|, clientCount, productCount)
  }

  /** The effect as written: with no invoices the previous record stays, client and product counts included. */
  function RefreshStats(prev: Stats, invoices: seq<Invoice>, clients: seq<Client>, products: seq<Product>): (r: Stats)
    ensures |invoices| == 0 ==> r == prev
    ensures |invoices| > 0 ==> r == ComputeStats(invoices, |clients|, |products|)
  {
    if |invoices| > 0 then ComputeStats(invoices, |clients|, |products|) else prev
  }

  /**
   * On a fresh install there are demo clients and products but no invoices,
   * and the dashboard still reports 0 clients and 0 products.
   */
  lemma FreshInstallReportsNoClients()
    ensures var r := RefreshStats(InitialStats, [], Storage.DemoClients, Storage.DemoProducts);
      r.clientCount == 0 && |Storage.DemoClients| == 2 && r.productCount == 0 && |Storage.DemoProducts| == 3
  {
  }

  /** The effect with the counts always current: the amounts of no invoices are all 0. */
  function IntendedStats(invoices: seq<Invoice>, clients: seq<Client>, products: seq<Product>): (r: Stats)
    ensures r.clientCount == |clients| && r.productCount == |products| && r.invoiceCount == |invoices|
    ensures |invoices| > 0 ==> r == ComputeStats(invoices, |clients|, |products|)
    ensures |invoices| == 0 ==> r == InitialStats.(clientCount := |clients|, productCount := |products|)
  {
    ComputeStats(invoices, |clients|, |products|)
  }

  lemma SumOfTotalsSnoc(front: seq<Invoice>, last: Invoice)
    ensures SumOfTotals(front + [last]) == SumOfTotals(front) + last.total
  {
    assert (front + [last])[..|front|] == front;
  }

  /** One more invoice adds its total to the amount of its own status only. */
  lemma StatusSumSnoc(front: seq<Invoice>, last: Invoice, s: Status)
    ensures SumOfTotals(WithStatus(front + [last], s)) ==
            SumOfTotals(WithStatus(front, s)) + (if last.status == s then last.total else 0.0)
  {
    assert (front + [last])[..|front|] == front;
    var f := WithStatus(front, s);
    if last.status == s {
      SumOfTotalsSnoc(f, last);
    } else {
      assert f + [] == f;
    }
  }

  /** The increment one more invoice brings to the amount of status `s`. */
  function StatusSum(front: seq<Invoice>, last: Invoice, s: Status): (d: real)
    ensures SumOfTotals(WithStatus(front + [last], s)) == SumOfTotals(WithStatus(front, s)) + d
    ensures d == if last.status == s then last.total else 0.0
  {
    StatusSumSnoc(front, last, s);
    if last.status == s then last.total else 0.0
  }

  /** The increment one more invoice brings to the count of status `s`. */
  function StatusCount(front: seq<Invoice>, last: Invoice, s: Status): (d: nat)
    ensures |WithStatus(front + [last], s)| == |WithStatus(front, s)| + d
    ensures d == if last.status == s then 1 else 0
  {
    assert (front + [last])[..|front|] == front;
    if last.status == s then 1 else 0
  }

  /** Paid, pending, overdue and draft invoices split the list: their totals add up to the whole. */
  lemma {:induction false} StatusesPartition(invoices: seq<Invoice>)
    ensures SumOfTotals(WithStatus(invoices, Paid)) + SumOfTotals(WithStatus(invoices, Pending))
            + SumOfTotals(WithStatus(invoices, Overdue)) + SumOfTotals(WithStatus(invoices, Draft))
            == SumOfTotals(invoices)
  {
    if |invoices| > 0 {
      var front := invoices[..|invoices| - 1];
      var last := invoices[|invoices| - 1];
      assert invoices == front + [last];
      StatusesPartition(front);
      var paid, pending, overdue, draft := StatusSum(front, last, Paid), StatusSum(front, last, Pending),
                                          StatusSum(front, last, Overdue), StatusSum(front, last, Draft);
      SumOfTotalsSnoc(front, last);
      assert paid + pending + overdue + draft == last.total by {
        match last.status
        case Paid =>
        case Pending =>
        case Overdue =>
        case Draft =>
      }
    }
  }

  /** ... and their counts add up to the number of invoices. */
  lemma {:induction false} StatusCountsPartition(invoices: seq<Invoice>)
    ensures |WithStatus(invoices, Paid)| + |WithStatus(invoices, Pending)|
            + |WithStatus(invoices, Overdue)| + |WithStatus(invoices, Draft)| == |invoices|
  {
    if |invoices| > 0 {
      var front := invoices[..|invoices| - 1];
      var last := invoices[|invoices| - 1];
      assert invoices == front + [last];
      StatusCountsPartition(front);
      var paid, pending, overdue, draft := StatusCount(front, last, Paid), StatusCount(front, last, Pending),
                                          StatusCount(front, last, Overdue), StatusCount(front, last, Draft);
      assert paid + pending + overdue + draft == 1 by {
        match last.status
        case Paid =>
        case Pending =>
        case Overdue =>
        case Draft =>
      }
    }
  }

  /** A draft changes none of the three amounts. */
  lemma {:induction false} DraftsCountNowhere(invoices: seq<Invoice>, draft: Invoice)
    requires draft.status == Draft
    ensures WithStatus(invoices + [draft], Paid) == WithStatus(invoices, Paid)
    ensures WithStatus(invoices + [draft], Pending) == WithStatus(invoices, Pending)
    ensures WithStatus(invoices + [draft], Overdue) == WithStatus(invoices, Overdue)
  {
    assert (invoices + [draft])[..|invoices|] == invoices;
  }

  /** The creation time as a sort key, negated so that ascending means newest first. */
  function NewestFirst(timeOf: string -> int): Invoice -> int {
    (inv: Invoice) => -timeOf(inv.createdAt)
  }

  function DueFirst(timeOf: string -> int): Invoice -> int {
    (inv: Invoice) => timeOf(inv.dueDate)
  }

  /** `recentInvoices`: a sorted copy, newest `createdAt` first, cut to five. */
  function RecentInvoices(invoices: seq<Invoice>, timeOf: string -> int): (r: seq<Invoice>)
    ensures |r| == if |invoices| < 5 then |invoices| else 5
    ensures multiset(r) <= multiset(invoices)
    ensures forall i, j :: 0 <= i < j < |r| ==> timeOf(r[i].createdAt) >= timeOf(r[j].createdAt)
  {
    Sorting.TakeSorted(invoices, NewestFirst(timeOf), 5);
    Sorting.TakeFromSource(invoices, NewestFirst(timeOf), 5);
    Sorting.Take(Sorting.SortBy(invoices, NewestFirst(timeOf)), 5)
  }

  /** No invoice left out of the recent list is newer than one shown. */
  lemma RecentAreNewest(invoices: seq<Invoice>, timeOf: string -> int)
    ensures var t := Sorting.SortBy(invoices, NewestFirst(timeOf)); var r := RecentInvoices(invoices, timeOf);
      && multiset(r) + multiset(t[|r|..]) == multiset(invoices)
      && forall i, j :: 0 <= i < |r| && |r| <= j < |t| ==> timeOf(r[i].createdAt) >= timeOf(t[j].createdAt)
  {
    Sorting.TakeSmallest(invoices, NewestFirst(timeOf), 5);
  }

  function IsPending(inv: Invoice): bool { inv.status == Pending }

  /** `upcomingInvoices`: the pending invoices, earliest `dueDate` first, cut to five. */
  function UpcomingInvoices(invoices: seq<Invoice>, timeOf: string -> int): (r: seq<Invoice>)
    ensures |r| <= 5
    ensures multiset(r) <= multiset(invoices)
    ensures forall k :: 0 <= k < |r| ==> r[k].status == Pending
    ensures forall i, j :: 0 <= i < j < |r| ==> timeOf(r[i].dueDate) <= timeOf(r[j].dueDate)
    ensures |WithStatus(invoices, Pending)| <= 5 ==> multiset(r) == multiset(WithStatus(invoices, Pending))
  {
    var pending := WithStatus(invoices, Pending);
    var r := Sorting.Take(Sorting.SortBy(pending, DueFirst(timeOf)), 5);
    Sorting.TakeSorted(pending, DueFirst(timeOf), 5);
    Sorting.TakeFromSource(pending, DueFirst(timeOf), 5);
    Sorting.TakeAll(pending, DueFirst(timeOf), 5);
    Sorting.SubMultisetKeeps(r, pending, IsPending);
    r
  }

  /** No pending invoice left out of the upcoming list is due before one shown. */
  lemma UpcomingAreDueFirst(invoices: seq<Invoice>, timeOf: string -> int)
    ensures var t := Sorting.SortBy(WithStatus(invoices, Pending), DueFirst(timeOf));
      var r := UpcomingInvoices(invoices, timeOf);
      && multiset(r) + multiset(t[|r|..]) == multiset(WithStatus(invoices, Pending))
      && forall i, j :: 0 <= i < |r| && |r| <= j < |t| ==> timeOf(r[i].dueDate) <= timeOf(t[j].dueDate)
  {
    Sorting.TakeSmallest(WithStatus(invoices, Pending), DueFirst(timeOf), 5);
  }

  /** The dashboard's state. */
  class DashboardView {
    var stats: Stats

    constructor ()
      ensures stats == InitialStats
    {
      stats := InitialStats;
    }

    /** The statistics effect, run whenever the invoices, clients or products change. */
    method Refresh(invoices: seq<Invoice>, clients: seq<Client>, products: seq<Product>)
      modifies this
      ensures stats == RefreshStats(old(stats), invoices, clients, products)
    {
      if |invoices| > 0 {
        var paid := WithStatus(invoices, Paid);
        var total := SumOfTotals(invoices);
        stats := Stats(SumOfTotals(paid), |paid|,
                       SumOfTotals(WithStatus(invoices, Pending)), SumOfTotals(WithStatus(invoices, Overdue)),
                       total / (|invoices| as real), |invoices|, |clients|, |products|);
      }
    }
  }
}
