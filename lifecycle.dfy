/**
 * The invoice status machine: the moves the detail view and the list view
 * offer together, and what follows from them. Editing is the one way back,
 * since a submitted edit is always saved as `draft` or `pending`.
 */
module Lifecycle {
  import opened Types
  import InvoiceDetail
  import InvoicesList
  import InvoiceForm

  /** A status change some view offers. */
  predicate Offered(from: Status, to: Status) {
    to in InvoiceDetail.DetailTargets(from) || to in InvoicesList.ListTargets(from)
  }

  /** All offered moves out of a status. */
  function Targets(s: Status): (r: set<Status>)
    ensures forall t :: t in r <==> Offered(s, t)
  {
    InvoiceDetail.DetailTargets(s) + InvoicesList.ListTargets(s)
  }

  /** The machine: draft to pending or overdue, pending to paid or overdue, nothing out of paid or overdue. */
  lemma Moves()
    ensures Targets(Draft) == {Pending, Overdue}
    ensures Targets(Pending) == {Paid, Overdue}
    ensures Targets(Paid) == {} && Targets(Overdue) == {}
  {
  }

  /** The list's menu offers every move the detail view does, and draft to overdue besides. */
  lemma ListOffersEveryMove(s: Status)
    ensures InvoiceDetail.DetailTargets(s) <= InvoicesList.ListTargets(s)
    ensures Targets(s) == InvoicesList.ListTargets(s)
    ensures Overdue in InvoicesList.ListTargets(Draft) && Overdue !in InvoiceDetail.DetailTargets(Draft)
  {
  }

  /** How far along an invoice is; paid and overdue are both final. */
  function Rank(s: Status): (n: nat)
    ensures n <= 2
    ensures n == 2 <==> s == Paid || s == Overdue
  {
    match s
    case Draft => 0
    case Pending => 1
    case Paid => 2
    case Overdue => 2
  }

  /** Every offered move goes forward. */
  lemma OfferedMovesForward(from: Status, to: Status)
    requires Offered(from, to)
    ensures Rank(from) < Rank(to)
    ensures from != to && to != Draft
  {
  }

  /** A status is final exactly when no move out of it is offered. */
  lemma FinalIffNoMoves(s: Status)
    ensures Targets(s) == {} <==> s == Paid || s == Overdue
  {
    if s == Draft { assert Pending in Targets(s); }
    if s == Pending { assert Paid in Targets(s); }
  }

  /** A sequence of statuses in which each step is an offered move. */
  predicate ValidPath(p: seq<Status>) {
    forall i :: 0 <= i < |p| - 1 ==> Offered(p[i], p[i + 1])
  }

  /** Along a valid path the rank grows by at least one per step. */
  lemma {:induction false} PathClimbs(p: seq<Status>)
    requires |p| > 0 && ValidPath(p)
    ensures Rank(p[0]) + |p| - 1 <= Rank(p[|p| - 1])
  {
    if |p| > 1 {
      var q := p[..|p| - 1];
      assert ValidPath(q) by {
        forall i | 0 <= i < |q| - 1 ensures Offered(q[i], q[i + 1]) {
          assert q[i] == p[i] && q[i + 1] == p[i + 1];
        }
      }
      PathClimbs(q);
      OfferedMovesForward(p[|p| - 2], p[|p| - 1]);
    }
  }

  /** Through the views alone an invoice changes status at most twice and never returns to a status it had. */
  lemma {:induction false} PathsAreShort(p: seq<Status>)
    requires ValidPath(p)
    ensures |p| <= 3
    ensures forall i, j :: 0 <= i < j < |p| ==> Rank(p[i]) < Rank(p[j])
  {
    if |p| > 0 {
      PathClimbs(p);
    }
    forall i, j | 0 <= i < j < |p| ensures Rank(p[i]) < Rank(p[j]) {
      var q := p[i..j + 1];
      assert ValidPath(q) by {
        forall k | 0 <= k < |q| - 1 ensures Offered(q[k], q[k + 1]) {
          assert q[k] == p[i + k] && q[k + 1] == p[i + k + 1];
        }
      }
      PathClimbs(q);
    }
  }

  /** Both final statuses can be reached from a draft. */
  lemma FinalStatusesReachable()
    ensures ValidPath([Draft, Pending, Paid])
    ensures ValidPath([Draft, Pending, Overdue])
    ensures ValidPath([Draft, Overdue])
  {
    assert Offered(Draft, Pending) && Offered(Pending, Paid) && Offered(Pending, Overdue) && Offered(Draft, Overdue);
  }

  /**
   * Submitting an edit of a paid or overdue invoice stores it as pending (or
   * draft), a move no view offers.
   */
  lemma EditReopensFinalInvoice(d: InvoiceData, saveAsDraft: bool)
    requires d.status == Paid || d.status == Overdue
    requires d.clientId != "" && |d.items| > 0
    ensures var r := InvoiceForm.Submission(d, saveAsDraft);
      r.Some? && Rank(r.value.status) < Rank(d.status) && !Offered(d.status, r.value.status)
  {
  }
}
