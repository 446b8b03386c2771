/**
 * The invoice detail view (project/src/components/invoices/InvoiceDetail.tsx):
 * which status changes its buttons offer, the delete confirmation, and the
 * status and product labels.
 */
module InvoiceDetail {
  import opened Options
  import opened Types
  import Records
  import Text

  /** The status buttons in the header: `Mark as Pending` on a draft, `Mark as Paid` on a pending invoice. */
  function HeaderTargets(s: Status): (r: set<Status>)
    ensures s == Draft ==> r == {Pending}
    ensures s == Pending ==> r == {Paid}
    ensures s == Paid || s == Overdue ==> r == {}
  {
    match s
    case Draft => {Pending}
    case Pending => {Paid}
    case Paid => {}
    case Overdue => {}
  }

  /** The status buttons in the actions card; pending invoices can also be marked overdue there. */
  function ActionTargets(s: Status): (r: set<Status>)
    ensures s == Draft ==> r == {Pending}
    ensures s == Pending ==> r == {Paid, Overdue}
    ensures s == Paid || s == Overdue ==> r == {}
  {
    match s
    case Draft => {Pending}
    case Pending => {Paid, Overdue}
    case Paid => {}
    case Overdue => {}
  }

  /** Every status change the view offers, from either place. */
  function DetailTargets(s: Status): (r: set<Status>)
    ensures forall t :: t in r <==> t in HeaderTargets(s) || t in ActionTargets(s)
  {
    HeaderTargets(s) + ActionTargets(s)
  }

  /** The header offers nothing the actions card does not, so the card alone gives the view's offers. */
  lemma HeaderWithinActions(s: Status)
    ensures HeaderTargets(s) <= ActionTargets(s)
    ensures DetailTargets(s) == ActionTargets(s)
  {
  }

  /**
   * `getStatusText`: the label next to the status icon, the capitalised
   * status name, with "Payment" added for a pending invoice.
   */
  function GetStatusText(s: Status): (r: string)
    ensures |r| > 0
    ensures s != Pending ==> r == Text.Capitalize(StatusName(s))
    ensures s == Pending ==> r == Text.Capitalize(StatusName(s)) + " Payment"
  {
    match s
    case Draft => "Draft"
    case Pending => "Pending Payment"
    case Paid => "Paid"
    case Overdue => "Overdue"
  }

  /** The four statuses have four different labels. */
  lemma StatusTextDistinct(s: Status, t: Status)
    requires s != t
    ensures GetStatusText(s) != GetStatusText(t)
  {
    match s
    case Draft => assert GetStatusText(s)[0] == 'D';
    case Pending => assert GetStatusText(s)[0] == 'P' && |GetStatusText(s)| == 15;
    case Paid => assert GetStatusText(s)[..3] == "Pai";
    case Overdue => assert GetStatusText(s)[0] == 'O';
  }

  /** `getProductName`: the name of the first product with that id, else `'Unknown Product'`. */
  function GetProductName(products: seq<Product>, productId: string): (r: string)
    ensures !Records.HasId(products, ProductId, productId) ==> r == "Unknown Product"
    ensures Records.HasId(products, ProductId, productId) ==>
              exists i :: 0 <= i < |products| && products[i].id == productId && r == products[i].name &&
                          forall j :: 0 <= j < i ==> products[j].id != productId
  {
    var found := Records.FindFirst(products, ProductId, productId);
    if found.Some? then found.value.name else "Unknown Product"
  }

  /** The detail view's state: the invoice it shows and whether the delete dialog is open. */
  class InvoiceDetailView {
    const invoice: Invoice
    var isDeleteModalOpen: bool

    constructor (invoice: Invoice)
      ensures this.invoice == invoice && !isDeleteModalOpen
    {
      this.invoice := invoice;
      isDeleteModalOpen := false;
    }

    /** A status button: `onUpdateStatus(invoice.id, target)` if the view shows that button, nothing otherwise. */
    method RequestStatus(target: Status) returns (request: Option<(string, Status)>)
      ensures request.Some? <==> target in DetailTargets(invoice.status)
      ensures request.Some? ==> request.value == (invoice.id, target)
    {
      if target in DetailTargets(invoice.status) {
        request := Some((invoice.id, target));
      } else {
        request := None;
      }
    }

    /** `Delete Invoice` in the actions card, shown whatever the status: open the dialog. */
    method OpenDeleteModal()
      modifies this
      ensures isDeleteModalOpen
    {
      isDeleteModalOpen := true;
    }

    /** `Cancel`, or closing the dialog. */
    method CancelDelete()
      modifies this
      ensures !isDeleteModalOpen
    {
      isDeleteModalOpen := false;
    }

    /**
     * The dialog's `Delete Invoice` button: `onDelete(invoice.id)`, then close.
     * The button exists only while the dialog is open.
     */
    method ConfirmDelete() returns (deleted: Option<string>)
      modifies this
      ensures old(isDeleteModalOpen) ==> deleted == Some(invoice.id)
      ensures !old(isDeleteModalOpen) ==> deleted == None
      ensures !isDeleteModalOpen
    {
      if isDeleteModalOpen {
        deleted := Some(invoice.id);
        isDeleteModalOpen := false;
      } else {
        deleted := None;
      }
    }
  }
}
