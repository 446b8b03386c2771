/**
 * The invoice list (src/components/invoices/InvoicesList.tsx): the per-row
 * status menu, the delete confirmation with its selected invoice, and the
 * client name and status badge shown on each row.
 */
module InvoicesList {
  import opened Options
  import opened Types
  import opened Text
  import Records

  /** The row menu's status entries: drafts and pending invoices can be marked overdue, drafts pending, pending ones paid. */
  function ListTargets(s: Status): (r: set<Status>)
    ensures s == Draft ==> r == {Pending, Overdue}
    ensures s == Pending ==> r == {Paid, Overdue}
    ensures s == Paid || s == Overdue ==> r == {}
  {
    match s
    case Draft => {Pending, Overdue}
    case Pending => {Paid, Overdue}
    case Paid => {}
    case Overdue => {}
  }

  /** `handleStatusChange(invoice, status)`: the pair handed to `onUpdateInvoiceStatus`. */
  function StatusRequest(invoice: Invoice, status: Status): (r: (string, Status))
    ensures r.0 == invoice.id && r.1 == status
  {
    (invoice.id, status)
  }

  /** `getClientName`: the name of the first client with that id, else `'Unknown Client'`. */
  function GetClientName(clients: seq<Client>, clientId: string): (r: string)
    ensures !Records.HasId(clients, ClientId, clientId) ==> r == "Unknown Client"
    ensures Records.HasId(clients, ClientId, clientId) ==>
              exists i :: 0 <= i < |clients| && clients[i].id == clientId && r == clients[i].name &&
                          forall j :: 0 <= j < i ==> clients[j].id != clientId
  {
    var found := Records.FindFirst(clients, ClientId, clientId);
    if found.Some? then found.value.name else "Unknown Client"
  }

  /** The badge text: `status.charAt(0).toUpperCase() + status.slice(1)`. */
  function BadgeLabel(s: Status): (r: string)
    ensures |r| == |StatusName(s)| && r[1..] == StatusName(s)[1..]
    ensures r[0] == UpperChar(StatusName(s)[0])
  {
    Capitalize(StatusName(s))
  }

  /** The four badges read `Draft`, `Pending`, `Paid`, `Overdue`. */
  lemma BadgeLabels()
    ensures BadgeLabel(Draft) == "Draft" && BadgeLabel(Pending) == "Pending"
    ensures BadgeLabel(Paid) == "Paid" && BadgeLabel(Overdue) == "Overdue"
  {
    assert BadgeLabel(Draft) == [UpperChar('d')] + "raft";
    assert BadgeLabel(Pending) == [UpperChar('p')] + "ending";
    assert BadgeLabel(Paid) == [UpperChar('p')] + "aid";
    assert BadgeLabel(Overdue) == [UpperChar('o')] + "verdue";
  }

  /** The list view's state. */
  class InvoicesListView {
    var isDeleteModalOpen: bool
    var selectedInvoice: Option<Invoice>

    constructor ()
      ensures !isDeleteModalOpen && selectedInvoice == None
    {
      isDeleteModalOpen := false;
      selectedInvoice := None;
    }

    /** A row's status entry: forwarded only when the row's menu shows it. */
    method RequestStatus(invoice: Invoice, target: Status) returns (request: Option<(string, Status)>)
      ensures request.Some? <==> target in ListTargets(invoice.status)
      ensures request.Some? ==> request.value == StatusRequest(invoice, target)
    {
      if target in ListTargets(invoice.status) {
        request := Some(StatusRequest(invoice, target));
      } else {
        request := None;
      }
    }

    /** `handleDeleteClick(invoice)`, on every row whatever its status: select it and open the dialog. */
    method HandleDeleteClick(invoice: Invoice)
      modifies this
      ensures selectedInvoice == Some(invoice) && isDeleteModalOpen
    {
      selectedInvoice := Some(invoice);
      isDeleteModalOpen := true;
    }

    /** `Cancel`, or closing the dialog; the selection stays. */
    method CloseModal()
      modifies this
      ensures !isDeleteModalOpen && selectedInvoice == old(selectedInvoice)
    {
      isDeleteModalOpen := false;
    }

    /**
     * `handleDeleteInvoice`: with a selection, `onDeleteInvoice(selected.id)`
     * and close the dialog; without one, nothing happens. The selection is
     * not cleared.
     */
    method HandleDeleteInvoice() returns (deleted: Option<string>)
      modifies this
      ensures old(selectedInvoice).Some? ==> deleted == Some(old(selectedInvoice).value.id) && !isDeleteModalOpen
      ensures old(selectedInvoice).None? ==> deleted == None && isDeleteModalOpen == old(isDeleteModalOpen)
      ensures selectedInvoice == old(selectedInvoice)
    {
      if selectedInvoice.Some? {
        deleted := Some(selectedInvoice.value.id);
        isDeleteModalOpen := false;
      } else {
        deleted := None;
      }
    }
  }
}
