/**
 * The invoice collection (project/src/context/InvoiceContext.tsx): the list
 * held in memory, mirrored to storage after every change.
 */
module InvoiceContext {
  import opened Options
  import opened Types
  import opened Helpers
  import opened Storage
  import Records

  /** `Partial<Invoice>`: `Some` fields overwrite, `None` fields keep the record's value. */
  datatype InvoicePatch = InvoicePatch(
    id: Option<string>,
    invoiceNumber: Option<string>,
    clientId: Option<string>,
    issueDate: Option<string>,
    dueDate: Option<string>,
    items: Option<seq<InvoiceItem>>,
    tax: Option<real>,
    discount: Option<real>,
    subtotal: Option<real>,
    taxAmount: Option<real>,
    discountAmount: Option<real>,
    total: Option<real>,
    notes: Option<string>,
    status: Option<Status>,
    createdAt: Option<string>)

  const EmptyPatch: InvoicePatch :=
    InvoicePatch(None, None, None, None, None, None, None, None, None, None, None, None, None, None, None)

  /** `{ status }`, the patch a status action sends. */
  function StatusPatch(s: Status): InvoicePatch {
    EmptyPatch.(status := Some(s))
  }

  /** `{ ...formData, createdAt }`, the patch the edit page sends to keep the creation time. */
  function EditPatch(d: InvoiceData, createdAt: string): InvoicePatch {
    InvoicePatch(None, Some(d.invoiceNumber), Some(d.clientId), Some(d.issueDate), Some(d.dueDate),
                 Some(d.items), Some(d.tax), Some(d.discount), Some(d.subtotal), Some(d.taxAmount),
                 Some(d.discountAmount), Some(d.total), d.notes, Some(d.status), Some(createdAt))
  }

  /** `{ ...invoice, ...patch }`. */
  function Merge(inv: Invoice, p: InvoicePatch): Invoice {
    Invoice(p.id.GetOr(inv.id), p.invoiceNumber.GetOr(inv.invoiceNumber), p.clientId.GetOr(inv.clientId),
            p.issueDate.GetOr(inv.issueDate), p.dueDate.GetOr(inv.dueDate), p.items.GetOr(inv.items),
            p.tax.GetOr(inv.tax), p.discount.GetOr(inv.discount), p.subtotal.GetOr(inv.subtotal),
            p.taxAmount.GetOr(inv.taxAmount), p.discountAmount.GetOr(inv.discountAmount),
            p.total.GetOr(inv.total), if p.notes.Some? then p.notes else inv.notes,
            p.status.GetOr(inv.status), p.createdAt.GetOr(inv.createdAt))
  }

  /** The merge as a function value, for the list update. */
  function MergeWith(p: InvoicePatch): Invoice -> Invoice {
    inv => Merge(inv, p)
  }

  /** An empty patch changes nothing. */
  lemma MergeEmpty(inv: Invoice)
    ensures Merge(inv, EmptyPatch) == inv
  {
  }

  /** A status patch changes the status and nothing else. */
  lemma MergeStatus(inv: Invoice, s: Status)
    ensures Merge(inv, StatusPatch(s)) == inv.(status := s)
  {
  }

  /** An edit keeps the id, takes the given creation time, and replaces all the data (notes only when given). */
  lemma MergeEdit(inv: Invoice, d: InvoiceData, createdAt: string)
    ensures Merge(inv, EditPatch(d, createdAt)) ==
            NewInvoice(inv.id, createdAt, d.(notes := if d.notes.Some? then d.notes else inv.notes))
  {
  }

  /** `recalculateInvoice(items, tax = 0, discount = 0)` is `calculateInvoice` with the same defaults. */
  function RecalculateInvoice(items: seq<InvoiceItem>, tax: real := 0.0, discount: real := 0.0): (r: Totals)
    ensures r == CalculateInvoice(items, tax, discount)
    ensures r.subtotal == SumTotals(items)
    ensures r.taxAmount == r.subtotal * tax / 100.0 && r.discountAmount == r.subtotal * discount / 100.0
    ensures 100.0 * r.total == r.subtotal * (100.0 + tax - discount)
  {
    CalculateInvoice(items, tax, discount)
  }

  /** The invoice provider's state. */
  class InvoiceStore {
    var invoices: seq<Invoice>
    const storage: LocalStorage

    /** The list in memory is the list in storage. */
    ghost predicate Synced()
      reads this, storage
    {
      storage.GetInvoices() == invoices
    }

    /** `useState([])`: nothing loaded yet. */
    constructor (storage: LocalStorage)
      ensures this.storage == storage && invoices == []
    {
      this.storage := storage;
      invoices := [];
    }

    /** The mount effect: `setInvoices(getInvoices())`. */
    method Load()
      modifies this
      ensures invoices == storage.GetInvoices() && Synced()
    {
      invoices := storage.GetInvoices();
    }

    /** `getInvoiceById(id)`: the first invoice in memory with that id. */
    function GetInvoiceById(id: string): (r: Option<Invoice>)
      reads this
      ensures r.None? <==> !Records.HasId(invoices, InvoiceId, id)
      ensures r.Some? ==> Records.FirstWithId(invoices, InvoiceId, id, r.value)
      ensures r.Some? ==> r.value in invoices && r.value.id == id
    {
      Records.FindFirst(invoices, InvoiceId, id)
    }

    /** `addInvoice(invoice)`: append `{ id, createdAt, ...invoice }`, persist, return its id. */
    method AddInvoice(data: InvoiceData, newId: string, createdAt: string) returns (id: string)
      modifies this, storage
      ensures invoices == old(invoices) + [NewInvoice(newId, createdAt, data)]
      ensures id == newId && invoices[|invoices| - 1].id == id
      ensures storage.items == old(storage.items)[InvoicesKey := InvoiceList(invoices)]
      ensures Synced()
    {
      var inv := NewInvoice(newId, createdAt, data);
      var updated := invoices + [inv];
      invoices := updated;
      storage.SaveInvoices(updated);
      id := inv.id;
    }

    /** `updateInvoice(id, fields)`: merge the fields into every invoice with that id, persist. */
    method UpdateInvoice(id: string, patch: InvoicePatch)
      modifies this, storage
      ensures invoices == Records.UpdateWhere(old(invoices), InvoiceId, id, MergeWith(patch))
      ensures storage.items == old(storage.items)[InvoicesKey := InvoiceList(invoices)]
      ensures Synced()
    {
      var updated := Records.UpdateWhere(invoices, InvoiceId, id, MergeWith(patch));
      invoices := updated;
      storage.SaveInvoices(updated);
    }

    /** `updateInvoice(id, { status })`, as the list and detail pages call it. */
    method UpdateStatus(id: string, status: Status)
      modifies this, storage
      ensures |invoices| == |old(invoices)|
      ensures forall k :: 0 <= k < |invoices| ==>
                invoices[k] == if old(invoices)[k].id == id then old(invoices)[k].(status := status) else old(invoices)[k]
      ensures storage.items == old(storage.items)[InvoicesKey := InvoiceList(invoices)]
      ensures Synced()
    {
      UpdateInvoice(id, StatusPatch(status));
    }

    /** `deleteInvoice(id)`: drop every invoice with that id, persist. */
    method DeleteInvoice(id: string)
      modifies this, storage
      ensures invoices == Records.RemoveId(old(invoices), InvoiceId, id)
      ensures storage.items == old(storage.items)[InvoicesKey := InvoiceList(invoices)]
      ensures Synced()
    {
      var updated := Records.RemoveId(invoices, InvoiceId, id);
      invoices := updated;
      storage.SaveInvoices(updated);
    }
  }

  /** After a status change the invoice found for that id is the old one with the new status. */
  lemma FindAfterStatusChange(s: seq<Invoice>, id: string, status: Status)
    ensures Records.FindFirst(Records.UpdateWhere(s, InvoiceId, id, MergeWith(StatusPatch(status))), InvoiceId, id) ==
            match Records.FindFirst(s, InvoiceId, id) case None => None case Some(x) => Some(x.(status := status))
  {
    Records.FindAfterUpdate(s, InvoiceId, id, MergeWith(StatusPatch(status)));
  }

  /**
   * Status changes draft to pending to paid, then deletion: the invoice ends
   * up paid and is then gone, and the other invoices are untouched throughout.
   */
  lemma {:induction false} PayThenDelete(s: seq<Invoice>, id: string)
    requires Records.FindFirst(s, InvoiceId, id).Some?
    ensures var s1 := Records.UpdateWhere(s, InvoiceId, id, MergeWith(StatusPatch(Pending)));
      var s2 := Records.UpdateWhere(s1, InvoiceId, id, MergeWith(StatusPatch(Paid)));
      var s3 := Records.RemoveId(s2, InvoiceId, id);
      && Records.FindFirst(s2, InvoiceId, id) == Some(Records.FindFirst(s, InvoiceId, id).value.(status := Paid))
      && Records.FindFirst(s3, InvoiceId, id) == None
      && s3 == Records.RemoveId(s, InvoiceId, id)
  {
    var s1 := Records.UpdateWhere(s, InvoiceId, id, MergeWith(StatusPatch(Pending)));
    var s2 := Records.UpdateWhere(s1, InvoiceId, id, MergeWith(StatusPatch(Paid)));
    FindAfterStatusChange(s, id, Pending);
    FindAfterStatusChange(s1, id, Paid);
    Records.RemoveAfterUpdate(s, InvoiceId, id, MergeWith(StatusPatch(Pending)));
    Records.RemoveAfterUpdate(s1, InvoiceId, id, MergeWith(StatusPatch(Paid)));
  }
}
