/**
 * The invoice form (project/src/components/invoices/InvoiceForm.tsx): the
 * edited invoice data, its two error messages, the line-item handlers, the
 * totals recomputation and the submit decision.
 */
module InvoiceForm {
  import opened Options
  import opened Types
  import opened Text
  import opened Helpers
  import InvoiceContext
  import Records

  const ClientRequired: string := "Please select a client"
  const ItemsRequired: string := "Please add at least one item"

  /** The four amounts the form holds. */
  function AmountsOf(d: InvoiceData): Totals {
    Totals(d.subtotal, d.taxAmount, d.discountAmount, d.total)
  }

  /** The form's amounts are what `recalculateInvoice` gives for its items and rates. */
  predicate Recalculated(d: InvoiceData) {
    AmountsOf(d) == InvoiceContext.RecalculateInvoice(d.items, d.tax, d.discount)
  }

  /** Every line's total is its quantity times its price. */
  predicate AllLinesConsistent(items: seq<InvoiceItem>) {
    forall i :: 0 <= i < |items| ==> LineConsistent(items[i])
  }

  /** The initial `formData`: today's issue date, everything else empty, a draft. */
  function InitialData(today: string): (d: InvoiceData)
    ensures d.status == Draft && d.items == [] && d.clientId == "" && d.invoiceNumber == ""
    ensures d.issueDate == today && d.dueDate == "" && d.notes == Some("")
    ensures d.tax == 0.0 && d.discount == 0.0
    ensures Recalculated(d)
  {
    InvoiceData("", "", today, "", [], 0.0, 0.0, 0.0, 0.0, 0.0, 0.0, Some(""), Draft)
  }

  /** The edit prefill: every field copied from the invoice, missing notes as `''`. */
  function PrefillData(inv: Invoice): (d: InvoiceData)
    ensures d.notes == Some(inv.notes.GetOr(""))
    ensures d.(notes := inv.notes) == DataOf(inv)
  {
    DataOf(inv).(notes := Some(inv.notes.GetOr("")))
  }

  /** The recalculation effect: the amounts are replaced by those of the items and rates, nothing else changes. */
  function WithTotals(d: InvoiceData): (r: InvoiceData)
    ensures Recalculated(r)
    ensures r.(subtotal := d.subtotal, taxAmount := d.taxAmount, discountAmount := d.discountAmount, total := d.total) == d
  {
    var t := InvoiceContext.RecalculateInvoice(d.items, d.tax, d.discount);
    d.(subtotal := t.subtotal, taxAmount := t.taxAmount, discountAmount := t.discountAmount, total := t.total)
  }

  /** The prefill effect's update, built from the `formData` of the render it runs after. */
  function PrefillUpdate(rendered: InvoiceData, invoice: Option<Invoice>, dueDate: string): (r: InvoiceData)
    ensures invoice.Some? ==> r == PrefillData(invoice.value)
    ensures invoice.None? ==> r == rendered.(dueDate := dueDate)
  {
    if invoice.Some? then PrefillData(invoice.value) else rendered.(dueDate := dueDate)
  }

  /**
   * The two mount effects as written. Each calls `setFormData` with a value
   * built from the first render's `formData`, and the updates are applied in
   * order, so the recalculation's value replaces the prefill's.
   */
  function MountAsWritten(rendered: InvoiceData, invoice: Option<Invoice>, dueDate: string): (r: InvoiceData)
    ensures r.items == rendered.items && r.clientId == rendered.clientId
    ensures r.invoiceNumber == rendered.invoiceNumber && r.dueDate == rendered.dueDate
    ensures Recalculated(r)
  {
    var updates := [PrefillUpdate(rendered, invoice, dueDate), WithTotals(rendered)];
    updates[|updates| - 1]
  }

  /** Opening an invoice with a client for editing: after mounting, the form has lost the client. */
  lemma EditMountLosesInvoice(today: string, inv: Invoice, dueDate: string)
    requires inv.clientId != ""
    ensures MountAsWritten(InitialData(today), Some(inv), dueDate).clientId == ""
    ensures MountAsWritten(InitialData(today), Some(inv), dueDate) != MountIntended(InitialData(today), Some(inv), dueDate)
  {
  }

  /** The mount effects with functional updates: the totals are recomputed on top of the prefill. */
  function MountIntended(rendered: InvoiceData, invoice: Option<Invoice>, dueDate: string): (r: InvoiceData)
    ensures invoice.Some? ==> r.(notes := invoice.value.notes, subtotal := invoice.value.subtotal,
                                 taxAmount := invoice.value.taxAmount, discountAmount := invoice.value.discountAmount,
                                 total := invoice.value.total) == DataOf(invoice.value)
    ensures invoice.None? ==> r.dueDate == dueDate && r.items == rendered.items && r.clientId == rendered.clientId
    ensures Recalculated(r)
  {
    WithTotals(PrefillUpdate(rendered, invoice, dueDate))
  }

  /** Recalculating amounts that are already fresh changes nothing. */
  lemma WithTotalsFresh(d: InvoiceData)
    requires Recalculated(d)
    ensures WithTotals(d) == d
  {
  }

  /** The inputs wired to `handleGeneralChange`, by their `name` attribute. */
  datatype Field = ClientIdField | InvoiceNumberField | IssueDateField | DueDateField | NotesField | TaxField | DiscountField

  /**
   * `handleGeneralChange`: a rate field takes `parseFloat(value) || 0`, any
   * other field takes the text as typed. Exactly one field changes.
   */
  function GeneralChange(d: InvoiceData, field: Field, value: string, parsed: Option<real>): (r: InvoiceData)
    ensures r.items == d.items && r.status == d.status && AmountsOf(r) == AmountsOf(d)
    ensures field == TaxField ==> r == d.(tax := NumberOrZero(parsed))
    ensures field == DiscountField ==> r == d.(discount := NumberOrZero(parsed))
    ensures (field == TaxField || field == DiscountField) && parsed.None? ==>
              (if field == TaxField then r.tax else r.discount) == 0.0
    ensures field != TaxField && field != DiscountField ==> r.tax == d.tax && r.discount == d.discount
    ensures field == ClientIdField ==> r == d.(clientId := value)
    ensures field == NotesField ==> r == d.(notes := Some(value))
    ensures field == InvoiceNumberField ==> r == d.(invoiceNumber := value)
    ensures field == IssueDateField ==> r == d.(issueDate := value)
    ensures field == DueDateField ==> r == d.(dueDate := value)
  {
    match field
    case TaxField => d.(tax := NumberOrZero(parsed))
    case DiscountField => d.(discount := NumberOrZero(parsed))
    case ClientIdField => d.(clientId := value)
    case InvoiceNumberField => d.(invoiceNumber := value)
    case IssueDateField => d.(issueDate := value)
    case DueDateField => d.(dueDate := value)
    case NotesField => d.(notes := Some(value))
  }

  /** The `(field, value)` pairs the line-item inputs pass to `handleItemChange`. */
  datatype ItemChange =
    | SetProduct(productId: string)
    | SetQuantity(quantity: real)
    | SetPrice(price: real)
    | SetDescription(description: string)

  /**
   * The change applied to the one item `handleItemChange` edits. Choosing a
   * known product copies its price and description (or `''`); any change but
   * the description's recomputes the total as quantity times price.
   */
  function ChangeItem(item: InvoiceItem, change: ItemChange, products: seq<Product>): (r: InvoiceItem)
    ensures r.id == item.id
    ensures !change.SetDescription? ==> LineConsistent(r)
    ensures change.SetDescription? ==> r == item.(description := change.description)
    ensures change.SetQuantity? ==>
              r.quantity == change.quantity && r == item.(quantity := r.quantity, total := r.total)
    ensures change.SetPrice? ==>
              r.price == change.price && r == item.(price := r.price, total := r.total)
    ensures change.SetProduct? ==>
              && r.productId == change.productId && r.quantity == item.quantity
              && match Records.FindFirst(products, ProductId, change.productId)
                 case Some(p) => r.price == p.price && r.description == p.description.GetOr("")
                 case None => r.price == item.price && r.description == item.description
  {
    match change
    case SetProduct(pid) =>
      var found := Records.FindFirst(products, ProductId, pid);
      var price := if found.Some? then found.value.price else item.price;
      var description := if found.Some? then found.value.description.GetOr("") else item.description;
      item.(productId := pid, price := price, description := description, total := item.quantity * price)
    case SetQuantity(q) => item.(quantity := q, total := q * item.price)
    case SetPrice(p) => item.(price := p, total := item.quantity * p)
    case SetDescription(text) => item.(description := text)
  }

  function ChangeWith(change: ItemChange, products: seq<Product>): InvoiceItem -> InvoiceItem {
    item => ChangeItem(item, change, products)
  }

  /** `handleItemChange`'s `map`: the items carrying `itemId` change, every other item stays as it was. */
  function ApplyItemChange(items: seq<InvoiceItem>, itemId: string, change: ItemChange, products: seq<Product>): (r: seq<InvoiceItem>)
    ensures |r| == |items|
    ensures forall i :: 0 <= i < |items| ==> r[i].id == items[i].id
    ensures forall i :: 0 <= i < |items| && items[i].id != itemId ==> r[i] == items[i]
    ensures forall i :: 0 <= i < |items| && items[i].id == itemId ==> r[i] == ChangeItem(items[i], change, products)
  {
    Records.UpdateWhere(items, ItemId, itemId, ChangeWith(change, products))
  }

  /** A change keeps every line consistent when they all were, and makes the edited lines consistent in any case but a description change. */
  lemma ItemChangeKeepsLines(items: seq<InvoiceItem>, itemId: string, change: ItemChange, products: seq<Product>)
    ensures var r := ApplyItemChange(items, itemId, change, products);
      && (AllLinesConsistent(items) ==> AllLinesConsistent(r))
      && (!change.SetDescription? ==> forall i :: 0 <= i < |r| && r[i].id == itemId ==> LineConsistent(r[i]))
  {
  }

  /** Adding the empty line keeps the lines consistent and leaves the subtotal where it was. */
  lemma AddItemKeepsLines(items: seq<InvoiceItem>, newId: string, tax: real, discount: real)
    ensures AllLinesConsistent(items) ==> AllLinesConsistent(items + [CreateEmptyInvoiceItem(newId)])
    ensures CalculateInvoice(items + [CreateEmptyInvoiceItem(newId)], tax, discount) == CalculateInvoice(items, tax, discount)
  {
    SubtotalAppend(items, CreateEmptyInvoiceItem(newId), tax, discount);
  }

  /** Removing lines keeps the remaining lines consistent. */
  lemma RemoveItemKeepsLines(items: seq<InvoiceItem>, itemId: string)
    requires AllLinesConsistent(items)
    ensures AllLinesConsistent(Records.RemoveId(items, ItemId, itemId))
  {
    var r := Records.RemoveId(items, ItemId, itemId);
    forall k | 0 <= k < |r| ensures LineConsistent(r[k]) {
      assert r[k] in items;
    }
  }

  /** The two messages `validate` can set. */
  datatype FormErrors = FormErrors(clientId: Option<string>, items: Option<string>)

  predicate NoErrors(e: FormErrors) {
    e.clientId.None? && e.items.None?
  }

  /** `validate`'s `newErrors`: a client must be chosen and there must be at least one line. */
  function Validation(d: InvoiceData): (e: FormErrors)
    ensures e.clientId == (if d.clientId == "" then Some(ClientRequired) else None)
    ensures e.items == (if |d.items| == 0 then Some(ItemsRequired) else None)
    ensures NoErrors(e) <==> d.clientId != "" && |d.items| > 0
  {
    FormErrors(if d.clientId == "" then Some(ClientRequired) else None,
               if |d.items| == 0 then Some(ItemsRequired) else None)
  }

  /**
   * What `handleSubmit(e, saveAsDraft)` hands to `onSubmit`: nothing unless the
   * form validates, else the form data with status `draft` or `pending`,
   * whatever the status was before.
   */
  function Submission(d: InvoiceData, saveAsDraft: bool): (r: Option<InvoiceData>)
    ensures r.Some? <==> d.clientId != "" && |d.items| > 0
    ensures r.Some? ==> r.value.status == (if saveAsDraft then Draft else Pending)
    ensures r.Some? ==> r.value.(status := d.status) == d
  {
    if NoErrors(Validation(d)) then Some(d.(status := if saveAsDraft then Draft else Pending)) else None
  }

  /** A submitted form with fresh amounts becomes an invoice whose amounts agree with its items. */
  lemma SubmittedInvoiceConsistent(d: InvoiceData, saveAsDraft: bool, id: string, createdAt: string)
    requires Recalculated(d)
    requires Submission(d, saveAsDraft).Some?
    ensures TotalsConsistent(NewInvoice(id, createdAt, Submission(d, saveAsDraft).value))
  {
  }

  /** The form component's state. */
  class InvoiceFormState {
    var formData: InvoiceData
    var errors: FormErrors
    const products: seq<Product>

    /** The recalculation effect has caught up with the last change. */
    ghost predicate Valid()
      reads this
    {
      Recalculated(formData)
    }

    constructor (products: seq<Product>, today: string)
      ensures this.products == products
      ensures formData == InitialData(today) && errors == FormErrors(None, None)
      ensures Valid()
    {
      this.products := products;
      formData := InitialData(today);
      errors := FormErrors(None, None);
    }

    /** The recalculation effect: `setFormData({ ...formData, ...recalculateInvoice(items, tax, discount) })`. */
    method RecalculateTotals()
      modifies this
      ensures formData == WithTotals(old(formData)) && errors == old(errors)
      ensures Valid()
    {
      var t := InvoiceContext.RecalculateInvoice(formData.items, formData.tax, formData.discount);
      formData := formData.(subtotal := t.subtotal, taxAmount := t.taxAmount,
                            discountAmount := t.discountAmount, total := t.total);
    }

    /**
     * The mount of the form with functional updates: the prefill effect
     * (copy the invoice, or set the default due date, 30 days ahead and
     * computed by the caller) and then the recalculation effect on the
     * prefilled data. The effects as written build the recalculation's
     * update from the first render's data; `MountAsWritten` models that.
     */
    method Prefill(invoice: Option<Invoice>, defaultDueDate: string)
      modifies this
      ensures invoice.Some? ==> formData == WithTotals(PrefillData(invoice.value))
      ensures invoice.None? ==> formData == WithTotals(old(formData).(dueDate := defaultDueDate))
      ensures formData == MountIntended(old(formData), invoice, defaultDueDate)
      ensures errors == old(errors)
      ensures Valid()
    {
      if invoice.Some? {
        formData := PrefillData(invoice.value);
      } else {
        formData := formData.(dueDate := defaultDueDate);
      }
      RecalculateTotals();
    }

    /** `handleGeneralChange(name, value)`; a rate change triggers the recalculation effect. */
    method HandleGeneralChange(field: Field, value: string, parsed: Option<real>)
      requires Valid()
      modifies this
      ensures formData == WithTotals(GeneralChange(old(formData), field, value, parsed))
      ensures errors == old(errors)
      ensures Valid()
    {
      formData := GeneralChange(formData, field, value, parsed);
      if field == TaxField || field == DiscountField {
        RecalculateTotals();
      } else {
        WithTotalsFresh(formData);
      }
    }

    /** `handleAddItem`: append one empty line (its id supplied by the caller). */
    method HandleAddItem(newId: string)
      requires Valid()
      modifies this
      ensures formData.items == old(formData.items) + [CreateEmptyInvoiceItem(newId)]
      ensures formData == old(formData).(items := formData.items)
      ensures errors == old(errors)
      ensures Valid()
    {
      AddItemKeepsLines(formData.items, newId, formData.tax, formData.discount);
      formData := formData.(items := formData.items + [CreateEmptyInvoiceItem(newId)]);
      RecalculateTotals();
    }

    /** `handleRemoveItem(itemId)`: drop the lines with that id, keep the others in order. */
    method HandleRemoveItem(itemId: string)
      requires Valid()
      modifies this
      ensures formData == WithTotals(old(formData).(items := Records.RemoveId(old(formData.items), ItemId, itemId)))
      ensures errors == old(errors)
      ensures Valid()
    {
      formData := formData.(items := Records.RemoveId(formData.items, ItemId, itemId));
      RecalculateTotals();
    }

    /** `handleItemChange(itemId, field, value)`: change the lines with that id, then recalculate. */
    method HandleItemChange(itemId: string, change: ItemChange)
      requires Valid()
      modifies this
      ensures formData == WithTotals(old(formData).(items := ApplyItemChange(old(formData.items), itemId, change, products)))
      ensures errors == old(errors)
      ensures Valid()
    {
      formData := formData.(items := ApplyItemChange(formData.items, itemId, change, products));
      RecalculateTotals();
    }

    /** `validate()`: record the errors and report whether there are none. */
    method Validate() returns (ok: bool)
      modifies this
      ensures errors == Validation(formData) && formData == old(formData)
      ensures ok <==> formData.clientId != "" && |formData.items| > 0
    {
      errors := Validation(formData);
      ok := NoErrors(errors);
    }

    /** `handleSubmit(e, saveAsDraft)`: validate, and return what `onSubmit` would receive. */
    method HandleSubmit(saveAsDraft: bool) returns (submitted: Option<InvoiceData>)
      modifies this
      ensures formData == old(formData) && errors == Validation(formData)
      ensures submitted == Submission(formData, saveAsDraft)
    {
      var ok := Validate();
      if ok {
        submitted := Some(formData.(status := if saveAsDraft then Draft else Pending));
      } else {
        submitted := None;
      }
    }
  }
}
