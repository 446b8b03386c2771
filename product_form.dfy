/**
 * The product form (src/components/products/ProductForm.tsx): price parsing,
 * the name and price rules, the edit prefill and the submit decision.
 */
module ProductForm {
  import opened Options
  import opened Types
  import opened Text

  const NameRequired: string := "Product name is required"
  const PriceNotPositive: string := "Price must be greater than zero"

  /** The two messages `validate` can set. */
  datatype ProductErrors = ProductErrors(name: Option<string>, price: Option<string>)

  predicate NoErrors(e: ProductErrors) {
    e.name.None? && e.price.None?
  }

  /** `validate`'s `newErrors`: the name must not be blank, the price must be above zero. */
  function Validation(d: ProductData): (e: ProductErrors)
    ensures e.name.Some? <==> AllWhitespace(d.name)
    ensures e.price.Some? <==> d.price <= 0.0
    ensures e.name.Some? ==> e.name == Some(NameRequired)
    ensures e.price.Some? ==> e.price == Some(PriceNotPositive)
    ensures NoErrors(e) <==> !AllWhitespace(d.name) && d.price > 0.0
  {
    TrimEmptyIffBlank(d.name);
    ProductErrors(if Trim(d.name) == "" then Some(NameRequired) else None,
                  if d.price <= 0.0 then Some(PriceNotPositive) else None)
  }

  /** The inputs wired to `handleChange`, by their `name` attribute. */
  datatype Field = NameField | PriceField | DescriptionField | UnitField

  /** `handleChange`: the price takes `parseFloat(value) || 0`, any other field the text as typed. */
  function Change(d: ProductData, field: Field, value: string, parsed: Option<real>): (r: ProductData)
    ensures field == PriceField ==> r == d.(price := NumberOrZero(parsed))
    ensures field == NameField ==> r == d.(name := value)
    ensures field == DescriptionField ==> r == d.(description := Some(value))
    ensures field == UnitField ==> r == d.(unit := Some(value))
  {
    match field
    case NameField => d.(name := value)
    case PriceField => d.(price := NumberOrZero(parsed))
    case DescriptionField => d.(description := Some(value))
    case UnitField => d.(unit := Some(value))
  }

  /** A price that does not parse becomes 0, which the form then refuses. */
  lemma UnparsablePriceRefused(d: ProductData, value: string)
    ensures Change(d, PriceField, value, None).price == 0.0
    ensures Validation(Change(d, PriceField, value, None)).price == Some(PriceNotPositive)
  {
  }

  /** Price 0 is refused and price 50 accepted, given a name. */
  lemma PriceExamples(name: string, description: Option<string>, unit: Option<string>)
    requires !AllWhitespace(name)
    ensures !NoErrors(Validation(ProductData(name, 0.0, description, unit)))
    ensures NoErrors(Validation(ProductData(name, 50.0, description, unit)))
  {
  }

  /** The edit prefill: name and price copied, a missing description or unit as `''`. */
  function PrefillData(p: Product): (d: ProductData)
    ensures d.name == p.name && d.price == p.price
    ensures d.description == Some(p.description.GetOr("")) && d.unit == Some(p.unit.GetOr(""))
    ensures p.description.Some? && p.unit.Some? ==> NewProduct(p.id, d) == p
  {
    ProductData(p.name, p.price, Some(p.description.GetOr("")), Some(p.unit.GetOr("")))
  }

  /** The form component's state. */
  class ProductFormState {
    var formData: ProductData
    var errors: ProductErrors

    constructor ()
      ensures formData == ProductData("", 0.0, Some(""), Some(""))
      ensures errors == ProductErrors(None, None)
    {
      formData := ProductData("", 0.0, Some(""), Some(""));
      errors := ProductErrors(None, None);
    }

    /** The prefill effect: copy the product when editing, else keep the empty form. */
    method Prefill(product: Option<Product>)
      modifies this
      ensures product.Some? ==> formData == PrefillData(product.value)
      ensures product.None? ==> formData == old(formData)
      ensures errors == old(errors)
    {
      if product.Some? {
        formData := PrefillData(product.value);
      }
    }

    method HandleChange(field: Field, value: string, parsed: Option<real>)
      modifies this
      ensures formData == Change(old(formData), field, value, parsed) && errors == old(errors)
    {
      formData := Change(formData, field, value, parsed);
    }

    /** `validate()`: record the errors and report whether there are none. */
    method Validate() returns (ok: bool)
      modifies this
      ensures errors == Validation(formData) && formData == old(formData)
      ensures ok <==> !AllWhitespace(formData.name) && formData.price > 0.0
    {
      errors := Validation(formData);
      ok := NoErrors(errors);
    }

    /** `handleSubmit`: what `onSubmit` receives, if it is called at all. */
    method HandleSubmit() returns (submitted: Option<ProductData>)
      modifies this
      ensures errors == Validation(formData) && formData == old(formData)
      ensures submitted.Some? <==> !AllWhitespace(formData.name) && formData.price > 0.0
      ensures submitted.Some? ==> submitted.value == formData
    {
      var ok := Validate();
      submitted := if ok then Some(formData) else None;
    }
  }
}
