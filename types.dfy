/**
 * The entities of the invoicing application (project/src/types/index.ts).
 * Amounts of money are exact reals; strings are sequences of characters;
 * an optional field (`name?: string`) is an `Option<string>`.
 */
module Types {
  import opened Options

  /** The four invoice statuses; a status is exactly one of them. */
  datatype Status = Draft | Pending | Paid | Overdue

  datatype Product = Product(
    id: string,
    name: string,
    price: real,
    description: Option<string>,
    unit: Option<string>)

  datatype Client = Client(
    id: string,
    name: string,
    email: string,
    address: string,
    phone: Option<string>,
    company: Option<string>)

  datatype InvoiceItem = InvoiceItem(
    id: string,
    productId: string,
    description: string,
    quantity: real,
    price: real,
    total: real)

  /** An invoice keeps both the two rates (`tax`, `discount`, in percent) and the four derived amounts. */
  datatype Invoice = Invoice(
    id: string,
    invoiceNumber: string,
    clientId: string,
    issueDate: string,
    dueDate: string,
    items: seq<InvoiceItem>,
    tax: real,
    discount: real,
    subtotal: real,
    taxAmount: real,
    discountAmount: real,
    total: real,
    notes: Option<string>,
    status: Status,
    createdAt: string)

  datatype CompanyInfo = CompanyInfo(
    name: string,
    address: string,
    phone: string,
    email: string,
    website: Option<string>,
    logo: Option<string>)

  /** `Omit<Invoice, 'id' | 'createdAt'>`: what the invoice form submits. */
  datatype InvoiceData = InvoiceData(
    invoiceNumber: string,
    clientId: string,
    issueDate: string,
    dueDate: string,
    items: seq<InvoiceItem>,
    tax: real,
    discount: real,
    subtotal: real,
    taxAmount: real,
    discountAmount: real,
    total: real,
    notes: Option<string>,
    status: Status)

  /** `Omit<Client, 'id'>`: what the client form submits. */
  datatype ClientData = ClientData(
    name: string,
    email: string,
    address: string,
    phone: Option<string>,
    company: Option<string>)

  /** `Omit<Product, 'id'>`: what the product form submits. */
  datatype ProductData = ProductData(
    name: string,
    price: real,
    description: Option<string>,
    unit: Option<string>)

  // The `id` selectors as function values, for the generic collection operations.
  function InvoiceId(x: Invoice): string { x.id }
  function ClientId(x: Client): string { x.id }
  function ProductId(x: Product): string { x.id }
  function ItemId(x: InvoiceItem): string { x.id }

  /** The lower-case name the source uses for a status (`'draft' | 'pending' | 'paid' | 'overdue'`). */
  function StatusName(s: Status): (r: string)
    ensures |r| > 0
  {
    match s
    case Draft => "draft"
    case Pending => "pending"
    case Paid => "paid"
    case Overdue => "overdue"
  }

  /** Reads a status name back; any other string is not a status. */
  function ParseStatus(name: string): (r: Option<Status>)
    ensures r.Some? ==> StatusName(r.value) == name
  {
    if name == "draft" then Some(Draft)
    else if name == "pending" then Some(Pending)
    else if name == "paid" then Some(Paid)
    else if name == "overdue" then Some(Overdue)
    else None
  }

  /** Every status has a name that reads back as itself, so the four names are distinct. */
  lemma StatusNameRoundTrip(s: Status)
    ensures ParseStatus(StatusName(s)) == Some(s)
  {
  }

  /** A new invoice from submitted data: `{ id, createdAt, ...data }`. */
  function NewInvoice(id: string, createdAt: string, d: InvoiceData): (r: Invoice)
    ensures r.id == id && r.createdAt == createdAt && DataOf(r) == d
  {
    Invoice(id, d.invoiceNumber, d.clientId, d.issueDate, d.dueDate, d.items,
            d.tax, d.discount, d.subtotal, d.taxAmount, d.discountAmount, d.total,
            d.notes, d.status, createdAt)
  }

  /** The part of an invoice other than `id` and `createdAt`. */
  function DataOf(inv: Invoice): InvoiceData {
    InvoiceData(inv.invoiceNumber, inv.clientId, inv.issueDate, inv.dueDate, inv.items,
                inv.tax, inv.discount, inv.subtotal, inv.taxAmount, inv.discountAmount, inv.total,
                inv.notes, inv.status)
  }

  /** An invoice is determined by its id, its creation time and its data. */
  lemma InvoiceSplitsIntoData(inv: Invoice)
    ensures NewInvoice(inv.id, inv.createdAt, DataOf(inv)) == inv
  {
  }

  /** A new client from submitted data: `{ id, ...data }`. */
  function NewClient(id: string, d: ClientData): (r: Client)
    ensures r.id == id && r.name == d.name && r.email == d.email && r.address == d.address
    ensures r.phone == d.phone && r.company == d.company
  {
    Client(id, d.name, d.email, d.address, d.phone, d.company)
  }

  /** A new product from submitted data: `{ id, ...data }`. */
  function NewProduct(id: string, d: ProductData): (r: Product)
    ensures r.id == id && r.name == d.name && r.price == d.price
    ensures r.description == d.description && r.unit == d.unit
  {
    Product(id, d.name, d.price, d.description, d.unit)
  }
}
