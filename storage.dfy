/**
 * The key-value persistence layer (src/utils/storage.ts). Browser local
 * storage is a map from the four fixed keys to typed values; serialisation
 * is left out, so a stored value is the list or record itself.
 */
module Storage {
  import opened Options
  import opened Types
  import Records

  const ProductsKey: string := "invoice_app_products"
  const ClientsKey: string := "invoice_app_clients"
  const InvoicesKey: string := "invoice_app_invoices"
  const CompanyKey: string := "invoice_app_company"

  /** What one key holds. */
  datatype Stored =
    | ProductList(products: seq<Product>)
    | ClientList(clients: seq<Client>)
    | InvoiceList(invoices: seq<Invoice>)
    | Company(info: CompanyInfo)

  type Items = map<string, Stored>

  /** `getProducts()`: the saved product list, or the empty list when the key is absent. */
  function ProductsIn(m: Items): seq<Product> {
    if ProductsKey in m && m[ProductsKey].ProductList? then m[ProductsKey].products else []
  }

  /** `getClients()`. */
  function ClientsIn(m: Items): seq<Client> {
    if ClientsKey in m && m[ClientsKey].ClientList? then m[ClientsKey].clients else []
  }

  /** `getInvoices()`. */
  function InvoicesIn(m: Items): seq<Invoice> {
    if InvoicesKey in m && m[InvoicesKey].InvoiceList? then m[InvoicesKey].invoices else []
  }

  /** The company profile `getCompanyInfo()` falls back to. */
  const DefaultCompany: CompanyInfo :=
    CompanyInfo("Your Company", "123 Business Street, City, Country", "+1 (555) 123-4567",
                "contact@yourcompany.com", None, None)

  /** `getCompanyInfo()`: the saved profile, or the default one. */
  function CompanyIn(m: Items): CompanyInfo {
    if CompanyKey in m && m[CompanyKey].Company? then m[CompanyKey].info else DefaultCompany
  }

  const DemoProducts: seq<Product> := [
    Product("prod-1", "Web Design Service", 1500.0, Some("Professional website design"), Some("project")),
    Product("prod-2", "Logo Design", 500.0, Some("Custom logo design with revisions"), Some("item")),
    Product("prod-3", "Consulting Hour", 120.0, Some("Professional consulting service"), Some("hour"))
  ]

  const DemoClients: seq<Client> := [
    Client("client-1", "John Smith", "john@example.com", "123 Main St, Anytown, USA",
           Some("(555) 123-4567"), Some("Smith Enterprises")),
    Client("client-2", "Sarah Johnson", "sarah@example.com", "456 Oak Ave, Somewhere, USA",
           Some("(555) 987-6543"), Some("Johnson Industries"))
  ]

  /** What `initializeData()` leaves in storage: demo products if there are none, then demo clients if there are none. */
  function Seeded(m: Items): (r: Items)
    ensures |ProductsIn(r)| > 0 && |ClientsIn(r)| > 0
    ensures InvoicesIn(r) == InvoicesIn(m) && CompanyIn(r) == CompanyIn(m)
  {
    KeysDistinct();
    var m1 := if |ProductsIn(m)| == 0 then m[ProductsKey := ProductList(DemoProducts)] else m;
    if |ClientsIn(m1)| == 0 then m1[ClientsKey := ClientList(DemoClients)] else m1
  }

  lemma KeysDistinct()
    ensures ProductsKey != ClientsKey && ProductsKey != InvoicesKey && ProductsKey != CompanyKey
    ensures ClientsKey != InvoicesKey && ClientsKey != CompanyKey && InvoicesKey != CompanyKey
  {
    assert ProductsKey[12] == 'p' && ClientsKey[12] == 'c' && InvoicesKey[12] == 'i' && CompanyKey[12] == 'c';
    assert ClientsKey[13] == 'l' && CompanyKey[13] == 'o';
  }

  /** Reading a collection whose key is absent yields the empty list; the company falls back to the default. */
  lemma ReadAbsent(m: Items)
    requires ProductsKey !in m && ClientsKey !in m && InvoicesKey !in m && CompanyKey !in m
    ensures ProductsIn(m) == [] && ClientsIn(m) == [] && InvoicesIn(m) == []
    ensures CompanyIn(m) == DefaultCompany
  {
  }

  /** Saving products and reading them back returns what was saved, and the other collections are untouched. */
  lemma SaveProductsThenRead(m: Items, ps: seq<Product>)
    ensures var m' := m[ProductsKey := ProductList(ps)];
      ProductsIn(m') == ps && ClientsIn(m') == ClientsIn(m) &&
      InvoicesIn(m') == InvoicesIn(m) && CompanyIn(m') == CompanyIn(m)
  {
    KeysDistinct();
  }

  /** Saving clients and reading them back returns what was saved, and the other collections are untouched. */
  lemma SaveClientsThenRead(m: Items, cs: seq<Client>)
    ensures var m' := m[ClientsKey := ClientList(cs)];
      ClientsIn(m') == cs && ProductsIn(m') == ProductsIn(m) &&
      InvoicesIn(m') == InvoicesIn(m) && CompanyIn(m') == CompanyIn(m)
  {
    KeysDistinct();
  }

  /** Saving invoices and reading them back returns what was saved, and the other collections are untouched. */
  lemma SaveInvoicesThenRead(m: Items, vs: seq<Invoice>)
    ensures var m' := m[InvoicesKey := InvoiceList(vs)];
      InvoicesIn(m') == vs && ProductsIn(m') == ProductsIn(m) &&
      ClientsIn(m') == ClientsIn(m) && CompanyIn(m') == CompanyIn(m)
  {
    KeysDistinct();
  }

  /** Saving the company profile and reading it back returns it, and the collections are untouched. */
  lemma SaveCompanyThenRead(m: Items, c: CompanyInfo)
    ensures var m' := m[CompanyKey := Company(c)];
      CompanyIn(m') == c && ProductsIn(m') == ProductsIn(m) &&
      ClientsIn(m') == ClientsIn(m) && InvoicesIn(m') == InvoicesIn(m)
  {
    KeysDistinct();
  }

  /**
   * `initializeData()` seeds the products exactly when none are stored and the
   * clients exactly when none are stored, keeps non-empty lists as they are,
   * and never writes invoices or the company profile.
   */
  lemma SeededContents(m: Items)
    ensures ProductsIn(Seeded(m)) == if |ProductsIn(m)| == 0 then DemoProducts else ProductsIn(m)
    ensures ClientsIn(Seeded(m)) == if |ClientsIn(m)| == 0 then DemoClients else ClientsIn(m)
    ensures InvoicesIn(Seeded(m)) == InvoicesIn(m) && CompanyIn(Seeded(m)) == CompanyIn(m)
    ensures Seeded(m).Keys == m.Keys + (if |ProductsIn(m)| == 0 then {ProductsKey} else {}) +
                              (if |ClientsIn(m)| == 0 then {ClientsKey} else {})
    ensures forall k :: k in m && k != ProductsKey && k != ClientsKey ==> Seeded(m)[k] == m[k]
  {
    KeysDistinct();
  }

  /** A second `initializeData()` changes nothing. */
  lemma SeededIdempotent(m: Items)
    ensures Seeded(Seeded(m)) == Seeded(m)
  {
    SeededContents(m);
  }

  /**
   * A product list that was saved empty (every product deleted) counts as no
   * data: the next `initializeData()` brings the demo products back.
   */
  lemma EmptySavedListIsReseeded(m: Items)
    ensures ProductsIn(Seeded(m[ProductsKey := ProductList([])])) == DemoProducts
    ensures ClientsIn(Seeded(m[ClientsKey := ClientList([])])) == DemoClients
  {
    SeededContents(m[ProductsKey := ProductList([])]);
    SeededContents(m[ClientsKey := ClientList([])]);
  }

  /** The demo data has distinct ids and only positive prices. */
  lemma DemoDataWellFormed()
    ensures forall i, j :: 0 <= i < j < |DemoProducts| ==> DemoProducts[i].id != DemoProducts[j].id
    ensures forall i, j :: 0 <= i < j < |DemoClients| ==> DemoClients[i].id != DemoClients[j].id
    ensures forall i :: 0 <= i < |DemoProducts| ==> DemoProducts[i].price > 0.0
  {
    assert DemoProducts[0].id[5] == '1' && DemoProducts[1].id[5] == '2' && DemoProducts[2].id[5] == '3';
    assert DemoClients[0].id[7] == '1' && DemoClients[1].id[7] == '2';
  }

  /** Browser local storage, shared by the whole application. */
  class LocalStorage {
    var items: Items

    /** Storage as a first visit finds it: no key set. */
    constructor ()
      ensures items == map[]
    {
      items := map[];
    }

    /** `getProducts()`: the saved list, or `[]` when the key was never written. */
    function GetProducts(): (r: seq<Product>)
      reads this
      ensures ProductsKey !in items ==> r == []
      ensures ProductsKey in items && items[ProductsKey].ProductList? ==> r == items[ProductsKey].products
    {
      ProductsIn(items)
    }

    /** `getClients()`: the saved list, or `[]` when the key was never written. */
    function GetClients(): (r: seq<Client>)
      reads this
      ensures ClientsKey !in items ==> r == []
      ensures ClientsKey in items && items[ClientsKey].ClientList? ==> r == items[ClientsKey].clients
    {
      ClientsIn(items)
    }

    /** `getInvoices()`: the saved list, or `[]` when the key was never written. */
    function GetInvoices(): (r: seq<Invoice>)
      reads this
      ensures InvoicesKey !in items ==> r == []
      ensures InvoicesKey in items && items[InvoicesKey].InvoiceList? ==> r == items[InvoicesKey].invoices
    {
      InvoicesIn(items)
    }

    /** `getCompanyInfo()`: the saved profile, or the default one when the key was never written. */
    function GetCompanyInfo(): (r: CompanyInfo)
      reads this
      ensures CompanyKey !in items ==> r == DefaultCompany
      ensures CompanyKey in items && items[CompanyKey].Company? ==> r == items[CompanyKey].info
    {
      CompanyIn(items)
    }

    /** `getProductById(id)`: the first stored product with that id. */
    function GetProductById(id: string): (r: Option<Product>)
      reads this
      ensures r.None? <==> !Records.HasId(GetProducts(), ProductId, id)
      ensures r.Some? ==> Records.FirstWithId(GetProducts(), ProductId, id, r.value)
      ensures r.Some? ==> r.value in GetProducts() && r.value.id == id
    {
      Records.FindFirst(GetProducts(), ProductId, id)
    }

    /** `getClientById(id)`: the first stored client with that id. */
    function GetClientById(id: string): (r: Option<Client>)
      reads this
      ensures r.None? <==> !Records.HasId(GetClients(), ClientId, id)
      ensures r.Some? ==> Records.FirstWithId(GetClients(), ClientId, id, r.value)
      ensures r.Some? ==> r.value in GetClients() && r.value.id == id
    {
      Records.FindFirst(GetClients(), ClientId, id)
    }

    /** `getInvoiceById(id)`: the first stored invoice with that id. */
    function GetInvoiceById(id: string): (r: Option<Invoice>)
      reads this
      ensures r.None? <==> !Records.HasId(GetInvoices(), InvoiceId, id)
      ensures r.Some? ==> Records.FirstWithId(GetInvoices(), InvoiceId, id, r.value)
      ensures r.Some? ==> r.value in GetInvoices() && r.value.id == id
    {
      Records.FindFirst(GetInvoices(), InvoiceId, id)
    }

    method SaveProducts(products: seq<Product>)
      modifies this
      ensures items == old(items)[ProductsKey := ProductList(products)]
      ensures GetProducts() == products && GetClients() == old(GetClients())
      ensures GetInvoices() == old(GetInvoices()) && GetCompanyInfo() == old(GetCompanyInfo())
    {
      SaveProductsThenRead(items, products);
      items := items[ProductsKey := ProductList(products)];
    }

    method SaveClients(clients: seq<Client>)
      modifies this
      ensures items == old(items)[ClientsKey := ClientList(clients)]
      ensures GetClients() == clients && GetProducts() == old(GetProducts())
      ensures GetInvoices() == old(GetInvoices()) && GetCompanyInfo() == old(GetCompanyInfo())
    {
      SaveClientsThenRead(items, clients);
      items := items[ClientsKey := ClientList(clients)];
    }

    method SaveInvoices(invoices: seq<Invoice>)
      modifies this
      ensures items == old(items)[InvoicesKey := InvoiceList(invoices)]
      ensures GetInvoices() == invoices && GetProducts() == old(GetProducts())
      ensures GetClients() == old(GetClients()) && GetCompanyInfo() == old(GetCompanyInfo())
    {
      SaveInvoicesThenRead(items, invoices);
      items := items[InvoicesKey := InvoiceList(invoices)];
    }

    method SaveCompanyInfo(info: CompanyInfo)
      modifies this
      ensures items == old(items)[CompanyKey := Company(info)]
      ensures GetCompanyInfo() == info && GetProducts() == old(GetProducts())
      ensures GetClients() == old(GetClients()) && GetInvoices() == old(GetInvoices())
    {
      SaveCompanyThenRead(items, info);
      items := items[CompanyKey := Company(info)];
    }

    /** `initializeData()`: seed demo products and clients into the lists that are empty. */
    method InitializeData()
      modifies this
      ensures items == Seeded(old(items))
    {
      if |GetProducts()| == 0 {
        SaveProducts(DemoProducts);
      }
      if |GetClients()| == 0 {
        SaveClients(DemoClients);
      }
    }
  }
}
