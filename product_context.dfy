/**
 * The product collection (src/context/ProductContext.tsx): the list held in
 * memory, loaded after demo data is seeded, mirrored to storage after every change.
 */
module ProductContext {
  import opened Options
  import opened Types
  import opened Storage
  import Records

  /** `Partial<Product>`: `Some` fields overwrite, `None` fields keep the record's value. */
  datatype ProductPatch = ProductPatch(
    id: Option<string>,
    name: Option<string>,
    price: Option<real>,
    description: Option<string>,
    unit: Option<string>)

  /** The patch the product list sends after an edit: the whole submitted form. */
  function DataPatch(d: ProductData): ProductPatch {
    ProductPatch(None, Some(d.name), Some(d.price), d.description, d.unit)
  }

  /** `{ ...product, ...patch }`. */
  function Merge(p: Product, q: ProductPatch): Product {
    Product(q.id.GetOr(p.id), q.name.GetOr(p.name), q.price.GetOr(p.price),
            if q.description.Some? then q.description else p.description,
            if q.unit.Some? then q.unit else p.unit)
  }

  function MergeWith(q: ProductPatch): Product -> Product {
    p => Merge(p, q)
  }

  /** An edit from the form keeps the id and takes every submitted field. */
  lemma MergeEdit(p: Product, d: ProductData)
    requires d.description.Some? && d.unit.Some?
    ensures Merge(p, DataPatch(d)) == NewProduct(p.id, d)
  {
  }

  /** The product provider's state. */
  class ProductStore {
    var products: seq<Product>
    const storage: LocalStorage

    ghost predicate Synced()
      reads this, storage
    {
      storage.GetProducts() == products
    }

    constructor (storage: LocalStorage)
      ensures this.storage == storage && products == []
    {
      this.storage := storage;
      products := [];
    }

    /** The mount effect: `initializeData()`, then `setProducts(getProducts())`; the list is never empty afterwards. */
    method Load()
      modifies this, storage
      ensures storage.items == Seeded(old(storage.items))
      ensures products == ProductsIn(Seeded(old(storage.items))) && Synced()
      ensures |products| > 0
    {
      SeededContents(storage.items);
      storage.InitializeData();
      products := storage.GetProducts();
    }

    /** `getProductById(id)`: the first product in memory with that id. */
    function GetProductById(id: string): (r: Option<Product>)
      reads this
      ensures r.None? <==> !Records.HasId(products, ProductId, id)
      ensures r.Some? ==> Records.FirstWithId(products, ProductId, id, r.value)
      ensures r.Some? ==> r.value in products && r.value.id == id
    {
      Records.FindFirst(products, ProductId, id)
    }

    /** `addProduct(product)`: append `{ id, ...product }` and persist. */
    method AddProduct(data: ProductData, newId: string)
      modifies this, storage
      ensures products == old(products) + [NewProduct(newId, data)]
      ensures storage.items == old(storage.items)[ProductsKey := ProductList(products)]
      ensures Synced()
    {
      var updated := products + [NewProduct(newId, data)];
      products := updated;
      storage.SaveProducts(updated);
    }

    /** `updateProduct(id, fields)`: merge the fields into every product with that id, persist. */
    method UpdateProduct(id: string, patch: ProductPatch)
      modifies this, storage
      ensures products == Records.UpdateWhere(old(products), ProductId, id, MergeWith(patch))
      ensures storage.items == old(storage.items)[ProductsKey := ProductList(products)]
      ensures Synced()
    {
      var updated := Records.UpdateWhere(products, ProductId, id, MergeWith(patch));
      products := updated;
      storage.SaveProducts(updated);
    }

    /** `deleteProduct(id)`: drop every product with that id, persist. */
    method DeleteProduct(id: string)
      modifies this, storage
      ensures products == Records.RemoveId(old(products), ProductId, id)
      ensures storage.items == old(storage.items)[ProductsKey := ProductList(products)]
      ensures Synced()
    {
      var updated := Records.RemoveId(products, ProductId, id);
      products := updated;
      storage.SaveProducts(updated);
    }
  }
}
