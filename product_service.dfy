/** The catalogue service: add, list, edit, sell from and delete products. */
module ProductService {
  import opened Seqs
  import opened Records
  import opened Store

  /** The record `addProduct` writes: the category defaults to "otros". */
  function WithCategory(p: Product): (r: Product)
    ensures r.category == Some(CategoryOr(p.category))
    ensures p.category.Some? ==> r.category == p.category
    ensures p.category.None? ==> r.category == Some(Others)
    ensures r.(category := p.category) == p
  {
    p.(category := Some(CategoryOr(p.category)))
  }

  /** One document as `getProducts` reads it back: `{ id: doc.id, ...data }`
      (so a stored id field wins over the document's id), with "otros"
      standing in for a missing category. */
  function ListedProduct(d: Doc<Product>): (r: Product)
    ensures r.id.Some?
    ensures d.data.id.None? ==> r.id == Some(d.id)
    ensures r.category == Some(CategoryOr(d.data.category))
    ensures r.(id := d.data.id, category := d.data.category) == d.data
  {
    WithCategory(d.data).(id := if d.data.id.Some? then d.data.id else Some(d.id))
  }

  /** `getProducts`. */
  function ListProducts(docs: seq<Doc<Product>>): (r: seq<Product>)
    ensures |r| == |docs|
    ensures forall i :: 0 <= i < |r| ==> r[i] == ListedProduct(docs[i])
  {
    seq(|docs|, i requires 0 <= i < |docs| => ListedProduct(docs[i]))
  }

  method AddProduct(db: Database, p: Product) returns (id: Id)
    requires db.Valid()
    modifies db
    ensures db.Valid()
    ensures Lookup(old(db.products), id).None?
    ensures db.products == old(db.products) + [Doc(id, WithCategory(p))]
    ensures db.credits == old(db.credits) && db.customers == old(db.customers)
    ensures db.sales == old(db.sales) && db.cuts == old(db.cuts) && db.expenses == old(db.expenses)
  {
    id := db.FreshId();
    AppendHealthy(db.products, Doc(id, WithCategory(p)), db.nextId);
    db.products := db.products + [Doc(id, WithCategory(p))];
  }

  /** A product added without an id lists under its new document id; its
      category is the one given, or "otros" when none was. */
  lemma AddedProductLists(docs: seq<Doc<Product>>, id: Id, p: Product)
    requires p.id.None?
    ensures |ListProducts(docs + [Doc(id, WithCategory(p))])| == |docs| + 1
    ensures ListProducts(docs + [Doc(id, WithCategory(p))])[|docs|] == p.(id := Some(id), category := Some(CategoryOr(p.category)))
  {
  }

  /** `Partial<Product>`: a field is written exactly when it is supplied. */
  datatype ProductPatch = ProductPatch(
    name: Option<string>,
    description: Option<string>,
    barcode: Option<string>,
    category: Option<Category>,
    isOnDemand: Option<bool>,
    costPrice: Option<real>,
    marketPrice: Option<real>,
    salePrice: Option<real>,
    wholesalePrice: Option<real>,
    stock: Option<real>,
    minStock: Option<real>)

  function Pick<T>(given: Option<T>, old_: T): T
  {
    if given.Some? then given.value else old_
  }

  /** `updateDoc(ref, patch)` on one product. */
  function Merge(p: Product, patch: ProductPatch): Product
  {
    Product(
      p.id,
      Pick(patch.name, p.name),
      Pick(patch.description, p.description),
      Pick(patch.barcode, p.barcode),
      if patch.category.Some? then patch.category else p.category,
      Pick(patch.isOnDemand, p.isOnDemand),
      Pick(patch.costPrice, p.costPrice),
      Pick(patch.marketPrice, p.marketPrice),
      Pick(patch.salePrice, p.salePrice),
      Pick(patch.wholesalePrice, p.wholesalePrice),
      Pick(patch.stock, p.stock),
      if patch.minStock.Some? then patch.minStock else p.minStock)
  }

  const NoChanges := ProductPatch(None, None, None, None, None, None, None, None, None, None, None)

  /** The patch that writes every field the product has. */
  function FullPatch(p: Product): ProductPatch
  {
    ProductPatch(Some(p.name), Some(p.description), Some(p.barcode), p.category, Some(p.isOnDemand),
      Some(p.costPrice), Some(p.marketPrice), Some(p.salePrice), Some(p.wholesalePrice),
      Some(p.stock), p.minStock)
  }

  /** An empty patch changes nothing, applying a patch twice is applying it
      once, and writing a whole product over a stored one leaves exactly that
      product, except for optional fields it leaves unset. */
  lemma MergeSpec(p: Product, patch: ProductPatch, q: Product)
    ensures Merge(p, NoChanges) == p
    ensures Merge(Merge(p, patch), patch) == Merge(p, patch)
    ensures Merge(p, FullPatch(q)).(id := q.id) ==
      q.(category := if q.category.Some? then q.category else p.category,
         minStock := if q.minStock.Some? then q.minStock else p.minStock)
    ensures Merge(p, patch).id == p.id
  {
  }

  /** `updateProduct`: fails when no document has that id. */
  method UpdateProduct(db: Database, id: Id, patch: ProductPatch) returns (ok: bool)
    requires db.Valid()
    modifies db
    ensures db.Valid()
    ensures ok <==> Lookup(old(db.products), id).Some?
    ensures ok ==> db.products == Replace(old(db.products), id, Merge(Lookup(old(db.products), id).value, patch))
    ensures !ok ==> db.products == old(db.products)
    ensures db.credits == old(db.credits) && db.customers == old(db.customers) && db.nextId == old(db.nextId)
    ensures db.sales == old(db.sales) && db.cuts == old(db.cuts) && db.expenses == old(db.expenses)
  {
    var current := Lookup(db.products, id);
    if current.None? {
      return false;
    }
    ReplaceHealthy(db.products, id, Merge(current.value, patch), db.nextId);
    db.products := Replace(db.products, id, Merge(current.value, patch));
    ok := true;
  }

  /** The product after `increment(-amountSold)` on its stock. */
  function AfterSale(p: Product, amountSold: real): (r: Product)
    ensures r.stock + amountSold == p.stock
    ensures r.(stock := p.stock) == p
  {
    p.(stock := p.stock - amountSold)
  }

  /** `updateStock`: a relative decrement with no lower bound, so stock can
      go below zero; fails when no document has that id. */
  method UpdateStock(db: Database, id: Id, amountSold: real) returns (ok: bool)
    requires db.Valid()
    modifies db
    ensures db.Valid()
    ensures ok <==> Lookup(old(db.products), id).Some?
    ensures ok ==> db.products == Replace(old(db.products), id, AfterSale(Lookup(old(db.products), id).value, amountSold))
    ensures !ok ==> db.products == old(db.products)
    ensures db.credits == old(db.credits) && db.customers == old(db.customers) && db.nextId == old(db.nextId)
    ensures db.sales == old(db.sales) && db.cuts == old(db.cuts) && db.expenses == old(db.expenses)
  {
    var current := Lookup(db.products, id);
    if current.None? {
      return false;
    }
    ReplaceHealthy(db.products, id, AfterSale(current.value, amountSold), db.nextId);
    db.products := Replace(db.products, id, AfterSale(current.value, amountSold));
    ok := true;
  }

  /** Selling more than is in stock leaves a negative stock: nothing in
      `updateStock` stops it. */
  lemma StockCanGoNegative(docs: seq<Doc<Product>>, id: Id, amountSold: real)
    requires Lookup(docs, id).Some? && amountSold > Lookup(docs, id).value.stock
    ensures Lookup(Replace(docs, id, AfterSale(Lookup(docs, id).value, amountSold)), id).value.stock < 0.0
  {
    LookupReplace(docs, id, AfterSale(Lookup(docs, id).value, amountSold), id);
  }

  method DeleteProduct(db: Database, id: Id)
    requires db.Valid()
    modifies db
    ensures db.Valid()
    ensures db.products == Remove(old(db.products), id)
    ensures db.credits == old(db.credits) && db.customers == old(db.customers) && db.nextId == old(db.nextId)
    ensures db.sales == old(db.sales) && db.cuts == old(db.cuts) && db.expenses == old(db.expenses)
  {
    FilterHealthy(db.products, LacksId(id), db.nextId);
    db.products := Remove(db.products, id);
  }
}
