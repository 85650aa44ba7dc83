/** The product form and the catalogue table beside it: typing into the
    form, saving it as a new or an edited product, loading a product into
    it for editing, and deleting from the table. */
module ProductFormViewModel {
  import opened Seqs
  import opened Records
  import opened Store
  import opened ProductService

  /** The empty form: blank texts, zero prices and stock, no id, no
      category, no alert threshold, not made to order. */
  const InitialProduct: Product :=
    Product(None, "", "", "", None, false, 0.0, 0.0, 0.0, 0.0, 0.0, None)

  /** The inputs of the form, by their `name`. */
  datatype FormField =
    | NameField | DescriptionField | BarcodeField
    | StockField | CostPriceField | MarketPriceField | SalePriceField | WholesalePriceField

  /** The number-typed inputs. */
  predicate IsNumberField(f: FormField)
  {
    f.StockField? || f.CostPriceField? || f.MarketPriceField? || f.SalePriceField? || f.WholesalePriceField?
  }

  /** The form after `handleChange` on one input: a number input stores
      the parsed value (0 when it does not parse), a text input the raw
      text; no other field moves. `parse` stands for `parseFloat`. */
  function SetField(p: Product, f: FormField, raw: string, parse: string -> Option<real>): (r: Product)
    ensures f == NameField ==> r == p.(name := raw)
    ensures f == DescriptionField ==> r == p.(description := raw)
    ensures f == BarcodeField ==> r == p.(barcode := raw)
    ensures f == StockField ==> r == p.(stock := ReadNumber(parse(raw)))
    ensures f == CostPriceField ==> r == p.(costPrice := ReadNumber(parse(raw)))
    ensures f == MarketPriceField ==> r == p.(marketPrice := ReadNumber(parse(raw)))
    ensures f == SalePriceField ==> r == p.(salePrice := ReadNumber(parse(raw)))
    ensures f == WholesalePriceField ==> r == p.(wholesalePrice := ReadNumber(parse(raw)))
    ensures r.id == p.id && r.category == p.category && r.isOnDemand == p.isOnDemand && r.minStock == p.minStock
  {
    var n := ReadNumber(parse(raw));
    match f
    case NameField => p.(name := raw)
    case DescriptionField => p.(description := raw)
    case BarcodeField => p.(barcode := raw)
    case StockField => p.(stock := n)
    case CostPriceField => p.(costPrice := n)
    case MarketPriceField => p.(marketPrice := n)
    case SalePriceField => p.(salePrice := n)
    case WholesalePriceField => p.(wholesalePrice := n)
  }

  /** The guard of `saveProduct`: a name and a positive sale price. */
  predicate CanSave(p: Product)
  {
    p.name != "" && p.salePrice > 0.0
  }

  /** The empty form cannot be saved, and neither can a form whose sale
      price was typed as something that does not parse. */
  lemma SaveGuardSpec(p: Product, raw: string, parse: string -> Option<real>)
    ensures !CanSave(InitialProduct)
    ensures parse(raw).None? ==> !CanSave(SetField(p, SalePriceField, raw, parse))
    ensures CanSave(p) && parse(raw).Some? && parse(raw).value > 0.0 ==> CanSave(SetField(p, SalePriceField, raw, parse))
  {
  }

  function NotProduct(id: Id): Product -> bool
  {
    (p: Product) => p.id != Some(id)
  }

  /** The form and the table. */
  class ProductForm {
    var product: Product
    var isEditing: bool
    var loadingForm: bool
    var productList: seq<Product>
    var loadingTable: bool

    constructor ()
      ensures product == InitialProduct && !isEditing && !loadingForm
      ensures productList == [] && loadingTable
    {
      product, isEditing, loadingForm := InitialProduct, false, false;
      productList, loadingTable := [], true;
    }

    /** `fetchProducts`. */
    method FetchProducts(db: Database)
      modifies this`productList, this`loadingTable
      ensures productList == ListProducts(db.products) && !loadingTable
    {
      productList := ListProducts(db.products);
      loadingTable := false;
    }

    method HandleChange(f: FormField, raw: string, parse: string -> Option<real>)
      modifies this`product
      ensures product == SetField(old(product), f, raw, parse)
    {
      product := SetField(product, f, raw, parse);
    }

    /** `resetForm`. */
    method ResetForm()
      modifies this`product, this`isEditing
      ensures product == InitialProduct && !isEditing
    {
      product, isEditing := InitialProduct, false;
    }

    /** `prepareEdit`. */
    method PrepareEdit(p: Product)
      modifies this`product, this`isEditing
      ensures product == p && isEditing
    {
      product, isEditing := p, true;
    }

    /** `saveProduct`. A form without a name or a positive sale price is
      refused and nothing is stored. When editing a product with an id,
      every form field is written over the stored product with that id,
      and the save fails, changing nothing, when it is gone; otherwise the
      form is added as a new product. A save that goes through empties the
      form, leaves editing and reloads the table. */
    method SaveProduct(db: Database) returns (saved: bool)
      requires db.Valid()
      modifies this, db
      ensures db.Valid()
      ensures !CanSave(old(product)) ==> !saved && unchanged(this) && unchanged(db)
      ensures CanSave(old(product)) && old(isEditing) && old(product).id.Some? ==>
        var id := old(product).id.value;
        && (saved <==> Lookup(old(db.products), id).Some?)
        && (saved ==> db.products == Replace(old(db.products), id, Merge(Lookup(old(db.products), id).value, FullPatch(old(product)))))
        && (!saved ==> db.products == old(db.products))
      ensures CanSave(old(product)) && !(old(isEditing) && old(product).id.Some?) ==>
        && saved
        && |db.products| == |old(db.products)| + 1
        && db.products[..|old(db.products)|] == old(db.products)
        && db.products[|old(db.products)|].data == WithCategory(old(product))
        && Lookup(old(db.products), db.products[|old(db.products)|].id).None?
      ensures saved ==> product == InitialProduct && !isEditing && productList == ListProducts(db.products)
      ensures CanSave(old(product)) && !saved ==>
        product == old(product) && isEditing == old(isEditing) && productList == old(productList)
      ensures CanSave(old(product)) ==> !loadingForm
      ensures db.credits == old(db.credits) && db.customers == old(db.customers)
      ensures db.sales == old(db.sales) && db.cuts == old(db.cuts) && db.expenses == old(db.expenses)
    {
      if !CanSave(product) {
        return false;
      }
      if isEditing && product.id.Some? {
        saved := UpdateProduct(db, product.id.value, FullPatch(product));
      } else {
        var id := AddProduct(db, product);
        saved := true;
      }
      if saved {
        ResetForm();
        FetchProducts(db);
      }
      loadingForm := false;
    }

    /** `deleteProduct`: nothing without confirmation; otherwise the stored
      product goes and every listed product with that id leaves the table. */
    method DeleteProduct(db: Database, id: Id, confirmed: bool)
      requires db.Valid()
      modifies this`productList, db
      ensures db.Valid()
      ensures !confirmed ==> productList == old(productList) && unchanged(db)
      ensures confirmed ==> db.products == Remove(old(db.products), id) && productList == Filter(old(productList), NotProduct(id))
      ensures db.credits == old(db.credits) && db.customers == old(db.customers)
      ensures db.sales == old(db.sales) && db.cuts == old(db.cuts) && db.expenses == old(db.expenses)
    {
      if !confirmed {
        return;
      }
      ProductService.DeleteProduct(db, id);
      productList := Filter(productList, NotProduct(id));
    }
  }

  /** The table after a delete holds no product with that id, keeps every
      other one, and keeps their order. */
  lemma DeletedFromTable(list: seq<Product>, id: Id)
    ensures forall i :: 0 <= i < |Filter(list, NotProduct(id))| ==> Filter(list, NotProduct(id))[i].id != Some(id)
    ensures forall i :: 0 <= i < |list| && list[i].id != Some(id) ==> list[i] in Filter(list, NotProduct(id))
    ensures SubsequenceOf(Filter(list, NotProduct(id)), list)
  {
    FilterSubsequence(list, NotProduct(id));
  }

  /** Saving an edit writes every field of the form over the stored
      product; only a category or alert threshold the form leaves unset is
      kept from the stored one. */
  lemma EditSaveWritesForm(docs: seq<Doc<Product>>, form: Product, id: Id, q: Id)
    requires Lookup(docs, id).Some?
    ensures var stored := Lookup(docs, id).value;
      var after := Replace(docs, id, Merge(stored, FullPatch(form)));
      && Lookup(after, id).Some?
      && Lookup(after, id).value.(id := form.id) ==
           form.(category := if form.category.Some? then form.category else stored.category,
                 minStock := if form.minStock.Some? then form.minStock else stored.minStock)
      && (q != id ==> Lookup(after, q) == Lookup(docs, q))
  {
    var stored := Lookup(docs, id).value;
    MergeSpec(stored, FullPatch(form), form);
    LookupReplace(docs, id, Merge(stored, FullPatch(form)), id);
    LookupReplace(docs, id, Merge(stored, FullPatch(form)), q);
  }
}
