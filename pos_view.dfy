/** The till screen: the catalogue grid's filter (search box, then
    category tabs), the item count in the cart header and when the charge
    button is enabled. */
module POSView {
  import opened Seqs
  import opened Records
  import Text
  import opened POSViewModel

  /** The tab that shows every category. */
  const AllCategories: string := "todos"

  /** The grid's test: a non-blank search decides alone, by name or
      barcode; otherwise the "todos" tab keeps everything and any other tab
      keeps the products whose category (default "otros") it names. */
  predicate KeepProduct(query: string, selected: string, p: Product)
  {
    if !Text.IsBlank(query) then MatchesQuery(query, p)
    else selected == AllCategories || CategoryName(CategoryOr(p.category)) == selected
  }

  function Keeper(query: string, selected: string): Product -> bool
  {
    (p: Product) => KeepProduct(query, selected, p)
  }

  function InCategory(selected: string): Product -> bool
  {
    (p: Product) => selected == AllCategories || CategoryName(CategoryOr(p.category)) == selected
  }

  /** `filteredProducts`: the products the grid draws, in listing order. */
  function FilteredProducts(products: seq<Product>, query: string, selected: string): (r: seq<Product>)
    ensures SubsequenceOf(r, products)
    ensures forall i :: 0 <= i < |r| ==> KeepProduct(query, selected, r[i])
    ensures forall i :: 0 <= i < |products| && KeepProduct(query, selected, products[i]) ==> products[i] in r
  {
    FilterSubsequence(products, Keeper(query, selected));
    Filter(products, Keeper(query, selected))
  }

  /** The three cases of the grid's filter: with a non-blank search the
      category tab is ignored; with a blank one "todos" shows the whole
      listing and any other tab exactly the products of that category. */
  lemma FilteredProductsSpec(products: seq<Product>, query: string, selected: string)
    ensures !Text.IsBlank(query) ==> FilteredProducts(products, query, selected) == Filter(products, QueryFilter(query))
    ensures Text.IsBlank(query) && selected == AllCategories ==> FilteredProducts(products, query, selected) == products
    ensures Text.IsBlank(query) ==> FilteredProducts(products, query, selected) == Filter(products, InCategory(selected))
  {
    if Text.IsBlank(query) {
      FilterSame(products, Keeper(query, selected), InCategory(selected));
      if selected == AllCategories {
        FilterAll(products, InCategory(selected));
      }
    } else {
      FilterSame(products, Keeper(query, selected), QueryFilter(query));
    }
  }

  /** What the screen shows is the grid's filter applied to the view
      model's already searched listing. A non-blank search is applied once
      in effect; an empty one leaves the whole listing to the tabs; but a
      search of spaces alone, which counts as blank for the tabs, still
      hides every product whose name and barcode lack those spaces. */
  lemma ScreenListing(products: seq<Product>, query: string, selected: string)
    ensures !Text.IsBlank(query) ==>
      FilteredProducts(VisibleProducts(products, query), query, selected) == VisibleProducts(products, query)
    ensures query == "" ==>
      FilteredProducts(VisibleProducts(products, query), query, selected) == Filter(products, InCategory(selected))
    ensures forall i :: 0 <= i < |FilteredProducts(VisibleProducts(products, query), query, selected)| ==>
      MatchesQuery(query, FilteredProducts(VisibleProducts(products, query), query, selected)[i])
  {
    if !Text.IsBlank(query) {
      SearchedTwice(products, query, selected);
    }
    if query == "" {
      EmptySearchListing(products, selected);
    }
    ShownMatchSearch(products, query, selected);
  }

  lemma SearchedTwice(products: seq<Product>, query: string, selected: string)
    requires !Text.IsBlank(query)
    ensures FilteredProducts(VisibleProducts(products, query), query, selected) == VisibleProducts(products, query)
  {
    FilteredProductsSpec(VisibleProducts(products, query), query, selected);
    FilterWeaker(products, QueryFilter(query), QueryFilter(query));
  }

  lemma EmptySearchListing(products: seq<Product>, selected: string)
    ensures FilteredProducts(VisibleProducts(products, ""), "", selected) == Filter(products, InCategory(selected))
  {
    FilteredProductsSpec(VisibleProducts(products, ""), "", selected);
    forall p: Product ensures QueryFilter("")(p) {
      Text.ContainsEmpty(Text.Lower(p.name));
    }
    FilterAll(products, QueryFilter(""));
  }

  lemma ShownMatchSearch(products: seq<Product>, query: string, selected: string)
    ensures forall i :: 0 <= i < |FilteredProducts(VisibleProducts(products, query), query, selected)| ==>
      MatchesQuery(query, FilteredProducts(VisibleProducts(products, query), query, selected)[i])
  {
    var visible := VisibleProducts(products, query);
    forall i | 0 <= i < |FilteredProducts(visible, query, selected)|
      ensures MatchesQuery(query, FilteredProducts(visible, query, selected)[i])
    {
      var x := FilteredProducts(visible, query, selected)[i];
      var j :| 0 <= j < |visible| && visible[j] == x;
    }
  }

  /** `totalItems`: the units in the cart. */
  function TotalItems(cart: seq<CartLine>): real
  {
    Sum(cart, LineQuantity)
  }

  function Hits(id: Option<Id>): CartLine -> real
  {
    (l: CartLine) => if l.product.id == id then 1.0 else 0.0
  }

  lemma {:induction false} BumpedItems(cart: seq<CartLine>, id: Option<Id>)
    ensures TotalItems(Bumped(cart, id)) == TotalItems(cart) + Sum(cart, Hits(id))
    decreases |cart|
  {
    if cart != [] {
      var init := cart[..|cart| - 1];
      BumpedItems(init, id);
      assert Bumped(cart, id)[..|cart| - 1] == Bumped(init, id);
    }
  }

  lemma {:induction false} HitsOnce(cart: seq<CartLine>, k: nat)
    requires k < |cart|
    requires forall i, j :: 0 <= i < j < |cart| ==> cart[i].product.id != cart[j].product.id
    ensures Sum(cart, Hits(cart[k].product.id)) == 1.0
    decreases |cart|
  {
    var init := cart[..|cart| - 1];
    if k == |cart| - 1 {
      HitsNone(init, cart[k].product.id);
    } else {
      HitsOnce(init, k);
    }
  }

  lemma {:induction false} HitsNone(cart: seq<CartLine>, id: Option<Id>)
    requires forall i :: 0 <= i < |cart| ==> cart[i].product.id != id
    ensures Sum(cart, Hits(id)) == 0.0
    decreases |cart|
  {
    if cart != [] {
      HitsNone(cart[..|cart| - 1], id);
    }
  }

  /** On a well-formed cart, tapping a product adds exactly one unit to
      the header's count or, when refused, none. */
  lemma AddToCartCount(cart: seq<CartLine>, p: Product)
    requires CartOk(cart)
    ensures TotalItems(CartWith(cart, p)) == TotalItems(cart) + (if CartWith(cart, p) == cart then 0.0 else 1.0)
  {
    if p.stock > 0.0 {
      match IndexWhere(cart, SameProduct(p.id))
      case Some(k) =>
        if cart[k].quantity < p.stock {
          BumpedItems(cart, p.id);
          HitsOnce(cart, k);
          assert Bumped(cart, p.id)[k].quantity == cart[k].quantity + 1.0;
        }
      case None =>
        SumAppend(cart, [CartLine(p, 1.0)], LineQuantity);
        SumSingleton(CartLine(p, 1.0), LineQuantity);
        assert |CartWith(cart, p)| == |cart| + 1;
    }
  }

  /** Removing a product takes all of its units off the count. */
  lemma RemoveFromCartCount(cart: seq<CartLine>, id: Option<Id>)
    ensures TotalItems(CartWithout(cart, id)) + Sum(Filter(cart, SameProduct(id)), LineQuantity) == TotalItems(cart)
  {
    SumPartition(cart, OtherProduct(id), SameProduct(id), LineQuantity);
  }

  /** The charge button's `disabled`: an empty cart, or a cash sale
      ("contado") whose amount received falls short of the total. */
  predicate ConfirmDisabled(cart: seq<CartLine>, paymentType: string, received: Option<real>)
  {
    |cart| == 0 || (paymentType == "contado" && Change(cart, received) < 0.0)
  }

  /** An enabled button means a non-empty cart, and for "contado" a cash
      sale whose recorded change is not negative; card and credit sales are
      not checked against the amount received. */
  lemma ConfirmEnabledSpec(cart: seq<CartLine>, paymentType: string, customer: CustomerInfo,
                           received: Option<real>, seller: string, date: string)
    ensures !ConfirmDisabled(cart, paymentType, received) <==>
      cart != [] && (paymentType == "contado" ==> ReadNumber(received) >= Total(cart))
    ensures !ConfirmDisabled(cart, paymentType, received) && paymentType == "contado" ==>
      BuildSale(cart, paymentType, customer, received, seller, date).payMethod == Cash &&
      BuildSale(cart, paymentType, customer, received, seller, date).change.value >= 0.0
    ensures paymentType == "tarjeta" ==> (ConfirmDisabled(cart, paymentType, received) <==> cart == [])
  {
    PaymentTypes();
  }
}
