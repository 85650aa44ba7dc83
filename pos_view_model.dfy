/** The till: the cart and its arithmetic, and `confirmSale`, which records
    a cash, card or credit sale, takes the sold quantities off the stock and
    clears the till. */
module POSViewModel {
  import opened Seqs
  import opened Records
  import opened Store
  import Text
  import opened ProductService
  import opened CustomerService
  import opened CreditService
  import opened CreditsViewModel

  datatype CustomerInfo = CustomerInfo(name: string, phone: string, address: string, notes: string)

  const NoCustomer := CustomerInfo("", "", "", "")

  function SameProduct(id: Option<Id>): CartLine -> bool
  {
    (l: CartLine) => l.product.id == id
  }

  function OtherProduct(id: Option<Id>): CartLine -> bool
  {
    (l: CartLine) => l.product.id != id
  }

  /** A whole number of units. */
  predicate Whole(x: real)
  {
    x == x.Floor as real
  }

  /** At most one line per product, and every line holds a whole number of
      units between one and the stock its product had when it was listed. */
  ghost predicate CartOk(cart: seq<CartLine>)
  {
    && (forall i, j :: 0 <= i < j < |cart| ==> cart[i].product.id != cart[j].product.id)
    && (forall i :: 0 <= i < |cart| ==> 1.0 <= cart[i].quantity <= cart[i].product.stock && Whole(cart[i].quantity))
  }

  /** Every line of product `id` one unit up. */
  function Bumped(cart: seq<CartLine>, id: Option<Id>): (r: seq<CartLine>)
    ensures |r| == |cart|
    ensures forall i :: 0 <= i < |r| && cart[i].product.id == id ==> r[i] == cart[i].(quantity := cart[i].quantity + 1.0)
    ensures forall i :: 0 <= i < |r| && cart[i].product.id != id ==> r[i] == cart[i]
  {
    seq(|cart|, i requires 0 <= i < |cart| =>
      if cart[i].product.id == id then cart[i].(quantity := cart[i].quantity + 1.0) else cart[i])
  }

  /** The cart after `addToCart(p)`: a product with no stock is refused,
      whether or not it is made to order; a product already in the cart
      goes one unit up unless its line already holds the product's stock;
      a new product gets a line of one unit at the end. */
  function CartWith(cart: seq<CartLine>, p: Product): (r: seq<CartLine>)
    ensures p.stock <= 0.0 ==> r == cart
    ensures p.stock > 0.0 && (forall i :: 0 <= i < |cart| ==> cart[i].product.id != p.id) ==>
      r == cart + [CartLine(p, 1.0)]
    ensures forall k :: 0 <= k < |cart| && cart[k].product.id == p.id && (forall i :: 0 <= i < k ==> cart[i].product.id != p.id) ==>
      r == (if p.stock <= 0.0 || cart[k].quantity >= p.stock then cart else Bumped(cart, p.id))
  {
    if p.stock <= 0.0 then cart
    else match IndexWhere(cart, SameProduct(p.id))
      case Some(k) => if cart[k].quantity >= p.stock then cart else Bumped(cart, p.id)
      case None => cart + [CartLine(p, 1.0)]
  }

  lemma WholeShift(q: real)
    requires Whole(q)
    ensures Whole(q + 1.0) && Whole(q - 1.0)
  {
    assert (q + 1.0).Floor == q.Floor + 1;
    assert (q - 1.0).Floor == q.Floor - 1;
  }

  lemma WholeGap(q: real, s: real)
    requires Whole(q) && Whole(s) && q < s
    ensures q + 1.0 <= s
  {
    assert q.Floor < s.Floor;
  }

  /** Adding keeps the cart well formed, provided stock counts are whole
      numbers and the product comes from the same listing as the line
      already in the cart (the till reloads its listing only after a sale,
      when the cart is emptied). */
  lemma CartWithKeepsCartOk(cart: seq<CartLine>, p: Product)
    requires CartOk(cart) && Whole(p.stock)
    requires forall i :: 0 <= i < |cart| && cart[i].product.id == p.id ==> cart[i].product.stock == p.stock
    ensures CartOk(CartWith(cart, p))
    ensures |CartWith(cart, p)| <= |cart| + 1
  {
    if p.stock > 0.0 {
      var found := IndexWhere(cart, SameProduct(p.id));
      if found.Some? && cart[found.value].quantity < p.stock {
        BumpedKeepsCartOk(cart, found.value, p);
      } else if found.None? {
        WholeGap(0.0, p.stock);
        AppendedKeepsCartOk(cart, p);
      }
    }
  }

  lemma BumpedKeepsCartOk(cart: seq<CartLine>, k: nat, p: Product)
    requires CartOk(cart) && Whole(p.stock)
    requires k < |cart| && cart[k].product.id == p.id && cart[k].product.stock == p.stock
    requires cart[k].quantity < p.stock
    ensures CartOk(Bumped(cart, p.id))
  {
    WholeGap(cart[k].quantity, p.stock);
    WholeShift(cart[k].quantity);
    var r := Bumped(cart, p.id);
    forall i | 0 <= i < |r| ensures 1.0 <= r[i].quantity <= r[i].product.stock && Whole(r[i].quantity) {
      if cart[i].product.id == p.id {
        assert i == k;
      } else {
        assert r[i] == cart[i];
      }
    }
  }

  lemma AppendedKeepsCartOk(cart: seq<CartLine>, p: Product)
    requires CartOk(cart) && 1.0 <= p.stock
    requires forall i :: 0 <= i < |cart| ==> cart[i].product.id != p.id
    ensures CartOk(cart + [CartLine(p, 1.0)])
  {
    assert Whole(1.0);
  }

  /** With a stock that is not a whole number the guard lets a line go past
      the stock: a product with 1.5 units takes a second unit. */
  lemma FractionalStockOverfill(p: Product)
    requires p.stock == 1.5
    ensures CartWith([CartLine(p, 1.0)], p) == [CartLine(p, 2.0)]
    ensures CartWith([CartLine(p, 1.0)], p)[0].quantity > p.stock
  {
    assert SameProduct(p.id)(CartLine(p, 1.0));
  }

  /** The cart after `decreaseQuantity(id)`: that product's line goes one
      unit down but never below one; every other line is untouched. */
  function CartDecreased(cart: seq<CartLine>, id: Option<Id>): (r: seq<CartLine>)
    ensures |r| == |cart|
    ensures forall i :: 0 <= i < |r| ==> r[i].product == cart[i].product
    ensures forall i :: 0 <= i < |r| && cart[i].product.id == id ==>
      r[i].quantity >= 1.0 && (cart[i].quantity >= 2.0 ==> r[i].quantity == cart[i].quantity - 1.0)
    ensures forall i :: 0 <= i < |r| && cart[i].product.id == id && cart[i].quantity <= 2.0 ==> r[i].quantity == 1.0
    ensures forall i :: 0 <= i < |r| && cart[i].product.id != id ==> r[i] == cart[i]
  {
    seq(|cart|, i requires 0 <= i < |cart| =>
      if cart[i].product.id == id
      then cart[i].(quantity := if cart[i].quantity - 1.0 > 1.0 then cart[i].quantity - 1.0 else 1.0)
      else cart[i])
  }

  lemma CartDecreasedKeepsCartOk(cart: seq<CartLine>, id: Option<Id>)
    requires CartOk(cart)
    ensures CartOk(CartDecreased(cart, id))
  {
    var r := CartDecreased(cart, id);
    forall i | 0 <= i < |r| ensures 1.0 <= r[i].quantity <= r[i].product.stock && Whole(r[i].quantity) {
      if cart[i].product.id == id && cart[i].quantity - 1.0 > 1.0 {
        WholeShift(cart[i].quantity);
      }
    }
  }

  /** The cart after `removeFromCart(id)`: the lines of that product go,
      the others stay in order. */
  function CartWithout(cart: seq<CartLine>, id: Option<Id>): (r: seq<CartLine>)
    ensures forall i :: 0 <= i < |r| ==> r[i].product.id != id && r[i] in cart
    ensures forall i :: 0 <= i < |cart| && cart[i].product.id != id ==> cart[i] in r
    ensures Selects(r, cart, OtherProduct(id))
  {
    FilterSelects(cart, OtherProduct(id));
    Filter(cart, OtherProduct(id))
  }

  lemma CartWithoutKeepsCartOk(cart: seq<CartLine>, id: Option<Id>)
    requires CartOk(cart)
    ensures CartOk(CartWithout(cart, id))
  {
    var r := CartWithout(cart, id);
    var idx: seq<nat> :|
      && |idx| == |r|
      && (forall j :: 0 <= j < |idx| ==> idx[j] < |cart| && r[j] == cart[idx[j]])
      && (forall i, j :: 0 <= i < j < |idx| ==> idx[i] < idx[j]);
    forall a, b | 0 <= a < b < |r| ensures r[a].product.id != r[b].product.id {
      assert idx[a] < idx[b];
    }
    forall a | 0 <= a < |r| ensures 1.0 <= r[a].quantity <= r[a].product.stock && Whole(r[a].quantity) {
      assert r[a] == cart[idx[a]];
    }
  }

  function LineValue(l: CartLine): real { l.product.salePrice * l.quantity }

  function LineQuantity(l: CartLine): real { l.quantity }

  /** `total`: each line at its sale price. */
  function Total(cart: seq<CartLine>): real
  {
    Sum(cart, LineValue)
  }

  /** `change`: the amount received (0 when it does not parse) less the total. */
  function Change(cart: seq<CartLine>, received: Option<real>): (r: real)
    ensures r + Total(cart) == ReadNumber(received)
    ensures received.None? ==> r == -Total(cart)
  {
    ReadNumber(received) - Total(cart)
  }

  /** With non-negative prices, a well-formed cart never totals below zero. */
  lemma TotalNonNegative(cart: seq<CartLine>)
    requires CartOk(cart)
    requires forall i :: 0 <= i < |cart| ==> cart[i].product.salePrice >= 0.0
    ensures Total(cart) >= 0.0
  {
    SumNonNegative(cart, LineValue);
  }

  /** `calculateInstallment`. */
  function InstallmentAmount(paymentType: string, total: real): (r: real)
    ensures paymentType == "2-pagos" ==> r * 2.0 == total
    ensures paymentType == "3-pagos" ==> r * 3.0 == total
    ensures paymentType != "2-pagos" && paymentType != "3-pagos" ==> r == 0.0
  {
    if paymentType == "2-pagos" then total / 2.0
    else if paymentType == "3-pagos" then total / 3.0
    else 0.0
  }

  /** `paymentType.includes('pagos')`. */
  predicate IsCreditType(paymentType: string)
  {
    Text.Contains(paymentType, "pagos")
  }

  /** The number of installments a credit sale is split into. */
  function InstallmentCount(paymentType: string): (n: int)
    ensures n == 2 || n == 3
    ensures n == 2 <==> paymentType == "2-pagos"
  {
    if paymentType == "2-pagos" then 2 else 3
  }

  /** Of the four payment types the till offers, exactly the two
      installment plans take the credit branch. */
  lemma PaymentTypes()
    ensures IsCreditType("2-pagos") && IsCreditType("3-pagos")
    ensures !IsCreditType("contado") && !IsCreditType("tarjeta")
  {
    Text.ContainsAt("2-pagos", "pagos");
    Text.ContainsAt("3-pagos", "pagos");
    assert Text.OccursAt("2-pagos", "pagos", 2);
    assert Text.OccursAt("3-pagos", "pagos", 2);
    Text.ContainsAt("contado", "pagos");
    Text.ContainsAt("tarjeta", "pagos");
    forall k ensures !Text.OccursAt("contado", "pagos", k) && !Text.OccursAt("tarjeta", "pagos", k) {
      if 0 <= k <= 2 {
        assert "contado"[k..k + 5][0] == "contado"[k] != 'p';
        assert "tarjeta"[k..k + 5][0] == "tarjeta"[k] != 'p';
      }
    }
  }

  /** `saleItems`: what each line sold, frozen at the listed prices. */
  function SaleItems(cart: seq<CartLine>): (r: seq<SaleItem>)
    ensures |r| == |cart|
    ensures forall i :: 0 <= i < |r| ==>
      r[i] == SaleItem(cart[i].product.name, cart[i].quantity, cart[i].product.salePrice, Some(cart[i].product.costPrice))
  {
    seq(|cart|, i requires 0 <= i < |cart| =>
      SaleItem(cart[i].product.name, cart[i].quantity, cart[i].product.salePrice, Some(cart[i].product.costPrice)))
  }

  /** The recorded items are worth exactly the cart total. */
  lemma {:induction false} SaleItemsValue(cart: seq<CartLine>)
    ensures ItemsValue(SaleItems(cart)) == Total(cart)
    decreases |cart|
  {
    if cart != [] {
      var init := cart[..|cart| - 1];
      SaleItemsValue(init);
      assert SaleItems(cart)[..|cart| - 1] == SaleItems(init);
    }
  }

  const CounterCustomer: string := "Cliente Mostrador"

  /** The sale `confirmSale` records. A payment type mentioning "pagos" is a
      credit sale in two installments for "2-pagos" and three otherwise;
      "tarjeta" is a card sale; anything else is cash and records what was
      received (0 when it does not parse) and the change. */
  function BuildSale(cart: seq<CartLine>, paymentType: string, customer: CustomerInfo, received: Option<real>,
                     seller: string, date: string): (r: Sale)
    ensures r.total == Total(cart) && r.items == SaleItems(cart) && ItemsValue(r.items) == r.total
    ensures r.date == date && r.sellerName == Some(seller) && !IsPayment(r.payMethod)
    ensures r.payMethod == Credit <==> IsCreditType(paymentType)
    ensures r.payMethod == Card <==> !IsCreditType(paymentType) && paymentType == "tarjeta"
    ensures r.payMethod == Credit ==>
      && r.customerName == Some(customer.name)
      && r.installmentCount == Some(InstallmentCount(paymentType))
      && r.installmentAmount.Some?
      && r.installmentAmount.value * (InstallmentCount(paymentType) as real) == r.total
    ensures r.payMethod != Credit ==> r.customerName == Some(CounterCustomer) && r.installmentCount.None?
    ensures r.payMethod == Cash ==>
      r.receivedAmount == Some(ReadNumber(received)) && r.change == Some(Change(cart, received))
    ensures r.payMethod != Cash ==> r.receivedAmount.None? && r.change.None?
    ensures r.debtPrevious.None? && r.debtRemaining.None?
  {
    SaleItemsValue(cart);
    var base := Sale(date, Total(cart), Cash, SaleItems(cart), Some(CounterCustomer), Some(seller),
                     None, None, None, None, None, None);
    if IsCreditType(paymentType) then
      var n := InstallmentCount(paymentType);
      base.(payMethod := Credit, customerName := Some(customer.name), installmentCount := Some(n),
            installmentAmount := Some(Total(cart) / (n as real)))
    else if paymentType == "tarjeta" then base.(payMethod := Card)
    else base.(receivedAmount := Some(ReadNumber(received)), change := Some(Change(cart, received)))
  }

  /** For the two plans the till offers, the installment on the receipt is
      the one shown while the sale was being put together. */
  lemma ReceiptInstallmentMatchesDisplay(cart: seq<CartLine>, paymentType: string, customer: CustomerInfo,
                                         received: Option<real>, seller: string, date: string)
    requires paymentType == "2-pagos" || paymentType == "3-pagos"
    ensures BuildSale(cart, paymentType, customer, received, seller, date).installmentAmount
      == Some(InstallmentAmount(paymentType, Total(cart)))
  {
    assert IsCreditType(paymentType) by {
      PaymentTypes();
    }
    var n := InstallmentCount(paymentType);
    assert BuildSale(cart, paymentType, customer, received, seller, date).installmentAmount
      == Some(Total(cart) / (n as real));
    if paymentType == "2-pagos" {
      assert n as real == 2.0;
    } else {
      assert n as real == 3.0;
    }
  }

  /** The account a credit sale opens: everything owed, nothing paid. */
  function CreditFor(cart: seq<CartLine>, paymentType: string, customer: CustomerInfo, date: string): CreditSale
  {
    CreditSale(None, None, customer.name, customer.phone, customer.address, Some(customer.notes), cart,
               Total(cart), Total(cart), InstallmentCount(paymentType), [], Active, date)
  }

  /** A credit opened from a cart with non-negative prices is a consistent
      ledger, and its total is the credit sale's total. */
  lemma NewCreditLedgerOk(cart: seq<CartLine>, paymentType: string, customer: CustomerInfo, received: Option<real>,
                          seller: string, date: string)
    requires CartOk(cart)
    requires forall i :: 0 <= i < |cart| ==> cart[i].product.salePrice >= 0.0
    ensures LedgerOk(CreditFor(cart, paymentType, customer, date))
    ensures CreditFor(cart, paymentType, customer, date).totalDebt == BuildSale(cart, paymentType, customer, received, seller, date).total
  {
    TotalNonNegative(cart);
  }

  /** The quantity of product `id` across the lines. */
  function QtyOf(id: Id): CartLine -> real
  {
    (l: CartLine) => if l.product.id == Some(id) then l.quantity else 0.0
  }

  /** The products after one `updateStock` per line, in order: a line with
      no id is skipped, and an id with no product behind it fails. */
  function StockStep(ps: seq<Doc<Product>>, l: CartLine): Option<seq<Doc<Product>>>
  {
    if l.product.id.None? then Some(ps)
    else if Lookup(ps, l.product.id.value).None? then None
    else Some(Replace(ps, l.product.id.value, AfterSale(Lookup(ps, l.product.id.value).value, l.quantity)))
  }

  function Decremented(ps: seq<Doc<Product>>, lines: seq<CartLine>): Option<seq<Doc<Product>>>
  {
    if lines == [] then Some(ps)
    else match Decremented(ps, lines[..|lines| - 1])
      case None => None
      case Some(qs) => StockStep(qs, lines[|lines| - 1])
  }

  /** The stock loop never adds, removes or reorders products. */
  lemma {:induction false} DecrementedIds(ps: seq<Doc<Product>>, lines: seq<CartLine>)
    ensures Decremented(ps, lines).Some? ==>
      |Decremented(ps, lines).value| == |ps| &&
      forall i :: 0 <= i < |ps| ==> Decremented(ps, lines).value[i].id == ps[i].id
    decreases |lines|
  {
    if lines != [] {
      DecrementedIds(ps, lines[..|lines| - 1]);
    }
  }

  /** Every line that names a product names one still stored. */
  predicate AllStored(ps: seq<Doc<Product>>, lines: seq<CartLine>)
  {
    forall i :: 0 <= i < |lines| && lines[i].product.id.Some? ==> Lookup(ps, lines[i].product.id.value).Some?
  }

  predicate LineStored(ps: seq<Doc<Product>>, l: CartLine)
  {
    l.product.id.Some? ==> Lookup(ps, l.product.id.value).Some?
  }

  lemma AllStoredSnoc(ps: seq<Doc<Product>>, lines: seq<CartLine>)
    requires lines != []
    ensures AllStored(ps, lines) <==> AllStored(ps, lines[..|lines| - 1]) && LineStored(ps, lines[|lines| - 1])
  {
    var init := lines[..|lines| - 1];
    if AllStored(ps, init) && LineStored(ps, lines[|lines| - 1]) {
      forall i | 0 <= i < |lines| && lines[i].product.id.Some?
        ensures Lookup(ps, lines[i].product.id.value).Some?
      {
        if i < |init| {
          assert lines[i] == init[i];
        }
      }
    }
    if AllStored(ps, lines) {
      forall i | 0 <= i < |init| && init[i].product.id.Some?
        ensures Lookup(ps, init[i].product.id.value).Some?
      {
        assert lines[i] == init[i];
      }
    }
  }

  lemma {:induction false} DecrementedSucceeds(ps: seq<Doc<Product>>, lines: seq<CartLine>)
    ensures Decremented(ps, lines).Some? <==> AllStored(ps, lines)
    decreases |lines|
  {
    if lines != [] {
      var init, last := lines[..|lines| - 1], lines[|lines| - 1];
      DecrementedSucceeds(ps, init);
      AllStoredSnoc(ps, lines);
      if Decremented(ps, init).Some? && last.product.id.Some? {
        DecrementedIds(ps, init);
        LookupSameIds(Decremented(ps, init).value, ps, last.product.id.value);
      }
    }
  }

  /** One step of the loop lowers the stock of the line's product by the
      line's quantity and leaves every other product alone. */
  lemma StockStepLookup(qs: seq<Doc<Product>>, l: CartLine, q: Id)
    requires StockStep(qs, l).Some?
    ensures Lookup(StockStep(qs, l).value, q) ==
      Lowered(Lookup(qs, q), QtyOf(q)(l))
  {
    if l.product.id.Some? {
      var k := l.product.id.value;
      LookupReplace(qs, k, AfterSale(Lookup(qs, k).value, l.quantity), q);
    }
  }

  /** What one product's lookup becomes after its stock is lowered by `a`. */
  function Lowered(found: Option<Product>, a: real): Option<Product>
  {
    if found.None? then None else Some(AfterSale(found.value, a))
  }

  lemma LoweredTwice(x: Option<Product>, y: Option<Product>, z: Option<Product>, a: real, b: real)
    requires y == Lowered(x, a) && z == Lowered(y, b)
    ensures z == Lowered(x, a + b)
  {
  }

  lemma {:induction false} DecrementedLookup(ps: seq<Doc<Product>>, lines: seq<CartLine>, q: Id)
    requires Decremented(ps, lines).Some?
    ensures Lookup(Decremented(ps, lines).value, q) ==
      Lowered(Lookup(ps, q), Sum(lines, QtyOf(q)))
    decreases |lines|
  {
    if lines == [] {
      assert Lookup(ps, q).Some? ==> AfterSale(Lookup(ps, q).value, 0.0) == Lookup(ps, q).value;
    } else {
      var init, last := lines[..|lines| - 1], lines[|lines| - 1];
      var qs := Decremented(ps, init).value;
      var a, b := Sum(init, QtyOf(q)), QtyOf(q)(last);
      assert Lookup(qs, q) == Lowered(Lookup(ps, q), a) by {
        DecrementedLookup(ps, init, q);
      }
      assert Lookup(Decremented(ps, lines).value, q) == Lowered(Lookup(qs, q), b) by {
        assert Decremented(ps, lines) == StockStep(qs, last);
        StockStepLookup(qs, last, q);
      }
      assert Sum(lines, QtyOf(q)) == a + b;
      LoweredTwice(Lookup(ps, q), Lookup(qs, q), Lookup(Decremented(ps, lines).value, q), a, b);
    }
  }

  /** The stock loop succeeds exactly when every line's product is still
      stored; then each product's stock is lowered by the total quantity
      of its lines and nothing else about any product changes. */
  lemma DecrementedSpec(ps: seq<Doc<Product>>, lines: seq<CartLine>, q: Id)
    ensures Decremented(ps, lines).Some? <==>
      forall i :: 0 <= i < |lines| && lines[i].product.id.Some? ==> Lookup(ps, lines[i].product.id.value).Some?
    ensures Decremented(ps, lines).Some? ==>
      Lookup(Decremented(ps, lines).value, q) ==
        (if Lookup(ps, q).None? then None else Some(AfterSale(Lookup(ps, q).value, Sum(lines, QtyOf(q)))))
  {
    DecrementedSucceeds(ps, lines);
    if Decremented(ps, lines).Some? {
      DecrementedLookup(ps, lines, q);
    }
  }

  /** With one line per product, as in a well-formed cart, each sold
      product loses exactly its line's quantity. */
  lemma {:induction false} QtyOfDistinct(lines: seq<CartLine>, k: nat)
    requires k < |lines| && lines[k].product.id.Some?
    requires forall i, j :: 0 <= i < j < |lines| ==> lines[i].product.id != lines[j].product.id
    ensures Sum(lines, QtyOf(lines[k].product.id.value)) == lines[k].quantity
    decreases |lines|
  {
    var id := lines[k].product.id.value;
    var init := lines[..|lines| - 1];
    if k == |lines| - 1 {
      ZeroQty(init, id);
    } else {
      QtyOfDistinct(init, k);
    }
  }

  lemma {:induction false} ZeroQty(lines: seq<CartLine>, id: Id)
    requires forall i :: 0 <= i < |lines| ==> lines[i].product.id != Some(id)
    ensures Sum(lines, QtyOf(id)) == 0.0
    decreases |lines|
  {
    if lines != [] {
      ZeroQty(lines[..|lines| - 1], id);
    }
  }

  lemma {:induction false} DecrementedNone(ps: seq<Doc<Product>>, lines: seq<CartLine>, k: nat)
    requires k <= |lines| && Decremented(ps, lines[..k]).None?
    ensures Decremented(ps, lines).None?
    decreases |lines| - k
  {
    if k < |lines| {
      assert lines[..k + 1][..k] == lines[..k];
      DecrementedNone(ps, lines, k + 1);
    } else {
      assert lines[..k] == lines;
    }
  }

  /** The stock loop one line further on. */
  lemma DecrementedStep(ps: seq<Doc<Product>>, lines: seq<CartLine>, k: nat)
    requires k < |lines|
    ensures Decremented(ps, lines[..k + 1]) ==
      if Decremented(ps, lines[..k]).None? then None else StockStep(Decremented(ps, lines[..k]).value, lines[k])
  {
    assert lines[..k + 1][..k] == lines[..k];
  }

  lemma StockStepHealthy(ps: seq<Doc<Product>>, l: CartLine, bound: nat)
    requires Healthy(ps, bound) && StockStep(ps, l).Some?
    ensures Healthy(StockStep(ps, l).value, bound)
  {
    if l.product.id.Some? {
      ReplaceHealthy(ps, l.product.id.value, AfterSale(Lookup(ps, l.product.id.value).value, l.quantity), bound);
    }
  }

  /** The loop at the end of `confirmSale`: one `updateStock` per cart line
      with an id, in cart order. A line whose product is gone makes the
      write fail and ends the loop; `processed` counts the lines done. */
  method DecrementStock(db: Database, cart: seq<CartLine>) returns (processed: nat)
    requires db.Valid()
    modifies db
    ensures db.Valid()
    ensures processed <= |cart|
    ensures Decremented(old(db.products), cart[..processed]) == Some(db.products)
    ensures processed < |cart| ==> StockStep(db.products, cart[processed]).None?
    ensures processed == |cart| <==> Decremented(old(db.products), cart).Some?
    ensures processed == |cart| ==> Decremented(old(db.products), cart) == Some(db.products)
    ensures db.credits == old(db.credits) && db.customers == old(db.customers) && db.nextId == old(db.nextId)
    ensures db.sales == old(db.sales) && db.cuts == old(db.cuts) && db.expenses == old(db.expenses)
  {
    processed := 0;
    while processed < |cart|
      invariant processed <= |cart|
      invariant db.Valid()
      invariant Decremented(old(db.products), cart[..processed]) == Some(db.products)
      invariant db.credits == old(db.credits) && db.customers == old(db.customers) && db.nextId == old(db.nextId)
      invariant db.sales == old(db.sales) && db.cuts == old(db.cuts) && db.expenses == old(db.expenses)
      decreases |cart| - processed
    {
      var line := cart[processed];
      DecrementedStep(old(db.products), cart, processed);
      if line.product.id.Some? {
        var ok := UpdateStock(db, line.product.id.value, line.quantity);
        if !ok {
          DecrementedNone(old(db.products), cart, processed + 1);
          return;
        }
      }
      processed := processed + 1;
    }
    assert cart[..processed] == cart;
  }

  /** What opening the installment account leaves in the store: exactly
      one new account under an unused id, which is `expected` linked to the
      customer that `getOrCreateCustomer` found or registered by the buyer's
      phone, and the directory as that call leaves it. */
  ghost predicate CreditOpened(before: seq<Doc<CreditSale>>, after: seq<Doc<CreditSale>>,
                               customersBefore: seq<Doc<Customer>>, customersAfter: seq<Doc<Customer>>,
                               expected: CreditSale, now: string)
  {
    && |after| == |before| + 1
    && after[..|before|] == before
    && Lookup(before, after[|before|].id).None?
    && var account := after[|before|].data;
       && account.customerId.Some?
       && account.(customerId := expected.customerId) == expected
       && Upserted(customersBefore, customersAfter, account.customerId.value, expected.customerName,
                   expected.customerPhone, expected.customerAddress, NotesOr(expected.customerNotes), now)
  }

  /** The writes of `confirmSale` before the stock loop: for credit, the
      account through `createCreditSale`; then the sale itself. */
  method RecordSale(db: Database, cart: seq<CartLine>, paymentType: string, customer: CustomerInfo,
                    sale: Sale, now: string)
    requires db.Valid()
    modifies db
    ensures db.Valid()
    ensures db.sales == old(db.sales) + [sale]
    ensures IsCreditType(paymentType) ==>
      && CreditOpened(old(db.credits), db.credits, old(db.customers), db.customers, CreditFor(cart, paymentType, customer, now), now)
      && db.nextId > old(db.nextId)
    ensures !IsCreditType(paymentType) ==>
      db.credits == old(db.credits) && db.customers == old(db.customers) && db.nextId == old(db.nextId)
    ensures db.products == old(db.products) && db.cuts == old(db.cuts) && db.expenses == old(db.expenses)
  {
    if IsCreditType(paymentType) {
      var c := CreditFor(cart, paymentType, customer, now);
      var creditId, customerId := CreateCreditSale(db, c, now);
      assert db.credits[..|old(db.credits)|] == old(db.credits);
    }
    db.sales := db.sales + [sale];
  }

  /** Every write of `confirmSale`: the sale (with its account, on
      credit), then the stock loop; `ok` says whether the loop got through
      every line. */
  method Checkout(db: Database, cart: seq<CartLine>, paymentType: string, customer: CustomerInfo,
                  sale: Sale, now: string) returns (ok: bool, processed: nat)
    requires db.Valid()
    modifies db
    ensures db.Valid()
    ensures db.sales == old(db.sales) + [sale]
    ensures IsCreditType(paymentType) ==>
      && CreditOpened(old(db.credits), db.credits, old(db.customers), db.customers, CreditFor(cart, paymentType, customer, now), now)
      && db.nextId > old(db.nextId)
    ensures !IsCreditType(paymentType) ==>
      db.credits == old(db.credits) && db.customers == old(db.customers) && db.nextId == old(db.nextId)
    ensures ok <==> Decremented(old(db.products), cart).Some?
    ensures ok ==> db.products == Decremented(old(db.products), cart).value
    ensures ok <==> processed == |cart|
    ensures processed <= |cart| && Decremented(old(db.products), cart[..processed]) == Some(db.products)
    ensures processed < |cart| ==> StockStep(db.products, cart[processed]).None?
    ensures db.cuts == old(db.cuts) && db.expenses == old(db.expenses)
  {
    RecordSale(db, cart, paymentType, customer, sale, now);
    processed := DecrementStock(db, cart);
    ok := processed == |cart|;
  }

  /** The till's filter: the lower-cased name contains the lower-cased
      query, or the barcode contains the query as typed. */
  predicate MatchesQuery(query: string, p: Product)
  {
    Text.Contains(Text.Lower(p.name), Text.Lower(query)) || Text.Contains(p.barcode, query)
  }

  function QueryFilter(query: string): Product -> bool
  {
    (p: Product) => MatchesQuery(query, p)
  }

  /** The listing the till hands to its screen. */
  function VisibleProducts(products: seq<Product>, query: string): (r: seq<Product>)
    ensures forall i :: 0 <= i < |r| ==> r[i] in products && MatchesQuery(query, r[i])
    ensures forall i :: 0 <= i < |products| && MatchesQuery(query, products[i]) ==> products[i] in r
    ensures Selects(r, products, QueryFilter(query))
  {
    FilterSelects(products, QueryFilter(query));
    Filter(products, QueryFilter(query))
  }

  /** The till's state. */
  class POSViewModel {
    var products: seq<Product>
    var cart: seq<CartLine>
    var searchQuery: string
    var loading: bool
    var amountReceived: string
    var paymentType: string
    var customer: CustomerInfo
    var lastSale: Option<Sale>
    var showTicket: bool

    constructor ()
      ensures products == [] && cart == [] && searchQuery == "" && loading
      ensures amountReceived == "" && paymentType == "contado" && customer == NoCustomer
      ensures lastSale.None? && !showTicket
    {
      products, cart, searchQuery, loading := [], [], "", true;
      amountReceived, paymentType, customer := "", "contado", NoCustomer;
      lastSale, showTicket := None, false;
    }

    /** `loadProducts`. */
    method LoadProducts(db: Database)
      modifies this`products, this`loading
      ensures products == ListProducts(db.products) && !loading
    {
      products := ListProducts(db.products);
      loading := false;
    }

    method AddToCart(p: Product)
      modifies this`cart
      ensures cart == CartWith(old(cart), p)
    {
      cart := CartWith(cart, p);
    }

    method DecreaseQuantity(id: Option<Id>)
      modifies this`cart
      ensures cart == CartDecreased(old(cart), id)
    {
      cart := CartDecreased(cart, id);
    }

    method RemoveFromCart(id: Option<Id>)
      modifies this`cart
      ensures cart == CartWithout(old(cart), id)
    {
      cart := CartWithout(cart, id);
    }

    /** After a sale: the reloaded listing, the receipt on screen, and an
      empty till set back to a cash sale with no customer. */
    predicate ShowsReceipt(listing: seq<Product>, sale: Sale)
      reads this
    {
      && products == listing && !loading
      && lastSale == Some(sale) && showTicket
      && cart == [] && amountReceived == "" && customer == NoCustomer && paymentType == "contado"
    }

    /** The end of a completed `confirmSale`. */
    method ShowReceipt(db: Database, sale: Sale)
      modifies this
      ensures ShowsReceipt(ListProducts(db.products), sale)
      ensures searchQuery == old(searchQuery)
    {
      LoadProducts(db);
      lastSale, showTicket := Some(sale), true;
      cart, amountReceived, customer, paymentType := [], "", NoCustomer, "contado";
    }

    /** The credit branch gives up before writing anything when the name
      or the phone is missing. */
    predicate MissingCustomer()
      reads this
    {
      IsCreditType(paymentType) && (customer.name == "" || customer.phone == "")
    }

    /** `confirmSale`. Nothing happens on an empty cart or, on credit,
      without a name and phone. Otherwise the sale is recorded (for credit,
      after opening the account), each line's product loses the line's
      quantity, and, if every product was still there, the listing is
      reloaded, the receipt shown and the till cleared back to "contado".
      If a product had gone, the write fails: what was written stays and
      the till is left as it was. `parse` stands for `parseFloat`. */
    method ConfirmSale(db: Database, parse: string -> Option<real>, displayName: Option<string>,
                       email: Option<string>, now: string)
      requires db.Valid()
      modifies this, db
      ensures db.Valid()
      ensures old(cart) == [] || old(MissingCustomer()) ==> unchanged(this) && unchanged(db)
      ensures old(cart) != [] && !old(MissingCustomer()) ==>
        var sale := BuildSale(old(cart), old(paymentType), old(customer), parse(old(amountReceived)),
                              UserLabel(displayName, email, "Desconocido"), now);
        && db.sales == old(db.sales) + [sale]
        && (IsCreditType(old(paymentType)) ==>
              && CreditOpened(old(db.credits), db.credits, old(db.customers), db.customers,
                              CreditFor(old(cart), old(paymentType), old(customer), now), now)
              && db.nextId > old(db.nextId))
        && (!IsCreditType(old(paymentType)) ==>
              db.credits == old(db.credits) && db.customers == old(db.customers) && db.nextId == old(db.nextId))
        && (Decremented(old(db.products), old(cart)).Some? ==>
              && db.products == Decremented(old(db.products), old(cart)).value
              && ShowsReceipt(ListProducts(db.products), sale))
        && (Decremented(old(db.products), old(cart)).None? ==>
              && unchanged(this)
              && exists k :: 0 <= k < |old(cart)| && Decremented(old(db.products), old(cart)[..k]) == Some(db.products)
                             && StockStep(db.products, old(cart)[k]).None?)
      ensures db.cuts == old(db.cuts) && db.expenses == old(db.expenses)
    {
      if cart == [] || MissingCustomer() {
        return;
      }
      var seller := UserLabel(displayName, email, "Desconocido");
      var sale := BuildSale(cart, paymentType, customer, parse(amountReceived), seller, now);
      var ok, processed := Checkout(db, cart, paymentType, customer, sale, now);
      if !ok {
        return;
      }
      ShowReceipt(db, sale);
    }
  }
}
