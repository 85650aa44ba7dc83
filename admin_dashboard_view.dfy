/** The manager's dashboard for one month: sales by seller, the five
    best-selling products, and the month's total. Credit payments are left
    out of every figure, since the sale they pay for is already counted. */
module AdminDashboardView {
  import opened Seqs
  import opened Records
  import Text
  import opened Tally

  /** The seller a sale is credited to when it carries no name. */
  const UnknownSeller: string := "Desconocido"

  /** How many products the top list shows. */
  const TopCount: nat := 5

  function InMonth(month: string): Sale -> bool
  {
    (s: Sale) => Text.StartsWith(s.date, month)
  }

  /** `filteredSales`: the sales whose date string starts with the chosen
      `YYYY-MM`. */
  function MonthSales(sales: seq<Sale>, month: string): (r: seq<Sale>)
    ensures SubsequenceOf(r, sales)
    ensures forall i :: 0 <= i < |r| ==> Text.StartsWith(r[i].date, month)
    ensures forall i :: 0 <= i < |sales| && Text.StartsWith(sales[i].date, month) ==> sales[i] in r
  {
    FilterSubsequence(sales, InMonth(month));
    Filter(sales, InMonth(month))
  }

  /** `sale.sellerName || "Desconocido"`. */
  function SellerKey(s: Sale): (k: string)
    ensures s.sellerName.None? || s.sellerName == Some("") ==> k == UnknownSeller
    ensures s.sellerName.Some? && s.sellerName.value != "" ==> k == s.sellerName.value
  {
    if s.sellerName.Some? && s.sellerName.value != "" then s.sellerName.value else UnknownSeller
  }

  /** What the seller loop adds for one sale: nothing for a payment. */
  function SellerPair(s: Sale): seq<Entry>
  {
    if IsPayment(s.payMethod) then [] else [Entry(SellerKey(s), s.total)]
  }

  /** Every (seller, total) pair the seller loop adds, in sale order. */
  function SellerPairs(sales: seq<Sale>): seq<Entry>
    decreases |sales|
  {
    if sales == [] then []
    else SellerPairs(sales[..|sales| - 1]) + SellerPair(sales[|sales| - 1])
  }

  function ItemPairs(items: seq<SaleItem>): (r: seq<Entry>)
    ensures |r| == |items|
    ensures forall i :: 0 <= i < |items| ==> r[i] == Entry(items[i].name, items[i].quantity)
  {
    seq(|items|, i requires 0 <= i < |items| => Entry(items[i].name, items[i].quantity))
  }

  /** Every (name, quantity) pair the product loop adds, in sale and item
      order; payments add none. */
  function ProductPairs(sales: seq<Sale>): seq<Entry>
    decreases |sales|
  {
    if sales == [] then []
    else
      var last := sales[|sales| - 1];
      ProductPairs(sales[..|sales| - 1]) + (if IsPayment(last.payMethod) then [] else ItemPairs(last.items))
  }

  lemma TallySnoc(pairs: seq<Entry>, x: Entry)
    ensures Totals(pairs + [x]) == Bump(Totals(pairs), x.key, x.amount)
  {
    assert (pairs + [x])[..|pairs|] == pairs;
  }

  /** One turn of the seller loop. */
  lemma SellerStep(sales: seq<Sale>, i: nat, ranking: seq<Entry>)
    requires i < |sales| && ranking == Totals(SellerPairs(sales[..i]))
    ensures (if IsPayment(sales[i].payMethod) then ranking else Bump(ranking, SellerKey(sales[i]), sales[i].total))
      == Totals(SellerPairs(sales[..i + 1]))
  {
    assert sales[..i + 1][..i] == sales[..i];
    assert SellerPairs(sales[..i + 1]) == SellerPairs(sales[..i]) + SellerPair(sales[i]);
    if !IsPayment(sales[i].payMethod) {
      TallySnoc(SellerPairs(sales[..i]), Entry(SellerKey(sales[i]), sales[i].total));
    } else {
      assert SellerPair(sales[i]) == [];
      assert SellerPairs(sales[..i]) + [] == SellerPairs(sales[..i]);
    }
  }

  /** One turn of the product loop's outer level, once the inner loop has
      run over every item. */
  lemma ProductStep(sales: seq<Sale>, i: nat)
    requires i < |sales|
    ensures ProductPairs(sales[..i + 1]) ==
      ProductPairs(sales[..i]) + (if IsPayment(sales[i].payMethod) then [] else ItemPairs(sales[i].items))
  {
    assert sales[..i + 1][..i] == sales[..i];
  }

  /** One turn of the product loop's inner level. */
  lemma ItemStep(done: seq<Entry>, items: seq<SaleItem>, j: nat, ranking: seq<Entry>)
    requires j < |items| && ranking == Totals(done + ItemPairs(items[..j]))
    ensures Bump(ranking, items[j].name, items[j].quantity) == Totals(done + ItemPairs(items[..j + 1]))
  {
    var x := Entry(items[j].name, items[j].quantity);
    assert ItemPairs(items[..j + 1]) == ItemPairs(items[..j]) + [x];
    assert done + ItemPairs(items[..j + 1]) == (done + ItemPairs(items[..j])) + [x];
    TallySnoc(done + ItemPairs(items[..j]), x);
  }

  /** `sellersRanking`: the `forEach` that adds each non-payment sale's
      total to its seller's running total. */
  method SellersRanking(sales: seq<Sale>) returns (ranking: seq<Entry>)
    ensures ranking == Totals(SellerPairs(sales))
  {
    ranking := [];
    var i := 0;
    while i < |sales|
      invariant 0 <= i <= |sales|
      invariant ranking == Totals(SellerPairs(sales[..i]))
    {
      var sale := sales[i];
      SellerStep(sales, i, ranking);
      if !IsPayment(sale.payMethod) {
        ranking := Bump(ranking, SellerKey(sale), sale.total);
      }
      i := i + 1;
    }
    assert sales[..i] == sales;
  }

  /** The inner `forEach` of `productsRanking`: one sale's items added,
      in order, to the running totals of everything before it. */
  method AddItems(ranking: seq<Entry>, ghost done: seq<Entry>, items: seq<SaleItem>) returns (r: seq<Entry>)
    requires ranking == Totals(done)
    ensures r == Totals(done + ItemPairs(items))
  {
    r := ranking;
    assert done + ItemPairs(items[..0]) == done;
    var j := 0;
    while j < |items|
      invariant 0 <= j <= |items|
      invariant r == Totals(done + ItemPairs(items[..j]))
    {
      ItemStep(done, items, j, r);
      r := Bump(r, items[j].name, items[j].quantity);
      j := j + 1;
    }
    assert items[..j] == items;
  }

  /** `productsRanking`: the nested `forEach` that adds each item's
      quantity to its product name's running total. */
  method ProductsRanking(sales: seq<Sale>) returns (ranking: seq<Entry>)
    ensures ranking == Totals(ProductPairs(sales))
  {
    ranking := [];
    var i := 0;
    while i < |sales|
      invariant 0 <= i <= |sales|
      invariant ranking == Totals(ProductPairs(sales[..i]))
    {
      var sale := sales[i];
      ProductStep(sales, i);
      if !IsPayment(sale.payMethod) {
        ranking := AddItems(ranking, ProductPairs(sales[..i]), sale.items);
      } else {
        assert ProductPairs(sales[..i]) + [] == ProductPairs(sales[..i]);
      }
      i := i + 1;
    }
    assert sales[..i] == sales;
  }

  /** `sortedSellers`, and the product list before it is cut to five. */
  function ByAmount(ranking: seq<Entry>): (r: seq<Entry>)
    ensures |r| == |ranking| && multiset(r) == multiset(ranking)
    ensures SortedDesc(r, AmountOf)
  {
    SortDescSpec(ranking, AmountOf);
    SortDesc(ranking, AmountOf)
  }

  /** `topProducts`. */
  function TopProducts(ranking: seq<Entry>): (r: seq<Entry>)
    ensures |r| <= TopCount
    ensures |r| == if |ranking| < TopCount then |ranking| else TopCount
    ensures r == ByAmount(ranking)[..|r|]
  {
    var sorted := ByAmount(ranking);
    sorted[..if |sorted| < TopCount then |sorted| else TopCount]
  }

  /** `maxSale`: the top seller's total, or 1 with no sellers, the scale of
      the progress bars. */
  function MaxSale(sorted: seq<Entry>): (r: real)
    ensures sorted == [] ==> r == 1.0
    ensures sorted != [] ==> r == sorted[0].amount
  {
    if |sorted| > 0 then sorted[0].amount else 1.0
  }

  /** The month total shown at the bottom: the reduce that skips payments. */
  function MonthTotalTerm(s: Sale): real
  {
    if !IsPayment(s.payMethod) then s.total else 0.0
  }

  function MonthTotal(sales: seq<Sale>): real
  {
    Sum(sales, MonthTotalTerm)
  }

  /** What seller `k`'s sales add up to. */
  function SellerTerm(k: string): Sale -> real
  {
    (s: Sale) => if !IsPayment(s.payMethod) && SellerKey(s) == k then s.total else 0.0
  }

  lemma {:induction false} SellerPairsSums(sales: seq<Sale>, k: string)
    ensures Sum(SellerPairs(sales), AmountOf) == MonthTotal(sales)
    ensures KeyTotal(SellerPairs(sales), k) == Sum(sales, SellerTerm(k))
    decreases |sales|
  {
    if sales != [] {
      var init, last := sales[..|sales| - 1], sales[|sales| - 1];
      SellerPairsSums(init, k);
      SumAppend(SellerPairs(init), SellerPair(last), AmountOf);
      SumAppend(SellerPairs(init), SellerPair(last), AmountIf(k));
      if !IsPayment(last.payMethod) {
        SumSingleton(Entry(SellerKey(last), last.total), AmountOf);
        SumSingleton(Entry(SellerKey(last), last.total), AmountIf(k));
      }
    }
  }

  /** Reordering the tallied entries keeps each one's amount equal to
      its key's total. */
  lemma AmountsFollow(t: seq<Entry>, sorted: seq<Entry>, pairs: seq<Entry>)
    requires multiset(sorted) == multiset(t)
    requires forall i :: 0 <= i < |t| ==> t[i].amount == KeyTotal(pairs, t[i].key)
    ensures forall i :: 0 <= i < |sorted| ==> sorted[i].amount == KeyTotal(pairs, sorted[i].key)
  {
    forall i | 0 <= i < |sorted| ensures sorted[i].amount == KeyTotal(pairs, sorted[i].key) {
      assert sorted[i] in multiset(t);
      var j :| 0 <= j < |t| && t[j] == sorted[i];
    }
  }

  /** The seller ranking as shown: one entry per seller, each holding the
      sum of that seller's non-payment sales, highest first, a permutation
      of the dictionary's entries, adding up to the month total; and no
      bar is longer than the top seller's. */
  lemma SellersRankingSpec(sales: seq<Sale>)
    ensures var sorted := ByAmount(Totals(SellerPairs(sales)));
      && multiset(sorted) == multiset(Totals(SellerPairs(sales)))
      && SortedDesc(sorted, AmountOf)
      && (forall i :: 0 <= i < |sorted| ==> sorted[i].amount == Sum(sales, SellerTerm(sorted[i].key)))
      && Sum(sorted, AmountOf) == MonthTotal(sales)
      && (forall i :: 0 <= i < |sorted| ==> sorted[i].amount <= MaxSale(sorted))
  {
    var pairs := SellerPairs(sales);
    var t := Totals(pairs);
    var sorted := ByAmount(t);
    TallySpec(pairs);
    SumSortDesc(t, AmountOf, AmountOf);
    SellerPairsSums(sales, "");
    AmountsFollow(t, sorted, pairs);
    forall i | 0 <= i < |sorted| ensures sorted[i].amount == Sum(sales, SellerTerm(sorted[i].key)) {
      SellerPairsSums(sales, sorted[i].key);
    }
  }

  /** The first five of any tally: sorted, each entry its key's total,
      and nothing after them larger. */
  lemma TopOfTally(pairs: seq<Entry>)
    ensures var top := TopProducts(Totals(pairs));
      && |top| <= TopCount
      && SortedDesc(top, AmountOf)
      && (forall i :: 0 <= i < |top| ==> top[i].amount == KeyTotal(pairs, top[i].key))
      && (forall i, j :: 0 <= i < |top| <= j < |ByAmount(Totals(pairs))| ==> ByAmount(Totals(pairs))[j].amount <= top[i].amount)
  {
    var t := Totals(pairs);
    var sorted := ByAmount(t);
    var top := TopProducts(t);
    TallySpec(pairs);
    AmountsFollow(t, sorted, pairs);
    SortedPrefix(sorted, AmountOf, |top|);
  }

  /** The top list: at most five products, each with the total quantity
      sold under its name, highest first, and no product left out sold
      more than one that is shown. */
  lemma TopProductsSpec(sales: seq<Sale>)
    ensures var t := Totals(ProductPairs(sales));
      var top := TopProducts(t);
      && |top| <= TopCount
      && SortedDesc(top, AmountOf)
      && (forall i :: 0 <= i < |top| ==> top[i].amount == KeyTotal(ProductPairs(sales), top[i].key))
      && (forall i, j :: 0 <= i < |top| <= j < |ByAmount(t)| ==> ByAmount(t)[j].amount <= top[i].amount)
  {
    TopOfTally(ProductPairs(sales));
  }
}
