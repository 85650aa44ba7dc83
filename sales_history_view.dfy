/** The sales history: the day filter and the three headline figures,
    the merchandise sold, the money that actually came in and the
    estimated profit. `dayKey` stands for the local `YYYY-MM-DD` day of a
    stored date. */
module SalesHistoryView {
  import opened Seqs
  import opened Records
  import opened POSViewModel
  import opened ProductListView

  function OnDate(dayKey: string -> string, filterDate: string): Sale -> bool
  {
    (s: Sale) => filterDate == "" || dayKey(s.date) == filterDate
  }

  /** `filteredSales`: an empty filter keeps every sale. */
  function FilteredSales(sales: seq<Sale>, dayKey: string -> string, filterDate: string): (r: seq<Sale>)
    ensures SubsequenceOf(r, sales)
    ensures filterDate == "" ==> r == sales
    ensures filterDate != "" ==> forall i :: 0 <= i < |r| ==> dayKey(r[i].date) == filterDate
    ensures forall i :: 0 <= i < |sales| && dayKey(sales[i].date) == filterDate ==> sales[i] in r
  {
    FilterSubsequence(sales, OnDate(dayKey, filterDate));
    if filterDate == "" then
      FilterAll(sales, OnDate(dayKey, filterDate));
      Filter(sales, OnDate(dayKey, filterDate))
    else Filter(sales, OnDate(dayKey, filterDate))
  }

  function NotPayment(): Sale -> bool { (s: Sale) => !IsPayment(s.payMethod) }

  function PaymentOnly(): Sale -> bool { (s: Sale) => IsPayment(s.payMethod) }

  function NotCredit(): Sale -> bool { (s: Sale) => s.payMethod != Credit }

  function CreditOnly(): Sale -> bool { (s: Sale) => s.payMethod == Credit }

  /** `totalSalesValue`: the merchandise sold, leaving out payments
      towards credit accounts. */
  function TotalSalesValue(sales: seq<Sale>): real
  {
    Sum(Filter(sales, NotPayment()), SaleTotal)
  }

  /** `totalCashReal`: everything except credit sales, which bring in no
      money on the day. */
  function TotalCashReal(sales: seq<Sale>): real
  {
    Sum(Filter(sales, NotCredit()), SaleTotal)
  }

  /** The two figures look at the same sales from two sides: the
      merchandise plus the credit payments equals the money in plus the
      sales made on credit. */
  lemma ValueAndCashReconcile(sales: seq<Sale>)
    ensures TotalSalesValue(sales) + Sum(Filter(sales, PaymentOnly()), SaleTotal)
         == TotalCashReal(sales) + Sum(Filter(sales, CreditOnly()), SaleTotal)
  {
    SumPartition(sales, NotPayment(), PaymentOnly(), SaleTotal);
    SumPartition(sales, NotCredit(), CreditOnly(), SaleTotal);
  }

  /** An item's profit; a missing cost counts as 0, so old sales show
      their whole price as profit. */
  function ItemProfit(i: SaleItem): (r: real)
    ensures i.cost.None? || i.cost == Some(0.0) ==> r == i.price * i.quantity
    ensures r == ItemValue(i) - ReadNumber(i.cost) * i.quantity
  {
    (i.price - ReadNumber(i.cost)) * i.quantity
  }

  function SaleProfit(s: Sale): real
  {
    Sum(s.items, ItemProfit)
  }

  /** One step of the `totalProfit` reduce: payments add nothing. */
  function ProfitOf(s: Sale): real
  {
    if IsPayment(s.payMethod) then 0.0 else SaleProfit(s)
  }

  /** `totalProfit`. */
  function TotalProfit(sales: seq<Sale>): real
  {
    Sum(sales, ProfitOf)
  }

  /** The profit is that of the merchandise sales alone. */
  lemma TotalProfitSpec(sales: seq<Sale>)
    ensures TotalProfit(sales) == Sum(Filter(sales, NotPayment()), SaleProfit)
  {
    SumFilter(sales, NotPayment(), SaleProfit, ProfitOf);
  }

  function LineProfit(l: CartLine): real
  {
    Profit(l.product) * l.quantity
  }

  /** A sale made at the till shows, in the history, the per-unit profit
      of the catalogue table times the units sold, line by line. */
  lemma TillSaleProfit(cart: seq<CartLine>, paymentType: string, customer: CustomerInfo,
                       received: Option<real>, seller: string, date: string)
    ensures SaleProfit(BuildSale(cart, paymentType, customer, received, seller, date)) == Sum(cart, LineProfit)
  {
    SaleItemsProfit(cart);
  }

  lemma {:induction false} SaleItemsProfit(cart: seq<CartLine>)
    ensures Sum(SaleItems(cart), ItemProfit) == Sum(cart, LineProfit)
    decreases |cart|
  {
    if cart != [] {
      var init := cart[..|cart| - 1];
      SaleItemsProfit(init);
      assert SaleItems(cart)[..|cart| - 1] == SaleItems(init);
    }
  }
}
