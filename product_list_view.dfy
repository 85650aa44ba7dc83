/** The catalogue table: the stock badge of each product and the profit
    and installment figures shown beside it. */
module ProductListView {
  import Seqs
  import opened Records
  import opened POSViewModel

  /** The badge of `getStockStatus`: owing (with the units owed) or "SOBRE
      PEDIDO" for made-to-order products; sold out, low, warning or
      healthy for the rest. */
  datatype StockStatus = Owing(units: real) | OnDemand | SoldOut | Low | Warning | Healthy

  /** `product.minStock || 0`. */
  function MinStockOf(p: Product): (r: real)
    ensures p.minStock.None? ==> r == 0.0
    ensures p.minStock.Some? ==> r == p.minStock.value
  {
    if p.minStock.Some? then p.minStock.value else 0.0
  }

  /** `getStockStatus`. */
  function GetStockStatus(p: Product): (s: StockStatus)
    ensures s.Owing? <==> p.isOnDemand && p.stock < 0.0
    ensures s.Owing? ==> s.units == -p.stock && s.units > 0.0
    ensures s == OnDemand <==> p.isOnDemand && p.stock >= 0.0
    ensures s == SoldOut <==> !p.isOnDemand && p.stock <= 0.0
    ensures s == Low <==> !p.isOnDemand && 0.0 < p.stock <= MinStockOf(p)
    ensures s == Warning <==> !p.isOnDemand && 0.0 < p.stock && MinStockOf(p) < p.stock <= MinStockOf(p) + 2.0
    ensures s == Healthy <==> !p.isOnDemand && 0.0 < p.stock && MinStockOf(p) + 2.0 < p.stock
  {
    var minStock := MinStockOf(p);
    if p.isOnDemand then
      if p.stock < 0.0 then Owing(if p.stock < 0.0 then -p.stock else p.stock)
      else OnDemand
    else if p.stock <= 0.0 then SoldOut
    else if p.stock <= minStock then Low
    else if p.stock <= minStock + 2.0 then Warning
    else Healthy
  }

  /** The badge and the till agree that a sold-out product cannot be sold,
      but the till also refuses a made-to-order product whose stock is
      zero or owed, although its badge offers it to order. */
  lemma BadgeAndTill(cart: seq<CartLine>, p: Product)
    ensures GetStockStatus(p) == SoldOut ==> CartWith(cart, p) == cart
    ensures GetStockStatus(p).Owing? ==> CartWith(cart, p) == cart
    ensures GetStockStatus(p) == OnDemand && p.stock == 0.0 ==> CartWith(cart, p) == cart
    ensures GetStockStatus(p) in {Low, Warning, Healthy} ==> p.stock > 0.0
  {
  }

  /** The profit shown per unit. */
  function Profit(p: Product): (r: real)
    ensures r + p.costPrice == p.salePrice
    ensures r >= 0.0 <==> p.salePrice >= p.costPrice
  {
    p.salePrice - p.costPrice
  }

  /** The "2 pagos" and "3 pagos" figures shown per product are the till's
      installments for one unit bought on that plan. */
  lemma TableInstallments(p: Product)
    ensures p.salePrice / 2.0 == InstallmentAmount("2-pagos", Total([CartLine(p, 1.0)]))
    ensures p.salePrice / 3.0 == InstallmentAmount("3-pagos", Total([CartLine(p, 1.0)]))
  {
    Seqs.SumSingleton(CartLine(p, 1.0), LineValue);
  }
}
