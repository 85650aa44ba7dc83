/** The record shapes the point-of-sale stores: products, sales with their
    items, credit accounts with their payment log, customers, expenses and
    daily cash cuts. Every JavaScript number is an exact `real`. */
module Records {
  import opened Seqs
  import Text

  /** A document identifier generated by the store. */
  type Id = nat

  /** `parseFloat(x) || 0`: a value that did not parse (NaN, here `None`)
      reads as 0, and so does a parsed 0. */
  function ReadNumber(parsed: Option<real>): (r: real)
    ensures parsed.None? ==> r == 0.0
    ensures parsed.Some? ==> r == parsed.value
  {
    match parsed
    case Some(v) => v
    case None => 0.0
  }

  /** `user?.displayName || user?.email || fallback`: the first of the two
      account names that is present and non-empty, else the fallback. */
  function UserLabel(displayName: Option<string>, email: Option<string>, fallback: string): (r: string)
    ensures r == fallback || (displayName.Some? && r == displayName.value) || (email.Some? && r == email.value)
    ensures fallback != "" ==> r != ""
    ensures displayName.Some? && displayName.value != "" ==> r == displayName.value
    ensures r == fallback ==> (displayName.None? || displayName.value == "" || displayName.value == fallback)
    ensures (displayName.None? || displayName.value == "") && email.Some? && email.value != "" ==> r == email.value
    ensures (displayName.None? || displayName.value == "") && (email.None? || email.value == "") ==> r == fallback
  {
    if displayName.Some? && displayName.value != "" then displayName.value
    else if email.Some? && email.value != "" then email.value
    else fallback
  }

  datatype Category = General | Snacks | Goods | Tools | Others

  /** The stored spelling of each category. */
  function CategoryName(c: Category): string
  {
    match c
    case General => "general"
    case Snacks => "snacks"
    case Goods => "productos"
    case Tools => "herramientas"
    case Others => "otros"
  }

  /** `category || 'otros'`. */
  function CategoryOr(c: Option<Category>): Category
  {
    if c.Some? then c.value else Others
  }

  /** A catalogue entry. `stock` may go negative for made-to-order items. */
  datatype Product = Product(
    id: Option<Id>,
    name: string,
    description: string,
    barcode: string,
    category: Option<Category>,
    isOnDemand: bool,
    costPrice: real,
    marketPrice: real,
    salePrice: real,
    wholesalePrice: real,
    stock: real,
    minStock: Option<real>)

  /** A cart line: the product as it was when added, and how many. */
  datatype CartLine = CartLine(product: Product, quantity: real)

  /** A sold line, snapshotted so later price edits leave history alone. */
  datatype SaleItem = SaleItem(name: string, quantity: real, price: real, cost: Option<real>)

  datatype SaleMethod = Cash | Card | Credit | PaymentCash | PaymentCard

  function MethodName(m: SaleMethod): string
  {
    match m
    case Cash => "cash"
    case Card => "card"
    case Credit => "credit"
    case PaymentCash => "payment_cash"
    case PaymentCard => "payment_card"
  }

  /** `method.includes('payment')`: the sale is a payment towards a credit. */
  predicate IsPayment(m: SaleMethod)
  {
    m == PaymentCash || m == PaymentCard
  }

  /** The views test the method's spelling for "payment"; that test picks
      out exactly the two credit-payment methods. */
  lemma PaymentSpelling(m: SaleMethod)
    ensures IsPayment(m) <==> Text.Contains(MethodName(m), "payment")
  {
    Text.ContainsAt(MethodName(m), "payment");
    if IsPayment(m) {
      assert Text.OccursAt(MethodName(m), "payment", 0);
    }
  }

  datatype Sale = Sale(
    date: string,
    total: real,
    payMethod: SaleMethod,
    items: seq<SaleItem>,
    customerName: Option<string>,
    sellerName: Option<string>,
    receivedAmount: Option<real>,
    change: Option<real>,
    installmentCount: Option<int>,
    installmentAmount: Option<real>,
    debtPrevious: Option<real>,
    debtRemaining: Option<real>)

  function ItemValue(i: SaleItem): real { i.price * i.quantity }

  /** What the items of a sale are worth at their sale prices. */
  function ItemsValue(items: seq<SaleItem>): real
  {
    Sum(items, ItemValue)
  }

  function SaleTotal(s: Sale): real { s.total }

  datatype PaymentMethod = PayCash | PayCard

  datatype PaymentLog = PaymentLog(amount: real, date: string, payMethod: PaymentMethod)

  function LogAmount(p: PaymentLog): real { p.amount }

  datatype CreditStatus = Active | Paid

  /** An installment account opened by a sale on credit. */
  datatype CreditSale = CreditSale(
    id: Option<Id>,
    customerId: Option<Id>,
    customerName: string,
    customerPhone: string,
    customerAddress: string,
    customerNotes: Option<string>,
    items: seq<CartLine>,
    totalDebt: real,
    remainingDebt: real,
    installmentCount: int,
    payments: seq<PaymentLog>,
    status: CreditStatus,
    date: string)

  function RemainingOf(c: CreditSale): real { c.remainingDebt }

  datatype Customer = Customer(name: string, phone: string, address: string, notes: string, createdAt: string)

  datatype Expense = Expense(description: string, amount: real, date: string, user: string)

  function ExpenseAmount(e: Expense): real { e.amount }

  /** A frozen end-of-day reconciliation. */
  datatype CashCut = CashCut(
    date: string,
    totalSales: real,
    totalSalesCash: real,
    totalSalesCard: real,
    initialAmount: real,
    totalWithdrawals: real,
    expectedAmount: real,
    realAmount: real,
    difference: real,
    notes: string,
    userName: string)
}
