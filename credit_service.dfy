/** Installment accounts: opening one for a customer, taking a payment
    towards one (which also records a payment sale), listing and deleting. */
module CreditService {
  import opened Seqs
  import opened Records
  import opened Store
  import opened CustomerService

  /** The payment threshold: half a currency unit or less still owed counts
      as settled. */
  const Tolerance: real := 0.5

  function StatusAfter(remaining: real): (s: CreditStatus)
    ensures s == Paid <==> remaining <= Tolerance
    ensures s == Active <==> remaining > Tolerance
  {
    if remaining <= Tolerance then Paid else Active
  }

  /** The stored credit after `addPayment`. The new remaining debt is
      computed from the caller's `currentRemaining`, not from the stored
      value. */
  function ApplyPayment(c: CreditSale, amount: real, currentRemaining: real, m: PaymentMethod, date: string): (r: CreditSale)
    ensures r.remainingDebt == currentRemaining - amount
    ensures r.status == Paid <==> r.remainingDebt <= Tolerance
    ensures r.payments == c.payments + [PaymentLog(amount, date, m)]
    ensures r.(remainingDebt := c.remainingDebt, status := c.status, payments := c.payments) == c
  {
    var remaining := currentRemaining - amount;
    c.(remainingDebt := remaining, status := StatusAfter(remaining),
       payments := c.payments + [PaymentLog(amount, date, m)])
  }

  function SaleMethodFor(m: PaymentMethod): (r: SaleMethod)
    ensures IsPayment(r)
    ensures r == PaymentCash <==> m == PayCash
    ensures r == PaymentCard <==> m == PayCard
  {
    match m
    case PayCash => PaymentCash
    case PayCard => PaymentCard
  }

  const PaymentItemName: string := "Abono a Cuenta"

  /** The receipt `addPayment` records in the sales collection. */
  function PaymentSale(customerName: string, amount: real, currentRemaining: real, m: PaymentMethod,
                       sellerName: string, date: string): (s: Sale)
    ensures s.total == amount && s.date == date
    ensures s.payMethod == SaleMethodFor(m) && IsPayment(s.payMethod)
    ensures s.items == [SaleItem(PaymentItemName, 1.0, amount, None)]
    ensures ItemsValue(s.items) == s.total
    ensures s.debtPrevious.Some? && s.debtRemaining.Some?
    ensures s.debtPrevious.value - s.total == s.debtRemaining.value
    ensures s.debtPrevious == Some(currentRemaining)
    ensures s.customerName == Some(customerName) && s.sellerName == Some(sellerName)
    ensures s.receivedAmount.None? && s.change.None?
    ensures s.installmentCount.None? && s.installmentAmount.None?
  {
    var s := Sale(date, amount, SaleMethodFor(m), [SaleItem(PaymentItemName, 1.0, amount, None)],
                  Some(customerName), Some(sellerName), None, None, None, None,
                  Some(currentRemaining), Some(currentRemaining - amount));
    SumSingleton(SaleItem(PaymentItemName, 1.0, amount, None), ItemValue);
    s
  }

  /** The receipt's debt snapshot matches the stored credit: what was owed
      before is the caller's figure, what is owed after is the new stored
      remaining debt, and the log grew by the receipt's total. */
  lemma ReceiptMatchesCredit(c: CreditSale, amount: real, currentRemaining: real, m: PaymentMethod,
                             sellerName: string, date: string)
    ensures var r := ApplyPayment(c, amount, currentRemaining, m, date);
            var s := PaymentSale(c.customerName, amount, currentRemaining, m, sellerName, date);
            && s.debtRemaining == Some(r.remainingDebt)
            && Sum(r.payments, LogAmount) == Sum(c.payments, LogAmount) + s.total
            && (s.payMethod == PaymentCash <==> r.payments[|r.payments| - 1].payMethod == PayCash)
  {
    var r := ApplyPayment(c, amount, currentRemaining, m, date);
    SumAppend(c.payments, [PaymentLog(amount, date, m)], LogAmount);
    SumSingleton(PaymentLog(amount, date, m), LogAmount);
  }

  /** `addPayment`. The stored credit is updated and the receipt is
      appended to the sales and returned; an id with no credit behind it
      fails before anything is written. */
  method AddPayment(db: Database, creditId: Id, amount: real, currentRemaining: real, m: PaymentMethod,
                    sellerName: string, now: string) returns (r: Option<Sale>)
    requires db.Valid()
    modifies db
    ensures db.Valid()
    ensures r.Some? <==> Lookup(old(db.credits), creditId).Some?
    ensures r.None? ==> unchanged(db)
    ensures r.Some? ==>
      var c := Lookup(old(db.credits), creditId).value;
      && r.value == PaymentSale(c.customerName, amount, currentRemaining, m, sellerName, now)
      && db.credits == Replace(old(db.credits), creditId, ApplyPayment(c, amount, currentRemaining, m, now))
      && db.sales == old(db.sales) + [r.value]
    ensures db.products == old(db.products) && db.customers == old(db.customers) && db.nextId == old(db.nextId)
    ensures db.cuts == old(db.cuts) && db.expenses == old(db.expenses)
  {
    var stored := Lookup(db.credits, creditId);
    if stored.None? {
      return None;
    }
    var c := stored.value;
    ReplaceHealthy(db.credits, creditId, ApplyPayment(c, amount, currentRemaining, m, now), db.nextId);
    db.credits := Replace(db.credits, creditId, ApplyPayment(c, amount, currentRemaining, m, now));
    var receipt := PaymentSale(c.customerName, amount, currentRemaining, m, sellerName, now);
    db.sales := db.sales + [receipt];
    r := Some(receipt);
  }

  /** `saleData.customerNotes || ""`. */
  function NotesOr(notes: Option<string>): string
  {
    if notes.Some? then notes.value else ""
  }

  /** `createCreditSale`: the customer is found or registered by phone, and
      the credit is stored as given except for the customer id. */
  method CreateCreditSale(db: Database, c: CreditSale, now: string) returns (id: Id, customerId: Id)
    requires db.Valid()
    modifies db
    ensures db.Valid()
    ensures Upserted(old(db.customers), db.customers, customerId, c.customerName, c.customerPhone,
                     c.customerAddress, NotesOr(c.customerNotes), now)
    ensures Lookup(old(db.credits), id).None?
    ensures db.credits == old(db.credits) + [Doc(id, c.(customerId := Some(customerId)))]
    ensures db.nextId > old(db.nextId)
    ensures db.products == old(db.products)
    ensures db.sales == old(db.sales) && db.cuts == old(db.cuts) && db.expenses == old(db.expenses)
  {
    customerId := GetOrCreateCustomer(db, c.customerName, c.customerPhone, c.customerAddress, NotesOr(c.customerNotes), now);
    ghost var customers := db.customers;
    id := db.FreshId();
    var d := Doc(id, c.(customerId := Some(customerId)));
    AppendHealthy(db.credits, d, db.nextId);
    db.credits := db.credits + [d];
    assert db.customers == customers;
  }

  /** `{ id: doc.id, ...doc.data() }`: a stored id field wins over the
      document's own id. */
  function ListedCredit(d: Doc<CreditSale>): (r: CreditSale)
    ensures r.id.Some?
    ensures d.data.id.None? ==> r.id == Some(d.id)
    ensures r.(id := d.data.id) == d.data
  {
    if d.data.id.Some? then d.data else d.data.(id := Some(d.id))
  }

  /** `getCredits`. */
  function ListCredits(docs: seq<Doc<CreditSale>>): (r: seq<CreditSale>)
    ensures |r| == |docs|
    ensures forall i :: 0 <= i < |r| ==> r[i] == ListedCredit(docs[i])
  {
    seq(|docs|, i requires 0 <= i < |docs| => ListedCredit(docs[i]))
  }

  /** A credit stored by `createCreditSale` from a sale without an id lists
      under its new document id with the customer it was linked to. */
  lemma CreatedCreditLists(docs: seq<Doc<CreditSale>>, id: Id, c: CreditSale, customerId: Id)
    requires c.id.None?
    ensures ListCredits(docs + [Doc(id, c.(customerId := Some(customerId)))])[|docs|]
      == c.(id := Some(id), customerId := Some(customerId))
  {
  }

  /** `deleteCredit`. */
  method DeleteCredit(db: Database, id: Id)
    requires db.Valid()
    modifies db
    ensures db.Valid()
    ensures db.credits == Remove(old(db.credits), id)
    ensures db.products == old(db.products) && db.customers == old(db.customers) && db.nextId == old(db.nextId)
    ensures db.sales == old(db.sales) && db.cuts == old(db.cuts) && db.expenses == old(db.expenses)
  {
    FilterHealthy(db.credits, LacksId(id), db.nextId);
    db.credits := Remove(db.credits, id);
  }
}
