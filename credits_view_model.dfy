/** The credits screen's state: the credit list, newest first, and the two
    actions on it, taking a payment and deleting a debt. The two guards on a
    payment are what keep every account's ledger consistent. */
module CreditsViewModel {
  import opened Seqs
  import opened Records
  import opened Store
  import opened CreditService

  datatype Verdict = Accepted | InvalidAmount | Overpayment

  /** The guards of `registerPayment`: a missing (NaN), zero or negative
      amount is refused, then an amount above what is owed. */
  function CheckPayment(amount: Option<real>, currentRemaining: real): (v: Verdict)
    ensures v == Accepted <==> amount.Some? && 0.0 < amount.value <= currentRemaining
    ensures v == InvalidAmount <==> amount.None? || amount.value <= 0.0
    ensures v == Overpayment <==> amount.Some? && 0.0 < amount.value && currentRemaining < amount.value
  {
    if amount.None? || amount.value <= 0.0 then InvalidAmount
    else if amount.value > currentRemaining then Overpayment
    else Accepted
  }

  /** A consistent installment account: nothing is owed below zero, what
      has been paid off is exactly what the log records, every logged
      payment is positive, an account without payments is still open, and
      once paid into it is settled exactly when at most the tolerance
      remains. */
  ghost predicate LedgerOk(c: CreditSale)
  {
    && c.remainingDebt >= 0.0
    && c.totalDebt - c.remainingDebt == Sum(c.payments, LogAmount)
    && (forall i :: 0 <= i < |c.payments| ==> c.payments[i].amount > 0.0)
    && (c.payments == [] ==> c.status == Active)
    && (c.payments != [] ==> (c.status == Paid <==> c.remainingDebt <= Tolerance))
  }

  /** An account as a credit sale opens it (everything owed, no payments,
      open) is consistent. */
  lemma OpenedLedgerOk(c: CreditSale)
    requires c.remainingDebt == c.totalDebt && c.totalDebt >= 0.0
    requires c.payments == [] && c.status == Active
    ensures LedgerOk(c)
  {
  }

  /** A payment that passes the guards, made against the stored remaining
      debt, keeps the ledger consistent, strictly lowers the debt without
      taking it below zero, never reopens a settled account, and settles
      the account when it pays everything. */
  lemma AcceptedPaymentKeepsLedger(c: CreditSale, amount: real, m: PaymentMethod, date: string)
    requires LedgerOk(c)
    requires CheckPayment(Some(amount), c.remainingDebt) == Accepted
    ensures var r := ApplyPayment(c, amount, c.remainingDebt, m, date);
      && LedgerOk(r)
      && 0.0 <= r.remainingDebt < c.remainingDebt
      && (c.status == Paid ==> r.status == Paid)
      && (amount == c.remainingDebt ==> r.remainingDebt == 0.0 && r.status == Paid)
  {
    var r := ApplyPayment(c, amount, c.remainingDebt, m, date);
    SumAppend(c.payments, [PaymentLog(amount, date, m)], LogAmount);
    SumSingleton(PaymentLog(amount, date, m), LogAmount);
    assert r.payments[|c.payments|].amount == amount;
  }

  /** The service trusts the caller's figure: a payment made against any
      other remaining debt than the stored one leaves the account with a
      paid-off amount that disagrees with its log. */
  lemma StaleRemainingBreaksLedger(c: CreditSale, amount: real, currentRemaining: real, m: PaymentMethod, date: string)
    requires LedgerOk(c) && currentRemaining != c.remainingDebt
    ensures var r := ApplyPayment(c, amount, currentRemaining, m, date);
      r.totalDebt - r.remainingDebt != Sum(r.payments, LogAmount)
  {
    SumAppend(c.payments, [PaymentLog(amount, date, m)], LogAmount);
    SumSingleton(PaymentLog(amount, date, m), LogAmount);
  }

  /** One payment attempt typed into the credits screen. */
  datatype Attempt = Attempt(amount: Option<real>, payMethod: PaymentMethod, date: string)

  /** The account after a sequence of attempts, each checked against and
      made against the stored remaining debt; refused attempts change
      nothing. */
  function Replay(c: CreditSale, attempts: seq<Attempt>): CreditSale
    decreases |attempts|
  {
    if attempts == [] then c
    else
      var a := attempts[0];
      var next := if CheckPayment(a.amount, c.remainingDebt) == Accepted
                  then ApplyPayment(c, a.amount.value, c.remainingDebt, a.payMethod, a.date)
                  else c;
      Replay(next, attempts[1..])
  }

  /** Over any sequence of attempts the ledger stays consistent, the debt
      never grows, a settled account stays settled, earlier log entries
      are kept, and the account's other fields never change. */
  lemma {:induction false} ReplayKeepsLedger(c: CreditSale, attempts: seq<Attempt>)
    requires LedgerOk(c)
    ensures var r := Replay(c, attempts);
      && LedgerOk(r)
      && r.remainingDebt <= c.remainingDebt
      && (c.status == Paid ==> r.status == Paid)
      && |c.payments| <= |r.payments| && r.payments[..|c.payments|] == c.payments
      && r.(remainingDebt := c.remainingDebt, status := c.status, payments := c.payments) == c
    decreases |attempts|
  {
    if attempts != [] {
      var a := attempts[0];
      if CheckPayment(a.amount, c.remainingDebt) == Accepted {
        var next := ApplyPayment(c, a.amount.value, c.remainingDebt, a.payMethod, a.date);
        AcceptedPaymentKeepsLedger(c, a.amount.value, a.payMethod, a.date);
        ReplayKeepsLedger(next, attempts[1..]);
        var r := Replay(next, attempts[1..]);
        assert r.payments[..|next.payments|][..|c.payments|] == r.payments[..|c.payments|];
      } else {
        ReplayKeepsLedger(c, attempts[1..]);
      }
    }
  }

  /** The date order of `loadCredits`. */
  function ByDate(timeOf: string -> real): CreditSale -> real
  {
    (c: CreditSale) => timeOf(c.date)
  }

  function NotId(id: Id): CreditSale -> bool
  {
    (c: CreditSale) => c.id != Some(id)
  }

  /** The screen's credit list. `timeOf` stands for `new Date(d).getTime()`. */
  class CreditsViewModel {
    var credits: seq<CreditSale>
    var loading: bool

    constructor ()
      ensures credits == [] && loading
    {
      credits := [];
      loading := true;
    }

    /** `loadCredits`: every stored credit, newest first. */
    method LoadCredits(db: Database, timeOf: string -> real)
      modifies this
      ensures credits == SortDesc(ListCredits(db.credits), ByDate(timeOf))
      ensures multiset(credits) == multiset(ListCredits(db.credits))
      ensures SortedDesc(credits, ByDate(timeOf))
      ensures !loading
    {
      SortDescSpec(ListCredits(db.credits), ByDate(timeOf));
      credits := SortDesc(ListCredits(db.credits), ByDate(timeOf));
      loading := false;
    }

    /** `registerPayment`. A refused amount returns nothing and touches
      neither the store nor the list. An accepted one goes through
      `addPayment` as the signed-in user (or "Cajero"), and the list is
      reloaded; if the credit is gone the call fails and nothing changes. */
    method RegisterPayment(db: Database, id: Id, amount: Option<real>, currentRemaining: real, m: PaymentMethod,
                           displayName: Option<string>, email: Option<string>, now: string, timeOf: string -> real)
      returns (ticket: Option<Sale>)
      requires db.Valid()
      modifies this, db
      ensures db.Valid()
      ensures CheckPayment(amount, currentRemaining) != Accepted ==>
        ticket.None? && unchanged(db) && credits == old(credits) && loading == old(loading)
      ensures CheckPayment(amount, currentRemaining) == Accepted && Lookup(old(db.credits), id).None? ==>
        ticket.None? && unchanged(db) && credits == old(credits) && loading == old(loading)
      ensures CheckPayment(amount, currentRemaining) == Accepted && Lookup(old(db.credits), id).Some? ==>
        var c := Lookup(old(db.credits), id).value;
        var seller := UserLabel(displayName, email, "Cajero");
        && ticket == Some(PaymentSale(c.customerName, amount.value, currentRemaining, m, seller, now))
        && db.credits == Replace(old(db.credits), id, ApplyPayment(c, amount.value, currentRemaining, m, now))
        && db.sales == old(db.sales) + [ticket.value]
        && db.products == old(db.products) && db.customers == old(db.customers)
        && db.cuts == old(db.cuts) && db.expenses == old(db.expenses)
        && credits == SortDesc(ListCredits(db.credits), ByDate(timeOf)) && !loading
    {
      if CheckPayment(amount, currentRemaining) != Accepted {
        return None;
      }
      var seller := UserLabel(displayName, email, "Cajero");
      ticket := AddPayment(db, id, amount.value, currentRemaining, m, seller, now);
      if ticket.None? {
        return;
      }
      LoadCredits(db, timeOf);
    }

    /** `deleteDebt`: nothing without confirmation; otherwise the stored
      credit goes and every listed credit with that id leaves the list. */
    method DeleteDebt(db: Database, id: Id, confirmed: bool)
      requires db.Valid()
      modifies this, db
      ensures db.Valid()
      ensures !confirmed ==> unchanged(this) && unchanged(db)
      ensures confirmed ==> db.credits == Remove(old(db.credits), id) && credits == Filter(old(credits), NotId(id))
      ensures db.products == old(db.products) && db.customers == old(db.customers)
      ensures db.sales == old(db.sales) && db.cuts == old(db.cuts) && db.expenses == old(db.expenses)
    {
      if !confirmed {
        return;
      }
      DeleteCredit(db, id);
      credits := Filter(credits, NotId(id));
    }
  }

  /** The list after `deleteDebt` holds no credit with that id and every
      other credit it held, in the same order. */
  lemma DeleteDebtSpec(credits: seq<CreditSale>, id: Id)
    ensures forall i :: 0 <= i < |Filter(credits, NotId(id))| ==> Filter(credits, NotId(id))[i].id != Some(id)
    ensures forall i :: 0 <= i < |credits| && credits[i].id != Some(id) ==> credits[i] in Filter(credits, NotId(id))
    ensures forall a, b :: 0 <= a < b < |credits| ==> Filter(credits[a..b], NotId(id)) + Filter(credits[b..], NotId(id)) == Filter(credits[a..], NotId(id))
    ensures SubsequenceOf(Filter(credits, NotId(id)), credits)
  {
    FilterSubsequence(credits, NotId(id));
    forall a, b | 0 <= a < b < |credits|
      ensures Filter(credits[a..b], NotId(id)) + Filter(credits[b..], NotId(id)) == Filter(credits[a..], NotId(id))
    {
      assert credits[a..] == credits[a..b] + credits[b..];
      FilterAppend(credits[a..b], credits[b..], NotId(id));
    }
  }
}
