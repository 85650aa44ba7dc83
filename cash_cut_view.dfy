/** The end-of-day cash cut: today's cash and card takings, today's
    expenses, the cash the drawer should hold, and the frozen record of
    what the cashier counted. Once today has a cut, the screen only shows
    it. `dayOf` stands for the local calendar day of a stored date and
    `today` for the current one. */
module CashCutView {
  import opened Seqs
  import opened Records
  import opened Store

  function OnDay(dayOf: string -> string, today: string): Sale -> bool
  {
    (s: Sale) => dayOf(s.date) == today
  }

  /** `todaySales`. */
  function TodaySales(sales: seq<Sale>, dayOf: string -> string, today: string): (r: seq<Sale>)
    ensures forall i :: 0 <= i < |r| ==> dayOf(r[i].date) == today && r[i] in sales
    ensures forall i :: 0 <= i < |sales| && dayOf(sales[i].date) == today ==> sales[i] in r
  {
    Filter(sales, OnDay(dayOf, today))
  }

  /** Money that went into the drawer: cash sales and cash payments. */
  predicate CashMethod(m: SaleMethod) { m == Cash || m == PaymentCash }

  /** Money taken by card: card sales and card payments. */
  predicate CardMethod(m: SaleMethod) { m == Card || m == PaymentCard }

  function CashBucket(): Sale -> bool { (s: Sale) => CashMethod(s.payMethod) }

  function CardBucket(): Sale -> bool { (s: Sale) => CardMethod(s.payMethod) }

  function CreditBucket(): Sale -> bool { (s: Sale) => s.payMethod == Credit }

  /** The cash total of some sales. */
  function CashTotal(sales: seq<Sale>): real
  {
    Sum(Filter(sales, CashBucket()), SaleTotal)
  }

  /** The card total of some sales. */
  function CardTotal(sales: seq<Sale>): real
  {
    Sum(Filter(sales, CardBucket()), SaleTotal)
  }

  function CreditTotal(sales: seq<Sale>): real
  {
    Sum(Filter(sales, CreditBucket()), SaleTotal)
  }

  /** What one sale adds to each bucket. */
  function CashPart(s: Sale): real { if CashMethod(s.payMethod) then s.total else 0.0 }

  function CardPart(s: Sale): real { if CardMethod(s.payMethod) then s.total else 0.0 }

  function CreditPart(s: Sale): real { if s.payMethod == Credit then s.total else 0.0 }

  function DrawerPart(s: Sale): real { if s.payMethod == Credit then 0.0 else s.total }

  /** The two buckets and the credit sales, which count in neither,
      together account for every sale exactly once. */
  lemma BucketsSplit(sales: seq<Sale>)
    ensures CashTotal(sales) + CardTotal(sales) + CreditTotal(sales) == Sum(sales, SaleTotal)
  {
    SumFilter(sales, CashBucket(), SaleTotal, CashPart);
    SumFilter(sales, CardBucket(), SaleTotal, CardPart);
    SumFilter(sales, CreditBucket(), SaleTotal, CreditPart);
    SumAdd(sales, CashPart, CardPart, DrawerPart);
    SumAdd(sales, DrawerPart, CreditPart, SaleTotal);
  }

  /** A credit sale brings no money in today: it adds to neither bucket. */
  lemma CreditSaleInNoBucket(sales: seq<Sale>, s: Sale)
    requires s.payMethod == Credit
    ensures CashTotal(sales + [s]) == CashTotal(sales) && CardTotal(sales + [s]) == CardTotal(sales)
  {
    assert (sales + [s])[..|sales|] == sales;
    assert !CashBucket()(s) && !CardBucket()(s);
    assert Filter(sales + [s], CashBucket()) == Filter(sales, CashBucket()) + [] == Filter(sales, CashBucket());
    assert Filter(sales + [s], CardBucket()) == Filter(sales, CardBucket()) + [] == Filter(sales, CardBucket());
  }

  function ExpenseOnDay(dayOf: string -> string, today: string): Expense -> bool
  {
    (e: Expense) => dayOf(e.date) == today
  }

  /** `todayExpenses`: what was taken out of the drawer today. */
  function TodayExpenses(expenses: seq<Expense>, dayOf: string -> string, today: string): real
  {
    Sum(Filter(expenses, ExpenseOnDay(dayOf, today)), ExpenseAmount)
  }

  /** The record `handleSaveCut` stores. The opening float and the counted
      cash are read as 0 when they do not parse; the user is the signed-in
      name, else e-mail, else "Desconocido". */
  function BuildCut(cash: real, card: real, withdrawn: real, initial: Option<real>, declared: Option<real>,
                    notes: string, user: string, date: string): (c: CashCut)
    ensures c.expectedAmount == c.initialAmount + c.totalSalesCash - c.totalWithdrawals
    ensures c.difference == c.realAmount - c.expectedAmount
    ensures c.difference == 0.0 <==> c.realAmount == c.expectedAmount
    ensures c.difference > 0.0 <==> c.realAmount > c.expectedAmount
    ensures c.totalSales == c.totalSalesCash + c.totalSalesCard
    ensures c.totalSalesCash == cash && c.totalSalesCard == card && c.totalWithdrawals == withdrawn
    ensures c.initialAmount == ReadNumber(initial) && c.realAmount == ReadNumber(declared)
    ensures c.notes == notes && c.userName == user && c.date == date
  {
    var start := ReadNumber(initial);
    var counted := ReadNumber(declared);
    var expected := (cash + start) - withdrawn;
    CashCut(date, cash + card, cash, card, start, withdrawn, expected, counted, counted - expected, notes, user)
  }

  /** A cut built from today's figures: the drawer should hold the float
      plus the cash taken minus the expenses, and the cut's sales figure
      misses exactly today's credit sales. */
  lemma CutOfTheDay(sales: seq<Sale>, expenses: seq<Expense>, dayOf: string -> string, today: string,
                    initial: Option<real>, declared: Option<real>, notes: string, user: string, date: string)
    ensures var day := TodaySales(sales, dayOf, today);
      var c := BuildCut(CashTotal(day), CardTotal(day), TodayExpenses(expenses, dayOf, today), initial, declared, notes, user, date);
      && c.expectedAmount == ReadNumber(initial) + CashTotal(day) - TodayExpenses(expenses, dayOf, today)
      && c.totalSales + CreditTotal(day) == Sum(day, SaleTotal)
  {
    BucketsSplit(TodaySales(sales, dayOf, today));
  }

  function CutOnDay(dayOf: string -> string, today: string): CashCut -> bool
  {
    (c: CashCut) => dayOf(c.date) == today
  }

  /** `cuts.find(...)`: the first stored cut made today. */
  function FindTodayCut(cuts: seq<CashCut>, dayOf: string -> string, today: string): (r: Option<CashCut>)
    ensures r.None? <==> forall i :: 0 <= i < |cuts| ==> dayOf(cuts[i].date) != today
    ensures r.Some? ==> dayOf(r.value.date) == today
    ensures r.Some? ==>
      exists k :: 0 <= k < |cuts| && cuts[k] == r.value && forall i :: 0 <= i < k ==> dayOf(cuts[i].date) != today
  {
    match IndexWhere(cuts, CutOnDay(dayOf, today))
    case None => None
    case Some(k) => Some(cuts[k])
  }

  /** Saving a cut dated today means today now has a cut: the first one
      already there or, if there was none, the new one. */
  lemma SavedCutIsFound(cuts: seq<CashCut>, c: CashCut, dayOf: string -> string, today: string)
    requires dayOf(c.date) == today
    ensures FindTodayCut(cuts + [c], dayOf, today).Some?
    ensures FindTodayCut(cuts, dayOf, today).None? ==> FindTodayCut(cuts + [c], dayOf, today) == Some(c)
    ensures FindTodayCut(cuts, dayOf, today).Some? ==>
      FindTodayCut(cuts + [c], dayOf, today) == FindTodayCut(cuts, dayOf, today)
  {
    var s := cuts + [c];
    assert CutOnDay(dayOf, today)(s[|cuts|]);
    match IndexWhere(cuts, CutOnDay(dayOf, today))
    case None =>
      IndexWhereAt(s, CutOnDay(dayOf, today), |cuts|);
    case Some(k) =>
      IndexWhereAt(s, CutOnDay(dayOf, today), k);
  }

  lemma OtherDayCut(cuts: seq<CashCut>, c: CashCut, dayOf: string -> string, today: string)
    requires dayOf(c.date) != today
    ensures FindTodayCut(cuts + [c], dayOf, today) == FindTodayCut(cuts, dayOf, today)
  {
    var s := cuts + [c];
    match IndexWhere(cuts, CutOnDay(dayOf, today))
    case None =>
      assert forall i :: 0 <= i < |s| ==> !CutOnDay(dayOf, today)(s[i]);
    case Some(k) =>
      IndexWhereAt(s, CutOnDay(dayOf, today), k);
  }

  /** The screen's state. */
  class CashCutScreen {
    var systemCash: real
    var systemCard: real
    var systemExpenses: real
    var loading: bool
    var existingCut: Option<CashCut>
    var initialAmount: string
    var realAmount: string
    var notes: string

    constructor ()
      ensures systemCash == 0.0 && systemCard == 0.0 && systemExpenses == 0.0
      ensures loading && existingCut.None?
      ensures initialAmount == "" && realAmount == "" && notes == ""
    {
      systemCash, systemCard, systemExpenses := 0.0, 0.0, 0.0;
      loading, existingCut := true, None;
      initialAmount, realAmount, notes := "", "", "";
    }

    /** `calculateTodaySales`. */
    method CalculateTodaySales(db: Database, dayOf: string -> string, today: string)
      modifies this`systemCash, this`systemCard, this`systemExpenses
      ensures systemCash == CashTotal(TodaySales(db.sales, dayOf, today))
      ensures systemCard == CardTotal(TodaySales(db.sales, dayOf, today))
      ensures systemExpenses == TodayExpenses(db.expenses, dayOf, today)
    {
      var day := TodaySales(db.sales, dayOf, today);
      systemCash := CashTotal(day);
      systemCard := CardTotal(day);
      systemExpenses := TodayExpenses(db.expenses, dayOf, today);
    }

    /** `loadData`: a cut already made today is shown and nothing is
      recomputed; otherwise today's figures are computed. */
    method LoadData(db: Database, dayOf: string -> string, today: string)
      modifies this`systemCash, this`systemCard, this`systemExpenses, this`existingCut, this`loading
      ensures !loading
      ensures FindTodayCut(db.cuts, dayOf, today).Some? ==>
        existingCut == FindTodayCut(db.cuts, dayOf, today)
        && systemCash == old(systemCash) && systemCard == old(systemCard) && systemExpenses == old(systemExpenses)
      ensures FindTodayCut(db.cuts, dayOf, today).None? ==>
        existingCut == old(existingCut)
        && systemCash == CashTotal(TodaySales(db.sales, dayOf, today))
        && systemCard == CardTotal(TodaySales(db.sales, dayOf, today))
        && systemExpenses == TodayExpenses(db.expenses, dayOf, today)
    {
      loading := true;
      var found := FindTodayCut(db.cuts, dayOf, today);
      if found.Some? {
        existingCut := found;
      } else {
        CalculateTodaySales(db, dayOf, today);
      }
      loading := false;
    }

    /** `handleSaveCut`: the cut is built from the figures on screen and
      the typed amounts, stored, and the screen reloaded, which then shows
      today's cut. `parse` stands for `parseFloat`. */
    method HandleSaveCut(db: Database, parse: string -> Option<real>, displayName: Option<string>,
                         email: Option<string>, now: string, dayOf: string -> string, today: string)
      modifies this`systemCash, this`systemCard, this`systemExpenses, this`existingCut, this`loading, db`cuts
      ensures var c := BuildCut(old(systemCash), old(systemCard), old(systemExpenses), parse(old(initialAmount)),
                                parse(old(realAmount)), old(notes), UserLabel(displayName, email, "Desconocido"), now);
        && db.cuts == old(db.cuts) + [c]
        && (FindTodayCut(old(db.cuts), dayOf, today).Some? ==> existingCut == FindTodayCut(old(db.cuts), dayOf, today))
        && (dayOf(now) == today ==> existingCut.Some? && dayOf(existingCut.value.date) == today)
        && (dayOf(now) == today && FindTodayCut(old(db.cuts), dayOf, today).None? ==> existingCut == Some(c))
      ensures !loading
    {
      var c := BuildCut(systemCash, systemCard, systemExpenses, parse(initialAmount), parse(realAmount), notes,
                        UserLabel(displayName, email, "Desconocido"), now);
      if dayOf(now) == today {
        SavedCutIsFound(db.cuts, c, dayOf, today);
      } else {
        OtherDayCut(db.cuts, c, dayOf, today);
      }
      db.cuts := db.cuts + [c];
      LoadData(db, dayOf, today);
    }
  }
}
