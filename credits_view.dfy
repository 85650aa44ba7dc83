/** The credits screen: the pending/settled tabs, the search box, the
    pending total, each account's paid-off amount, and the per-account
    payment inputs. */
module CreditsView {
  import opened Seqs
  import opened Records
  import opened Store
  import Text
  import opened CreditService
  import opened CreditsViewModel

  datatype Tab = Actives | History

  predicate MatchesTab(tab: Tab, c: CreditSale)
  {
    if tab == Actives then c.status == Active else c.status == Paid
  }

  /** Case-insensitive on the name, literal on the phone. */
  predicate MatchesSearch(term: string, c: CreditSale)
  {
    Text.Contains(Text.Lower(c.customerName), Text.Lower(term)) || Text.Contains(c.customerPhone, term)
  }

  function Keep(tab: Tab, term: string): CreditSale -> bool
  {
    (c: CreditSale) => MatchesTab(tab, c) && MatchesSearch(term, c)
  }

  function SearchOnly(term: string): CreditSale -> bool
  {
    (c: CreditSale) => MatchesSearch(term, c)
  }

  /** `filteredCredits`. */
  function FilteredCredits(credits: seq<CreditSale>, tab: Tab, term: string): (r: seq<CreditSale>)
    ensures |r| <= |credits|
    ensures forall i :: 0 <= i < |r| ==> r[i] in credits && MatchesTab(tab, r[i]) && MatchesSearch(term, r[i])
    ensures forall i :: 0 <= i < |credits| && MatchesTab(tab, credits[i]) && MatchesSearch(term, credits[i]) ==> credits[i] in r
    ensures Selects(r, credits, Keep(tab, term))
  {
    FilterSelects(credits, Keep(tab, term));
    Filter(credits, Keep(tab, term))
  }

  /** `totalPendingInView`. */
  function TotalPendingInView(credits: seq<CreditSale>, tab: Tab, term: string): real
  {
    Sum(FilteredCredits(credits, tab, term), RemainingOf)
  }

  /** An empty search matches every account, so each tab then shows every
      account with its status. */
  lemma EmptySearchMatchesAll(credits: seq<CreditSale>, tab: Tab)
    ensures forall c :: MatchesSearch("", c)
    ensures FilteredCredits(credits, tab, "") == Filter(credits, (c: CreditSale) => MatchesTab(tab, c))
  {
    forall c: CreditSale ensures MatchesSearch("", c) {
      Text.ContainsEmpty(Text.Lower(c.customerName));
    }
    FilterSame(credits, Keep(tab, ""), (c: CreditSale) => MatchesTab(tab, c));
  }

  /** What one account adds to a tab's pending total. */
  function PendingIn(tab: Tab, term: string): CreditSale -> real
  {
    (c: CreditSale) => if Keep(tab, term)(c) then RemainingOf(c) else 0.0
  }

  function PendingFound(term: string): CreditSale -> real
  {
    (c: CreditSale) => if SearchOnly(term)(c) then RemainingOf(c) else 0.0
  }

  /** The two tabs split the accounts that match the search: their pending
      totals add up to the pending total of every matching account. */
  lemma TabsSplitPending(credits: seq<CreditSale>, term: string)
    ensures TotalPendingInView(credits, Actives, term) + TotalPendingInView(credits, History, term)
      == Sum(Filter(credits, SearchOnly(term)), RemainingOf)
  {
    SumFilter(credits, Keep(Actives, term), RemainingOf, PendingIn(Actives, term));
    SumFilter(credits, Keep(History, term), RemainingOf, PendingIn(History, term));
    SumFilter(credits, SearchOnly(term), RemainingOf, PendingFound(term));
    SumAdd(credits, PendingIn(Actives, term), PendingIn(History, term), PendingFound(term));
  }

  /** What the progress bar shows as paid. */
  function PaidAmount(c: CreditSale): real
  {
    c.totalDebt - c.remainingDebt
  }

  /** On a consistent account the paid amount is the sum of the logged
      payments and lies between zero and the total debt. */
  lemma PaidAmountSpec(c: CreditSale)
    requires LedgerOk(c)
    ensures PaidAmount(c) == Sum(c.payments, LogAmount)
    ensures 0.0 <= PaidAmount(c) <= c.totalDebt
  {
    SumNonNegative(c.payments, LogAmount);
  }

  /** Payment controls are drawn only for accounts not yet settled. */
  predicate OffersPayment(c: CreditSale)
  {
    c.status != Paid
  }

  /** The settled tab never offers a payment and the pending tab always does. */
  lemma TabsAndPaymentControls(credits: seq<CreditSale>, term: string)
    ensures forall i :: 0 <= i < |FilteredCredits(credits, History, term)| ==> !OffersPayment(FilteredCredits(credits, History, term)[i])
    ensures forall i :: 0 <= i < |FilteredCredits(credits, Actives, term)| ==> OffersPayment(FilteredCredits(credits, Actives, term)[i])
  {
  }

  /** `paymentAmounts[id] || '0'`. */
  function AmountText(amounts: map<Id, string>, id: Id): (r: string)
    ensures r != ""
    ensures id in amounts && amounts[id] != "" ==> r == amounts[id]
    ensures !(id in amounts && amounts[id] != "") ==> r == "0"
  {
    if id in amounts && amounts[id] != "" then amounts[id] else "0"
  }

  /** `paymentMethods[id] || 'cash'`. */
  function MethodInput(methods: map<Id, PaymentMethod>, id: Id): (r: PaymentMethod)
    ensures id !in methods ==> r == PayCash
    ensures id in methods ==> r == methods[id]
  {
    if id in methods then methods[id] else PayCash
  }

  /** An empty or untouched amount box reads as 0, which the payment guard
      refuses; so does text that does not parse. `parse` stands for
      `parseFloat`, with no value for NaN. */
  lemma BlankAmountRefused(amounts: map<Id, string>, id: Id, parse: string -> Option<real>, remaining: real)
    requires parse("0") == Some(0.0)
    requires id !in amounts || amounts[id] == "" || parse(amounts[id]).None?
    ensures CheckPayment(parse(AmountText(amounts, id)), remaining) == InvalidAmount
  {
  }

  /** The screen's own state around the view model. */
  class CreditsScreen {
    const vm: CreditsViewModel
    var paymentAmounts: map<Id, string>
    var paymentMethods: map<Id, PaymentMethod>
    var activeTab: Tab
    var searchTerm: string
    var showTicket: bool
    var lastPaymentTicket: Option<Sale>

    constructor ()
      ensures fresh(vm) && vm.credits == [] && vm.loading
      ensures paymentAmounts == map[] && paymentMethods == map[]
      ensures activeTab == Actives && searchTerm == ""
      ensures !showTicket && lastPaymentTicket.None?
    {
      vm := new CreditsViewModel();
      paymentAmounts, paymentMethods := map[], map[];
      activeTab, searchTerm := Actives, "";
      showTicket, lastPaymentTicket := false, None;
    }

    method HandleAmountChange(id: Id, value: string)
      modifies this`paymentAmounts
      ensures paymentAmounts == old(paymentAmounts)[id := value]
    {
      paymentAmounts := paymentAmounts[id := value];
    }

    method HandleMethodChange(id: Id, m: PaymentMethod)
      modifies this`paymentMethods
      ensures paymentMethods == old(paymentMethods)[id := m]
    {
      paymentMethods := paymentMethods[id := m];
    }

    /** `handlePay`: the typed amount (blank reads as "0") and chosen method
      (cash by default) go to `registerPayment`; when a receipt comes back
      (`paid`) it is shown and only this account's amount box is cleared. */
    method HandlePay(db: Database, creditId: Id, remaining: real, parse: string -> Option<real>,
                     displayName: Option<string>, email: Option<string>, now: string, timeOf: string -> real)
      returns (paid: bool)
      requires db.Valid()
      modifies this`paymentAmounts, this`lastPaymentTicket, this`showTicket, vm, db
      ensures db.Valid()
      ensures CheckPayment(parse(AmountText(old(paymentAmounts), creditId)), remaining) != Accepted ==>
        !paid && unchanged(db) && unchanged(this)
      ensures paid ==>
        && CheckPayment(parse(AmountText(old(paymentAmounts), creditId)), remaining) == Accepted
        && lastPaymentTicket.Some? && showTicket
        && lastPaymentTicket.value.total == parse(AmountText(old(paymentAmounts), creditId)).value
        && lastPaymentTicket.value.payMethod == SaleMethodFor(MethodInput(old(paymentMethods), creditId))
        && paymentAmounts == old(paymentAmounts)[creditId := ""]
      ensures !paid ==> paymentAmounts == old(paymentAmounts) && lastPaymentTicket == old(lastPaymentTicket)
                        && showTicket == old(showTicket)
    {
      var amount := parse(AmountText(paymentAmounts, creditId));
      var m := MethodInput(paymentMethods, creditId);
      var ticket := vm.RegisterPayment(db, creditId, amount, remaining, m, displayName, email, now, timeOf);
      paid := ticket.Some?;
      if paid {
        paymentAmounts := paymentAmounts[creditId := ""];
        lastPaymentTicket := ticket;
        showTicket := true;
      }
    }
  }

  /** Clearing after a payment keeps every other account's typed amount. */
  lemma ClearingKeepsOtherInputs(amounts: map<Id, string>, id: Id)
    ensures id in amounts[id := ""] && amounts[id := ""][id] == ""
    ensures forall k :: k in amounts && k != id ==> k in amounts[id := ""] && amounts[id := ""][k] == amounts[k]
    ensures forall k :: k in amounts[id := ""] ==> k == id || k in amounts
  {
  }
}
