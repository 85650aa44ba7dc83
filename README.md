# Point-of-sale core in Dafny

This project models the business logic of a small point-of-sale web app for a
shop that sells over the counter, on card and on installment credit. The app
keeps its data in a hosted document store; here each collection (products,
customers, credit accounts, sales, cash cuts, expenses) is a field of one
`Database` object, and a generated document id is a number drawn from a
counter that no stored document has reached yet. Money is an exact `real`.

What is modelled, by the app's own names:

- **Credit ledger.** `createCreditSale` (the customer is found or registered
  by phone, then the account stored), `addPayment` (the new remaining debt is
  `currentRemaining - amount`, the account turns `paid` at 0.5 or less still
  owed, a payment log entry is appended, and a payment receipt
  `payment_cash`/`payment_card` is written to the sales with the debt before
  and after), `getCredits`, `deleteCredit`. In the credits view model:
  - the two guards of `registerPayment`;
  - the newest-first sort of `loadCredits`;
  - `deleteDebt`.

  The ledger invariant `LedgerOk` (nothing owed below zero, paid-off amount
  equal to the logged payments, `paid` exactly at the tolerance) is proved to
  hold for a new account and to survive every accepted payment. A payment
  made against a figure other than the stored one is shown to break it.
- **Customers.** `findCustomerByPhone`, `createCustomer`, `updateCustomer`,
  `getOrCreateCustomer`.
- **Catalogue.** `addProduct` and `getProducts` with the "otros" category
  default, `updateProduct`, `updateStock` (a decrement with no floor),
  `deleteProduct`. In the product form: the field parser, the save guard,
  the add/update branch, `prepareEdit`, `resetForm` and table deletion.
- **Till.** `addToCart`, `decreaseQuantity`, `removeFromCart`, `total`,
  `change`, `calculateInstallment` and `confirmSale`:
  - its two early exits;
  - the sale record for each payment type;
  - the account opened on credit;
  - the stock loop, one `updateStock` per cart line;
  - the reset of the till.

  The cart invariant `CartOk` says there is one line per product and each
  line holds 1 to stock whole units.
- **Reports.** The daily cash cut: cash and card buckets, expected cash,
  difference, the saved record, and the check for an existing cut. The sales
  history's day filter and its three totals. The dashboard's month filter,
  seller ranking, top-five products, month total and bar scale. The
  catalogue table's stock badge and profit. The till screen's product filter,
  item count and charge-button condition. The credits screen's tab/search
  filter, pending total, paid amount and payment inputs.

Current time, calendar days and the signed-in user are parameters:
`now`, `dayOf`/`dayKey`/`today`, `timeOf`, `displayName`/`email`.
`parseFloat` is a parameter `parse: string -> Option<real>`, where `None`
stands for NaN. A browser confirmation is a boolean.

## Model

| member | source | states |
|---|---|---|
| Records.ReadNumber | src/viewmodels/usePOSViewModel.ts:74 | `parseFloat(x) \|\| 0`: an unparseable number reads as 0, a parsed one as itself |
| Records.UserLabel | src/viewmodels/usePOSViewModel.ts:96 | the display name when present and non-empty, else the e-mail when present and non-empty, else the fallback; never empty when the fallback is not |
| Records.PaymentSpelling | src/views/sales/SalesHistoryView.tsx:48 | the test `method.includes('payment')` holds exactly for the methods `payment_cash` and `payment_card` |
| CustomerService.FindCustomerByPhone | src/services/CustomerService.ts:18-27 | nothing exactly when no stored customer has the phone; otherwise the first stored customer with that phone, with its id |
| CustomerService.MergeCustomerSpec | src/services/CustomerService.ts:36-39 | a partial update writes each supplied field and keeps each omitted one, and is idempotent; the get-or-create refresh keeps phone and creation date |
| CustomerService.CreateCustomer | src/services/CustomerService.ts:30-33 | the record is appended under the counter's next id, which no stored customer had, and the counter moves on by one; other collections unchanged |
| CustomerService.UpdateCustomer | src/services/CustomerService.ts:36-39 | succeeds exactly when the id is stored, then replaces that customer by the merged record; otherwise nothing changes |
| CustomerService.GetOrCreateCustomer | src/services/CustomerService.ts:42-67 | with a customer already on that phone: returns its id, rewrites only name, address and notes, inserts nothing, and draws no id. Otherwise: appends one new customer with the given fields at `now` under a freshly drawn id and returns it. Either way the returned id names a customer with that phone |
| CustomerService.FindAfterGetOrCreate | src/services/CustomerService.ts:42-67 | looking the phone up after a get-or-create finds exactly the record under the returned id |
| ProductService.WithCategory | src/services/ProductService.ts:10-17 | the stored record has the given category, or "otros" when none was given; every other field as given |
| ProductService.ListedProduct | src/services/ProductService.ts:20-31 | a listed product always has an id (the document's, unless the data stores one); its category is the stored one or "otros"; other fields as stored |
| ProductService.ListProducts | src/services/ProductService.ts:20-31 | one listed product per stored document, in stored order |
| ProductService.AddProduct | src/services/ProductService.ts:10-17 | appends the record with the category default under an unused id; other collections unchanged |
| ProductService.AddedProductLists | src/services/ProductService.ts:10-30 | a product added without an id is listed under its new id, with its category or "otros" |
| ProductService.MergeSpec | src/services/ProductService.ts:34-37 | an empty patch changes nothing, a patch applied twice equals once, a full patch writes every field of the form, and the id never moves |
| ProductService.UpdateProduct | src/services/ProductService.ts:34-37 | succeeds exactly when the id is stored, then replaces that product by the merged record; otherwise nothing changes |
| ProductService.AfterSale | src/services/ProductService.ts:40-45 | new stock plus the amount sold equals the old stock; nothing else about the product changes |
| ProductService.UpdateStock | src/services/ProductService.ts:40-45 | succeeds exactly when the id is stored, then lowers only that product's stock by the amount; no other product changes |
| ProductService.StockCanGoNegative | src/services/ProductService.ts:43 | selling more than the stock leaves a negative stock: there is no lower bound |
| ProductService.DeleteProduct | src/services/ProductService.ts:48-51 | removes exactly the documents with that id, keeping the rest in order |
| CreditService.StatusAfter | src/services/CreditService.ts:56 | `paid` exactly when the remainder is at most 0.5, `active` exactly when above |
| CreditService.ApplyPayment | src/services/CreditService.ts:55-68 | remaining becomes the caller's `currentRemaining` minus the amount; `paid` exactly at 0.5 or less; one log entry {amount, date, method} appended after the earlier ones; every other field unchanged |
| CreditService.SaleMethodFor | src/services/CreditService.ts:71 | cash maps to `payment_cash`, card to `payment_card`; both are payment methods |
| CreditService.PaymentSale | src/services/CreditService.ts:73-86 | the receipt has total = amount and one item "Abono a Cuenta" of quantity 1 at that price, worth the total. Its debt before is `currentRemaining`, and debt before minus total equals debt after. It carries the customer and seller names and no cash, change or installment fields |
| CreditService.ReceiptMatchesCredit | src/services/CreditService.ts:55-86 | the receipt's debt after equals the account's new remaining; the logged payments grow by the receipt's total; the receipt's method matches the logged one |
| CreditService.AddPayment | src/services/CreditService.ts:50-90 | with the account stored: replaces it by `ApplyPayment`, appends the receipt to the sales and returns it. With an unknown id: fails and changes nothing. Products, customers, cuts and expenses unchanged |
| CreditService.CreateCreditSale | src/services/CreditService.ts:33-42 | the customer is got-or-created by phone, with notes defaulting to ""; the account is appended unchanged except for that customer id, under a freshly drawn id; sales, products, cuts and expenses unchanged |
| CreditService.ListedCredit | src/services/CreditService.ts:44-47 | a listed account always has an id (the document's unless the data stores one) and otherwise equals the stored data |
| CreditService.ListCredits | src/services/CreditService.ts:44-47 | one listed account per stored document, in stored order |
| CreditService.CreatedCreditLists | src/services/CreditService.ts:40-46 | an account created without an id is listed under its new id, linked to its customer |
| CreditService.DeleteCredit | src/services/CreditService.ts:92-95 | removes exactly the documents with that id |
| CreditsViewModel.CheckPayment | src/viewmodels/useCreditsViewModel.ts:28-29 | accepted exactly when 0 < amount ≤ currentRemaining; a missing, zero or negative amount is refused as invalid; an amount above the remainder is refused as an overpayment |
| CreditsViewModel.OpenedLedgerOk | src/viewmodels/usePOSViewModel.ts:132-144 | an account opened with everything owed, no payments and `active` status is consistent |
| CreditsViewModel.AcceptedPaymentKeepsLedger | src/viewmodels/useCreditsViewModel.ts:27-35 | a payment the guards accept, made against the stored remainder, keeps the ledger consistent. The debt drops strictly and stays ≥ 0. A `paid` account stays `paid`. Paying the whole remainder leaves 0 owed and `paid` |
| CreditsViewModel.StaleRemainingBreaksLedger | src/services/CreditService.ts:50-55 | because `addPayment` trusts the caller's remainder, a payment against any other figure than the stored one leaves paid-off ≠ logged payments |
| CreditsViewModel.ReplayKeepsLedger | src/viewmodels/useCreditsViewModel.ts:27-35 | after any sequence of attempts the ledger is consistent and total − remaining equals the logged sum. The debt never grows, `paid` never reverts, earlier log entries are kept and the account's other fields never change |
| Seqs.SortDescSpec | src/viewmodels/useCreditsViewModel.ts:18 | the sort returns a permutation of its input ordered by key, highest first |
| CreditsViewModel.CreditsViewModel.constructor | src/viewmodels/useCreditsViewModel.ts:8-9 | starts with no credits and loading |
| CreditsViewModel.CreditsViewModel.LoadCredits | src/viewmodels/useCreditsViewModel.ts:15-25 | the list becomes a permutation of the stored accounts, newest first, and loading ends |
| CreditsViewModel.CreditsViewModel.RegisterPayment | src/viewmodels/useCreditsViewModel.ts:27-43 | a refused amount returns nothing and touches neither store, list nor loading flag. An accepted one goes through `addPayment` with the seller label ("Cajero" fallback), returns its receipt, reloads the list newest first and ends loading. An unknown id fails with nothing changed |
| CreditsViewModel.CreditsViewModel.DeleteDebt | src/viewmodels/useCreditsViewModel.ts:45-55 | without confirmation nothing changes; otherwise the stored account is removed and the list drops exactly the accounts with that id |
| CreditsViewModel.DeleteDebtSpec | src/viewmodels/useCreditsViewModel.ts:51 | the list after deletion holds no account with that id, keeps every other account, and is an order-preserving subsequence of the list before |
| CreditsView.FilteredCredits | src/views/credits/CreditsView.tsx:55-61 | an account is listed exactly when it matches the tab (`active` / `paid`) and the search (lower-cased name contains lower-cased term, or phone contains term); the result is exactly the matching accounts, each as often as in the list and in list order |
| CreditsView.EmptySearchMatchesAll | src/views/credits/CreditsView.tsx:57-59 | an empty search matches every account, so each tab then lists every account of its status |
| CreditsView.TabsSplitPending | src/views/credits/CreditsView.tsx:55-63 | the pending totals of the two tabs add up to the remaining debt of every account matching the search |
| CreditsView.PaidAmountSpec | src/views/credits/CreditsView.tsx:117 | on a consistent account the paid amount shown equals the sum of logged payments and lies between 0 and the total debt |
| CreditsView.TabsAndPaymentControls | src/views/credits/CreditsView.tsx:175 | no account in the history tab offers payment controls; every account in the actives tab does |
| CreditsView.AmountText | src/views/credits/CreditsView.tsx:41 | the typed amount when present and non-empty, else exactly "0" |
| CreditsView.MethodInput | src/views/credits/CreditsView.tsx:42 | the chosen method, or cash when none was chosen |
| CreditsView.BlankAmountRefused | src/views/credits/CreditsView.tsx:41-44 | an untouched, empty or unparseable amount box reaches the guard as 0 and is refused as invalid |
| CreditsView.CreditsScreen.constructor | src/views/credits/CreditsView.tsx:8-20 | empty inputs, the actives tab, an empty search, no receipt |
| CreditsView.CreditsScreen.HandleAmountChange | src/views/credits/CreditsView.tsx:31-33 | sets that account's amount text and no other field |
| CreditsView.CreditsScreen.HandleMethodChange | src/views/credits/CreditsView.tsx:35-37 | sets that account's method and no other field |
| CreditsView.CreditsScreen.HandlePay | src/views/credits/CreditsView.tsx:40-53 | the guard sees the typed amount (blank as "0"). A refusal changes nothing anywhere. On success the receipt total is that amount, the receipt method follows the chosen method (cash by default), the receipt is shown, and only this account's amount box is cleared |
| CreditsView.ClearingKeepsOtherInputs | src/views/credits/CreditsView.tsx:48 | clearing one account's box empties it and keeps every other typed amount |
| POSViewModel.Bumped | src/viewmodels/usePOSViewModel.ts:58 | the matching lines go one unit up and every other line is unchanged |
| POSViewModel.CartWith | src/viewmodels/usePOSViewModel.ts:47-63 | a product with stock ≤ 0 is refused whether or not made to order. A product already in the cart goes one unit up unless its line already holds the stock. A new product is appended with one unit |
| POSViewModel.CartWithKeepsCartOk | src/viewmodels/usePOSViewModel.ts:47-63 | adding keeps one line per product and 1 ≤ whole quantity ≤ stock, for whole stock counts from the same listing |
| POSViewModel.BumpedKeepsCartOk | src/viewmodels/usePOSViewModel.ts:54-58 | raising a line that is below its stock keeps the cart well formed |
| POSViewModel.AppendedKeepsCartOk | src/viewmodels/usePOSViewModel.ts:59-61 | appending a product not yet in the cart keeps the cart well formed |
| POSViewModel.FractionalStockOverfill | src/viewmodels/usePOSViewModel.ts:54 | with a stock of 1.5 the guard lets a line reach 2 units, above the stock |
| POSViewModel.CartDecreased | src/viewmodels/usePOSViewModel.ts:65-67 | a matching line of 2 or more units loses one, a matching line of at most 2 units ends at exactly 1 (never below); products and other lines unchanged |
| POSViewModel.CartDecreasedKeepsCartOk | src/viewmodels/usePOSViewModel.ts:66 | decreasing keeps the cart well formed |
| POSViewModel.CartWithout | src/viewmodels/usePOSViewModel.ts:69-71 | exactly the lines of other products remain, each once and in cart order |
| POSViewModel.CartWithoutKeepsCartOk | src/viewmodels/usePOSViewModel.ts:70 | removing keeps the cart well formed |
| POSViewModel.Change | src/viewmodels/usePOSViewModel.ts:74-75 | change plus total equals the amount received, read as 0 when unparseable |
| POSViewModel.TotalNonNegative | src/viewmodels/usePOSViewModel.ts:73 | with non-negative prices a well-formed cart totals at least 0 |
| POSViewModel.InstallmentAmount | src/viewmodels/usePOSViewModel.ts:77-81 | two installments make the total for "2-pagos", three for "3-pagos", and the installment is 0 otherwise |
| POSViewModel.InstallmentCount | src/viewmodels/usePOSViewModel.ts:124 | 2 exactly for "2-pagos", 3 for every other credit type |
| POSViewModel.PaymentTypes | src/viewmodels/usePOSViewModel.ts:119 | of the offered payment types, "2-pagos" and "3-pagos" take the credit branch, "contado" and "tarjeta" do not |
| POSViewModel.SaleItems | src/viewmodels/usePOSViewModel.ts:98-103 | one item per line with the product's name, the quantity, the sale price and the cost price |
| POSViewModel.SaleItemsValue | src/viewmodels/usePOSViewModel.ts:98-110 | the recorded items are worth exactly the cart total |
| POSViewModel.BuildSale | src/viewmodels/usePOSViewModel.ts:98-159 | total and items from the cart. Credit exactly for a "pagos" type, with the customer's name, 2 or 3 installments and installment × count = total. Card exactly for "tarjeta". Otherwise cash, recording the amount received (0 when unparseable) and the change. Never a payment method |
| POSViewModel.ReceiptInstallmentMatchesDisplay | src/viewmodels/usePOSViewModel.ts:124-130 | for "2-pagos" and "3-pagos" the receipt's installment equals `calculateInstallment` |
| POSViewModel.NewCreditLedgerOk | src/viewmodels/usePOSViewModel.ts:132-144 | for a well-formed cart with non-negative prices, the account a credit sale opens is a consistent ledger whose total is the sale's total |
| POSViewModel.DecrementedIds | src/viewmodels/usePOSViewModel.ts:163-167 | the stock loop never adds, removes or reorders products |
| POSViewModel.DecrementedSucceeds | src/viewmodels/usePOSViewModel.ts:163-167 | the stock loop gets through exactly when every cart line with an id names a stored product |
| POSViewModel.StockStepLookup | src/viewmodels/usePOSViewModel.ts:164-166 | one step lowers the line's product by the line's quantity and leaves every other product alone |
| POSViewModel.DecrementedLookup | src/viewmodels/usePOSViewModel.ts:163-167 | after the loop each product's stock is lowered by the total quantity of its lines, and nothing else changes |
| POSViewModel.DecrementedSpec | src/viewmodels/usePOSViewModel.ts:163-167 | success exactly when every line's product is stored; then each stored product has its stock lowered by the sum of its lines' quantities, and a missing one stays missing |
| POSViewModel.QtyOfDistinct | src/viewmodels/usePOSViewModel.ts:163-167 | with one line per product, each sold product loses exactly its line's quantity |
| POSViewModel.DecrementStock | src/viewmodels/usePOSViewModel.ts:163-167 | one `updateStock` per line with an id, in cart order. It stops at the first product that is gone. It processes every line exactly when the loop specification succeeds, and then leaves the products it describes. Other collections unchanged |
| POSViewModel.RecordSale | src/viewmodels/usePOSViewModel.ts:119-159 | the sale is appended. On credit, exactly one account is appended first under a fresh id: the opened account, linked to the customer `getOrCreateCustomer` found or registered by the buyer's phone, and the directory changes exactly as that call does. Otherwise accounts, customers and the id counter are unchanged |
| POSViewModel.Checkout | src/viewmodels/usePOSViewModel.ts:117-167 | every write of a sale. The sale, and on credit the account and the directory upsert, are written. The stock loop succeeds exactly when every product is still stored, and then leaves the decremented products; when it stops at line k, the first k lines' decrements stay applied and line k's product is missing |
| POSViewModel.VisibleProducts | src/viewmodels/usePOSViewModel.ts:189-192 | a product is listed exactly when its lower-cased name contains the lower-cased query or its barcode contains the query; the result is exactly those products, in listing order |
| POSViewModel.POSViewModel.constructor | src/viewmodels/usePOSViewModel.ts:21-36 | an empty till: no products or cart, loading, "contado", no customer, no receipt |
| POSViewModel.POSViewModel.LoadProducts | src/viewmodels/usePOSViewModel.ts:40-45 | the listing becomes `getProducts` and loading ends |
| POSViewModel.POSViewModel.AddToCart | src/viewmodels/usePOSViewModel.ts:47-63 | the cart becomes `CartWith` of the old cart |
| POSViewModel.POSViewModel.DecreaseQuantity | src/viewmodels/usePOSViewModel.ts:65-67 | the cart becomes `CartDecreased` of the old cart |
| POSViewModel.POSViewModel.RemoveFromCart | src/viewmodels/usePOSViewModel.ts:69-71 | the cart becomes `CartWithout` of the old cart |
| POSViewModel.POSViewModel.ShowReceipt | src/viewmodels/usePOSViewModel.ts:171-181 | the reloaded listing and the receipt are shown; cart, amount received and customer are cleared and the type is back to "contado"; the search is kept |
| POSViewModel.POSViewModel.ConfirmSale | src/viewmodels/usePOSViewModel.ts:93-187 | An empty cart, or credit without name or phone, writes nothing and changes nothing. Otherwise the built sale is recorded, with the account and the directory upsert on credit, and each line's product loses its quantity. If every product was still stored, the receipt shows and the till resets. If one was gone, the sale, the account and the stock writes before the missing product stay, and the till is untouched |
| ProductFormViewModel.SetField | src/viewmodels/useProductFormViewModel.ts:35-39 | a number input stores the parsed value (0 when unparseable), a text input the raw text; no other field moves |
| ProductFormViewModel.SaveGuardSpec | src/viewmodels/useProductFormViewModel.ts:43 | the empty form and a form whose sale price does not parse cannot be saved; a valid form stays savable after a positive price is typed |
| ProductFormViewModel.ProductForm.constructor | src/viewmodels/useProductFormViewModel.ts:8-19 | the form is the empty product, not editing, with an empty loading table |
| ProductFormViewModel.ProductForm.FetchProducts | src/viewmodels/useProductFormViewModel.ts:23-33 | the table becomes `getProducts` and loading ends |
| ProductFormViewModel.ProductForm.HandleChange | src/viewmodels/useProductFormViewModel.ts:35-39 | the form becomes `SetField` of the old form |
| ProductFormViewModel.ProductForm.ResetForm | src/viewmodels/useProductFormViewModel.ts:86-89 | the form is the empty product and editing ends |
| ProductFormViewModel.ProductForm.PrepareEdit | src/viewmodels/useProductFormViewModel.ts:79-84 | the form holds the given product and editing starts |
| ProductFormViewModel.ProductForm.SaveProduct | src/viewmodels/useProductFormViewModel.ts:42-66 | no name or price ≤ 0: refused, nothing stored or changed. Editing a form with an id: updates that id with every form field, failing without change when it is gone. Otherwise: appends the form with the category default under a new id. A save that goes through resets the form and reloads the table |
| ProductFormViewModel.ProductForm.DeleteProduct | src/viewmodels/useProductFormViewModel.ts:69-77 | without confirmation nothing changes; otherwise the stored product goes and the table drops exactly the products with that id |
| ProductFormViewModel.DeletedFromTable | src/viewmodels/useProductFormViewModel.ts:73 | the table after deletion holds no product with that id and keeps every other in order |
| ProductFormViewModel.EditSaveWritesForm | src/viewmodels/useProductFormViewModel.ts:50-52 | saving an edit leaves the stored product equal to the form, except an unset category or alert threshold keeps the stored one; other products unchanged |
| CashCutView.TodaySales | src/views/cash/CashCutView.tsx:47 | exactly the sales dated today |
| CashCutView.BucketsSplit | src/views/cash/CashCutView.tsx:49-55 | cash (`cash`, `payment_cash`), card (`card`, `payment_card`) and credit sales together account for every sale's total exactly once |
| CashCutView.CreditSaleInNoBucket | src/views/cash/CashCutView.tsx:49-55 | a credit sale adds to neither the cash nor the card bucket |
| CashCutView.BuildCut | src/views/cash/CashCutView.tsx:70-91 | expected = initial + cash − withdrawals; difference = declared − expected, so 0 exactly when they agree; totalSales = cash + card; unparseable initial and declared read as 0; notes, user and date as given |
| CashCutView.CutOfTheDay | src/views/cash/CashCutView.tsx:42-91 | built from today's figures, the expected cash is the float plus today's cash takings minus today's expenses, and the cut's sales figure plus today's credit sales is everything sold today |
| CashCutView.FindTodayCut | src/views/cash/CashCutView.tsx:29-32 | nothing exactly when no stored cut is dated today; otherwise the first that is |
| CashCutView.SavedCutIsFound | src/views/cash/CashCutView.tsx:93-94 | after saving a cut dated today, today has a cut: the earlier one if there was one, else the new one |
| CashCutView.OtherDayCut | src/views/cash/CashCutView.tsx:29-32 | a cut dated another day does not change which cut counts as today's |
| CashCutView.CashCutScreen.constructor | src/views/cash/CashCutView.tsx:10-20 | zero figures, loading, no cut, empty inputs |
| CashCutView.CashCutScreen.CalculateTodaySales | src/views/cash/CashCutView.tsx:42-66 | the screen holds today's cash bucket, card bucket and expense total |
| CashCutView.CashCutScreen.LoadData | src/views/cash/CashCutView.tsx:24-40 | a cut already made today is shown and nothing is recomputed; otherwise today's figures are computed |
| CashCutView.CashCutScreen.HandleSaveCut | src/views/cash/CashCutView.tsx:70-95 | appends the cut built from the figures and inputs on screen ("Desconocido" as user fallback); afterwards a cut dated today is shown, the new one when none existed |
| SalesHistoryView.FilteredSales | src/views/sales/SalesHistoryView.tsx:36-42 | an empty filter keeps every sale; otherwise exactly the sales of that day, in order |
| SalesHistoryView.ValueAndCashReconcile | src/views/sales/SalesHistoryView.tsx:47-54 | merchandise value plus credit payments equals money in plus sales on credit |
| SalesHistoryView.ItemProfit | src/views/sales/SalesHistoryView.tsx:62-65 | (price − cost) × quantity with a missing cost read as 0, so a cost-free item's profit is its whole value |
| SalesHistoryView.TotalProfitSpec | src/views/sales/SalesHistoryView.tsx:57-70 | total profit is the profit of the non-payment sales alone |
| SalesHistoryView.TillSaleProfit | src/views/sales/SalesHistoryView.tsx:61-67 | a till sale's profit is, line by line, the catalogue table's unit profit times the units sold |
| AdminDashboardView.MonthSales | src/views/admin/AdminDashboardView.tsx:25 | exactly the sales whose date string starts with the month, in order |
| AdminDashboardView.SellerKey | src/views/admin/AdminDashboardView.tsx:34 | the seller's name, or "Desconocido" when it is missing or empty |
| AdminDashboardView.ItemPairs | src/views/admin/AdminDashboardView.tsx:50-53 | one (name, quantity) pair per item, in order |
| AdminDashboardView.SellersRanking | src/views/admin/AdminDashboardView.tsx:28-37 | the loop builds the dictionary of each seller's non-payment totals |
| AdminDashboardView.AddItems | src/views/admin/AdminDashboardView.tsx:50-53 | the inner loop adds each item's quantity under its name |
| AdminDashboardView.ProductsRanking | src/views/admin/AdminDashboardView.tsx:45-54 | the nested loop builds the dictionary of each product name's quantity over non-payment sales |
| Tally.TallySpec | src/views/admin/AdminDashboardView.tsx:35-36 | the dictionary has one entry per key, its keys are the keys added, each entry holds the sum for its key, and entries add up to everything added |
| AdminDashboardView.ByAmount | src/views/admin/AdminDashboardView.tsx:40-42 | a permutation of the entries, highest amount first |
| AdminDashboardView.TopProducts | src/views/admin/AdminDashboardView.tsx:57-60 | the first min(5, n) entries of the sorted list |
| AdminDashboardView.MaxSale | src/views/admin/AdminDashboardView.tsx:67 | the first seller's total, or 1 with no sellers |
| AdminDashboardView.SellerPairsSums | src/views/admin/AdminDashboardView.tsx:170 | the seller amounts add up to the month total shown, and a seller's amount is the sum of their non-payment sales |
| AdminDashboardView.SellersRankingSpec | src/views/admin/AdminDashboardView.tsx:28-42 | the ranking shown is a permutation of the dictionary, highest first. Each entry is the sum of that seller's non-payment sales. The entries add up to the month total, and none exceeds the bar scale |
| AdminDashboardView.TopOfTally | src/views/admin/AdminDashboardView.tsx:57-60 | the top list of any tally has at most five entries, is sorted, holds key totals, and no entry left out exceeds one shown |
| AdminDashboardView.TopProductsSpec | src/views/admin/AdminDashboardView.tsx:45-60 | at most five products, highest quantity first, each with its name's summed quantity, and no product left out sold more than one shown |
| ProductListView.MinStockOf | src/views/products/ProductListView.tsx:18 | the alert threshold, or 0 when missing |
| ProductListView.GetStockStatus | src/views/products/ProductListView.tsx:17-46 | exactly one badge per product, each under its exact condition. Made to order: owing the units owed (−stock) when stock < 0, else "SOBRE PEDIDO". Otherwise: sold out at stock ≤ 0, low up to the threshold, warning up to threshold + 2, healthy above |
| ProductListView.BadgeAndTill | src/views/products/ProductListView.tsx:22-33 | a sold-out or owing badge means the till refuses the product, and so does a made-to-order product at stock 0 |
| ProductListView.Profit | src/views/products/ProductListView.tsx:124 | profit plus cost equals sale price; non-negative exactly when price ≥ cost |
| ProductListView.TableInstallments | src/views/products/ProductListView.tsx:125-126 | the table's price / 2 and price / 3 are the till's installments for one unit |
| POSView.FilteredProducts | src/views/pos/POSView.tsx:30-37 | an order-preserving subsequence holding exactly the products the grid's test keeps |
| POSView.FilteredProductsSpec | src/views/pos/POSView.tsx:30-37 | a non-blank search decides alone, by name or barcode; blank with "todos" keeps everything; blank with another tab keeps that category (missing as "otros") |
| POSView.ScreenListing | src/views/pos/POSView.tsx:30-37 | on the view model's searched listing, a non-blank search changes nothing more, an empty one leaves everything to the tabs, and every product shown matches the search |
| POSView.AddToCartCount | src/views/pos/POSView.tsx:39 | on a well-formed cart, adding raises the item count by 1, or by 0 when refused |
| POSView.RemoveFromCartCount | src/views/pos/POSView.tsx:39 | removing a product takes all of its units off the count |
| POSView.ConfirmEnabledSpec | src/views/pos/POSView.tsx:206 | the button is enabled exactly with a non-empty cart and, for "contado", received ≥ total, and then the recorded change is not negative; for "tarjeta" only an empty cart disables it |

## Left out

- The document store itself: network, permission and quota errors, and loading spinners beyond a flag. A write to a document that does not exist is modelled: `updateProduct`, `updateStock`, `updateCustomer` and `addPayment` then fail and write nothing. `src/firebase/config.ts`, `src/services/AuthService.ts` and the thin wrappers in `src/services/SaleService.ts`, `src/services/CashCutService.ts` and `src/services/ExpenseService.ts` become plain sequence appends and reads. Their record shapes are the datatypes in `records.dfy`.
- Ordering of stored records: `getSales`/`getCuts`/`getExpenses` sorting on the server and the query order of the phone lookup are not modelled; stored order is used.
- Concurrency: the multi-write sequences (credit, then sale, then the stock loop) are not atomic in the app. The model runs them in order with no interleaving. The one partial failure it keeps is the till's stock loop stopping at a missing product after the sale and account are written. Races on `currentRemaining`, the duplicate suppression of `arrayUnion` and the server-side atomicity of `increment` are not modelled.
- IEEE-754 arithmetic and NaN: money is exact, so rounding drift in `total / 2`, `total / 3` and the sums is not modelled. `parseFloat` is a parameter, and `price || 0` on sale items is taken as the stored price.
- Dates and locale: `toLocaleDateString`, time-zone offsets, ISO slicing and `new Date().getTime()` are the parameters `dayOf`, `dayKey`, `timeOf` and `now`.
- Text: `toLowerCase` folds only ASCII A–Z and `trim` strips only ASCII white space.
- Formatting: `Intl.NumberFormat`, `toFixed`, the badge CSS classes and label strings are not modelled. The owing badge carries the number of units owed.
- The dashboard's transaction count and average ticket (`src/views/admin/AdminDashboardView.tsx:177-186`): display-only figures with a floating-point division.
- `Object.entries` order: JavaScript lists integer-like keys first; the model keeps first-insertion order for every key. Keys inherited from the object prototype are not modelled.
- The payment receipt's customer-name fallback "Cliente" is unreachable: `updateDoc` already fails when the credit is missing, and the model fails there too.
- `getOrCreateCustomer` when a found customer has no id cannot happen here: every stored record has its document id.
- Browser effects: `alert`, `window.scrollTo`, `window.print` and `location.reload` are left out; `confirm` is a boolean parameter.
- `handleCustomerChange`, `closeTicket`, the search and tab setters, and the mobile view toggle: plain state setters with no logic.
- Generated ids of sales, cuts and expenses are not kept: those collections are never read back by id.
- `updateProduct` from the form also sends the form's `id` field; the model's merge keeps the stored document's id, which is what the store's document path fixes.
- CartWithKeepsCartOk: assumes whole-number stock and a listing that has not changed since the line was added; `FractionalStockOverfill` shows the first assumption is needed.
- CreditsView.CreditsScreen.HandlePay: its effect on the store and the credit list is the one `RegisterPayment` states; its own ensures covers only the screen fields.
- The rest of the UI: `src/App.tsx` (including its manager key check), `src/components/*`, `src/views/cash/CashCutHistoryView.tsx`, `src/views/products/AddProductView.tsx` and the JSX of every view.
