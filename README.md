# zirwaBMS ledger core in Dafny

This project models the bookkeeping core of zirwaBMS, a desktop ledger for a small tailoring business, and proves properties of the model. The ledger tracks customer orders, the expense lines and payments embedded in each order, general expenses, vendors, a vendor ledger derived from the orders, and owner fund movements.

The project has these parts:

- **The store** (`store.dfy`, module `Store`). A class `Ledger` with five `seq` fields, one for each persisted collection. Each store operation is a method that replaces whole collections, as the JavaScript does. The vendor-transaction synchroniser is a `while` loop. Its invariant ties the pushed transactions to a pure projection.
- **The synchroniser's pure specification** (`vendor_sync.dfy`, module `VendorSync`). This covers:
  - removal by order and the projection of vendor-tagged lines;
  - the status write;
  - the back-sync onto the owning order's line, matched by expense id or, for legacy lines, by vendor, description and amount.
- **The mirror invariant** (`mirror.dfy`, module `Mirror`). For every order with an id, the ledger's entries for that order equal the order's vendor-tagged lines, each with vendor, expense id, description, amount and status. The lemmas in this file show:
  - which store operations keep the invariant;
  - that the vendor delete breaks it.
- **The accounting policy** (`accounting.dfy`). Defines the receivable and the profit of an order. Profit counts every line, whatever its payment status.
- **The pages:**
  - `dashboard.dfy`: the dashboard metrics, including the split of order costs into paid costs and payables, and the five most recent orders.
  - `orders_list.dfy`: the orders search.
  - `vendor_details.dfy`: the vendor ledger page, its totals and its paid/pending toggle.
  - `funds_page.dfy`: the owner-funds page and its submit.
  - `expenses_list.dfy`: the general-expenses page.
  - `vendors_page.dfy`: the vendors page.
  - `order_form.dfy`: the order form. A class `Editor` holds the form state, and its handlers are methods.
- **The shared pager** (`pagination.dfy`).
- **Sequence and string helpers** for JavaScript's `filter`, `map`, `reduce`, `slice`, `toLowerCase` and `includes` (`seqs.dfy`).

Modelling conventions:

- Money is an integer number of minor units.
- A field JavaScript may leave undefined is the value the code treats as absent: `""` for strings and `0` for timestamps. So `x || y` reads `if x != "" then x else y`.
- The clock (`Date.now()`, `new Date()`), `Math.random()` and the generated ids are parameters.
- Order dates that are compared are integer day keys.

## Model

| member | source | states |
|---|---|---|
| Store.Ledger.constructor | src/store/index.js:5-38 | every collection starts as the empty array |
| VendorSync.RemoveByOrder | src/store/index.js:45-48 | exactly the transactions of other orders remain, in their original order |
| Store.Ledger.RemoveVendorTransactionsByOrder | src/store/index.js:45-48 | the ledger becomes `RemoveByOrder` of the old ledger; nothing else changes |
| Store.Ledger.AddVendorTransactionsForOrder | src/store/index.js:50-75 | the loop appends, in line order, one transaction per line with a vendor (the projection); a missing order appends nothing |
| VendorSync.ProjectPrefixMirrors | src/store/index.js:56-72 | after k lines the pushed transactions mirror the vendor-tagged lines among the first k (vendor, expense id, description, amount, status defaulted to 'paid') and all carry the order id |
| VendorSync.ProjectMirrors | src/store/index.js:56-72 | the projection mirrors exactly the order's vendor-tagged lines, in line order |
| VendorSync.ProjectAmounts | src/store/index.js:63-67 | the projected amounts add up to the amounts of the vendor-tagged lines |
| Records.StatusOrPaid | src/store/index.js:67 | an absent status becomes 'paid'; a present one is kept; the result is never absent |
| VendorSync.Sync | src/store/index.js:77-81 | no change for a missing order or an order without id; otherwise the order's transactions become exactly its projection and the other orders' transactions stay, in order |
| VendorSync.SyncAppendsProjection | src/store/index.js:77-81 | the re-synced order's transactions go at the end of the ledger, after the other orders' transactions |
| Store.Ledger.SyncVendorTransactionsForOrder | src/store/index.js:77-81 | the ledger becomes `Sync` of the old ledger |
| VendorSync.SyncReplacesOrder | src/store/index.js:45-81 | after a sync the order's transactions are exactly its projection |
| VendorSync.SyncKeepsOtherOrders | src/store/index.js:45-81 | a sync leaves every other order's transactions as they were, in order |
| VendorSync.SyncIdempotentContent | src/store/index.js:77-81 | syncing the same order twice yields the same ledger contents as syncing it once, whatever the clock and vendor list on the second call |
| Store.Ledger.AddOrder | src/store/index.js:83-94 | appends the order with the new id and creation time, not completed, then syncs it |
| Store.FindOrder | src/store/index.js:101 | finds an order with that id iff one exists, and it is the first one in the list |
| Store.Ledger.UpdateOrder | src/store/index.js:96-104 | merges the update into every order with the id, stamps it, then syncs the updated order (no ledger change for an unknown id) |
| Store.Ledger.ToggleOrderCompletion | src/store/index.js:106-112 | flips the completion flag of the orders with the id; the ledger is untouched |
| Store.DeleteOrders | src/store/index.js:114-118 | exactly the orders with another id remain, in order |
| Store.Ledger.DeleteOrder | src/store/index.js:114-118 | removes the orders with the id and exactly their transactions |
| Mirror.AddOrderKeepsMirror | src/store/index.js:83-94 | adding an order with a fresh non-empty id keeps the mirror invariant |
| Mirror.UpdateOrderKeepsMirror | src/store/index.js:96-104 | an update that keeps the id keeps the mirror invariant (distinct order ids) |
| Mirror.ToggleKeepsMirror | src/store/index.js:106-112 | toggling completion keeps the mirror invariant |
| Mirror.DeleteOrderKeepsMirror | src/store/index.js:114-118 | deleting an order keeps the mirror invariant |
| Mirror.DeleteOrderRemovesItsLines | src/store/index.js:114-118 | a delete removes exactly as many transactions as the order had vendor-tagged lines |
| Mirror.MirroredAmounts | src/store/index.js:63-67 | under the invariant an order's ledger amounts add up to its vendor-tagged line amounts |
| Store.Ledger.AddExpense | src/store/index.js:125-134 | appends the expense with the new id and creation time |
| Store.UpdateExpenses | src/store/index.js:136-142 | the list keeps its length and order; expenses with another id are untouched; an expense with the id takes every field the update carries, keeps the others, and gets the clock as its update time |
| Store.Ledger.UpdateExpense | src/store/index.js:136-142 | the expenses become `UpdateExpenses` of the old ones, with the field-by-field result that function states |
| Store.DeleteExpenses | src/store/index.js:144-147 | exactly the expenses with another id remain, in order |
| Store.Ledger.DeleteExpense | src/store/index.js:144-147 | the expenses become `DeleteExpenses` of the old ones |
| Store.NewVendor | src/store/index.js:154-164 | the stored name falls back to the legacy alias |
| Store.Ledger.AddVendor | src/store/index.js:154-164 | appends the vendor with the new id, creation time and name fallback |
| Store.Ledger.UpdateVendor | src/store/index.js:166-179 | merges the update into the vendors with the id; name = update name, else update alias, else old name |
| Store.FindVendor | src/store/index.js:58 | finds a vendor with that id iff one exists, and it is the first one in the list |
| Store.DeleteVendors | src/store/index.js:181-186 | exactly the vendors with another id remain, in order |
| Store.RemoveByVendor | src/store/index.js:181-186 | exactly the transactions of other vendors remain, in order |
| Store.Ledger.DeleteVendor | src/store/index.js:181-186 | removes the vendor and its transactions; the orders are untouched |
| Mirror.DeleteVendorBreaksMirror | src/store/index.js:181-186 | once an order line names the deleted vendor, the mirror invariant no longer holds |
| Store.TransactionsOfVendor | src/store/index.js:188-192 | no vendor id returns the whole ledger; otherwise exactly that vendor's transactions, in order |
| Store.Ledger.GetVendorTransactions | src/store/index.js:188-192 | the same, over the ledger field, in ledger order |
| VendorSync.SetStatus | src/store/index.js:195-199 | only transactions with the id change, and only their status (and timestamp); none moves |
| VendorSync.FindTransaction | src/store/index.js:201-202 | finds a transaction with that id iff one exists, and it is the first one in the ledger |
| VendorSync.SetStatusUnknownId | src/store/index.js:195-202 | with no transaction of that id the ledger is unchanged and the lookup fails, so the orders are not touched |
| VendorSync.BackSync | src/store/index.js:205-227 | only orders with the transaction's order id change, and in them only the status of the matching lines (plus the timestamp) |
| VendorSync.BackSyncMarksLinkedLine | src/store/index.js:210-212 | with an expense id only the line with that id gets the status |
| VendorSync.LegacyMatchMarksEveryTwin | src/store/index.js:214-221 | without an expense id every line with the same vendor, description and amount gets the status |
| Store.Ledger.UpdateVendorTransactionStatus | src/store/index.js:194-228 | status on the ledger first, then back-sync onto the orders only if the transaction exists |
| Mirror.StatusKeepsOwnOrder | src/store/index.js:194-228 | for the order owning the transaction, the status write and the back-sync keep ledger and lines in step (distinct ids, id-linked transaction, non-empty status) |
| Mirror.StatusUpdateKeepsMirror | src/store/index.js:194-228 | the two-phase status update keeps the mirror invariant under the same conditions |
| Store.Ledger.AddFundTransaction | src/store/index.js:235-244 | appends the fund transaction with the new id; its creation time is the clock's, replacing any the caller gave |
| Store.Ledger.UpdateFundTransaction | src/store/index.js:246-252 | merges the update into the fund transactions with the id and stamps them |
| Store.UpdateFundsKeepsIds | src/store/index.js:246-252 | an update never changes a fund transaction's id, even if it carries one |
| Store.DeleteFunds | src/store/index.js:254-257 | exactly the fund transactions with another id remain, in order |
| Store.Ledger.DeleteFundTransaction | src/store/index.js:254-257 | the funds become `DeleteFunds` of the old ones |
| Store.Ledger.ExportDatabase | src/store/index.js:260-296 | restoring the exported document gives back the five collections |
| Store.Restore | src/store/index.js:315-324 | rejects a document whose orders are missing or not an array; otherwise takes the orders and any other missing collection as empty |
| Store.ExportRestoreRoundTrip | src/store/index.js:265-324 | import after export restores every collection; the document carries version 1.1.0 |
| Store.Ledger.ImportDatabase | src/store/index.js:298-344 | either rejects with the orders message and changes nothing, or replaces all five collections and reports their sizes |
| Dashboard.LoadMetrics | src/pages/Dashboard.js:32-115 | the order count; sales = the sum of grand totals; receivables = sales − payments; payables = the sum of unpaid vendor lines; total expenses = paid costs + payables + general expenses; profit = sales − total expenses = the sum of order profits − general expenses; deposits and withdrawals are the funds page's totals; cash in hand = payments + deposits − withdrawals − paid order costs − general expenses; at most five recent orders, drawn from the orders |
| Dashboard.CostIsPaidPlusPayable | src/pages/Dashboard.js:76-96 | an order's cost is its paid cost plus its payables, because the two line filters are complements |
| Dashboard.TotalCostIsPaidPlusPayables | src/pages/Dashboard.js:58-96 | the same, summed over all orders |
| Accounting.ProfitIsSalesMinusCosts | src/pages/Dashboard.js:39-86 | summed over orders, profit = sales − costs and receivables = sales − payments |
| Dashboard.Insert | src/pages/Dashboard.js:99 | inserting adds exactly one element and keeps the multiset |
| Dashboard.InsertNewestFirst | src/pages/Dashboard.js:99 | inserting into a newest-first list keeps it newest-first |
| Dashboard.SortNewestFirst | src/pages/Dashboard.js:99 | the sort is a permutation of the orders |
| Dashboard.SortIsNewestFirst | src/pages/Dashboard.js:99 | the sorted list is in descending order date |
| Dashboard.RecentOrders | src/pages/Dashboard.js:98-100 | min(n, 5) orders, newest first, drawn from the orders, none omitted newer than one shown |
| Dashboard.PayableMatchesPendingLedger | src/pages/Dashboard.js:89-96 | under the mirror invariant, once every vendor line has a status an order's payables equal its pending ledger amounts |
| Dashboard.PendingSumsAgree | src/pages/Dashboard.js:89-96 | the sum of the pending mirrored transactions equals the sum of the payable lines |
| Dashboard.UnsetStatusDisagreesWithLedger | src/pages/Dashboard.js:93 | a vendor line with no status counts as payable on the dashboard, while the store records its transaction as 'paid' |
| Accounting.ReceivableIgnoresExpenses | src/pages/OrdersList.js:40-44 | the receivable does not depend on the expense lines or on paid delivery charges |
| Accounting.ProfitIgnoresPaymentsAndStatuses | src/pages/OrdersList.js:46-51 | the profit does not depend on the payments, nor on the lines' vendors or statuses, only on their amounts |
| OrdersList.FilteredOrders | src/pages/OrdersList.js:53-56 | an order is listed iff its lower-cased name contains the lower-cased term or its phone contains the term; the list keeps the stored order |
| OrdersList.EmptySearchListsAll | src/pages/OrdersList.js:53-56 | an empty term lists every order |
| OrdersList.NameMatchIsListed | src/pages/OrdersList.js:54 | a name containing the term verbatim is always listed |
| OrdersList.NameSearchIgnoresCase | src/pages/OrdersList.js:54 | typing the term in lower case still finds every case-insensitive name match |
| OrdersList.NarrowerSearchListsFewer | src/pages/OrdersList.js:53-56 | a term that contains the old term lists only orders listed before |
| Accounting.ReceivableAfterPayment | src/pages/OrderForm.js:98-102 | a new payment lowers the receivable by its amount |
| Accounting.ProfitAfterExpense | src/pages/OrderForm.js:104-109 | a new expense line lowers the profit by its amount and leaves the receivable |
| OrderForm.Editor.constructor | src/pages/OrderForm.js:11-27 | the blank order dated today, blank drafts, nothing being edited |
| OrderForm.BackfillIds | src/pages/OrderForm.js:37-40 | every loaded line has an id; existing ids are kept; nothing else about a line changes |
| OrderForm.BackfillKeepsAccounts | src/pages/OrderForm.js:35-42 | loading changes neither profit nor receivable |
| OrderForm.Editor.Load | src/pages/OrderForm.js:29-45 | takes the vendor list, and for an existing order loads it with backfilled ids; a missing id or order leaves the form |
| OrderForm.SelectedVendorName | src/pages/OrderForm.js:57-66 | the found vendor's alias, else its name; '' when no vendor has the id |
| OrderForm.Editor.HandleAddExpense | src/pages/OrderForm.js:55-72 | with a description and a positive amount, appends one line (clock id, selected vendor's name) and clears the draft, lowering the profit by the amount; otherwise nothing changes |
| OrderForm.RemoveLines | src/pages/OrderForm.js:74-79 | exactly the lines with another id remain, in order |
| OrderForm.Editor.HandleRemoveExpense | src/pages/OrderForm.js:74-79 | the lines become `RemoveLines` of the old ones |
| OrderForm.Editor.HandleAddPayment | src/pages/OrderForm.js:81-89 | with a positive amount, appends one payment stamped with the clock and resets the draft, lowering the receivable by the amount; otherwise nothing changes |
| OrderForm.RemovePayments | src/pages/OrderForm.js:91-96 | exactly the payments with another id remain, in order |
| OrderForm.Editor.HandleRemovePayment | src/pages/OrderForm.js:91-96 | the payments become `RemovePayments` of the old ones |
| OrderForm.Normalized | src/pages/OrderForm.js:113-129 | every line gets a status, 'paid' when absent, and nothing else changes; the stored receivable and profit equal the calculators on the form and on the stored order itself |
| OrderForm.SubmittedLinesCarryStatus | src/pages/OrderForm.js:118-122 | after a submit each generated transaction carries its line's own status |
| OrderForm.FullPatchWritesForm | src/pages/OrderForm.js:131-132 | updating with the form's data stores exactly the form's order, stamped with the clock |
| OrderForm.Editor.HandleSubmit | src/pages/OrderForm.js:111-137 | the normalised order goes to the store's update when the route names an order, else to the store's add, and the ledger is synced |
| OrderForm.DraftOfLine | src/pages/OrderForm.js:140-148 | the edit draft shows the line's description, amount and vendor, and its status, 'paid' when absent |
| OrderForm.Editor.HandleEditExpense | src/pages/OrderForm.js:140-148 | remembers the line id and loads its draft |
| OrderForm.UpdateLines | src/pages/OrderForm.js:149-153 | only the line with the edited id takes the draft's description, amount, vendor and status; ids, vendor names and positions are kept |
| OrderForm.Editor.HandleUpdateExpense | src/pages/OrderForm.js:149-156 | writes the draft into the edited line without any check, leaves edit mode and clears the draft |
| OrderForm.EditLineRoundTrip | src/pages/OrderForm.js:140-156 | editing a line and saving it unchanged changes nothing except that an absent status becomes 'paid' (distinct line ids) |
| OrderForm.ChangingVendorKeepsOldName | src/pages/OrderForm.js:149-153 | moving a line to another vendor keeps the old vendor's stored name, which the synchroniser then prefers |
| OrderForm.Editor.HandleEditPayment | src/pages/OrderForm.js:158-161 | remembers the payment id and loads its date and amount |
| OrderForm.UpdatePayments | src/pages/OrderForm.js:162-166 | only the payment with the edited id takes the draft's date and amount; ids and positions are kept |
| OrderForm.UpdatePaymentMovesReceivable | src/pages/OrderForm.js:162-166 | editing a payment moves the receivable by the old amount minus the new (distinct payment ids) |
| OrderForm.Editor.HandleUpdatePayment | src/pages/OrderForm.js:162-169 | writes the draft into the edited payment, leaves edit mode and resets the draft to today |
| VendorDetails.ShownTransactions | src/pages/VendorDetails.js:28-31 | nothing for an unknown vendor; otherwise exactly the vendor's transactions, in ledger order |
| VendorDetails.Totals | src/pages/VendorDetails.js:41-48 | assigned = all amounts; paid = 'paid' amounts; pending = the amounts of every other status; with non-negative amounts 0 ≤ paid ≤ assigned and pending ≥ 0 |
| VendorDetails.ToggledStatus | src/pages/VendorDetails.js:51 | 'paid' becomes 'pending' and any other status 'paid' |
| VendorDetails.ToggleTwiceRestores | src/pages/VendorDetails.js:51 | two clicks restore 'paid' or 'pending'; any other status becomes 'paid' |
| VendorDetails.ToggleTransactionStatus | src/pages/VendorDetails.js:50-54 | performs the store's two-phase status update with the toggled status |
| VendorDetails.ShownAfterSetStatus | src/pages/VendorDetails.js:28-31 | after a status write the vendor's list is the old list with the write applied |
| VendorDetails.ToggleMovesAmount | src/pages/VendorDetails.js:41-54 | one toggle moves exactly that transaction's amount between paid and pending, and assigned stays (distinct ids) |
| VendorDetails.VisibleTransactions | src/pages/VendorDetails.js:56-58 | at most ten rows, all from the vendor's transactions |
| VendorDetails.StalePageShowsLastPage | src/pages/VendorDetails.js:56-64 | a page number past the end shows the last page |
| FundsPage.TotalDeposits | src/pages/Funds.js:48-50 | with non-negative amounts the deposits lie between 0 and the sum of all amounts |
| FundsPage.TotalWithdrawals | src/pages/Funds.js:52-54 | the same for withdrawals |
| FundsPage.TotalsAfterAppend | src/pages/Funds.js:48-54 | both totals are 0 on no transactions, and one more transaction adds its amount to the deposits if it is a 'deposit', to the withdrawals if it is a 'withdraw', else to neither |
| FundsPage.TotalsSplitAllFunds | src/pages/Funds.js:48-54 | deposits + withdrawals + other types = all amounts, so another type counts toward neither |
| FundsPage.NetAfterAppend | src/pages/Funds.js:74 | one more transaction moves the net by +amount for a deposit, −amount for a withdrawal, 0 otherwise |
| FundsPage.Submit | src/pages/Funds.js:23-46 | nothing without description or amount text; otherwise updates the edited transaction (id kept, form fields and chosen creation time) or adds exactly one (clock creation time), then resets the form and edit id |
| ExpensesList.FilteredExpenses | src/pages/ExpensesList.js:58-60 | an expense is listed iff its lower-cased description contains the lower-cased term, in stored order |
| ExpensesList.TotalCountsHiddenExpenses | src/pages/ExpensesList.js:62 | the total is the listed expenses plus those the search hides |
| ExpensesList.EmptySearchListsAll | src/pages/ExpensesList.js:58-62 | an empty search lists everything and the list's sum is the total |
| ExpensesList.Submit | src/pages/ExpensesList.js:36-49 | always appends exactly one expense from the form (no check), then blanks the form to today |
| ExpensesList.SubmitRaisesTotal | src/pages/ExpensesList.js:36-62 | a submit raises the total by the entered amount |
| ExpensesList.VisibleExpenses | src/pages/ExpensesList.js:68-70 | at most ten rows, all matching the search |
| ExpensesList.NewSearchShowsFirstMatches | src/pages/ExpensesList.js:64-70 | after a new search, page 1 shows the first ten matches |
| VendorsPage.Submit | src/pages/Vendors.js:28-40 | nothing without name or contact; otherwise updates the edited vendor's name and contact (the rest kept) or adds exactly one vendor, then resets the form and edit id |
| VendorsPage.HandleEdit | src/pages/Vendors.js:42-48 | the form takes the name, else the legacy alias, and the contact; the edit id is the vendor's |
| VendorsPage.EditThenSubmit | src/pages/Vendors.js:28-48 | editing and submitting changes that vendor alone, to the form's name and contact (distinct ids) |
| VendorsPage.SavingLegacyVendorFillsName | src/pages/Vendors.js:45 | saving a legacy vendor unchanged writes its alias into the name |
| VendorsPage.VisibleVendors | src/pages/Vendors.js:57-62 | at most ten rows, all vendors |
| VendorsPage.NewVendorOnLastPage | src/pages/Vendors.js:57-62 | an added vendor is the last row of the last page |
| Pagination.TotalPages | src/components/Pagination.js:10 | at least one page; the fewest pages of the given size that hold every item |
| Pagination.RangeWithinItems | src/components/Pagination.js:11-12 | on an existing page of a non-empty list, 1 ≤ start ≤ end ≤ total and the window holds at most a page |
| Pagination.EmptyRange | src/components/Pagination.js:11-12 | an empty list reads 0-0 |
| Pagination.OnPrevious | src/components/Pagination.js:22-23 | disabled exactly on page 1; otherwise asks for the previous page, within range |
| Pagination.OnNext | src/components/Pagination.js:33-34 | disabled exactly on the last page; otherwise asks for the next page, within range |
| Pagination.SafePage | src/pages/VendorDetails.js:57 | the page is clamped to the last page and never raised |
| Pagination.SliceIndex | src/pages/VendorDetails.js:58 | a slice index is clamped into the list; a negative index counts from the end, and one before the start is 0 |
| Pagination.JsSlice | src/pages/VendorDetails.js:58 | the slice comes from the list, is no longer than the requested width, and for non-negative bounds is the clamped window |
| Pagination.Page | src/pages/VendorDetails.js:56-58 | a page holds at most a page of items, all from the list |
| Pagination.PageWindow | src/pages/ExpensesList.js:68-70 | from page 1 on, the page is the consecutive window starting at the clamped page's first index |
| Pagination.PageMatchesRange | src/components/Pagination.js:10-12 | the page of a non-empty list is non-empty and holds exactly end − start + 1 items |
| Pagination.ItemOnItsPage | src/pages/ExpensesList.js:68-70 | every item appears on the page its index falls into, at the expected position |

## Left out

- Persistence, the file dialogs and file reads/writes of import and export, the Electron shell and the routing are not modelled. The store's collections are fields, and the backup is a value.
- JSX rendering, number formatting, the confirmation dialogs and the dashboard's trend percentages (floating-point divisions) are not modelled.
- `Number()` coercion and floating-point money are not modelled. Amounts are integers, and strings are taken as already converted, so `Number(x) || 0` and NaN do not arise.
- Date parsing is not modelled. The recent-orders sort compares integer date keys.
- The clock, `Math.random()` and generated ids are parameters. Each store call reads the clock once, while the source may read it several times. Id uniqueness is not proved. Lemmas that need distinct ids take it as a precondition.
- `toLowerCase` is modelled on ASCII letters only: no Unicode case mapping.
- A missing embedded `expenses` or `payments` array is treated as the empty sequence, because the datatypes always carry one.
- Crash atomicity between the two writes of the status update, and of order writes followed by a sync, is not modelled. The model performs both writes in sequence.
- The ledger pages re-read the store after each write, and the React state updates and effects are folded into the functions that compute their results. For example, the reset of the page to 1 on a new search is the page-1 lemma.
- Dashboard.SortNewestFirst: the sort is proved to be a newest-first permutation, but its stability, or engine-specific order among equal dates, is not stated.
- Dashboard.LoadMetrics: the recent orders are stated as at most five and drawn from the orders. Their exact count, order and selection are stated by `Dashboard.RecentOrders`.
- FundsPage.TotalDeposits: its own contract states only bounds. `FundsPage.TotalsAfterAppend` fixes its value on every list.
- FundsPage.TotalWithdrawals: its own contract states only bounds. `FundsPage.TotalsAfterAppend` fixes its value on every list.
- Pagination.Page and its callers require a positive page size. Every caller passes 10.
- OrderForm.Editor.Load: the random part of each backfilled id is a function of the line's position. The model proves every line gets a non-empty id, but not that the new ids are distinct.
- Pagination.PageWindow, Pagination.ItemOnItsPage: these require a page number of at least 1, which the page state always holds.
- The vendor-less default of a new expense draft's status ('paid') is modelled. The form's free-text inputs (`handleInputChange`) are not modelled as handlers. A change of a form field is a field update of the state.
- The mirror invariant is broken by a vendor delete (`Mirror.DeleteVendorBreaksMirror`), and the code does not repair it. A line with no status does not break the invariant: the store records it as 'paid', and the invariant compares statuses after the same default. It does make the dashboard count the line as payable while the ledger says 'paid' (`Dashboard.UnsetStatusDisagreesWithLedger`). The status update keeps the invariant only for a non-empty status, which is why `Mirror.StatusUpdateKeepsMirror` requires one.
