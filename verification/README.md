# TortiPOS core, modelled in Dafny

TortiPOS is a point-of-sale application for a tortillería. It has a product
catalogue with stock, a client list where each client carries a running
balance on credit ("fiado"), a journal of sales, and a journal of credit
payments ("abonos"). This project models the application's state transitions
and the logic of its four screens as pure functions over immutable
datatypes:

- **Ledger**: the commits in `App.tsx`. These are completing a sale,
  recording a payment, registering a client, adding a product and replacing
  a product.
- **Cart**: the point-of-sale screen. It covers the offered products, add,
  change-quantity and remove on the cart, the cart total, and the "Pagar"
  (finish) guard.
- **Checkout**: a cart built by any sequence of clicks, followed by
  "Pagar". It holds the end-to-end theorem that selling from the screen never
  drives a non-negative stock below zero.
- **Journal**: any run of commits. It holds the fiado ledger identity.
- **Clients**: the client search, the payment form and the payment history.
- **Inventory**: the manual stock adjustment, the category and search
  filter, and the product form.
- **Reports**: the daily report. It covers today's sales, revenue, cost,
  profit, credit count, sales per category and the per-name breakdown.
- **Types** and **Fixtures**: the records of `types.ts`, and the starting
  data of `constants.tsx` and `db.ts`.
- **Optional**, **Seqs** and **Text**: helpers. `Seqs` has filter and find
  by key. `Text` has lower-casing, substring search and the decimal
  rendering of the clock used in ids.

Conventions:

- Money is an exact integer number of centavos, so $24.00 is 2400.
- The clock (`Date.now()`) is a parameter `now`. Ids are the decimal
  rendering of that instant, with the source's prefixes `c` and `pay`. A
  sale's id and timestamp come from the same instant.
- Form parsing (`parseFloat`, `parseInt`) and the browser's `confirm` dialog
  are oracle parameters. A parse that yields NaN is `None`.
- The start of the current day is a parameter of the report.
- When the cart or the screens look a product up by id, they take the first
  match (`find`). The cart invariants therefore assume that product ids are
  distinct. `Journal.RunKeepsDistinctIds` shows that a run of commits keeps
  them distinct when every new product's clock rendering is not already an
  id in the catalogue. The clock alone does not ensure this: the starting
  products have ids "1" to "6", which are also the renderings of the
  instants 1 to 6.
- The point-of-sale screen starts with an empty cart, cash, and no client
  (components/POSModule.tsx:13-16). A sale that goes through puts it back in
  that state (components/POSModule.tsx:81-83), so every sale is staged from
  an empty cart, as `Checkout.BuildCart` assumes.

Behaviours of the code worth knowing:

- Completing a sale validates nothing (App.tsx:20-59). Nothing checks the
  stock, so a stock can go negative, and a credit sale whose client id
  matches no client charges nobody. Safety comes from the screen instead:
  the cart never exceeds the stock, and "Pagar" refuses a credit sale with
  no client selected. `Checkout.SellingFromTheScreen` proves that this
  screen-side guard is enough to keep every non-negative stock non-negative,
  even when the catalogue holds negative stocks elsewhere (the product form
  reads stock with `parseInt` and sets no minimum,
  components/InventoryModule.tsx:150-153).
- Raising a cart line above the stock keeps the line as it was
  (components/POSModule.tsx:49). It is not clamped to the stock.
- A payment is journaled even when its client id matches no client
  (App.tsx:99-103). It then changes no balance.
- A cash sale still carries the selected client's id when one was selected
  (components/POSModule.tsx:80). It is journaled with that id but charges
  nobody.

## Model

| member | source | states |
|---|---|---|
| Ledger.ItemsTotal | App.tsx:21 | The sale total (and the cart total of components/POSModule.tsx:61) is never negative over lines with no negative price or quantity (whatever their costs), and no line's subtotal exceeds it |
| Ledger.ItemsCost | App.tsx:22 | The sale cost is never negative over lines with no negative cost or quantity (whatever their prices), and no line's cost exceeds it |
| Ledger.ItemsTotalAppend | App.tsx:21-22 | Totals and costs over lines add up across a split of the line list, so the commit's totals are sums over the lines |
| Ledger.CompleteSale | App.tsx:20-59 | One balanced sale is appended with the given lines, method and client, and its id is the clock's decimal rendering. Earlier sales and all payments are unchanged. Each product's stock drops by the quantity of its first line. The named client is charged the total exactly when the sale is on credit |
| Ledger.FirstQuantityIsQuantityOf | App.tsx:36-42 | When line ids are distinct, the quantity taken from the first matching line equals the sum over all lines with that id |
| Ledger.UnsoldProductKeepsStock | App.tsx:36-42 | A product with no line in the sale keeps its record unchanged |
| Ledger.SaleWithoutDebtorKeepsClients | App.tsx:45-50 | A cash sale, or a sale whose client id matches no client, leaves every client unchanged |
| Ledger.UpdateProduct | App.tsx:61-66 | Only products whose id matches are replaced. Clients, sales and payments are untouched, so recorded sale totals survive price edits |
| Ledger.UpdateUnknownProductIsNoOp | App.tsx:61-66 | Replacing a product whose id is unknown leaves the state unchanged |
| Ledger.AddProduct | App.tsx:68-77 | One product is appended with the form's fields and a clock-derived id. Everything else is unchanged |
| Ledger.AddClient | App.tsx:79-89 | One client is appended with balance 0 and id "c" followed by the clock. Existing clients are unchanged |
| Ledger.AddPayment | App.tsx:91-104 | One payment is appended. Every client with the matching id has the amount subtracted with no floor. Other clients, products and sales are unchanged |
| Journal.StepLedger | App.tsx:45-50 | Any single commit changes an existing client's balance by its new credit sales minus its new payments, and only appends to the journals |
| Journal.LedgerIdentity | App.tsx:45-50 | After any run of commits, an existing client's balance is its starting balance, plus the credit sales charged to its id since then, minus the payments recorded for its id since then. The journals only grow |
| Journal.LedgerIdentityFromFreshStart | App.tsx:102 | Starting from empty journals, balance = initial balance + all its credit sales − all its payments |
| Journal.RegisteredClientLedger | App.tsx:79-89 | A client registered mid-run owes exactly its credit sales minus its payments since registration |
| Journal.RunKeepsJournalBalanced | App.tsx:21-32 | Every journaled sale's total and cost remain the sums over its lines after any run |
| Journal.StepKeepsDistinctIds | App.tsx:61-77 | A single commit keeps product ids distinct when a new product's clock rendering is not already an id. Replacing a product keeps every id |
| Journal.RunKeepsDistinctIds | App.tsx:68-77 | After any run of commits product ids are still distinct, provided no new product's clock rendering was already an id when it was added |
| Cart.AvailableProducts | components/POSModule.tsx:18-20 | The offered products are exactly those whose lower-cased name contains the lower-cased search term and whose stock is positive |
| Cart.AddToCart | components/POSModule.tsx:22-41 | A product already in the cart keeps the set of line ids. A line already at the stock leaves the cart unchanged; otherwise the product's line gains exactly one unit and keeps its name, price and cost. A new product is appended as a line of one at the sell price and buy price. Other lines are unchanged |
| Cart.AddToCartKeepsCartOk | components/POSModule.tsx:22-41 | Adding an offered product keeps the cart's line ids unique, its quantities positive, and every line within its product's stock |
| Cart.AddToCartQuantity | components/POSModule.tsx:27-39 | Adding raises the product's units by one unless its line is already at the stock. Other products' units are unchanged |
| Cart.Requantify | components/POSModule.tsx:47-50 | The line's new quantity is max(0, old + delta), except that for a product the catalogue knows it stays as it was exactly when max(0, old + delta) exceeds that product's stock. Hence it is never negative, + never lowers it, − never raises it, and starting within the stock it stays within it |
| Cart.UpdateQuantity | components/POSModule.tsx:43-55 | No resulting line is non-positive. Every resulting line is a cart line with at most its quantity changed, so names, prices and costs are kept. Every line for another product comes unchanged from the cart. A line that changed never exceeds the stock of a product the catalogue knows. When no line is emptied, the cart keeps every position and only the product's lines are requantified |
| Cart.UpdateQuantityKeepsCartOk | components/POSModule.tsx:43-55 | Changing a quantity keeps the cart invariant |
| Cart.UpdateQuantityQuantity | components/POSModule.tsx:45-53 | The changed product's units become max(0, old + delta), or stay as they were when that would exceed a known product's stock. Other products' units are unchanged |
| Cart.UpdateQuantityKeepsOtherLines | components/POSModule.tsx:45-53 | Apart from the changed product's line, the cart is the same sequence in the same order |
| Cart.RemoveFromCart | components/POSModule.tsx:57-59 | Exactly the lines for other products remain, and the id is gone |
| Cart.RemoveFromCartKeepsCartOk | components/POSModule.tsx:57-59 | Removing a line keeps the cart invariant |
| Cart.Finish | components/POSModule.tsx:63-85 | A checkout is submitted exactly when the cart is non-empty and, for a credit sale, a client is selected and either the client is not above the $1000 debt limit or the operator confirmed. It carries the cart, the method, and the client or none |
| Cart.PressPagar | components/POSModule.tsx:63-83 | Pressing "Pagar" submits exactly what `Cart.Finish` submits. A submitted sale returns the screen to an empty cart, cash and no client; a refused one leaves the screen as it was |
| Cart.SaleStartsAfresh | components/POSModule.tsx:13-16 | After a sale goes through the screen is back in its opening state, so pressing "Pagar" again at once submits nothing |
| Checkout.BuildCartOk | components/POSModule.tsx:22-59 | Any sequence of clicks on offered products and cart lines yields a cart satisfying the invariant |
| Checkout.CommitLowersStockByCart | App.tsx:36-42 | Committing a cart that satisfies the invariant lowers each product's stock by exactly its cart units, whatever the other stocks are. A product that started non-negative, or that the cart sells, ends non-negative, so an all non-negative catalogue stays so |
| Checkout.SubmitSale | components/POSModule.tsx:80 | A refused checkout leaves the state unchanged. A submitted one journals the cart at the cart's total (components/POSModule.tsx:61) and names the selected client on credit |
| Checkout.SellingFromTheScreen | App.tsx:36-42 | Whatever the clicks and whatever stocks the catalogue holds (the product form accepts negative stock), pressing "Pagar" keeps every non-negative stock non-negative, and a sale that goes through lowers each stock by exactly its cart units |
| Checkout.ScreenTotalIsCharged | components/POSModule.tsx:61 | A submitted credit sale charges the selected client exactly the cart total the screen shows |
| Clients.FilteredClients | components/ClientsModule.tsx:19-21 | Exactly the clients whose lower-cased name contains the lower-cased term are kept |
| Clients.FilteredClientsInOrder | components/ClientsModule.tsx:19-21 | The list distributes over concatenation, so it keeps the clients' original order |
| Clients.EmptySearchListsAll | components/ClientsModule.tsx:19-21 | An empty search lists every client in order |
| Clients.HandlePayment | components/ClientsModule.tsx:23-32 | A payment is submitted exactly when a client is selected, the field is non-empty and the amount is a positive number. The shown client's balance drops by the amount |
| Clients.ShownBalanceMatchesLedger | components/ClientsModule.tsx:28-30 | The balance the screen shows after a payment equals the balance the ledger records |
| Clients.OverpaymentGoesNegative | components/ClientsModule.tsx:28 | Paying more than is owed leaves a negative balance, with no floor |
| Clients.InsertNewestFirst | components/ClientsModule.tsx:36 | Inserting into a newest-first list gives a newest-first list with the same elements plus the new one |
| Clients.SortNewestFirst | components/ClientsModule.tsx:36 | The result is newest first and a permutation of the input |
| Clients.ClientPayments | components/ClientsModule.tsx:34-36 | The history is newest first and holds exactly the payments of the selected client, as a permutation of them, and is empty with no selection |
| Inventory.AdjustStock | components/InventoryModule.tsx:25-27 | Only the stock changes. It becomes old + delta, or 0 when that would be negative, so it is never negative |
| Inventory.ShrinkEmptyShelf | components/InventoryModule.tsx:26 | Taking one unit from an empty shelf leaves the stock at 0 |
| Inventory.InboundAdjustmentsAdd | components/InventoryModule.tsx:26 | Two inbound adjustments on a non-negative stock equal one adjustment by their sum |
| Inventory.AdjustmentInState | components/InventoryModule.tsx:25-27 | Committing an adjustment puts the adjusted record in the product's place with a non-negative stock, and keeps every non-negative stock in the catalogue non-negative, whatever the other stocks are |
| Inventory.ParseCategoryFilter | components/InventoryModule.tsx:63 | 'Todos' is read as the all-categories filter, and nothing else is. Any other accepted label is a category's own label |
| Inventory.ParseCategoryFilterRoundTrip | components/InventoryModule.tsx:63 | Each category's own label selects exactly that category |
| Inventory.FilteredProducts | components/InventoryModule.tsx:19-23 | Exactly the products whose name matches the search and that are in the selected category (any category for 'Todos') are kept |
| Inventory.TodosKeepsAllMatches | components/InventoryModule.tsx:21-22 | With 'Todos', every product that matches the search is listed |
| Inventory.FilteredProductsInOrder | components/InventoryModule.tsx:19-23 | The filter distributes over concatenation, so it keeps the catalogue's order |
| Inventory.SubmitProductForm | components/InventoryModule.tsx:144-161 | When editing, the product is replaced with the form's fields under the original id. Otherwise the draft is passed on with no id |
| Inventory.EditKeepsIds | components/InventoryModule.tsx:155-156 | Editing a product keeps every product id in the catalogue |
| Reports.TodaySales | components/ReportsModule.tsx:14-15 | Exactly the sales stamped at or after the start of the day are kept |
| Reports.TodaySalesAppend | components/ReportsModule.tsx:15 | The day's filter distributes over concatenation, so it keeps the journal's order and each sale's multiplicity |
| Reports.TotalRevenue | components/ReportsModule.tsx:17 | With balanced journal entries, revenue is the sum of price × quantity over every journaled line |
| Reports.TotalCost | components/ReportsModule.tsx:18 | With balanced journal entries, cost is the sum of cost × quantity over every journaled line |
| Reports.SalesTotalsAppend | components/ReportsModule.tsx:17-18 | Revenue and cost are additive over a split of the journal |
| Reports.NetProfit | components/ReportsModule.tsx:19 | Profit equals the sum of each sale's own margin, and with balanced entries the margin over all journaled lines |
| Reports.CreditSalesCount | components/ReportsModule.tsx:20 | The count is at most the number of sales. It is 0 exactly when all sales are cash, and it equals the number of sales exactly when all are on credit |
| Reports.CreditSalesCountAppend | components/ReportsModule.tsx:20 | The credit count is additive over a split of the journal |
| Reports.SalesByCategory | components/ReportsModule.tsx:23-30 | The chart's keys are exactly the categories of today's lines. Each category's bucket is the sum of the subtotals of the lines whose product is in it, with a missing product counted as 'Varios' |
| Reports.CategorySumsPartition | components/ReportsModule.tsx:23-30 | The four category sums add up to the sum of all line subtotals |
| Reports.CategoryChartAddsUpToRevenue | components/ReportsModule.tsx:23-30 | With a balanced journal, the category slices add up to the day's revenue |
| Reports.AddToRows | components/ReportsModule.tsx:187-196 | One step of the reduce opens at most one row, renames none, leaves rows with other names unchanged, opens a new row with the line's own quantity and subtotal, and adds the line's quantity and subtotal to the row sums exactly once |
| Reports.Breakdown | components/ReportsModule.tsx:187-196 | There are at most as many rows as lines, one per distinct line name, and the rows add up to the lines' total quantity and total subtotal |
| Reports.BreakdownSums | components/ReportsModule.tsx:187-196 | Each row's quantity and subtotal are the sums over the lines with its name |
| Reports.BreakdownOrder | components/ReportsModule.tsx:187-196 | Rows come in order of their name's first appearance |
| Reports.BreakdownSpec | components/ReportsModule.tsx:187-196 | The breakdown has one row per distinct line name, in order of first appearance, each summing the quantities and subtotals of the lines with its name |
| Types.ParseCategory | types.ts:2 | A label read as a category is that category's own label |
| Types.CategoryNameRoundTrip | types.ts:2 | Each of the four categories reads back from its label, so the labels are distinct |
| Text.DecimalRoundTrip | App.tsx:25 | The decimal rendering of the clock reads back as the same number |
| Text.DecimalStringInjective | App.tsx:71 | Distinct instants give distinct ids |
| Text.IncludesIffOccurs | components/POSModule.tsx:19 | The substring test holds exactly when the term occurs at some position |
| Fixtures.InitialProductsWellFormed | constants.tsx:5-10 | The starting products have distinct ids and non-negative stock, each sells above its purchase price, and each category is in the menu |
| Fixtures.CategoriesListEachOnce | constants.tsx:19 | The category menu lists each of the four categories exactly once |
| Fixtures.InitialClientsWellFormed | constants.tsx:14-16 | The starting clients have distinct ids and non-negative balances |
| Fixtures.FiveKilosIsOneLine | constants.tsx:5 | Five clicks on the first product give one line of five at $24.00 and a cost of $18.00 |
| Fixtures.CashSaleOfFiveKilos | App.tsx:21-42 | From the first start, a cash sale of those five kilos journals $120.00 at a cost of $90.00 and leaves 195 kilos. No other product or client changes |
| Fixtures.CreditThenOverpayment | App.tsx:45-50 | Two kilos on credit raise Doña María's debt from $150.00 to $198.00. A later $300.00 payment leaves her at −$102.00. No other client changes |

## Left out

- db.ts persistence is left out: local storage, JSON parsing and saving on change are browser I/O. Only its fallback state is modelled, as `Fixtures.InitialState`, the fixtures with empty journals.
- components/Layout.tsx, JSX rendering, charts and `window.print` are left out. They are presentation only.
- The `alert` dialogs are left out. The high-debt `confirm` is kept as the boolean parameter `confirmed`.
- Floating point is left out. `parseFloat`/`parseInt` become oracle parameters, and money is exact centavos. `toFixed` and the IVA display split (`total / 1.16`) are display only.
- `toLowerCase` is modelled for ASCII and Latin-1 capitals only. Other scripts are compared as they are.
- `new Date().setHours(0,0,0,0)` and locale date formatting are left out. The start of the day is a parameter.
- `Date.now()` collisions are left out. Each commit takes its own instant, and `Text.DecimalStringInjective` shows that distinct instants give distinct ids.
- The in-place `sort` of today's sales inside the sales table (components/ReportsModule.tsx:139) is left out. Because it sorts the array itself during rendering, before the printed breakdown (components/ReportsModule.tsx:187-196) reads it, the printed rows follow today's sales newest first. `Reports.Breakdown` and `Reports.BreakdownOrder` are stated over whatever order the sales are given in, so their first-appearance order applies to the newest-first order; the sort step itself is not modelled.
- Clients.SortNewestFirst: proved newest first and a permutation; stability is not proved. The JavaScript sort keeps payments with equal timestamps in journal order, and no lemma here states that for the model.
- Reports.SalesByCategory: the source's object keys are strings, and its `prod?.category || 'Varios'` also catches an empty category. The model's categories are a closed datatype and cannot be empty, so only a missing product falls back to 'Varios'.
- Cart.PressPagar: the success `alert` after a sale and the search box are not part of the screen state modelled. The search term is not reset by the source either.
