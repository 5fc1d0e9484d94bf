# tacosPOS core, modelled in Dafny

This project models the logic of the tacosPOS point of sale that works
without a screen or a network. It covers:

- the kitchen phase engine (`getOrderPhase`, `advanceOrder`, and the
  new-order sound decision);
- the open-tab builder and tab settlement (`fetchTabs`, `closeTab`);
- the cash-session ledger and the cash page's input guards and badges;
- order creation and append (`createOrder`, `insertNewOrder`,
  `appendToOrder`, `updateOrderStatus`);
- the POS cart and the modifier picker;
- the report and dashboard aggregations;
- the print agent's 32-column kitchen ticket;
- CSV export.

All amounts are integer cents, so `Math.round(x * 100) / 100` on an
amount is exact. The 16 % tax is `(16 * subtotal + 50) / 100`, which is
the source's half-up rounding. The backend is the class `Store.Db`. Its
tables are sequences of rows, and each write is one update of those
sequences. Hook and page state that the source changes in place is a
class: `Kitchen.KitchenFeed`, `Ledger.CashRegister`, `CashPage.Page`,
`Pos.PosScreen`, `Modifiers.ModifierPicker` and
`Dashboard.DashboardStats`. The rows a query returns are inputs;
`None` stands for a failed fetch. A JavaScript `Map` filled in a loop
is a sequence of groups with distinct keys, kept in first-insertion
order (module `Aggregate`). `Array.prototype.sort` is an insertion sort
by a rank function (module `Sorting`).

Each loop in the source is a method with a loop invariant. The method's
`ensures` ties its result to a specification function, and the lemmas
about that function state what the source promises.

Modules and files:

| file | module | models |
|---|---|---|
| wrappers.dfy | Wrappers | `Option`, `Result` |
| seqs.dfy | Seqs | a subsequence read at ascending indices |
| text.dfy | Text | toasts, `join`, `slice`, `padStart`/`padEnd`, `trim`, `toUpperCase`, `String(n)` |
| money.dfy | Money | tax, `Math.round(n / d)`, `toFixed(2)` |
| store.dfy | Store | the tables and the shared update shapes |
| kitchen.dfy | Kitchen | useKitchenOrders.ts |
| orders.dfy | Orders | useOrders.ts |
| tabs.dfy | Tabs | useOpenTabs.ts |
| cash.dfy | Ledger | useCashRegister.ts |
| cashpage.dfy | CashPage | CashRegisterPage.tsx |
| pos.dfy | Pos | POS.tsx |
| modifiers.dfy | Modifiers | ModifierModal.tsx |
| aggregate.dfy | Aggregate | the group-by loops of the reports and the dashboard |
| sorting.dfy | Sorting | `sort` by a key and `slice(0, n)` |
| reports.dfy | Reports | useReports.ts |
| dashboard.dfy | Dashboard | useDashboardStats.ts |
| escpos.dfy | Escpos | escpos.ts |
| ticket.dfy | Ticket | ticket-formatter.ts |
| csv.dfy | Csv | exportCsv.ts |

## Model

| member | source | states |
|---|---|---|
| Kitchen.MinActiveRank | apps/pos/src/hooks/useKitchenOrders.ts:35 | None exactly when no item is active. Otherwise it is a rank no active item goes below, and some active item has it (`statusRank[s] ?? 0`, with cancelled items filtered out) |
| Kitchen.Rank | apps/pos/src/hooks/useKitchenOrders.ts:23-28 | Pending ranks 0, preparing 1, ready 2 and delivered 3, and a cancelled item ranks with pending (0) |
| Kitchen.GetOrderPhase | apps/pos/src/hooks/useKitchenOrders.ts:31-40 | The phase's rank is at most every active item's rank. Unless the phase is done, some active item is at it. The phase is done exactly when every active item is delivered, which includes having no active item |
| Kitchen.AllCancelledIsDone | apps/pos/src/hooks/useKitchenOrders.ts:32-33 | An order whose items are all cancelled, or that has none, is done |
| Kitchen.PreparingAndReadyIsPreparing | apps/pos/src/hooks/useKitchenOrders.ts:35-39 | The least advanced item sets the phase: {preparing, ready} gives preparing |
| Kitchen.PhaseOfTwo | apps/pos/src/hooks/useKitchenOrders.ts:31-40 | For any two active items, the phase's rank is the smaller of their ranks: the less advanced item sets the phase, and two delivered items give done |
| Kitchen.IdsWithStatus | apps/pos/src/hooks/useKitchenOrders.ts:139 | An id is listed exactly when some item with that id has the status |
| Kitchen.DoneIsFixedPoint | apps/pos/src/hooks/useKitchenOrders.ts:133-171 | In phase done, advancing changes nothing |
| Kitchen.AdvanceChangesExactlyThePhaseItems | apps/pos/src/hooks/useKitchenOrders.ts:138-170 | Exactly the items at the phase's status move to the next status, and every other item stays as it was. The order becomes completed in phase ready and only there |
| Kitchen.Advance | apps/pos/src/hooks/useKitchenOrders.ts:133-171 | Advancing is stated by `AdvanceChangesExactlyThePhaseItems`, `AdvanceIsMonotone`, `AdvanceRaisesPhase` and `DoneIsFixedPoint`: exactly the items at the phase move one step, no item goes back, the phase rises, and a done order stays as it is |
| Kitchen.AdvanceIsMonotone | apps/pos/src/hooks/useKitchenOrders.ts:133-171 | No item's rank goes down, and cancelled items stay cancelled |
| Kitchen.AdvanceRaisesPhase | apps/pos/src/hooks/useKitchenOrders.ts:133-171 | Outside phase done, the order's phase rank strictly increases |
| Kitchen.AdvanceOrder | apps/pos/src/hooks/useKitchenOrders.ts:134-171 | Writes the batch status update of the phase's items. In phase ready it then marks the order completed. In phase done it writes nothing |
| Kitchen.AdvanceWriteAgreesWithSnapshot | apps/pos/src/hooks/useKitchenOrders.ts:139-144 | When the snapshot is current, the row written for an item ends with the status that advancing gives that item |
| Kitchen.OrderIds | apps/pos/src/hooks/useKitchenOrders.ts:92 | The fetched orders' ids, in order |
| Kitchen.HasNewId | apps/pos/src/hooks/useKitchenOrders.ts:94-99 | The loop with `break` finds a new id exactly when some current id is not in the previous snapshot |
| Kitchen.KitchenFeed.constructor | apps/pos/src/hooks/useKitchenOrders.ts:55-59 | No orders, an empty snapshot, and the initial load not yet done |
| Kitchen.KitchenFeed.Refresh | apps/pos/src/hooks/useKitchenOrders.ts:61-106 | A failed fetch plays nothing and changes nothing. Otherwise the sound plays at most once, never on the first load, and exactly when some fetched id is new. The snapshot becomes the fetched ids |
| Store.Latest | apps/pos/src/hooks/useCashRegister.ts:38-44 | The query shape "descending by time, limit 1": None exactly when no row matches. Otherwise a matching row that no matching row is later than |
| Store.ActiveSessionIsLatestOpen | apps/pos/src/hooks/useCashRegister.ts:37-51 | There is no active session exactly when every session is closed. Otherwise the active session is open and no open session was opened after it |
| Store.SetOrderStatus | apps/pos/src/hooks/useOrders.ts:120-127 | Only the rows with the id get the new status, and every other row is unchanged |
| Store.SetItemStatusIn | apps/pos/src/hooks/useKitchenOrders.ts:141-144 | Exactly the rows whose id is listed get the new status |
| Money.Tax | apps/pos/src/hooks/useOrders.ts:46 | The tax is 16 % of the subtotal, rounded half-up to the cent |
| Money.TaxNonNegative | apps/pos/src/hooks/useOrders.ts:46 | A non-negative subtotal has a non-negative tax of at most 16 % plus half a cent |
| Money.RoundDiv | apps/pos/src/hooks/useReports.ts:119 | The nearest integer to n/d, with halves rounded up |
| Money.Fixed2 | apps/pos/src/pages/CashRegisterPage.tsx:289 | `toFixed(2)`: two decimals after a point, and a minus sign exactly for negative amounts |
| Money.Fixed2RoundTrip | apps/pos/src/pages/CashRegisterPage.tsx:289 | Reading back `toFixed(2)` gives the amount in cents |
| Text.Repeat | apps/print-agent/src/escpos.ts:39-40 | `c.repeat(n)` has length n and holds only c |
| Text.Spaces | apps/print-agent/src/ticket-formatter.ts:163 | `' '.repeat(n)` has length n and holds only spaces |
| Text.SliceTo | apps/print-agent/src/escpos.ts:75 | `slice(0, end)` is a prefix: end characters, or fewer when the string is shorter. A negative end counts from the back |
| Text.ToUpper | apps/pos/src/hooks/useOpenTabs.ts:84 | Same length, with each character upper-cased |
| Text.ShortId | apps/pos/src/hooks/useOpenTabs.ts:84 | The first six characters (fewer for a shorter id), upper-cased |
| Text.TrimStart | apps/pos/src/pages/POS.tsx:80 | A suffix that starts with no white space, with only white space removed in front |
| Text.TrimEnd | apps/pos/src/pages/POS.tsx:80 | A prefix that ends with no white space, with only white space removed behind |
| Text.TrimEmptyIffBlank | apps/pos/src/pages/POS.tsx:80 | `trim()` is empty exactly when the string is all white space |
| Text.NatToString | apps/print-agent/src/ticket-formatter.ts:84 | `String(n)` is non-empty and made of decimal digits |
| Text.IntToStringRoundTrip | apps/print-agent/src/ticket-formatter.ts:84 | `String(i)` reads back as i |
| Text.JoinSnoc | apps/print-agent/src/ticket-formatter.ts:100 | Joining one more line adds the separator and that line |
| Text.JoinStartsWithFirst | apps/print-agent/src/ticket-formatter.ts:100 | A joined text starts with its first line |
| Orders.CartSubtotalAppend | apps/pos/src/hooks/useOrders.ts:45 | The subtotal of two carts together is the sum of their subtotals |
| Orders.CartSubtotalNonNegative | apps/pos/src/hooks/useOrders.ts:45 | Non-negative prices and quantities give a non-negative subtotal |
| Orders.NewItemRows | apps/pos/src/hooks/useOrders.ts:64-72 | One row per cart line, in cart order. Each has the target order id, the line's product, quantity and price, subtotal price × quantity, and status pending |
| Orders.NewRowsTotal | apps/pos/src/hooks/useOrders.ts:64-72 | The rows written for a cart add up to the cart's subtotal for their order, and to 0 for any other order |
| Orders.UpdateTotals | apps/pos/src/hooks/useOrders.ts:105-113 | Only the named order changes. It gets the new subtotal, the tax recomputed from it, and subtotal + tax as total |
| Orders.AppendTarget | apps/pos/src/hooks/useOrders.ts:26-34 | None without notes. With notes, None exactly when no open or in-progress order has those notes. Otherwise the most recently created such order |
| Orders.InsertNewOrder | apps/pos/src/hooks/useOrders.ts:44-81 | Appends one open order row whose totals come from the cart, then the cart's item rows. Returns the new id with appended = false |
| Orders.AppendToOrder | apps/pos/src/hooks/useOrders.ts:83-118 | Appends the cart's item rows to the existing order and recomputes that order's totals from old subtotal + cart subtotal. Returns the existing id with appended = true |
| Orders.CreateOrder | apps/pos/src/hooks/useOrders.ts:22-42 | An empty cart is refused before any write. Otherwise it appends to the append target when there is one, and otherwise inserts a new order; the cart's item rows go to that order, and the result names it and says whether it appended |
| Orders.UpdateOrderStatus | apps/pos/src/hooks/useOrders.ts:120-127 | Only the named order's status changes |
| Orders.InsertKeepsConsistent | apps/pos/src/hooks/useOrders.ts:45-72 | After a new order under a fresh id, every order's subtotal still equals the sum of its item rows, and its tax and total still follow from it |
| Orders.NewOrderRow | apps/pos/src/hooks/useOrders.ts:45-58 | The new order row, stated by `InsertKeepsConsistent`: its subtotal is the total of the item rows inserted with it, and its tax and total agree with that subtotal, so the tables stay consistent |
| Orders.AppendKeepsConsistent | apps/pos/src/hooks/useOrders.ts:88-113 | After an append, every order's subtotal, tax and total still agree with its item rows |
| Orders.AppendExample | apps/pos/src/hooks/useOrders.ts:105-108 | 14.00 gives 2.24 tax and 16.24 total. Appending 5.00 gives 19.00 / 3.04 / 22.04 |
| Orders.TaxIsRecomputedNotAdded | apps/pos/src/hooks/useOrders.ts:107 | Recomputing the tax can differ from adding the two taxes |
| Tabs.FindLine | apps/pos/src/hooks/useOpenTabs.ts:113 | `items.find`: the first line with that product name and unit price, or None when there is none |
| Tabs.Key | apps/pos/src/hooks/useOpenTabs.ts:82-87 | The grouping key is stated by `OwnKeyDiffers`, `TakeoutKeyInjective` and `SameTableSameTab`: orders of their own get keys that differ from each other and from table ids not shaped like `takeout-…`, and orders at one table share a key |
| Tabs.Label | apps/pos/src/hooks/useOpenTabs.ts:82-89 | The tab name is never empty. For an order of its own: the notes when they are non-empty, else "Para Llevar #" and the short id. For a table: the table name when non-empty, else the notes when non-empty, else "Mesa" |
| Tabs.NewTab | apps/pos/src/hooks/useOpenTabs.ts:91-101 | A first order opens its tab: stated by `TabOf`, `TabOfSnoc` and `FirstWithKey` (the tab takes the name, table, type and creation time of the first order with its key) |
| Tabs.AddOrder | apps/pos/src/hooks/useOpenTabs.ts:103-125 | Each order adds its id, its totals and its items to the tab: stated by `TabOf`, `TabOfSnoc`, `IdInTab` and `MergeAllPair` |
| Tabs.MergeItem | apps/pos/src/hooks/useOpenTabs.ts:109-124 | One item merged into the lines: stated by `MergeItemPair` (exact effect on each (name, price) pair), `MergeItemFacts` (pairs stay unique) and `CancelledItemIgnored` |
| Tabs.Group | apps/pos/src/hooks/useOpenTabs.ts:73-128 | The map's keys are distinct and are exactly its entries, and every order's key is among them |
| Tabs.TabsOf | apps/pos/src/hooks/useOpenTabs.ts:130 | One tab per key, in key order; `GroupKeysFirstSeen` states that the keys are in the order they were first seen |
| Tabs.GroupKeysFirstSeen | apps/pos/src/hooks/useOpenTabs.ts:90-130 | The keys met in the first m orders are the first keys after all orders, in the same order: the map's keys, and so the tabs, are in first-seen order |
| Tabs.MergeOrderItems | apps/pos/src/hooks/useOpenTabs.ts:108-125 | The inner loop merges the order's items into the lines as the specification function does |
| Tabs.AddToTabMap | apps/pos/src/hooks/useOpenTabs.ts:74-127 | One pass of the outer loop updates the keys and the map as one grouping step |
| Tabs.BuildTabs | apps/pos/src/hooks/useOpenTabs.ts:58-130 | The loop yields the tabs of the grouping |
| Tabs.OrdersWithKey | apps/pos/src/hooks/useOpenTabs.ts:82-91 | The orders of one key: every order of that key is among them, and no order of another key |
| Tabs.KeyPositions | apps/pos/src/hooks/useOpenTabs.ts:82-91 | The indices of the orders of one key, ascending: exactly the indices whose order has that key |
| Tabs.OrdersWithKeyInOrder | apps/pos/src/hooks/useOpenTabs.ts:82-91 | The orders of one key are the input read at those indices, so they keep the input order |
| Tabs.TabOfSnoc | apps/pos/src/hooks/useOpenTabs.ts:90-127 | One more order adds its id, its amounts and its items to the tab of the earlier orders of its key, or opens a tab of its own |
| Tabs.TabOf | apps/pos/src/hooks/useOpenTabs.ts:91-125 | A group's tab takes its label, table, type and oldest time from the first order. It lists all the ids in order, sums the stored subtotals, taxes and totals, and merges all the items |
| Tabs.GroupIsTabOf | apps/pos/src/hooks/useOpenTabs.ts:73-128 | The tab the loop builds for a key is the tab of exactly that key's orders |
| Tabs.TabsOfIsTabOf | apps/pos/src/hooks/useOpenTabs.ts:130 | The i-th tab is the tab of the orders of the i-th key |
| Tabs.IdInTab | apps/pos/src/hooks/useOpenTabs.ts:103 | Every order's id is in the tab of its key |
| Tabs.SameTableSameTab | apps/pos/src/hooks/useOpenTabs.ts:86-87 | Dine-in orders at the same table share one key and one tab, which lists both ids |
| Tabs.OwnKeyDiffers | apps/pos/src/hooks/useOpenTabs.ts:82-83 | A takeout or table-less order's key differs from every other order's key, as long as no table id looks like `takeout-…` |
| Tabs.OwnTabIsAlone | apps/pos/src/hooks/useOpenTabs.ts:82-83 | With distinct ids, a takeout or table-less order is alone in its tab |
| Tabs.FirstWithKey | apps/pos/src/hooks/useOpenTabs.ts:91-101 | The first order grouped under a key is the first input order with that key |
| Tabs.OldestIsEarliest | apps/pos/src/hooks/useOpenTabs.ts:91-101 | With the rows ascending by `created_at`, a tab's `oldestOrder` is at most the creation time of each of its orders |
| Tabs.LinesUpdate | apps/pos/src/hooks/useOpenTabs.ts:115-116 | Updating a line in place changes the line totals by its change |
| Tabs.LinesAppend | apps/pos/src/hooks/useOpenTabs.ts:118-123 | Pushing a line adds its quantity and subtotal |
| Tabs.MergeItemFacts | apps/pos/src/hooks/useOpenTabs.ts:109-124 | Merging one item keeps (name, unit price) pairs unique. It adds the item's quantity and subtotal when the item is not cancelled, and nothing when it is |
| Tabs.MergeItemsFacts | apps/pos/src/hooks/useOpenTabs.ts:108-125 | Merging an order's items keeps pairs unique and adds exactly the non-cancelled items' quantity and subtotal |
| Tabs.MergeAllFacts | apps/pos/src/hooks/useOpenTabs.ts:108-125 | A tab's lines have unique pairs, hold the total quantity of the non-cancelled items of its orders, and their subtotals add up to those items' subtotal |
| Tabs.CancelledItemIgnored | apps/pos/src/hooks/useOpenTabs.ts:109 | A cancelled item leaves the lines as they were |
| Tabs.MergeItemPair | apps/pos/src/hooks/useOpenTabs.ts:109-124 | For every (name, unit price) pair, merging an item adds its quantity and subtotal to that pair's line exactly when the item is not cancelled and has that name and price, and leaves every other pair's amounts as they were; the pair has a line afterwards exactly when it had one or the item hits it |
| Tabs.MergeItemsPair | apps/pos/src/hooks/useOpenTabs.ts:108-125 | For every pair, merging an order's items adds exactly the quantity and subtotal of its non-cancelled items with that name and price; the pair has a line exactly when it had one or such an item exists |
| Tabs.MergeAllPair | apps/pos/src/hooks/useOpenTabs.ts:108-125 | For every pair, the tab's line holds exactly the summed quantity and subtotal of the non-cancelled items of all its orders with that name and price, and the line exists exactly when such an item exists |
| Tabs.TabLinesArePairs | apps/pos/src/hooks/useOpenTabs.ts:108-125 | Every line of a tab stands for a pair some non-cancelled item has, with that pair's summed quantity and subtotal, and every such pair has a line; the same product at two prices gets two lines |
| Tabs.SetPayment | apps/pos/src/hooks/useOpenTabs.ts:166-173 | Exactly the tab's orders get the payment method, the discount and the tip |
| Tabs.TipMovement | apps/pos/src/hooks/useOpenTabs.ts:186-207 | A tip movement exists exactly when the tip is positive, a session is open and a user is signed in. It carries the tip, the active session, no order, the description "Propina - " + label, and the signed-in user as its creator |
| Tabs.SaleMovement | apps/pos/src/hooks/useOpenTabs.ts:210-233 | A sale movement exists exactly for cash with an open session, a user and total − discount + tip > 0. It carries that amount, the active session, the first order id, the description "Venta - " + label, and the signed-in user as its creator |
| Tabs.CloseTab | apps/pos/src/hooks/useOpenTabs.ts:157-236 | Marks the tab's orders paid, with discount and tip defaulting to 0. It frees the table of a dine-in tab, then records the tip movement and then the sale movement, each only when its rule allows |
| Tabs.CashTipCountedTwice | apps/pos/src/hooks/useOpenTabs.ts:186-233 | A cash settlement with a tip raises the expected cash by total − discount + 2 × tip |
| Ledger.SummaryOf | apps/pos/src/hooks/useCashRegister.ts:191-199 | Each field sums the movements of exactly its type. Expected is the opening amount (0 without a session) plus the signed sum of the movements |
| Ledger.ExpectedIsSignedSum | apps/pos/src/hooks/useCashRegister.ts:196-198 | opening + sales + deposits + tips − withdrawals equals opening plus each movement taken with its sign |
| Ledger.TypesPartition | apps/pos/src/hooks/useCashRegister.ts:192-195 | The four per-type sums add up to the sum of all movements |
| Ledger.ExpectedAfterMovement | apps/pos/src/hooks/useCashRegister.ts:196-198 | One more movement moves the expected cash by its signed amount |
| Ledger.MovementsOf | apps/pos/src/hooks/useCashRegister.ts:61-65 | Every movement of the session is listed, and no movement of another session |
| Ledger.SessionPositions | apps/pos/src/hooks/useCashRegister.ts:61-65 | The indices of the session's movements, ascending: exactly the indices whose movement belongs to the session |
| Ledger.MovementsOfInOrder | apps/pos/src/hooks/useCashRegister.ts:61-65 | The session's movements are the table read at those indices, so they keep table order |
| Ledger.MovementsOfAppend | apps/pos/src/hooks/useCashRegister.ts:61-65 | A new movement of the session extends its list by that movement, and a movement of another session leaves the list unchanged |
| Text.NullIfEmpty | apps/pos/src/hooks/useCashRegister.ts:161 | `notes \|\| null`, as for order notes, closing notes and movement descriptions: present exactly when non-empty, and then unchanged |
| Ledger.ClosedRow | apps/pos/src/hooks/useCashRegister.ts:153-163 | The closed session keeps its id and opening data. It gets the closer, the closing amount, the expected amount, the difference (closing − expected), the close time and the notes |
| Ledger.CloseRows | apps/pos/src/hooks/useCashRegister.ts:153-163 | Only the active session's row is closed |
| Ledger.CashRegister.constructor | apps/pos/src/hooks/useCashRegister.ts:32-33 | No active session and no movements |
| Ledger.CashRegister.FetchActiveSession | apps/pos/src/hooks/useCashRegister.ts:37-74 | The view shows the active session and its movements, or nothing and no movements |
| Ledger.CashRegister.OpenSession | apps/pos/src/hooks/useCashRegister.ts:123-136 | Refused without a user, and then nothing is written and the view is unchanged. Otherwise it inserts one open session with the amount; the view then shows the active session, which exists, and its movements as read from the tables |
| Ledger.CashRegister.CloseSession | apps/pos/src/hooks/useCashRegister.ts:138-168 | Refused without an active session or a user, and then nothing is written and the view is unchanged. Otherwise it closes exactly the active session with the summary's expected cash and the difference, and the view then shows what the tables hold |
| Ledger.CashRegister.AddMovement | apps/pos/src/hooks/useCashRegister.ts:170-188 | Refused without an active session or a user, and then nothing is written and the view is unchanged. Otherwise it inserts one deposit or withdrawal of the active session, and the view then shows the active session and its movements as read from the tables |
| Ledger.ClosedRowMatchesSummary | apps/pos/src/hooks/useCashRegister.ts:145-158 | The stored expected amount is the expected cash shown for the same movements, and the difference is closing − expected |
| Ledger.AddMovementMovesExpected | apps/pos/src/hooks/useCashRegister.ts:170-198 | After a recorded movement, the refreshed expected cash moves by its signed amount |
| CashPage.GuardsAtZero | apps/pos/src/pages/CashRegisterPage.tsx:64-102 | 0 opens and closes a session but is refused as a movement. Every amount a movement accepts also opens a session |
| CashPage.Page.constructor | apps/pos/src/pages/CashRegisterPage.tsx:62-117 | All fields empty, not busy, close form hidden |
| CashPage.Page.HandleOpenSession | apps/pos/src/pages/CashRegisterPage.tsx:62-78 | A missing or negative amount is refused with a message and nothing else. Otherwise it opens a session; on success the field is cleared and the register shows the new state, on failure the field and the register stay. The other form fields are never touched |
| CashPage.Page.HandleCloseSession | apps/pos/src/pages/CashRegisterPage.tsx:80-98 | A missing or negative amount is refused with a message and nothing else. Otherwise it closes the session with the form's notes; on success the form is cleared and hidden and the register shows the new state, on failure the form and the register stay. The other form fields are never touched |
| CashPage.Page.HandleAddMovement | apps/pos/src/pages/CashRegisterPage.tsx:100-117 | A missing, zero or negative amount is refused with a message and nothing else. Otherwise it records the movement with the form's description; on success the fields are cleared and the register shows the new state, on failure the fields and the register stay. The other form fields are never touched |
| CashPage.DifferenceBadge | apps/pos/src/pages/CashRegisterPage.tsx:375-389 | No badge without a difference. "Cuadra" at exactly 0, "+$" and the amount above 0, and the amount's own minus below 0. The amount reads back as the difference |
| CashPage.MovementAmountText | apps/pos/src/pages/CashRegisterPage.tsx:288-289 | '-' exactly for withdrawals and '+' for every other type, then "$" and an amount that reads back |
| CashPage.MovementLabel | apps/pos/src/pages/CashRegisterPage.tsx:278 | An unknown type string is shown as it is, and the four known types get their Spanish labels |
| CashPage.LabelsAreDistinct | apps/pos/src/pages/CashRegisterPage.tsx:16-21 | Each stored type has a label of its own, different from its raw name and from the other types' labels |
| Pos.Bump | apps/pos/src/pages/POS.tsx:36-40 | The product's lines change quantity by delta, and every other line is unchanged |
| Pos.AddToCart | apps/pos/src/pages/POS.tsx:32-47 | A product in the cart gets one more unit. A new product is appended with quantity 1 and its price |
| Pos.KeepPositive | apps/pos/src/pages/POS.tsx:63 | Only lines with a positive quantity remain. A cart with no zero lines is unchanged |
| Pos.KeepPositiveKeeps | apps/pos/src/pages/POS.tsx:63 | Every line with a positive quantity is kept |
| Pos.KeepPositiveAppend | apps/pos/src/pages/POS.tsx:63 | Filtering a cart in two parts gives the filtered parts one after the other, so the kept lines stay in cart order |
| Pos.Decrement | apps/pos/src/pages/POS.tsx:57-65 | On a well-formed cart, every remaining quantity is at least 1 |
| Pos.BumpTotal | apps/pos/src/pages/POS.tsx:49-55 | On a cart with one line per product, bumping changes the total quantity by delta exactly when the product is in the cart |
| Pos.AddToCartFacts | apps/pos/src/pages/POS.tsx:32-47 | Adding keeps one line per product and positive quantities, adds exactly one unit, and puts the product in the cart |
| Pos.IncrementFacts | apps/pos/src/pages/POS.tsx:49-55 | Incrementing keeps the cart well formed, and adds a unit exactly when the product is there |
| Pos.Increment | apps/pos/src/pages/POS.tsx:49-55 | Stated by `IncrementFacts` and `DecrementUndoesIncrement`: the cart stays well formed, gains one unit exactly when the product is in it, and a decrement takes it back |
| Pos.KeepPositiveDistinct | apps/pos/src/pages/POS.tsx:63 | Filtering keeps products distinct |
| Pos.DecrementWellFormed | apps/pos/src/pages/POS.tsx:57-65 | Decrementing keeps one line per product with quantities ≥ 1 |
| Pos.DecrementUndoesIncrement | apps/pos/src/pages/POS.tsx:49-65 | On a well-formed cart, decrement undoes increment |
| Pos.DecrementLastUnitRemovesLine | apps/pos/src/pages/POS.tsx:57-65 | Decrementing a line of one unit removes exactly that line |
| Pos.SubmitNotes | apps/pos/src/pages/POS.tsx:80 | No notes exactly when the table field is blank. Otherwise "Mesa " + the trimmed field |
| Pos.SubmitToast | apps/pos/src/pages/POS.tsx:84-92 | A success toast. Appended: "Items agregados a ", the notes or "orden existente" when they are empty, " — +$" and the amount. New order: "Pedido registrado — ", the notes or "Sin mesa", " — Total: $" and the amount. Either way it ends with the amount printed with two decimals |
| Pos.PosScreen.ClearCart | apps/pos/src/pages/POS.tsx:67-70 | Empties the cart and the table field |
| Pos.PosScreen.HandleSubmit | apps/pos/src/pages/POS.tsx:72-100 | Without a user, nothing is written. An empty cart fails and leaves the cart and the field. Otherwise the order is placed with the notes made from the table field, the cart's item rows are added to the order it went to, and the busy flag is cleared again |
| Pos.PosScreen.PlaceOrder | apps/pos/src/pages/POS.tsx:79-96 | An empty cart fails and leaves the cart and the field. Otherwise the cart is appended to the newest open order with the same notes, whose totals are recomputed, or becomes a new order, and the cart's item rows go to that order. The cart and the field are cleared, and the message reports the cart total |
| Modifiers.Toggled | apps/pos/src/components/pos/ModifierModal.tsx:23-40 | The modifier ends selected exactly when it was not, and there was room or max = 1. Others stay unless max = 1 replaces them. The size never goes above max |
| Modifiers.ToggleTwice | apps/pos/src/components/pos/ModifierModal.tsx:26-36 | Toggling a modifier that can be added twice restores the group |
| Modifiers.OptionalGroupsNeverBlock | apps/pos/src/components/pos/ModifierModal.tsx:46 | Without required groups, every selection is valid |
| Modifiers.InvalidIffShortRequiredGroup | apps/pos/src/components/pos/ModifierModal.tsx:42-49 | Invalid exactly when some required group has fewer than `min_select` choices |
| Modifiers.InitialValidity | apps/pos/src/components/pos/ModifierModal.tsx:15-21 | The empty initial selection is valid exactly when no required group asks for a choice |
| Modifiers.ToggleKeepsConsistent | apps/pos/src/components/pos/ModifierModal.tsx:34-36 | Toggling a group's own modifier keeps every group within `max_select` and within its own modifiers |
| Modifiers.ChosenIn | apps/pos/src/components/pos/ModifierModal.tsx:55-63 | Only selected modifiers, at most one per modifier. Nothing for an empty selection |
| Modifiers.ChosenInExactly | apps/pos/src/components/pos/ModifierModal.tsx:55-63 | A modifier is emitted exactly when it is selected, with `price_override` or 0 |
| Modifiers.ChosenInAll | apps/pos/src/components/pos/ModifierModal.tsx:55-63 | With all selected, every modifier is emitted in list order |
| Modifiers.ChosenAppend | apps/pos/src/components/pos/ModifierModal.tsx:53-64 | The output follows group order |
| Modifiers.NothingSelectedChoosesNothing | apps/pos/src/components/pos/ModifierModal.tsx:51-65 | With empty selections, nothing is emitted |
| Modifiers.ModifierPicker.constructor | apps/pos/src/components/pos/ModifierModal.tsx:15-21 | One empty selection per group of the product |
| Modifiers.ModifierPicker.Toggle | apps/pos/src/components/pos/ModifierModal.tsx:23-40 | Only the named group's selection changes, to its toggled set |
| Modifiers.ModifierPicker.IsValid | apps/pos/src/components/pos/ModifierModal.tsx:42-49 | The loop with early return answers exactly the validity predicate |
| Modifiers.ModifierPicker.Confirm | apps/pos/src/components/pos/ModifierModal.tsx:51-65 | The nested loops emit the selected modifiers in group and list order |
| Aggregate.IndexOf | apps/pos/src/hooks/useReports.ts:55 | `map.get(key)`: the first entry with the key, or None when there is none |
| Aggregate.AddKeepsKeys | apps/pos/src/hooks/useReports.ts:55-58 | Adding a row keeps every existing key in its place and makes the row's key present: a key already there adds no entry, a new key gets one entry, placed last |
| Aggregate.Add | apps/pos/src/hooks/useReports.ts:55-58 | One turn of the loop, stated by `AddKeepsKeys`, `AddTotals` and `GroupAllSums`: existing keys keep their places, a new key goes last, and the row's amounts are added to its key's entry |
| Aggregate.GroupAllCovers | apps/pos/src/hooks/useReports.ts:52-59 | Every row's key has an entry |
| Aggregate.GroupAllDistinct | apps/pos/src/hooks/useReports.ts:52-59 | No key appears twice |
| Aggregate.GroupAllSums | apps/pos/src/hooks/useReports.ts:52-59 | Each entry holds the sums and the count of exactly the rows with its key |
| Aggregate.GroupAll | apps/pos/src/hooks/useReports.ts:52-59 | Stated by `GroupAllCovers`, `GroupAllDistinct`, `GroupAllSums`, `GroupAllTotals` and `GroupAllFirstSeen`: one entry per key met, no key twice, each entry holding its key's sums and count, in first-seen order |
| Aggregate.GroupAllFirstSeen | apps/pos/src/hooks/useReports.ts:52-59 | The entries are in first-seen order: the entries after the first m rows stay the first entries, in the same order, after all rows |
| Aggregate.AddTotals | apps/pos/src/hooks/useReports.ts:55-58 | One turn of the loop adds one to the counts and the row's amount to the sums |
| Aggregate.GroupAllTotals | apps/pos/src/hooks/useReports.ts:52-59 | The counts add up to the number of rows, and the sums to the sum over all rows |
| Aggregate.Find | apps/pos/src/hooks/useReports.ts:55 | The search loop finds the index of the first entry with the key |
| Aggregate.Put | apps/pos/src/hooks/useReports.ts:55-58 | Updates the key's entry in place, or appends a new entry |
| Aggregate.Accumulate | apps/pos/src/hooks/useReports.ts:52-59 | The `for` loop over the rows builds the grouping |
| Sorting.Insert | apps/pos/src/hooks/useReports.ts:104 | Inserting into a sorted list keeps it sorted and is a permutation of list + item |
| Sorting.SortBy | apps/pos/src/hooks/useReports.ts:104 | The result is sorted by the key and is a permutation of the input |
| Sorting.Take | apps/pos/src/hooks/useDashboardStats.ts:80 | `slice(0, n)`: the first n items, or the whole list when it has no more than n |
| Sorting.TakeSorted | apps/pos/src/hooks/useReports.ts:102-105 | The kept items are sorted, drawn from the list, and none ranks after any item left out |
| Sorting.TopOf | apps/pos/src/hooks/useReports.ts:102-105 | The first n of a sorted copy number n, or all items when there are no more; with no more than n, all items are kept |
| Reports.DayTallies | apps/pos/src/hooks/useReports.ts:53-57 | Each order counts under `created_at.slice(0, 10)` with its total |
| Reports.Daily | apps/pos/src/hooks/useReports.ts:61-65 | One entry per day: the date, the total and the order count |
| Reports.SalesByPeriod | apps/pos/src/hooks/useReports.ts:40-66 | [] on a failed fetch. Otherwise the days in first-seen order with their totals and counts |
| Reports.OrderCountSumIsTotalCount | apps/pos/src/hooks/useReports.ts:57-64 | The daily counts add up to the group counts |
| Reports.SalesByPeriodEntries | apps/pos/src/hooks/useReports.ts:52-65 | Each date appears once, with the count and the total of exactly its orders |
| Reports.SalesByPeriodCovers | apps/pos/src/hooks/useReports.ts:52-65 | Every order's date has an entry, and the counts add up to the number of orders |
| Reports.ItemTallies | apps/pos/src/hooks/useReports.ts:93-98 | Each item counts under its product name, or "Desconocido", with its quantity and subtotal |
| Reports.ProductsOf | apps/pos/src/hooks/useReports.ts:102-103 | One entry per product with its quantity and revenue |
| Reports.TopProducts | apps/pos/src/hooks/useReports.ts:68-106 | [] without orders or items. Otherwise the products by descending quantity, at most 20 |
| Reports.TopProductsRanked | apps/pos/src/hooks/useReports.ts:102-105 | At most 20, by descending quantity, drawn from the products, and none left out sold more than one kept |
| Reports.TopProductsCount | apps/pos/src/hooks/useReports.ts:102-105 | Exactly 20 products, or all of the products when there are 20 or fewer |
| Reports.ProductTotals | apps/pos/src/hooks/useReports.ts:92-103 | No name appears twice, and each carries the quantity and revenue of all its items |
| Reports.AverageTicket | apps/pos/src/hooks/useReports.ts:108-120 | 0 without orders. Otherwise the mean total, rounded to the nearest cent |
| Reports.SumTotalsBounds | apps/pos/src/hooks/useReports.ts:118 | Totals between lo and hi sum to between n·lo and n·hi |
| Reports.AverageWithinRange | apps/pos/src/hooks/useReports.ts:117-119 | The average lies between the smallest and the largest total |
| Reports.MethodTallies | apps/pos/src/hooks/useReports.ts:134-139 | Each order counts under its payment method, or "unknown" |
| Reports.MethodLabel | apps/pos/src/hooks/useReports.ts:143 | cash → "Efectivo", card → "Tarjeta", anything else unchanged |
| Reports.ByMethod | apps/pos/src/hooks/useReports.ts:142-145 | One entry per method, relabelled, with its total and count |
| Reports.SalesByPaymentMethod | apps/pos/src/hooks/useReports.ts:122-146 | [] on a failed fetch. Otherwise the methods with totals and counts |
| Reports.MethodCountSumIsTotalCount | apps/pos/src/hooks/useReports.ts:138-144 | The method counts add up to the group counts |
| Reports.SalesByPaymentMethodFacts | apps/pos/src/hooks/useReports.ts:133-145 | Each stored method appears once, and the counts add up to the number of orders |
| Reports.HourTallies | apps/pos/src/hooks/useReports.ts:160-165 | Each order counts under its hour with its total |
| Reports.Hourly | apps/pos/src/hooks/useReports.ts:168-169 | One entry per hour with its total and count |
| Reports.SalesByHour | apps/pos/src/hooks/useReports.ts:148-171 | [] on a failed fetch. Otherwise the hours sorted ascending |
| Reports.SalesByHourOrder | apps/pos/src/hooks/useReports.ts:159-170 | Hours come out in ascending order, and they are exactly the map's entries |
| Reports.SalesByHourEntries | apps/pos/src/hooks/useReports.ts:159-170 | Each hour carries the count and the total of exactly its orders |
| Reports.CutSummary | apps/pos/src/hooks/useReports.ts:183-194 | A missing closing amount, expected amount or difference becomes 0, and a missing opener name becomes "" |
| Reports.CashCutHistory | apps/pos/src/hooks/useReports.ts:173-196 | [] on a failed fetch. Otherwise one summary per session, in order |
| Reports.ClosedSessionCut | apps/pos/src/hooks/useReports.ts:185-192 | A session the register closed shows its counted amount, its expected amount and their difference |
| Dashboard.RevenueAppend | apps/pos/src/hooks/useDashboardStats.ts:56-58 | The revenue of two batches is the sum of theirs |
| Dashboard.RevenueIgnoresMissing | apps/pos/src/hooks/useDashboardStats.ts:57 | Totals that are not numbers add nothing |
| Dashboard.RevenueCoversEachOrder | apps/pos/src/hooks/useDashboardStats.ts:56-58 | With non-negative totals, the revenue is at least each order's total |
| Dashboard.Revenue | apps/pos/src/hooks/useDashboardStats.ts:56-58 | Stated by `RevenueAppend`, `RevenueIgnoresMissing` and `RevenueCoversEachOrder`: revenue adds up over batches, an order without a total counts 0, and each order's total is in it |
| Dashboard.PopularTallies | apps/pos/src/hooks/useDashboardStats.ts:71-74 | Each item counts under its product name, or "Desconocido", with its quantity |
| Dashboard.PopularOf | apps/pos/src/hooks/useDashboardStats.ts:77-78 | One entry per name with its quantity |
| Dashboard.PopularRanked | apps/pos/src/hooks/useDashboardStats.ts:77-80 | At most 5, by descending quantity, drawn from the products, and none left out sold more than one kept |
| Dashboard.PopularCount | apps/pos/src/hooks/useDashboardStats.ts:77-80 | Exactly 5 products, or all of the products when there are 5 or fewer |
| Dashboard.Popular | apps/pos/src/hooks/useDashboardStats.ts:70-80 | Stated by `PopularRanked`, `PopularCount` and `PopularTotals`: the products sorted by quantity sold, the first 5 of them or all when there are fewer, with each product's summed quantity |
| Dashboard.PopularTotals | apps/pos/src/hooks/useDashboardStats.ts:70-75 | No name appears twice, and each carries the quantity of all its items |
| Dashboard.DashboardStats.constructor | apps/pos/src/hooks/useDashboardStats.ts:33-36 | Zero counts, no products, loading |
| Dashboard.DashboardStats.FetchStats | apps/pos/src/hooks/useDashboardStats.ts:39-89 | A failed order fetch only ends loading. Otherwise it sets the count and the revenue. Products are emptied without orders, kept when the items fetch fails, and recomputed otherwise |
| Escpos.SeparatorLines | apps/print-agent/src/escpos.ts:39-40 | LINE and DOUBLE_LINE are 32 '-' and 32 '=' |
| Escpos.PadText | apps/print-agent/src/escpos.ts:74-80 | Exactly width characters. The cut text goes at the front (left) or the back (right), with spaces elsewhere. A negative width slices from the back |
| Escpos.PadTextExact | apps/print-agent/src/escpos.ts:74-80 | A text of exactly the width comes back unchanged |
| Escpos.FormatRow | apps/print-agent/src/escpos.ts:85-88 | If the value fits, the row has exactly width characters, ends with the value, and has a space just before it |
| Escpos.FormatRowKeepsLabel | apps/print-agent/src/escpos.ts:85-88 | A label that fits is kept whole at the start, with spaces up to the value |
| Ticket.CenterText | apps/print-agent/src/ticket-formatter.ts:160-164 | 32 characters or more: the first 32. Otherwise floor((32 − len)/2) spaces, then the text |
| Ticket.CenterTextIsCentred | apps/print-agent/src/ticket-formatter.ts:162-163 | A short text ends the line, and the free columns on its right equal those on its left or one more |
| Ticket.PushHeader | apps/print-agent/src/ticket-formatter.ts:60-78 | The header pushes give the header lines |
| Ticket.PushItem | apps/print-agent/src/ticket-formatter.ts:81-93 | One "Nx name" line, then one line per modifier |
| Ticket.PushItems | apps/print-agent/src/ticket-formatter.ts:81-93 | The item loop appends the body lines |
| Ticket.FormatKitchenTicket | apps/print-agent/src/ticket-formatter.ts:48-101 | The ticket is the header, body and footer lines joined with '\n' |
| Ticket.HeaderShape | apps/print-agent/src/ticket-formatter.ts:61-78 | The number line is fifth. The Mesa line follows it exactly when there is a table name. The type is PARA LLEVAR or COMER AQUI. The note line comes just before the separator exactly when shown |
| Ticket.HeaderLines | apps/print-agent/src/ticket-formatter.ts:60-78 | Stated by `HeaderShape` and `PushHeader`: the banner, the order number, the table when known, type, time, the note when shown, and a rule, at fixed positions |
| Ticket.NumberLine | apps/print-agent/src/ticket-formatter.ts:50-67 | The number line is 32 columns and ends with "#" and the short id |
| Ticket.ModifierPrice | apps/print-agent/src/ticket-formatter.ts:89-90 | The price is printed only when positive, and then reads back as the price |
| Ticket.ItemLine | apps/print-agent/src/ticket-formatter.ts:84 | An item's line is its quantity, which reads back as the same number, then "x " and the product name, "Producto" when it has none |
| Ticket.ModifierLine | apps/print-agent/src/ticket-formatter.ts:89-90 | Stated by `ModifierPrice`: the line names the modifier, and carries " +$" and a price reading back as the surcharge exactly when the surcharge is positive |
| Ticket.ModifierLinesLength | apps/print-agent/src/ticket-formatter.ts:88-91 | One line per modifier, in order |
| Ticket.BodyLength | apps/print-agent/src/ticket-formatter.ts:81-93 | The body has one line per item plus one per modifier |
| Ticket.TicketFrame | apps/print-agent/src/ticket-formatter.ts:61-100 | The ticket starts with DOUBLE_LINE and ends with DOUBLE_LINE and a newline |
| Csv.DoubleQuotes | apps/pos/src/lib/exportCsv.ts:5 | `replace(/"/g, '""')` never shortens the text and keeps its commas |
| Csv.Escape | apps/pos/src/lib/exportCsv.ts:2-8 | A field with a comma, quote or line feed is quoted around its doubled-quote form. Any other field is unchanged |
| Csv.UndoubleDoubled | apps/pos/src/lib/exportCsv.ts:5 | Undoubling the quotes undoes the doubling |
| Csv.EscapeRoundTrip | apps/pos/src/lib/exportCsv.ts:2-8 | Stripping the quotes and undoubling gives back the original field |
| Csv.QuotesArePaired | apps/pos/src/lib/exportCsv.ts:5 | Every quote inside a quoted field is one of a pair |
| Csv.NumbersAreBare | apps/pos/src/lib/exportCsv.ts:3-7 | A number is written unquoted as `String(n)` |
| Csv.FileText | apps/pos/src/lib/exportCsv.ts:15 | The byte order mark U+FEFF, then the content |
| Csv.CsvContentShape | apps/pos/src/lib/exportCsv.ts:10-13 | The content starts with the header record, and is only that record without rows. Each row adds '\n' and its record |
| Csv.Record | apps/pos/src/lib/exportCsv.ts:11-12 | One record: the escaped cells joined by commas; each cell reads back by `EscapeRoundTrip`, and `CsvContentShape` places the records in the file |
| Csv.CsvContent | apps/pos/src/lib/exportCsv.ts:10-13 | Stated by `CsvContentShape`: the header record comes first, alone when there are no rows, and each further row adds a line feed and its record |

## Left out

- Backend I/O: Supabase queries, inserts, updates, `auth.getUser`, realtime channels and the React state wiring are not modelled. The server does the filtering of queries (`neq('status', 'cancelled')`, date ranges, `is('payment_method', null)`), so the fetched rows are inputs. Each write is one atomic update of `Store.Db`.
- Concurrency and partial failure are not modelled: the read-then-write race on order append, the non-transactional order-then-items writes, and an error thrown between two writes. Every operation is atomic, and a backend write never fails.
- Floating point: amounts are integer cents. `parseFloat` is an input `Option<int>`, with None for NaN. `toFixed(2)` is exact on cents.
- Clock and locale: `new Date().toISOString()`, `toLocaleTimeString` and `getHours` are inputs (`now`, the ticket's time string, the report order's hour). `getPeriodStart` of the dashboard is left to the query.
- Text.UpperChar: `toUpperCase` covers the ASCII letters only. Other characters pass unchanged.
- String lengths: JavaScript counts a string's length, `slice` and `padStart`/`padEnd` in UTF-16 code units, while a Dafny string counts characters. Text.SliceTo, Escpos.PadText and Ticket.CenterText therefore differ from the source on characters outside the Basic Multilingual Plane, which take two code units there and one here.
- Ledger.CashRegister.FetchActiveSession: the movements are listed in table order, oldest first, and Ledger.MovementsOf states that order. The source asks the backend for them newest first (`order('created_at', { ascending: false })`). Every figure the model derives from the list (the per-type sums, the expected cash, the closing difference) is a sum and does not depend on the order.
- Audio playback: `playNewOrderSound` is left out, and only the decision to play is modelled.
- The Blob, object URL and anchor-click download of `exportCsv` are left out, and so are the file name and the MIME type.
- Reports.TopProducts, Dashboard.Popular and Reports.SalesByHour: the contracts state sortedness, permutation and the top-N cut, but not stability. Equal quantities keep first-seen order in the insertion sort, but no lemma states that.
- Kitchen.KitchenFeed.Refresh: the fetched list is taken as the already-normalised `order_items`. The `?? []` on a null list is folded into the input.
- Dashboard.DashboardStats.FetchStats: `ordersData ?? []` and `itemsData ?? []` on a null success are folded into the `Option` inputs.
- Number cells in CSV: a number cell is an integer, written by `String(n)`. Non-integer numbers, whose `String` has a decimal point, are not modelled.
- `fetchHistory` of the cash register is not modelled, because it only lists closed sessions for display.
- Two behaviours are stated as they are, not as findings. A cash settlement with a tip counts the tip twice in the expected cash (Tabs.CashTipCountedTwice). Orders created on the POS screen never carry a table id, so each of them is a tab of its own.
