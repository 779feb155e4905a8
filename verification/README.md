# Restaurant back-office: a Dafny model of its bookkeeping and pricing rules

The system runs a restaurant with delivery, pickup and table service. It has:

- a web shop;
- a table QR menu;
- a staff app for waiters, couriers and cooks;
- Telegram bots;
- an admin panel.

This project models the rules underneath, leaving out the HTML, SQL and messaging around them:

- **Stock ledger** (`stock_ledger.dfy`, `inventory_admin.dfy`).
  - Stock per (warehouse, ingredient) changes only through documents: supply, return, transfer, write-off, deduction and inventory count. Each document is applied once.
  - A supply moves the weighted-average cost.
  - Production writes off a recipe and supplies its product.
  - Orders are deducted per resolved workshop, and the deduction can be reversed.
  - The admin pages create, edit, count and approve documents, and manage warehouses.
- **Cash desk** (`cash_desk.dfy`, `cash_report.dfy`).
  - At most one shift is open at a time.
  - Employees' cash balances rise when cash orders are completed and fall on cancellation and handover.
  - Handovers turn the cash in.
  - Shift statistics, the Z report and the discrepancy bands are modelled.
- **Order lifecycle** (`staff_app.dfy`, `order_admin.dfy`, `workshop.dfy`, `notifications.dfy`, `statuses.dfy`, `employees.dfy`).
  - Who may edit, accept and move an order.
  - Which moves are allowed out of closed statuses.
  - Kitchen and bar readiness and the cook's queue.
  - When a status change deducts, returns or writes off stock.
  - Protection of the system statuses and the guards on deleting employees.
- **Carts and pricing** (`carts.dfy`, `products_string.dfy`, `checkout.dfy`, `inhouse.dfy`, and the browser pages in `web_client.dfy`, `qr_client.dfy`, `staff_client.dfy`, `admin_form.dfy`).
  - A single cart dictionary, keyed by product and sorted modifier ids, covers every client.
  - The legacy "Name x Qty" products string, with its parser and renderer.
  - Server-side totals, and the free-delivery threshold.
  - The web, table and admin order endpoints.
- **Validators and text** (`checkout.dfy`, `reports.dfy`, `web_client.dfy`, `text.dfy`).
  - The bot's checkout dialogue and its paging.
  - Report date ranges and aggregates.
  - The Cyrillic slug transliteration and the +380 phone field.

Shared pieces: `records.dfy` holds the records; `dict.dfy` holds insertion-ordered dictionaries, as association lists with distinct keys; `wrappers.dfy` holds Option and Result.

How the model is built:

- Amounts are exact `real`s, matching the source's Decimal.
- Database tables are maps or sequences of records.
- An operation that changes state is a class method. Its `ensures` ties the new state to a pure `...Spec` function of the old state, and the lemmas state what that function promises.
- Errors that the source raises as HTTP errors are `Err` values that leave the state unchanged.

## Model

| member | source | states |
|---|---|---|
| Text.DigitsOf | admin_employees.py:240 | removing the non-digits leaves digits only, never more characters, and leaves a digits-only text alone |
| Text.Strip | main.py:563 | the stripped answer is never longer and neither starts nor ends with whitespace |
| Text.RSplitOnce | admin_handlers.py:41 | a split at the last separator gives the two sides around it |
| Text.SplitJoin | admin_handlers.py:38-49 | splitting at ", " what was joined with ", " gives back the parts, when no part holds the separator |
| Text.IntRoundTrip | admin_handlers.py:42 | int() reads back every printed integer |
| Text.NatToStringRoundTrip | in_house_menu.py:390 | a printed id reads back as the id |
| Text.NatToStringInjective | in_house_menu.py:390 | two ids print alike exactly when they are equal |
| Text.Lower | tpl_admin_panels.py:371-372 | lower-casing maps each character and keeps the length |
| Text.SortStrings | courier_handlers.py:891 | the modifier ids sorted as strings are a sorted permutation of the ids |
| Text.SortStringsCanonical | courier_handlers.py:891 | the same ids in any order sort to the same list |
| Records.StatusById | admin_order_management.py:200 | a status found by id is in the table with that id; none means no status has it |
| Records.StatusNamed | main.py:2222 | a status found by name is in the table with that name; none means no status has it |
| Carts.ChangeLineTotal | courier_handlers.py:915-922 | changing a line's quantity moves the cart total by exactly the line's change |
| Carts.QuantityMoveTotal | tpl_client_web.py:1571-1578 | moving a line's quantity by d moves the cart total by the unit price times d |
| Inventory.AddQty | inventory_service.py:185-186 | adding q to a (warehouse, ingredient) row changes that row by q and no other row; a row that does not exist reads as 0, as `get_stock` creates it at zero |
| Inventory.AddQtyTotal | inventory_service.py:163-166 | the quantity of an ingredient summed over all warehouses changes by exactly the amount added to one of its rows |
| Inventory.AverageCostKeepsValue | inventory_service.py:162-182 | weighted-average costing keeps value: new cost × (existing stock, negative read as 0, + supplied) = existing × old cost + supplied × supply price |
| Inventory.AverageCostBetween | inventory_service.py:162-182 | with a positive supply the new average cost lies between the old cost and the supply price |
| Inventory.AverageAtSameCost | inventory_service.py:174-181 | a supply priced at the current cost leaves the cost unchanged |
| Inventory.Numbered | inventory_service.py:119-128 | the document's lines are the given moves, in order, with ingredient, quantity and price copied and consecutive line ids |
| Inventory.PostItemsMoves | inventory_service.py:155-203 | posting a document's lines changes every row by the lines' total of that ingredient: + at the target for supply and return, − at the source for write-off and deduction, both for a transfer, nothing for an unknown type or another warehouse |
| Inventory.PostItemsKeepsCosts | inventory_service.py:158-183 | only supply documents change ingredient costs |
| Inventory.TransferConserves | inventory_service.py:193-198 | a transfer keeps every ingredient's quantity summed over all warehouses |
| Inventory.ApplyDocOnce | inventory_service.py:145-153 | an unknown document and an already posted one are refused; a posted document is marked processed, an empty one without touching stock or costs, and posting it again is refused |
| Inventory.ApplyDocMoves | inventory_service.py:136-206 | a successful posting moves every row by exactly the document's lines and keeps the ledger invariant (distinct rows, known warehouses, fresh ids) |
| Inventory.ProcessMovementMoves | inventory_service.py:98-134 | no lines: nothing happens; otherwise the document is created and posted, which succeeds exactly when the warehouses its type needs are given, and then moves every row by the lines' quantity |
| Inventory.ProcessMovementKeeps | inventory_service.py:98-134 | a movement that is not a supply leaves ingredient costs and warehouses unchanged |
| Inventory.CountMovesNet | inventory_service.py:540-555 | for every ingredient, the surplus lines minus the shortage lines of a stock count equal the counted minus the booked quantity |
| Inventory.CountNetOf | inventory_service.py:533-555 | an ingredient that is not counted nets to 0; a counted one nets to its counted quantity minus the booked one |
| Inventory.CountNetUncounted | inventory_service.py:533-555 | an ingredient no line of the count names nets to 0 |
| Inventory.DuplicateCountLines | inventory_service.py:533-555 | two lines counting the same ingredient each correct it against the same booked quantity, so they net the sum of both counts less twice the booked quantity |
| Inventory.InventoryCheckSetsCounts | inventory_service.py:514-574 | a stock count moves each row of the counted warehouse by the sum of its lines' counted-minus-booked differences and leaves every other row; when every ingredient is counted once, each counted row equals its counted quantity |
| Inventory.CountWithRepeatedIngredient | inventory_service.py:533-574 | a count listing one ingredient twice leaves its row at the sum of the two counts less the booked quantity, not at either count |
| Inventory.InventoryCheckKeepsInv | inventory_service.py:514-574 | a stock count that succeeds leaves a ledger whose documents, stock rows and numbering are still consistent |
| Inventory.MovementPosts | inventory_service.py:98-134 | a movement whose required warehouses are given always posts, keeps the ledger consistent and never lowers the next document number |
| Inventory.RecipeMoves | inventory_service.py:597-606 | production writes off one line per recipe component: gross amount × batch size at the component's current cost |
| Inventory.ProductionMoves | inventory_service.py:576-634 | producing q of a semi-finished good adds q of it and takes each component's gross × q at that warehouse, nothing elsewhere; the new unit cost × q is the batch cost |
| Inventory.TakesTotal | inventory_service.py:155-203 | posting a taking document lowers each ingredient's total over all warehouses by the lines' quantity of it |
| Inventory.WriteoffTotal | inventory_service.py:98-203 | a write-off of some lines from a real warehouse posts and lowers each ingredient's total by the lines' quantity of it |
| Inventory.SupplyOneCost | inventory_service.py:98-185 | a one-line supply to a real warehouse posts and updates the costs exactly as the supply branch does for that line |
| Inventory.ProductionCost | inventory_service.py:576-632 | production averages the batch cost per unit, when positive, into the good's cost over its total left after the raw materials are written off, as a supply at that price does; a zero unit cost leaves the cost; no other ingredient's cost changes |
| Inventory.ProductionRefusals | inventory_service.py:580-592 | a quantity ≤ 0, an unknown or not semi-finished good and a good without recipe are each refused with their own error |
| Inventory.Resolve | inventory_service.py:247-252 | no warehouse means the fallback one; a workshop linked to a store room resolves to the store room; any other warehouse resolves to itself |
| Inventory.Trigger | inventory_service.py:326-328 | the rule trigger is "delivery" exactly for delivery orders, otherwise "pickup" or "in_house" |
| Inventory.ComponentMoves | inventory_service.py:275-285 | all of a dish's tech-card lines are taken from its production store room; at most one line per component, exactly one each for a takeaway order |
| Inventory.ComponentMovesMembers | inventory_service.py:275-285 | the tech card's lines are exactly gross × portions of each component that applies (takeaway-only components only for takeaway orders), at the ingredient's cost, from the given warehouse |
| Inventory.ComponentMovesQty | inventory_service.py:275-285 | per ingredient, the tech card takes the sum of gross × portions over its applying components, and only from its warehouse |
| Inventory.ModifierMoveCases | inventory_service.py:292-323 | a modifier with ingredient and quantity in its JSON takes quantity × portions from its JSON warehouse or the product's workshop; otherwise one whose modifier row exists takes the row's ingredient and quantity (nothing when those are unset), the JSON's warehouse before the row's before the workshop; otherwise nothing; the warehouse is resolved |
| Inventory.ModifierMoves | inventory_service.py:292-323 | every modifier line is taken from a real warehouse (the modifier's, the modifier row's or the product's, resolved), at most one per modifier |
| Inventory.ModifierMovesMembers | inventory_service.py:292-323 | the modifier lines are exactly the lines the item's modifiers yield |
| Inventory.LineMoves | inventory_service.py:257-323 | every line planned for an order item is taken from a real warehouse |
| Inventory.LineMovesMembers | inventory_service.py:257-323 | an order item takes exactly its tech card's applying components, gross × quantity, from its product's workshop resolved to its store room, and the lines its modifiers yield |
| Inventory.LineMovesQty | inventory_service.py:257-323 | per ingredient and warehouse, an order item takes its tech card's need when the warehouse is its resolved workshop, plus what its modifiers take |
| Inventory.LinesMoves | inventory_service.py:257-323 | every line planned for the order's items is taken from a real warehouse |
| Inventory.LinesMovesAppend | inventory_service.py:257 | the plan of two runs of items is the first run's plan followed by the second's |
| Inventory.LinesMovesMembers | inventory_service.py:257-323 | the items' plan holds exactly the lines some item's plan holds |
| Inventory.RuleMoves | inventory_service.py:330-340 | every automatic-rule line is taken from a real warehouse |
| Inventory.RuleMovesMembers | inventory_service.py:325-340 | a rule line is taken exactly for each rule whose trigger is the order's kind or "all": the rule's own quantity once per order, from its resolved warehouse |
| Inventory.RuleMovesQty | inventory_service.py:325-340 | per ingredient and warehouse, the rules take the sum of the firing rules' quantities |
| Inventory.OrderPlan | inventory_service.py:224-340 | with the first warehouse as fallback, no planned line is left without a warehouse |
| Inventory.PlanQtyAppend | inventory_service.py:235-244 | the quantity a plan takes of an ingredient from a warehouse adds up over two runs of lines |
| Inventory.OrderPlanMembers | inventory_service.py:224-340 | an order's plan holds exactly the lines of its items' plans and one line per firing rule, nothing else |
| Inventory.OrderPlanQty | inventory_service.py:224-340 | per ingredient and warehouse, an order takes what its items take plus the firing rules' quantities |
| Inventory.GroupOfKeeps | inventory_service.py:233-244 | grouping the plan by warehouse loses and invents no quantity, and its warehouses are distinct and all come from the plan |
| Inventory.PostGroupMoves | inventory_service.py:352-358 | one document for a real warehouse always posts, keeps the invariant, the ingredients and warehouses, and moves every stock row by that row's weight in the group (nothing outside the warehouse) (− for deduction, + for return) |
| Inventory.PostGroupsMoves | inventory_service.py:348-360 | one document per warehouse group always posts, keeps the invariant and costs, and moves every row by the group total (− for deduction, + for return) |
| Inventory.DeductMoves | inventory_service.py:208-362 | an already deducted order and an empty one change nothing; with no warehouse nothing moves and the flag stays; otherwise the flag is set and every row drops by the order's plan |
| Inventory.ReverseMoves | inventory_service.py:364-479 | a not deducted order and an empty one change nothing; with no warehouse nothing moves; otherwise the flag is cleared and every row rises by the order's plan |
| Inventory.DeductThenReverse | inventory_service.py:208-479 | deducting an order and then cancelling it brings every stock row back to where it was and clears the flag |
| Inventory.PrimeCost | inventory_service.py:38-96 | the loop computes the order's prime cost: 0 without order or items, else the sum over items of (tech-card cost + modifier cost) × quantity |
| Inventory.LineCostOf | inventory_service.py:49-94 | one item's share of the prime cost |
| Inventory.DishCost | inventory_service.py:57-69 | the tech card's cost, skipping takeaway packaging unless the order is delivery or pickup |
| Inventory.ModifiersCost | inventory_service.py:71-91 | the modifiers' ingredient cost, falling back to the modifier row when the JSON lacks the ingredient |
| Inventory.PrimeCostNonNegative | inventory_service.py:38-96 | with non-negative costs, amounts and quantities the prime cost is non-negative |
| Inventory.ComponentsValue | inventory_service.py:62-69 | the value of the lines a dish deducts (quantity × cost at deduction) equals its tech-card prime cost |
| Inventory.CountPlan | inventory_service.py:533-555 | the loop builds exactly the surplus and shortage lines of the count |
| Inventory.RecipePlan | inventory_service.py:594-606 | the loop builds exactly the recipe's write-off lines and their total cost |
| Inventory.GroupPlan | inventory_service.py:233-244 | the loop groups the plan exactly as the grouping function does |
| Inventory.StockLedger.GetStock | inventory_service.py:19-36 | returns the row's quantity (0 if absent), creating an absent row at 0 without changing any quantity |
| Inventory.StockLedger.ApplyDocStockChanges | inventory_service.py:136-206 | posts the document as the posting function says, or reports its error and changes nothing |
| Inventory.StockLedger.PostLines | inventory_service.py:155-203 | the loop over lines leaves stock and costs as the posting function says |
| Inventory.StockLedger.PostLine | inventory_service.py:156-203 | one line's branch by document type |
| Inventory.StockLedger.ProcessMovement | inventory_service.py:98-134 | creates and posts the document as the movement function says, or reports the error and changes nothing |
| Inventory.StockLedger.ProcessInventoryCheck | inventory_service.py:514-574 | performs the stock count as its function says, or reports the error and changes nothing |
| Inventory.StockLedger.ProcessProduction | inventory_service.py:576-634 | performs production as its function says, or reports the error and changes nothing |
| Inventory.StockLedger.PostGroupDocs | inventory_service.py:353-360 | posts one document per warehouse group |
| Inventory.StockLedger.DeductProductsByTechCard | inventory_service.py:208-362 | deducts as the deduction function says and returns the new deducted flag |
| Inventory.StockLedger.ReverseDeduction | inventory_service.py:364-479 | returns the stock as the reversal function says and returns the new deducted flag |
| Cash.FirstOpen | cash_service.py:13-28 | finds an open shift (of the given employee, if any); none is found only when every shift is closed or belongs to someone else |
| Cash.AttachOrphans | cash_service.py:30-56 | every order keeps its place; an order without shift in a completed status gets the new shift, others are unchanged |
| Cash.Debit | cash_service.py:163-165 | a balance debit never goes below 0 and is exact when the balance covers it |
| Cash.AnyPending | cash_service.py:192-198 | true exactly when some chosen order has not yet been turned in |
| Cash.HandOver | cash_service.py:202-212 | every order keeps its place; the chosen pending ones are marked turned in and, when shift-less, linked to the cashier's shift |
| Cash.SettleOrders | cash_service.py:200-212 | the loop marks exactly those orders and sums exactly their totals |
| Cash.OpenNewShiftKeepsOneOpen | cash_service.py:58-83 | a shift opens exactly when no shift is open; it belongs to the employee and is then the only open one; a refusal changes nothing |
| Cash.LinkOrderToShiftIdempotent | cash_service.py:85-108 | an order already on a shift stays; otherwise it gets an open shift when one exists; linking twice is linking once |
| Cash.RegisterDebtAdds | cash_service.py:110-139 | a cash order raises the employee's balance by its total, logs the new balance and marks the cash as not turned in; a non-cash order changes nothing |
| Cash.UnregisterDebtLowers | cash_service.py:141-176 | a non-cash or turned-in order changes nothing; no balance ever rises |
| Cash.RegisterThenUnregister | cash_service.py:110-176 | registering a debt and cancelling it restores all balances |
| Cash.PendingTotalNonNegative | cash_service.py:200-204 | the handover total is non-negative |
| Cash.HandoverClearsOrders | cash_service.py:178-240 | a handover succeeds exactly when the shift is open, the employee exists and some chosen order is pending; it clears them all, debits the employee (floored at 0), books one handover transaction of the total and touches no shift |
| Cash.HandOverLandsInTill | cash_service.py:299-326 | after a handover the shift's collected cash grows by exactly the turned-in orders on that shift |
| Cash.TheoreticalCashMoves | cash_service.py:283-326 | a service "in" raises the theoretical cash by its amount, an "out" lowers it, anything else leaves it |
| Cash.CloseFreezesStatistics | cash_service.py:341-359 | closing succeeds exactly for an open shift, stores the statistics' cash and card sales and the counted cash, and leaves no shift open |
| Cash.CashSalesSplit | cash_service.py:262-326 | a shift's cash sales are the collected cash plus the cash still held by staff |
| Cash.CashDesk.OpenNewShift | cash_service.py:58-83 | opens the shift as its function says |
| Cash.CashDesk.AttachOrphanedOrders | cash_service.py:30-56 | attaches the orphaned completed orders and changes nothing else |
| Cash.CashDesk.LinkOrderToShift | cash_service.py:85-108 | links the order as its function says |
| Cash.CashDesk.RegisterEmployeeDebt | cash_service.py:110-139 | registers the debt as its function says |
| Cash.CashDesk.UnregisterEmployeeDebt | cash_service.py:141-176 | cancels the debt as its function says |
| Cash.CashDesk.ProcessHandover | cash_service.py:178-240 | performs the handover as its function says |
| Cash.CashDesk.CloseActiveShift | cash_service.py:341-359 | closes the shift as its function says |
| Cash.CashDesk.AddShiftTransaction | cash_service.py:361-370 | appends the transaction and changes nothing else |
| CashReport.FormIds | admin_cash.py:259-288 | the handover form pre-ticks exactly the cash orders not yet turned in whose courier, accepting waiter or completing courier is the employee (cancelled ones included) |
| CashReport.HandoverRoute | admin_cash.py:386-406 | an empty selection is refused before anything happens; otherwise the handover runs as the cash desk defines it |
| CashReport.SameWeights | admin_cash.py:276-278 | when the pending orders are exactly the listed ones, the handover total equals the form's total |
| CashReport.FormTotalIsHandedOver | admin_cash.py:240-406 | submitting the form with every ticked order hands over exactly the total the form showed |
| CashReport.Discrepancy | admin_cash.py:423-424 | the difference exists exactly when start and counted cash are both recorded, and then difference + theoretical cash = counted cash |
| CashReport.ClassifyBands | admin_cash.py:427-435 | a difference within ±1 is balanced, below −1 a shortage, above +1 a surplus |
| CashReport.RevenueIsTotalSales | admin_cash.py:439 | the revenue shown for a closed shift is the total sales of its statistics at closing |
| CashReport.ZReportCountsOutstandingCash | admin_cash.py:497-498 | the history and the Z-report's theoretical cash is the live theoretical cash plus the cash sales still held by staff, since it uses all cash sales rather than the collected ones |
| ProductsString.ParseProductsString | admin_handlers.py:35-45 | the loop over ", "-parts yields the parse function's dict, whose names are distinct |
| ProductsString.RenderAll | admin_handlers.py:47-49 | one "name x quantity" part per dict entry, in the dict's order |
| ProductsString.RenderSplitsBack | admin_handlers.py:41 | splitting a rendered part at its last " x " gives back the name and the quantity's digits |
| ProductsString.ParseBuildRoundTrip | admin_handlers.py:35-49 | parsing a built string gives back the dict, when names are distinct and contain neither ", " nor " x " at their end |
| ProductsString.ParseIsDistinct | admin_handlers.py:38-42 | a parsed dict never holds a name twice (a later part overwrites the earlier) |
| ProductsString.PriceByName | admin_handlers.py:55-58 | a name is priced exactly when a menu product carries it, and then at that product's price |
| ProductsString.UnknownNamesAddNothing | admin_handlers.py:57-59 | names not on the menu add nothing to the recalculated total |
| ProductsString.ModifyItemsEffect | admin_handlers.py:352-358 | a quantity change sets the name to old (or 0) + delta and deletes it at 0 or below, failing only when deleting an absent name; "delete" removes the name if present; every other name is untouched |
| ProductsString.ModifyItemsTotal | admin_handlers.py:352-361 | the recalculated total changes exactly by the edited name's old and new line cost |
| ProductsString.AdminModifyItem | admin_handlers.py:345-350 | a missing order or product is refused |
| ProductsString.AdminModifyItemEffect | admin_handlers.py:345-364 | the saved products string parses to the edited dict and the saved total is that dict's recalculated total |
| ProductsString.AdminAddToOrder | admin_handlers.py:400-404 | a missing order or product is refused |
| ProductsString.AddOne | admin_handlers.py:405-406 | one more of a name: its quantity becomes the old one plus one (from 0 when absent) and every other name keeps its quantity |
| ProductsString.AddToOrderReadsBack | admin_handlers.py:400-411 | the saved products string reads back as the old dict with one more of the product, and the saved total is that dict's recalculated total |
| ProductsString.ToggleDelivery | admin_handlers.py:367-375 | the delivery flag flips, switching to pickup clears the address, nothing else changes |
| ProductsString.ToggleTwice | admin_handlers.py:367-375 | toggling twice restores the order, except that a delivery address is lost |
| Carts.ModIds | courier_handlers.py:891 | the ids of the chosen modifiers, one per modifier, in order |
| Carts.ModNames | courier_handlers.py:894 | the names of the chosen modifiers, one per modifier, in order |
| Carts.ModifierPartIdentifies | courier_handlers.py:891 | the sorted, "-"-joined id strings are equal exactly when the two choices hold the same ids (in any order) |
| Carts.LineKeyIdentifies | courier_handlers.py:891-892 | two line keys (product id, separator, modifier part) are equal exactly when the product is the same and the modifier ids are the same multiset; the web, QR and staff carts use "-" as separator, the waiter cart "_" |
| Carts.AddKeepsWellformed | tpl_client_web.py:1446-1458 | adding keeps every key distinct and every quantity at least 1 |
| Carts.ChangeKeepsWellformed | tpl_client_web.py:1571-1578 | a quantity change keeps every key distinct and every quantity at least 1 |
| Carts.SetKeepsWellformed | templates.py:717-728 | setting a quantity keeps every key distinct and every quantity at least 1 |
| Carts.AddTotal | tpl_client_web.py:1446-1458 | adding raises the total by the line's unit price (the existing line's, else the new one's) and the unit count by one |
| Carts.ChangeTotal | tpl_client_web.py:1571-1578 | a quantity change moves the total by unit price × delta, or by minus the line's total when the line is deleted; an unknown key moves nothing |
| Carts.AddThenDecrementRestores | tpl_client_web.py:1446-1578 | adding a product and pressing − once gives back the cart as it was |
| Carts.SameChoiceMerges | courier_handlers.py:891-897 | adding the same product with the same modifiers in another order raises the quantity of the one line instead of adding a line |
| Carts.QtyCallbackRoundTrip | courier_handlers.py:911-915 | the waiter cart's ± callback, built from a key and a change, is read back as that same key and change although the key itself contains "_" |
| Carts.Cart.AddChoice | courier_handlers.py:887-909 | adds one unit under the key of the product and its modifiers, or a new line at 1 whose unit price is the product price plus the modifiers' prices (also tpl_client_web.py:1446-1458, tpl_client_qr.py:687-699, staff_templates.py:1140-1161) |
| Carts.Cart.AddPlain | templates.py:629-636 | adds one unit under the product id, or a new line at 1 at the product price (also templates.py:1484-1494 and 2470-2503) |
| Carts.Cart.AddAvailable | main.py:379-391 | a missing or inactive product is refused and leaves the cart; otherwise one unit is added under the product id |
| Carts.Cart.ChangeQuantity | courier_handlers.py:911-922 | the cart becomes the quantity-change function's result: unknown keys ignored, ≤ 0 deletes (also main.py:453-462, tpl_client_web.py:1571-1578, tpl_client_qr.py:745-752, staff_templates.py:859-863, templates.py:1511-1519) |
| Carts.Cart.SetQuantity | templates.py:717-728 | a positive number replaces the quantity of an existing line; zero, a negative number or no number deletes the line |
| Carts.Cart.RemoveLine | templates.py:730-735 | the line is removed and every other line is kept (also main.py:466-470, templates.py:1520-1523) |
| Carts.Cart.Clear | main.py:474-476 | the cart is empty (also tpl_client_web.py:1801 and tpl_client_qr.py:808 after a placed order) |
| Carts.Cart.Summary | templates.py:599-605 | returns the cart's Σ price × quantity and Σ quantity (also staff_templates.py:784-788) |
| InventoryAdmin.FormIdReadsPrintedId | admin_inventory.py:1295-1297 | a form field holding a printed id is read back as that id |
| InventoryAdmin.CreateDocChecks | admin_inventory.py:1299-1307 | a document is created exactly when a supply names a supplier and a target, a transfer two different warehouses, a write-off a source (other types need nothing) |
| InventoryAdmin.CreatedKeeps | admin_inventory.py:1309-1318 | the new document gets a fresh id; existing documents and the stock are untouched |
| InventoryAdmin.CreateDocAdds | admin_inventory.py:1286-1319 | the new document is an empty, unposted one of the requested type, whose warehouses satisfy what posting it will need |
| InventoryAdmin.RemoveItem | admin_inventory.py:1551-1553 | the document keeps exactly its lines other than the deleted one |
| InventoryAdmin.DelDocItemEditsPostedDoc | admin_inventory.py:1546-1555 | as written, deleting a line through an open document's URL can remove a line of another, already posted document |
| InventoryAdmin.ApproveOnce | admin_inventory.py:1557-1567 | an empty document is refused; an approval posts the document exactly as posting does, and approving again is refused |
| InventoryAdmin.FirstField | admin_inventory.py:1108 | the text up to the first "_" is no longer than the key |
| InventoryAdmin.SetCount | admin_inventory.py:1110-1113 | only the first line with the id gets the counted quantity |
| InventoryAdmin.CountsEffect | admin_inventory.py:1105-1115 | after the form, each line holds the last valid count given for its id, or its old quantity |
| InventoryAdmin.FindLine | admin_inventory.py:1110-1113 | the index found is the first line carrying the id, or the length when no line carries it |
| InventoryAdmin.SaveField | admin_inventory.py:1106-1115 | one form field, in place: a well-formed field sets the first matching line's quantity, a malformed one changes nothing |
| InventoryAdmin.UpdateCounts | admin_inventory.py:1105-1115 | the loop over the form leaves the lines as the count function says |
| InventoryAdmin.UpdateThenApproveSetsStock | admin_inventory.py:1091-1125 | saving counts and approving moves each row of the counted warehouse by the sum of the saved lines' counted-minus-booked differences and leaves every other row; when every ingredient is counted once, each counted row is set to the count the form gave (or the saved one) |
| InventoryAdmin.EditsKeepPostedDocs | admin_inventory.py:1530-1555 | adding, deleting lines, deleting a document and saving counts never change a posted document; deleting a line removes exactly that line of that document |
| InventoryAdmin.AddDocItemAppends | admin_inventory.py:1530-1544 | a line is added exactly to a known unposted document, at the end, with a fresh id |
| InventoryAdmin.MaxWarehouseId | admin_inventory.py:289-294 | no warehouse id is above the maximum, so the next id is fresh |
| InventoryAdmin.AddWarehouseLinks | admin_inventory.py:280-295 | the new warehouse gets a fresh id and keeps its link only when it is a production workshop; a store room resolves to itself |
| InventoryAdmin.DeleteWarehouseLosesNoStock | admin_inventory.py:297-307 | a warehouse with a non-zero row is refused exactly then; it is deleted exactly when no row of it is non-zero and no stock row, document or other warehouse's link refers to it, since such a reference makes the commit fail; after a deletion it is gone, nothing refers to it, the stock is unchanged and the ledger stays consistent |
| InventoryAdmin.RemoveLinks | inventory_models.py:28 | after a warehouse is removed, the remaining warehouses are among the old ones and none of them is the removed one |
| InventoryAdmin.NavHighlight | admin_inventory.py:99 | the "rules" tab is highlighted as "modifiers"; every other tab as itself |
| StaffApp.AcceptGivesOwnership | staff_pwa.py:1355-1362 | accepting an order nobody accepted makes the waiter its owner, who may then edit its items and change its status; another non-manager waiter may then not edit it, and may change its status only as its assigned courier; an order already accepted is left as it was |
| StaffApp.MoveRefusalTable | staff_pwa.py:1107-1120 | a status move is allowed exactly when a cancellation comes from a role that may cancel and a closed order is moved only to a cancelled or an active status |
| StaffApp.ApplyMove | staff_pwa.py:1122-1148 | the move keeps the number of orders |
| StaffApp.UpdateStatusGuards | staff_pwa.py:1082-1155 | the update succeeds exactly when the employee may change the order's status (manager, its accepting waiter, its courier) and the move is allowed; it then sets the new status, touches no other order and keeps the books' invariant |
| StaffApp.MoveInv | staff_pwa.py:1122-1148 | applying a move sets the status, touches no other order and keeps the books' invariant |
| StaffApp.CompletionChargesDebtor | staff_pwa.py:1139-1146 | completing a cash order raises the debtor's balance by the order total (the acting employee, or for a manager the courier, else the accepting waiter, else the manager) and logs it |
| StaffApp.CancelReleasesDebt | staff_pwa.py:1122-1124 | cancelling a completed cash order not yet turned in debits its holder by the total, floored at 0 |
| StaffApp.CompleteThenCancelRestores | staff_pwa.py:1122-1146 | completing a cash order and then cancelling it restores every balance when the debtor is the one the cancellation looks up |
| StaffApp.ManagerDebtOutlivesCancel | staff_pwa.py:1139-1146 | a manager who completes a cash pickup order with no courier or waiter is charged, and cancelling it does not release the debt, since the cancellation looks only at courier and waiter fields |
| StaffApp.Kitchen | staff_pwa.py:105 | the kitchen items are exactly the items not prepared at the bar |
| StaffApp.Bar | staff_pwa.py:106 | the bar items are exactly the items prepared at the bar |
| StaffApp.ReadinessReopensCancelled | staff_pwa.py:126-134 | as written, ticking the last item of a cancelled order moves it to "Готовий до видачі" |
| StaffApp.ReadinessFlags | staff_pwa.py:104-124 | kitchen_done becomes "all kitchen items ready" when there are kitchen items, otherwise stays; likewise bar_done for bar items |
| StaffApp.ReadinessMoves | staff_pwa.py:126-140 | the order moves to the ready status exactly when all items are ready, the order is neither completed nor cancelled, the ready status exists and is not the current one |
| StaffApp.KitchenReady | staff_pwa.py:105-111 | there are kitchen items exactly when some item is not at the bar, and they are all ready exactly when every such item is |
| StaffApp.BarReady | staff_pwa.py:106-119 | there are bar items exactly when some item is at the bar, and they are all ready exactly when every such item is |
| StaffApp.ToggleItem | staff_pwa.py:1343-1349 | only the item with the id flips its ready flag |
| StaffApp.ToggleItemEffect | staff_pwa.py:1343-1352 | toggling twice restores the items; ticking the only unready item of an open order moves it to ready |
| StaffApp.PriceLines | staff_pwa.py:1276-1309 | the saved lines are at most the requested ones, each of a known product with a positive quantity |
| StaffApp.DeliveryRulesAgree | staff_pwa.py:1311-1316 | for a non-negative delivery cost the edit's fee rule and the staff delivery creation's rule (1766-1768) give the same total: the cost is added unless a threshold exists and the total reaches it |
| StaffApp.PriceLinesTotal | staff_pwa.py:1268-1299 | with non-negative prices the new total is non-negative, and it is 0 with no lines when no request names a known product with a positive quantity |
| StaffApp.UpdateItemsGuards | staff_pwa.py:1240-1330 | an edit succeeds exactly when the employee may edit, the order is open, not at the kitchen and its stock not deducted; it then resets both done flags, keeps the status and sets the total to the lines' total plus the delivery fee; a missing order is not found |
| StaffApp.ModsPriceOf | staff_pwa.py:1283-1288 | the loop sums the database prices of the modifiers that exist |
| StaffApp.PriceItem | staff_pwa.py:1275-1300 | one requested item becomes exactly its priced line (known product, positive quantity, price plus existing modifiers) or nothing |
| StaffApp.PriceRequest | staff_pwa.py:1268-1309 | the loop builds exactly the priced lines and their total |
| StaffApp.AllRead | staff_pwa.py:340-341 | every notification is marked read and nothing else changes |
| StaffApp.AllReadCountsNothing | staff_pwa.py:330-341 | after marking nothing is unread, and the unread count never exceeds the list |
| StaffApp.GetNotifications | staff_pwa.py:321-346 | returns the unread count taken before marking and the list as it was, and marks every listed notification read |
| Workshop.Escape | courier_handlers.py:104 | HTML escaping neither adds nor removes a "⏳" |
| Workshop.MyLines | courier_handlers.py:85-105 | at most one text line per order item |
| Workshop.ItemsOf | courier_handlers.py:86 | the order items behind the lines, in order |
| Workshop.LineHourglass | courier_handlers.py:95-104 | a dish's line holds "⏳" exactly when the dish is not ready or its name or a modifier name holds one |
| Workshop.MyLinesHourglass | courier_handlers.py:85-109 | with names free of "⏳", the workshop's lines show "⏳" exactly when some of its dishes is not ready |
| Workshop.MyLinesEmpty | courier_handlers.py:85-105 | the workshop gets no line exactly when none of the order's dishes is made there |
| Workshop.WorkshopTextEmpty | courier_handlers.py:82-109 | the text is empty exactly when none of the order's dishes is made in the workshop |
| Workshop.MyLinesNonEmpty | courier_handlers.py:104 | no line is empty, so joining lines gives empty text only for no lines |
| Workshop.QueueFilterMatchesFlags | courier_handlers.py:146-154 | with names free of "⏳", the text-based queue filter keeps an order exactly when one of the workshop's dishes is not ready |
| Workshop.PendingWithoutDishes | courier_handlers.py:148-151 | an order with no dish of the workshop has nothing pending there |
| Workshop.HourglassNameKeepsOrderQueued | courier_handlers.py:104-154 | a ready dish whose name holds "⏳" keeps its order in the queue although nothing is pending |
| Workshop.Listed | courier_handlers.py:130-154 | the queue lists exactly the kitchen-status orders whose workshop text is non-empty and shows "⏳" |
| Workshop.QueueListsPending | courier_handlers.py:113-156 | an unknown user, one off shift and one without workshops are refused; otherwise the queue lists exactly the kitchen-status orders with a pending dish of the user's workshops |
| Workshop.MarkAll | courier_handlers.py:485-490 | marking keeps the number of items |
| Workshop.MarkAllEffect | courier_handlers.py:485-490 | marking sets the workshop's dishes ready, leaves the rest untouched, leaves nothing pending, is idempotent, and the number of dishes changed is the pending count |
| Workshop.NothingPendingIff | courier_handlers.py:485-490 | nothing is pending exactly when every dish of the workshop is ready |
| Workshop.MarkedOrderLeavesQueue | courier_handlers.py:473-500 | once the chef marks all, the order leaves the chef's queue |
| Workshop.MarkAllReady | courier_handlers.py:484-490 | the loop marks the dishes as the marking function does and counts the ones it changed |
| Workshop.ChefMarkAllReady | courier_handlers.py:473-502 | an unknown user or one without workshops is refused, a missing order reported; otherwise the dishes are marked and counted; a refusal changes nothing |
| Workshop.LogoutRule | courier_handlers.py:429-444 | logging out is refused exactly when the balance is positive; otherwise the Telegram link and the shift flag are cleared and nothing else changes |
| Workshop.CashDebtBlocksLogout | courier_handlers.py:434-437 | after a positive cash order is registered to the employee, logging out is refused |
| Workshop.WriteStatus | courier_handlers.py:598-602 | writing the status keeps the number of orders |
| Workshop.WriteStatusFacts | courier_handlers.py:598-602 | writing a status sets the order's status and, when one was chosen, its payment method, keeps its total and the desk's invariant, and touches no other order, balance, shift or history row |
| Workshop.BotComplete | courier_handlers.py:606-613 | completion keeps the number of orders |
| Workshop.BotCompleteInv | courier_handlers.py:606-613 | completion keeps the books' invariant, touches no other order, records the employee as completing courier of a delivery, links the order to a shift and charges only cash orders |
| Workshop.BotSetStatusGuards | courier_handlers.py:569-616 | a closed order is refused; completing without a payment choice asks for one; on success the status and the chosen payment are written, no other order changes, and a non-completing move leaves balances and shifts |
| Workshop.BotCompletionCharges | courier_handlers.py:606-614 | completing with cash charges the acting employee the total with one history row and marks the cash not turned in; card completion charges nothing |
| Workshop.BotCompletionReleasedRestores | courier_handlers.py:606-613 | when the acting employee is the one a later cancellation looks up (courier, else waiter, else completing courier), cancelling restores every balance |
| Workshop.BotSetStatus | courier_handlers.py:569-616 | applies the status change to the cash desk as its function says, or reports the refusal and changes nothing |
| Workshop.BotCompleteOrder | courier_handlers.py:606-613 | applies the completion to the cash desk |
| Workshop.FinalLines | courier_handlers.py:958-993 | at most one priced line per cart line, each of a product that still exists |
| Workshop.FinalLinesEmpty | courier_handlers.py:958-996 | no line survives exactly when every cart product is gone |
| Workshop.FinalizeGuards | courier_handlers.py:928-1006 | an empty cart and a cart whose products are all gone are refused; otherwise the table order belongs to the waiter, starts in the "Новий" status (else 1) and its total is the sum of the surviving lines |
| Workshop.FinalizeIgnoresCartPrices | courier_handlers.py:958-984 | the order's lines do not depend on the prices stored in the cart, only on products, quantities and modifier ids |
| Workshop.Requests | courier_handlers.py:958-972 | one item request per cart line |
| Workshop.FinalizeAgreesWithStaffPricing | courier_handlers.py:958-993 | the waiter bot prices a cart exactly as the staff app prices the same items (staff_pwa.py:1276-1309) |
| Checkout.StripIdempotent | main.py:562-566 | stripping an answer twice is stripping it once |
| Checkout.Stripped | main.py:562-592 | an accepted answer is stripped, non-empty and at least the minimum length |
| Checkout.ReplyKeepsCollected | main.py:562-592 | each reply keeps what was collected; a question is left exactly when the stripped answer is long enough (name ≥ 3, address ≥ 5) or matches the phone pattern; a refused answer changes nothing |
| Checkout.RunKeepsCollected | main.py:562-592 | any sequence of replies keeps the collected answers valid |
| Checkout.DialogueCollects | main.py:562-592 | reaching the delivery-time question means a valid name and phone were stored, and a valid address for a delivery |
| Checkout.GoodAnswersFinish | main.py:562-592 | valid answers in order reach the delivery-time question with the stripped answers stored; pickup skips the address |
| Checkout.CheckoutPhoneIsStaffPhone | main.py:572-583 | every phone the checkout accepts is accepted by the employee form, with only the '+' removed |
| Checkout.PageItems | main.py:293-296 | a page exists exactly for page numbers ≥ 1 and holds at most five products |
| Checkout.CategoryNavMeaning | main.py:293-315 | the page count is the ceiling of total/5; "next" is shown exactly when products follow the page, "back" exactly past page 1; every product is on exactly the page k/5+1 at position k mod 5 |
| Checkout.AdminPagesIsCeiling | main.py:935 | the admin list's page count is the least page count that covers all rows, (total + perPage − 1) div perPage |
| Checkout.ItemsNamed | main.py:852 | one product-string entry per cart item, with its name and quantity in order |
| Checkout.WebOrderEffect | main.py:846-863 | an empty cart is refused; otherwise the order is a delivery unless is_delivery is false, a pickup stores no address, the total is Σ price × quantity as sent, and the products string parses back to the items |
| Checkout.Accepted | main.py:2189-2213 | the accepted lines are exactly the entries with a digit-only key of a known product and a positive quantity |
| Checkout.AcceptedNames | main.py:2212-2214 | one product-string entry per accepted line, with the catalogue name and quantity |
| Checkout.AcceptedTotalNonNegative | main.py:2211 | accepted lines with non-negative prices never give a negative total |
| Checkout.NoneTaken | main.py:2184-2193 | when no entry is accepted, there are no lines |
| Checkout.AcceptedPricesNonNegative | main.py:2195-2215 | with a catalogue of non-negative prices, the recomputed total is non-negative |
| Checkout.AdminSaveEffect | main.py:2167-2224 | the saved order is a delivery exactly when the form says so, keeps the address only then, gets an empty product list and zero total when nothing is accepted, leaves id, courier and payment alone and keeps the status of an existing order |
| Checkout.SaveLines | main.py:2198-2215 | the loop builds exactly the accepted lines' product strings and their total |
| Checkout.QuickAddMatchesEmployeeForm | main.py:1748-1753 | the quick employee form accepts exactly the phones the employee form accepts, storing the same digits |
| Employees.CleanPhone | admin_employees.py:240 | no phone or an empty one gives none; otherwise the phone's digits and nothing else, in order |
| Employees.PhoneRule | admin_employees.py:240-242 | a phone passes exactly when it has no digits or 10 to 15 of them |
| Employees.NewHash | admin_employees.py:244-246 | a hash is made exactly when the password is present and not blank, and it is the hash of that password |
| Employees.LegacyWarehouse | admin_employees.py:253 | the legacy workshop is the first chosen one, none when none is chosen |
| Employees.StoreKeepsPhonesUnique | admin_employees.py:256-261 | storing an employee whose phone no other employee has keeps phones unique |
| Employees.AddEmployeeEffect | admin_employees.py:227-263 | adding succeeds exactly when the phone passes and is not taken; the new employee gets a fresh id, digits-only phone, the chosen workshops with the first as the legacy one, a hash only for a non-blank password, a zero balance; nobody else changes and phones stay unique |
| Employees.EditEmployeeEffect | admin_employees.py:345-380 | editing succeeds exactly when the phone passes and is not another's; it sets name, role, phone, workshops and legacy workshop, keeps the balance, replaces the hash only for a non-blank password, and touches nobody else |
| Employees.SavedWorkshopsShownBack | admin_employees.py:285-288 | after an edit the form shows exactly the workshops just saved |
| Employees.DeleteEmployeeGuards | admin_employees.py:384-419 | an employee is removed exactly when they owe no cash, serve no open order, have no open shift and nothing else refers to them; debt is reported first; a refusal changes nothing and no one else is removed |
| Employees.Roster.constructor | admin_employees.py:227-263 | the roster starts empty with the first id 1 |
| Employees.Roster.AddEmployee | admin_employees.py:227-263 | the roster becomes what AddEmployeeSpec gives, or stays unchanged with its error |
| Employees.Roster.EditEmployee | admin_employees.py:345-380 | the roster becomes what EditEmployeeSpec gives, or stays unchanged with its error |
| Employees.Roster.DeleteEmployee | admin_employees.py:384-419 | the roster and the refusal are what DeleteEmployeeSpec gives |
| Statuses.AsStatus | admin_statuses.py:21-70 | a row's id, name and completed, cancelled and kitchen flags are the status record's |
| Statuses.ProtectedMeansSystemOrClosed | admin_statuses.py:70 | a status is protected exactly when it is the system status 1 or a completed or cancelled one |
| Statuses.PostedTrueSpelling | admin_statuses.py:281 | a posted value sets a flag exactly when it spells "true" in any letter case |
| Statuses.ToggleValue | admin_statuses.py:59 | the toggle button posts a value that reads true exactly when the flag is off |
| Statuses.EditStatusEffect | admin_statuses.py:267-283 | a field posted without a value is an error; a field with a value sets that flag to whether the value reads true and nothing else; a name alone renames; neither changes nothing; other statuses never change |
| Statuses.ToggleFlips | admin_statuses.py:55-64 | pressing a toggle button flips exactly that flag |
| Statuses.DeleteStatusGuards | admin_statuses.py:285-305 | a status is removed exactly when it is not protected and no order uses it; status 1 and the completed and cancelled statuses are never removed; a refusal changes nothing and no other status is touched |
| Statuses.StatusTable.constructor | admin_statuses.py:276 | the table holds the given rows |
| Statuses.StatusTable.EditStatus | admin_statuses.py:267-283 | the table becomes what EditStatusSpec gives, or stays unchanged with its error |
| Statuses.StatusTable.DeleteStatus | admin_statuses.py:285-305 | the table and the refusal are what DeleteStatusSpec gives |
| Notifications.RoutedIsSplit | notification_manager.py:169-194 | routing item by item gives the bar items to the bar and every other item to the kitchen, each in order |
| Notifications.Distribute | notification_manager.py:180-194 | the loop builds exactly the kitchen list and the bar list of the order |
| Notifications.DistributeSplitsOrder | notification_manager.py:180-194 | every item of the order lands in exactly one of the two lists |
| Notifications.NotifyNewOrder | notification_manager.py:149-152 | production is told about a new order exactly when its status asks for a kitchen notification, and then with the kitchen and bar split |
| Notifications.InWorkshops | notification_manager.py:283-291 | the items listed for a cook are exactly those made in one of the cook's workshops |
| Notifications.StationItems | notification_manager.py:281-299 | the cook's workshop items when there are any; otherwise the area's items (not-bar for the kitchen, bar for the bar, all for anything else) |
| Notifications.RetypeSpec | notification_manager.py:396-413 | the order's deduction documents become write-offs and every other document and field stays as it was, so no deduction of the order remains |
| Notifications.StatusChangeSpec | notification_manager.py:358-421 | the skip flag is stored and only the deducted flag may otherwise change; the ledger is left alone unless a deducted order is cancelled or a due deduction has not happened yet, so no order is deducted twice |
| Notifications.CancelReturnsStock | notification_manager.py:388-393 | cancelling a deducted order without the skip flag puts back exactly the quantities its plan took and clears the deducted flag |
| Notifications.CancelWithSkipWritesOff | notification_manager.py:394-413 | cancelling with the skip flag leaves stock and deducted flag alone and only retypes the order's deductions as write-offs |
| Notifications.ReadyDeducts | notification_manager.py:417-423 | reaching the ready or a completed status takes the plan's quantities from stock once, and marks the order deducted when there was a warehouse or nothing to take |
| Notifications.ReadyThenCancelRestores | notification_manager.py:388-423 | ready then cancelled without skipping leaves every stock quantity as it was before |
| Notifications.ReverseSkipIrrelevant | notification_manager.py:383-391 | the reversal does not depend on the skip flag it was reached through |
| Notifications.RetypeDeductions | notification_manager.py:396-413 | the ledger's documents become RetypeSpec of the old ones and nothing else changes |
| Notifications.OnStatusChange | notification_manager.py:358-421 | the ledger and the order become what StatusChangeSpec gives |
| OrderAdmin.Settle | admin_order_management.py:234-243 | the order list keeps its length (what settling means is stated by SettleCharges) |
| OrderAdmin.Complete | admin_order_management.py:227-243 | the order list keeps its length (what completing means is stated by CompleteKeeps and CompleteSettles) |
| OrderAdmin.WebMove | admin_order_management.py:207-243 | the order list keeps its length (its effect is stated by the SetStatusSpec lemmas) |
| OrderAdmin.SettleCharges | admin_order_management.py:234-243 | a cash order's total is charged to its courier, else its waiter, and the order is not yet turned in; with nobody holding the cash it counts as in the till; only that order and that balance change |
| OrderAdmin.CompleteLinks | admin_order_management.py:227-232 | completing records the courier of a delivery as its finisher and links the order to a shift without touching balances or history |
| OrderAdmin.CompleteKeeps | admin_order_management.py:227-243 | completion keeps the books consistent, the order's status, payment, staff and total; a non-cash completion charges nobody |
| OrderAdmin.CompleteSettles | admin_order_management.py:234-243 | a cash completion charges the cash holder the order's total, or puts the cash in the till when nobody holds it |
| OrderAdmin.SameStatusOnlyPayment | admin_order_management.py:193-199 | posting the current status changes at most the payment method, and not even that on a closed order |
| OrderAdmin.LeavingCompletedUnregisters | admin_order_management.py:207-217 | moving an order off a completed status takes the debt back exactly as unregister_employee_debt does, and sets the new status and payment |
| OrderAdmin.CashCompletionCharges | admin_order_management.py:207-243 | completing a cash order charges its courier or waiter its total (or marks the cash as in the till) and keeps the books consistent |
| OrderAdmin.CardCompletionChargesNobody | admin_order_management.py:234-243 | completing a non-cash order changes no balance and no debt history |
| OrderAdmin.CompleteThenReopenRestores | admin_order_management.py:207-243 | completing a cash order and then moving it to a non-completed status leaves every balance as it was |
| OrderAdmin.AssignCourierEffect | admin_order_management.py:264-310 | a closed order refuses a courier change; an unknown courier is refused; otherwise only that order's courier changes, to none for 0 |
| OrderAdmin.SetOrderStatus | admin_order_management.py:176-243 | the books become what SetStatusSpec gives, or stay unchanged with its error |
| OrderAdmin.CompleteOrder | admin_order_management.py:227-243 | the books become Complete of the old books and stay consistent |
| OrderAdmin.SettleOrder | admin_order_management.py:234-243 | the books become Settle of the old books and stay consistent |
| Reports.ParseDate | admin_reports.py:27-28 | a date field parsed as year-month-day is a real calendar date |
| Reports.Padded | admin_reports.py:185-186 | a zero-padded number is all digits and at least as wide as asked |
| Reports.LeadingZeros | admin_reports.py:27-28 | leading zeros change neither the digits-only shape nor the value |
| Reports.PaddedValue | admin_reports.py:185-186 | a zero-padded number reads back as that number |
| Reports.ParseFormatRoundTrip | admin_reports.py:25-34 | the date the report prints is read back by the date field as the same date |
| Reports.DateRangeMeaning | admin_reports.py:25-34 | an unparsable field is an error; an empty field means today; the period holds exactly the moments from the start of the first day to the end of the last |
| Reports.Completed | admin_reports.py:47-58 | the cash-flow orders are exactly those created within the period with a completed status |
| Reports.RevenueSplits | admin_reports.py:64-72 | cash, card and other payments together are the total of the orders |
| Reports.CashFlowRevenue | admin_reports.py:60-72 | the loop sums the cash and the card orders; the revenue shown is the total less what was paid otherwise |
| Reports.ExpensesAppend | admin_reports.py:122-131 | expenses of two runs of transactions add up |
| Reports.ExpensesOnlyOut | admin_reports.py:125-134 | only an "out" transaction adds to the expenses, by its amount |
| Reports.TotalExpenses | admin_reports.py:120-131 | the loop sums exactly the "out" amounts |
| Reports.InsertByTotal | admin_reports.py:314 | inserting a row into a list sorted by total, largest first, keeps it sorted and adds just that row |
| Reports.SortByTotal | admin_reports.py:314 | the sorted rows run from the largest total (missing as 0) down and are a permutation of the rows |
| Reports.SortByTotalStable | admin_reports.py:314 | the sort is stable: for every total, the rows with that total keep their input order |
| Reports.InsertByTotalStable | admin_reports.py:314 | inserting a row puts it before the rows of the same total and keeps their order |
| Reports.AverageCheckMeaning | admin_reports.py:320 | the average check times the count is the total; it is 0 exactly for no orders or a zero total |
| Reports.WorkersReport | admin_reports.py:313-330 | one line per courier or waiter row, in the sorted order, each shown with its total or 0 and its average |
| Reports.WorkersReportListsAll | admin_reports.py:313-330 | every courier and waiter is listed once, totals never rise down the list, and nothing else is listed |
| Reports.WorkersReportAverages | admin_reports.py:317-320 | each line's average times its count is its total; a line with no orders shows 0 |
| Reports.PeriodRevenue | admin_reports.py:374-375 | the divisor is never zero and is the period's revenue whenever that is not zero |
| Reports.SharesMeaning | admin_reports.py:374-380 | one share per dish; with revenue the shares add up to 100; with none each share is the dish's revenue times 100 |
| InHouse.Loaded | in_house_menu.py:389 | the loaded products are exactly the catalogue products whose id the request names |
| InHouse.FindProduct | in_house_menu.py:390-400 | a line finds the loaded product whose printed id is its key text, and none when no printed id matches |
| InHouse.FirstStatus | in_house_menu.py:431-433 | the order gets status 1, the stored one or a new-order status that notifies the kitchen |
| InHouse.PlaceGuards | in_house_menu.py:379-415 | an unknown table, an empty list and an id int() refuses are each reported exactly when they occur, in that order; then, at the first item that raises, a quantity int() refuses or a kept line with a nameless modifier (whose names cannot be joined) is reported exactly when it is that item's failure; an accepted request has no such item |
| InHouse.FirstErrorNone | in_house_menu.py:396-415 | the loop finds no failure exactly when no item raises |
| InHouse.FirstErrorAt | in_house_menu.py:396-415 | an item that raises after items that all pass decides the error reported |
| InHouse.FirstErrorSome | in_house_menu.py:396-415 | a reported error is raised by an item that every earlier item lets through |
| InHouse.PlaceAccepted | in_house_menu.py:396-442 | a request that passes the guards, in which no item raises in the loop, and that keeps a line becomes the table's order of the kept lines and their total |
| InHouse.KeptLinesFromProducts | in_house_menu.py:396-426 | every saved line has a positive quantity and the name of a loaded product, priced at the product's price plus its modifiers |
| InHouse.PlaceEffect | in_house_menu.py:375-442 | a placed table order has status 1, the table, type in-house, no delivery, at least one line, the total of its lines, and every line priced from the catalogue plus modifiers |
| InHouse.MissingQuantityIsOne | in_house_menu.py:398 | a line without a quantity is saved with quantity 1 |
| InHouse.NothingPrintsAs05 | in_house_menu.py:390 | no product id prints with a leading zero |
| InHouse.LeadingZeroIdConverts | in_house_menu.py:384 | an id text with a leading zero passes the int() check |
| InHouse.DigitsParse | in_house_menu.py:384 | a digits-only text reads as its decimal value |
| InHouse.LeadingZeroIdDropped | in_house_menu.py:396-399 | such a line matches no loaded product and is dropped without an error |
| InHouse.FloatIdDropped | in_house_menu.py:384-399 | a numeric float id passes the int() check but never matches a product's printed id, so its line is dropped |
| InHouse.CollectItem | in_house_menu.py:396-426 | one step of the loop fails, with the name error, exactly when the item keeps a line and one of its modifiers has no name; otherwise it appends exactly the line kept for that item (none for an unknown product or a non-positive quantity) and keeps the running total equal to the lines' total |
| InHouse.CollectLines | in_house_menu.py:392-426 | the loop fails exactly when some item raises, with the error of the first such item, and otherwise builds exactly the kept lines and their total |
| InHouse.PlaceInHouseOrder | in_house_menu.py:370-442 | the result is PlaceSpec's |
| InHouse.FinalIds | in_house_menu.py:83-86 | the final ids are exactly the ids of completed or cancelled statuses |
| InHouse.Active | in_house_menu.py:88-94 | no listed order has a final status |
| InHouse.GrandTotal | in_house_menu.py:96-100 | the loop sums the active orders' totals |
| InHouse.OwedAppend | in_house_menu.py:96-100 | the owed amounts of two runs of orders add up |
| InHouse.ActiveAppend | in_house_menu.py:88-94 | the active orders of two runs are those of each, in order |
| InHouse.PlacingRaisesGrandTotal | in_house_menu.py:203-220 | placing an open order at the table raises the bill by its total; an order at another table changes nothing |
| InHouse.ClosingLowersGrandTotal | in_house_menu.py:203-220 | closing an open order of the table lowers the bill by exactly its total |
| QrClient.FooterMeaning | tpl_client_qr.py:563-577 | the history tab shows exactly the table's bill more than the cart tab; with an empty cart the cart tab shows 0 and the history tab the bill |
| QrClient.FooterAfterPlacing | tpl_client_qr.py:563-577 | after placing, the history footer is unchanged exactly when the new order's total is the cart's total |
| QrClient.StatusClassMeaning | tpl_client_qr.py:763-768 | the badge is "new" when the lower-cased status holds "нов", else "in work" when it holds "роб", else "ready" when it holds "гот", else "done" |
| QrClient.InnerMatch | tpl_client_qr.py:767 | the "оброб" test adds nothing to the "роб" test |
| QrClient.RestoreMeaning | tpl_client_qr.py:455-465 | the restored cart is non-empty exactly when a non-empty stored value parses to a non-empty plain object, and then it is that object |
| QrClient.LineMods | tpl_client_qr.py:799 | the modifiers a line sends, as the menu defines them |
| QrClient.PayloadAsWritten | tpl_client_qr.py:798-800 | one request item per cart line, with its product id and modifiers and no quantity key |
| QrClient.Payload | tpl_client_qr.py:798-800 | one request item per cart line, with its product id, its quantity and its modifiers |
| QrClient.NoQuantityMeansOne | in_house_menu.py:398 | items without a quantity key are all saved with quantity 1 |
| QrClient.AsWrittenOrdersOneOfEach | tpl_client_qr.py:798-800 | the order placed by the page as written has quantity 1 on every line |
| QrClient.AsWrittenLosesQuantity | tpl_client_qr.py:798-800 | a cart of three of one product is placed as one of it, and charged for one |
| QrClient.PlacedOrderMatchesCart | tpl_client_qr.py:792-805 | sending the quantity, a cart of known products is placed with one line per cart line, the same products and quantities, and the cart's total when the prices agree |
| WebClient.MappedChars | tpl_client_web.py:1026-1027 | every character becomes slug characters only (lower-case Latin letters, digits, '-') |
| WebClient.MapAllFixed | tpl_client_web.py:1026-1027 | a text made of slug characters maps to itself |
| WebClient.Collapse | tpl_client_web.py:1028 | collapsing dash runs never lengthens a text and keeps its first character |
| WebClient.CollapseNoDoubleDash | tpl_client_web.py:1028 | after collapsing, no two dashes are adjacent |
| WebClient.CollapseKeepsLetters | tpl_client_web.py:1028 | collapsing keeps every character other than '-', in order |
| WebClient.TransliterateIsSlug | tpl_client_web.py:1017-1029 | the result is a slug: slug characters only, no double dash, no dash at either end |
| WebClient.SlugUnchanged | tpl_client_web.py:1017-1029 | a slug transliterates to itself |
| WebClient.TransliterateIdempotent | tpl_client_web.py:1017-1029 | transliterating twice is transliterating once |
| WebClient.FeesAgree | tpl_client_web.py:1524-1626 | with free delivery off or a positive threshold the cart and the checkout charge the same fee; with a threshold of 0 the cart still charges the delivery cost while the checkout charges nothing |
| WebClient.UnitsZeroIffEmpty | tpl_client_web.py:1487-1496 | the unit count is never negative and is zero exactly for an empty cart |
| WebClient.UpdateCartView | tpl_client_web.py:1484-1568 | the fee is the cart's fee rule, the total shown is cart total plus fee, checkout is disabled and the badge hidden exactly for an empty cart, and the progress bar shows exactly when free delivery is on and the cart is not empty, full exactly when the threshold is met |
| WebClient.UpdatePlainCartView | templates.py:1441-1478 | the total and count shown are the cart's, and checkout is disabled and the badge hidden exactly for an empty cart |
| WebClient.UpdateCheckoutTotal | tpl_client_web.py:1611-1626 | subtotal is the cart's total, the fee follows the checkout rule, and the total is their sum |
| WebClient.PhoneFocus | tpl_client_web.py:1667-1668 | focusing an empty field fills in "+380"; a filled field stays as it is |
| WebClient.PhoneShape | tpl_client_web.py:1657-1665 | the field always reads "+380" followed by at most nine digits |
| WebClient.PhoneInputIdempotent | tpl_client_web.py:1657-1665 | reformatting a formatted field changes nothing |
| WebClient.PhoneSubmitMeaning | tpl_client_web.py:1748-1752 | the form submits exactly when the field holds twelve digits, and such a phone passes the bot's phone check |
| WebClient.NationalNumberLosesLastDigit | tpl_client_web.py:1657-1665 | every ten-digit national number typed with its leading 0 keeps the 0 after "+380" and loses its last digit, yet is submitted |
| StaffClient.Toggle | staff_templates.py:1111-1118 | a modifier is chosen afterwards exactly when it was not chosen before; no other choice changes |
| StaffClient.ToggleTwice | staff_templates.py:1111-1118 | pressing a modifier twice restores the choice |
| StaffClient.Chosen | staff_templates.py:1131-1135 | the chosen modifiers are no more than the product's |
| StaffClient.ChosenMembers | staff_templates.py:1131-1135 | a modifier is collected exactly when it is one of the product's and is switched on |
| StaffClient.CollectChosen | staff_templates.py:1132-1135 | the loop collects exactly the chosen modifiers, in the product's order |
| StaffClient.RetryAfterIsCappedDoubling | staff_templates.py:562-565 | after n failed reconnections in a row the delay is 1000·2ⁿ ms, capped at 10000 |
| StaffClient.MenuSearchSound | staff_templates.py:1035-1040 | every category shown is non-empty and lists the search result of a category of that name |
| StaffClient.MenuSearchComplete | staff_templates.py:1035-1040 | every matching product is shown under its category's name |
| StaffClient.MenuSearchMeaning | staff_templates.py:1035-1040 | each category shown is non-empty and holds exactly its matching products; every matching product is shown under its category; "nothing found" appears exactly when nothing matches |
| StaffClient.StaffPage.constructor | staff_templates.py:500-509 | the page starts with an empty cart, no product picked, no modifier chosen, a 1000 ms retry and no notifications seen |
| StaffClient.StaffPage.OpenModifierModal | staff_templates.py:1082-1084 | the product is remembered and the choice cleared; nothing else changes |
| StaffClient.StaffPage.ModPrice | staff_templates.py:1122-1129 | the price on the button is the unit price the line will get: the product's price plus the chosen modifiers' |
| StaffClient.StaffPage.ToggleMod | staff_templates.py:1111-1120 | the choice is toggled and the button shows the new line's unit price |
| StaffClient.StaffPage.AddWithMods | staff_templates.py:1131-1161 | the cart becomes the old cart with the product and its chosen modifiers added under their key: a new line of quantity 1, or one more of the same line |
| StaffClient.StaffPage.OnOpen | staff_templates.py:544-548 | a connection resets the retry delay to 1000 ms |
| StaffClient.StaffPage.OnClose | staff_templates.py:562-565 | a closed connection retries after the current delay and doubles it up to 10000 ms |
| StaffClient.StaffPage.UpdateNotifications | staff_templates.py:637-654 | a 401 or a failure changes nothing; otherwise the badge shows exactly when something is unread, a toast with the newest message fires exactly when the unread count rose and there is a message, and the count is remembered |
| AdminForm.Search | tpl_admin_panels.py:370-374 | the search never lists more products than there are |
| AdminForm.SearchMembers | tpl_admin_panels.py:370-374 | a product is listed exactly when its lower-cased name contains the lower-cased term |
| AdminForm.SearchAppend | tpl_admin_panels.py:370-374 | the search keeps the products' order |
| AdminForm.EmptyTermKeepsAll | tpl_admin_panels.py:370-374 | an empty search lists every product |
| AdminForm.OrderForm.constructor | tpl_admin_panels.py:336-343 | the form starts as an empty new-order form for delivery |
| AdminForm.OrderForm.Initialize | tpl_admin_panels.py:336-359 | without data the form becomes a new-order form with no items; with data it takes the action, button text and items (none given is empty), and the customer fields when given, a missing text becoming empty |

## Left out

- Messages are left out because they are output, not bookkeeping. This covers:
  - Telegram messages, keyboards and FSM storage;
  - PWA notifications and WebSocket broadcasts;
  - Google Analytics calls;
  - the text of log and history rows.
  - Where a message decides something, the decision is modelled: production gets the order only when the status asks for it, and the stations' item lists are modelled.
- HTML, CSV and DOM rendering are left out. This includes the cook ticket, the courier report, the cancellations table, `toFixed` and Decimal `quantize`. Only the numbers behind them are modelled.
- SQL sessions, row locks (`with_for_update`), commits, refreshes and `datetime.now()` are left out. Each operation is one atomic step on the state, and the current date is a parameter (`Reports.DateRange`).
- Concurrency between requests is left out.
- JavaScript floating point is left out: cart totals are exact reals.
- `float()`, `Decimal(str(...))` and `strptime` parsing are abstracted:
  - an unreadable count is `None`;
  - `strptime` is a year-month-day reader over ASCII digits.
- Unicode is treated narrowly:
  - Unicode digits and whitespace beyond ASCII are not recognised by `isdigit`, `strip` or `\d`;
  - `toLowerCase` and `lower()` are modelled for ASCII and Cyrillic letters only;
  - `int()` of a text with underscores is treated as not a number.
- `localStorage` is modelled only as the value it returns (`QrClient.Restore`). JSON parsing is a given outcome.
- Only the outcome of the WebSocket `readyState` check and the reconnection timer is modelled.
- Password hashing is modelled as an opaque `HashOf(password)` value. The bcrypt and JWT code is not part of this model.
- The web cart's "+" and "−" buttons (templates.py:1511-1523) would throw on a key missing from the cart. The model ignores an unknown key there, as the other carts do; the page only shows buttons for keys it holds.
- Prices written into the pages are modelled as the stored prices, so `parseInt(data-price)` on an integer price changes nothing.
- The staff app's trash button is modelled as written, as a quantity change of −999; no lemma singles it out.
- StaffApp.DeliveryRulesAgree: stated only for a non-negative delivery cost. With a negative cost, the "cost > 0" guard of the staff delivery form and the item-edit rule disagree.
- Employees.Roster.AddEmployee: the IntegrityError on commit is modelled as the unique phone column only; other database constraints are not part of this model.
- OrderAdmin.Settle: its own contract states only that the orders keep their length. What settling does is stated by OrderAdmin.SettleCharges.
- OrderAdmin.Complete: its own contract states only that the orders keep their length. What completing does is stated by OrderAdmin.CompleteKeeps and OrderAdmin.CompleteSettles.
- OrderAdmin.WebMove: its own contract states only that the orders keep their length. Its effect is stated through OrderAdmin.SetStatusSpec by the lemmas listed above.
- StaffApp.ApplyMove: its own contract states only that the orders keep their length. What a move does is stated by StaffApp.MoveInv.
- Workshop.WriteStatus: its own contract states only that the orders keep their length. What writing a status does is stated by Workshop.WriteStatusFacts.
- Workshop.BotComplete: its own contract states only that the orders keep their length. What completing does is stated by Workshop.BotCompleteInv and Workshop.BotCompletionCharges.
- Workshop.MarkAll: its own contract states only that the items keep their length. What marking does is stated by Workshop.MarkAllEffect.
- InHouse.QrItem: a `modifiers` value of null, or a modifier whose name is not text, is not modelled; the request's modifiers are always a list of objects with an optional text name.
- InventoryAdmin.DeleteWarehouseSpec: only references held by the ledger (stock rows, documents, workshop links) make the deletion fail. References from modifiers (inventory_models.py:97) and automatic rules (inventory_models.py:151) are catalogue data outside the ledger and are not modelled.
- Notifications.RetypeSpec: the comment written on a retyped document is not modelled, only its type.

## Findings

| source | as written | input that shows it | evidently intended | confidence | as-written member | corrected member |
|---|---|---|---|---|---|---|
| admin_inventory.py:1546-1555 | `del_doc_item` checks that the route's document is open, then deletes the line by its own id without checking which document holds it | posted supply 1 holds line 7 and document 2 is open; `/docs/2/del_item/7` removes line 7 from the posted supply 1 | only a line of the open document in the route is deleted; posted documents never change | not executed | InventoryAdmin.DelDocItemEditsPostedDoc | InventoryAdmin.EditsKeepPostedDocs |
| staff_pwa.py:126-134 | the automatic move to "Готовий до видачі" tests only `is_completed_status`, although the comment says "not final" | a cancelled order whose items are all marked ready is moved to the ready status, out of cancellation | a completed or cancelled order keeps its status | not executed | StaffApp.ReadinessReopensCancelled | StaffApp.ReadinessMoves |
| tpl_client_qr.py:798-800 | `placeOrder` sends `quantity: i.qty`, but cart lines carry `quantity`, so the key is dropped and the server (in_house_menu.py:398) reads 1 for every line | a cart with 3 × a dish is placed as 1 × that dish and charged for one | each line is sent with its quantity | not executed | QrClient.AsWrittenLosesQuantity | QrClient.PlacedOrderMatchesCart |
