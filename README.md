# Shipment management: the draft shipment and the stock ledger

This project models the logic inside the desktop shipment-management
application (PyQt over SQLite) and proves properties of it. It covers two parts.

**The "Add New Shipment" dialog** builds a shipment in memory and then commits it
(`AddShipmentDialog`). A draft is an ordered list of product entries. Each entry
has a unit price, a quantity, a subtotal and its own ordered list of farmer
allocations. The dialog also keeps the index of the entry last clicked. Adding a
product refuses one that is already in the draft. Assigning a farmer checks
three things, in this order: an entry is selected, the farmer is new to that
entry, and the entry is not over-allocated. Saving runs all of its checks before
the first insert. It refuses an empty draft, and it refuses any entry whose
allocations do not add up exactly to its quantity. Only after that does it
write one `shipments` row, one `shipment_products` row per entry and one
`farmer_purchases` row per allocation. The dialog is modelled as the class
`Shipments.Draft` (fields `entries` and `selected`). Its invariant `Valid()`
says six things:
- product ids are distinct across entries;
- every entry's subtotal is its unit price times its quantity;
- farmer ids are distinct within each entry;
- every allocation's `total_paid` is its quantity times its selling price;
- every entry's allocated quantity stays at or below its quantity;
- a selected row, when there is one, is the index of an entry.

The purchase and sales totals equal cost and revenue because of the second and
fourth parts (`PurchaseTotalIsCost`, `SalesTotalIsRevenue`).

**The ledger** is seven append-only tables: products, farmers, shipments,
shipment_products, farmer_purchases, returns and transfers. It is modelled as
the class `Ledger.Store`, with one `seq` field per table. Its invariant
`Valid()` holds the UNIQUE names of products and farmers. It also requires
every stored `shipment_id` to name an existing shipment, or to be NULL for a
direct sale. The program only ever writes a fresh `lastrowid` or NULL there, so
the id the next shipment gets is referred to by no row
(`Ledger.NextShipmentUnreferenced`). The model covers the
writes that the widgets issue:
- adding a product or a farmer under a unique name, with the name stripped of
  whitespace (`src/`) or stored as typed (`products.py`);
- a direct sale, guarded by positive quantity and price;
- a return;
- a transfer, refused when both farmers are the same.

The reads are modelled as pure functions over the tables: the product summary,
the stock overview, the farmer summary and the shipment list. Each one is a
`GROUP BY` over `LEFT JOIN`s and is defined literally in module `Joins`. The
rows joined to one parent row are the cross product of the matching rows of
each child table, and an empty match becomes a single NULL row. `SUM` skips
NULLs and yields NULL when nothing is left. `COALESCE` then turns that NULL
into 0. `COUNT(DISTINCT …)` counts the distinct non-NULL values.

Every summed column of the three-way product join repeats once per joined row
of each of the other two tables. `Joins.JoinTotal` proves this closed form for
any join. `Products.LiteralIsIntendedWhenSingle` proves that the literal
summary equals plain bought − sold − returned when no child table matches more
than one row.

Money and quantities are exact integers in one fixed-point unit, such as
hundredths. A product of price and quantity is kept in the finer unit and is
never rounded. The id of the row at index `k` of a table is `k + 1` (auto
increment, no deletes). The insertion time is a `now` parameter that never
decreases.

Three behaviours of the program are modelled as written:
- saving a shipment is not one transaction; it is a sequence of inserts;
- returns and transfers have no guard on quantity or refund;
- the stock and shipment totals fan out over the joins (see "## Findings").

## Model

| member | source | states |
|---|---|---|
| `Ledger.Store.InsertProduct` | src/products.py:80-85 | the insert fails, changing nothing, exactly when the name is taken; otherwise it appends one row with the next id |
| `Ledger.Store.InsertFarmer` | src/farmers.py:65-69 | the insert fails, changing nothing, exactly when the farmer name is taken; otherwise it appends one row with the next id |
| `Ledger.Store.InsertShipment` | src/shipments.py:309-310 | appends one shipments row with the notes and returns the next id; no other table changes |
| `Ledger.NextShipmentUnreferenced` | src/shipments.py:310-322 | when every stored `shipment_id` names an existing shipment or is NULL, as the ids written from `lastrowid` are, no row refers yet to the id the next shipment insert returns |
| `Ledger.Store.InsertShipmentProduct` | src/shipments.py:313-316 | appends exactly the given row to shipment_products, whose `shipment_id` is an existing shipment; nothing else changes and the store stays valid |
| `Ledger.Store.InsertFarmerPurchase` | src/shipments.py:319-323 | appends exactly the given row to farmer_purchases, whose `shipment_id` is an existing shipment or NULL; nothing else changes and the store stays valid |
| `Ledger.Store.InsertReturn` | src/farmers.py:167-172 | appends exactly the given row to returns; nothing else changes |
| `Ledger.Store.InsertTransfer` | src/farmers.py:119-125 | appends exactly the given row to transfers; nothing else changes |
| `Ledger.OrderedByName` | src/products.py:56-57 | GROUP BY id ORDER BY name: every row exactly once, under its own id, sorted by name |
| `Ledger.OrderedByNewest` | src/shipments.py:63-64 | GROUP BY id ORDER BY created_at DESC: every shipment exactly once, under its own id, newest first |
| `Sorting.SortBy` | src/manage_widget.py:83-84 | the sorted result is a permutation of its input and is ordered by the given total preorder |
| `Text.Trim` | src/farmers.py:64-66 | `strip()` gives an unpadded infix with only whitespace cut at both ends; it is empty exactly when the name is all whitespace |
| `Text.TrimIdempotent` | src/products.py:79-81 | a general property of `strip()`: stripping a stripped name changes nothing (used by `Products.RetypedStoredNameTaken`) |
| `Text.TrimRemovesPadding` | src/products.py:81 | whitespace around an unpadded name is removed by `strip()` |
| `Text.NameLeTotal` | src/products.py:57 | any two names are comparable under the collation |
| `Text.NameLeTransitive` | src/manage_widget.py:84 | the name ordering is transitive |
| `Joins.CoalesceSum` | src/products.py:47 | `COALESCE(SUM(x), 0)` equals the column summed with NULL read as 0 |
| `Joins.JoinTotal` | src/manage_widget.py:79-82 | a summed column over the three-way join is each table's sum times the number of joined rows of the other two |
| `Joins.JoinDistinct` | src/shipments.py:57-58 | `COUNT(DISTINCT …)` over the join sees exactly the values of the matching child rows |
| `Joins.LeftJoinSum` | src/products.py:52-55 | closed form of a sum over the LEFT JOINs: an empty match counts as one NULL row (factor `max(1, n)`) |
| `Joins.ProductJoinSum` | src/manage_widget.py:74-83 | each column of the product join is summed once per joined row of the two other tables |
| `Joins.ShipmentJoinAggregates` | src/shipments.py:57-63 | the shipment join multiplies sums by the other table's row count; its distinct counts see every child row |
| `Joins.FarmerJoinSum` | src/farmers.py:47-50 | the single join of the farmer summary counts every purchase exactly once |
| `Shipments.AssignedTotal` | src/shipments.py:263 | the loop returns the sum of the entry's allocated quantities |
| `Shipments.Draft.constructor` | src/shipments.py:93-98 | a new dialog has no entries and no selection |
| `Shipments.Draft.AddProduct` | src/shipments.py:206-222 | refused, leaving the draft unchanged, exactly when the product is already there; otherwise appends one entry with `subtotal = price × quantity` and no farmers; keeps product ids distinct |
| `Shipments.Draft.SelectRow` | src/shipments.py:241-245 | the selection becomes `row` only when `row >= 0`; the entries are unchanged |
| `Shipments.Draft.Assign` | src/shipments.py:247-272 | rejected when there is no selection, then when the farmer is already on the entry, then when assigned + quantity > entry quantity (reporting quantity − assigned as remaining); otherwise appends one allocation with `total_paid = quantity × price` to the selected entry only; keeps `Valid()` (assigned ≤ quantity) |
| `Shipments.Draft.PurchaseTotal` | src/shipments.py:228-239 | the loop returns the sum of the entries' subtotals |
| `Shipments.Draft.SalesTotal` | src/shipments.py:295-297 | returns the sum of `total_paid` over every allocation of every entry |
| `Shipments.Draft.CheckComplete` | src/shipments.py:300-307 | empty draft ⇒ EmptyShipment; otherwise Ready iff every entry is exactly allocated, else names the first entry that is not |
| `Shipments.Draft.Save` | src/shipments.py:299-326 | writes nothing unless the check passes; on success appends one shipment row, one shipment_products row per entry and one farmer_purchases row per allocation, all with the new id |
| `Shipments.SaveEntries` | src/shipments.py:312-323 | after the shipment row, appends the shipment_products and farmer_purchases rows of every entry in draft order, under the given shipment id; nothing else changes and the store stays valid |
| `Shipments.SaveEntry` | src/shipments.py:312-323 | for one entry, appends its shipment_products row and then one farmer_purchases row per allocation, in order |
| `Shipments.SalesAfterAssign` | src/shipments.py:268-276 | an accepted assignment raises the sales total by exactly the new allocation's `total_paid` |
| `Shipments.PurchaseAfterAdd` | src/shipments.py:218-224 | an added entry raises the purchase total by exactly its subtotal |
| `Shipments.PurchaseTotalIsCost` | src/shipments.py:211 | in a valid draft the purchase total is Σ unit_price × quantity |
| `Shipments.PaidIsRevenue` | src/shipments.py:268-272 | allocations priced by the dialog pay Σ quantity × selling price |
| `Shipments.SalesTotalIsRevenue` | src/shipments.py:271 | in a valid draft the sales total is Σ quantity × selling price over all allocations |
| `Shipments.PurchaseRowsCount` | src/shipments.py:318-323 | a save writes exactly one farmer_purchases row per allocation |
| `Shipments.PurchaseRowsOfShipment` | src/shipments.py:319-323 | every purchase row a save writes carries the new shipment id, and their `total_paid` add up to the sales total |
| `Shipments.ProductIdsOfRows` | src/shipments.py:312-316 | the product ids written are exactly the draft's, one distinct id per entry |
| `Shipments.ShipmentLineOf` | src/shipments.py:56-63 | a shipment-list line carries the shipment's own id, date and notes |
| `Shipments.ShipmentLineClosedForm` | src/shipments.py:57-62 | the product and farmer counts are the distinct ids; `total_paid` is the shipment's purchases times max(1, number of its products) |
| `Shipments.ShipmentSummary` | src/shipments.py:54-66 | one line per shipment |
| `Shipments.ShipmentSummaryLines` | src/shipments.py:56-63 | each line is the aggregate of the shipment whose id it carries |
| `Shipments.ShipmentSummaryOnePerShipment` | src/shipments.py:60-63 | every shipment is listed, and no id twice |
| `Shipments.ShipmentSummaryNewestFirst` | src/shipments.py:64 | lines are ordered by `created_at` descending |
| `Shipments.ShipmentWithoutPurchases` | src/shipments.py:59-62 | a shipment with no purchases is listed with total 0 and 0 farmers |
| `Shipments.SavedShipmentLine` | src/shipments.py:55-62 | the line of a freshly saved draft shows one product per entry and the sales total times the number of entries |
| `Shipments.SavedShipmentIntendedTotal` | src/shipments.py:59 | counting each purchase once, a saved shipment's total is the draft's sales total |
| `Shipments.SavedIntoValidStore` | src/shipments.py:55-62 | for a draft saved into a valid store, the list line of the new id shows one product per entry and the sales total once per entry, while counting each purchase once gives the sales total |
| `Shipments.IntendedShipmentTotalEmpty` | src/shipments.py:59 | counting each purchase once, a shipment without purchases totals 0 |
| `Shipments.ShipmentTotalFanOut` | src/shipments.py:59-62 | a two-product shipment whose purchases pay 200 is listed with 400 |
| `Farmers.FarmerLineOf` | src/farmers.py:46-49 | a farmer-summary line carries the farmer's own id, name and creation time |
| `Farmers.FarmerTotalBought` | src/farmers.py:47-49 | `total_bought` is the sum of `total_paid` over all of the farmer's purchases, shipment-linked and direct, each once |
| `Farmers.FarmerWithoutPurchases` | src/farmers.py:47-49 | a farmer with no purchases is listed with 0 |
| `Farmers.PurchaseRaisesFarmerTotal` | src/farmers.py:47-50 | a new purchase row raises its own farmer's total by its `total_paid` and no other farmer's |
| `Farmers.FarmerSummary` | src/farmers.py:44-53 | one line per farmer |
| `Farmers.FarmerSummaryLines` | src/farmers.py:46-50 | each line is the aggregate of the farmer whose id it carries |
| `Farmers.FarmerSummaryOnePerFarmer` | src/farmers.py:48-50 | every farmer is listed, including farmers without purchases, and no id twice |
| `Farmers.FarmerSummaryByName` | src/farmers.py:51 | lines are ordered by name |
| `Farmers.FarmerSummaryIgnoresTransfersAndReturns` | src/farmers.py:45-52 | returns and transfers do not change the farmer summary |
| `Farmers.AddFarmer` | src/farmers.py:61-69 | inserts the stripped name; an all-whitespace name inserts nothing; a taken name fails and leaves the store unchanged |
| `Farmers.Transfer` | src/farmers.py:115-125 | refused, writing nothing, exactly when from = to; otherwise appends exactly one transfers row and touches no other table |
| `Farmers.RecordReturn` | src/farmers.py:166-172 | appends exactly one returns row (farmer, product, quantity, refund, note) and touches no other table |
| `Farmers.PaddedNameCollides` | src/farmers.py:64-66 | a name that differs from a stored one only by surrounding whitespace counts as a duplicate |
| `Manage.StockLineOf` | src/manage_widget.py:73-83 | a stock line carries the product's name |
| `Manage.StockLineClosedForm` | src/manage_widget.py:73-83 | bought, sold and returns are each summed over the same three-way join (closed form with fan-out factors); stock = listed bought − listed sold − returns term |
| `Manage.StockWithoutActivity` | src/manage_widget.py:74-82 | a product with no activity is listed with all columns 0 |
| `Manage.StockOverview` | src/manage_widget.py:71-86 | one line per product |
| `Manage.StockOverviewMatchesProducts` | src/manage_widget.py:72-85 | line i is the product of line i of the product summary, with the same name, bought total and stock, so every product appears exactly once |
| `Manage.StockOverviewByName` | src/manage_widget.py:84 | lines are ordered by product name |
| `Manage.ReturnLowersListedStockTwice` | src/manage_widget.py:76-82 | with two shipment rows, a return of 5 lowers the listed stock by 10; the intended stock drops by 5 |
| `Manage.DirectSell` | src/manage_widget.py:94-109 | refused, writing nothing, exactly when quantity ≤ 0 or price ≤ 0; otherwise appends one farmer_purchases row with no shipment id and `total_paid = quantity × price` |
| `Manage.DirectSaleLeavesShipmentList` | src/manage_widget.py:105-109 | a purchase with no shipment id does not change the shipment list |
| `Products.ProductLineOf` | src/products.py:46-56 | a summary line carries the product's own id, name and creation time |
| `Products.ProductLineClosedForm` | src/products.py:46-55 | bought, cost and stock in closed form over the three-way join; stock = listed bought − sold term − returns term |
| `Products.ProductWithoutActivity` | src/products.py:47-55 | a product with no activity is listed with zero aggregates |
| `Products.ProductSummary` | src/products.py:44-59 | one line per product |
| `Products.ProductSummaryLines` | src/products.py:46-56 | each line is the aggregate of the product whose id it carries |
| `Products.ProductSummaryOnePerProduct` | src/products.py:52-56 | every product is listed, including products without activity, and no id twice |
| `Products.ProductSummaryByName` | src/products.py:57 | lines are ordered by name |
| `Products.ProductSummaryIgnoresTransfers` | src/products.py:52-55 | transfers do not change the product summary |
| `Products.LiteralIsIntendedWhenSingle` | src/products.py:47-55 | if at most one row of each child table matches, the literal line is bought − sold − returned counted once |
| `Products.IntendedStockAfterReturn` | src/products.py:49-51 | counted once per row, a return lowers its product's stock by exactly its quantity |
| `Products.IntendedStockAfterPurchase` | src/products.py:49-50 | counted once per row, a sale lowers its product's stock by its quantity and leaves bought unchanged |
| `Products.IntendedStockAfterShipmentProduct` | src/products.py:47-49 | counted once per row, a factory purchase raises bought and stock by its quantity |
| `Products.ProductStockFanOut` | src/products.py:47-55 | two shipments of 10 and one sale of 5 are listed as bought 20, stock 10; the intended stock is 15 |
| `Products.AddProduct` | src/products.py:77-85 | inserts the stripped name; an all-whitespace name inserts nothing; a taken name fails and leaves the store unchanged |
| `Products.RetypedStoredNameTaken` | src/products.py:79-81 | a name stored by "Add Product", typed again exactly as stored, is not all whitespace and strips to a taken name, so it is refused |
| `RootProducts.AddProductAsTyped` | products.py:66-74 | refuses only the empty string and stores the name as typed (unstripped); a taken name fails and changes nothing |
| `RootProducts.ReportsDifferWhenStored` | products.py:69-74 | the message shown as written differs from the intended one exactly when a name was stored while some product is listed, and is then the failure message |
| `RootProducts.AddProductReportAsWritten` | products.py:59-74 | as written, every non-empty name ends in the failure message, although a new name is still stored |
| `RootProducts.AddProductReportIntended` | products.py:66-74 | the success message exactly when a new name is stored; otherwise the products are unchanged |
| `RootProducts.RootProductSummary` | products.py:40-52 | one line per product, ordered by name; cost is the joined subtotals and stock is bought − sold − returns over the three-way join |
| `RootProducts.AsTypedIsStrippedIffUnpadded` | products.py:68-70 | both dialogs store the same name exactly when it has no surrounding whitespace; a whitespace-only name is stored here but refused under `src/` |

## Left out

- Widget construction, layout, table rendering, message boxes, navigation, the
  login gate and the application entry point: presentation only.
- The shipment-details dialog and receipt HTML: string templating over rows
  that were already fetched.
- Display formatting: Decimal quantize, thousands separators and date
  formatting.
- `Database`: it is not part of this model. It is abstracted as the row store
  `Ledger.Store`, with auto-increment ids and a non-decreasing clock.
- The only insert failure modelled is the UNIQUE name constraint. The bare
  `except:` around inserts would catch any other storage failure too.
- Floating point: spin-box values are exact integers in the model, and the
  float equality of the allocation check becomes integer equality.
- Crash atomicity: `save_shipment` issues separate inserts with no
  transaction. A successful save is modelled as sequential appends, and a
  failure part-way is not modelled.
- Widget range limits appear only as preconditions:
  - `Shipments.Draft.AddProduct` requires price ≥ 1 and quantity ≥ 1;
  - `Shipments.Draft.Assign` requires quantity ≥ 1 and price ≥ 1;
  - the return and transfer spin boxes are not modelled at all.
- `Shipments.Draft.SelectRow` requires `row < |entries|`, which the products
  table guarantees because it has one row per entry.
- Empty combo boxes (`currentData()` returning `None`) and cancelling the
  name-input dialog are not modelled.
- Spin-box resets after add, assign and sell are not modelled.
- `Ledger.OrderedByNewest` puts shipments with equal `created_at` in id order.
  SQLite does not promise any order for such ties.
- Names are ordered by code point. This is SQLite's BINARY collation over
  UTF-8.
- `Shipments.Draft.constructor`: assumes the dialog is built. As written,
  `init_ui` (called at src/shipments.py:98) uses `QFont` at lines 185 and 189,
  and the imports at lines 4-14 do not bring `QFont` in. The NameError means
  the dialog never opens, so none of `Shipments.Draft`'s operations can run.
  The model describes the dialog the code evidently intends.
- `RootProducts.RootProductSummary`: states the query only. As written, the
  widget's row loop calls `datetime.fromisoformat` (products.py:59) without
  importing `datetime`. Once a product exists, `load_products` raises on its
  first row, including when the widget is constructed (line 15). Root
  "Add Product" therefore reports failure after a successful insert (see
  "## Findings").

## Findings

| source | as written | input that shows it | evidently intended | confidence | as-written member | corrected member |
|---|---|---|---|---|---|---|
| src/products.py:47-55 | bought, sold and returns are summed over one three-way LEFT JOIN, so each row repeats once per matching row of the other tables (the same query runs in products.py) | two shipment_products rows of 10 and one purchase of 5: listed bought 20, stock 10 | stock = bought − sold − returned, each row counted once (15) | high, not executed | `Products.ProductStockFanOut` | `Products.IntendedStockAfterShipmentProduct` |
| src/manage_widget.py:76-82 | the stock overview sums over the same three-way join | same input plus a return of 5: listed stock drops from 10 to 0 | stock drops by 5, from 15 to 10 | high, not executed | `Manage.ReturnLowersListedStockTwice` | `Products.IntendedStockAfterReturn` |
| products.py:59-74 | `load_products` uses `datetime`, which is never imported, so after the INSERT the bare `except:` shows "Failed (name exists?)" | typing the new name "seed": the row is stored and the failure message is shown | "Product added" whenever the row is stored | high, not executed | `RootProducts.AddProductReportAsWritten` | `RootProducts.AddProductReportIntended` |
| src/shipments.py:59-62 | `SUM(fp.total_paid)` runs over shipments × shipment_products × farmer_purchases | a shipment of two products, each sold once for 100: listed total 400 | the purchases paid 200 | high, not executed | `Shipments.ShipmentTotalFanOut` | `Shipments.SavedShipmentIntendedTotal` |

The summaries above keep the literal query, because that is what the program
displays. The corrected, count-once definitions are `Products.IntendedProductLine`
and `Shipments.IntendedShipmentTotal`. The lemmas named in the last column are
proved about them.
