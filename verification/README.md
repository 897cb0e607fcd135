# InventoryPro core, modelled in Dafny

InventoryPro is a small shop with an inventory back office. It has an Express/Sequelize
backend and a React frontend. This project models its core and proves properties of the model:

- **Authorization middleware** (`auth.dfy`, module `Auth`). `authenticate` takes the bearer token from the
  `Authorization` header and hands it to the JWT verifier. `isAdmin` and `isCustomer` test the role.
- **Checkout and order reads** (`orders.dfy`, module `Orders`). `POST /orders` runs an availability loop over the
  cart lines. For a missing product it aborts with 404. For each short line it files a missing-product
  report. It then creates one completed order with its items, and lowers stock once per fulfilled line.
  `GET /orders/my-orders` and `GET /orders/:id` read orders back.
- **Admin routes** (`admin.dfy`, module `Admin`):
  - the product, stock, report, order and user updates and deletes;
  - the missing-product, low-stock, order, recent-order and user listings;
  - the two dashboards.
- **Product routes** (`inventory.dfy`, module `Inventory`): the filtered listing, one product, the distinct
  categories, and admin create and update.
- **Cart updaters** of the frontend (`cart.dfy`, module `Cart`) and the **product filter panel**
  (`product_filters.dfy`, module `ProductFilters`).

Shared pieces:

| file | module | contents |
|---|---|---|
| `records.dfy` | `Records` | the five tables' records, their column defaults, and the `Response` of a handler (a value, or a status code and message) |
| `db.dfy` | `Db` | the database as a class `Store`: one map per table plus its auto-increment counter. Its invariant `Valid` is the id discipline plus the order ledger: every item belongs to an order, `subtotal = price * quantity`, and every order's `totalAmount` is the sum of its items' subtotals |
| `tables.dfy` | `Tables` | rows of a table in id order, and runs of inserts |
| `sequences.dfy` | `Sequences` | `filter`, a stable sort, `LIMIT` |
| `text.dfy` | `Text` | `split`, `includes`, `toLowerCase`, string `<` |

Conventions:

- Prices and amounts are integer cents.
- SQL `NULL` and JavaScript `undefined` are `None`, or `Absent` for request-body fields.
- A handler that mutates the database is a module-level method that takes the shared `db: Store` and declares `modifies db`. Its contract states the whole new state and keeps `Valid`.
- Checkout is a method proved against the function `Orders.CheckoutEffect`. The properties of checkout are lemmas about that function.
- Selections and listings are functions.

Facts of the code the model keeps:

- Checkout requires `authenticate` and `isCustomer`.
- `Order.userId` is NOT NULL, so there are no guest orders.
- `GET /orders/:id` requires `authenticate`.

## Model

| member | source | states |
|---|---|---|
| Auth.ExtractToken | inventory-backend/middleware/auth.js:5-9 | no header gives no token; a token is non-empty and without spaces (`ExtractTokenIff` says which one) |
| Auth.ExtractTokenIff | inventory-backend/middleware/auth.js:5-9 | the header yields `t` exactly when it is `s + " " + t + rest` with one-word `s`, non-empty one-word `t`, and `rest` empty or starting with a space |
| Auth.TokenOf | inventory-backend/middleware/auth.js:5 | such a header yields its second word, e.g. `"Bearer a b"` yields `"a"` |
| Auth.DoubleSpaceNoToken | inventory-backend/middleware/auth.js:5-8 | `"Bearer  x"` has an empty second piece, so no token and 401 |
| Text.Split | inventory-backend/middleware/auth.js:5 | `split(" ")`: at least one piece, none holding the separator |
| Text.SplitJoin | inventory-backend/middleware/auth.js:5 | joining the pieces with the separator gives back the header |
| Auth.BearerToken | inventory-backend/middleware/auth.js:5 | a header `"<scheme> <token>"` yields exactly that token |
| Auth.NoSpaceNoToken | inventory-backend/middleware/auth.js:5-8 | a header without a space yields no token, hence 401 "No token provided" |
| Auth.Authenticate | inventory-backend/middleware/auth.js:3-17 | 401 "No token provided" without a token; 401 "Invalid token" when verification fails; otherwise the user is the verified payload, and only then |
| Auth.IsAdmin | inventory-backend/middleware/auth.js:19-25 | passes exactly a present user with role "admin"; otherwise 403 "Admin access required" |
| Auth.IsCustomer | inventory-backend/middleware/auth.js:27-33 | passes exactly a present user with role "customer" or "admin"; otherwise 403 "Customer access required" |
| Auth.AdminIsCustomer | inventory-backend/middleware/auth.js:19-33 | every user `isAdmin` passes, `isCustomer` passes |
| Auth.AdminChain | inventory-backend/middleware/auth.js:3-25 | a verified admin bearer token gets through `authenticate, isAdmin` with its payload as the user |
| Orders.ScanLinesShape | inventory-backend/routes/orders.js:28-56 | every fulfilled line is priced from its product (`subtotal = price * quantity`, stock covered); every unavailable entry has stock below the requested quantity |
| Orders.ScanPartition | inventory-backend/routes/orders.js:21-57 | when every product exists, the fulfilled lines are exactly the lines whose stock covers them, and the unavailable entries exactly the others, both in cart order |
| Orders.ScanStops | inventory-backend/routes/orders.js:21-26 | once a missing product aborts the loop, later lines change nothing |
| Orders.ScanFirstMissing | inventory-backend/routes/orders.js:21-26 | the first line whose product is absent is the one reported, with everything gathered before it kept |
| Orders.ScanMissing | inventory-backend/routes/orders.js:22-26 | the reported product id is indeed absent |
| Orders.ScanNone | inventory-backend/routes/orders.js:59-64 | no fulfilled line and no missing product means every line's product exists and lacks stock |
| Orders.CheckoutEffect | inventory-backend/routes/orders.js:11-108 | reports for short lines are always written, even before a 404 or a 400; 404 and 400 leave orders, items and stock alone; on 201 exactly one order is added under the next id, completed, owned by the caller, with the caller's email as name and email |
| Orders.Checkout | inventory-backend/routes/orders.js:11-108 | 403 without a customer or admin role and nothing changes; otherwise the database moves to `CheckoutEffect`'s state and stays `Valid` |
| Orders.CheckLines | inventory-backend/routes/orders.js:21-57 | the loop computes `ScanLines` and the running total of fulfilled subtotals, and writes one report per short line |
| Orders.FileReport | inventory-backend/routes/orders.js:37-42 | one report is inserted under the next report id |
| Orders.PlaceOrder | inventory-backend/routes/orders.js:66-86 | the order is created under the next order id, then its items are written and stock lowered |
| Orders.WriteItems | inventory-backend/routes/orders.js:76-86 | one item per fulfilled line under consecutive ids, each product's stock lowered by each of its lines |
| Orders.WriteItem | inventory-backend/routes/orders.js:77-85 | one turn of the write loop: one item inserted and one product's stock lowered |
| Orders.DecrementKeys | inventory-backend/routes/orders.js:82-85 | lowering stock neither adds nor removes products |
| Orders.DecrementStock | inventory-backend/routes/orders.js:76-86 | each product ends with its stock minus the sum of the quantities of its fulfilled lines, all other fields kept |
| Orders.TotalSnoc | inventory-backend/routes/orders.js:47-48 | `totalAmount` grows by each fulfilled subtotal |
| Orders.ItemsForAt | inventory-backend/routes/orders.js:76-80 | item `j` carries the order id and the snapshot name, price, quantity and subtotal of fulfilled line `j` |
| Orders.ItemsForTotal | inventory-backend/routes/orders.js:47-80 | the new order's items belong to it and their subtotals sum to `totalAmount` |
| Orders.ReportsForShape | inventory-backend/routes/orders.js:36-42 | each report names the caller (id and email), is pending with request count 1, and asks for a positive quantity |
| Orders.ItemsTotalAppend | inventory-backend/routes/orders.js:76-80 | writing a run of items adds their subtotals to their order's total |
| Orders.ReportedConsistent | inventory-backend/routes/orders.js:37-42 | filing reports keeps the ledger invariant |
| Orders.PlacedIds | inventory-backend/routes/orders.js:67-80 | new order and item ids stay below their counters |
| Orders.PlacedItems | inventory-backend/routes/orders.js:76-80 | after placing, every item belongs to an existing order and is priced `price * quantity` |
| Orders.PlacedTotals | inventory-backend/routes/orders.js:47-80 | after placing, every order's `totalAmount` equals the sum of its items' subtotals |
| Orders.CheckoutKeepsConsistent | inventory-backend/routes/orders.js:11-108 | checkout preserves the database invariant on every outcome |
| Orders.ScanAbsent | inventory-backend/routes/orders.js:83-85 | a product whose lines were all skipped as short (or that is on no line) is not decremented |
| Orders.ScanQuantity | inventory-backend/routes/orders.js:22-28 | with distinct product ids, the fulfilled quantity of a product never exceeds its stock |
| Orders.CheckoutStockNonNegative | inventory-backend/routes/orders.js:22-85 | with distinct product ids, no stock that was non-negative goes below zero |
| Orders.DuplicateLinesOversell | inventory-backend/routes/orders.js:22-85 | two lines of 3 for a product with stock 5 both pass the check: the order is created with two items and total 600, and stock ends at -1 |
| Orders.GetOrder | inventory-backend/routes/orders.js:135-160 | 404 "Order not found" for an unknown id; 403 "Access denied" unless the caller owns the order or is admin, and success exactly then; the reply holds the order and exactly its items |
| Orders.NewestFirstPreorder | inventory-backend/routes/orders.js:115 | newest-first is a total preorder, so the sort is well defined |
| Orders.MyOrders | inventory-backend/routes/orders.js:111-128 | 403 exactly for a role `isCustomer` refuses, and an answer exactly for a role it admits; one entry per order of the caller |
| Orders.MyOrdersSound | inventory-backend/routes/orders.js:113-126 | every entry is an order of the caller with exactly its items, newest first |
| Orders.MyOrdersComplete | inventory-backend/routes/orders.js:113-116 | every order of the caller appears |
| Admin.DeleteProduct | inventory-backend/routes/admin.js:13-24 | 403 for non-admins; 404 "Product not found"; otherwise exactly that product is removed |
| Admin.SetStock | inventory-backend/routes/admin.js:26-38 | 403; 404 "Product not found"; otherwise only that product's stock is set to the given value, or nothing changes when `stock` is absent, and the product is returned |
| Admin.SetReportStatus | inventory-backend/routes/admin.js:70-86 | 403; 404 "Report not found"; otherwise only that report's status changes |
| Admin.SetOrderStatus | inventory-backend/routes/admin.js:311-325 | 403; 404 "Order not found"; otherwise only that order's status changes, and the ledger stays valid |
| Admin.DeleteUser | inventory-backend/routes/admin.js:291-308 | 403; 404 "User not found"; 400 "Cannot delete admin user"; otherwise exactly that user is removed; admin accounts are never removed |
| Admin.MostRequestedPreorder | inventory-backend/routes/admin.js:61 | the report order (request count, then date, both descending) is a total preorder |
| Admin.PendingReports | inventory-backend/routes/admin.js:57-67 | exactly the pending reports, each once, by request count descending, then newest first |
| Admin.FewestFirstPreorder | inventory-backend/routes/admin.js:267 | ascending stock is a total preorder |
| Admin.LowStock | inventory-backend/routes/admin.js:259-274 | exactly the products with stock at most 10, each once, by stock ascending |
| Admin.AtOrBelowThreshold | inventory-backend/routes/admin.js:98-104 | exactly the products whose stock is at most their own low-stock threshold |
| Admin.Group | inventory-backend/routes/admin.js:107-116 | one group per distinct key, holding the sums of `quantity` and `subtotal` of the items with that key |
| Admin.KeysDistinct | inventory-backend/routes/admin.js:113 | `GROUP BY` yields each key once |
| Admin.KeysCover | inventory-backend/routes/admin.js:113 | the groups are exactly the keys some item has |
| Admin.GroupDistinct | inventory-backend/routes/admin.js:113 | no group occurs twice, and a key determines its group |
| Admin.TopSellers | inventory-backend/routes/admin.js:107-116 | `LIMIT n` of the groups by units sold: exactly `n` groups, or all when fewer (its other properties: `TopSellersSound`, `TopKeysDistinct`) |
| Admin.TopKeysDistinct | inventory-backend/routes/admin.js:107-116 | the kept groups have pairwise different keys |
| Admin.MostSoldPreorder | inventory-backend/routes/admin.js:114 | descending units sold is a total preorder |
| Admin.TopSellersSound | inventory-backend/routes/admin.js:107-116 | the first `n` groups, or all when fewer; best-selling first, all genuine, each key once; no group left out sold more than one kept |
| Admin.Revenue | inventory-backend/routes/admin.js:92 | `Order.sum('totalAmount')`, over all orders or the completed ones: non-negative when every amount is (its other properties: `RevenueSnoc`, `RevenueCompleted`, `CheckoutRevenue`) |
| Admin.RevenueSnoc | inventory-backend/routes/admin.js:92 | revenue is the running sum of `totalAmount` over the counted orders |
| Admin.RevenueCompleted | inventory-backend/routes/admin.js:92 | the completed revenue is the sum over exactly the completed orders |
| Admin.AnalyticsDashboard | inventory-backend/routes/admin.js:89-160 | 403 exactly for non-admins and an answer exactly for admins; the order count; revenue over completed orders; the low-stock list is exactly the products at or below their threshold, with its length as count; at most ten top products |
| Admin.NameTop | inventory-backend/routes/admin.js:229-233 | each top entry gets the id, current name and units sold of its product; this succeeds exactly when every such product still exists |
| Admin.DashboardStatsOf | inventory-backend/routes/admin.js:203-238 | 403 exactly for non-admins; an answer exactly for admins when every top product still exists, otherwise 500 "Error fetching dashboard stats"; the order, product and user counts; revenue over all orders whatever their status; at most five top products |
| Admin.CheckoutRevenue | inventory-backend/routes/admin.js:92 | a checkout that creates an order raises both revenue figures by exactly its `totalAmount` |
| Admin.AllOrders | inventory-backend/routes/admin.js:41-54 | 403 exactly for non-admins and an answer exactly for admins; one entry per order |
| Admin.AllOrdersSound | inventory-backend/routes/admin.js:41-54 | every order appears with exactly its items, newest first, and nothing else appears |
| Admin.RecentOrders | inventory-backend/routes/admin.js:241-256 | 403 exactly for non-admins and an answer exactly for admins; the first ten of the newest-first list, or all when fewer |
| Admin.NewestUserFirstPreorder | inventory-backend/routes/admin.js:281 | newest-first on users is a total preorder |
| Admin.ListUsers | inventory-backend/routes/admin.js:277-288 | 403 exactly for non-admins and an answer exactly for admins; every user once, newest first |
| Inventory.ListProducts | inventory-backend/routes/inventory.js:9-29 | exactly the products whose name contains a truthy `search` and whose category equals a truthy `category` other than `'all'` |
| Inventory.ListAll | inventory-backend/routes/inventory.js:12-24 | no search, and no category or `'all'`, lists every product in order |
| Inventory.ListedNameHoldsSearch | inventory-backend/routes/inventory.js:14-18 | a listed product's name has the search text at some position |
| Inventory.GetProduct | inventory-backend/routes/inventory.js:32-42 | the product with that id, or 404 "Product not found" |
| Inventory.Categories | inventory-backend/routes/inventory.js:89-103 | the distinct non-null categories, each once, exactly those some product has |
| Inventory.NewProduct | inventory-backend/routes/inventory.js:45-61 | a row exists exactly when `name` and `price` are given; it carries the given name, price, description, category and image URL (absent nullable fields are NULL); absent stock and threshold take the defaults 0 and 10 |
| Inventory.Updated | inventory-backend/routes/inventory.js:71-80 | for each of the seven fields, a given value is assigned and an absent one kept |
| Inventory.UpdatedFull | inventory-backend/routes/inventory.js:71-80 | a body with every field replaces the product outright |
| Inventory.UpdatedEmpty | inventory-backend/routes/inventory.js:71-80 | an empty body changes nothing |
| Inventory.CreateProduct | inventory-backend/routes/inventory.js:45-61 | 403 for non-admins; 500 "Error creating product" without name or price; otherwise the new product is inserted under the next id and returned |
| Inventory.UpdateProduct | inventory-backend/routes/inventory.js:64-86 | 403; 404 "Product not found"; otherwise only that product changes, to `Updated` |
| Cart.Requantify | frontend/src/context/CartContext.js:33-37 | entries with that id get the new quantity; all others are kept, in place |
| Cart.AddToCart | frontend/src/context/CartContext.js:22-50 | a rejected stock update leaves the cart and reports the server's message on 400, else "Error adding item to cart"; an accepted one succeeds and raises the product's entries by the quantity (default 1), or appends a new entry when there is none |
| Cart.RemoveFromCart | frontend/src/context/CartContext.js:52-54 | exactly the entries of other products remain |
| Cart.RemoveInOrder | frontend/src/context/CartContext.js:52-54 | removal keeps the other entries in their order: a last entry stays last unless it is removed |
| Cart.Total | frontend/src/context/CartContext.js:72-74 | `getTotal`: non-negative when prices and quantities are (its other properties: `AddNewTotal`, `ClearCart`) |
| Cart.ItemCount | frontend/src/context/CartContext.js:76-78 | `getItemCount`: non-negative when quantities are (its other properties: `AddCounts`, `RemoveCounts`, `ClearCart`) |
| Cart.UpdateQuantity | frontend/src/context/CartContext.js:56-66 | a quantity of zero or less removes the product; otherwise only its entries take the new quantity |
| Cart.ClearCart | frontend/src/context/CartContext.js:68-78 | the empty cart, whose total and item count are 0 |
| Cart.AddKeepsUnique | frontend/src/context/CartContext.js:30-40 | adding keeps at most one entry per product |
| Cart.RemoveKeepsUnique | frontend/src/context/CartContext.js:52-54 | removing keeps at most one entry per product |
| Cart.UpdateKeepsUnique | frontend/src/context/CartContext.js:56-66 | updating keeps at most one entry per product |
| Cart.AddCounts | frontend/src/context/CartContext.js:30-40 | an accepted add raises the item count, and the product's held quantity, by the added quantity (default 1) |
| Cart.RequantifyCounts | frontend/src/context/CartContext.js:33-37 | raising the product's one entry by `q` adds `q` to the count and to its quantity |
| Cart.AddNewTotal | frontend/src/context/CartContext.js:39 | a new product is appended at the end, and the total grows by price times quantity |
| Cart.RemoveCounts | frontend/src/context/CartContext.js:52-54 | removing takes the product's whole quantity out of the item count and leaves none of it |
| ProductFilters.InOrderIff | frontend/src/components/ProductFilters.js:50-74 | the comparator places `a` first exactly when its key is at most `b`'s (asc) or at least `b`'s (desc) |
| ProductFilters.InOrderPreorder | frontend/src/components/ProductFilters.js:50-74 | for every key and direction the comparator is a total preorder |
| ProductFilters.FilteredProducts | frontend/src/components/ProductFilters.js:23-77 | a permutation of exactly the products matching search, category, both price bounds and the stock band, sorted by the comparator |
| ProductFilters.FilteredOrder | frontend/src/components/ProductFilters.js:50-74 | keys are non-decreasing for `asc` and non-increasing for `desc` |
| ProductFilters.SearchHit | frontend/src/components/ProductFilters.js:26-29 | a non-empty term occurs, case-folded, in the name, description or category of every shown product |
| ProductFilters.SearchIgnoresCase | frontend/src/components/ProductFilters.js:26-29 | a term and its lower-case form select the same products |
| ProductFilters.BandsNest | frontend/src/components/ProductFilters.js:41-44 | low-stock implies in-stock; in-stock and out-of-stock are disjoint and, for non-negative stock, complementary |
| ProductFilters.ClearFilters | frontend/src/components/ProductFilters.js:84-91 | search `''`, category `'all'`, empty price range, stock `'all'`, sort by name ascending |
| ProductFilters.HasActiveFilters | frontend/src/components/ProductFilters.js:93-94 | with no active filter every product matches |
| ProductFilters.ClearedInactive | frontend/src/components/ProductFilters.js:84-94 | after clearing, no filter is active |
| ProductFilters.InactiveShowsAll | frontend/src/components/ProductFilters.js:24-47 | with no active filter every product is shown |
| ProductFilters.ClearedSortsByName | frontend/src/components/ProductFilters.js:84-91 | after clearing, products are in ascending lower-cased name order |
| Sequences.SortBy | inventory-backend/routes/admin.js:43 | `ORDER BY` and `sort`: a permutation of the input, ordered by the comparator |
| Sequences.DistinctPermutation | inventory-backend/routes/admin.js:113-115 | sorting groups that are all different cannot repeat one |
| Tables.Rows | inventory-backend/routes/inventory.js:24 | `findAll` returns each stored row once, by ascending id |
| Text.ContainsIff | inventory-backend/routes/inventory.js:16 | substring search succeeds exactly when the text occurs at some position |
| Text.StrLtIsNotLe | frontend/src/components/ProductFilters.js:71-72 | string `<` is the strict part of lexicographic order |

## Left out

- HTTP and JSON. Handlers take parsed arguments and return a status and message, or a value. Bodies that are only echoed are not modelled:
  - the `bill` object;
  - the "Order created successfully" message;
  - the `unavailableProducts` reply field beyond its entries.
- JWT signing and verification are a parameter (`verify`). bcrypt and password hashes are not part of this model.
- The generic 500 branches (`catch` of a database error) are not modelled. Two are kept because they follow from the data:
  - a create without `name` or `price`;
  - a dashboard-stats top product whose row is gone.
- `salesOverTime` and `categorySales` of the analytics dashboard are left out: they are date bucketing and a join (admin.js:118-149). They run in the same `try` as the modelled figures, so their failure would turn the whole answer into a 500.
- Admin.AnalyticsDashboard, Admin.DashboardStatsOf and Admin.RecentOrders: their queries eager-load with `include` (admin.js:143, 214, 246-249). That needs the associations OrderItem→Product and Order→OrderItem. The files under `models/` declare only columns, and server.js:9-14 only imports them. The model assumes they are declared elsewhere (e.g. in `db.js`, which is not part of this model). Without them Sequelize rejects the query and these three routes answer 500 to every admin.
- Floating point is left out: prices are integer cents, and `toFixed(2)` and `parseFloat` are the identity.
- Non-numeric ids, `NaN` price bounds, and request-body values of the wrong type are not modelled.
- Status strings outside the enumerations are not modelled, so statuses are datatypes.
- Concurrency: each handler is one atomic step. Interleaved checkouts are not modelled.
- Timestamps are a `now` parameter.
- The duplicate handlers at admin.js:168-200 are not modelled separately. Express runs the first registration of a route, at admin.js:13 and admin.js:26.
- Cart persistence in `localStorage` (CartContext.js:10-20) is left out. So is the stock PATCH that `addToCart` sends: the server's reply is a parameter.
- Cart.AddToCart: the PATCH goes to `/api/inventory/:id/stock` on port 3001 (CartContext.js:25). inventory.js defines no such route, and server.js:29 listens on port 5000 by default. So in the program as written the request fails and the `Accepted` branch is not reached. The model keeps the branch, as the code does.
- The client's `{ ...product, quantity }` spread is an entry holding the product.
- ProductFilters' `priceStats` (ProductFilters.js:13-20) is display arithmetic on floats and is left out. So is all rendering.
- The seed and maintenance scripts, `server.js`, and the other pages and components are not part of this model.
- Text.ToLower: folds ASCII letters only. JavaScript's `toLowerCase` folds all of Unicode.
- Text.StrLt: compares by Unicode code point. JavaScript's `<` on strings (ProductFilters.js:71-72) compares UTF-16 code units, so the two orders differ when a character outside the Basic Multilingual Plane is compared with one in U+E000–U+FFFF.
- Inventory.ListProducts: takes `LIKE` as a case-sensitive substring test. The database's collation may fold case. `search` goes into `%${search}%` unescaped (inventory.js:16), so `%` and `_` in it act as wildcards: `"a_c"` matches `"abc"` in the code but not in the model.
- Tables.Rows: a query without `ORDER BY` is taken to return rows by ascending id. Ties under an `ORDER BY` keep that order (the sort is stable). SQL promises neither.
- Admin.TopSellersSound: groups are formed in order of first appearance, and groups with equal sums keep that order. SQL leaves the order of ties open.
- Admin.AnalyticsDashboard: its contract does not restate `topProducts`. That list is `TopSellers` over the items by product name, whose properties `TopSellersSound` states.
- Admin.DashboardStatsOf: its contract does not restate `topProducts`. That list is `NameTop` of `TopSellers` by product id.
- Orders.MyOrders: its own contract states only the length. Contents and order are in `MyOrdersSound` and `MyOrdersComplete`.
- Admin.AllOrders: its own contract states only the length. Contents and order are in `AllOrdersSound`.
