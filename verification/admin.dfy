/**
 * The admin routes of inventory-backend/routes/admin.js. Every route runs
 * behind `authenticate, isAdmin`. The handlers below that take the verified
 * caller answer 403 unless the caller is an admin; `PendingReports`,
 * `LowStock` and `AtOrBelowThreshold` are the selections alone, and the gate
 * in front of them is `Auth.IsAdmin`. The updates are methods that take the
 * shared `Store`; the listings and the dashboard figures are functions of
 * the rows they read.
 */
module Admin {
  import opened Wrappers
  import opened Sequences
  import opened Tables
  import opened Auth
  import opened Records
  import opened Db
  import Orders

  /** `DELETE /products/:id`: 404 for an unknown id, otherwise only that product goes. */
  method DeleteProduct(db: Store, user: Claims, id: nat) returns (r: Response<string>)
    requires db.Valid()
    modifies db
    ensures db.Valid()
    ensures IsAdmin(Some(user)).Deny? ==> r == Fail(403, "Admin access required") && db.State() == old(db.State())
    ensures IsAdmin(Some(user)).Next? && id !in old(db.products) ==>
      r == Fail(404, "Product not found") && db.State() == old(db.State())
    ensures IsAdmin(Some(user)).Next? && id in old(db.products) ==>
      r == Ok("Product deleted successfully") && db.State() == old(db.State()).(products := old(db.products) - {id})
  {
    if IsAdmin(Some(user)).Deny? {
      return Fail(403, "Admin access required");
    }
    if id !in db.products {
      return Fail(404, "Product not found");
    }
    db.products := db.products - {id};
    return Ok("Product deleted successfully");
  }

  /** `PATCH /products/:id/stock`: sets `stock` to the given value and nothing else; an absent `stock` changes nothing. */
  method SetStock(db: Store, user: Claims, id: nat, stock: Field<int>) returns (r: Response<Product>)
    requires db.Valid()
    modifies db
    ensures db.Valid()
    ensures IsAdmin(Some(user)).Deny? ==> r == Fail(403, "Admin access required") && db.State() == old(db.State())
    ensures IsAdmin(Some(user)).Next? && id !in old(db.products) ==>
      r == Fail(404, "Product not found") && db.State() == old(db.State())
    ensures IsAdmin(Some(user)).Next? && id in old(db.products) && stock.Given? ==>
      && r == Ok(old(db.products)[id].(stock := stock.value))
      && db.State() == old(db.State()).(products := old(db.products)[id := old(db.products)[id].(stock := stock.value)])
    ensures IsAdmin(Some(user)).Next? && id in old(db.products) && stock.Absent? ==>
      r == Ok(old(db.products)[id]) && db.State() == old(db.State())
  {
    if IsAdmin(Some(user)).Deny? {
      return Fail(403, "Admin access required");
    }
    if id !in db.products {
      return Fail(404, "Product not found");
    }
    if stock.Absent? {
      return Ok(db.products[id]);
    }
    var product := db.products[id].(stock := stock.value);
    db.products := db.products[id := product];
    return Ok(product);
  }

  /** `PATCH /missing-products/:id`: sets the report's `status` and nothing else. */
  method SetReportStatus(db: Store, user: Claims, id: nat, status: ReportStatus) returns (r: Response<MissingProductReport>)
    requires db.Valid()
    modifies db
    ensures db.Valid()
    ensures IsAdmin(Some(user)).Deny? ==> r == Fail(403, "Admin access required") && db.State() == old(db.State())
    ensures IsAdmin(Some(user)).Next? && id !in old(db.reports) ==>
      r == Fail(404, "Report not found") && db.State() == old(db.State())
    ensures IsAdmin(Some(user)).Next? && id in old(db.reports) ==>
      && r == Ok(old(db.reports)[id].(status := status))
      && db.State() == old(db.State()).(reports := old(db.reports)[id := old(db.reports)[id].(status := status)])
  {
    if IsAdmin(Some(user)).Deny? {
      return Fail(403, "Admin access required");
    }
    if id !in db.reports {
      return Fail(404, "Report not found");
    }
    var report := db.reports[id].(status := status);
    db.reports := db.reports[id := report];
    return Ok(report);
  }

  /**
   * `PUT /orders/:id/status`: sets the order's `status` and nothing else; its
   * total and items stay as they were, so the ledger still balances.
   */
  method SetOrderStatus(db: Store, user: Claims, id: nat, status: OrderStatus) returns (r: Response<Order>)
    requires db.Valid()
    modifies db
    ensures db.Valid()
    ensures IsAdmin(Some(user)).Deny? ==> r == Fail(403, "Admin access required") && db.State() == old(db.State())
    ensures IsAdmin(Some(user)).Next? && id !in old(db.orders) ==>
      r == Fail(404, "Order not found") && db.State() == old(db.State())
    ensures IsAdmin(Some(user)).Next? && id in old(db.orders) ==>
      && r == Ok(old(db.orders)[id].(status := status))
      && db.State() == old(db.State()).(orders := old(db.orders)[id := old(db.orders)[id].(status := status)])
  {
    if IsAdmin(Some(user)).Deny? {
      return Fail(403, "Admin access required");
    }
    if id !in db.orders {
      return Fail(404, "Order not found");
    }
    var order := db.orders[id].(status := status);
    db.orders := db.orders[id := order];
    return Ok(order);
  }

  /** `DELETE /users/:id`: 404 for an unknown id, 400 for an admin account, otherwise only that user goes. */
  method DeleteUser(db: Store, user: Claims, id: nat) returns (r: Response<string>)
    requires db.Valid()
    modifies db
    ensures db.Valid()
    ensures IsAdmin(Some(user)).Deny? ==> r == Fail(403, "Admin access required") && db.State() == old(db.State())
    ensures IsAdmin(Some(user)).Next? && id !in old(db.users) ==>
      r == Fail(404, "User not found") && db.State() == old(db.State())
    ensures IsAdmin(Some(user)).Next? && id in old(db.users) && old(db.users)[id].role == Admin ==>
      r == Fail(400, "Cannot delete admin user") && db.State() == old(db.State())
    ensures IsAdmin(Some(user)).Next? && id in old(db.users) && old(db.users)[id].role != Admin ==>
      r == Ok("User deleted successfully") && db.State() == old(db.State()).(users := old(db.users) - {id})
    ensures forall k :: k in db.users && db.users[k].role == Admin ==> k in old(db.users)
    ensures forall k :: k in old(db.users) && old(db.users)[k].role == Admin ==> k in db.users
  {
    if IsAdmin(Some(user)).Deny? {
      return Fail(403, "Admin access required");
    }
    if id !in db.users {
      return Fail(404, "User not found");
    }
    if db.users[id].role == Admin {
      return Fail(400, "Cannot delete admin user");
    }
    db.users := db.users - {id};
    return Ok("User deleted successfully");
  }

  /** `findAll({ where: { status: "pending" } })`. */
  function IsPending(): ((nat, MissingProductReport)) -> bool
  {
    (row: (nat, MissingProductReport)) => row.1.status == ReportPending
  }

  /** `order: [['requestCount', 'DESC'], ['createdAt', 'DESC']]`. */
  function MostRequested(): ((nat, MissingProductReport), (nat, MissingProductReport)) -> bool
  {
    (a: (nat, MissingProductReport), b: (nat, MissingProductReport)) =>
      a.1.requestCount > b.1.requestCount || (a.1.requestCount == b.1.requestCount && a.1.createdAt >= b.1.createdAt)
  }

  lemma MostRequestedPreorder()
    ensures TotalPreorder(MostRequested())
  {
  }

  /** The kept rows are exactly the pending ones. */
  lemma PendingKept(reportRows: seq<(nat, MissingProductReport)>)
    ensures forall row :: row in Filter(reportRows, IsPending()) <==> row in reportRows && row.1.status == ReportPending
  {
    forall row
      ensures row in Filter(reportRows, IsPending()) <==> row in reportRows && row.1.status == ReportPending
    {
      assert IsPending()(row) <==> row.1.status == ReportPending;
    }
  }

  /** `GET /missing-products`: the pending reports, most requested first, newest first among equals. */
  function PendingReports(reportRows: seq<(nat, MissingProductReport)>): (r: seq<(nat, MissingProductReport)>)
    ensures forall row :: row in r <==> row in reportRows && row.1.status == ReportPending
    ensures multiset(r) == multiset(Filter(reportRows, IsPending()))
    ensures forall i, j :: 0 <= i < j < |r| ==>
      r[i].1.requestCount > r[j].1.requestCount
      || (r[i].1.requestCount == r[j].1.requestCount && r[i].1.createdAt >= r[j].1.createdAt)
  {
    MostRequestedPreorder();
    PendingKept(reportRows);
    var kept := Filter(reportRows, IsPending());
    var r := SortBy(kept, MostRequested());
    assert forall row :: row in r <==> row in multiset(r);
    assert forall row :: row in kept <==> row in multiset(kept);
    assert forall i, j :: 0 <= i < j < |r| ==> MostRequested()(r[i], r[j]);
    r
  }

  /** The fixed bound of `GET /low-stock`; it is not the product's own threshold. */
  const LowStockLimit: int := 10

  function AtMostLimit(): ((nat, Product)) -> bool
  {
    (row: (nat, Product)) => row.1.stock <= LowStockLimit
  }

  function FewestFirst(): ((nat, Product), (nat, Product)) -> bool
  {
    (a: (nat, Product), b: (nat, Product)) => a.1.stock <= b.1.stock
  }

  lemma FewestFirstPreorder()
    ensures TotalPreorder(FewestFirst())
  {
  }

  /** `GET /low-stock`: the products with at most 10 in stock, fewest first. */
  function LowStock(productRows: seq<(nat, Product)>): (r: seq<(nat, Product)>)
    ensures forall row :: row in r <==> row in productRows && row.1.stock <= LowStockLimit
    ensures multiset(r) == multiset(Filter(productRows, AtMostLimit()))
    ensures forall i, j :: 0 <= i < j < |r| ==> r[i].1.stock <= r[j].1.stock
  {
    FewestFirstPreorder();
    var kept := Filter(productRows, AtMostLimit());
    var r := SortBy(kept, FewestFirst());
    assert forall row :: row in r <==> row in multiset(r);
    assert forall row :: row in kept <==> row in multiset(kept);
    assert forall i, j :: 0 <= i < j < |r| ==> FewestFirst()(r[i], r[j]);
    r
  }

  function BelowThreshold(): ((nat, Product)) -> bool
  {
    (row: (nat, Product)) => row.1.stock <= row.1.lowStockThreshold
  }

  /** The analytics low-stock set: each product at or below its own `lowStockThreshold`, by id. */
  function AtOrBelowThreshold(productRows: seq<(nat, Product)>): (r: seq<(nat, Product)>)
    ensures forall row :: row in r <==> row in productRows && row.1.stock <= row.1.lowStockThreshold
    ensures |r| <= |productRows|
  {
    Filter(productRows, BelowThreshold())
  }

  /** One group of a `SUM(quantity)`, `SUM(subtotal)` query: its key and the two sums. */
  datatype Tally<K> = Tally(key: K, sold: int, revenue: int)

  /** The distinct keys of the items, in order of first appearance. */
  function Keys<K(==)>(items: seq<OrderItem>, key: OrderItem -> K): seq<K>
  {
    if items == [] then []
    else
      var ks := Keys(items[..|items| - 1], key);
      var k := key(items[|items| - 1]);
      if k in ks then ks else ks + [k]
  }

  /** `SUM(quantity)` over the items whose key is `k`. */
  function SoldOf<K(==)>(items: seq<OrderItem>, key: OrderItem -> K, k: K): int
  {
    if items == [] then 0
    else SoldOf(items[..|items| - 1], key, k) + (if key(items[|items| - 1]) == k then items[|items| - 1].quantity else 0)
  }

  /** `SUM(subtotal)` over the items whose key is `k`. */
  function RevenueOf<K(==)>(items: seq<OrderItem>, key: OrderItem -> K, k: K): int
  {
    if items == [] then 0
    else RevenueOf(items[..|items| - 1], key, k) + (if key(items[|items| - 1]) == k then items[|items| - 1].subtotal else 0)
  }

  /** `group: [key]` with the two sums: one group per distinct key. */
  function Group<K(==)>(items: seq<OrderItem>, key: OrderItem -> K): (g: seq<Tally<K>>)
    ensures |g| == |Keys(items, key)|
    ensures forall i :: 0 <= i < |g| ==>
      g[i] == Tally(Keys(items, key)[i], SoldOf(items, key, Keys(items, key)[i]), RevenueOf(items, key, Keys(items, key)[i]))
  {
    var ks := Keys(items, key);
    seq(|ks|, i requires 0 <= i < |ks| => Tally(ks[i], SoldOf(items, key, ks[i]), RevenueOf(items, key, ks[i])))
  }

  /** No key is grouped twice. */
  lemma {:induction false} KeysDistinct<K(!new)>(items: seq<OrderItem>, key: OrderItem -> K)
    ensures forall i, j :: 0 <= i < j < |Keys(items, key)| ==> Keys(items, key)[i] != Keys(items, key)[j]
  {
    if items != [] {
      var init := items[..|items| - 1];
      KeysDistinct(init, key);
      var ks0, k := Keys(init, key), key(items[|items| - 1]);
      if k !in ks0 {
        var ks := ks0 + [k];
        assert Keys(items, key) == ks;
        forall i, j | 0 <= i < j < |ks| ensures ks[i] != ks[j] {
          assert ks[i] == ks0[i] && ks0[i] in ks0;
          if j < |ks0| {
            assert ks[j] == ks0[j];
          }
        }
      }
    }
  }

  /** There is a group for exactly the keys that occur among the items. */
  lemma {:induction false} KeysCover<K(!new)>(items: seq<OrderItem>, key: OrderItem -> K)
    ensures forall k :: k in Keys(items, key) <==> exists x :: x in items && key(x) == k
  {
    if items != [] {
      var init, x := items[..|items| - 1], items[|items| - 1];
      KeysCover(init, key);
      assert items == init + [x];
      assert forall y :: y in items <==> y in init || y == x;
    }
  }

  function MostSold<K(!new)>(): (Tally<K>, Tally<K>) -> bool
  {
    (a: Tally<K>, b: Tally<K>) => a.sold >= b.sold
  }

  lemma MostSoldPreorder<K(!new)>()
    ensures TotalPreorder(MostSold<K>())
  {
  }

  /** `order: [[SUM(quantity), 'DESC']], limit: n` over the groups. */
  function TopSellers<K(==,!new)>(items: seq<OrderItem>, key: OrderItem -> K, n: nat): (top: seq<Tally<K>>)
    ensures |top| == if |Group(items, key)| < n then |Group(items, key)| else n
  {
    MostSoldPreorder<K>();
    Take(SortBy(Group(items, key), MostSold<K>()), n)
  }

  /** No two groups share a key, so no group occurs twice. */
  lemma GroupDistinct<K(!new)>(items: seq<OrderItem>, key: OrderItem -> K)
    ensures Distinct(Group(items, key))
    ensures forall t, u :: t in Group(items, key) && u in Group(items, key) && t.key == u.key ==> t == u
  {
    var g := Group(items, key);
    KeysDistinct(items, key);
    forall i, j | 0 <= i < j < |g| ensures g[i] != g[j] {
      assert g[i].key == Keys(items, key)[i] && g[j].key == Keys(items, key)[j];
    }
  }

  /** The kept groups have pairwise different keys. */
  lemma TopKeysDistinct<K(!new)>(items: seq<OrderItem>, key: OrderItem -> K, n: nat)
    ensures var top := TopSellers(items, key, n);
      forall i, j :: 0 <= i < j < |top| ==> top[i].key != top[j].key
  {
    MostSoldPreorder<K>();
    var g := Group(items, key);
    var sorted := SortBy(g, MostSold<K>());
    var top := TopSellers(items, key, n);
    assert top == sorted[..|top|];
    GroupDistinct(items, key);
    DistinctPermutation(g, sorted);
    forall i, j | 0 <= i < j < |top| ensures top[i].key != top[j].key {
      assert top[i] == sorted[i] && top[j] == sorted[j];
      assert top[i] in multiset(sorted) && top[j] in multiset(sorted);
    }
  }

  /**
   * The first `n` groups, or all of them when there are fewer, best-selling
   * first, each a true group and each key once; and no group left out sold
   * more than one that was kept.
   */
  lemma TopSellersSound<K(!new)>(items: seq<OrderItem>, key: OrderItem -> K, n: nat)
    ensures var top := TopSellers(items, key, n);
      && |top| == (if |Group(items, key)| < n then |Group(items, key)| else n)
      && (forall i, j :: 0 <= i < j < |top| ==> top[i].key != top[j].key)
      && (forall i, j :: 0 <= i < j < |top| ==> top[i].sold >= top[j].sold)
      && (forall t :: t in top ==> t in Group(items, key))
      && (forall t, u :: t in Group(items, key) && t !in top && u in top ==> u.sold >= t.sold)
  {
    MostSoldPreorder<K>();
    var g := Group(items, key);
    var sorted := SortBy(g, MostSold<K>());
    var top := TopSellers(items, key, n);
    assert top == sorted[..|top|];
    forall i, j | 0 <= i < j < |top| ensures top[i].sold >= top[j].sold {
      assert MostSold<K>()(sorted[i], sorted[j]);
    }
    forall t | t in top ensures t in g {
      assert t in multiset(sorted);
    }
    TopKeysDistinct(items, key, n);
    forall t, u | t in g && t !in top && u in top ensures u.sold >= t.sold {
      assert t in multiset(sorted);
      var i :| 0 <= i < |sorted| && sorted[i] == t;
      var j :| 0 <= j < |top| && top[j] == u;
      assert i >= |top|;
      assert MostSold<K>()(sorted[j], sorted[i]);
    }
  }

  function ItemName(): OrderItem -> string
  {
    (x: OrderItem) => x.productName
  }

  function ItemProduct(): OrderItem -> nat
  {
    (x: OrderItem) => x.productId
  }

  /** The sum of `totalAmount` over the orders, or over the completed ones only. */
  function Revenue(orderRows: seq<(nat, Order)>, completedOnly: bool): (sum: int)
    ensures (forall i :: 0 <= i < |orderRows| ==> orderRows[i].1.totalAmount >= 0) ==> sum >= 0
  {
    if orderRows == [] then 0
    else
      var last := orderRows[|orderRows| - 1].1;
      Revenue(orderRows[..|orderRows| - 1], completedOnly)
      + (if !completedOnly || last.status == Completed then last.totalAmount else 0)
  }

  lemma RevenueSnoc(orderRows: seq<(nat, Order)>, row: (nat, Order), completedOnly: bool)
    ensures Revenue(orderRows + [row], completedOnly)
         == Revenue(orderRows, completedOnly) + (if !completedOnly || row.1.status == Completed then row.1.totalAmount else 0)
  {
    assert (orderRows + [row])[..|orderRows|] == orderRows;
  }

  function IsCompleted(): ((nat, Order)) -> bool
  {
    (row: (nat, Order)) => row.1.status == Completed
  }

  /** The completed revenue is the plain sum over the completed orders alone. */
  lemma {:induction false} RevenueCompleted(orderRows: seq<(nat, Order)>)
    ensures Revenue(orderRows, true) == Revenue(Filter(orderRows, IsCompleted()), false)
  {
    if orderRows != [] {
      var init, last := orderRows[..|orderRows| - 1], orderRows[|orderRows| - 1];
      RevenueCompleted(init);
      assert orderRows == init + [last];
      FilterSnoc(init, last, IsCompleted());
      RevenueSnoc(Filter(init, IsCompleted()), last, false);
      assert IsCompleted()(last) <==> last.1.status == Completed;
      assert Revenue(orderRows, true) == Revenue(init, true) + (if last.1.status == Completed then last.1.totalAmount else 0);
      if IsCompleted()(last) {
        assert Filter(orderRows, IsCompleted()) == Filter(init, IsCompleted()) + [last];
      } else {
        assert Filter(orderRows, IsCompleted()) == Filter(init, IsCompleted());
      }
    }
  }

  /** `summary` of `GET /analytics/dashboard`. */
  datatype Analytics = Analytics(
    totalRevenue: int,
    totalOrders: nat,
    lowStockCount: nat,
    lowStockProducts: seq<(nat, Product)>,
    topProducts: seq<Tally<string>>)

  /**
   * `GET /analytics/dashboard`: completed revenue, the order count, the
   * products at or below their threshold and their count, and the ten
   * best-selling product names.
   */
  function AnalyticsDashboard(st: Snapshot, user: Claims): (r: Response<Analytics>)
    ensures IsAdmin(Some(user)).Deny? <==> r == Fail(403, "Admin access required")
    ensures r.Ok? <==> IsAdmin(Some(user)).Next?
    ensures r.Ok? ==> r.value.lowStockCount == |r.value.lowStockProducts|
    ensures r.Ok? ==> forall row :: row in r.value.lowStockProducts <==>
      row.0 < st.nextProductId && row.0 in st.products && st.products[row.0] == row.1 && row.1.stock <= row.1.lowStockThreshold
    ensures r.Ok? ==> r.value.totalOrders == |st.orders|
    ensures r.Ok? ==> r.value.totalRevenue == Revenue(Rows(st.orders, st.nextOrderId), true)
    ensures r.Ok? ==> |r.value.topProducts| <= 10
  {
    if IsAdmin(Some(user)).Deny? then Fail(403, "Admin access required")
    else
      var low := AtOrBelowThreshold(Rows(st.products, st.nextProductId));
      Ok(Analytics(Revenue(Rows(st.orders, st.nextOrderId), true), |st.orders|, |low|, low,
                   TopSellers(ItemValues(Rows(st.items, st.nextItemId)), ItemName(), 10)))
  }

  /** The records of a list of rows, ids dropped. */
  function ItemValues(rows: seq<(nat, OrderItem)>): (r: seq<OrderItem>)
    ensures |r| == |rows| && forall i :: 0 <= i < |rows| ==> r[i] == rows[i].1
  {
    seq(|rows|, i requires 0 <= i < |rows| => rows[i].1)
  }

  /** An entry of `topProducts` in `GET /dashboard-stats`. */
  datatype TopProduct = TopProduct(id: nat, name: string, totalSold: int)

  datatype DashboardStats = DashboardStats(
    totalOrders: nat,
    totalProducts: nat,
    totalRevenue: int,
    totalUsers: nat,
    topProducts: seq<TopProduct>)

  /** `item.Product.name` for each of the top groups; a group whose product is gone fails the request. */
  function NameTop(products: map<nat, Product>, top: seq<Tally<nat>>): (r: Option<seq<TopProduct>>)
    ensures r.Some? <==> forall t :: t in top ==> t.key in products
    ensures r.Some? ==> |r.value| == |top| && forall i :: 0 <= i < |top| ==>
      r.value[i] == TopProduct(top[i].key, products[top[i].key].name, top[i].sold)
  {
    if top == [] then Some([])
    else
      var last := top[|top| - 1];
      var init := NameTop(products, top[..|top| - 1]);
      assert forall t :: t in top <==> t in top[..|top| - 1] || t == last by {
        assert top == top[..|top| - 1] + [last];
      }
      if init.None? || last.key !in products then None
      else Some(init.value + [TopProduct(last.key, products[last.key].name, last.sold)])
  }

  /**
   * `GET /dashboard-stats`: the order, product and user counts, the revenue
   * over all orders whatever their status, and the five best-selling
   * products by id with their current names.
   */
  function DashboardStatsOf(st: Snapshot, user: Claims): (r: Response<DashboardStats>)
    ensures IsAdmin(Some(user)).Deny? <==> r == Fail(403, "Admin access required")
    ensures r.Ok? <==>
      IsAdmin(Some(user)).Next? && NameTop(st.products, TopSellers(ItemValues(Rows(st.items, st.nextItemId)), ItemProduct(), 5)).Some?
    ensures IsAdmin(Some(user)).Next? && !r.Ok? ==> r == Fail(500, "Error fetching dashboard stats")
    ensures r.Ok? ==> r.value.totalOrders == |st.orders| && r.value.totalProducts == |st.products|
                      && r.value.totalUsers == |st.users| && |r.value.topProducts| <= 5
    ensures r.Ok? ==> r.value.totalRevenue == Revenue(Rows(st.orders, st.nextOrderId), false)
  {
    if IsAdmin(Some(user)).Deny? then Fail(403, "Admin access required")
    else
      var top := TopSellers(ItemValues(Rows(st.items, st.nextItemId)), ItemProduct(), 5);
      var named := NameTop(st.products, top);
      if named.None? then Fail(500, "Error fetching dashboard stats")
      else Ok(DashboardStats(|st.orders|, |st.products|, Revenue(Rows(st.orders, st.nextOrderId), false),
                             |st.users|, named.value))
  }

  /**
   * A checkout that places an order raises the completed revenue, and the
   * revenue over all orders, by exactly the new order's total.
   */
  lemma CheckoutRevenue(st: Snapshot, user: Claims, lines: seq<Orders.CartLine>, now: nat, completedOnly: bool)
    requires Consistent(st)
    requires Orders.CheckoutEffect(st, user, lines, now).1.Created?
    ensures Revenue(Rows(Orders.CheckoutEffect(st, user, lines, now).0.orders, st.nextOrderId + 1), completedOnly)
         == Revenue(Rows(st.orders, st.nextOrderId), completedOnly) + Orders.CheckoutEffect(st, user, lines, now).1.order.totalAmount
  {
    var r := Orders.CheckoutEffect(st, user, lines, now);
    RowsInsert(st.orders, st.nextOrderId, r.1.order);
    RevenueSnoc(Rows(st.orders, st.nextOrderId), (st.nextOrderId, r.1.order), completedOnly);
  }

  /** `GET /orders`: every order, newest first, each with its items. */
  function AllOrders(orderRows: seq<(nat, Order)>, itemRows: seq<(nat, OrderItem)>, user: Claims): (r: Response<seq<Orders.OrderView>>)
    ensures IsAdmin(Some(user)).Deny? <==> r == Fail(403, "Admin access required")
    ensures r.Ok? <==> IsAdmin(Some(user)).Next?
    ensures r.Ok? ==> |r.value| == |orderRows|
  {
    if IsAdmin(Some(user)).Deny? then Fail(403, "Admin access required")
    else
      Orders.NewestFirstPreorder();
      var sorted := SortBy(orderRows, Orders.NewestFirst());
      Ok(seq(|sorted|, i requires 0 <= i < |sorted| => Orders.ViewOf(itemRows, sorted[i])))
  }

  /**
   * The admin listing holds exactly the orders, each once per row, with
   * exactly its items, newest first.
   */
  lemma AllOrdersSound(orderRows: seq<(nat, Order)>, itemRows: seq<(nat, OrderItem)>, user: Claims)
    requires IsAdmin(Some(user)).Next?
    ensures forall v :: v in AllOrders(orderRows, itemRows, user).value ==>
      (v.orderId, v.order) in orderRows && v.items == Orders.ItemsOf(itemRows, v.orderId)
    ensures forall row :: row in orderRows ==>
      exists v :: v in AllOrders(orderRows, itemRows, user).value && (v.orderId, v.order) == row
    ensures var vs := AllOrders(orderRows, itemRows, user).value;
      forall i, j :: 0 <= i < j < |vs| ==> vs[i].order.createdAt >= vs[j].order.createdAt
  {
    Orders.NewestFirstPreorder();
    var sorted := SortBy(orderRows, Orders.NewestFirst());
    var vs := AllOrders(orderRows, itemRows, user).value;
    forall v | v in vs ensures (v.orderId, v.order) in orderRows && v.items == Orders.ItemsOf(itemRows, v.orderId) {
      var i :| 0 <= i < |vs| && vs[i] == v;
      assert sorted[i] in multiset(sorted);
    }
    forall row | row in orderRows ensures exists v :: v in vs && (v.orderId, v.order) == row {
      assert row in multiset(sorted);
      var i :| 0 <= i < |sorted| && sorted[i] == row;
      assert vs[i] in vs;
    }
    forall i, j | 0 <= i < j < |vs| ensures vs[i].order.createdAt >= vs[j].order.createdAt {
      assert Orders.NewestFirst()(sorted[i], sorted[j]);
    }
  }

  /** `GET /recent-orders`: the first ten of the newest-first listing. */
  function RecentOrders(orderRows: seq<(nat, Order)>, itemRows: seq<(nat, OrderItem)>, user: Claims): (r: Response<seq<Orders.OrderView>>)
    ensures IsAdmin(Some(user)).Deny? <==> r == Fail(403, "Admin access required")
    ensures r.Ok? <==> IsAdmin(Some(user)).Next?
    ensures r.Ok? ==> |r.value| <= 10 && r.value <= AllOrders(orderRows, itemRows, user).value
    ensures r.Ok? ==> |r.value| == if |orderRows| < 10 then |orderRows| else 10
  {
    var all := AllOrders(orderRows, itemRows, user);
    if all.Fail? then all else Ok(Take(all.value, 10))
  }

  function NewestUserFirst(): ((nat, User), (nat, User)) -> bool
  {
    (a: (nat, User), b: (nat, User)) => a.1.createdAt >= b.1.createdAt
  }

  lemma NewestUserFirstPreorder()
    ensures TotalPreorder(NewestUserFirst())
  {
  }

  /** `GET /users`: every account, newest first (the password column is not part of the model). */
  function ListUsers(userRows: seq<(nat, User)>, user: Claims): (r: Response<seq<(nat, User)>>)
    ensures IsAdmin(Some(user)).Deny? <==> r == Fail(403, "Admin access required")
    ensures r.Ok? <==> IsAdmin(Some(user)).Next?
    ensures r.Ok? ==> multiset(r.value) == multiset(userRows)
    ensures r.Ok? ==> forall i, j :: 0 <= i < j < |r.value| ==> r.value[i].1.createdAt >= r.value[j].1.createdAt
  {
    if IsAdmin(Some(user)).Deny? then Fail(403, "Admin access required")
    else
      NewestUserFirstPreorder();
      var sorted := SortBy(userRows, NewestUserFirst());
      assert forall i, j :: 0 <= i < j < |sorted| ==> NewestUserFirst()(sorted[i], sorted[j]);
      Ok(sorted)
  }
}
