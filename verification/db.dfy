/**
 * The database the route handlers share, as one object whose tables are maps
 * from id to record, each with its auto-increment counter.
 */
module Db {
  import opened Records
  import opened Tables

  /** The value of every table and counter at one moment. */
  datatype Snapshot = Snapshot(
    products: map<nat, Product>,
    orders: map<nat, Order>,
    items: map<nat, OrderItem>,
    reports: map<nat, MissingProductReport>,
    users: map<nat, User>,
    nextProductId: nat,
    nextOrderId: nat,
    nextItemId: nat,
    nextReportId: nat,
    nextUserId: nat)

  /** The sum of the `subtotal`s of the items with id below `bound` that belong to order `oid`. */
  function ItemsTotal(items: map<nat, OrderItem>, bound: nat, oid: nat): int
  {
    if bound == 0 then 0
    else
      ItemsTotal(items, bound - 1, oid)
      + (if bound - 1 in items && items[bound - 1].orderId == oid then items[bound - 1].subtotal else 0)
  }

  /** Every id in use is below its table's counter. */
  ghost predicate IdsBelowCounters(st: Snapshot)
  {
    && (forall k :: k in st.products ==> k < st.nextProductId)
    && (forall k :: k in st.orders ==> k < st.nextOrderId)
    && (forall k :: k in st.items ==> k < st.nextItemId)
    && (forall k :: k in st.reports ==> k < st.nextReportId)
    && (forall k :: k in st.users ==> k < st.nextUserId)
  }

  /**
   * The order ledger: every item belongs to an existing order and is priced
   * `subtotal = price * quantity`, and every order's `totalAmount` is the sum
   * of its items' subtotals.
   */
  ghost predicate Ledger(st: Snapshot)
  {
    && (forall k :: k in st.items ==>
          st.items[k].orderId in st.orders && st.items[k].subtotal == st.items[k].price * st.items[k].quantity)
    && (forall o :: o in st.orders ==> st.orders[o].totalAmount == ItemsTotal(st.items, st.nextItemId, o))
  }

  ghost predicate Consistent(st: Snapshot)
  {
    IdsBelowCounters(st) && Ledger(st)
  }

  /** Tables that agree below `bound` give the same item totals. */
  lemma {:induction false} ItemsTotalFrame(m: map<nat, OrderItem>, m': map<nat, OrderItem>, bound: nat, oid: nat)
    requires forall k :: k < bound ==> (k in m <==> k in m')
    requires forall k :: k < bound && k in m ==> m[k] == m'[k]
    ensures ItemsTotal(m, bound, oid) == ItemsTotal(m', bound, oid)
  {
    if bound > 0 {
      ItemsTotalFrame(m, m', bound - 1, oid);
    }
  }

  /** An order none of whose items is below `bound` has total 0 there. */
  lemma {:induction false} ItemsTotalNone(m: map<nat, OrderItem>, bound: nat, oid: nat)
    requires forall k :: k in m ==> m[k].orderId != oid
    ensures ItemsTotal(m, bound, oid) == 0
  {
    if bound > 0 {
      ItemsTotalNone(m, bound - 1, oid);
    }
  }

  class Store {
    var products: map<nat, Product>
    var orders: map<nat, Order>
    var items: map<nat, OrderItem>
    var reports: map<nat, MissingProductReport>
    var users: map<nat, User>
    var nextProductId: nat
    var nextOrderId: nat
    var nextItemId: nat
    var nextReportId: nat
    var nextUserId: nat

    function State(): Snapshot
      reads this
    {
      Snapshot(products, orders, items, reports, users,
               nextProductId, nextOrderId, nextItemId, nextReportId, nextUserId)
    }

    ghost predicate Valid()
      reads this
    {
      Consistent(State())
    }

    /** An empty database. */
    constructor ()
      ensures Valid()
      ensures State() == Snapshot(map[], map[], map[], map[], map[], 0, 0, 0, 0, 0)
    {
      products, orders, items, reports, users := map[], map[], map[], map[], map[];
      nextProductId, nextOrderId, nextItemId, nextReportId, nextUserId := 0, 0, 0, 0, 0;
    }

    /** `Product.findAll()`: every product, by id. */
    function ProductRows(): seq<(nat, Product)>
      reads this
    {
      Rows(products, nextProductId)
    }

    function OrderRows(): seq<(nat, Order)>
      reads this
    {
      Rows(orders, nextOrderId)
    }

    function ItemRows(): seq<(nat, OrderItem)>
      reads this
    {
      Rows(items, nextItemId)
    }

    function ReportRows(): seq<(nat, MissingProductReport)>
      reads this
    {
      Rows(reports, nextReportId)
    }
  }
}
