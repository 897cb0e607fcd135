/**
 * The order routes of inventory-backend/routes/orders.js: checkout
 * (`POST /`), the caller's order history (`GET /my-orders`) and one order
 * (`GET /:id`). Requests reach these handlers only after `authenticate`
 * succeeded, so each takes the verified user.
 */
module Orders {
  import opened Wrappers
  import opened Sequences
  import opened Tables
  import opened Auth
  import opened Records
  import opened Db

  /** One entry of the request body's `items`. */
  datatype CartLine = CartLine(productId: nat, quantity: int)

  /** An entry of the reply's `unavailableProducts`. */
  datatype Unavailable = Unavailable(productName: string, requestedQuantity: int, availableStock: int)

  /** An entry of `orderItems`: a fulfilled line, priced from the product as it was read. */
  datatype Staged = Staged(productId: nat, productName: string, quantity: int, price: int, subtotal: int)

  /**
   * What the availability loop has gathered so far: the fulfilled lines, the
   * short ones, and the product id that aborted it, if any.
   */
  datatype Scan = Scan(staged: seq<Staged>, unavailable: seq<Unavailable>, missing: Option<nat>)

  datatype CheckoutOutcome =
    | Forbidden                                          // 403 "Customer access required"
    | ProductNotFound(productId: nat)                    // 404 "Product <id> not found"
    | NothingAvailable(unavailable: seq<Unavailable>)    // 400 "No products available for order"
    | Created(orderId: nat, order: Order, items: seq<OrderItem>, unavailable: seq<Unavailable>)  // 201

  /** The product exists and its stock covers the requested quantity. */
  predicate Fulfillable(products: map<nat, Product>, line: CartLine)
  {
    line.productId in products && line.quantity <= products[line.productId].stock
  }

  function FulfillableIn(products: map<nat, Product>): CartLine -> bool
  {
    line => Fulfillable(products, line)
  }

  function ShortIn(products: map<nat, Product>): CartLine -> bool
  {
    line => !Fulfillable(products, line)
  }

  function StageLine(products: map<nat, Product>, line: CartLine): Staged
    requires line.productId in products
  {
    var p := products[line.productId];
    Staged(line.productId, p.name, line.quantity, p.price, p.price * line.quantity)
  }

  function ShortLine(products: map<nat, Product>, line: CartLine): Unavailable
    requires line.productId in products
  {
    var p := products[line.productId];
    Unavailable(p.name, line.quantity, p.stock)
  }

  /** One turn of the availability loop. */
  function ScanStep(products: map<nat, Product>, sc: Scan, line: CartLine): Scan
  {
    if sc.missing.Some? then sc
    else if line.productId !in products then sc.(missing := Some(line.productId))
    else if products[line.productId].stock < line.quantity then
      sc.(unavailable := sc.unavailable + [ShortLine(products, line)])
    else
      sc.(staged := sc.staged + [StageLine(products, line)])
  }

  /** What a staged line carries: its product's name and price as read, a quantity the stock covers, and `subtotal = price * quantity`. */
  ghost predicate StagedFrom(products: map<nat, Product>, s: Staged)
  {
    && s.productId in products
    && s.productName == products[s.productId].name
    && s.price == products[s.productId].price
    && s.quantity <= products[s.productId].stock
    && s.subtotal == s.price * s.quantity
  }

  /** The availability loop over the cart lines, in order. */
  function ScanLines(products: map<nat, Product>, lines: seq<CartLine>): Scan
  {
    if lines == [] then Scan([], [], None)
    else ScanStep(products, ScanLines(products, lines[..|lines| - 1]), lines[|lines| - 1])
  }

  /**
   * Every staged line is priced from its product and covered by its stock;
   * every unavailable entry asked for more than the stock it reports.
   */
  lemma {:induction false} ScanLinesShape(products: map<nat, Product>, lines: seq<CartLine>)
    ensures forall s :: s in ScanLines(products, lines).staged ==> StagedFrom(products, s)
    ensures forall u :: u in ScanLines(products, lines).unavailable ==> u.availableStock < u.requestedQuantity
  {
    if lines != [] {
      ScanLinesShape(products, lines[..|lines| - 1]);
    }
  }

  /** The loop's next turn. */
  lemma ScanLinesStep(products: map<nat, Product>, lines: seq<CartLine>, i: nat)
    requires i < |lines|
    ensures ScanLines(products, lines[..i + 1]) == ScanStep(products, ScanLines(products, lines[..i]), lines[i])
  {
    assert lines[..i + 1][..i] == lines[..i];
  }

  function StageAll(products: map<nat, Product>, lines: seq<CartLine>): seq<Staged>
    requires forall l :: l in lines ==> l.productId in products
  {
    if lines == [] then []
    else StageAll(products, lines[..|lines| - 1]) + [StageLine(products, lines[|lines| - 1])]
  }

  function ShortAll(products: map<nat, Product>, lines: seq<CartLine>): seq<Unavailable>
    requires forall l :: l in lines ==> l.productId in products
  {
    if lines == [] then []
    else ShortAll(products, lines[..|lines| - 1]) + [ShortLine(products, lines[|lines| - 1])]
  }

  /**
   * When every product exists, the loop does not abort, the staged lines are
   * exactly the lines whose stock covers them, in cart order, and the
   * unavailable entries are exactly the other lines, in cart order.
   */
  lemma {:induction false} ScanPartition(products: map<nat, Product>, lines: seq<CartLine>)
    requires forall l :: l in lines ==> l.productId in products
    ensures ScanLines(products, lines).missing == None
    ensures ScanLines(products, lines).staged == StageAll(products, Filter(lines, FulfillableIn(products)))
    ensures ScanLines(products, lines).unavailable == ShortAll(products, Filter(lines, ShortIn(products)))
  {
    if lines != [] {
      var init, last := lines[..|lines| - 1], lines[|lines| - 1];
      assert lines == init + [last];
      ScanPartition(products, init);
      FilterSnoc(init, last, FulfillableIn(products));
      FilterSnoc(init, last, ShortIn(products));
      var f := Filter(init, FulfillableIn(products));
      var g := Filter(init, ShortIn(products));
      if Fulfillable(products, last) {
        assert (f + [last])[..|f|] == f;
        assert Filter(lines, ShortIn(products)) == g;
      } else {
        assert (g + [last])[..|g|] == g;
        assert Filter(lines, FulfillableIn(products)) == f;
      }
    }
  }

  /** Once the loop has aborted it stays aborted: later lines change nothing. */
  lemma {:induction false} ScanStops(products: map<nat, Product>, lines: seq<CartLine>, i: nat)
    requires i <= |lines|
    requires ScanLines(products, lines[..i]).missing.Some?
    ensures ScanLines(products, lines) == ScanLines(products, lines[..i])
    decreases |lines| - i
  {
    if i == |lines| {
      assert lines[..i] == lines;
    } else {
      var init := lines[..|lines| - 1];
      assert init[..i] == lines[..i];
      ScanStops(products, init, i);
    }
  }

  /**
   * The first line whose product is missing decides the outcome: the loop
   * aborts there with that id, keeping what the earlier lines gathered.
   */
  lemma ScanFirstMissing(products: map<nat, Product>, lines: seq<CartLine>, i: nat)
    requires i < |lines| && lines[i].productId !in products
    requires forall j :: 0 <= j < i ==> lines[j].productId in products
    ensures ScanLines(products, lines) == ScanLines(products, lines[..i]).(missing := Some(lines[i].productId))
  {
    assert forall l :: l in lines[..i] ==> l.productId in products;
    ScanPartition(products, lines[..i]);
    assert lines[..i + 1][..i] == lines[..i];
    ScanStops(products, lines, i + 1);
  }

  /** The total quantity the staged lines take from product `id`. */
  function QuantityFor(staged: seq<Staged>, id: nat): int
  {
    if staged == [] then 0
    else
      QuantityFor(staged[..|staged| - 1], id)
      + (if staged[|staged| - 1].productId == id then staged[|staged| - 1].quantity else 0)
  }

  /** The stock loop: each staged line lowers its product's stock by its quantity. */
  function Decrement(products: map<nat, Product>, staged: seq<Staged>): map<nat, Product>
  {
    if staged == [] then products
    else Lower(Decrement(products, staged[..|staged| - 1]), staged[|staged| - 1])
  }

  /** One turn of the stock loop: `product.stock -= quantity`. */
  function Lower(products: map<nat, Product>, s: Staged): map<nat, Product>
  {
    if s.productId in products then
      products[s.productId := products[s.productId].(stock := products[s.productId].stock - s.quantity)]
    else products
  }

  lemma {:induction false} DecrementKeys(products: map<nat, Product>, staged: seq<Staged>)
    ensures Decrement(products, staged).Keys == products.Keys
  {
    if staged != [] {
      DecrementKeys(products, staged[..|staged| - 1]);
    }
  }

  /**
   * The stock loop changes only `stock`, and lowers each product's stock by
   * exactly the total quantity the staged lines take from it; a product no
   * staged line names keeps its stock.
   */
  lemma {:induction false} DecrementStock(products: map<nat, Product>, staged: seq<Staged>, id: nat)
    requires id in products
    ensures id in Decrement(products, staged)
    ensures Decrement(products, staged)[id] == products[id].(stock := products[id].stock - QuantityFor(staged, id))
  {
    if staged != [] {
      DecrementKeys(products, staged[..|staged| - 1]);
      DecrementStock(products, staged[..|staged| - 1], id);
    }
  }

  lemma {:induction false} QuantityForAbsent(staged: seq<Staged>, id: nat)
    requires forall s :: s in staged ==> s.productId != id
    ensures QuantityFor(staged, id) == 0
  {
    if staged != [] {
      QuantityForAbsent(staged[..|staged| - 1], id);
    }
  }

  lemma DecrementStep(products: map<nat, Product>, staged: seq<Staged>, j: nat)
    requires j < |staged|
    ensures Lower(Decrement(products, staged[..j]), staged[j]) == Decrement(products, staged[..j + 1])
  {
    assert staged[..j + 1][..j] == staged[..j];
  }

  /** `totalAmount`: the sum of the staged subtotals. */
  function Total(staged: seq<Staged>): int
  {
    if staged == [] then 0 else Total(staged[..|staged| - 1]) + staged[|staged| - 1].subtotal
  }

  lemma TotalSnoc(staged: seq<Staged>, s: Staged)
    ensures Total(staged + [s]) == Total(staged) + s.subtotal
  {
    assert (staged + [s])[..|staged|] == staged;
  }

  function ItemOf(orderId: nat, s: Staged): OrderItem
  {
    OrderItem(orderId, s.productId, s.productName, s.quantity, s.price, s.subtotal)
  }

  function ItemsFor(orderId: nat, staged: seq<Staged>): (r: seq<OrderItem>)
    ensures |r| == |staged|
  {
    if staged == [] then []
    else ItemsFor(orderId, staged[..|staged| - 1]) + [ItemOf(orderId, staged[|staged| - 1])]
  }

  /** Item `j` of a new order is staged line `j`, with the order's id. */
  lemma {:induction false} ItemsForAt(orderId: nat, staged: seq<Staged>, j: nat)
    requires j < |staged|
    ensures ItemsFor(orderId, staged)[j] == ItemOf(orderId, staged[j])
  {
    if j < |staged| - 1 {
      ItemsForAt(orderId, staged[..|staged| - 1], j);
    }
  }

  lemma ItemsStep(items: map<nat, OrderItem>, next: nat, orderId: nat, staged: seq<Staged>, j: nat)
    requires j < |staged|
    ensures Append(items, next, ItemsFor(orderId, staged[..j]))[next + j := ItemOf(orderId, staged[j])]
         == Append(items, next, ItemsFor(orderId, staged[..j + 1]))
  {
    assert staged[..j + 1][..j] == staged[..j];
    AppendSnoc(items, next, ItemsFor(orderId, staged[..j]), ItemOf(orderId, staged[j]));
  }

  /** The report a short line files: the shortfall, tagged with the caller. */
  function ReportFor(user: Claims, now: nat, u: Unavailable): MissingProductReport
  {
    MissingProductReport(u.productName, u.requestedQuantity - u.availableStock, user.id, user.email,
                         ReportPending, DefaultRequestCount, now)
  }

  function ReportsFor(user: Claims, now: nat, us: seq<Unavailable>): (r: seq<MissingProductReport>)
    ensures |r| == |us|
  {
    if us == [] then []
    else ReportsFor(user, now, us[..|us| - 1]) + [ReportFor(user, now, us[|us| - 1])]
  }

  lemma ReportsStep(reports: map<nat, MissingProductReport>, next: nat, user: Claims, now: nat,
                    us: seq<Unavailable>, u: Unavailable)
    ensures Append(reports, next, ReportsFor(user, now, us))[next + |us| := ReportFor(user, now, u)]
         == Append(reports, next, ReportsFor(user, now, us + [u]))
  {
    assert (us + [u])[..|us|] == us;
    AppendSnoc(reports, next, ReportsFor(user, now, us), ReportFor(user, now, u));
  }

  /**
   * Every new report carries the shortfall `requestedQuantity - availableStock`
   * (positive), the caller's id and email, status pending and a count of one.
   */
  lemma {:induction false} ReportsForShape(user: Claims, now: nat, us: seq<Unavailable>)
    requires forall u :: u in us ==> u.availableStock < u.requestedQuantity
    ensures forall r :: r in ReportsFor(user, now, us) ==>
      r.customerId == user.id && r.customerName == user.email && r.status == ReportPending
      && r.requestCount == DefaultRequestCount && r.requestedQuantity > 0
  {
    if us != [] {
      ReportsForShape(user, now, us[..|us| - 1]);
      assert us[|us| - 1] in us;
    }
  }

  /** The database after the availability loop: one report per short line. */
  function Reported(st: Snapshot, user: Claims, now: nat, us: seq<Unavailable>): Snapshot
  {
    st.(reports := Append(st.reports, st.nextReportId, ReportsFor(user, now, us)),
        nextReportId := st.nextReportId + |us|)
  }

  /** The order `POST /` writes: the caller's, completed, totalling the fulfilled lines. */
  function NewOrder(user: Claims, now: nat, staged: seq<Staged>): Order
  {
    Order(user.id, Total(staged), Completed, user.email, user.email, now)
  }

  /** The database after the order, its items and the stock decrements are written. */
  function Placed(st: Snapshot, user: Claims, now: nat, staged: seq<Staged>): Snapshot
  {
    Written(st.(orders := st.orders[st.nextOrderId := NewOrder(user, now, staged)], nextOrderId := st.nextOrderId + 1),
            st.nextOrderId, staged)
  }

  /** The database after the write loop: one item per staged line, and the stock decrements. */
  function Written(st: Snapshot, orderId: nat, staged: seq<Staged>): Snapshot
  {
    st.(items := Append(st.items, st.nextItemId, ItemsFor(orderId, staged)),
        nextItemId := st.nextItemId + |staged|,
        products := Decrement(st.products, staged))
  }

  /**
   * The effect of `POST /` for a caller who passed `isCustomer`, at time
   * `now`: the new database and the reply. Reports for short lines are
   * written in every outcome; a 404 or 400 writes nothing else.
   */
  function CheckoutEffect(st: Snapshot, user: Claims, lines: seq<CartLine>, now: nat): (r: (Snapshot, CheckoutOutcome))
    ensures r.0.reports == Append(st.reports, st.nextReportId, ReportsFor(user, now, ScanLines(st.products, lines).unavailable))
    ensures !r.1.Created? ==>
      r.0.orders == st.orders && r.0.items == st.items && r.0.products == st.products
    ensures r.1.ProductNotFound? ==> r.1.productId !in st.products
    ensures r.1.NothingAvailable? ==> forall l :: l in lines ==> l.productId in st.products && !Fulfillable(st.products, l)
    ensures r.1.Created? ==>
      && r.1.orderId == st.nextOrderId
      && r.0.orders == st.orders[r.1.orderId := r.1.order]
      && r.1.order.userId == user.id && r.1.order.status == Completed
      && r.1.order.customerName == user.email && r.1.order.customerEmail == user.email
      && r.0.products.Keys == st.products.Keys
    ensures r.1 != Forbidden
  {
    var sc := ScanLines(st.products, lines);
    var reported := Reported(st, user, now, sc.unavailable);
    if sc.missing.Some? then
      ScanMissing(st.products, lines);
      (reported, ProductNotFound(sc.missing.value))
    else if sc.staged == [] then
      ScanNone(st.products, lines);
      (reported, NothingAvailable(sc.unavailable))
    else
      DecrementKeys(st.products, sc.staged);
      (Placed(reported, user, now, sc.staged),
       Created(st.nextOrderId, NewOrder(user, now, sc.staged), ItemsFor(st.nextOrderId, sc.staged), sc.unavailable))
  }

  /** The loop aborts only on a product that does not exist. */
  lemma {:induction false} ScanMissing(products: map<nat, Product>, lines: seq<CartLine>)
    ensures ScanLines(products, lines).missing.Some? ==> ScanLines(products, lines).missing.value !in products
  {
    if lines != [] {
      ScanMissing(products, lines[..|lines| - 1]);
    }
  }

  /** The loop ends with nothing staged and no abort only when every line names a product whose stock falls short. */
  lemma {:induction false} ScanNone(products: map<nat, Product>, lines: seq<CartLine>)
    requires ScanLines(products, lines).missing.None? && ScanLines(products, lines).staged == []
    ensures forall l :: l in lines ==> l.productId in products && !Fulfillable(products, l)
  {
    if lines != [] {
      var init := lines[..|lines| - 1];
      assert lines == init + [lines[|lines| - 1]];
      ScanNone(products, init);
    }
  }

  /**
   * `POST /` (`authenticate, isCustomer`): checks every line against the
   * stock as read, files a report for every short line, and, when at least
   * one line is fulfilled, writes one completed order, its items, and the
   * stock decrements.
   */
  method Checkout(db: Store, user: Claims, lines: seq<CartLine>, now: nat) returns (out: CheckoutOutcome)
    requires db.Valid()
    modifies db
    ensures db.Valid()
    ensures IsCustomer(Some(user)).Deny? ==> out == Forbidden && db.State() == old(db.State())
    ensures IsCustomer(Some(user)).Next? ==> (db.State(), out) == CheckoutEffect(old(db.State()), user, lines, now)
  {
    if IsCustomer(Some(user)).Deny? {
      return Forbidden;
    }
    CheckoutKeepsConsistent(db.State(), user, lines, now);
    var sc, total := CheckLines(db, user, lines, now);
    if sc.missing.Some? {
      return ProductNotFound(sc.missing.value);
    }
    if sc.staged == [] {
      return NothingAvailable(sc.unavailable);
    }
    ScanLinesShape(db.products, lines);
    var orderId, order := PlaceOrder(db, user, now, sc.staged, total);
    return Created(orderId, order, ItemsFor(orderId, sc.staged), sc.unavailable);
  }

  /**
   * The availability loop of `POST /`: walks the lines in order, stops at
   * the first missing product, files a report for each short line, and
   * accumulates `totalAmount` over the fulfilled ones.
   */
  method CheckLines(db: Store, user: Claims, lines: seq<CartLine>, now: nat) returns (sc: Scan, total: int)
    modifies db
    ensures sc == ScanLines(old(db.products), lines)
    ensures total == Total(sc.staged)
    ensures db.State() == Reported(old(db.State()), user, now, sc.unavailable)
  {
    ghost var st := db.State();
    var products := db.products;
    total := 0;
    var staged: seq<Staged> := [];
    var unavailable: seq<Unavailable> := [];
    var i := 0;
    while i < |lines|
      invariant 0 <= i <= |lines|
      invariant ScanLines(products, lines[..i]) == Scan(staged, unavailable, None)
      invariant total == Total(staged)
      invariant db.State() == Reported(st, user, now, unavailable)
    {
      var line := lines[i];
      ScanLinesStep(products, lines, i);
      if line.productId !in products {
        ScanStops(products, lines, i + 1);
        return Scan(staged, unavailable, Some(line.productId)), total;
      }
      var product := products[line.productId];
      if product.stock < line.quantity {
        var u := Unavailable(product.name, line.quantity, product.stock);
        FileReport(db, user, now, st, unavailable, u);
        unavailable := unavailable + [u];
      } else {
        var subtotal := product.price * line.quantity;
        var s := Staged(line.productId, product.name, line.quantity, product.price, subtotal);
        TotalSnoc(staged, s);
        total := total + subtotal;
        staged := staged + [s];
      }
      i := i + 1;
    }
    assert lines[..|lines|] == lines;
    sc := Scan(staged, unavailable, None);
  }

  /** `MissingProductReport.create` for one short line. */
  method FileReport(db: Store, user: Claims, now: nat, ghost st: Snapshot, ghost us: seq<Unavailable>, u: Unavailable)
    requires db.State() == Reported(st, user, now, us)
    modifies db
    ensures db.State() == Reported(st, user, now, us + [u])
  {
    ReportsStep(st.reports, st.nextReportId, user, now, us, u);
    db.reports := db.reports[db.nextReportId := ReportFor(user, now, u)];
    db.nextReportId := db.nextReportId + 1;
  }

  /** `Order.create` followed by the write loop. */
  method PlaceOrder(db: Store, user: Claims, now: nat, staged: seq<Staged>, total: int) returns (orderId: nat, order: Order)
    requires forall s :: s in staged ==> s.productId in db.products
    requires total == Total(staged)
    modifies db
    ensures orderId == old(db.nextOrderId) && order == NewOrder(user, now, staged)
    ensures db.State() == Placed(old(db.State()), user, now, staged)
  {
    orderId := db.nextOrderId;
    order := Order(user.id, total, Completed, user.email, user.email, now);
    db.orders := db.orders[orderId := order];
    db.nextOrderId := orderId + 1;
    WriteItems(db, orderId, staged);
  }

  /**
   * The write loop of `POST /`: for each staged line, in order, one item of
   * order `orderId`, then the product's stock lowered by the line's quantity.
   */
  method WriteItems(db: Store, orderId: nat, staged: seq<Staged>)
    requires forall s :: s in staged ==> s.productId in db.products
    modifies db
    ensures db.State() == Written(old(db.State()), orderId, staged)
  {
    ghost var st := db.State();
    var j := 0;
    while j < |staged|
      invariant 0 <= j <= |staged|
      invariant db.State() == Written(st, orderId, staged[..j])
    {
      assert staged[j] in staged;
      WriteItem(db, orderId, st, staged, j);
      j := j + 1;
    }
    assert staged[..|staged|] == staged;
  }

  /** One turn of the write loop: the item, then the product's stock. */
  method WriteItem(db: Store, orderId: nat, ghost st: Snapshot, staged: seq<Staged>, j: nat)
    requires j < |staged| && staged[j].productId in st.products
    requires db.State() == Written(st, orderId, staged[..j])
    modifies db
    ensures db.State() == Written(st, orderId, staged[..j + 1])
  {
    DecrementKeys(st.products, staged[..j]);
    ItemsStep(st.items, st.nextItemId, orderId, staged, j);
    DecrementStep(st.products, staged, j);
    var s := staged[j];
    db.items := db.items[db.nextItemId := ItemOf(orderId, s)];
    db.nextItemId := db.nextItemId + 1;
    var product := db.products[s.productId];
    db.products := db.products[s.productId := product.(stock := product.stock - s.quantity)];
  }

  /** The subtotals of the items of order `oid` among `xs`. */
  function SubtotalsFor(xs: seq<OrderItem>, oid: nat): int
  {
    if xs == [] then 0
    else SubtotalsFor(xs[..|xs| - 1], oid) + (if xs[|xs| - 1].orderId == oid then xs[|xs| - 1].subtotal else 0)
  }

  /** The items of a new order add up to the order's `totalAmount`, and all carry its id. */
  lemma {:induction false} ItemsForTotal(oid: nat, staged: seq<Staged>)
    ensures SubtotalsFor(ItemsFor(oid, staged), oid) == Total(staged)
    ensures forall x :: x in ItemsFor(oid, staged) ==> x.orderId == oid
  {
    if staged != [] {
      var init := staged[..|staged| - 1];
      ItemsForTotal(oid, init);
      assert ItemsFor(oid, staged)[..|staged| - 1] == ItemsFor(oid, init);
    }
  }

  lemma {:induction false} SubtotalsForOther(xs: seq<OrderItem>, oid: nat, o: nat)
    requires forall x :: x in xs ==> x.orderId == oid
    requires o != oid
    ensures SubtotalsFor(xs, o) == 0
  {
    if xs != [] {
      SubtotalsForOther(xs[..|xs| - 1], oid, o);
    }
  }

  /** A run of item inserts adds the subtotals of the inserted items to each order's total. */
  lemma {:induction false} ItemsTotalAppend(m: map<nat, OrderItem>, next: nat, xs: seq<OrderItem>, oid: nat)
    requires forall k :: k in m ==> k < next
    ensures ItemsTotal(Append(m, next, xs), next + |xs|, oid) == ItemsTotal(m, next, oid) + SubtotalsFor(xs, oid)
  {
    if xs == [] {
      ItemsTotalFrame(m, Append(m, next, xs), next, oid);
    } else {
      var init, x := xs[..|xs| - 1], xs[|xs| - 1];
      assert xs == init + [x];
      ItemsTotalAppend(m, next, init, oid);
      AppendSnoc(m, next, init, x);
      AppendShape(m, next, init);
      ItemsTotalFrame(Append(m, next, init), Append(m, next, xs), next + |init|, oid);
    }
  }

  /** Filing reports keeps the database consistent. */
  lemma ReportedConsistent(st: Snapshot, user: Claims, now: nat, us: seq<Unavailable>)
    requires Consistent(st)
    ensures Consistent(Reported(st, user, now, us))
  {
    AppendShape(st.reports, st.nextReportId, ReportsFor(user, now, us));
  }

  /** Writing an order with its items and stock decrements keeps the ids below their counters. */
  lemma PlacedIds(st: Snapshot, user: Claims, now: nat, staged: seq<Staged>)
    requires IdsBelowCounters(st)
    ensures IdsBelowCounters(Placed(st, user, now, staged))
  {
    DecrementKeys(st.products, staged);
    AppendShape(st.items, st.nextItemId, ItemsFor(st.nextOrderId, staged));
  }

  /** Every item, old or new, belongs to an order and is priced `subtotal = price * quantity`. */
  lemma PlacedItems(st: Snapshot, user: Claims, now: nat, staged: seq<Staged>)
    requires Consistent(st)
    requires forall s :: s in staged ==> s.subtotal == s.price * s.quantity
    ensures var st' := Placed(st, user, now, staged);
      forall k :: k in st'.items ==>
        st'.items[k].orderId in st'.orders && st'.items[k].subtotal == st'.items[k].price * st'.items[k].quantity
  {
    var st' := Placed(st, user, now, staged);
    var xs := ItemsFor(st.nextOrderId, staged);
    AppendShape(st.items, st.nextItemId, xs);
    forall k | k in st'.items
      ensures st'.items[k].orderId in st'.orders && st'.items[k].subtotal == st'.items[k].price * st'.items[k].quantity
    {
      if st.nextItemId <= k {
        var j := k - st.nextItemId;
        ItemsForAt(st.nextOrderId, staged, j);
        assert st'.items[k] == xs[j];
        assert staged[j] in staged;
      }
    }
  }

  /** Every order's `totalAmount`, the new one's included, is the sum of its items' subtotals. */
  lemma PlacedTotals(st: Snapshot, user: Claims, now: nat, staged: seq<Staged>)
    requires Consistent(st)
    ensures var st' := Placed(st, user, now, staged);
      forall o :: o in st'.orders ==> st'.orders[o].totalAmount == ItemsTotal(st'.items, st'.nextItemId, o)
  {
    var st' := Placed(st, user, now, staged);
    var oid := st.nextOrderId;
    var xs := ItemsFor(oid, staged);
    ItemsForTotal(oid, staged);
    forall o | o in st'.orders
      ensures st'.orders[o].totalAmount == ItemsTotal(st'.items, st'.nextItemId, o)
    {
      ItemsTotalAppend(st.items, st.nextItemId, xs, o);
      if o == oid {
        ItemsTotalNone(st.items, st.nextItemId, oid);
      } else {
        SubtotalsForOther(xs, oid, o);
      }
    }
  }

  /**
   * Checkout keeps the database consistent: ids stay below their counters,
   * every item belongs to an order, and every order's `totalAmount` (the new
   * one included) equals the sum of its items' subtotals.
   */
  lemma CheckoutKeepsConsistent(st: Snapshot, user: Claims, lines: seq<CartLine>, now: nat)
    requires Consistent(st)
    ensures Consistent(CheckoutEffect(st, user, lines, now).0)
  {
    var sc := ScanLines(st.products, lines);
    var reported := Reported(st, user, now, sc.unavailable);
    ReportedConsistent(st, user, now, sc.unavailable);
    if sc.missing.None? && sc.staged != [] {
      ScanLinesShape(st.products, lines);
      PlacedIds(reported, user, now, sc.staged);
      PlacedItems(reported, user, now, sc.staged);
      PlacedTotals(reported, user, now, sc.staged);
    }
  }

  /**
   * Every line naming product `id` was skipped as short (this includes a
   * product on no line): then no staged line takes from it.
   */
  lemma {:induction false} ScanAbsent(products: map<nat, Product>, lines: seq<CartLine>, id: nat)
    requires forall l :: l in lines && l.productId == id ==> id in products && products[id].stock < l.quantity
    ensures QuantityFor(ScanLines(products, lines).staged, id) == 0
  {
    if lines != [] {
      var init := lines[..|lines| - 1];
      assert forall l :: l in init ==> l in lines;
      ScanAbsent(products, init, id);
      var sc := ScanLines(products, init);
      if lines[|lines| - 1].productId in products {
        var s := StageLine(products, lines[|lines| - 1]);
        assert (sc.staged + [s])[..|sc.staged|] == sc.staged;
      }
    }
  }

  /**
   * With distinct product ids among the lines, the staged lines take from a
   * product at most the stock it had, when that stock was not negative.
   */
  lemma {:induction false} ScanQuantity(products: map<nat, Product>, lines: seq<CartLine>, id: nat)
    requires forall i, j :: 0 <= i < j < |lines| ==> lines[i].productId != lines[j].productId
    requires id in products && products[id].stock >= 0
    ensures QuantityFor(ScanLines(products, lines).staged, id) <= products[id].stock
  {
    if lines != [] {
      var init, last := lines[..|lines| - 1], lines[|lines| - 1];
      var sc := ScanLines(products, init);
      if last.productId == id {
        forall l | l in init ensures l.productId != id {
          var i :| 0 <= i < |init| && init[i] == l;
          assert lines[i] == l;
        }
        ScanAbsent(products, init, id);
      } else {
        ScanQuantity(products, init, id);
      }
      if last.productId in products {
        var s := StageLine(products, last);
        assert (sc.staged + [s])[..|sc.staged|] == sc.staged;
      }
    }
  }

  /**
   * When the lines name distinct products, checkout never drives a stock
   * below zero: every product that had a non-negative stock still has one.
   */
  lemma CheckoutStockNonNegative(st: Snapshot, user: Claims, lines: seq<CartLine>, now: nat)
    requires forall i, j :: 0 <= i < j < |lines| ==> lines[i].productId != lines[j].productId
    ensures var st' := CheckoutEffect(st, user, lines, now).0;
      forall id :: id in st.products && st.products[id].stock >= 0 ==> id in st'.products && st'.products[id].stock >= 0
  {
    var sc := ScanLines(st.products, lines);
    var st' := CheckoutEffect(st, user, lines, now).0;
    forall id | id in st.products && st.products[id].stock >= 0
      ensures id in st'.products && st'.products[id].stock >= 0
    {
      if CheckoutEffect(st, user, lines, now).1.Created? {
        DecrementStock(st.products, sc.staged, id);
        ScanQuantity(st.products, lines, id);
      }
    }
  }

  /**
   * Availability is checked against the stock as read, before any decrement:
   * two lines for the same product, each within its stock of 5 but together
   * asking for 6, are both fulfilled and leave the stock at -1.
   */
  lemma DuplicateLinesOversell(user: Claims, now: nat)
    ensures var widget := Product("widget", None, None, 100, 5, DefaultLowStockThreshold, None);
      var st := Snapshot(map[0 := widget], map[], map[], map[], map[], 1, 0, 0, 0, 0);
      var r := CheckoutEffect(st, user, [CartLine(0, 3), CartLine(0, 3)], now);
      r.1.Created? && |r.1.items| == 2 && r.1.order.totalAmount == 600 && r.0.products[0].stock == -1
  {
    var widget := Product("widget", None, None, 100, 5, DefaultLowStockThreshold, None);
    var lines := [CartLine(0, 3), CartLine(0, 3)];
    var products := map[0 := widget];
    assert lines[..1] == [CartLine(0, 3)];
    assert lines[..1][..0] == [];
    var s := Staged(0, "widget", 3, 100, 300);
    assert ScanLines(products, lines[..1]) == Scan([s], [], None);
    assert ScanLines(products, lines) == Scan([s, s], [], None);
    assert [s, s][..1] == [s];
    assert [s][..0] == [];
    assert Total([s]) == 300 && Total([s, s]) == 600;
    assert QuantityFor([s], 0) == 3 && QuantityFor([s, s], 0) == 6;
    DecrementStock(products, [s, s], 0);
    var st := Snapshot(products, map[], map[], map[], map[], 1, 0, 0, 0, 0);
    var r := CheckoutEffect(st, user, lines, now);
    assert r.1 == Created(0, NewOrder(user, now, [s, s]), ItemsFor(0, [s, s]), []);
    assert r.0.products == Decrement(products, [s, s]);
  }

  /** The body of `GET /:id`: the order, its items, and the bill built from them. */
  datatype OrderView = OrderView(orderId: nat, order: Order, items: seq<(nat, OrderItem)>)

  function BelongsTo(oid: nat): ((nat, OrderItem)) -> bool
  {
    (row: (nat, OrderItem)) => row.1.orderId == oid
  }

  /** `OrderItem.findAll({ where: { orderId } })`. */
  function ItemsOf(itemRows: seq<(nat, OrderItem)>, oid: nat): seq<(nat, OrderItem)>
  {
    Filter(itemRows, BelongsTo(oid))
  }

  function ViewOf(itemRows: seq<(nat, OrderItem)>, row: (nat, Order)): OrderView
  {
    OrderView(row.0, row.1, ItemsOf(itemRows, row.0))
  }

  /**
   * `GET /:id` (`authenticate`): 404 for an unknown id, 403 unless the
   * caller owns the order or is an admin, otherwise the order and exactly
   * its items.
   */
  function GetOrder(orders: map<nat, Order>, itemRows: seq<(nat, OrderItem)>, user: Claims, id: nat): (r: Response<OrderView>)
    ensures id !in orders ==> r == Fail(404, "Order not found")
    ensures r.Ok? <==> id in orders && (orders[id].userId == user.id || user.role == AdminRole)
    ensures id in orders && !r.Ok? ==> r == Fail(403, "Access denied")
    ensures r.Ok? ==> r.value.orderId == id && r.value.order == orders[id]
    ensures r.Ok? ==> forall row :: row in r.value.items <==> row in itemRows && row.1.orderId == id
  {
    if id !in orders then Fail(404, "Order not found")
    else if orders[id].userId != user.id && user.role != AdminRole then Fail(403, "Access denied")
    else Ok(ViewOf(itemRows, (id, orders[id])))
  }

  function OwnedBy(userId: nat): ((nat, Order)) -> bool
  {
    (row: (nat, Order)) => row.1.userId == userId
  }

  /** `order: [['createdAt', 'DESC']]`. */
  function NewestFirst(): ((nat, Order), (nat, Order)) -> bool
  {
    (a: (nat, Order), b: (nat, Order)) => a.1.createdAt >= b.1.createdAt
  }

  lemma NewestFirstPreorder()
    ensures TotalPreorder(NewestFirst())
  {
  }

  /**
   * `GET /my-orders` (`authenticate, isCustomer`): the caller's orders,
   * newest first, each with its items.
   */
  function MyOrders(orderRows: seq<(nat, Order)>, itemRows: seq<(nat, OrderItem)>, user: Claims): (r: Response<seq<OrderView>>)
    ensures IsCustomer(Some(user)).Deny? <==> r == Fail(403, "Customer access required")
    ensures r.Ok? <==> IsCustomer(Some(user)).Next?
    ensures r.Ok? ==> |r.value| == |Filter(orderRows, OwnedBy(user.id))|
  {
    if IsCustomer(Some(user)).Deny? then Fail(403, "Customer access required")
    else
      NewestFirstPreorder();
      var mine := SortBy(Filter(orderRows, OwnedBy(user.id)), NewestFirst());
      Ok(seq(|mine|, i requires 0 <= i < |mine| => ViewOf(itemRows, mine[i])))
  }

  /**
   * `my-orders` lists only the caller's orders, each with exactly its items,
   * newest first.
   */
  lemma MyOrdersSound(orderRows: seq<(nat, Order)>, itemRows: seq<(nat, OrderItem)>, user: Claims)
    requires IsCustomer(Some(user)).Next?
    ensures var vs := MyOrders(orderRows, itemRows, user).value;
      && (forall v :: v in vs ==>
            (v.orderId, v.order) in orderRows && v.order.userId == user.id && v.items == ItemsOf(itemRows, v.orderId))
      && (forall i, j :: 0 <= i < j < |vs| ==> vs[i].order.createdAt >= vs[j].order.createdAt)
  {
    NewestFirstPreorder();
    var kept := Filter(orderRows, OwnedBy(user.id));
    var mine := SortBy(kept, NewestFirst());
    var vs := MyOrders(orderRows, itemRows, user).value;
    forall v | v in vs
      ensures (v.orderId, v.order) in orderRows && v.order.userId == user.id && v.items == ItemsOf(itemRows, v.orderId)
    {
      var i :| 0 <= i < |vs| && vs[i] == v;
      assert mine[i] in multiset(mine);
      assert mine[i] in kept;
    }
    forall i, j | 0 <= i < j < |vs| ensures vs[i].order.createdAt >= vs[j].order.createdAt {
      assert NewestFirst()(mine[i], mine[j]);
    }
  }

  /** Every order of the caller is listed. */
  lemma MyOrdersComplete(orderRows: seq<(nat, Order)>, itemRows: seq<(nat, OrderItem)>, user: Claims, row: (nat, Order))
    requires IsCustomer(Some(user)).Next?
    requires row in orderRows && row.1.userId == user.id
    ensures exists v :: v in MyOrders(orderRows, itemRows, user).value && v.orderId == row.0 && v.order == row.1
  {
    NewestFirstPreorder();
    var mine := SortBy(Filter(orderRows, OwnedBy(user.id)), NewestFirst());
    assert row in Filter(orderRows, OwnedBy(user.id));
    assert row in multiset(mine);
    var i :| 0 <= i < |mine| && mine[i] == row;
    assert MyOrders(orderRows, itemRows, user).value[i] == ViewOf(itemRows, row);
  }
}
