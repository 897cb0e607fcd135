/**
 * The product routes of inventory-backend/routes/inventory.js: the public
 * listing with its `search` and `category` filters, one product by id, the
 * distinct category list, and the admin-only create and update.
 */
module Inventory {
  import opened Wrappers
  import opened Sequences
  import opened Text
  import opened Auth
  import opened Records
  import opened Db

  /** A query parameter is truthy when it is present and not the empty string. */
  predicate Truthy(q: Option<string>)
  {
    q.Some? && q.value != ""
  }

  /** `name LIKE %search%` when `search` is truthy. */
  predicate NameMatches(search: Option<string>, p: Product)
  {
    Truthy(search) ==> Contains(p.name, search.value)
  }

  /** `category = c` when `category` is truthy and not `'all'`. */
  predicate CategoryMatches(category: Option<string>, p: Product)
  {
    Truthy(category) && category.value != "all" ==> p.category == Some(category.value)
  }

  function Listed(search: Option<string>, category: Option<string>): ((nat, Product)) -> bool
  {
    (row: (nat, Product)) => NameMatches(search, row.1) && CategoryMatches(category, row.1)
  }

  /**
   * `GET /`: the products whose name contains `search` and whose category is
   * `category`, each condition applying only when its parameter is given.
   */
  function ListProducts(productRows: seq<(nat, Product)>, search: Option<string>, category: Option<string>): (r: seq<(nat, Product)>)
    ensures forall row :: row in r <==>
      row in productRows && NameMatches(search, row.1) && CategoryMatches(category, row.1)
    ensures |r| <= |productRows|
  {
    Filter(productRows, Listed(search, category))
  }

  /** With no search and no category, or category `'all'`, every product is listed, in order. */
  lemma {:induction false} ListAll(productRows: seq<(nat, Product)>, search: Option<string>, category: Option<string>)
    requires !Truthy(search)
    requires !Truthy(category) || category.value == "all"
    ensures ListProducts(productRows, search, category) == productRows
  {
    if productRows != [] {
      var init, last := productRows[..|productRows| - 1], productRows[|productRows| - 1];
      ListAll(init, search, category);
      assert productRows == init + [last];
      FilterSnoc(init, last, Listed(search, category));
    }
  }

  /** A listed product's name holds `search` at some position. */
  lemma ListedNameHoldsSearch(productRows: seq<(nat, Product)>, search: string, category: Option<string>, row: (nat, Product))
    requires search != ""
    requires row in ListProducts(productRows, Some(search), category)
    ensures exists i :: OccursAt(row.1.name, search, i)
  {
    ContainsIff(row.1.name, search);
  }

  /** `GET /:id`: the product, or 404. */
  function GetProduct(products: map<nat, Product>, id: nat): (r: Response<Product>)
    ensures r.Ok? <==> id in products
    ensures r.Ok? ==> r.value == products[id]
    ensures r.Fail? ==> r == Fail(404, "Product not found")
  {
    if id in products then Ok(products[id]) else Fail(404, "Product not found")
  }

  /** `GET /categories/list`: the distinct non-null categories, in order of first appearance. */
  function Categories(productRows: seq<(nat, Product)>): (cs: seq<string>)
    ensures forall i, j :: 0 <= i < j < |cs| ==> cs[i] != cs[j]
    ensures forall c :: c in cs <==> exists row :: row in productRows && row.1.category == Some(c)
  {
    if productRows == [] then []
    else
      var init, last := productRows[..|productRows| - 1], productRows[|productRows| - 1];
      assert productRows == init + [last];
      var cs := Categories(init);
      if last.1.category.None? || last.1.category.value in cs then cs
      else
        var r := cs + [last.1.category.value];
        assert forall i :: 0 <= i < |cs| ==> r[i] == cs[i] && cs[i] in cs;
        r
  }

  /** The body of `POST /` and `PUT /:id`; a nullable column takes `Given(None)` for JSON `null`. */
  datatype ProductBody = ProductBody(
    name: Field<string>,
    description: Field<Option<string>>,
    category: Field<Option<string>>,
    price: Field<int>,
    stock: Field<int>,
    lowStockThreshold: Field<int>,
    imageUrl: Field<Option<string>>)

  function OrElse<T>(f: Field<T>, d: T): T
  {
    if f.Given? then f.value else d
  }

  /**
   * The row `Product.create` writes, when the NOT NULL columns `name` and
   * `price` are given: absent `stock` and `lowStockThreshold` take their
   * column defaults, absent nullable columns are NULL.
   */
  function NewProduct(body: ProductBody): (r: Option<Product>)
    ensures r.Some? <==> body.name.Given? && body.price.Given?
    ensures r.Some? ==> r.value.name == body.name.value && r.value.price == body.price.value
    ensures r.Some? ==> r.value.description == (if body.description.Given? then body.description.value else None)
    ensures r.Some? ==> r.value.category == (if body.category.Given? then body.category.value else None)
    ensures r.Some? ==> r.value.imageUrl == (if body.imageUrl.Given? then body.imageUrl.value else None)
    ensures r.Some? ==> r.value.stock == (if body.stock.Given? then body.stock.value else DefaultStock)
    ensures r.Some? ==> r.value.lowStockThreshold
                        == (if body.lowStockThreshold.Given? then body.lowStockThreshold.value else DefaultLowStockThreshold)
  {
    if body.name.Absent? || body.price.Absent? then None
    else Some(Product(body.name.value, OrElse(body.description, None), OrElse(body.category, None), body.price.value,
                      OrElse(body.stock, DefaultStock), OrElse(body.lowStockThreshold, DefaultLowStockThreshold),
                      OrElse(body.imageUrl, None)))
  }

  /** `product.update(body)`: each given field is assigned, each absent one is kept. */
  function Updated(p: Product, body: ProductBody): (r: Product)
    ensures body.name.Given? ==> r.name == body.name.value
    ensures body.name.Absent? ==> r.name == p.name
    ensures body.price.Given? ==> r.price == body.price.value
    ensures body.price.Absent? ==> r.price == p.price
    ensures body.stock.Given? ==> r.stock == body.stock.value
    ensures body.stock.Absent? ==> r.stock == p.stock
    ensures body.description.Given? ==> r.description == body.description.value
    ensures body.description.Absent? ==> r.description == p.description
    ensures body.category.Given? ==> r.category == body.category.value
    ensures body.category.Absent? ==> r.category == p.category
    ensures body.lowStockThreshold.Given? ==> r.lowStockThreshold == body.lowStockThreshold.value
    ensures body.lowStockThreshold.Absent? ==> r.lowStockThreshold == p.lowStockThreshold
    ensures body.imageUrl.Given? ==> r.imageUrl == body.imageUrl.value
    ensures body.imageUrl.Absent? ==> r.imageUrl == p.imageUrl
  {
    Product(OrElse(body.name, p.name), OrElse(body.description, p.description), OrElse(body.category, p.category),
            OrElse(body.price, p.price), OrElse(body.stock, p.stock),
            OrElse(body.lowStockThreshold, p.lowStockThreshold), OrElse(body.imageUrl, p.imageUrl))
  }

  /** A body that gives all seven fields replaces all seven. */
  lemma UpdatedFull(p: Product, q: Product)
    ensures Updated(p, ProductBody(Given(q.name), Given(q.description), Given(q.category), Given(q.price),
                                   Given(q.stock), Given(q.lowStockThreshold), Given(q.imageUrl))) == q
  {
  }

  /** An empty body changes nothing. */
  lemma UpdatedEmpty(p: Product)
    ensures Updated(p, ProductBody(Absent, Absent, Absent, Absent, Absent, Absent, Absent)) == p
  {
  }

  /**
   * `POST /` (`authenticate, isAdmin`): inserts the new product under the
   * next id and answers 201 with it; a body without `name` or `price` is
   * refused by the NOT NULL constraint (500).
   */
  method CreateProduct(db: Store, user: Claims, body: ProductBody) returns (r: Response<(nat, Product)>)
    requires db.Valid()
    modifies db
    ensures db.Valid()
    ensures IsAdmin(Some(user)).Deny? ==> r == Fail(403, "Admin access required") && db.State() == old(db.State())
    ensures IsAdmin(Some(user)).Next? && NewProduct(body).None? ==>
      r == Fail(500, "Error creating product") && db.State() == old(db.State())
    ensures IsAdmin(Some(user)).Next? && NewProduct(body).Some? ==>
      && r == Ok((old(db.nextProductId), NewProduct(body).value))
      && old(db.nextProductId) !in old(db.products)
      && db.State() == old(db.State()).(products := old(db.products)[old(db.nextProductId) := NewProduct(body).value],
                                         nextProductId := old(db.nextProductId) + 1)
  {
    if IsAdmin(Some(user)).Deny? {
      return Fail(403, "Admin access required");
    }
    var product := NewProduct(body);
    if product.None? {
      return Fail(500, "Error creating product");
    }
    var id := db.nextProductId;
    db.products := db.products[id := product.value];
    db.nextProductId := id + 1;
    return Ok((id, product.value));
  }

  /** `PUT /:id` (`authenticate, isAdmin`): 404 for an unknown id, otherwise only that product is updated. */
  method UpdateProduct(db: Store, user: Claims, id: nat, body: ProductBody) returns (r: Response<Product>)
    requires db.Valid()
    modifies db
    ensures db.Valid()
    ensures IsAdmin(Some(user)).Deny? ==> r == Fail(403, "Admin access required") && db.State() == old(db.State())
    ensures IsAdmin(Some(user)).Next? && id !in old(db.products) ==>
      r == Fail(404, "Product not found") && db.State() == old(db.State())
    ensures IsAdmin(Some(user)).Next? && id in old(db.products) ==>
      && r == Ok(Updated(old(db.products)[id], body))
      && db.State() == old(db.State()).(products := old(db.products)[id := Updated(old(db.products)[id], body)])
  {
    if IsAdmin(Some(user)).Deny? {
      return Fail(403, "Admin access required");
    }
    if id !in db.products {
      return Fail(404, "Product not found");
    }
    var product := Updated(db.products[id], body);
    db.products := db.products[id := product];
    return Ok(product);
  }
}
