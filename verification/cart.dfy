/**
 * The cart updaters of frontend/src/context/CartContext.js. The cart is a
 * list of entries, one per product added; every updater returns a new list.
 * The PATCH that `addToCart` sends before touching the cart is a parameter:
 * the reply it got.
 */
module Cart {
  import opened Wrappers
  import opened Sequences
  import opened Records

  /** `{ ...product, quantity }`: the product as it was added, and how many. */
  datatype CartEntry = CartEntry(id: nat, product: Product, quantity: int)

  /** What the server answered the stock PATCH. */
  datatype ServerReply = Accepted | Rejected(status: nat, message: string)

  /** `{ success, message }`. */
  datatype AddResult = Added | NotAdded(message: string)

  /** `quantity = 1` when the caller passes none. */
  const DefaultQuantity: int := 1

  predicate HasId(cart: seq<CartEntry>, id: nat)
  {
    exists i :: 0 <= i < |cart| && cart[i].id == id
  }

  /** At most one entry per product id. */
  ghost predicate UniqueIds(cart: seq<CartEntry>)
  {
    forall i, j :: 0 <= i < j < |cart| ==> cart[i].id != cart[j].id
  }

  /** `prevCart.map(...)`: every entry with this id gets `quantity` from `f`, the others stay. */
  function Requantify(cart: seq<CartEntry>, id: nat, f: int -> int): (r: seq<CartEntry>)
    ensures |r| == |cart|
    ensures forall i :: 0 <= i < |cart| ==>
      r[i] == if cart[i].id == id then cart[i].(quantity := f(cart[i].quantity)) else cart[i]
  {
    seq(|cart|, i requires 0 <= i < |cart| => if cart[i].id == id then cart[i].(quantity := f(cart[i].quantity)) else cart[i])
  }

  function Plus(q: int): int -> int
  {
    (n: int) => n + q
  }

  function Const(q: int): int -> int
  {
    (n: int) => q
  }

  /**
   * `addToCart(product, quantity)`: once the server accepted, raises the
   * entry of that product by `quantity`, or appends a new entry; a refusal
   * leaves the cart alone and reports the server's message for a 400.
   */
  function AddToCart(cart: seq<CartEntry>, id: nat, product: Product, quantity: Option<int>, reply: ServerReply)
    : (r: (seq<CartEntry>, AddResult))
    ensures reply.Rejected? ==> r.0 == cart && r.1.NotAdded?
    ensures reply.Rejected? && reply.status == 400 ==> r.1 == NotAdded(reply.message)
    ensures reply.Rejected? && reply.status != 400 ==> r.1 == NotAdded("Error adding item to cart")
    ensures reply.Accepted? ==> r.1 == Added
    ensures reply.Accepted? && HasId(cart, id) ==>
      r.0 == Requantify(cart, id, Plus(if quantity.Some? then quantity.value else DefaultQuantity))
    ensures reply.Accepted? && !HasId(cart, id) ==>
      r.0 == cart + [CartEntry(id, product, if quantity.Some? then quantity.value else DefaultQuantity)]
  {
    var q := if quantity.Some? then quantity.value else DefaultQuantity;
    if reply.Rejected? then
      (cart, NotAdded(if reply.status == 400 then reply.message else "Error adding item to cart"))
    else if HasId(cart, id) then (Requantify(cart, id, Plus(q)), Added)
    else (cart + [CartEntry(id, product, q)], Added)
  }

  function Keeps(id: nat): CartEntry -> bool
  {
    (e: CartEntry) => e.id != id
  }

  /** `removeFromCart(productId)`: every entry of that id goes, the others stay in order. */
  function RemoveFromCart(cart: seq<CartEntry>, id: nat): (r: seq<CartEntry>)
    ensures forall e :: e in r <==> e in cart && e.id != id
    ensures !HasId(r, id)
  {
    var r := Filter(cart, Keeps(id));
    assert forall i :: 0 <= i < |r| ==> r[i] in r;
    r
  }

  /** Removing keeps the other entries in their order: the empty cart stays empty, and a last entry stays last unless it goes. */
  lemma RemoveInOrder(cart: seq<CartEntry>, e: CartEntry, id: nat)
    ensures RemoveFromCart([], id) == []
    ensures RemoveFromCart(cart + [e], id) == RemoveFromCart(cart, id) + (if e.id != id then [e] else [])
  {
    FilterSnoc(cart, e, Keeps(id));
  }

  /** `updateQuantity(productId, quantity)`: a quantity of zero or less removes the product. */
  function UpdateQuantity(cart: seq<CartEntry>, id: nat, quantity: int): (r: seq<CartEntry>)
    ensures quantity <= 0 ==> r == RemoveFromCart(cart, id)
    ensures quantity > 0 ==> |r| == |cart|
    ensures quantity > 0 ==> forall i :: 0 <= i < |cart| ==>
      r[i] == if cart[i].id == id then cart[i].(quantity := quantity) else cart[i]
  {
    if quantity <= 0 then RemoveFromCart(cart, id) else Requantify(cart, id, Const(quantity))
  }

  /** `clearCart()`. */
  function ClearCart(): (r: seq<CartEntry>)
    ensures Total(r) == 0 && ItemCount(r) == 0 && |r| == 0
  {
    []
  }

  /** `getTotal()`: the sum of `price * quantity`. */
  function Total(cart: seq<CartEntry>): (total: int)
    ensures (forall i :: 0 <= i < |cart| ==> cart[i].product.price >= 0 && cart[i].quantity >= 0) ==> total >= 0
  {
    if cart == [] then 0
    else Total(cart[..|cart| - 1]) + cart[|cart| - 1].product.price * cart[|cart| - 1].quantity
  }

  /** `getItemCount()`: the sum of the quantities. */
  function ItemCount(cart: seq<CartEntry>): (count: int)
    ensures (forall i :: 0 <= i < |cart| ==> cart[i].quantity >= 0) ==> count >= 0
  {
    if cart == [] then 0 else ItemCount(cart[..|cart| - 1]) + cart[|cart| - 1].quantity
  }

  /** The quantity the cart holds of product `id`. */
  function QuantityOf(cart: seq<CartEntry>, id: nat): int
  {
    if cart == [] then 0
    else QuantityOf(cart[..|cart| - 1], id) + (if cart[|cart| - 1].id == id then cart[|cart| - 1].quantity else 0)
  }

  /** Adding, removing and updating keep at most one entry per product. */
  lemma AddKeepsUnique(cart: seq<CartEntry>, id: nat, product: Product, quantity: Option<int>, reply: ServerReply)
    requires UniqueIds(cart)
    ensures UniqueIds(AddToCart(cart, id, product, quantity, reply).0)
  {
    var q := if quantity.Some? then quantity.value else DefaultQuantity;
    if reply.Accepted? && !HasId(cart, id) {
      var r := cart + [CartEntry(id, product, q)];
      forall i, j | 0 <= i < j < |r| ensures r[i].id != r[j].id {
        if j == |cart| {
          assert r[i] == cart[i];
        }
      }
    }
  }

  lemma {:induction false} RemoveKeepsUnique(cart: seq<CartEntry>, id: nat)
    requires UniqueIds(cart)
    ensures UniqueIds(RemoveFromCart(cart, id))
  {
    if cart != [] {
      var init, last := cart[..|cart| - 1], cart[|cart| - 1];
      RemoveKeepsUnique(init, id);
      assert cart == init + [last];
      FilterSnoc(init, last, Keeps(id));
      var f := Filter(init, Keeps(id));
      if last.id != id {
        var r := f + [last];
        forall i, j | 0 <= i < j < |r| ensures r[i].id != r[j].id {
          if j == |f| {
            assert r[i] in f;
            var k :| 0 <= k < |init| && init[k] == r[i];
          }
        }
      }
    }
  }

  lemma UpdateKeepsUnique(cart: seq<CartEntry>, id: nat, quantity: int)
    requires UniqueIds(cart)
    ensures UniqueIds(UpdateQuantity(cart, id, quantity))
  {
    if quantity <= 0 {
      RemoveKeepsUnique(cart, id);
    }
  }

  /**
   * An accepted add raises the cart's item count, and the held quantity of
   * that product, by exactly the quantity added.
   */
  lemma AddCounts(cart: seq<CartEntry>, id: nat, product: Product, quantity: Option<int>)
    requires UniqueIds(cart)
    ensures var q := if quantity.Some? then quantity.value else DefaultQuantity;
      var r := AddToCart(cart, id, product, quantity, Accepted).0;
      ItemCount(r) == ItemCount(cart) + q && QuantityOf(r, id) == QuantityOf(cart, id) + q
  {
    var q := if quantity.Some? then quantity.value else DefaultQuantity;
    if HasId(cart, id) {
      var k :| 0 <= k < |cart| && cart[k].id == id;
      RequantifyCounts(cart, id, q, k);
    } else {
      var r := cart + [CartEntry(id, product, q)];
      assert r[..|cart|] == cart;
    }
  }

  /** Raising the one entry of product `id` (at index `k`) by `q` adds `q` to the count and to its quantity. */
  lemma {:induction false} RequantifyCounts(cart: seq<CartEntry>, id: nat, q: int, k: nat)
    requires UniqueIds(cart) && k < |cart| && cart[k].id == id
    ensures ItemCount(Requantify(cart, id, Plus(q))) == ItemCount(cart) + q
    ensures QuantityOf(Requantify(cart, id, Plus(q)), id) == QuantityOf(cart, id) + q
  {
    var init := cart[..|cart| - 1];
    var r := Requantify(cart, id, Plus(q));
    assert r[..|cart| - 1] == Requantify(init, id, Plus(q));
    if k == |cart| - 1 {
      RequantifyAbsent(init, id, q);
    } else {
      RequantifyCounts(init, id, q, k);
    }
  }

  /** Raising a product no entry holds changes nothing. */
  lemma {:induction false} RequantifyAbsent(cart: seq<CartEntry>, id: nat, q: int)
    requires forall i :: 0 <= i < |cart| ==> cart[i].id != id
    ensures Requantify(cart, id, Plus(q)) == cart
  {
    var r := Requantify(cart, id, Plus(q));
    assert forall i :: 0 <= i < |cart| ==> r[i] == cart[i];
  }

  /** Adding a product the cart lacks appends it at the end and adds its price times quantity to the total. */
  lemma AddNewTotal(cart: seq<CartEntry>, id: nat, product: Product, q: int)
    requires !HasId(cart, id)
    ensures AddToCart(cart, id, product, Some(q), Accepted).0 == cart + [CartEntry(id, product, q)]
    ensures Total(AddToCart(cart, id, product, Some(q), Accepted).0) == Total(cart) + product.price * q
  {
    assert (cart + [CartEntry(id, product, q)])[..|cart|] == cart;
  }

  /** Removing a product takes its whole held quantity out of the item count. */
  lemma {:induction false} RemoveCounts(cart: seq<CartEntry>, id: nat)
    ensures ItemCount(RemoveFromCart(cart, id)) == ItemCount(cart) - QuantityOf(cart, id)
    ensures QuantityOf(RemoveFromCart(cart, id), id) == 0
  {
    if cart != [] {
      var init, last := cart[..|cart| - 1], cart[|cart| - 1];
      RemoveCounts(init, id);
      assert cart == init + [last];
      FilterSnoc(init, last, Keeps(id));
      var f := Filter(init, Keeps(id));
      assert RemoveFromCart(init, id) == f;
      assert RemoveFromCart(cart, id) == Filter(cart, Keeps(id));
      if last.id != id {
        assert Keeps(id)(last);
        assert Filter(cart, Keeps(id)) == f + [last];
        assert (f + [last])[..|f|] == f;
        assert ItemCount(f + [last]) == ItemCount(f) + last.quantity;
      } else {
        assert Filter(cart, Keeps(id)) == f;
      }
      assert ItemCount(cart) == ItemCount(init) + last.quantity;
    }
  }
}
