/**
 * The cart state handlers of the storefront page. Each handler is a pure
 * `prev -> next` function on the list of cart entries.
 */
module CartStore {
  import opened Wrappers
  import opened CartItems

  /** The lookup `addToCart` does with `find`: the first entry carrying the id, if any. */
  function Find(cart: seq<CartItem>, id: string): (r: Option<CartItem>)
    ensures r.Some? <==> !Absent(cart, id)
    ensures r.Some? ==> r.value in cart && r.value.Id() == id
  {
    if cart == [] then None
    else if cart[0].Id() == id then Some(cart[0])
    else Find(cart[1..], id)
  }

  /**
   * `addToCart`: when an entry with the product's id exists, every such entry
   * gets its quantity raised by one (keeping the product snapshot it already
   * had); otherwise a new entry with quantity 1 is appended.
   */
  function AddToCart(cart: seq<CartItem>, p: Product): (r: seq<CartItem>)
    ensures !Absent(cart, p.id) ==>
      && |r| == |cart|
      && (forall i :: 0 <= i < |cart| ==> r[i].product == cart[i].product)
      && (forall i :: 0 <= i < |cart| ==>
            r[i].quantity == if cart[i].Id() == p.id then cart[i].quantity + 1 else cart[i].quantity)
    ensures Absent(cart, p.id) ==>
      |r| == |cart| + 1 && r[..|cart|] == cart && r[|cart|] == CartItem(p, 1)
  {
    if Find(cart, p.id).Some? then
      seq(|cart|, i requires 0 <= i < |cart| =>
        if cart[i].Id() == p.id then cart[i].(quantity := cart[i].quantity + 1) else cart[i])
    else
      cart + [CartItem(p, 1)]
  }

  /**
   * `updateQuantity`: every entry with the id gets exactly the given quantity,
   * whatever it is (zero and negatives included); nothing is removed.
   */
  function UpdateQuantity(cart: seq<CartItem>, id: string, q: int): (r: seq<CartItem>)
    ensures |r| == |cart|
    ensures forall i :: 0 <= i < |cart| ==> r[i].product == cart[i].product
    ensures forall i :: 0 <= i < |cart| ==> r[i].quantity == if cart[i].Id() == id then q else cart[i].quantity
  {
    seq(|cart|, i requires 0 <= i < |cart| => if cart[i].Id() == id then cart[i].(quantity := q) else cart[i])
  }

  /** `removeItem`: keeps exactly the entries whose id differs, in their order. */
  function RemoveItem(cart: seq<CartItem>, id: string): (r: seq<CartItem>)
    ensures |r| <= |cart|
    ensures forall x :: x in r ==> x in cart && x.Id() != id
    ensures forall x :: x in cart && x.Id() != id ==> x in r
    ensures UniqueIds(cart) ==> UniqueIds(r)
  {
    if cart == [] then []
    else if cart[0].Id() != id then [cart[0]] + RemoveItem(cart[1..], id)
    else RemoveItem(cart[1..], id)
  }

  /** `handlePlaceOrder`: the order data only feeds a notification; the cart is emptied. */
  function PlaceOrder(cart: seq<CartItem>): (r: seq<CartItem>)
    ensures ItemCount(r) == 0 && Total(r) == 0.0 && |r| == 0
  {
    []
  }

  /** `cartItemsCount`, the number shown on the header's cart badge. */
  function CartItemsCount(cart: seq<CartItem>): (n: int)
    ensures PositiveQuantities(cart) ==> (n == 0 <==> cart == [])
  {
    ItemCount(cart)
  }

  // ---------------------------------------------------------------------------
  // addToCart

  /** With unique ids, the entry of a product already in the cart is at one index and only it changes. */
  lemma AddToCartExisting(cart: seq<CartItem>, p: Product, k: int)
    requires UniqueIds(cart) && 0 <= k < |cart| && cart[k].Id() == p.id
    ensures AddToCart(cart, p) == cart[k := cart[k].(quantity := cart[k].quantity + 1)]
  {
    var r := AddToCart(cart, p);
    assert !Absent(cart, p.id);
    assert forall i :: 0 <= i < |cart| ==> r[i] == cart[k := cart[k].(quantity := cart[k].quantity + 1)][i];
  }

  /** Adding a product raises the item count by exactly one when ids are unique. */
  lemma AddToCartCount(cart: seq<CartItem>, p: Product)
    requires UniqueIds(cart)
    ensures ItemCount(AddToCart(cart, p)) == ItemCount(cart) + 1
  {
    if k :| 0 <= k < |cart| && cart[k].Id() == p.id {
      AddToCartExisting(cart, p, k);
      ItemCountReplace(cart, k, cart[k].(quantity := cart[k].quantity + 1));
    } else {
      ItemCountAppend(cart, [CartItem(p, 1)]);
    }
  }

  /**
   * Adding a product raises the total by one unit price: the price of the
   * snapshot already in the cart when there is one, else the product's price.
   */
  lemma AddToCartTotal(cart: seq<CartItem>, p: Product)
    requires UniqueIds(cart)
    ensures Find(cart, p.id).Some? ==> Total(AddToCart(cart, p)) == Total(cart) + Find(cart, p.id).value.Price()
    ensures Find(cart, p.id).None? ==> Total(AddToCart(cart, p)) == Total(cart) + p.price
  {
    if k :| 0 <= k < |cart| && cart[k].Id() == p.id {
      FindUnique(cart, k);
      AddToCartExisting(cart, p, k);
      IncrementTotal(cart, k);
    } else {
      AppendNewTotal(cart, p);
    }
  }

  /** Raising the entry at `k` by one unit raises the total by its price. */
  lemma IncrementTotal(cart: seq<CartItem>, k: int)
    requires 0 <= k < |cart|
    ensures Total(cart[k := cart[k].(quantity := cart[k].quantity + 1)]) == Total(cart) + cart[k].Price()
  {
    var e := cart[k];
    var e' := e.(quantity := e.quantity + 1);
    assert e'.Amount() == e.Amount() + e.Price();
    TotalReplace(cart, k, e');
  }

  /** Appending a new entry of quantity 1 raises the total by the product's price. */
  lemma AppendNewTotal(cart: seq<CartItem>, p: Product)
    ensures Total(cart + [CartItem(p, 1)]) == Total(cart) + p.price
  {
    var e := CartItem(p, 1);
    assert e.Amount() == p.price;
    TotalAppend(cart, [e]);
    assert Total([e]) == Total([]) + e.Amount();
  }

  /** The lookup returns the entry at `k` when it carries the id and no earlier entry does. */
  lemma {:induction false} FindIsFirst(cart: seq<CartItem>, id: string, k: int)
    requires 0 <= k < |cart| && cart[k].Id() == id && Absent(cart[..k], id)
    ensures Find(cart, id) == Some(cart[k])
  {
    if k > 0 {
      assert cart[0] == cart[..k][0];
      assert cart[1..][..k - 1] == cart[..k][1..];
      FindIsFirst(cart[1..], id, k - 1);
    }
  }

  /** With unique ids, `find` returns the one entry carrying the id. */
  lemma {:induction false} FindUnique(cart: seq<CartItem>, k: int)
    requires UniqueIds(cart) && 0 <= k < |cart|
    ensures Find(cart, cart[k].Id()) == Some(cart[k])
  {
    if k > 0 {
      FindUnique(cart[1..], k - 1);
    }
  }

  lemma AddToCartWellFormed(cart: seq<CartItem>, p: Product)
    requires WellFormed(cart)
    ensures WellFormed(AddToCart(cart, p))
  {
  }

  /** Adding the same product twice to an empty cart gives one entry with quantity 2. */
  lemma AddTwice(p: Product)
    ensures AddToCart(AddToCart([], p), p) == [CartItem(p, 2)]
  {
    var once := AddToCart([], p);
    assert once == [CartItem(p, 1)];
    assert !Absent(once, p.id);
  }

  // ---------------------------------------------------------------------------
  // updateQuantity

  lemma UpdateQuantityWellFormed(cart: seq<CartItem>, id: string, q: int)
    requires WellFormed(cart) && q >= 1
    ensures WellFormed(UpdateQuantity(cart, id, q))
  {
  }

  /** With unique ids, updating the quantity of the entry at `k` changes the count by the difference. */
  lemma UpdateQuantityCount(cart: seq<CartItem>, k: int, q: int)
    requires UniqueIds(cart) && 0 <= k < |cart|
    ensures UpdateQuantity(cart, cart[k].Id(), q) == cart[k := cart[k].(quantity := q)]
    ensures ItemCount(UpdateQuantity(cart, cart[k].Id(), q)) == ItemCount(cart) - cart[k].quantity + q
  {
    var r := UpdateQuantity(cart, cart[k].Id(), q);
    assert forall i :: 0 <= i < |cart| ==> r[i] == cart[k := cart[k].(quantity := q)][i];
    ItemCountReplace(cart, k, cart[k].(quantity := q));
  }

  /** Updating an id that is not in the cart changes nothing. */
  lemma UpdateQuantityAbsent(cart: seq<CartItem>, id: string, q: int)
    requires Absent(cart, id)
    ensures UpdateQuantity(cart, id, q) == cart
  {
    var r := UpdateQuantity(cart, id, q);
    assert forall i :: 0 <= i < |cart| ==> r[i] == cart[i];
  }

  // ---------------------------------------------------------------------------
  // removeItem

  /** Removing an id that is not in the cart leaves it unchanged. */
  lemma {:induction false} RemoveAbsent(cart: seq<CartItem>, id: string)
    requires Absent(cart, id)
    ensures RemoveItem(cart, id) == cart
  {
    if cart != [] {
      RemoveAbsent(cart[1..], id);
      assert cart == [cart[0]] + cart[1..];
    }
  }

  /** Removing twice is removing once. */
  lemma RemoveIdempotent(cart: seq<CartItem>, id: string)
    ensures RemoveItem(RemoveItem(cart, id), id) == RemoveItem(cart, id)
  {
    var r := RemoveItem(cart, id);
    assert forall i :: 0 <= i < |r| ==> r[i] in r;
    RemoveAbsent(r, id);
  }

  /** With unique ids, removing the id of the entry at `k` cuts exactly that entry out. */
  lemma {:induction false} RemoveAt(cart: seq<CartItem>, k: int)
    requires UniqueIds(cart) && 0 <= k < |cart|
    ensures RemoveItem(cart, cart[k].Id()) == cart[..k] + cart[k + 1..]
  {
    var id := cart[k].Id();
    if k == 0 {
      RemoveAbsent(cart[1..], id);
    } else {
      RemoveAt(cart[1..], k - 1);
      assert cart[1..][k - 1] == cart[k];
      assert cart[..k] + cart[k + 1..] == [cart[0]] + (cart[1..][..k - 1] + cart[1..][k..]);
    }
  }

  /** Removal distributes over concatenation: with the one-entry case, this fixes the order of any result. */
  lemma {:induction false} RemoveItemAppend(a: seq<CartItem>, b: seq<CartItem>, id: string)
    ensures RemoveItem(a + b, id) == RemoveItem(a, id) + RemoveItem(b, id)
    decreases |a|
  {
    if a != [] {
      var x, rest := a[0], a[1..];
      var kept: seq<CartItem> := if x.Id() != id then [x] else [];
      assert RemoveItem(a + b, id) == kept + RemoveItem(rest + b, id) by {
        assert a + b == [x] + (rest + b);
        RemoveItemCons(x, rest + b, id);
      }
      assert RemoveItem(a, id) == kept + RemoveItem(rest, id) by {
        assert a == [x] + rest;
        RemoveItemCons(x, rest, id);
      }
      RemoveItemAppend(rest, b, id);
      var ra, rb := RemoveItem(rest, id), RemoveItem(b, id);
      assert kept + (ra + rb) == (kept + ra) + rb;
    } else {
      assert a + b == b;
    }
  }

  /** One unfolding of the filter at the head of the list. */
  lemma RemoveItemCons(x: CartItem, rest: seq<CartItem>, id: string)
    ensures RemoveItem([x] + rest, id) == (if x.Id() != id then [x] else []) + RemoveItem(rest, id)
  {
    assert ([x] + rest)[1..] == rest;
  }

  /** On one entry, removal keeps it exactly when its id differs. */
  lemma RemoveItemSingle(x: CartItem, id: string)
    ensures RemoveItem([x], id) == if x.Id() != id then [x] else []
  {
  }

  lemma RemoveItemWellFormed(cart: seq<CartItem>, id: string)
    requires WellFormed(cart)
    ensures WellFormed(RemoveItem(cart, id))
  {
    var r := RemoveItem(cart, id);
    forall i | 0 <= i < |r| ensures r[i].quantity >= 1 {
      assert r[i] in r;
    }
  }

  /** With unique ids, removing an entry lowers the count and the total by exactly its share. */
  lemma RemoveItemTotals(cart: seq<CartItem>, k: int)
    requires UniqueIds(cart) && 0 <= k < |cart|
    ensures ItemCount(RemoveItem(cart, cart[k].Id())) == ItemCount(cart) - cart[k].quantity
    ensures Total(RemoveItem(cart, cart[k].Id())) == Total(cart) - cart[k].Amount()
  {
    RemoveAt(cart, k);
    ItemCountDrop(cart, k);
    TotalDrop(cart, k);
  }
}
