/**
 * The storefront's value types: a catalogue product, a cart entry (a product
 * snapshot with a quantity), and the two folds every view computes over the
 * cart (the item count and the money total).
 */
module CartItems {
  import opened Wrappers

  /** A catalogue product as the storefront receives it. Prices are exact reals. */
  datatype Product = Product(
    id: string,
    name: string,
    description: string,
    price: real,
    originalPrice: Option<real>,
    imageUrl: string,
    rating: real,
    reviewsCount: int,
    badge: Option<string>,
    inStock: bool,
    categoryId: string)

  /** A cart entry: the product fields spread into the entry, plus a quantity. */
  datatype CartItem = CartItem(product: Product, quantity: int)
  {
    function Id(): string { product.id }
    function Price(): real { product.price }

    /** The entry's line amount, `price * quantity`. */
    function Amount(): real { product.price * quantity as real }
  }

  /** No two entries of the cart share a product id. */
  ghost predicate UniqueIds(cart: seq<CartItem>) {
    forall i, j :: 0 <= i < j < |cart| ==> cart[i].Id() != cart[j].Id()
  }

  /** Every entry has quantity at least 1. */
  ghost predicate PositiveQuantities(cart: seq<CartItem>) {
    forall i :: 0 <= i < |cart| ==> cart[i].quantity >= 1
  }

  /** The invariant the cart keeps under the operations the UI offers. */
  ghost predicate WellFormed(cart: seq<CartItem>) {
    UniqueIds(cart) && PositiveQuantities(cart)
  }

  /** True when no entry carries the given id. */
  ghost predicate Absent(cart: seq<CartItem>, id: string) {
    forall i :: 0 <= i < |cart| ==> cart[i].Id() != id
  }

  /** `items.reduce((sum, item) => sum + item.quantity, 0)`: a left fold. */
  function ItemCount(cart: seq<CartItem>): (n: int)
    ensures PositiveQuantities(cart) ==> n >= |cart|
    ensures PositiveQuantities(cart) ==> (n == 0 <==> cart == [])
  {
    if cart == [] then 0
    else ItemCount(cart[..|cart| - 1]) + cart[|cart| - 1].quantity
  }

  /** `items.reduce((sum, item) => sum + item.price * item.quantity, 0)`: a left fold. */
  function Total(cart: seq<CartItem>): (t: real)
    ensures (forall i :: 0 <= i < |cart| ==> cart[i].Amount() >= 0.0) ==> t >= 0.0
  {
    if cart == [] then 0.0
    else Total(cart[..|cart| - 1]) + cart[|cart| - 1].Amount()
  }

  lemma {:induction false} ItemCountAppend(a: seq<CartItem>, b: seq<CartItem>)
    ensures ItemCount(a + b) == ItemCount(a) + ItemCount(b)
    decreases |b|
  {
    if b != [] {
      var b' := b[..|b| - 1];
      assert (a + b)[..|a + b| - 1] == a + b';
      ItemCountAppend(a, b');
    } else {
      assert a + b == a;
    }
  }

  lemma {:induction false} TotalAppend(a: seq<CartItem>, b: seq<CartItem>)
    ensures Total(a + b) == Total(a) + Total(b)
    decreases |b|
  {
    if b != [] {
      var b' := b[..|b| - 1];
      assert (a + b)[..|a + b| - 1] == a + b';
      TotalAppend(a, b');
    } else {
      assert a + b == a;
    }
  }

  /** Splitting a sequence around one of its elements, with the multiset facts the permutation proofs use. */
  lemma SplitAt(b: seq<CartItem>, j: int)
    requires 0 <= j < |b|
    ensures b == b[..j] + [b[j]] + b[j + 1..]
    ensures multiset(b[..j] + b[j + 1..]) == multiset(b) - multiset{b[j]}
  {
    assert b == b[..j] + [b[j]] + b[j + 1..];
  }

  /** Replacing one entry changes the count by the difference of the two quantities. */
  lemma ItemCountReplace(cart: seq<CartItem>, k: int, x: CartItem)
    requires 0 <= k < |cart|
    ensures ItemCount(cart[k := x]) == ItemCount(cart) - cart[k].quantity + x.quantity
  {
    SplitAt(cart, k);
    SplitAt(cart[k := x], k);
    assert cart[k := x][..k] == cart[..k] && cart[k := x][k + 1..] == cart[k + 1..];
    ItemCountAppend(cart[..k] + [cart[k]], cart[k + 1..]);
    ItemCountAppend(cart[..k], [cart[k]]);
    ItemCountAppend(cart[..k] + [x], cart[k + 1..]);
    ItemCountAppend(cart[..k], [x]);
  }

  /** Replacing one entry changes the total by the difference of the two line amounts. */
  lemma TotalReplace(cart: seq<CartItem>, k: int, x: CartItem)
    requires 0 <= k < |cart|
    ensures Total(cart[k := x]) == Total(cart) - cart[k].Amount() + x.Amount()
  {
    SplitAt(cart, k);
    SplitAt(cart[k := x], k);
    assert cart[k := x][..k] == cart[..k] && cart[k := x][k + 1..] == cart[k + 1..];
    TotalAppend(cart[..k] + [cart[k]], cart[k + 1..]);
    TotalAppend(cart[..k], [cart[k]]);
    TotalAppend(cart[..k] + [x], cart[k + 1..]);
    TotalAppend(cart[..k], [x]);
  }

  /** Dropping one entry lowers the count by its quantity. */
  lemma ItemCountDrop(cart: seq<CartItem>, k: int)
    requires 0 <= k < |cart|
    ensures ItemCount(cart[..k] + cart[k + 1..]) == ItemCount(cart) - cart[k].quantity
  {
    SplitAt(cart, k);
    ItemCountAppend(cart[..k] + [cart[k]], cart[k + 1..]);
    ItemCountAppend(cart[..k], [cart[k]]);
    ItemCountAppend(cart[..k], cart[k + 1..]);
  }

  /** Dropping one entry lowers the total by its line amount. */
  lemma TotalDrop(cart: seq<CartItem>, k: int)
    requires 0 <= k < |cart|
    ensures Total(cart[..k] + cart[k + 1..]) == Total(cart) - cart[k].Amount()
  {
    SplitAt(cart, k);
    TotalAppend(cart[..k] + [cart[k]], cart[k + 1..]);
    TotalAppend(cart[..k], [cart[k]]);
    TotalAppend(cart[..k], cart[k + 1..]);
  }

  /** The item count does not depend on the order of the entries. */
  lemma {:induction false} ItemCountPermutation(a: seq<CartItem>, b: seq<CartItem>)
    requires multiset(a) == multiset(b)
    ensures ItemCount(a) == ItemCount(b)
    decreases |a|
  {
    if a != [] {
      var n := |a| - 1;
      var x := a[n];
      assert a == a[..n] + [x];
      assert x in multiset(b);
      var j :| 0 <= j < |b| && b[j] == x;
      SplitAt(b, j);
      ItemCountPermutation(a[..n], b[..j] + b[j + 1..]);
      ItemCountDrop(b, j);
    } else {
      assert |b| == |multiset(b)| == 0;
    }
  }

  /** The total does not depend on the order of the entries. */
  lemma {:induction false} TotalPermutation(a: seq<CartItem>, b: seq<CartItem>)
    requires multiset(a) == multiset(b)
    ensures Total(a) == Total(b)
    decreases |a|
  {
    if a != [] {
      var n := |a| - 1;
      var x := a[n];
      assert a == a[..n] + [x];
      assert x in multiset(b);
      var j :| 0 <= j < |b| && b[j] == x;
      SplitAt(b, j);
      TotalPermutation(a[..n], b[..j] + b[j + 1..]);
      TotalDrop(b, j);
    } else {
      assert |b| == |multiset(b)| == 0;
    }
  }
}
