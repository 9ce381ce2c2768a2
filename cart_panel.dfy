/**
 * The cart side panel: what it shows for a list of entries, and the rules of
 * its minus, plus and remove buttons, which call back into the page's
 * `updateQuantity` and `removeItem` handlers.
 */
module CartPanel {
  import opened Wrappers
  import opened CartItems
  import opened CartStore

  /**
   * What the panel shows: the empty-cart message, or the entry list with the
   * total and the "Proceed to Checkout" button. The count badge in the title
   * is shown in either case when the item count is positive.
   */
  datatype PanelView =
    | EmptyCart(badge: Option<int>)
    | Entries(badge: Option<int>, lines: seq<CartItem>, total: real)
  {
    /** The checkout action exists only in the entry list. */
    predicate OffersCheckout() { Entries? }
  }

  function View(items: seq<CartItem>): (v: PanelView)
    ensures v.OffersCheckout() <==> |items| != 0
    ensures v.badge.Some? <==> ItemCount(items) > 0
    ensures v.badge.Some? ==> v.badge.value == ItemCount(items)
    ensures v.Entries? ==> v.lines == items && v.total == Total(items)
  {
    var itemCount := ItemCount(items);
    var badge := if itemCount > 0 then Some(itemCount) else None;
    if |items| == 0 then EmptyCart(badge) else Entries(badge, items, Total(items))
  }

  /** For a well-formed cart the badge and the checkout action appear together. */
  lemma BadgeIffCheckout(items: seq<CartItem>)
    requires PositiveQuantities(items)
    ensures View(items).badge.Some? <==> View(items).OffersCheckout()
  {
  }

  /** The minus button: decrement when the quantity is above 1, otherwise remove the entry. */
  function MinusButton(cart: seq<CartItem>, item: CartItem): (r: seq<CartItem>)
    ensures item.quantity > 1 ==> r == UpdateQuantity(cart, item.Id(), item.quantity - 1)
    ensures item.quantity <= 1 ==> r == RemoveItem(cart, item.Id())
    ensures PositiveQuantities(cart) ==> PositiveQuantities(r)
    ensures UniqueIds(cart) ==> UniqueIds(r)
  {
    if item.quantity > 1 then
      UpdateQuantity(cart, item.Id(), item.quantity - 1)
    else
      var r := RemoveItem(cart, item.Id());
      assert forall i :: 0 <= i < |r| ==> r[i] in cart;
      r
  }

  /** The plus button: set the quantity to one more than the entry shows. */
  function PlusButton(cart: seq<CartItem>, item: CartItem): (r: seq<CartItem>)
    ensures |r| == |cart|
    ensures forall i :: 0 <= i < |cart| ==> r[i].product == cart[i].product
    ensures forall i :: 0 <= i < |cart| && cart[i].Id() == item.Id() ==> r[i].quantity == item.quantity + 1
    ensures forall i :: 0 <= i < |cart| && cart[i].Id() != item.Id() ==> r[i] == cart[i]
    ensures item.quantity >= 0 && WellFormed(cart) ==> WellFormed(r)
  {
    UpdateQuantity(cart, item.Id(), item.quantity + 1)
  }

  /** The minus button on the entry at `k` of a cart with unique ids: one less, or the entry is cut out. */
  lemma MinusButtonAt(cart: seq<CartItem>, k: int)
    requires UniqueIds(cart) && 0 <= k < |cart|
    ensures cart[k].quantity > 1 ==>
      MinusButton(cart, cart[k]) == cart[k := cart[k].(quantity := cart[k].quantity - 1)]
    ensures cart[k].quantity <= 1 ==> MinusButton(cart, cart[k]) == cart[..k] + cart[k + 1..]
  {
    if cart[k].quantity > 1 {
      UpdateQuantityCount(cart, k, cart[k].quantity - 1);
    } else {
      RemoveAt(cart, k);
    }
  }

  /** On a well-formed cart each minus press lowers the item count by exactly one. */
  lemma MinusLowersCount(cart: seq<CartItem>, k: int)
    requires WellFormed(cart) && 0 <= k < |cart|
    ensures ItemCount(MinusButton(cart, cart[k])) == ItemCount(cart) - 1
  {
    MinusButtonAt(cart, k);
    if cart[k].quantity > 1 {
      ItemCountReplace(cart, k, cart[k].(quantity := cart[k].quantity - 1));
    } else {
      assert cart[k].quantity == 1;
      ItemCountDrop(cart, k);
    }
  }

  /** Each plus press raises the item count by exactly one. */
  lemma PlusRaisesCount(cart: seq<CartItem>, k: int)
    requires UniqueIds(cart) && 0 <= k < |cart|
    ensures ItemCount(PlusButton(cart, cart[k])) == ItemCount(cart) + 1
  {
    UpdateQuantityCount(cart, k, cart[k].quantity + 1);
  }

  /** What a shopper can do: add a product from its card, or press a button on the entry at an index. */
  datatype UiAction =
    | AddProduct(product: Product)
    | Increase(index: nat)
    | Decrease(index: nat)
    | Discard(index: nat)

  /** One UI action; a button on an index past the end does not exist, so nothing happens. */
  function Apply(cart: seq<CartItem>, a: UiAction): seq<CartItem>
  {
    match a
    case AddProduct(p) => AddToCart(cart, p)
    case Increase(k) => if k < |cart| then PlusButton(cart, cart[k]) else cart
    case Decrease(k) => if k < |cart| then MinusButton(cart, cart[k]) else cart
    case Discard(k) => if k < |cart| then RemoveItem(cart, cart[k].Id()) else cart
  }

  /** A sequence of UI actions, applied in order. */
  function Run(cart: seq<CartItem>, actions: seq<UiAction>): seq<CartItem>
    decreases |actions|
  {
    if actions == [] then cart else Run(Apply(cart, actions[0]), actions[1..])
  }

  lemma ApplyWellFormed(cart: seq<CartItem>, a: UiAction)
    requires WellFormed(cart)
    ensures WellFormed(Apply(cart, a))
  {
    match a
    case AddProduct(p) => AddToCartWellFormed(cart, p);
    case Increase(k) =>
    case Decrease(k) =>
    case Discard(k) => if k < |cart| { RemoveItemWellFormed(cart, cart[k].Id()); }
  }

  lemma {:induction false} RunWellFormed(cart: seq<CartItem>, actions: seq<UiAction>)
    requires WellFormed(cart)
    ensures WellFormed(Run(cart, actions))
    decreases |actions|
  {
    if actions != [] {
      ApplyWellFormed(cart, actions[0]);
      RunWellFormed(Apply(cart, actions[0]), actions[1..]);
    }
  }

  /**
   * From the empty cart, whatever the shopper does through the UI, ids stay
   * unique and no quantity drops below 1.
   */
  lemma QuantitiesStayPositive(actions: seq<UiAction>)
    ensures UniqueIds(Run([], actions))
    ensures forall i :: 0 <= i < |Run([], actions)| ==> Run([], actions)[i].quantity >= 1
  {
    RunWellFormed([], actions);
  }
}
