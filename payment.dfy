/**
 * The payment edge function's local computation: the line items and redirect
 * targets it hands to the payment provider's checkout-session call, and the
 * total it computes beside them.
 */
module Payment {
  import opened Wrappers
  import opened CartItems

  /** An entry of the request body's `items` list. */
  datatype RequestItem = RequestItem(id: string, name: string, price: real, imageUrl: Option<string>, quantity: int)

  datatype ProductData = ProductData(name: string, images: Option<seq<string>>)
  datatype PriceData = PriceData(currency: string, productData: ProductData, unitAmount: int)
  datatype LineItem = LineItem(priceData: PriceData, quantity: int)

  /** `Math.round`: the nearest integer, halves rounding up. */
  function Round(x: real): (n: int)
    ensures x - 0.5 < n as real <= x + 0.5
  {
    (x + 0.5).Floor
  }

  /** `Math.round` has exactly one candidate: the contract above pins the result down. */
  lemma RoundUnique(x: real, m: int)
    requires x - 0.5 < m as real <= x + 0.5
    ensures Round(x) == m
  {
  }

  /** A price in minor units (cents), `Math.round(price * 100)`. */
  function UnitAmount(price: real): (cents: int)
    ensures price * 100.0 - 0.5 < cents as real <= price * 100.0 + 0.5
  {
    Round(price * 100.0)
  }

  /** A price with at most two decimals converts to its exact cent value. */
  lemma UnitAmountOfCents(cents: int)
    ensures UnitAmount(cents as real / 100.0) == cents
  {
    RoundUnique(cents as real / 100.0 * 100.0, cents);
  }

  /** A price exactly half a cent past a cent value rounds up. */
  lemma UnitAmountHalfCentRoundsUp(cents: int)
    ensures UnitAmount((cents as real + 0.5) / 100.0) == cents + 1
  {
    RoundUnique((cents as real + 0.5) / 100.0 * 100.0, cents + 1);
  }

  /** A string is truthy when present and non-empty. */
  predicate Truthy(s: Option<string>) {
    s.Some? && s.value != ""
  }

  /** One request item as a provider line item. */
  function ToLineItem(item: RequestItem): (li: LineItem)
    ensures li.priceData.currency == "usd"
    ensures li.priceData.productData.name == item.name && li.quantity == item.quantity
    ensures li.priceData.productData.images == if Truthy(item.imageUrl) then Some([item.imageUrl.value]) else None
    ensures li.priceData.unitAmount == UnitAmount(item.price)
  {
    LineItem(
      PriceData("usd",
        ProductData(item.name, if Truthy(item.imageUrl) then Some([item.imageUrl.value]) else None),
        UnitAmount(item.price)),
      item.quantity)
  }

  /** `items.map(...)`: one line item per request item, in order. */
  function LineItems(items: seq<RequestItem>): (r: seq<LineItem>)
    ensures |r| == |items|
    ensures forall i :: 0 <= i < |items| ==> r[i] == ToLineItem(items[i])
  {
    seq(|items|, i requires 0 <= i < |items| => ToLineItem(items[i]))
  }

  /** What the provider charges for the line items: unit amount times quantity, summed. */
  function Charged(lines: seq<LineItem>): int
  {
    if lines == [] then 0
    else Charged(lines[..|lines| - 1]) + lines[|lines| - 1].priceData.unitAmount * lines[|lines| - 1].quantity
  }

  /** The price is a whole number of cents. */
  predicate IsCents(price: real) {
    (price * 100.0).Floor as real == price * 100.0
  }

  /** Every request price is a whole number of cents. */
  predicate AllCents(items: seq<RequestItem>) {
    forall i :: 0 <= i < |items| ==> IsCents(items[i].price)
  }

  lemma LineCharge(item: RequestItem)
    requires IsCents(item.price)
    ensures (UnitAmount(item.price) * item.quantity) as real == RequestAmount(item)
  {
    var c := (item.price * 100.0).Floor;
    RoundUnique(item.price * 100.0, c);
    assert UnitAmount(item.price) == c;
    assert (c * item.quantity) as real == c as real * item.quantity as real;
  }

  /** An item's contribution to the computed total, `price * quantity * 100`. */
  function RequestAmount(item: RequestItem): real {
    item.price * item.quantity as real * 100.0
  }

  /**
   * The total the handler computes: the left fold of price times quantity
   * times 100 over the request items.
   */
  function TotalAmount(items: seq<RequestItem>): (amount: real)
    ensures (forall i :: 0 <= i < |items| ==> RequestAmount(items[i]) >= 0.0) ==> amount >= 0.0
  {
    if items == [] then 0.0
    else TotalAmount(items[..|items| - 1]) + RequestAmount(items[|items| - 1])
  }

  /**
   * When every price is a whole number of cents, the total computed here is
   * exactly what the line items charge.
   */
  lemma {:induction false} TotalAmountMatchesCharge(items: seq<RequestItem>)
    requires AllCents(items)
    ensures TotalAmount(items) == Charged(LineItems(items)) as real
    decreases |items|
  {
    if items != [] {
      var n := |items| - 1;
      assert AllCents(items[..n]);
      TotalAmountMatchesCharge(items[..n]);
      LineCharge(items[n]);
      TotalAmountStep(items);
      ChargedStep(items);
      var c0, m := Charged(LineItems(items[..n])), UnitAmount(items[n].price) * items[n].quantity;
      assert Charged(LineItems(items)) == c0 + m;
      assert TotalAmount(items) == c0 as real + m as real;
    }
  }

  /** One unfolding of the charge over the line items built from `items`. */
  lemma ChargedStep(items: seq<RequestItem>)
    requires items != []
    ensures Charged(LineItems(items)) ==
      Charged(LineItems(items[..|items| - 1])) + UnitAmount(items[|items| - 1].price) * items[|items| - 1].quantity
  {
    var n := |items| - 1;
    assert LineItems(items)[..n] == LineItems(items[..n]);
  }

  /** The half-cent price 0.005: the computed total is half a cent, the line item charges one cent. */
  lemma HalfCentPriceDiffers()
    ensures TotalAmount([RequestItem("1", "x", 0.005, None, 1)]) == 0.5
    ensures Charged(LineItems([RequestItem("1", "x", 0.005, None, 1)])) == 1
  {
    var items := [RequestItem("1", "x", 0.005, None, 1)];
    RoundUnique(0.005 * 100.0, 1);
    assert LineItems(items)[0].priceData.unitAmount == 1;
    assert TotalAmount(items[..0]) == 0.0;
    assert LineItems(items)[..0] == [];
  }

  /** The request entry a cart entry becomes, in the shape the function reads. */
  function FromCartItem(c: CartItem): RequestItem {
    RequestItem(c.Id(), c.product.name, c.Price(), Some(c.product.imageUrl), c.quantity)
  }

  function FromCart(cart: seq<CartItem>): seq<RequestItem>
  {
    seq(|cart|, i requires 0 <= i < |cart| => FromCartItem(cart[i]))
  }

  /** For items built from a cart, the total is 100 times the cart's total. */
  lemma {:induction false} TotalAmountOfCart(cart: seq<CartItem>)
    ensures TotalAmount(FromCart(cart)) == 100.0 * Total(cart)
    decreases |cart|
  {
    if cart != [] {
      var n := |cart| - 1;
      var items := FromCart(cart);
      FromCartPrefix(cart);
      TotalAmountOfCart(cart[..n]);
      TotalAmountStep(items);
      CartLineAmount(cart[n]);
      TotalLast(cart);
    }
  }

  /** Building request items commutes with dropping the last entry. */
  lemma FromCartPrefix(cart: seq<CartItem>)
    requires cart != []
    ensures FromCart(cart)[..|cart| - 1] == FromCart(cart[..|cart| - 1])
    ensures FromCart(cart)[|cart| - 1] == FromCartItem(cart[|cart| - 1])
  {
  }

  /** One unfolding of the cart total. */
  lemma TotalLast(cart: seq<CartItem>)
    requires cart != []
    ensures Total(cart) == Total(cart[..|cart| - 1]) + cart[|cart| - 1].Amount()
  {
  }

  /** One unfolding of the fold: the total of all but the last item, plus the last item's amount. */
  lemma TotalAmountStep(items: seq<RequestItem>)
    requires items != []
    ensures TotalAmount(items) == TotalAmount(items[..|items| - 1]) + RequestAmount(items[|items| - 1])
  {
  }

  /** A cart entry's request amount is 100 times its line amount. */
  lemma CartLineAmount(c: CartItem)
    ensures RequestAmount(FromCartItem(c)) == 100.0 * c.Amount()
  {
  }

  /** The worked example: 10.00 x 2 and 5.50 x 1 total 25.50 and become line items of 1000 and 550 cents. */
  lemma WorkedExample(a: Product, b: Product)
    requires a.id == "1" && a.price == 10.0 && b.id == "2" && b.price == 5.5
    ensures Total([CartItem(a, 2), CartItem(b, 1)]) == 25.5
    ensures LineItems(FromCart([CartItem(a, 2), CartItem(b, 1)]))[0].priceData.unitAmount == 1000
    ensures LineItems(FromCart([CartItem(a, 2), CartItem(b, 1)]))[1].priceData.unitAmount == 550
    ensures LineItems(FromCart([CartItem(a, 2), CartItem(b, 1)]))[0].quantity == 2
    ensures LineItems(FromCart([CartItem(a, 2), CartItem(b, 1)]))[1].quantity == 1
  {
    var cart := [CartItem(a, 2), CartItem(b, 1)];
    assert cart[..1] == [CartItem(a, 2)] && cart[..1][..0] == [];
    assert Total(cart[..1]) == 20.0;
    UnitAmountOfCents(1000);
    UnitAmountOfCents(550);
  }

  // ---------------------------------------------------------------------------
  // Redirect targets

  const SuccessPath: string := "/payment-success?session_id={CHECKOUT_SESSION_ID}"
  const CancelPath: string := "/payment-canceled"

  /** The `origin` header in a template literal: a missing header prints as "null". */
  function OriginText(origin: Option<string>): (text: string)
    ensures origin.Some? ==> text == origin.value
    ensures origin.None? ==> text == "null"
  {
    match origin
    case Some(o) => o
    case None => "null"
  }

  function SuccessUrl(origin: Option<string>): (url: string)
    ensures |url| == |OriginText(origin)| + |SuccessPath|
    ensures url[..|OriginText(origin)|] == OriginText(origin)
    ensures url[|OriginText(origin)|..] == SuccessPath
  {
    OriginText(origin) + SuccessPath
  }

  function CancelUrl(origin: Option<string>): (url: string)
    ensures |url| == |OriginText(origin)| + |CancelPath|
    ensures url[..|OriginText(origin)|] == OriginText(origin)
    ensures url[|OriginText(origin)|..] == CancelPath
  {
    OriginText(origin) + CancelPath
  }

  /** The two redirect targets never coincide, and each determines the origin text. */
  lemma RedirectTargets(o1: Option<string>, o2: Option<string>)
    ensures SuccessUrl(o1) != CancelUrl(o2)
    ensures SuccessUrl(o1) == SuccessUrl(o2) ==> OriginText(o1) == OriginText(o2)
    ensures CancelUrl(o1) == CancelUrl(o2) ==> OriginText(o1) == OriginText(o2)
  {
    var t1, t2 := OriginText(o1), OriginText(o2);
    var s, c := SuccessUrl(o1), CancelUrl(o2);
    assert s[|s| - 1] == SuccessPath[|SuccessPath| - 1] == '}';
    assert c[|c| - 1] == CancelPath[|CancelPath| - 1] == 'd';
    if SuccessUrl(o1) == SuccessUrl(o2) {
      assert t1 == SuccessUrl(o1)[..|t1|];
    }
    if CancelUrl(o1) == CancelUrl(o2) {
      assert t1 == CancelUrl(o1)[..|t1|];
    }
  }

  // ---------------------------------------------------------------------------
  // The request handler up to the provider call

  /** The parameters of the checkout-session request sent to the provider. */
  datatype SessionParams = SessionParams(
    lineItems: seq<LineItem>,
    mode: string,
    successUrl: string,
    cancelUrl: string,
    allowedCountries: seq<string>,
    billingAddressCollection: string)

  datatype Outcome =
    | Preflight              // CORS pre-flight answered with the CORS headers only
    | CreateSession(params: SessionParams, totalAmount: real)
    | ServerError            // a thrown error answered with status 500

  /**
   * The handler: an OPTIONS request is a pre-flight; a body without an
   * `items` list throws when it is folded and becomes a 500; any list,
   * the empty one included, goes on to the provider call.
   */
  function Handle(httpMethod: string, items: Option<seq<RequestItem>>, origin: Option<string>): (out: Outcome)
    ensures httpMethod == "OPTIONS" <==> out.Preflight?
    ensures out.ServerError? <==> httpMethod != "OPTIONS" && items.None?
    ensures out.CreateSession? ==>
      && out.params.lineItems == LineItems(items.value)
      && out.params.successUrl == SuccessUrl(origin)
      && out.params.cancelUrl == CancelUrl(origin)
      && out.params.mode == "payment"
      && out.totalAmount == TotalAmount(items.value)
  {
    if httpMethod == "OPTIONS" then Preflight
    else match items
      case None => ServerError
      case Some(list) =>
        CreateSession(
          SessionParams(LineItems(list), "payment", SuccessUrl(origin), CancelUrl(origin), ["US", "CA"], "required"),
          TotalAmount(list))
  }

  /** There is no empty-cart check: an empty list still reaches the provider, with no line items. */
  lemma EmptyItemsReachProvider(origin: Option<string>)
    ensures Handle("POST", Some([]), origin).CreateSession?
    ensures Handle("POST", Some([]), origin).params.lineItems == []
  {
  }
}
