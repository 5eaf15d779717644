/**
 * The cart, checkout and order-confirmation views of rose_cakes/views.py.
 * The browser session and the database are objects the views update in
 * place; a 404 from `get_object_or_404` is the `NotFound` response.
 */
module Views {
  import opened Wrappers
  import opened Text
  import opened Models
  import opened Cart
  import opened Pricing
  import opened Orders

  /** The only pincode the checkout delivers to. */
  const SERVICE_PINCODE: string := "682001"

  const EMPTY_CART_MESSAGE: string := "Your cart is empty!"
  const PINCODE_MESSAGE: string := "Sorry, we only deliver within 5km radius of our location (Pincode: 682001)."
  const COUPON_MESSAGE: string := "Invalid or expired coupon code!"

  /** The session's `cart` key; a missing key reads as an empty dict. */
  class Session {
    var cart: seq<Entry>

    ghost predicate Valid()
      reads this
    {
      WellFormed(cart)
    }

    constructor ()
      ensures Valid() && cart == []
    {
      cart := [];
    }
  }

  /** The database tables the views read and write. */
  class Store {
    var cakes: map<CakeId, Cake>
    var coupons: seq<Coupon>
    var offers: seq<SpecialOffer>
    var orders: seq<Order>
    var items: seq<OrderItem>
    /** The id the next Order row will receive. */
    var nextOrderId: OrderId

    /**
     * Column constraints: unique coupon codes, two-place prices, and order
     * ids below the next id to be handed out (so a new order's id is fresh).
     */
    ghost predicate Valid()
      reads this
    {
      && UniqueCodes(coupons)
      && (forall id :: id in cakes ==> cakes[id].id == id && Cents(cakes[id].price))
      && (forall i :: 0 <= i < |items| ==> Cents(items[i].price) && items[i].order < nextOrderId)
      && (forall i :: 0 <= i < |orders| ==> orders[i].id < nextOrderId)
    }

    constructor (cakes: map<CakeId, Cake>, coupons: seq<Coupon>, offers: seq<SpecialOffer>)
      requires UniqueCodes(coupons)
      requires forall id :: id in cakes ==> cakes[id].id == id && Cents(cakes[id].price)
      ensures Valid()
      ensures this.cakes == cakes && this.coupons == coupons && this.offers == offers
      ensures orders == [] && items == [] && nextOrderId == 1
    {
      this.cakes := cakes;
      this.coupons := coupons;
      this.offers := offers;
      orders := [];
      items := [];
      nextOrderId := 1;
    }
  }

  datatype Flash = Success(text: string) | Error(text: string)

  datatype Target = CakeDetail(cake: CakeId) | CartView | CheckoutView

  datatype CheckoutForm = CheckoutForm(
    name: string,
    email: string,
    address: string,
    pincode: Option<string>,
    couponCode: Option<string>)

  datatype CheckoutRequest = Get | Post(form: CheckoutForm)

  datatype Response =
    | NotFound
    | Redirect(to: Target, flash: Flash)
    | CartPage(lines: seq<CartLine>, total: real, totalItems: int, deliveryCharge: real, finalTotal: real)
    | CheckoutPage(quote: Quote)
    | OrderPlaced(lines: seq<CartLine>, total: real, deliveryCharge: real, offerDiscount: real,
                  appliedOffer: Option<SpecialOffer>, paymentRef: string,
                  customerName: string, customerEmail: string, orderId: OrderId)
    | ConfirmationPage(order: Order, items: seq<(OrderItem, real)>)

  /** add_to_cart: one more unit of a listed cake, then back to its page. */
  method AddToCart(session: Session, cakes: map<CakeId, Cake>, id: CakeId) returns (resp: Response)
    requires session.Valid()
    modifies session
    ensures session.Valid()
    ensures id !in cakes ==> resp == NotFound && session.cart == old(session.cart)
    ensures id in cakes ==>
      && session.cart == Added(old(session.cart), id)
      && resp == Redirect(CakeDetail(id), Success(cakes[id].name + " added to cart!"))
  {
    if id !in cakes {
      return NotFound;
    }
    var cake := cakes[id];
    AddedSpec(session.cart, id);
    var found := IndexOf(session.cart, id);
    if found.Some? {
      var i := found.value;
      session.cart := session.cart[i := Entry(id, session.cart[i].quantity + 1)];
    } else {
      session.cart := session.cart + [Entry(id, 1)];
    }
    resp := Redirect(CakeDetail(id), Success(cake.name + " added to cart!"));
  }

  /** buy_now: the cart becomes exactly one unit of this cake. */
  method BuyNow(session: Session, cakes: map<CakeId, Cake>, id: CakeId) returns (resp: Response)
    requires session.Valid()
    modifies session
    ensures session.Valid()
    ensures id !in cakes ==> resp == NotFound && session.cart == old(session.cart)
    ensures id in cakes ==>
      && session.cart == BoughtNow(id)
      && resp == Redirect(CheckoutView, Success(cakes[id].name + " added to cart. Proceeding to checkout..."))
  {
    if id !in cakes {
      return NotFound;
    }
    var cake := cakes[id];
    session.cart := [Entry(id, 1)];
    resp := Redirect(CheckoutView, Success(cake.name + " added to cart. Proceeding to checkout..."));
  }

  /** remove_from_cart: one unit fewer, deleting the entry at the last unit. */
  method RemoveFromCart(session: Session, cakes: map<CakeId, Cake>, id: CakeId) returns (resp: Response)
    requires session.Valid()
    modifies session
    ensures session.Valid()
    ensures id !in cakes ==> resp == NotFound && session.cart == old(session.cart)
    ensures id in cakes ==>
      && session.cart == Removed(old(session.cart), id)
      && resp == Redirect(CartView, Success(cakes[id].name + " removed from cart!"))
  {
    if id !in cakes {
      return NotFound;
    }
    var cake := cakes[id];
    RemovedSpec(session.cart, id);
    var found := IndexOf(session.cart, id);
    if found.Some? {
      var i := found.value;
      if session.cart[i].quantity > 1 {
        session.cart := session.cart[i := Entry(id, session.cart[i].quantity - 1)];
      } else {
        session.cart := session.cart[..i] + session.cart[i + 1..];
      }
    }
    resp := Redirect(CartView, Success(cake.name + " removed from cart!"));
  }

  /**
   * The loop both the cart and the checkout views run over the cart: look up
   * each cake (404 on a missing one) and add up `price * quantity` and the
   * quantities.
   */
  method PriceCart(cart: seq<Entry>, cakes: map<CakeId, Cake>) returns (priced: Option<(seq<CartLine>, real, int)>)
    ensures priced.None? <==> !Listed(cart, cakes)
    ensures priced.Some? ==> priced.value == (Lines(cart, cakes), Subtotal(cart, cakes), TotalItems(cart))
  {
    var lines: seq<CartLine> := [];
    var total := 0.0;
    var totalItems := 0;
    var i := 0;
    while i < |cart|
      invariant 0 <= i <= |cart|
      invariant Listed(cart[..i], cakes)
      invariant lines == Lines(cart[..i], cakes)
      invariant total == Subtotal(cart[..i], cakes)
      invariant totalItems == TotalItems(cart[..i])
    {
      var e := cart[i];
      if e.cake !in cakes {
        return None;
      }
      var cake := cakes[e.cake];
      var subtotal := cake.price * e.quantity as real;
      assert cart[..i + 1][..i] == cart[..i] && cart[..i + 1][i] == e;
      assert Listed(cart[..i + 1], cakes);
      ghost var next := Lines(cart[..i + 1], cakes);
      assert next[i] == CartLine(cake, e.quantity, subtotal);
      assert forall k :: 0 <= k < i ==> next[k] == lines[k];
      assert next == lines + [CartLine(cake, e.quantity, subtotal)];
      total := total + subtotal;
      totalItems := totalItems + e.quantity;
      lines := lines + [CartLine(cake, e.quantity, subtotal)];
      i := i + 1;
    }
    assert cart[..i] == cart;
    return Some((lines, total, totalItems));
  }

  /** The cart page: the priced lines, the totals, and a flat delivery charge of 100. */
  method ShowCart(cart: seq<Entry>, cakes: map<CakeId, Cake>) returns (resp: Response)
    ensures !Listed(cart, cakes) <==> resp == NotFound
    ensures Listed(cart, cakes) ==>
      resp == CartPage(Lines(cart, cakes), Subtotal(cart, cakes), TotalItems(cart),
                       DELIVERY_CHARGE, Subtotal(cart, cakes) + DELIVERY_CHARGE)
    ensures resp.CartPage? && (forall id :: id in cakes ==> Cents(cakes[id].price)) ==>
      Cents(resp.total) && Cents(resp.finalTotal)
  {
    var priced := PriceCart(cart, cakes);
    if priced.None? {
      return NotFound;
    }
    var (lines, total, totalItems) := priced.value;
    var deliveryCharge := DELIVERY_CHARGE;
    if forall id :: id in cakes ==> Cents(cakes[id].price) {
      SubtotalCents(cart, cakes);
      CentsPlus(total, deliveryCharge);
    }
    resp := CartPage(lines, total, totalItems, deliveryCharge, total + deliveryCharge);
  }

  /** The offer loop of the checkout view, over the live offers in query order. */
  method FindBestOffer(offers: seq<SpecialOffer>, total: real, discountOf: (SpecialOffer, real) -> real)
    returns (discount: real, applied: Option<nat>)
    ensures OfferChoice(discount, applied) == ScanOffers(offers, total, discountOf)
  {
    discount, applied := 0.0, None;
    for i := 0 to |offers|
      invariant OfferChoice(discount, applied) == ScanOffers(offers[..i], total, discountOf)
    {
      var offer := offers[i];
      assert offers[..i + 1][..i] == offers[..i];
      if total >= offer.minimumOrderValue {
        var d := discountOf(offer, total);
        if d > discount {
          discount, applied := d, Some(i);
        }
      }
    }
    assert offers[..|offers|] == offers;
  }

  /**
   * The checkout view. Every request prices the cart and picks the best live
   * offer; a GET shows that quote. A POST is turned back, with nothing
   * written, for an empty cart, a pincode other than 682001, or a coupon code
   * that matches no redeemable coupon. Otherwise it counts one use of the
   * coupon, records the order and one item per cart entry, and empties the
   * cart.
   */
  method Checkout(session: Session, store: Store, request: CheckoutRequest, now: Time, user: Option<UserId>,
                  discountOf: (SpecialOffer, real) -> real)
    returns (resp: Response)
    requires session.Valid() && store.Valid()
    modifies session, store
    ensures session.Valid() && store.Valid()
    ensures !resp.OrderPlaced? ==> unchanged(session) && unchanged(store)
    ensures !Listed(old(session.cart), old(store.cakes)) <==> resp == NotFound
    ensures Listed(old(session.cart), old(store.cakes)) ==>
      var quote := QuoteOf(old(session.cart), old(store.cakes), old(store.offers), now, discountOf);
      match request
      case Get => resp == CheckoutPage(quote)
      case Post(form) =>
        if old(session.cart) == [] then resp == Redirect(CartView, Error(EMPTY_CART_MESSAGE))
        else if form.pincode != Some(SERVICE_PINCODE) then resp == Redirect(CheckoutView, Error(PINCODE_MESSAGE))
        else match CouponOutcomeOf(old(store.coupons), form.couponCode, now, quote.total)
          case Invalid => resp == Redirect(CheckoutView, Error(COUPON_MESSAGE))
          case NoCoupon => PlacedAs(session, store, old(session.cart), old(store.cakes), old(store.offers),
                                    old(store.coupons), old(store.orders), old(store.items), old(store.nextOrderId),
                                    form, quote, 0.0, None, user, now, resp)
          case Applied(k, d) =>
            var redeemed := old(store.coupons)[k];
            PlacedAs(session, store, old(session.cart), old(store.cakes), old(store.offers),
                     old(store.coupons)[k := Redeem(redeemed)], old(store.orders), old(store.items),
                     old(store.nextOrderId), form, quote, d, Some(redeemed.id), user, now, resp)
  {
    var cart := session.cart;
    var priced := PriceCart(cart, store.cakes);
    if priced.None? {
      return NotFound;
    }
    var (lines, total, _) := priced.value;
    var deliveryCharge := CheckoutDeliveryCharge(total);
    var offerDiscount, applied := 0.0, None;
    var live := LiveOffers(store.offers, now);
    if total > 0.0 {
      offerDiscount, applied := FindBestOffer(live, total, discountOf);
    }
    var appliedOffer := if applied.Some? then Some(live[applied.value]) else None;
    var quote := Quote(lines, total, deliveryCharge, OfferChoice(offerDiscount, applied), appliedOffer,
                       total - offerDiscount + deliveryCharge);
    assert quote == QuoteOf(cart, store.cakes, store.offers, now, discountOf);

    if request.Get? {
      return CheckoutPage(quote);
    }
    var form := request.form;
    if cart == [] {
      return Redirect(CartView, Error(EMPTY_CART_MESSAGE));
    }
    if form.pincode != Some(SERVICE_PINCODE) {
      return Redirect(CheckoutView, Error(PINCODE_MESSAGE));
    }

    var discount := 0.0;
    var coupon: Option<CouponId> := None;
    if CodeGiven(form.couponCode) {
      var found := FindCoupon(store.coupons, Upper(form.couponCode.value), now);
      if found.None? {
        return Redirect(CheckoutView, Error(COUPON_MESSAGE));
      }
      var c := store.coupons[found.value];
      discount := CouponDiscount(total, c.discountPercentage);
      store.coupons := store.coupons[found.value := Redeem(c)];
      coupon := Some(c.id);
    }
    resp := RecordOrder(session, store, cart, form, quote, discount, coupon, user, now);
  }

  /**
   * The writes of a successful checkout after the coupon: the Order row (first
   * with payment_id "temp", then with the mock reference built from its id),
   * one OrderItem per cart entry, and the emptied cart.
   */
  method RecordOrder(session: Session, store: Store, cart: seq<Entry>, form: CheckoutForm, quote: Quote,
                     couponDiscount: real, coupon: Option<CouponId>, user: Option<UserId>, now: Time)
    returns (resp: Response)
    requires session.Valid() && store.Valid() && Listed(cart, store.cakes)
    modifies session, store
    ensures session.Valid() && store.Valid()
    ensures PlacedAs(session, store, cart, old(store.cakes), old(store.offers), old(store.coupons),
                     old(store.orders), old(store.items), old(store.nextOrderId), form, quote,
                     couponDiscount, coupon, user, now, resp)
  {
    var orderId := store.nextOrderId;
    var order := PlacedOrder(orderId, form.name, form.email, form.address, quote, couponDiscount, coupon, user, now);
    store.orders := store.orders + [order];
    store.nextOrderId := orderId + 1;
    var paymentRef := PaymentRef(orderId);
    store.orders := store.orders[|store.orders| - 1 := order.(paymentId := Some(paymentRef))];
    CreateOrderItems(store, cart, orderId);
    session.cart := [];
    resp := OrderPlaced(quote.lines, order.totalAmount, quote.deliveryCharge, quote.offer.discount,
                        quote.appliedOffer, paymentRef, form.name, form.email, orderId);
  }

  /** The item loop: one OrderItem per cart entry, priced at the cake's current price. */
  method CreateOrderItems(store: Store, cart: seq<Entry>, orderId: OrderId)
    requires Listed(cart, store.cakes)
    modifies store`items
    ensures store.items == old(store.items) + ItemsFor(cart, store.cakes, orderId)
  {
    var i := 0;
    while i < |cart|
      invariant 0 <= i <= |cart|
      invariant store.items == old(store.items) + ItemsFor(cart[..i], store.cakes, orderId)
    {
      var e := cart[i];
      var cake := store.cakes[e.cake];
      assert cart[..i + 1][..i] == cart[..i];
      store.items := store.items + [OrderItem(orderId, e.cake, e.quantity, cake.price)];
      i := i + 1;
    }
    assert cart[..i] == cart;
  }

  /** The state and response of a successful checkout POST, given the coupon table it leaves behind. */
  ghost predicate PlacedAs(session: Session, store: Store, cart: seq<Entry>, cakes: map<CakeId, Cake>,
                           offers: seq<SpecialOffer>, coupons: seq<Coupon>, orders: seq<Order>,
                           items: seq<OrderItem>, orderId: OrderId, form: CheckoutForm, quote: Quote,
                           couponDiscount: real, coupon: Option<CouponId>, user: Option<UserId>, now: Time,
                           resp: Response)
    reads session, store
    requires Listed(cart, cakes)
  {
    var order := PlacedOrder(orderId, form.name, form.email, form.address, quote, couponDiscount, coupon, user, now)
                   .(paymentId := Some(PaymentRef(orderId)));
    && session.cart == []
    && store.cakes == cakes && store.offers == offers
    && store.coupons == coupons
    && store.orders == orders + [order]
    && store.items == items + ItemsFor(cart, cakes, orderId)
    && store.nextOrderId == orderId + 1
    && resp == OrderPlaced(quote.lines, order.totalAmount, quote.deliveryCharge, quote.offer.discount,
                           quote.appliedOffer, PaymentRef(orderId), form.name, form.email, orderId)
  }

  /** `Order.objects.get(id=...)`, answered with the row's position. */
  function FindOrder(orders: seq<Order>, id: OrderId): (r: Option<nat>)
    ensures r.Some? ==> r.value < |orders| && orders[r.value].id == id
    ensures r.None? <==> forall i :: 0 <= i < |orders| ==> orders[i].id != id
  {
    if orders == [] then None
    else if orders[0].id == id then Some(0)
    else match FindOrder(orders[1..], id)
      case None => None
      case Some(k) => Some(k + 1)
  }

  /** order_confirmation: the order and each of its items with `price * quantity` beside it. */
  method OrderConfirmation(orders: seq<Order>, items: seq<OrderItem>, id: OrderId) returns (resp: Response)
    ensures (forall i :: 0 <= i < |orders| ==> orders[i].id != id) <==> resp == NotFound
    ensures resp.NotFound? || resp.ConfirmationPage?
    ensures resp.ConfirmationPage? ==>
      && FindOrder(orders, id).Some? && resp.order == orders[FindOrder(orders, id).value]
      && resp.order.id == id && resp.order in orders
      && |resp.items| == |ItemsOf(items, id)|
      && forall i :: 0 <= i < |resp.items| ==>
           resp.items[i] == (ItemsOf(items, id)[i], ItemSubtotal(ItemsOf(items, id)[i]))
  {
    var found := FindOrder(orders, id);
    if found.None? {
      return NotFound;
    }
    var order := orders[found.value];
    var mine := ItemsOf(items, id);
    var shown: seq<(OrderItem, real)> := [];
    for i := 0 to |mine|
      invariant |shown| == i
      invariant forall j :: 0 <= j < i ==> shown[j] == (mine[j], ItemSubtotal(mine[j]))
    {
      var item := mine[i];
      var subtotal := item.price * item.quantity as real;
      assert subtotal == ItemSubtotal(item);
      shown := shown + [(item, subtotal)];
    }
    resp := ConfirmationPage(order, shown);
  }
}
