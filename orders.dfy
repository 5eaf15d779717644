/**
 * What a successful checkout records (rose_cakes/views.py): one OrderItem per
 * cart entry with the cake's price copied at that moment, the mock payment
 * reference, and the amounts on the Order row.
 */
module Orders {
  import opened Wrappers
  import opened Text
  import opened Models
  import opened Cart
  import opened Pricing

  /** The items created for order `orderId`, one per cart entry, in cart order. */
  function ItemsFor(cart: seq<Entry>, cakes: map<CakeId, Cake>, orderId: OrderId): (items: seq<OrderItem>)
    requires Listed(cart, cakes)
    ensures |items| == |cart|
    ensures forall i :: 0 <= i < |cart| ==>
      items[i] == OrderItem(orderId, cart[i].cake, cart[i].quantity, cakes[cart[i].cake].price)
  {
    if cart == [] then []
    else
      var n := |cart| - 1;
      assert forall i :: 0 <= i < n ==> cart[..n][i] == cart[i];
      ItemsFor(cart[..n], cakes, orderId) + [OrderItem(orderId, cart[n].cake, cart[n].quantity, cakes[cart[n].cake].price)]
  }

  /** `item.price * item.quantity`, the subtotal the confirmation page shows. */
  function ItemSubtotal(item: OrderItem): real
  {
    item.price * item.quantity as real
  }

  /** Σ price × quantity over a list of items. */
  function ItemsTotal(items: seq<OrderItem>): real
  {
    if items == [] then 0.0 else ItemsTotal(items[..|items| - 1]) + ItemSubtotal(items[|items| - 1])
  }

  /** The items' recorded prices add up to the cart's subtotal at checkout time. */
  lemma {:induction false} ItemsTotalIsSubtotal(cart: seq<Entry>, cakes: map<CakeId, Cake>, orderId: OrderId)
    requires Listed(cart, cakes)
    ensures ItemsTotal(ItemsFor(cart, cakes, orderId)) == Subtotal(cart, cakes)
    decreases |cart|
  {
    if cart != [] {
      var n := |cart| - 1;
      var items := ItemsFor(cart, cakes, orderId);
      assert items[..n] == ItemsFor(cart[..n], cakes, orderId);
      ItemsTotalIsSubtotal(cart[..n], cakes, orderId);
    }
  }

  /** The rows of `order.items.all()`: the items of one order, in table order. */
  function ItemsOf(items: seq<OrderItem>, orderId: OrderId): (mine: seq<OrderItem>)
    ensures forall i :: 0 <= i < |mine| ==> mine[i].order == orderId && mine[i] in items
    ensures forall i :: 0 <= i < |items| && items[i].order == orderId ==> items[i] in mine
  {
    if items == [] then []
    else if items[0].order == orderId then [items[0]] + ItemsOf(items[1..], orderId)
    else ItemsOf(items[1..], orderId)
  }

  lemma {:induction false} ItemsOfAppend(items: seq<OrderItem>, added: seq<OrderItem>, orderId: OrderId)
    ensures ItemsOf(items + added, orderId) == ItemsOf(items, orderId) + ItemsOf(added, orderId)
    decreases |items|
  {
    if items != [] {
      assert (items + added)[1..] == items[1..] + added;
      ItemsOfAppend(items[1..], added, orderId);
    } else {
      assert items + added == added;
    }
  }

  lemma {:induction false} ItemsOfNone(items: seq<OrderItem>, orderId: OrderId)
    requires forall i :: 0 <= i < |items| ==> items[i].order != orderId
    ensures ItemsOf(items, orderId) == []
    decreases |items|
  {
    if items != [] {
      ItemsOfNone(items[1..], orderId);
    }
  }

  lemma {:induction false} ItemsOfAll(items: seq<OrderItem>, orderId: OrderId)
    requires forall i :: 0 <= i < |items| ==> items[i].order == orderId
    ensures ItemsOf(items, orderId) == items
    decreases |items|
  {
    if items != [] {
      ItemsOfAll(items[1..], orderId);
    }
  }

  /**
   * Appending a new order's items to a table that holds none of that order's
   * rows makes `order.items.all()` exactly those items.
   */
  lemma NewOrderItems(table: seq<OrderItem>, cart: seq<Entry>, cakes: map<CakeId, Cake>, orderId: OrderId)
    requires Listed(cart, cakes)
    requires forall i :: 0 <= i < |table| ==> table[i].order != orderId
    ensures ItemsOf(table + ItemsFor(cart, cakes, orderId), orderId) == ItemsFor(cart, cakes, orderId)
  {
    ItemsOfAppend(table, ItemsFor(cart, cakes, orderId), orderId);
    ItemsOfNone(table, orderId);
    ItemsOfAll(ItemsFor(cart, cakes, orderId), orderId);
  }

  /** The mock gateway's order reference stored as `payment_id`. */
  function PaymentRef(id: OrderId): (ref: string)
    ensures StartsWith(ref, "order_mock_")
  {
    "order_mock_" + NatToString(id)
  }

  /** Distinct orders get distinct payment references, so a lookup by reference finds one order. */
  lemma PaymentRefIdentifiesOrder(a: OrderId, b: OrderId)
    requires PaymentRef(a) == PaymentRef(b)
    ensures a == b
  {
    assert NatToString(a) == PaymentRef(a)[11..];
    assert NatToString(b) == PaymentRef(b)[11..];
    NatToStringInjective(a, b);
  }

  /**
   * The order a successful POST records, before its payment reference is
   * filled in: the amount is subtotal minus both discounts plus delivery, the
   * discount is the sum of the two.
   */
  function PlacedOrder(id: OrderId, name: string, email: string, address: string, quote: Quote,
                       couponDiscount: real, coupon: Option<CouponId>, user: Option<UserId>, now: Time): (o: Order)
  {
    NewOrder(id, name, email, address,
             FinalTotal(quote.total, couponDiscount, quote.offer.discount, quote.deliveryCharge), now)
      .(user := user, coupon := coupon,
        specialOffer := if quote.appliedOffer.Some? then Some(quote.appliedOffer.value.id) else None,
        discountAmount := couponDiscount + quote.offer.discount,
        paymentId := Some("temp"))
  }

  /**
   * The order's amount equals the items' recorded total minus its discount
   * plus the delivery charge: the amounts on an order and on its items agree.
   */
  lemma PlacedOrderAccounts(id: OrderId, name: string, email: string, address: string,
                            cart: seq<Entry>, cakes: map<CakeId, Cake>, offers: seq<SpecialOffer>,
                            discountOf: (SpecialOffer, real) -> real,
                            couponDiscount: real, coupon: Option<CouponId>, user: Option<UserId>, now: Time)
    requires Listed(cart, cakes)
    ensures var q := QuoteOf(cart, cakes, offers, now, discountOf);
            var o := PlacedOrder(id, name, email, address, q, couponDiscount, coupon, user, now);
            && o.totalAmount == ItemsTotal(ItemsFor(cart, cakes, id)) - o.discountAmount + q.deliveryCharge
            && o.discountAmount == couponDiscount + q.offer.discount
            && o.status == "pending"
  {
    ItemsTotalIsSubtotal(cart, cakes, id);
  }
}
