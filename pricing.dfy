/**
 * The arithmetic of the cart and checkout views (rose_cakes/views.py):
 * subtotal and item count, the delivery charge, the best special offer, the
 * coupon lookup and discount, and the order's final amount.
 */
module Pricing {
  import opened Wrappers
  import opened Models
  import opened Cart
  import opened Text

  /** The cart page always adds this; the checkout waives it from the threshold up. */
  const DELIVERY_CHARGE: real := 100.0
  const FREE_DELIVERY_MINIMUM: real := 1000.0

  /** Every cart entry names a cake in the catalog (otherwise the view answers 404). */
  predicate Listed(cart: seq<Entry>, cakes: map<CakeId, Cake>)
  {
    forall i :: 0 <= i < |cart| ==> cart[i].cake in cakes
  }

  /** `cake.price * quantity`. */
  function LineTotal(e: Entry, cakes: map<CakeId, Cake>): real
    requires e.cake in cakes
  {
    cakes[e.cake].price * e.quantity as real
  }

  /** The views' `total`: line totals added in cart order. */
  function Subtotal(cart: seq<Entry>, cakes: map<CakeId, Cake>): real
    requires Listed(cart, cakes)
  {
    if cart == [] then 0.0
    else Subtotal(cart[..|cart| - 1], cakes) + LineTotal(cart[|cart| - 1], cakes)
  }

  /** The cart view's `total_items`: quantities added in cart order. */
  function TotalItems(cart: seq<Entry>): int
  {
    if cart == [] then 0 else TotalItems(cart[..|cart| - 1]) + cart[|cart| - 1].quantity
  }

  /**
   * With every price a two-place decimal, as the price column holds, the
   * cart total is one too: it needs no rounding to be shown or stored.
   */
  lemma {:induction false} SubtotalCents(cart: seq<Entry>, cakes: map<CakeId, Cake>)
    requires Listed(cart, cakes)
    requires forall id :: id in cakes ==> Cents(cakes[id].price)
    ensures Cents(Subtotal(cart, cakes))
    decreases |cart|
  {
    if cart != [] {
      var n := |cart| - 1;
      SubtotalCents(cart[..n], cakes);
      var price, quantity := cakes[cart[n].cake].price, cart[n].quantity;
      CentsTimes(price, quantity);
      assert Cents(price * quantity as real);
      assert LineTotal(cart[n], cakes) == price * quantity as real;
      CentsPlus(Subtotal(cart[..n], cakes), LineTotal(cart[n], cakes));
    }
  }

  lemma {:induction false} SubtotalAfterUpdate(cart: seq<Entry>, i: nat, e: Entry, cakes: map<CakeId, Cake>)
    requires Listed(cart, cakes) && i < |cart| && e.cake in cakes
    ensures Listed(cart[i := e], cakes)
    ensures Subtotal(cart[i := e], cakes) == Subtotal(cart, cakes) - LineTotal(cart[i], cakes) + LineTotal(e, cakes)
    ensures TotalItems(cart[i := e]) == TotalItems(cart) - cart[i].quantity + e.quantity
    decreases |cart|
  {
    var n := |cart|;
    var updated := cart[i := e];
    if i < n - 1 {
      assert updated[..n - 1] == cart[..n - 1][i := e];
      SubtotalAfterUpdate(cart[..n - 1], i, e, cakes);
    } else {
      assert updated[..n - 1] == cart[..n - 1];
    }
  }

  lemma {:induction false} SubtotalAfterDelete(cart: seq<Entry>, i: nat, cakes: map<CakeId, Cake>)
    requires Listed(cart, cakes) && i < |cart|
    ensures Listed(cart[..i] + cart[i + 1..], cakes)
    ensures Subtotal(cart[..i] + cart[i + 1..], cakes) == Subtotal(cart, cakes) - LineTotal(cart[i], cakes)
    ensures TotalItems(cart[..i] + cart[i + 1..]) == TotalItems(cart) - cart[i].quantity
    decreases |cart|
  {
    var n := |cart|;
    var rest := cart[..i] + cart[i + 1..];
    if i < n - 1 {
      var front := cart[..n - 1];
      assert rest[..|rest| - 1] == front[..i] + front[i + 1..];
      assert rest[|rest| - 1] == cart[n - 1];
      SubtotalAfterDelete(front, i, cakes);
    } else {
      assert rest == cart[..n - 1];
    }
  }

  lemma SubtotalAfterAppend(cart: seq<Entry>, e: Entry, cakes: map<CakeId, Cake>)
    requires Listed(cart, cakes) && e.cake in cakes
    ensures Listed(cart + [e], cakes)
    ensures Subtotal(cart + [e], cakes) == Subtotal(cart, cakes) + LineTotal(e, cakes)
    ensures TotalItems(cart + [e]) == TotalItems(cart) + e.quantity
  {
    assert (cart + [e])[..|cart|] == cart;
  }

  /** One more unit of the entry at `i`. */
  lemma UnitMore(cart: seq<Entry>, i: nat, cakes: map<CakeId, Cake>)
    requires Listed(cart, cakes) && i < |cart|
    ensures Listed(cart[i := Entry(cart[i].cake, cart[i].quantity + 1)], cakes)
    ensures Subtotal(cart[i := Entry(cart[i].cake, cart[i].quantity + 1)], cakes)
         == Subtotal(cart, cakes) + cakes[cart[i].cake].price
    ensures TotalItems(cart[i := Entry(cart[i].cake, cart[i].quantity + 1)]) == TotalItems(cart) + 1
  {
    var e := cart[i];
    var more := Entry(e.cake, e.quantity + 1);
    OneMoreUnit(cakes[e.cake].price, e.quantity);
    assert LineTotal(more, cakes) == LineTotal(e, cakes) + cakes[e.cake].price;
    SubtotalAfterUpdate(cart, i, more, cakes);
  }

  /** One unit fewer of the entry at `i`. */
  lemma UnitFewer(cart: seq<Entry>, i: nat, cakes: map<CakeId, Cake>)
    requires Listed(cart, cakes) && i < |cart| && cart[i].quantity >= 1
    ensures Listed(cart[i := Entry(cart[i].cake, cart[i].quantity - 1)], cakes)
    ensures Subtotal(cart[i := Entry(cart[i].cake, cart[i].quantity - 1)], cakes)
         == Subtotal(cart, cakes) - cakes[cart[i].cake].price
    ensures TotalItems(cart[i := Entry(cart[i].cake, cart[i].quantity - 1)]) == TotalItems(cart) - 1
  {
    var e := cart[i];
    var fewer := Entry(e.cake, e.quantity - 1);
    OneMoreUnit(cakes[e.cake].price, e.quantity - 1);
    assert LineTotal(e, cakes) == LineTotal(fewer, cakes) + cakes[e.cake].price;
    SubtotalAfterUpdate(cart, i, fewer, cakes);
  }

  /** A new entry with one unit. */
  lemma UnitAppended(cart: seq<Entry>, id: CakeId, cakes: map<CakeId, Cake>)
    requires Listed(cart, cakes) && id in cakes
    ensures Listed(cart + [Entry(id, 1)], cakes)
    ensures Subtotal(cart + [Entry(id, 1)], cakes) == Subtotal(cart, cakes) + cakes[id].price
    ensures TotalItems(cart + [Entry(id, 1)]) == TotalItems(cart) + 1
  {
    OneMoreUnit(cakes[id].price, 0);
    SubtotalAfterAppend(cart, Entry(id, 1), cakes);
  }

  /** The entry at `i`, holding one unit, deleted. */
  lemma UnitDeleted(cart: seq<Entry>, i: nat, cakes: map<CakeId, Cake>)
    requires Listed(cart, cakes) && i < |cart| && cart[i].quantity == 1
    ensures Listed(cart[..i] + cart[i + 1..], cakes)
    ensures Subtotal(cart[..i] + cart[i + 1..], cakes) == Subtotal(cart, cakes) - cakes[cart[i].cake].price
    ensures TotalItems(cart[..i] + cart[i + 1..]) == TotalItems(cart) - 1
  {
    OneMoreUnit(cakes[cart[i].cake].price, 0);
    SubtotalAfterDelete(cart, i, cakes);
  }

  /** add_to_cart raises the cart's subtotal by one unit price and its item count by one. */
  lemma AddedRaisesTotals(cart: seq<Entry>, id: CakeId, cakes: map<CakeId, Cake>)
    requires WellFormed(cart) && Listed(cart, cakes) && id in cakes
    ensures Listed(Added(cart, id), cakes)
    ensures Subtotal(Added(cart, id), cakes) == Subtotal(cart, cakes) + cakes[id].price
    ensures TotalItems(Added(cart, id)) == TotalItems(cart) + 1
  {
    match IndexOf(cart, id)
    case Some(i) =>
      UnitMore(cart, i, cakes);
    case None =>
      UnitAppended(cart, id, cakes);
  }

  lemma OneMoreUnit(price: real, q: nat)
    ensures price * (q + 1) as real == price * q as real + price
  {
    assert (q + 1) as real == q as real + 1.0;
  }

  /** remove_from_cart lowers them by one unit when the cake was present, else changes nothing. */
  lemma RemovedLowersTotals(cart: seq<Entry>, id: CakeId, cakes: map<CakeId, Cake>)
    requires WellFormed(cart) && Listed(cart, cakes) && id in cakes
    ensures Listed(Removed(cart, id), cakes)
    ensures Subtotal(Removed(cart, id), cakes)
         == Subtotal(cart, cakes) - (if Quantity(cart, id) >= 1 then cakes[id].price else 0.0)
    ensures TotalItems(Removed(cart, id)) == TotalItems(cart) - (if Quantity(cart, id) >= 1 then 1 else 0)
  {
    match IndexOf(cart, id)
    case None =>
      assert Removed(cart, id) == cart;
    case Some(i) =>
      QuantityAt(cart, i);
      if cart[i].quantity > 1 {
        UnitFewer(cart, i, cakes);
      } else {
        UnitDeleted(cart, i, cakes);
      }
  }

  /** The checkout's delivery charge: waived exactly when the subtotal reaches 1000. */
  function CheckoutDeliveryCharge(total: real): (charge: real)
    ensures charge == 0.0 <==> total >= FREE_DELIVERY_MINIMUM
    ensures charge != 0.0 ==> charge == DELIVERY_CHARGE
  {
    if total >= FREE_DELIVERY_MINIMUM then 0.0 else DELIVERY_CHARGE
  }

  /** A larger order never pays more delivery. */
  lemma DeliveryChargeMonotone(smaller: real, larger: real)
    requires smaller <= larger
    ensures CheckoutDeliveryCharge(larger) <= CheckoutDeliveryCharge(smaller)
  {
  }

  /** What the SpecialOffer query keeps: active, and now inside [valid_from, valid_until]. */
  predicate Live(o: SpecialOffer, now: Time)
  {
    o.active && o.validFrom <= now <= o.validUntil
  }

  /** The query `SpecialOffer.objects.filter(active=True, valid_from__lte=now, valid_until__gte=now)`. */
  function LiveOffers(offers: seq<SpecialOffer>, now: Time): (live: seq<SpecialOffer>)
    ensures forall i :: 0 <= i < |live| ==> Live(live[i], now) && live[i] in offers
    ensures forall i :: 0 <= i < |offers| && Live(offers[i], now) ==> offers[i] in live
    ensures |live| <= |offers|
  {
    if offers == [] then []
    else if Live(offers[0], now) then [offers[0]] + LiveOffers(offers[1..], now)
    else LiveOffers(offers[1..], now)
  }

  /** The loop's test `total >= offer.minimum_order_value`. */
  predicate Qualifies(o: SpecialOffer, total: real)
  {
    total >= o.minimumOrderValue
  }

  /** The special-offer discount and the position, in the scanned list, of the offer applied. */
  datatype OfferChoice = OfferChoice(discount: real, applied: Option<nat>)

  /**
   * The offer scan: keep the first qualifying offer whose discount strictly
   * exceeds the best so far (starting from 0). The result is the largest
   * discount among qualifying offers, attained by the earliest offer giving it,
   * and 0 with no offer when no qualifying offer gives more than 0.
   */
  function ScanOffers(offers: seq<SpecialOffer>, total: real, discountOf: (SpecialOffer, real) -> real): (r: OfferChoice)
    ensures r.applied.None? ==> r.discount == 0.0
    ensures r.applied.Some? ==>
      && r.applied.value < |offers|
      && Qualifies(offers[r.applied.value], total)
      && r.discount == discountOf(offers[r.applied.value], total)
      && r.discount > 0.0
    ensures forall k :: 0 <= k < |offers| && Qualifies(offers[k], total) ==> discountOf(offers[k], total) <= r.discount
    ensures r.applied.Some? ==>
      forall j :: 0 <= j < r.applied.value && Qualifies(offers[j], total) ==> discountOf(offers[j], total) < r.discount
    decreases |offers|
  {
    if offers == [] then OfferChoice(0.0, None)
    else
      var n := |offers| - 1;
      var best := ScanOffers(offers[..n], total, discountOf);
      assert forall k :: 0 <= k < n ==> offers[..n][k] == offers[k];
      if Qualifies(offers[n], total) && discountOf(offers[n], total) > best.discount then
        OfferChoice(discountOf(offers[n], total), Some(n))
      else best
  }

  /** The checkout applies offers only when `total > 0`. */
  function BestOffer(offers: seq<SpecialOffer>, total: real, discountOf: (SpecialOffer, real) -> real): (r: OfferChoice)
    ensures total <= 0.0 ==> r == OfferChoice(0.0, None)
    ensures total > 0.0 ==> r == ScanOffers(offers, total, discountOf)
  {
    if total > 0.0 then ScanOffers(offers, total, discountOf) else OfferChoice(0.0, None)
  }

  /** The coupon query: matching code, active, now inside the window, uses left. */
  predicate Redeemable(c: Coupon, code: string, now: Time)
  {
    c.code == code && c.active && c.validFrom <= now <= c.validUntil && c.usedCount < c.usageLimit
  }

  /** Coupon.code is declared unique. */
  predicate UniqueCodes(coupons: seq<Coupon>)
  {
    forall i, j :: 0 <= i < j < |coupons| ==> coupons[i].code != coupons[j].code
  }

  /** `Coupon.objects.get(code=..., active=True, ...)`, answered with the row's position. */
  function FindCoupon(coupons: seq<Coupon>, code: string, now: Time): (r: Option<nat>)
    ensures r.Some? ==> r.value < |coupons| && Redeemable(coupons[r.value], code, now)
    ensures r.None? <==> forall i :: 0 <= i < |coupons| ==> !Redeemable(coupons[i], code, now)
  {
    if coupons == [] then None
    else if Redeemable(coupons[0], code, now) then Some(0)
    else match FindCoupon(coupons[1..], code, now)
      case None => None
      case Some(k) => Some(k + 1)
  }

  /** With unique codes the query cannot match two rows, so `get` never sees more than one. */
  lemma FindCouponIsTheOnlyMatch(coupons: seq<Coupon>, code: string, now: Time, i: nat)
    requires UniqueCodes(coupons) && i < |coupons| && Redeemable(coupons[i], code, now)
    ensures FindCoupon(coupons, code, now) == Some(i)
  {
  }

  /** Python truthiness of the posted `coupon_code`: absent and empty both mean "no coupon". */
  predicate CodeGiven(code: Option<string>)
  {
    code.Some? && code.value != ""
  }

  /** `total * (coupon.discount_percentage / 100)`. */
  function CouponDiscount(total: real, percentage: real): real
  {
    total * (percentage / 100.0)
  }

  /**
   * A percentage between 0 and 100 takes off between nothing and the whole
   * total; 100 % takes off the whole total and 0 % nothing.
   */
  lemma CouponDiscountBounds(total: real, percentage: real)
    ensures 0.0 <= percentage <= 100.0 && 0.0 <= total ==> 0.0 <= CouponDiscount(total, percentage) <= total
    ensures percentage == 100.0 ==> CouponDiscount(total, percentage) == total
    ensures percentage == 0.0 ==> CouponDiscount(total, percentage) == 0.0
  {
    if 0.0 <= percentage <= 100.0 && 0.0 <= total {
      FractionOfTotal(total, percentage / 100.0);
    }
  }

  lemma FractionOfTotal(total: real, fraction: real)
    requires 0.0 <= total && 0.0 <= fraction <= 1.0
    ensures 0.0 <= total * fraction <= total
  {
    assert total - total * fraction == total * (1.0 - fraction);
    assert total * (1.0 - fraction) >= 0.0;
  }

  /** What a successful checkout writes back: the same coupon with one more use. */
  function Redeem(c: Coupon): (r: Coupon)
    ensures r.usedCount == c.usedCount + 1
    ensures r == c.(usedCount := r.usedCount)
  {
    c.(usedCount := c.usedCount + 1)
  }

  function RedeemTimes(c: Coupon, k: nat): Coupon
  {
    if k == 0 then c else Redeem(RedeemTimes(c, k - 1))
  }

  /**
   * Redemption keeps `used_count <= usage_limit`, and a coupon inside its window
   * can be redeemed exactly `usage_limit - used_count` times in a row.
   */
  lemma {:induction false} RedemptionCap(c: Coupon, now: Time, k: nat)
    requires c.active && c.validFrom <= now <= c.validUntil && c.usedCount <= c.usageLimit
    ensures RedeemTimes(c, k) == c.(usedCount := c.usedCount + k)
    ensures Redeemable(RedeemTimes(c, k), c.code, now) <==> k < c.usageLimit - c.usedCount
  {
    if k > 0 {
      RedemptionCap(c, now, k - 1);
    }
  }

  /** `total - discount - special_offer_discount + delivery_charge`, with no clamp at zero. */
  function FinalTotal(total: real, couponDiscount: real, offerDiscount: real, delivery: real): (r: real)
    ensures r + couponDiscount + offerDiscount == total + delivery
  {
    total - couponDiscount - offerDiscount + delivery
  }

  /**
   * The final amount can go below zero: a 500% coupon (DecimalField(5, 2) admits
   * it) on a 100-rupee cart gives -300.
   */
  lemma FinalTotalNotClamped()
    ensures FinalTotal(100.0, CouponDiscount(100.0, 500.0), 0.0, CheckoutDeliveryCharge(100.0)) == -300.0
  {
  }
  /** One row of the cart and checkout pages: the cake, its quantity and `price * quantity`. */
  datatype CartLine = CartLine(cake: Cake, quantity: nat, subtotal: real)

  /** The views' `cart_items`, in cart order. */
  function Lines(cart: seq<Entry>, cakes: map<CakeId, Cake>): (lines: seq<CartLine>)
    requires Listed(cart, cakes)
    ensures |lines| == |cart|
    ensures forall i :: 0 <= i < |cart| ==>
      lines[i] == CartLine(cakes[cart[i].cake], cart[i].quantity, LineTotal(cart[i], cakes))
  {
    if cart == [] then []
    else
      var n := |cart| - 1;
      assert forall i :: 0 <= i < n ==> cart[..n][i] == cart[i];
      Lines(cart[..n], cakes) + [CartLine(cakes[cart[n].cake], cart[n].quantity, LineTotal(cart[n], cakes))]
  }

  /** The numbers the checkout page shows before any coupon. */
  datatype Quote = Quote(
    lines: seq<CartLine>,
    total: real,
    deliveryCharge: real,
    offer: OfferChoice,
    appliedOffer: Option<SpecialOffer>,
    finalTotal: real)

  /**
   * The checkout's pricing: subtotal, delivery charge from the threshold, the
   * best live offer, and `total - special_offer_discount + delivery_charge`.
   */
  function QuoteOf(cart: seq<Entry>, cakes: map<CakeId, Cake>, offers: seq<SpecialOffer>, now: Time,
                   discountOf: (SpecialOffer, real) -> real): Quote
    requires Listed(cart, cakes)
  {
    var total := Subtotal(cart, cakes);
    var live := LiveOffers(offers, now);
    var offer := BestOffer(live, total, discountOf);
    var delivery := CheckoutDeliveryCharge(total);
    Quote(Lines(cart, cakes), total, delivery, offer,
          if offer.applied.Some? then Some(live[offer.applied.value]) else None,
          total - offer.discount + delivery)
  }

  /** The quoted offer is a live, qualifying offer giving the largest discount of all such offers. */
  lemma QuoteAppliesBestLiveOffer(cart: seq<Entry>, cakes: map<CakeId, Cake>, offers: seq<SpecialOffer>, now: Time,
                                  discountOf: (SpecialOffer, real) -> real, o: SpecialOffer)
    requires Listed(cart, cakes)
    requires o in offers && Live(o, now) && Qualifies(o, Subtotal(cart, cakes)) && Subtotal(cart, cakes) > 0.0
    ensures discountOf(o, Subtotal(cart, cakes)) <= QuoteOf(cart, cakes, offers, now, discountOf).offer.discount
    ensures QuoteOf(cart, cakes, offers, now, discountOf).appliedOffer.Some? ==>
      var a := QuoteOf(cart, cakes, offers, now, discountOf).appliedOffer.value;
      a in offers && Live(a, now) && Qualifies(a, Subtotal(cart, cakes))
      && discountOf(a, Subtotal(cart, cakes)) == QuoteOf(cart, cakes, offers, now, discountOf).offer.discount
  {
    var live := LiveOffers(offers, now);
    var k :| 0 <= k < |live| && live[k] == o;
  }

  /** What the posted coupon code leads to. */
  datatype CouponOutcome = NoCoupon | Invalid | Applied(index: nat, discount: real)

  /**
   * An absent or empty code gives no coupon; otherwise the upper-cased code
   * must match a redeemable coupon, whose percentage then applies to the
   * subtotal, or the checkout is rejected.
   */
  function CouponOutcomeOf(coupons: seq<Coupon>, code: Option<string>, now: Time, total: real): (r: CouponOutcome)
    ensures !CodeGiven(code) <==> r == NoCoupon
    ensures CodeGiven(code) ==>
      (r.Invalid? <==> forall i :: 0 <= i < |coupons| ==> !Redeemable(coupons[i], Upper(code.value), now))
    ensures r.Applied? ==>
      && r.index < |coupons|
      && Redeemable(coupons[r.index], Upper(code.value), now)
      && r.discount == CouponDiscount(total, coupons[r.index].discountPercentage)
  {
    if !CodeGiven(code) then NoCoupon
    else match FindCoupon(coupons, Upper(code.value), now)
      case None => Invalid
      case Some(k) => Applied(k, CouponDiscount(total, coupons[k].discountPercentage))
  }

  /** A code is matched whatever its letter case. */
  lemma CouponCodeCaseInsensitive(coupons: seq<Coupon>, code: string, now: Time, total: real)
    requires code != ""
    ensures CouponOutcomeOf(coupons, Some(code), now, total) == CouponOutcomeOf(coupons, Some(Upper(code)), now, total)
  {
    UpperIdempotent(code);
  }
}
