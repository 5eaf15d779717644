/**
 * The shop's database records (rose_cakes/models.py) as values. Amounts are
 * exact decimals in rupees; DecimalField(decimal_places=2) columns hold whole
 * paise, which `Cents` states.
 */
module Models {
  import opened Wrappers
  import opened Text

  type CakeId = nat
  type CategoryId = nat
  type CouponId = nat
  type OrderId = nat
  type OfferId = nat
  type UserId = nat
  /** A point in time, as compared by the ORM's `__lte`/`__gte` lookups. */
  type Time = int

  /** The currency sign the messages print before an amount. */
  const RUPEE: string := "\U{20B9}"

  /** A decimal amount with at most two places after the point. */
  predicate Cents(amount: real)
  {
    (amount * 100.0).Floor as real == amount * 100.0
  }

  /** A two-place amount times a whole quantity is a two-place amount. */
  lemma CentsTimes(amount: real, quantity: nat)
    requires Cents(amount)
    ensures Cents(amount * quantity as real)
  {
    var paise := (amount * 100.0).Floor;
    var scaled := amount * quantity as real * 100.0;
    assert scaled == (amount * 100.0) * quantity as real;
    assert scaled == paise as real * quantity as real;
    assert scaled == (paise * quantity) as real;
    assert scaled.Floor == paise * quantity;
  }

  /** The sum of two two-place amounts is a two-place amount. */
  lemma CentsPlus(a: real, b: real)
    requires Cents(a) && Cents(b)
    ensures Cents(a + b)
  {
    var pa := (a * 100.0).Floor;
    var pb := (b * 100.0).Floor;
    assert (a + b) * 100.0 == (pa + pb) as real;
  }

  datatype Category = Category(id: CategoryId, name: string, description: string)

  /** `featured` defaults to false; deleting a category leaves `category` as None. */
  datatype Cake = Cake(
    id: CakeId,
    name: string,
    description: string,
    price: real,
    featured: bool,
    category: Option<CategoryId>)

  /**
   * `code` is unique across the table (a store-level invariant); the two
   * counters are PositiveIntegerFields, so naturals.
   */
  datatype Coupon = Coupon(
    id: CouponId,
    code: string,
    discountPercentage: real,
    validFrom: Time,
    validUntil: Time,
    active: bool,
    usageLimit: nat,
    usedCount: nat)

  /**
   * SpecialOffer's definition is not part of this model; these are the fields
   * the checkout's query and scan read. Its `get_discount_amount` is a parameter
   * of the checkout.
   */
  datatype SpecialOffer = SpecialOffer(
    id: OfferId,
    title: string,
    active: bool,
    validFrom: Time,
    validUntil: Time,
    minimumOrderValue: real)

  /**
   * `whatsappNumber`, `pickupDate` and `specialOffer` are read or written by the
   * views and notifications but not declared on the model; they are kept as
   * optional fields (`pickupDate` holds the date's text form).
   */
  datatype Order = Order(
    id: OrderId,
    customerName: string,
    customerEmail: string,
    customerAddress: string,
    whatsappNumber: Option<string>,
    pickupDate: Option<string>,
    totalAmount: real,
    status: string,
    user: Option<UserId>,
    coupon: Option<CouponId>,
    specialOffer: Option<OfferId>,
    discountAmount: real,
    trackingNumber: Option<string>,
    paymentId: Option<string>,
    createdAt: Time,
    updatedAt: Time)

  /** `price` is the cake's unit price copied at order time. */
  datatype OrderItem = OrderItem(order: OrderId, cake: CakeId, quantity: nat, price: real)

  /** Order.STATUS_CHOICES: stored value and display label. */
  const STATUS_CHOICES: seq<(string, string)> := [
    ("pending", "Pending"),
    ("confirmed", "Confirmed"),
    ("processing", "Processing"),
    ("shipped", "Shipped"),
    ("delivered", "Delivered"),
    ("cancelled", "Cancelled")
  ]

  predicate IsStatusChoice(status: string)
  {
    exists i :: 0 <= i < |STATUS_CHOICES| && STATUS_CHOICES[i].0 == status
  }

  /** A coupon row created with only its required fields. */
  function NewCoupon(id: CouponId, code: string, pct: real, from: Time, until: Time): (c: Coupon)
    ensures c.active && c.usageLimit == 100 && c.usedCount == 0
    ensures c.id == id && c.code == code && c.discountPercentage == pct
    ensures c.validFrom == from && c.validUntil == until
  {
    Coupon(id, code, pct, from, until, true, 100, 0)
  }

  /**
   * An order row created with only its required fields: every optional column
   * is empty, the status and the discount take their defaults, and both
   * timestamps are the creation time.
   */
  function NewOrder(id: OrderId, name: string, email: string, address: string, total: real, now: Time): (o: Order)
    ensures o.status == "pending" && IsStatusChoice(o.status)
    ensures o.discountAmount == 0.0
    ensures o.user == None && o.coupon == None && o.specialOffer == None
    ensures o.whatsappNumber == None && o.pickupDate == None
    ensures o.trackingNumber == None && o.paymentId == None
    ensures o.createdAt == now && o.updatedAt == now
    ensures o.id == id && o.totalAmount == total
    ensures o.customerName == name && o.customerEmail == email && o.customerAddress == address
  {
    assert STATUS_CHOICES[0].0 == "pending";
    Order(id, name, email, address, None, None, total, "pending", None, None, None, 0.0, None, None, now, now)
  }

  /** Order.__str__: "Order {id} - {customer_name}". */
  function OrderText(o: Order): string
  {
    "Order " + NatToString(o.id) + " - " + o.customerName
  }

  /** OrderItem.__str__: "{quantity} x {cake name}", the cake being the item's own. */
  function OrderItemText(item: OrderItem, cake: Cake): string
    requires cake.id == item.cake
  {
    NatToString(item.quantity) + " x " + cake.name
  }

  /** Two orders whose texts agree have the same id: the id is read back from the text. */
  lemma OrderTextIdentifiesOrder(o1: Order, o2: Order)
    requires OrderText(o1) == OrderText(o2)
    ensures o1.id == o2.id && o1.customerName == o2.customerName
  {
    NumberedTextUnique("Order ", o1.id, " - ", o1.customerName, o2.id, o2.customerName);
  }

  /** The quantity and the cake's name can both be read back from an item's text. */
  lemma OrderItemTextIdentifiesItem(i1: OrderItem, c1: Cake, i2: OrderItem, c2: Cake)
    requires c1.id == i1.cake && c2.id == i2.cake
    requires OrderItemText(i1, c1) == OrderItemText(i2, c2)
    ensures i1.quantity == i2.quantity && c1.name == c2.name
  {
    assert OrderItemText(i1, c1) == "" + NatToString(i1.quantity) + " x " + c1.name;
    assert OrderItemText(i2, c2) == "" + NatToString(i2.quantity) + " x " + c2.name;
    NumberedTextUnique("", i1.quantity, " x ", c1.name, i2.quantity, c2.name);
  }
}
