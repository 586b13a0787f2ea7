/**
 * The order document and the constraints its schema enforces when an order is
 * saved: required fields, minimums, the fixed enumerations, the phone-number
 * pattern and the unique order number.
 */
module OrderModel {
  import opened Text
  import opened Pattern

  type OrderId = nat

  /** A line item, with the unit price and product name frozen at order time. */
  datatype OrderItem = OrderItem(product: nat, quantity: int, price: int, name: string, image: string)

  datatype Address = Address(street: string, city: string, country: string)

  /** Customer details; an empty string stands for an absent value. */
  datatype Customer = Customer(
    firstName: string,
    lastName: string,
    email: string,
    mobile: string,
    secondaryMobile: string)

  datatype Order = Order(
    orderNumber: string,
    items: seq<OrderItem>,
    totalAmount: int,
    currency: string,
    exchangeRate: int,
    shippingAddress: Address,
    customerInfo: Customer,
    paymentMethod: string,
    paymentStatus: string,
    status: string)

  const Currencies: seq<string> :=
    ["USD", "EUR", "GBP", "AED", "SAR", "QAR", "KWD", "BHD", "OMR", "JOD", "LBP", "EGP", "IQD", "ILS"]
  const Countries: seq<string> := ["JO", "SA", "AE", "KW", "QA", "BH", "OM", "EG", "IQ", "LB", "PS"]
  const PaymentMethods: seq<string> := ["card", "cod"]
  const PaymentStatuses: seq<string> := ["pending", "completed", "failed"]
  const OrderStatuses: seq<string> := ["pending", "processing", "shipped", "delivered", "cancelled"]

  const DefaultCurrency: string := "USD"
  const DefaultExchangeRate: int := 1
  const DefaultPaymentStatus: string := "pending"
  const DefaultStatus: string := "pending"

  /** `/^\+[0-9]{1,4}[0-9]{9,10}$/` */
  const MobilePattern: seq<Piece> := [Lit('+'), Run(Digit, 1, 4), Run(Digit, 9, 10)]

  predicate ValidMobile(v: string) {
    Matches(MobilePattern, v)
  }

  /** The secondary number may be absent; when present it follows the same pattern. */
  predicate ValidSecondaryMobile(v: string) {
    v == "" || ValidMobile(v)
  }

  /** A phone number is valid exactly when it is `+` followed by 10 to 14 digits. */
  lemma MobileShape(v: string)
    ensures ValidMobile(v) <==> 11 <= |v| <= 15 && v[0] == '+' && AllDigits(v[1..])
  {
    LitThen('+', [Run(Digit, 1, 4), Run(Digit, 9, 10)], v);
    assert MobilePattern == [Lit('+')] + [Run(Digit, 1, 4), Run(Digit, 9, 10)];
    if v != [] {
      TwoRuns(Digit, 1, 4, 9, 10, v[1..]);
    }
  }

  /** The secondary number is valid exactly when it is empty or `+` followed by 10 to 14 digits. */
  lemma SecondaryMobileShape(v: string)
    ensures ValidSecondaryMobile(v) <==> v == "" || (11 <= |v| <= 15 && v[0] == '+' && AllDigits(v[1..]))
  {
    MobileShape(v);
  }

  predicate ItemConforms(item: OrderItem) {
    item.quantity >= 1 && item.price >= 0
  }

  /** The schema's validators, all of which run when a new order is saved. */
  predicate Conforms(o: Order) {
    && o.orderNumber != ""
    && (forall i :: 0 <= i < |o.items| ==> ItemConforms(o.items[i]))
    && o.totalAmount >= 0
    && o.currency in Currencies
    && o.shippingAddress.street != ""
    && o.shippingAddress.city != ""
    && o.shippingAddress.country in Countries
    && o.customerInfo.firstName != ""
    && o.customerInfo.lastName != ""
    && o.customerInfo.email != ""
    && ValidMobile(o.customerInfo.mobile)
    && ValidSecondaryMobile(o.customerInfo.secondaryMobile)
    && o.paymentMethod in PaymentMethods
    && o.paymentStatus in PaymentStatuses
    && o.status in OrderStatuses
  }

  /** The unique index on `orderNumber`. */
  ghost predicate NumbersUnique(orders: map<OrderId, Order>) {
    forall a, b :: a in orders && b in orders && a != b ==> orders[a].orderNumber != orders[b].orderNumber
  }

  predicate NumberTaken(orders: map<OrderId, Order>, n: string) {
    exists id :: id in orders && orders[id].orderNumber == n
  }

  /** A new order is stored exactly when it passes validation and its number is not yet used. */
  predicate Saveable(orders: map<OrderId, Order>, o: Order) {
    Conforms(o) && !NumberTaken(orders, o.orderNumber)
  }

  /** Storing an order that the unique index admits keeps the numbers unique. */
  lemma InsertKeepsNumbersUnique(orders: map<OrderId, Order>, id: OrderId, o: Order)
    requires NumbersUnique(orders) && id !in orders && Saveable(orders, o)
    ensures NumbersUnique(orders[id := o])
    ensures |orders[id := o].Keys| == |orders.Keys| + 1
  {
    assert orders[id := o].Keys == orders.Keys + {id};
  }

  /**
   * A status update goes through `findByIdAndUpdate` without validators, so it can
   * store a status outside the enumeration: such an order no longer conforms.
   */
  lemma UnlistedStatusBreaksConformance(o: Order, status: string)
    requires status !in OrderStatuses
    ensures !Conforms(o.(status := status))
  {
  }

  /** The number is what makes an order unique: updating another field keeps numbers unique. */
  lemma StatusUpdateKeepsNumbersUnique(orders: map<OrderId, Order>, id: OrderId, status: string)
    requires NumbersUnique(orders) && id in orders
    ensures NumbersUnique(orders[id := orders[id].(status := status)])
  {
  }
}
