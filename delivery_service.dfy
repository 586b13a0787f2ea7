/**
 * The delivery adapter: how an order is turned into a partner's payload, how a
 * partner's reply is read back, what a delivery costs, and the guards in front
 * of the call to the partner. The HTTP call itself is not modelled: its outcome
 * is a parameter.
 */
module DeliveryService {
  import opened Wrappers
  import opened Text

  // ----- delivery companies -----

  /** `settings.priceCalculation`; `Other` stands for any value outside the schema's list. */
  datatype PriceMode = Fixed | Weight | Distance | Other(name: string)

  datatype Credentials = Credentials(login: string, password: string, database: string)
  datatype Settings = Settings(priceCalculation: PriceMode, basePrice: int)
  datatype DeliveryCompany = DeliveryCompany(
    name: string, code: string, apiUrl: string,
    credentials: Credentials, isActive: bool, settings: Settings)

  type CompanyId = string

  /** The schema's defaults for a company created without settings. */
  const DefaultSettings := Settings(Fixed, 0)

  const ThreeMinds := "THREE_MINDS"
  const Aramex := "ARAMEX"

  // ----- the order as the request body gives it -----

  /** Strings stand for absent fields as "" where the code only tests truthiness. */
  datatype ShippingAddress = ShippingAddress(street: string, city: string, country: string,
                                             latitude: string, longitude: string)
  datatype CustomerInfo = CustomerInfo(firstName: string, lastName: string, mobile: Option<string>, email: string)
  /** An item is known by its weight only; `None` is an item without a weight. */
  datatype DeliveryOrder = DeliveryOrder(
    orderNumber: string, totalAmount: int,
    shippingAddress: Option<ShippingAddress>, customerInfo: Option<CustomerInfo>,
    items: seq<Option<int>>)

  // ----- payloads -----

  const DefaultLatitude := "31.889883437603157"
  const DefaultLongitude := "35.01046782913909"

  datatype Payload =
    | ThreeMindsOrder(login: string, password: string, db: string,
                      customerAddress: string, customerMobile: string, customerName: string,
                      customerArea: string, cost: int, orderTypeId: string,
                      latitude: string, longitude: string)
    | AramexShipment(reference: string, recipientName: string, phone: Option<string>, email: string,
                     line1: string, city: string, country: string, weight: nat, codAmount: int)

  function FullName(c: CustomerInfo): string {
    c.firstName + " " + c.lastName
  }

  /** `a || b` on strings: the empty string is falsy. */
  function OrElse(a: string, b: string): string {
    if a != "" then a else b
  }

  /**
   * `formatOrderForCompany`. A missing address or customer block (and, for
   * THREE_MINDS, a missing mobile number) is the TypeError the code throws
   * when it reads through `undefined`; an unknown code is rejected by name.
   */
  function FormatOrderForCompany(order: DeliveryOrder, company: DeliveryCompany): (r: Result<Payload, string>)
    ensures company.code != ThreeMinds && company.code != Aramex ==>
      r == Failure("Unsupported delivery company: " + company.code)
    ensures company.code == ThreeMinds ==>
      (r.Success? <==> order.shippingAddress.Some? && order.customerInfo.Some? && order.customerInfo.value.mobile.Some?)
    ensures company.code == Aramex ==>
      (r.Success? <==> order.shippingAddress.Some? && order.customerInfo.Some?)
    ensures r.Success? ==> (r.value.ThreeMindsOrder? <==> company.code == ThreeMinds)
  {
    if company.code == ThreeMinds then
      if order.shippingAddress.None? then Failure("Cannot read properties of undefined (reading 'street')")
      else if order.customerInfo.None? then Failure("Cannot read properties of undefined (reading 'mobile')")
      else if order.customerInfo.value.mobile.None? then Failure("Cannot read properties of undefined (reading 'replace')")
      else
        var a := order.shippingAddress.value;
        var c := order.customerInfo.value;
        Success(ThreeMindsOrder(
          company.credentials.login, company.credentials.password, company.credentials.database,
          a.street, DigitsOf(c.mobile.value), FullName(c), a.city, order.totalAmount, "1",
          OrElse(a.latitude, DefaultLatitude), OrElse(a.longitude, DefaultLongitude)))
    else if company.code == Aramex then
      if order.customerInfo.None? then Failure("Cannot read properties of undefined (reading 'firstName')")
      else if order.shippingAddress.None? then Failure("Cannot read properties of undefined (reading 'street')")
      else
        var a := order.shippingAddress.value;
        var c := order.customerInfo.value;
        Success(AramexShipment(order.orderNumber, FullName(c), c.mobile, c.email,
                               a.street, a.city, a.country, 1, order.totalAmount))
    else
      Failure("Unsupported delivery company: " + company.code)
  }

  /**
   * The THREE_MINDS payload: the mobile number keeps exactly its digits, the
   * name is first and last name joined by one space, the cost is the order
   * total, the order type is "1", and a missing coordinate takes the default.
   */
  lemma ThreeMindsPayload(order: DeliveryOrder, company: DeliveryCompany)
    requires company.code == ThreeMinds
    requires order.shippingAddress.Some? && order.customerInfo.Some? && order.customerInfo.value.mobile.Some?
    ensures var p := FormatOrderForCompany(order, company).value;
      var a := order.shippingAddress.value;
      var c := order.customerInfo.value;
      && AllDigits(p.customerMobile) && |p.customerMobile| <= |c.mobile.value|
      && (forall ch :: multiset(p.customerMobile)[ch] == if IsDigit(ch) then multiset(c.mobile.value)[ch] else 0)
      && p.customerName == c.firstName + [' '] + c.lastName
      && p.cost == order.totalAmount && p.orderTypeId == "1"
      && p.customerAddress == a.street && p.customerArea == a.city
      && p.login == company.credentials.login && p.password == company.credentials.password
      && p.db == company.credentials.database
      && p.latitude == (if a.latitude == "" then DefaultLatitude else a.latitude)
      && p.longitude == (if a.longitude == "" then DefaultLongitude else a.longitude)
      && p.latitude != "" && p.longitude != ""
  {
  }

  /** The ARAMEX payload: the order number is the reference, the order total is cash on delivery, the weight is 1. */
  lemma AramexPayload(order: DeliveryOrder, company: DeliveryCompany)
    requires company.code == Aramex
    requires order.shippingAddress.Some? && order.customerInfo.Some?
    ensures var p := FormatOrderForCompany(order, company).value;
      var a := order.shippingAddress.value;
      var c := order.customerInfo.value;
      && p.reference == order.orderNumber && p.codAmount == order.totalAmount && p.weight == 1
      && p.recipientName == c.firstName + [' '] + c.lastName && p.phone == c.mobile && p.email == c.email
      && p.line1 == a.street && p.city == a.city && p.country == a.country
  {
  }

  // ----- partner replies -----

  /** A partner's `error` field: a string, or an object with an optional `message`. */
  datatype ErrorValue = ErrorText(text: string) | ErrorObject(message: Option<string>)

  predicate Truthy(e: Option<ErrorValue>) {
    e.Some? && e.value != ErrorText("")
  }

  /** The `result` or `data` block of a reply; `status` is "" when absent. */
  datatype Tracking = Tracking(trackingNumber: Option<string>, status: string)

  /** The reply body; `success` is the truthiness of the body's `success` field. */
  datatype PartnerReply = PartnerReply(success: bool, error: Option<ErrorValue>,
                                       result: Option<Tracking>, data: Option<Tracking>)

  datatype DeliveryResult = DeliveryResult(success: bool, trackingNumber: Option<string>,
                                           status: Option<string>, message: Option<ErrorValue>)

  const Pending := "pending"
  const UnknownFormat := "Unknown delivery company response format"

  function StatusOr(t: Option<Tracking>): string {
    if t.Some? && t.value.status != "" then t.value.status else Pending
  }

  function TrackingOf(t: Option<Tracking>): Option<string> {
    if t.Some? then t.value.trackingNumber else None
  }

  /** `parseResponse`. */
  function ParseResponse(reply: PartnerReply, code: string): (r: DeliveryResult)
    ensures code == ThreeMinds ==> (r.success <==> !Truthy(reply.error))
    ensures code == Aramex ==> (r.success <==> reply.success)
    ensures code == ThreeMinds || code == Aramex ==> r.status.Some? && r.status.value != ""
    ensures code != ThreeMinds && code != Aramex ==>
      !r.success && r.status.None? && r.message == Some(ErrorText(UnknownFormat))
  {
    if code == ThreeMinds then
      DeliveryResult(!Truthy(reply.error), TrackingOf(reply.result), Some(StatusOr(reply.result)),
                     if reply.error.Some? && reply.error.value.ErrorObject? && reply.error.value.message.Some?
                     then Some(ErrorText(reply.error.value.message.value)) else None)
    else if code == Aramex then
      DeliveryResult(reply.success, TrackingOf(reply.data), Some(StatusOr(reply.data)), reply.error)
    else
      DeliveryResult(false, None, None, Some(ErrorText(UnknownFormat)))
  }

  /** The status a partner reports is passed through unless it is absent, and then it reads "pending". */
  lemma ParsedStatus(reply: PartnerReply, code: string)
    requires code == ThreeMinds || code == Aramex
    ensures var block := if code == ThreeMinds then reply.result else reply.data;
      var r := ParseResponse(reply, code);
      && r.trackingNumber == (if block.Some? then block.value.trackingNumber else None)
      && (block.Some? && block.value.status != "" ==> r.status == Some(block.value.status))
      && (block.None? || block.value.status == "" ==> r.status == Some(Pending))
  {
  }

  // ----- fees -----

  /** `items.reduce((sum, item) => sum + (item.weight || 0), 0)`. */
  function TotalWeight(items: seq<Option<int>>): int {
    if items == [] then 0
    else TotalWeight(items[..|items| - 1]) + items[|items| - 1].GetOr(0)
  }

  lemma {:induction false} TotalWeightConcat(a: seq<Option<int>>, b: seq<Option<int>>)
    ensures TotalWeight(a + b) == TotalWeight(a) + TotalWeight(b)
  {
    if b == [] {
      assert a + b == a;
    } else {
      assert (a + b)[..|a + b| - 1] == a + b[..|b| - 1];
      TotalWeightConcat(a, b[..|b| - 1]);
    }
  }

  /** Items without a weight add nothing. */
  lemma {:induction false} UnweighedItems(items: seq<Option<int>>)
    requires forall i :: 0 <= i < |items| ==> items[i].None?
    ensures TotalWeight(items) == 0
  {
    if items != [] {
      UnweighedItems(items[..|items| - 1]);
    }
  }

  const CompanyNotFound := "Delivery company not found"

  /** `calculateDeliveryFee`. */
  function DeliveryFee(order: DeliveryOrder, companyId: CompanyId, companies: map<CompanyId, DeliveryCompany>): (r: Result<int, string>)
    ensures companyId !in companies <==> r == Failure(CompanyNotFound)
    ensures r.Success? <==> companyId in companies
    ensures companyId in companies && companies[companyId].settings.priceCalculation != Weight ==>
      r == Success(companies[companyId].settings.basePrice)
    ensures companyId in companies && companies[companyId].settings.priceCalculation == Weight ==>
      r == Success(companies[companyId].settings.basePrice * TotalWeight(order.items))
  {
    if companyId !in companies then Failure(CompanyNotFound)
    else
      var s := companies[companyId].settings;
      match s.priceCalculation
      case Weight => Success(s.basePrice * TotalWeight(order.items))
      case _ => Success(s.basePrice)
  }

  /**
   * Under weight pricing the fee of an order is the sum of the fees of any
   * split of its items: the fee is linear in the item list.
   */
  lemma WeightFeeAdditive(order: DeliveryOrder, a: seq<Option<int>>, b: seq<Option<int>>,
                          companyId: CompanyId, companies: map<CompanyId, DeliveryCompany>)
    requires companyId in companies && companies[companyId].settings.priceCalculation == Weight
    ensures DeliveryFee(order.(items := a + b), companyId, companies).value
         == DeliveryFee(order.(items := a), companyId, companies).value
          + DeliveryFee(order.(items := b), companyId, companies).value
  {
    TotalWeightConcat(a, b);
    var p := companies[companyId].settings.basePrice;
    assert p * (TotalWeight(a) + TotalWeight(b)) == p * TotalWeight(a) + p * TotalWeight(b);
  }

  /**
   * Under weight pricing an order of no items costs nothing and an order of one
   * item costs the base price times its weight, or nothing when it has none;
   * with `WeightFeeAdditive` this fixes the fee of every item list.
   */
  lemma WeightFeeUnits(order: DeliveryOrder, w: Option<int>, companyId: CompanyId, companies: map<CompanyId, DeliveryCompany>)
    requires companyId in companies && companies[companyId].settings.priceCalculation == Weight
    ensures DeliveryFee(order.(items := []), companyId, companies) == Success(0)
    ensures DeliveryFee(order.(items := [w]), companyId, companies)
         == Success(if w.Some? then companies[companyId].settings.basePrice * w.value else 0)
  {
    assert [w][..0] == [];
  }

  // ----- sending -----

  /** What the HTTP call to the partner came back with. */
  datatype NetworkOutcome =
    | Answered(reply: PartnerReply)
    | HttpError(message: Option<string>)
    | NoResponse

  const SendFailed := "Failed to send order to delivery service"

  /** What `sendOrderToDelivery` posted, if it got that far, and what it returned or threw. */
  datatype Sending = Sending(posted: Option<Payload>, outcome: Result<DeliveryResult, string>)

  /**
   * `sendOrderToDelivery`. Every failure is rethrown with the generic message,
   * except an HTTP error whose body carries a non-empty `message`.
   */
  function SendOrderToDelivery(order: DeliveryOrder, companyId: CompanyId,
                               companies: map<CompanyId, DeliveryCompany>, network: NetworkOutcome): (r: Sending)
    ensures companyId !in companies || !companies[companyId].isActive ==> r == Sending(None, Failure(SendFailed))
    ensures r.posted.Some? <==>
      companyId in companies && companies[companyId].isActive
      && FormatOrderForCompany(order, companies[companyId]).Success?
    ensures r.posted.Some? ==> r.posted == Some(FormatOrderForCompany(order, companies[companyId]).value)
    ensures r.outcome.Success? <==> r.posted.Some? && network.Answered?
    ensures r.outcome.Success? ==> r.outcome.value == ParseResponse(network.reply, companies[companyId].code)
    ensures r.outcome.Failure? ==> r.outcome.error != ""
  {
    if companyId !in companies || !companies[companyId].isActive then
      Sending(None, Failure(SendFailed))
    else
      var company := companies[companyId];
      var payload := FormatOrderForCompany(order, company);
      if payload.Failure? then Sending(None, Failure(SendFailed))
      else
        match network
        case Answered(reply) => Sending(Some(payload.value), Success(ParseResponse(reply, company.code)))
        case HttpError(message) =>
          Sending(Some(payload.value), Failure(if message.Some? && message.value != "" then message.value else SendFailed))
        case NoResponse => Sending(Some(payload.value), Failure(SendFailed))
  }

  /** A send that fails before anything is posted does not depend on what the network would have said. */
  lemma UnpostedIgnoresNetwork(order: DeliveryOrder, companyId: CompanyId,
                               companies: map<CompanyId, DeliveryCompany>, n1: NetworkOutcome, n2: NetworkOutcome)
    requires SendOrderToDelivery(order, companyId, companies, n1).posted.None?
    ensures SendOrderToDelivery(order, companyId, companies, n1) == SendOrderToDelivery(order, companyId, companies, n2)
    ensures SendOrderToDelivery(order, companyId, companies, n1).outcome == Failure(SendFailed)
  {
  }
}
