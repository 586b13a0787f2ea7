/**
 * `createDeliveryOrder`: the request guards, in the order the handler runs
 * them, and the mapping of the delivery service's answer onto the reply.
 */
module DeliveryController {
  import opened Wrappers
  import opened Text
  import opened DeliveryService

  /** The request body; `order` may be missing from it. */
  datatype DeliveryRequest = DeliveryRequest(order: Option<DeliveryOrder>, companyId: CompanyId)

  datatype DeliveryReply =
    | Sent(details: DeliveryResult, orderStatus: string)
    | Rejected(status: nat, message: string)
    | Failed(status: nat, message: string, error: string)

  /** How the guards dispose of a request: it goes on to the service, is refused, or makes the handler throw. */
  datatype Screening =
    | Admitted(order: DeliveryOrder)
    | Refused(message: string)
    | Thrown(error: string)

  const BadRequest := 400
  const ServerError := 500
  const Processing := "processing"
  const CompanyRequired := "Delivery company ID is required"
  const MissingInformation := "Missing required order information"
  const InvalidMobile := "Invalid mobile number"
  const CreateFailed := "Failed to create delivery order"
  const ServiceError := "Delivery service error"
  /** The TypeError the runtime raises when the second guard reads a property of a missing order. */
  const OrderMissing := "Cannot read properties of undefined (reading 'shippingAddress')"

  /** The street, when the order has an address block; "" otherwise. */
  function Street(order: DeliveryOrder): string {
    if order.shippingAddress.Some? then order.shippingAddress.value.street else ""
  }

  /** The mobile number, when the order has one; "" otherwise. */
  function Mobile(order: DeliveryOrder): string {
    if order.customerInfo.Some? && order.customerInfo.value.mobile.Some? then order.customerInfo.value.mobile.value else ""
  }

  /** The guards in the order the handler runs them; the first that fails decides. */
  function Screen(req: DeliveryRequest): (r: Screening)
    ensures req.companyId == "" ==> r == Refused(CompanyRequired)
    ensures req.companyId != "" && req.order.None? ==> r == Thrown(OrderMissing)
    ensures req.companyId != "" && req.order.Some? && (Street(req.order.value) == "" || Mobile(req.order.value) == "") ==>
      r == Refused(MissingInformation)
    ensures req.companyId != "" && req.order.Some? && Street(req.order.value) != "" && Mobile(req.order.value) != ""
            && |DigitsOf(Mobile(req.order.value))| < 10 ==>
      r == Refused(InvalidMobile)
    ensures r.Admitted? <==>
      req.companyId != "" && req.order.Some? && Street(req.order.value) != "" && |DigitsOf(Mobile(req.order.value))| >= 10
    ensures r.Admitted? ==> req.order == Some(r.order)
    ensures r.Refused? ==> r.message in {CompanyRequired, MissingInformation, InvalidMobile}
  {
    if req.companyId == "" then Refused(CompanyRequired)
    else if req.order.None? then Thrown(OrderMissing)
    else if Street(req.order.value) == "" || Mobile(req.order.value) == "" then Refused(MissingInformation)
    else if |DigitsOf(Mobile(req.order.value))| < 10 then Refused(InvalidMobile)
    else Admitted(req.order.value)
  }

  /** `String(value)` of what the service put in `message`. */
  function MessageText(m: ErrorValue): string {
    match m
    case ErrorText(t) => t
    case ErrorObject(_) => "[object Object]"
  }

  /** `deliveryResponse.message || 'Delivery service error'`. */
  function FailureText(message: Option<ErrorValue>): (t: string)
    ensures t != ""
  {
    if message.Some? && MessageText(message.value) != "" then MessageText(message.value) else ServiceError
  }

  /**
   * `createDeliveryOrder`, with the partner's HTTP outcome as a parameter. The
   * service rethrows every error as a plain `Error`, so every failure after the
   * guards is a 500, and so is the crash on a missing order.
   */
  function CreateDeliveryOrder(req: DeliveryRequest, companies: map<CompanyId, DeliveryCompany>,
                               network: NetworkOutcome): (reply: DeliveryReply)
    ensures Screen(req).Refused? ==> reply == Rejected(BadRequest, Screen(req).message)
    ensures req.companyId != "" && req.order.None? ==> reply == Failed(ServerError, CreateFailed, OrderMissing)
    ensures reply.Sent? <==>
      Screen(req).Admitted?
      && var s := SendOrderToDelivery(Screen(req).order, req.companyId, companies, network);
         s.outcome.Success? && s.outcome.value.success
    ensures reply.Sent? ==> reply.orderStatus == Processing && reply.details.success
    ensures reply.Failed? ==> reply.status == ServerError && reply.message == CreateFailed && reply.error != ""
    ensures reply.Rejected? ==> reply.status == BadRequest
  {
    match Screen(req)
    case Refused(message) => Rejected(BadRequest, message)
    case Thrown(error) => Failed(ServerError, CreateFailed, error)
    case Admitted(order) =>
      var sending := SendOrderToDelivery(order, req.companyId, companies, network);
      match sending.outcome
      case Failure(e) => Failed(ServerError, CreateFailed, e)
      case Success(result) =>
        if result.success then Sent(result, Processing)
        else Failed(ServerError, CreateFailed, FailureText(result.message))
  }

  /** What the handler caused the service to post to the partner, if anything. */
  function Posted(req: DeliveryRequest, companies: map<CompanyId, DeliveryCompany>,
                  network: NetworkOutcome): Option<Payload> {
    if Screen(req).Admitted? then SendOrderToDelivery(Screen(req).order, req.companyId, companies, network).posted
    else None
  }

  /**
   * Every guard runs before the delivery service is called: a request the
   * guards stop, by a 400 or by a crash, posts nothing, and its reply depends
   * neither on the companies nor on the network.
   */
  lemma GuardsComeFirst(req: DeliveryRequest, c1: map<CompanyId, DeliveryCompany>, n1: NetworkOutcome,
                        c2: map<CompanyId, DeliveryCompany>, n2: NetworkOutcome)
    requires !Screen(req).Admitted?
    ensures Posted(req, c1, n1).None?
    ensures CreateDeliveryOrder(req, c1, n1) == CreateDeliveryOrder(req, c2, n2)
  {
  }

  /** A request that passes the guards is never rejected as a bad request, whatever the partner does. */
  lemma ValidRequestReachesService(req: DeliveryRequest, companies: map<CompanyId, DeliveryCompany>,
                                   network: NetworkOutcome)
    requires req.companyId != "" && req.order.Some?
    requires Street(req.order.value) != "" && |DigitsOf(Mobile(req.order.value))| >= 10
    ensures !CreateDeliveryOrder(req, companies, network).Rejected?
    ensures Posted(req, companies, network) == SendOrderToDelivery(req.order.value, req.companyId, companies, network).posted
  {
  }

  /**
   * An accepted mobile number has at least ten digits, so the THREE_MINDS
   * payload that is posted carries a mobile number of at least ten digits.
   */
  lemma PostedMobileHasTenDigits(req: DeliveryRequest, companies: map<CompanyId, DeliveryCompany>,
                                 network: NetworkOutcome)
    requires Posted(req, companies, network).Some? && Posted(req, companies, network).value.ThreeMindsOrder?
    ensures |Posted(req, companies, network).value.customerMobile| >= 10
    ensures AllDigits(Posted(req, companies, network).value.customerMobile)
  {
  }
}
