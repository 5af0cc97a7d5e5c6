/**
 * Order creation (src/app/api/create-order/route.ts): fill the request's defaults, ask the
 * gateway for an order, insert its `payments` row, then set the team to "Pending".
 */
module CreateOrder {
  import opened Wrappers
  import opened Store

  /** The JSON body; a `None` field was left out by the caller. */
  datatype Body = Body(
    amount: Option<string>,
    currency: Option<string>,
    teamId: string,
    customerId: Option<string>,
    customerName: Option<string>,
    customerEmail: Option<string>,
    customerPhone: Option<string>,
    returnUrl: Option<string>)

  datatype CustomerDetails = CustomerDetails(
    customerId: string, customerName: string, customerEmail: string, customerPhone: string)

  /** The body sent to the gateway's order endpoint; `returnUrl` travels in `order_meta`. */
  datatype OrderRequest = OrderRequest(
    orderAmount: string, orderCurrency: string, customerDetails: CustomerDetails, returnUrl: string)

  /** The gateway's answer to a created order, with its full body. */
  datatype CreatedOrder = CreatedOrder(orderId: string, paymentSessionId: string, orderStatus: string, raw: string)

  /** The outbound call that creates an order. */
  type Gateway = OrderRequest -> GatewayReply<CreatedOrder>

  /**
   * The gateway request built from the body, each omitted field replaced by its default:
   * amount "1.00", currency "INR", customer id "cust_" and the clock in milliseconds, empty
   * name, email and phone, and the configured base URL followed by "/order-result" (the
   * text "undefined" when no base URL is configured). A given field passes verbatim.
   */
  function OrderPayload(body: Body, millis: string, baseUrl: Option<string>): (r: OrderRequest)
    ensures body.amount.None? ==> r.orderAmount == "1.00"
    ensures body.currency.None? ==> r.orderCurrency == "INR"
    ensures body.customerId.None? ==> r.customerDetails.customerId == "cust_" + millis
    ensures body.customerName.None? ==> r.customerDetails.customerName == ""
    ensures body.customerEmail.None? ==> r.customerDetails.customerEmail == ""
    ensures body.customerPhone.None? ==> r.customerDetails.customerPhone == ""
    ensures body.returnUrl.None? ==> r.returnUrl == baseUrl.GetOr("undefined") + "/order-result"
    ensures body.amount.Some? ==> r.orderAmount == body.amount.value
    ensures body.currency.Some? ==> r.orderCurrency == body.currency.value
    ensures body.customerId.Some? ==> r.customerDetails.customerId == body.customerId.value
    ensures body.customerName.Some? ==> r.customerDetails.customerName == body.customerName.value
    ensures body.customerEmail.Some? ==> r.customerDetails.customerEmail == body.customerEmail.value
    ensures body.customerPhone.Some? ==> r.customerDetails.customerPhone == body.customerPhone.value
    ensures body.returnUrl.Some? ==> r.returnUrl == body.returnUrl.value
  {
    var amount := body.amount.GetOr("1.00");
    var currency := body.currency.GetOr("INR");
    var customerId := body.customerId.GetOr("cust_" + millis);
    var customerName := body.customerName.GetOr("");
    var customerEmail := body.customerEmail.GetOr("");
    var customerPhone := body.customerPhone.GetOr("");
    var returnUrl := body.returnUrl.GetOr(baseUrl.GetOr("undefined") + "/order-result");
    OrderRequest(amount, currency, CustomerDetails(customerId, customerName, customerEmail, customerPhone), returnUrl)
  }

  /** The row inserted for a created order. */
  function CreatedRecord(body: Body, req: OrderRequest, data: CreatedOrder): (r: PaymentRecord)
    ensures r.teamId == Some(body.teamId)
    ensures r.paymentSessionId == Some(data.paymentSessionId)
    ensures r.amount == Some(req.orderAmount) && r.currency == Some(req.orderCurrency)
    ensures r.status == data.orderStatus
    ensures r.transactionId.None? && r.rawPayload == data.raw && r.updatedAt.None?
  {
    PaymentRecord(
      teamId := Some(body.teamId),
      paymentSessionId := Some(data.paymentSessionId),
      amount := Some(req.orderAmount),
      currency := Some(req.orderCurrency),
      status := data.orderStatus,
      transactionId := None,
      rawPayload := data.raw,
      updatedAt := None)
  }

  /**
   * What POST does to the tables and what it answers. A gateway refusal or a failed insert
   * changes nothing; otherwise exactly one row is added, carrying the body's team, the
   * gateway's order id and session, the requested amount and currency and the gateway's
   * status as given; the team becomes "Pending" only after that insert; when the team
   * update fails the row stays. Every failure answers 500.
   */
  function PostOutcome(t: Tables, body: Body, gateway: Gateway, millis: string, baseUrl: Option<string>,
                       f: StoreFaults): (o: Outcome)
    ensures var reply := gateway(OrderPayload(body, millis, baseUrl));
      reply.Rejected? ==> o == Outcome(Fail(500, GatewayError(reply.body)), t)
    ensures var reply := gateway(OrderPayload(body, millis, baseUrl));
      o.response.Ok? <==>
        reply.Replied? && !f.write && reply.data.orderId !in t.payments && !f.teamWrite
    ensures var reply := gateway(OrderPayload(body, millis, baseUrl));
      o.response.Ok? ==> o.response.data == Some(reply.data.raw)
    ensures var reply := gateway(OrderPayload(body, millis, baseUrl));
      reply.Replied? && (f.write || reply.data.orderId in t.payments) ==> o == Outcome(Fail(500, StoreError), t)
    ensures var reply := gateway(OrderPayload(body, millis, baseUrl));
      reply.Replied? && !f.write && reply.data.orderId !in t.payments && f.teamWrite ==>
        o.response == Fail(500, StoreError)
    ensures o.response.Fail? ==> o.response.status == 500
    ensures var req := OrderPayload(body, millis, baseUrl);
      var reply := gateway(req);
      o.tables.payments != t.payments ==>
        && reply.Replied?
        && reply.data.orderId !in t.payments
        && reply.data.orderId in o.tables.payments
        && o.tables.payments == t.payments[reply.data.orderId := o.tables.payments[reply.data.orderId]]
        && var r := o.tables.payments[reply.data.orderId];
        && r.teamId == Some(body.teamId)
        && r.paymentSessionId == Some(reply.data.paymentSessionId)
        && r.amount == Some(req.orderAmount) && r.currency == Some(req.orderCurrency)
        && r.status == reply.data.orderStatus
        && r.transactionId.None?
    ensures var reply := gateway(OrderPayload(body, millis, baseUrl));
      reply.Replied? && !f.write && reply.data.orderId !in t.payments ==>
        o.tables.payments == t.payments[reply.data.orderId :=
          CreatedRecord(body, OrderPayload(body, millis, baseUrl), reply.data)]
    ensures o.tables.teams.Keys == t.teams.Keys
    ensures o.tables.payments == t.payments ==> o.tables.teams == t.teams
    ensures o.tables.teams != t.teams ==> o.response.Ok? && o.tables.teams == t.teams[body.teamId := "Pending"]
    ensures o.response.Ok? ==> o.tables.payments != t.payments
    ensures o.response.Ok? && body.teamId in t.teams ==> o.tables.teams[body.teamId] == "Pending"
    ensures o.response.Fail? && o.tables != t ==> f.teamWrite && o.tables.teams == t.teams
  {
    var req := OrderPayload(body, millis, baseUrl);
    match gateway(req)
    case Rejected(error) => Outcome(Fail(500, GatewayError(error)), t)
    case Replied(data) =>
      match InsertRow(t.payments, data.orderId, CreatedRecord(body, req, data), f.write)
      case None => Outcome(Fail(500, StoreError), t)
      case Some(payments) =>
        if f.teamWrite then Outcome(Fail(500, StoreError), Tables(payments, t.teams))
        else Outcome(Ok(Some(data.raw)), Tables(payments, SetTeam(t.teams, body.teamId, "Pending", false)))
  }

  /** The handler, step by step, against the in-memory tables. */
  method Post(db: Database, body: Body, gateway: Gateway, millis: string, baseUrl: Option<string>,
              f: StoreFaults) returns (resp: Response)
    modifies db
    ensures Outcome(resp, db.State()) == PostOutcome(old(db.State()), body, gateway, millis, baseUrl, f)
  {
    var payload := OrderPayload(body, millis, baseUrl);
    var reply := gateway(payload);
    if reply.Rejected? {
      return Fail(500, GatewayError(reply.body));
    }
    var data := reply.data;

    var inserted := db.InsertPayment(data.orderId, CreatedRecord(body, payload, data), f.write);
    if !inserted {
      return Fail(500, StoreError);
    }

    var teamUpdated := db.UpdateTeam(body.teamId, "Pending", f.teamWrite);
    if !teamUpdated {
      return Fail(500, StoreError);
    }
    resp := Ok(Some(data.raw));
  }
}
