/**
 * Poll verification (src/app/api/verify-order/route.ts): ask the gateway for the order,
 * overwrite its `payments` row with the answer, and mark its team "PAID" when paid.
 */
module VerifyOrder {
  import opened Wrappers
  import opened Ascii
  import opened Store

  /** The gateway's order as the handler reads it; `None` when a field is absent. */
  datatype FetchedOrder = FetchedOrder(orderStatus: Option<string>, transactionId: Option<string>, raw: string)

  /** The outbound call that looks an order up by its id. */
  type Gateway = string -> GatewayReply<FetchedOrder>

  /**
   * The columns written unconditionally: the status upper-cased, the transaction id (left
   * as stored only when the gateway's answer has none at all), the body and the time.
   */
  function Overwrite(data: FetchedOrder, now: string): (p: Patch)
    requires data.orderStatus.Some?
    ensures p.status == Some(Upper(data.orderStatus.value))
    ensures p.transactionId == data.transactionId
    ensures p.rawPayload == Some(data.raw) && p.updatedAt == Some(now)
  {
    Patch(Some(UpperStatus(data.orderStatus.value)), data.transactionId, Some(data.raw), Some(now))
  }

  /** The team step: on an exact "PAID", the team of the order's row becomes "PAID". */
  function MarkedPaid(payments: map<string, PaymentRecord>, teams: map<string, string>, id: string,
                      status: string, f: StoreFaults): (r: map<string, string>)
    ensures r.Keys == teams.Keys
    ensures forall k :: k in teams && r[k] != teams[k] ==>
      r[k] == "PAID" && status == "PAID" && id in payments && Truthy(payments[id].teamId) && payments[id].teamId.value == k
    ensures status == "PAID" && !f.teamLookup && !f.teamWrite && id in payments ==>
      (Truthy(payments[id].teamId) && payments[id].teamId.value in teams ==>
         r == teams[payments[id].teamId.value := "PAID"])
    ensures f.teamLookup || f.teamWrite ==> r == teams
  {
    if status == "PAID" then
      match Select(payments, id, f.teamLookup)
      case Some(row) => if Truthy(row.teamId) then SetTeam(teams, row.teamId.value, "PAID", f.teamWrite) else teams
      case None => teams
    else
      teams
  }

  /**
   * What GET does to the tables and what it answers. A missing `order_id` answers 400 and
   * a gateway refusal 500, both with the tables as they were; otherwise no store failure
   * stops the answer `{ ok: true, order }`. No row is inserted, only the polled row
   * changes, and its team is left as it is.
   */
  function GetOutcome(t: Tables, orderId: Option<string>, gateway: Gateway, now: string, f: StoreFaults)
    : (o: Outcome)
    ensures !Truthy(orderId) ==> o == Outcome(Fail(400, MissingOrderId), t)
    ensures Truthy(orderId) && gateway(orderId.value).Rejected? ==>
      o == Outcome(Fail(500, GatewayError(gateway(orderId.value).body)), t)
    ensures o.response.Fail? ==> o.tables == t
    ensures o.response.Ok? <==>
      Truthy(orderId) && gateway(orderId.value).Replied? && gateway(orderId.value).data.orderStatus.Some?
    ensures Truthy(orderId) && gateway(orderId.value).Replied? && gateway(orderId.value).data.orderStatus.None? ==>
      o == Outcome(Fail(500, Exception), t)
    ensures o.response.Ok? ==>
      o.tables.teams == MarkedPaid(o.tables.payments, t.teams, orderId.value,
                                   gateway(orderId.value).data.orderStatus.value, f)
    ensures o.response.Ok? ==> o.response.data == Some(gateway(orderId.value).data.raw)
    ensures o.tables.payments.Keys == t.payments.Keys
    ensures forall k :: k in t.payments && Some(k) != orderId ==> o.tables.payments[k] == t.payments[k]
    ensures forall k :: k in t.payments ==> o.tables.payments[k].teamId == t.payments[k].teamId
    ensures o.response.Ok? && orderId.value in t.payments && !f.write ==>
      var data := gateway(orderId.value).data;
      var r := o.tables.payments[orderId.value];
      && r.status == Upper(data.orderStatus.value)
      && (data.transactionId.Some? ==> r.transactionId == data.transactionId)
      && r.rawPayload == data.raw && r.updatedAt == Some(now)
    ensures o.response.Ok? && orderId.value in t.payments ==>
      var was := t.payments[orderId.value];
      var r := o.tables.payments[orderId.value];
      && r.paymentSessionId == was.paymentSessionId && r.amount == was.amount && r.currency == was.currency
      && (gateway(orderId.value).data.transactionId.None? ==> r.transactionId == was.transactionId)
      && (f.write ==> r == was)
    ensures o.tables.teams.Keys == t.teams.Keys
    ensures forall k :: k in t.teams && o.tables.teams[k] != t.teams[k] ==>
      o.tables.teams[k] == "PAID" && gateway(orderId.value).data.orderStatus == Some("PAID") &&
      orderId.value in t.payments && Truthy(t.payments[orderId.value].teamId) &&
      t.payments[orderId.value].teamId.value == k
  {
    if !Truthy(orderId) then Outcome(Fail(400, MissingOrderId), t)
    else
      var id := orderId.value;
      match gateway(id)
      case Rejected(error) => Outcome(Fail(500, GatewayError(error)), t)
      case Replied(data) =>
        if data.orderStatus.None? then Outcome(Fail(500, Exception), t)
        else
          var payments := UpdateRow(t.payments, id, Overwrite(data, now), f.write);
          Outcome(Ok(Some(data.raw)), Tables(payments, MarkedPaid(payments, t.teams, id, data.orderStatus.value, f)))
  }

  /** The tables agree on everything but the rows' `updated_at`. */
  predicate AgreeExceptUpdatedAt(a: Tables, b: Tables) {
    && a.teams == b.teams
    && a.payments.Keys == b.payments.Keys
    && forall k :: k in a.payments ==> a.payments[k].(updatedAt := None) == b.payments[k].(updatedAt := None)
  }

  /**
   * Polling again with the same gateway answer, at any later time and whatever the store
   * does on that second poll, leaves the tables as the first poll left them except for
   * `updated_at`.
   */
  lemma RepeatedPollChangesOnlyTime(t: Tables, orderId: Option<string>, gateway: Gateway,
                                    now1: string, now2: string, f: StoreFaults)
    ensures var once := GetOutcome(t, orderId, gateway, now1, NoFaults).tables;
            AgreeExceptUpdatedAt(GetOutcome(once, orderId, gateway, now2, f).tables, once)
  {
    var once := GetOutcome(t, orderId, gateway, now1, NoFaults);
    if once.response.Ok? {
      var id := orderId.value;
      var data := gateway(id).data;
      var twice := GetOutcome(once.tables, orderId, gateway, now2, f);
      assert twice.tables.teams == once.tables.teams;
      forall k | k in twice.tables.payments
        ensures twice.tables.payments[k].(updatedAt := None) == once.tables.payments[k].(updatedAt := None)
      {
        if k == id && !f.write {
          assert twice.tables.payments[k] == Apply(once.tables.payments[k], Overwrite(data, now2));
        }
      }
    }
  }

  /** The handler, step by step, against the in-memory tables. */
  method Get(db: Database, orderId: Option<string>, gateway: Gateway, now: string, f: StoreFaults)
    returns (resp: Response)
    modifies db
    ensures Outcome(resp, db.State()) == GetOutcome(old(db.State()), orderId, gateway, now, f)
  {
    if !Truthy(orderId) {
      return Fail(400, MissingOrderId);
    }
    var id := orderId.value;
    var reply := gateway(id);
    if reply.Rejected? {
      return Fail(500, GatewayError(reply.body));
    }
    var data := reply.data;
    if data.orderStatus.None? {
      return Fail(500, Exception);
    }
    var status := data.orderStatus.value;

    var updated := db.UpdatePayment(id, Overwrite(data, now), f.write);

    if status == "PAID" {
      var row := db.SelectPayment(id, f.teamLookup);
      if row.Some? && Truthy(row.value.teamId) {
        var teamUpdated := db.UpdateTeam(row.value.teamId.value, "PAID", f.teamWrite);
      }
    }
    resp := Ok(Some(data.raw));
  }
}
