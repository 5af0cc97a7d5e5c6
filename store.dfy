/**
 * The two tables the handlers share, `payments` keyed by `order_id` and `teams` keyed by
 * `team_id`, an in-memory stand-in for the hosted database client, and the values the
 * handlers answer with.
 */
module Store {
  import opened Wrappers
  import opened Ascii

  /** One row of `payments`; the row's `order_id` is its key in the table. */
  datatype PaymentRecord = PaymentRecord(
    teamId: Option<string>,
    paymentSessionId: Option<string>,
    amount: Option<string>,
    currency: Option<string>,
    status: string,
    transactionId: Option<string>,
    rawPayload: string,
    updatedAt: Option<string>)

  /**
   * The columns of one `update(...)` call on `payments`. A `None` column is not sent
   * (an `undefined` value is dropped when the request body is serialised), so the stored
   * value stays.
   */
  datatype Patch = Patch(
    status: Option<string>,
    transactionId: Option<string>,
    rawPayload: Option<string>,
    updatedAt: Option<string>)
  {
    /** `Object.keys(updates).length === 0`. */
    predicate IsEmpty() {
      status.None? && transactionId.None? && rawPayload.None? && updatedAt.None?
    }
  }

  const NoColumns := Patch(None, None, None, None)

  /** The row after an update with `p`: the columns `p` sends take its values, the rest stay. */
  function Apply(rec: PaymentRecord, p: Patch): (r: PaymentRecord)
    ensures r.teamId == rec.teamId && r.paymentSessionId == rec.paymentSessionId
    ensures r.amount == rec.amount && r.currency == rec.currency
    ensures r.status == p.status.GetOr(rec.status)
    ensures r.transactionId == if p.transactionId.Some? then p.transactionId else rec.transactionId
    ensures r.rawPayload == p.rawPayload.GetOr(rec.rawPayload)
    ensures r.updatedAt == if p.updatedAt.Some? then p.updatedAt else rec.updatedAt
    ensures p.IsEmpty() ==> r == rec
  {
    rec.(status := p.status.GetOr(rec.status),
         transactionId := if p.transactionId.Some? then p.transactionId else rec.transactionId,
         rawPayload := p.rawPayload.GetOr(rec.rawPayload),
         updatedAt := if p.updatedAt.Some? then p.updatedAt else rec.updatedAt)
  }

  /** Both tables at one moment. */
  datatype Tables = Tables(payments: map<string, PaymentRecord>, teams: map<string, string>)

  /**
   * Which store calls of one request fail. A failed call changes nothing and its `data`
   * is `null`: `lookup` is the select of a whole `payments` row, `write` the insert or
   * update of a `payments` row, `teamLookup` the select of a row's `team_id`, `teamWrite`
   * the update of `teams`.
   */
  datatype StoreFaults = StoreFaults(lookup: bool, write: bool, teamLookup: bool, teamWrite: bool)

  const NoFaults := StoreFaults(false, false, false, false)

  /** Why a handler refused or gave up; the HTTP status travels in the response. */
  datatype Failure =
    | MissingSignatureOrTimestamp
    | ServerMisconfiguration
    | InvalidSignature
    | MissingOrderIdInPayload
    | MissingOrderId
    | GatewayError(body: string)
    | StoreError
    | Exception

  /** `{ ok: true, ... }` with the gateway's body when there is one, or `{ ok: false, error }`. */
  datatype Response = Ok(data: Option<string>) | Fail(status: int, error: Failure)

  /** What a handler answers and the tables it leaves behind. */
  datatype Outcome = Outcome(response: Response, tables: Tables)

  /** The answer of an outbound call to the payment gateway: `res.ok` with its body, or not. */
  datatype GatewayReply<T> = Replied(data: T) | Rejected(body: string)

  /** `orderStatus === "PAID" ? "PAID" : orderStatus.toUpperCase()`. */
  function UpperStatus(s: string): (r: string)
    ensures r == Upper(s)
  {
    PaidLiterals();
    if s == "PAID" then "PAID" else Upper(s)
  }

  /** `orderStatus === "PAID" ? "paid" : orderStatus.toLowerCase()`. */
  function LowerStatus(s: string): (r: string)
    ensures r == Lower(s)
  {
    PaidLiterals();
    if s == "PAID" then "paid" else Lower(s)
  }

  /** The row `order_id = id`, as `maybeSingle()` returns it; `None` when it failed. */
  function Select(payments: map<string, PaymentRecord>, id: string, fail: bool): (r: Option<PaymentRecord>)
    ensures r.Some? <==> !fail && id in payments
    ensures r.Some? ==> r.value == payments[id]
  {
    if !fail && id in payments then Some(payments[id]) else None
  }

  /** An insert: refused when it fails or when the key is taken (`order_id` is unique). */
  function InsertRow(payments: map<string, PaymentRecord>, id: string, rec: PaymentRecord, fail: bool)
    : (r: Option<map<string, PaymentRecord>>)
    ensures r.Some? <==> !fail && id !in payments
    ensures r.Some? ==> r.value.Keys == payments.Keys + {id} && r.value[id] == rec
    ensures r.Some? ==> forall k :: k in payments ==> r.value[k] == payments[k]
  {
    if fail || id in payments then None else Some(payments[id := rec])
  }

  /** `update(p).eq("order_id", id)`: changes the one matching row, if any; never inserts. */
  function UpdateRow(payments: map<string, PaymentRecord>, id: string, p: Patch, fail: bool)
    : (r: map<string, PaymentRecord>)
    ensures r.Keys == payments.Keys
    ensures forall k :: k in payments && k != id ==> r[k] == payments[k]
    ensures id in payments ==> r[id] == if fail then payments[id] else Apply(payments[id], p)
  {
    if !fail && id in payments then payments[id := Apply(payments[id], p)] else payments
  }

  /** `update({ payment_status: status }).eq("team_id", id)`: changes that one team, if it exists. */
  function SetTeam(teams: map<string, string>, id: string, status: string, fail: bool)
    : (r: map<string, string>)
    ensures r.Keys == teams.Keys
    ensures forall k :: k in teams && k != id ==> r[k] == teams[k]
    ensures id in teams ==> r[id] == if fail then teams[id] else status
  {
    if !fail && id in teams then teams[id := status] else teams
  }

  /** The hosted tables, held in memory; each method is one store call of a handler. */
  class Database {
    var payments: map<string, PaymentRecord>
    var teams: map<string, string>

    constructor (payments: map<string, PaymentRecord>, teams: map<string, string>)
      ensures this.payments == payments && this.teams == teams
    {
      this.payments := payments;
      this.teams := teams;
    }

    function State(): Tables
      reads this
    {
      Tables(payments, teams)
    }

    method SelectPayment(id: string, fail: bool) returns (row: Option<PaymentRecord>)
      ensures row == Select(payments, id, fail)
    {
      row := if !fail && id in payments then Some(payments[id]) else None;
    }

    /** Returns whether the insert went through. */
    method InsertPayment(id: string, rec: PaymentRecord, fail: bool) returns (ok: bool)
      modifies this
      ensures ok == InsertRow(old(payments), id, rec, fail).Some?
      ensures payments == InsertRow(old(payments), id, rec, fail).GetOr(old(payments))
      ensures teams == old(teams)
    {
      ok := !fail && id !in payments;
      if ok {
        payments := payments[id := rec];
      }
    }

    /** Returns whether the call succeeded; matching no row is not an error. */
    method UpdatePayment(id: string, p: Patch, fail: bool) returns (ok: bool)
      modifies this
      ensures ok == !fail
      ensures payments == UpdateRow(old(payments), id, p, fail)
      ensures teams == old(teams)
    {
      ok := !fail;
      if ok && id in payments {
        payments := payments[id := Apply(payments[id], p)];
      }
    }

    /** Returns whether the call succeeded; matching no team is not an error. */
    method UpdateTeam(id: string, status: string, fail: bool) returns (ok: bool)
      modifies this
      ensures ok == !fail
      ensures teams == SetTeam(old(teams), id, status, fail)
      ensures payments == old(payments)
    {
      ok := !fail;
      if ok && id in teams {
        teams := teams[id := status];
      }
    }
  }
}
