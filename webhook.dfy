/**
 * The gateway's signed server-to-server notification (src/app/api/webhook/route.ts):
 * authenticate, then insert the order's row or merge the minimal set of changes into it,
 * then mark the order's team paid.
 */
module Webhook {
  import opened Wrappers
  import opened Ascii
  import opened Store

  /** The raw body and the two signature headers, `None` when a header is absent. */
  datatype Request = Request(raw: string, signature: Option<string>, timestamp: Option<string>)

  /** The fields the handler reads from the parsed body. */
  datatype Notification = Notification(
    orderId: Option<string>,          // payload.order.order_id
    cfPaymentId: Option<string>,      // payload.payment.cf_payment_id
    eventType: Option<string>,        // payload.type, read and never used
    paymentStatus: Option<string>,    // payload.payment.payment_status
    event: Option<string>,            // payload.event, the tag the paid test looks at
    customerId: Option<string>,       // payload.customer_details.customer_id
    paymentAmount: Option<string>,    // payload.payment.payment_amount
    paymentCurrency: Option<string>)  // payload.payment.payment_currency

  /** Base64 of HMAC-SHA256 under a key (the first argument) over a message. */
  type Signer = (string, string) -> string

  /** `JSON.parse` of the raw body; `None` when it throws. */
  type Parser = string -> Option<Notification>

  /** The text that is signed: the timestamp, a dot, the raw body. */
  function SignedMessage(timestamp: string, raw: string): (m: string)
    ensures |m| == |timestamp| + 1 + |raw|
    ensures m[..|timestamp|] == timestamp && m[|timestamp|] == '.' && m[|timestamp| + 1..] == raw
  {
    timestamp + "." + raw
  }

  function ComputeSignature(sign: Signer, secret: string, timestamp: string, raw: string): string {
    sign(secret, SignedMessage(timestamp, raw))
  }

  /** In a signed text over a dot-free timestamp, the first dot is the one after the timestamp. */
  lemma FirstDot(ts: string, raw: string)
    requires '.' !in ts
    ensures SignedMessage(ts, raw)[|ts|] == '.'
    ensures forall i :: 0 <= i < |ts| ==> SignedMessage(ts, raw)[i] != '.'
  {
    forall i | 0 <= i < |ts| ensures SignedMessage(ts, raw)[i] != '.' {
      assert SignedMessage(ts, raw)[i] == ts[i];
    }
  }

  /**
   * With timestamps that hold no dot, the signed text determines both the timestamp and
   * the body, so a signature over one pair never covers another.
   */
  lemma SignedMessageInjective(ts1: string, raw1: string, ts2: string, raw2: string)
    requires '.' !in ts1 && '.' !in ts2
    requires SignedMessage(ts1, raw1) == SignedMessage(ts2, raw2)
    ensures ts1 == ts2 && raw1 == raw2
  {
    var m := SignedMessage(ts1, raw1);
    FirstDot(ts1, raw1);
    FirstDot(ts2, raw2);
    assert |ts1| == |ts2|;
    assert ts1 == m[..|ts1|] == ts2;
    assert raw1 == m[|ts1| + 1..] == raw2;
  }

  /**
   * `crypto.timingSafeEqual` over two buffers of the same length: every position is
   * compared, with no early exit.
   */
  method TimingSafeEqual(a: string, b: string) returns (same: bool)
    requires |a| == |b|
    ensures same <==> a == b
  {
    var differ := false;
    for i := 0 to |a|
      invariant differ <==> exists j :: 0 <= j < i && a[j] != b[j]
    {
      if a[i] != b[i] {
        differ := true;
      }
    }
    same := !differ;
    assert !differ ==> forall j :: 0 <= j < |a| ==> a[j] == b[j];
  }

  /**
   * The three gates before the body is looked at; `None` lets the request through.
   * A request passes exactly when both headers and the secret are present and the
   * signature is the one computed over the timestamp and the raw body.
   */
  function Authenticate(req: Request, secret: Option<string>, sign: Signer): (refusal: Option<Response>)
    ensures refusal.None? <==>
      Truthy(req.signature) && Truthy(req.timestamp) && Truthy(secret) &&
      req.signature.value == ComputeSignature(sign, secret.value, req.timestamp.value, req.raw)
    ensures !Truthy(req.signature) || !Truthy(req.timestamp) ==>
      refusal == Some(Fail(400, MissingSignatureOrTimestamp))
    ensures Truthy(req.signature) && Truthy(req.timestamp) && !Truthy(secret) ==>
      refusal == Some(Fail(500, ServerMisconfiguration))
    ensures Truthy(req.signature) && Truthy(req.timestamp) && Truthy(secret) ==>
      (req.signature.value != ComputeSignature(sign, secret.value, req.timestamp.value, req.raw) ==>
         refusal == Some(Fail(400, InvalidSignature)))
  {
    if !Truthy(req.signature) || !Truthy(req.timestamp) then
      Some(Fail(400, MissingSignatureOrTimestamp))
    else if !Truthy(secret) then
      Some(Fail(500, ServerMisconfiguration))
    else
      var expected := ComputeSignature(sign, secret.value, req.timestamp.value, req.raw);
      var received := req.signature.value;
      if |expected| != |received| || expected != received then Some(Fail(400, InvalidSignature))
      else None
  }

  /**
   * Under a key whose signatures never collide, a signature computed over any other
   * (dot-free) timestamp or any other body is refused as invalid.
   */
  lemma ForgedSignatureRejected(req: Request, secret: string, sign: Signer, ts: string, raw: string)
    requires Truthy(req.signature) && Truthy(req.timestamp) && secret != ""
    requires forall m1, m2 :: sign(secret, m1) == sign(secret, m2) ==> m1 == m2
    requires '.' !in req.timestamp.value && '.' !in ts
    requires ts != req.timestamp.value || raw != req.raw
    requires req.signature.value == ComputeSignature(sign, secret, ts, raw)
    ensures Authenticate(req, Some(secret), sign) == Some(Fail(400, InvalidSignature))
  {
    if req.signature.value == ComputeSignature(sign, secret, req.timestamp.value, req.raw) {
      SignedMessageInjective(ts, raw, req.timestamp.value, req.raw);
      assert false;
    }
  }

  /** The notification, once it is authentic, parsed and names an order; otherwise `None`. */
  function Accepted(req: Request, secret: Option<string>, sign: Signer, parse: Parser): (n: Option<Notification>)
    ensures n.Some? <==>
      Authenticate(req, secret, sign).None? && parse(req.raw).Some? && Truthy(parse(req.raw).value.orderId)
    ensures n.Some? ==> n == parse(req.raw)
  {
    if Authenticate(req, secret, sign).None? && parse(req.raw).Some? && Truthy(parse(req.raw).value.orderId) then
      parse(req.raw)
    else
      None
  }

  /**
   * The row inserted for an order the table does not know: no team, the status
   * upper-cased, the gateway's payment id as the transaction, and the customer id in the
   * session column.
   */
  function InsertedRecord(n: Notification, raw: string): (r: PaymentRecord)
    requires n.paymentStatus.Some?
    ensures r.teamId.None? && r.updatedAt.None?
    ensures r.status == Upper(n.paymentStatus.value)
    ensures n.paymentStatus == Some("PAID") ==> r.status == "PAID"
    ensures r.transactionId == n.cfPaymentId && r.paymentSessionId == n.customerId
    ensures r.amount == n.paymentAmount && r.currency == n.paymentCurrency && r.rawPayload == raw
  {
    PaidLiterals();
    PaymentRecord(
      teamId := None,
      paymentSessionId := n.customerId,
      amount := n.paymentAmount,
      currency := n.paymentCurrency,
      status := UpperStatus(n.paymentStatus.value),
      transactionId := n.cfPaymentId,
      rawPayload := raw,
      updatedAt := None)
  }

  /**
   * The update set for a known order: the status when it differs ignoring case, the
   * transaction id when one arrives and none is stored, and then the body and the time.
   */
  function MinimalUpdate(existing: PaymentRecord, n: Notification, raw: string, now: string): (p: Patch)
    ensures p.status.Some? <==>
      Truthy(n.paymentStatus) && !EqualIgnoringCase(n.paymentStatus.value, existing.status)
    ensures p.status.Some? ==> p.status.value == Lower(n.paymentStatus.value)
    ensures p.transactionId.Some? <==> Truthy(n.cfPaymentId) && !Truthy(existing.transactionId)
    ensures p.transactionId.Some? ==> p.transactionId == n.cfPaymentId
    ensures p.IsEmpty() <==> p.status.None? && p.transactionId.None?
    ensures !p.IsEmpty() ==> p.rawPayload == Some(raw) && p.updatedAt == Some(now)
  {
    var status :=
      if Truthy(n.paymentStatus) && Upper(n.paymentStatus.value) != Upper(existing.status)
      then Some(LowerStatus(n.paymentStatus.value)) else None;
    var transaction :=
      if Truthy(n.cfPaymentId) && !Truthy(existing.transactionId) then n.cfPaymentId else None;
    if status.None? && transaction.None? then NoColumns
    else Patch(status, transaction, Some(raw), Some(now))
  }

  /**
   * The known row after the merge. Only status, transaction id, body and time can change;
   * a stored transaction id is never altered or cleared; an incoming status is then equal
   * to the stored one ignoring case; body and time change only with the status or the
   * transaction id.
   */
  function Merged(existing: PaymentRecord, n: Notification, raw: string, now: string): (r: PaymentRecord)
    ensures r.teamId == existing.teamId && r.paymentSessionId == existing.paymentSessionId
    ensures r.amount == existing.amount && r.currency == existing.currency
    ensures Truthy(existing.transactionId) ==> r.transactionId == existing.transactionId
    ensures Truthy(n.cfPaymentId) && !Truthy(existing.transactionId) ==> r.transactionId == n.cfPaymentId
    ensures !Truthy(n.cfPaymentId) ==> r.transactionId == existing.transactionId
    ensures Truthy(n.cfPaymentId) ==> Truthy(r.transactionId)
    ensures Truthy(n.paymentStatus) ==> EqualIgnoringCase(r.status, n.paymentStatus.value)
    ensures !Truthy(n.paymentStatus) ==> r.status == existing.status
    ensures r.rawPayload != existing.rawPayload || r.updatedAt != existing.updatedAt ==>
      r.status != existing.status || r.transactionId != existing.transactionId
  {
    var p := MinimalUpdate(existing, n, raw, now);
    if Truthy(n.paymentStatus) then
      UpperOfLower(n.paymentStatus.value);
      Apply(existing, p)
    else
      Apply(existing, p)
  }

  /** A second delivery of the same notification finds nothing left to update. */
  lemma MergedIsStable(existing: PaymentRecord, n: Notification, raw: string, now1: string, now2: string)
    ensures MinimalUpdate(Merged(existing, n, raw, now1), n, raw, now2).IsEmpty()
  {
  }

  /** `payment_status === "PAID" || payload.event === "PAYMENT_SUCCESS"` (not `payload.type`). */
  predicate PaidSignal(n: Notification) {
    n.paymentStatus == Some("PAID") || n.event == Some("PAYMENT_SUCCESS")
  }

  /**
   * The team projection: on a paid signal, the team of the order's row (read after the
   * write) becomes "paid"; no other team changes, and no team changes without a paid
   * signal or without a row that names a team.
   */
  function Projected(payments: map<string, PaymentRecord>, teams: map<string, string>, id: string,
                     n: Notification, f: StoreFaults): (r: map<string, string>)
    ensures r.Keys == teams.Keys
    ensures forall k :: k in teams && r[k] != teams[k] ==>
      r[k] == "paid" && PaidSignal(n) && id in payments && Truthy(payments[id].teamId) && payments[id].teamId.value == k
    ensures PaidSignal(n) && !f.teamLookup && !f.teamWrite && id in payments ==>
      (Truthy(payments[id].teamId) && payments[id].teamId.value in teams ==>
         r == teams[payments[id].teamId.value := "paid"])
    ensures f.teamLookup || f.teamWrite ==> r == teams
  {
    if PaidSignal(n) then
      match Select(payments, id, f.teamLookup)
      case Some(found) =>
        if Truthy(found.teamId) then SetTeam(teams, found.teamId.value, "paid", f.teamWrite) else teams
      case None => teams
    else
      teams
  }

  /**
   * The payments table after the insert-or-merge step for order `id`, or `None` when the
   * insert path throws for want of a `payment_status`. Only row `id` can change; a row it
   * inserts has no team; no row's team changes and no row is removed.
   */
  function Reconciled(payments: map<string, PaymentRecord>, id: string, n: Notification, raw: string,
                      now: string, f: StoreFaults): (r: Option<map<string, PaymentRecord>>)
    ensures r.None? <==> Select(payments, id, f.lookup).None? && n.paymentStatus.None?
    ensures r.Some? ==> payments.Keys <= r.value.Keys <= payments.Keys + {id}
    ensures r.Some? ==> forall k :: k in payments && k != id ==> r.value[k] == payments[k]
    ensures r.Some? ==> forall k :: k in payments ==> r.value[k].teamId == payments[k].teamId
    ensures r.Some? && id in r.value && id !in payments ==> r.value[id].teamId.None?
    ensures r.Some? && id in payments && f.lookup ==> r.value == payments
    ensures r.Some? ==> forall k :: k in payments && Truthy(payments[k].transactionId) ==>
      r.value[k].transactionId == payments[k].transactionId
    ensures id in payments && !f.lookup && MinimalUpdate(payments[id], n, raw, now).IsEmpty() ==>
      r == Some(payments)
    ensures id in payments && !f.lookup ==>
      r.Some? && r.value[id] == if f.write then payments[id] else Merged(payments[id], n, raw, now)
    ensures id !in payments && n.paymentStatus.Some? ==>
      r == Some(if f.write then payments else payments[id := InsertedRecord(n, raw)])
  {
    match Select(payments, id, f.lookup)
    case None =>
      if n.paymentStatus.None? then None
      else Some(InsertRow(payments, id, InsertedRecord(n, raw), f.write).GetOr(payments))
    case Some(existing) =>
      var p := MinimalUpdate(existing, n, raw, now);
      Some(if p.IsEmpty() then payments else UpdateRow(payments, id, p, f.write))
  }

  /**
   * What POST does to the tables and what it answers. Every refusal leaves both tables as
   * they were; an accepted notification that gets past the insert-or-merge step is
   * acknowledged with `{ ok: true }` whatever the store did; teams only ever become "paid".
   */
  function PostOutcome(t: Tables, req: Request, secret: Option<string>, sign: Signer, parse: Parser,
                       now: string, f: StoreFaults): (o: Outcome)
    ensures Authenticate(req, secret, sign).Some? ==> o == Outcome(Authenticate(req, secret, sign).value, t)
    ensures Authenticate(req, secret, sign).None? && parse(req.raw).None? ==> o == Outcome(Fail(500, Exception), t)
    ensures Authenticate(req, secret, sign).None? && parse(req.raw).Some? && !Truthy(parse(req.raw).value.orderId) ==>
      o == Outcome(Fail(400, MissingOrderIdInPayload), t)
    ensures (Accepted(req, secret, sign, parse).Some? &&
             Reconciled(t.payments, Accepted(req, secret, sign, parse).value.orderId.value,
                        Accepted(req, secret, sign, parse).value, req.raw, now, f).None?) ==>
      o == Outcome(Fail(500, Exception), t)
    ensures o.response.Fail? ==> o.tables == t
    ensures o.tables != t ==> Accepted(req, secret, sign, parse).Some?
    ensures o.response.Ok? <==>
      Accepted(req, secret, sign, parse).Some? &&
      Reconciled(t.payments, Accepted(req, secret, sign, parse).value.orderId.value,
                 Accepted(req, secret, sign, parse).value, req.raw, now, f).Some?
    ensures Accepted(req, secret, sign, parse).Some? && Accepted(req, secret, sign, parse).value.paymentStatus.Some? ==>
      o.response == Ok(None)
    ensures o.response.Ok? ==>
      o.response.data.None? &&
      o.tables.payments == Reconciled(t.payments, Accepted(req, secret, sign, parse).value.orderId.value,
                                      Accepted(req, secret, sign, parse).value, req.raw, now, f).value
    ensures o.response.Ok? ==>
      o.tables.teams == Projected(o.tables.payments, t.teams, Accepted(req, secret, sign, parse).value.orderId.value,
                                  Accepted(req, secret, sign, parse).value, f)
    ensures forall k :: k in t.payments ==> k in o.tables.payments
    ensures forall k :: k in t.payments && Truthy(t.payments[k].transactionId) ==>
      o.tables.payments[k].transactionId == t.payments[k].transactionId
    ensures o.tables.teams.Keys == t.teams.Keys
    ensures forall k :: k in t.teams ==> o.tables.teams[k] == t.teams[k] || o.tables.teams[k] == "paid"
  {
    match Authenticate(req, secret, sign)
    case Some(refusal) => Outcome(refusal, t)
    case None =>
      match parse(req.raw)
      case None => Outcome(Fail(500, Exception), t)
      case Some(n) =>
        if !Truthy(n.orderId) then Outcome(Fail(400, MissingOrderIdInPayload), t)
        else
          var id := n.orderId.value;
          match Reconciled(t.payments, id, n, req.raw, now, f)
          case None => Outcome(Fail(500, Exception), t)
          case Some(payments) => Outcome(Ok(None), Tables(payments, Projected(payments, t.teams, id, n, f)))
  }

  /**
   * The paid test reads `payload.event`, never `payload.type`, and compares the status
   * exactly: a lower-case "paid" alone is no paid signal.
   */
  lemma PaidTestQuirks(n: Notification, eventType: Option<string>)
    ensures PaidSignal(n.(eventType := eventType)) == PaidSignal(n)
    ensures n.paymentStatus == Some("paid") && n.event.None? ==> !PaidSignal(n)
    ensures n.event == Some("PAYMENT_SUCCESS") ==> PaidSignal(n)
  {
  }

  /** A row the webhook inserted needs no update when the same notification comes again. */
  lemma InsertedIsStable(n: Notification, raw: string, now: string)
    requires n.paymentStatus.Some?
    ensures MinimalUpdate(InsertedRecord(n, raw), n, raw, now).IsEmpty()
  {
    UpperIdempotent(n.paymentStatus.value);
  }

  /**
   * The insert-or-merge step, run again on its own result, changes nothing (it may throw,
   * when a failed lookup sends a notification without a status down the insert path).
   */
  lemma ReconciledIsStable(payments: map<string, PaymentRecord>, id: string, n: Notification, raw: string,
                           now1: string, now2: string, f: StoreFaults)
    requires Reconciled(payments, id, n, raw, now1, NoFaults).Some?
    ensures var once := Reconciled(payments, id, n, raw, now1, NoFaults).value;
            Reconciled(once, id, n, raw, now2, f).GetOr(once) == once
  {
    var once := Reconciled(payments, id, n, raw, now1, NoFaults).value;
    if id in payments {
      MergedIsStable(payments[id], n, raw, now1, now2);
    } else {
      InsertedIsStable(n, raw, now2);
    }
    assert id in once;
  }

  /** Marking the team a second time changes nothing. */
  lemma ProjectedIsStable(payments: map<string, PaymentRecord>, teams: map<string, string>, id: string,
                          n: Notification, f: StoreFaults)
    ensures var once := Projected(payments, teams, id, n, NoFaults);
            Projected(payments, once, id, n, f) == once
  {
  }

  /**
   * Delivering the same notification a second time, at any later time and whatever the
   * store does on that second delivery, leaves both tables exactly as the first delivery
   * left them.
   */
  lemma RedeliveryChangesNothing(t: Tables, req: Request, secret: Option<string>, sign: Signer,
                                 parse: Parser, now1: string, now2: string, f: StoreFaults)
    ensures var first := PostOutcome(t, req, secret, sign, parse, now1, NoFaults);
            PostOutcome(first.tables, req, secret, sign, parse, now2, f).tables == first.tables
  {
    var first := PostOutcome(t, req, secret, sign, parse, now1, NoFaults);
    var acc := Accepted(req, secret, sign, parse);
    if acc.Some? {
      var n := acc.value;
      var id := n.orderId.value;
      var once := Reconciled(t.payments, id, n, req.raw, now1, NoFaults);
      if once.Some? {
        var payments := once.value;
        var teams := Projected(payments, t.teams, id, n, NoFaults);
        assert first.tables == Tables(payments, teams);
        ReconciledIsStable(t.payments, id, n, req.raw, now1, now2, f);
        ProjectedIsStable(payments, t.teams, id, n, f);
      }
    }
  }

  /**
   * A paid notification for an order the table does not know inserts a row without a
   * team, stored as "PAID", and so marks no team.
   */
  lemma UnknownPaidOrderMarksNoTeam(t: Tables, req: Request, secret: Option<string>, sign: Signer,
                                    parse: Parser, now: string)
    requires Accepted(req, secret, sign, parse).Some?
    requires Accepted(req, secret, sign, parse).value.orderId.value !in t.payments
    requires Accepted(req, secret, sign, parse).value.paymentStatus == Some("PAID")
    ensures var n := Accepted(req, secret, sign, parse).value;
            var o := PostOutcome(t, req, secret, sign, parse, now, NoFaults);
            && o.response == Ok(None)
            && o.tables.teams == t.teams
            && o.tables.payments == t.payments[n.orderId.value := InsertedRecord(n, req.raw)]
            && o.tables.payments[n.orderId.value].status == "PAID"
            && o.tables.payments[n.orderId.value].teamId.None?
  {
  }

  /** Lines 53-95 of the handler: look the order up, then insert its row or merge into it. */
  method Reconcile(db: Database, id: string, n: Notification, raw: string, now: string, f: StoreFaults)
    returns (thrown: bool)
    modifies db
    ensures thrown == Reconciled(old(db.payments), id, n, raw, now, f).None?
    ensures db.payments == Reconciled(old(db.payments), id, n, raw, now, f).GetOr(old(db.payments))
    ensures db.teams == old(db.teams)
  {
    thrown := false;
    var existing := db.SelectPayment(id, f.lookup);
    if existing.None? {
      if n.paymentStatus.None? {
        return true;
      }
      var inserted := db.InsertPayment(id, InsertedRecord(n, raw), f.write);
    } else {
      var updates := NoColumns;
      if Truthy(n.paymentStatus) && Upper(n.paymentStatus.value) != Upper(existing.value.status) {
        updates := updates.(status := Some(LowerStatus(n.paymentStatus.value)));
      }
      if Truthy(n.cfPaymentId) && !Truthy(existing.value.transactionId) {
        updates := updates.(transactionId := n.cfPaymentId);
      }
      if !updates.IsEmpty() {
        updates := updates.(updatedAt := Some(now), rawPayload := Some(raw));
        var updated := db.UpdatePayment(id, updates, f.write);
      }
      assert updates == MinimalUpdate(existing.value, n, raw, now);
    }
  }

  /** Lines 97-114 of the handler: on a paid signal, mark the row's team "paid". */
  method ProjectTeam(db: Database, id: string, n: Notification, f: StoreFaults)
    modifies db
    ensures db.teams == Projected(old(db.payments), old(db.teams), id, n, f)
    ensures db.payments == old(db.payments)
  {
    if n.paymentStatus == Some("PAID") || n.event == Some("PAYMENT_SUCCESS") {
      var found := db.SelectPayment(id, f.teamLookup);
      if found.Some? && Truthy(found.value.teamId) {
        var teamUpdated := db.UpdateTeam(found.value.teamId.value, "paid", f.teamWrite);
      }
    }
  }

  /** The handler, gate by gate, against the in-memory tables. */
  method Post(db: Database, req: Request, secret: Option<string>, sign: Signer, parse: Parser,
              now: string, f: StoreFaults) returns (resp: Response)
    modifies db
    ensures Outcome(resp, db.State()) == PostOutcome(old(db.State()), req, secret, sign, parse, now, f)
  {
    if !Truthy(req.signature) || !Truthy(req.timestamp) {
      return Fail(400, MissingSignatureOrTimestamp);
    }
    if !Truthy(secret) {
      return Fail(500, ServerMisconfiguration);
    }
    var expected := ComputeSignature(sign, secret.value, req.timestamp.value, req.raw);
    var received := req.signature.value;
    var same := false;
    if |expected| == |received| {
      same := TimingSafeEqual(expected, received);
    }
    if !same {
      return Fail(400, InvalidSignature);
    }

    var parsed := parse(req.raw);
    if parsed.None? {
      return Fail(500, Exception);
    }
    var n := parsed.value;
    if !Truthy(n.orderId) {
      return Fail(400, MissingOrderIdInPayload);
    }
    var id := n.orderId.value;

    var thrown := Reconcile(db, id, n, req.raw, now, f);
    if thrown {
      return Fail(500, Exception);
    }
    ProjectTeam(db, id, n, f);
    resp := Ok(None);
  }
}
