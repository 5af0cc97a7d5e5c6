# Payment reconciliation for team registrations

A Dafny model of the three server handlers that keep a team's payment state in step with
the payment gateway:

- **create-order** (`POST`) fills the request's defaults, asks the gateway for an order,
  inserts the order's row into `payments` and sets the team's `payment_status` to
  "Pending";
- **verify-order** (`GET`) asks the gateway for an order's status, overwrites the row's
  status, transaction id, body and time unconditionally, and sets the team to "PAID" when
  the status is exactly "PAID";
- **webhook** (`POST`) checks the notification's signature, then either inserts a row
  (without a team) or merges the minimal set of changes into the known row
  (first-write-wins for the transaction id, a status compared ignoring case, no write when
  nothing changed), and sets the row's team to "paid" on a paid signal.

The two tables are maps: `payments` from `order_id` to a `PaymentRecord`, `teams` from
`team_id` to `payment_status`. Each handler has a specification function on the tables
(`PostOutcome`, `GetOutcome`) whose contract states what the handler promises, and a
method that runs the handler call by call against an in-memory `Database` object and is
proved to produce exactly that outcome. Store calls that fail are selected by a
`StoreFaults` argument: a failed call changes nothing and returns no data.

Outside collaborators are parameters: the HMAC-SHA256/base64 signer (`Webhook.Signer`), the
JSON parser of the webhook body (`Webhook.Parser`), the gateway's two endpoints
(`CreateOrder.Gateway`, `VerifyOrder.Gateway`), the clock (`now`, `millis`) and the
configured secret and base URL.

The model keeps the source's casing and naming quirks as they are:

- the poll path stores the upper-cased status, the webhook's update path the lower-cased
  one, the webhook's insert path the upper-cased one (`Reconciliation.StoredCasesDiffer`);
- the poll path writes the team literal "PAID", the webhook "paid", order creation
  "Pending";
- the webhook reads `payload.type` into its event variable but its paid test looks at
  `payload.event` (`Webhook.Notification` keeps both; only `event` is used);
- the webhook's insert path stores `customer_details.customer_id` as `payment_session_id`.

Two more behaviours of the code are kept as written. A notification for an unknown order that has no `payment_status` is
answered with 500, because upper-casing the missing status throws before the insert. Every
paid delivery marks the team again; the second marking changes nothing
(`Webhook.RedeliveryChangesNothing`).

A failed lookup in the webhook makes `existing` null and sends the notification down the
insert path. The source does not show whether `order_id` is a unique key; the model
assumes it is, so its `payments` table refuses an insert on a taken `order_id` and such a
delivery leaves a known row as it was. A store that allowed duplicate keys would instead
gain a second row here.

## Model

| member | source | states |
|---|---|---|
| Ascii.Upper | src/app/api/webhook/route.ts:80 | `toUpperCase`: same length, every character upper-cased on its own |
| Ascii.Lower | src/app/api/webhook/route.ts:81 | `toLowerCase`: same length, every character lower-cased on its own |
| Ascii.UpperIdempotent | src/app/api/webhook/route.ts:80 | upper-casing an upper-cased status changes nothing |
| Ascii.UpperOfLower | src/app/api/webhook/route.ts:80-81 | a status stored lower-cased compares equal, ignoring case, to the status it came from |
| Ascii.UpperEqualsLowerIffNoLetter | src/app/api/webhook/route.ts:81 | upper- and lower-casing give the same text exactly when it has no letter |
| Store.UpperStatus | src/app/api/verify-order/route.ts:37 | the `"PAID" ? "PAID" : toUpperCase()` choice is plain upper-casing (same expression at webhook/route.ts:72) |
| Store.LowerStatus | src/app/api/webhook/route.ts:81 | the `"PAID" ? "paid" : toLowerCase()` choice is plain lower-casing |
| Store.Apply | src/app/api/webhook/route.ts:87-90 | each column the update sends takes the sent value and every other column keeps its value; team, session, amount and currency are never touched; an empty update keeps the row |
| Store.Select | src/app/api/webhook/route.ts:53-58 | a lookup yields the order's row exactly when it succeeds and the row exists |
| Store.InsertRow | src/app/api/create-order/route.ts:68-79 | an insert succeeds exactly when the call does not fail and the `order_id` is new, and then adds that one row and keeps every other |
| Store.UpdateRow | src/app/api/verify-order/route.ts:34-42 | an update by `order_id` changes only that row, and only if it exists; it never inserts |
| Store.SetTeam | src/app/api/create-order/route.ts:86-89 | a team update changes only that team, and only if it exists |
| Webhook.SignedMessage | src/app/api/webhook/route.ts:5-10 | the signed text is the timestamp, then one dot, then the raw body, with nothing else; `ComputeSignature` applies the signer to it under the secret |
| Store.Database.SelectPayment | src/app/api/webhook/route.ts:53-58 | a `select().eq("order_id").maybeSingle()` call returns what `Select` says |
| Store.Database.InsertPayment | src/app/api/create-order/route.ts:68-84 | an insert call reports success exactly as `InsertRow` does and leaves the tables as it says; `teams` is untouched |
| Store.Database.UpdatePayment | src/app/api/webhook/route.ts:87-93 | an update call reports an error only when it fails and leaves `payments` as `UpdateRow` says; `teams` is untouched |
| Store.Database.UpdateTeam | src/app/api/create-order/route.ts:86-94 | a team update call reports an error only when it fails and leaves `teams` as `SetTeam` says; `payments` is untouched |
| Webhook.FirstDot | src/app/api/webhook/route.ts:6 | in the signed text over a dot-free timestamp, the first dot ends the timestamp |
| Webhook.SignedMessageInjective | src/app/api/webhook/route.ts:5-10 | for dot-free timestamps, `timestamp + "." + raw` determines both timestamp and body |
| Webhook.TimingSafeEqual | src/app/api/webhook/route.ts:32-35 | on equal lengths, comparing every position yields true exactly when the signatures are equal |
| Webhook.Authenticate | src/app/api/webhook/route.ts:16-38 | a request passes exactly when both headers and the secret are present and the signature equals the one computed over `timestamp.raw`; a missing header answers 400, a missing secret 500, a mismatching signature 400 `Invalid signature` |
| Webhook.ForgedSignatureRejected | src/app/api/webhook/route.ts:30-38 | with a collision-free signer, a signature computed over another dot-free timestamp or another body is refused with 400 |
| Webhook.Accepted | src/app/api/webhook/route.ts:40-50 | a notification goes on exactly when it is authentic, parses and names an `order_id`, and it is then the parsed body |
| Webhook.InsertedRecord | src/app/api/webhook/route.ts:63-74 | the row inserted for an unknown order has no team, the upper-cased `payment_status` ("PAID" stays "PAID"), `cf_payment_id` as transaction and the customer id as session |
| Webhook.MinimalUpdate | src/app/api/webhook/route.ts:79-86 | the status is sent exactly when it differs ignoring case, and then lower-cased; the transaction id exactly when one arrives and none is stored; body and time exactly when one of those is sent |
| Webhook.Merged | src/app/api/webhook/route.ts:79-94 | after the merge a stored transaction id is unchanged, an empty one takes the arriving `cf_payment_id`, and without an arriving id the stored one stays; the status equals the incoming one ignoring case; body and time change only with status or transaction id |
| Webhook.MergedIsStable | src/app/api/webhook/route.ts:79-84 | after one merge the same notification produces an empty update set |
| Webhook.PaidTestQuirks | src/app/api/webhook/route.ts:98 | the paid test ignores `payload.type`, fires on `event == "PAYMENT_SUCCESS"`, and does not fire on a lower-case "paid" status alone |
| Webhook.InsertedIsStable | src/app/api/webhook/route.ts:63-84 | after the insert the same notification produces an empty update set |
| Webhook.Projected | src/app/api/webhook/route.ts:97-114 | only the row's own team can change, only to "paid", only on `payment_status == "PAID"` or `event == "PAYMENT_SUCCESS"`, and only when the row names a non-empty team id; with no team-store fault the row's team is marked, and a failed team lookup or write changes no team |
| Webhook.ProjectedIsStable | src/app/api/webhook/route.ts:97-114 | marking the team a second time changes nothing |
| Webhook.Reconciled | src/app/api/webhook/route.ts:52-95 | the insert-or-merge changes only the notified row, never a team id, never a stored transaction id, adds no team to an inserted row, and writes nothing when the update set is empty |
| Webhook.ReconciledIsStable | src/app/api/webhook/route.ts:52-95 | the insert-or-merge run again on its own result changes nothing |
| Webhook.PostOutcome | src/app/api/webhook/route.ts:12-120 | every refusal (400 or 500) leaves both tables; missing `order_id` answers 400; an accepted notification with a `payment_status` answers `ok` whatever the store does; a body that does not parse, and an unknown order without a `payment_status`, answer 500 with the tables unchanged; a stored transaction id survives; the teams table after an accepted notification is `Projected` over the new payments, so a paid signal marks the row's team |
| Webhook.RedeliveryChangesNothing | src/app/api/webhook/route.ts:52-114 | delivering the same notification again, after a first delivery that met no store fault, at any time and whatever the store does on the second, leaves both tables as the first delivery left them |
| Webhook.UnknownPaidOrderMarksNoTeam | src/app/api/webhook/route.ts:63-114 | a paid notification for an unknown order inserts one team-less "PAID" row and changes no team |
| Webhook.Reconcile | src/app/api/webhook/route.ts:52-95 | looks the row up, builds the update set field by field and writes it, as `Reconciled` says |
| Webhook.ProjectTeam | src/app/api/webhook/route.ts:97-114 | marks the row's team "paid", as `Projected` says, and leaves `payments` alone |
| Webhook.Post | src/app/api/webhook/route.ts:12-120 | the handler's answer and tables are those of `PostOutcome` |
| CreateOrder.OrderPayload | src/app/api/create-order/route.ts:24-45 | omitted inputs become "1.00", "INR", "cust_" plus the clock, empty name, email and phone, and base URL plus "/order-result"; given inputs pass verbatim |
| CreateOrder.CreatedRecord | src/app/api/create-order/route.ts:70-78 | the inserted row carries the body's team, the gateway's session id and order status verbatim, the requested amount and currency, and no transaction id |
| CreateOrder.PostOutcome | src/app/api/create-order/route.ts:20-101 | a gateway refusal or failed insert answers 500 with the tables unchanged, whatever the team store would do; when the insert goes through exactly one row, `CreatedRecord`, is added with the given team, the gateway's order id, session and verbatim status and the requested amount and currency; the team becomes "Pending" only after the insert and no team is added; a failed team update answers 500 with the store error and keeps the row |
| CreateOrder.Post | src/app/api/create-order/route.ts:20-101 | the handler's answer and tables are those of `PostOutcome` |
| VerifyOrder.Overwrite | src/app/api/verify-order/route.ts:36-41 | the poll writes the upper-cased status, the gateway's transaction id, the body and the time |
| VerifyOrder.MarkedPaid | src/app/api/verify-order/route.ts:48-68 | only the row's own team can change, only to "PAID", only when the status is exactly "PAID" and the row names a team; with no team-store fault the row's team is marked, and a failed team lookup or write changes no team |
| VerifyOrder.GetOutcome | src/app/api/verify-order/route.ts:8-74 | a missing `order_id` answers 400, and a gateway refusal or an answer without `order_status` 500, all with the tables unchanged; the teams table after `ok` is `MarkedPaid` over the new payments, so an exact "PAID" marks the row's team; store failures never stop `ok` with the order; no row is inserted; only the polled row changes, is overwritten whatever it held, keeps its team, session, amount and currency, keeps its transaction id when the gateway sends none, and stays as it was when the write fails |
| VerifyOrder.RepeatedPollChangesOnlyTime | src/app/api/verify-order/route.ts:34-62 | after a first poll that met no store fault, polling again with the same answer, whatever the store does on the second poll, leaves everything but `updated_at` as the first poll left it |
| VerifyOrder.Get | src/app/api/verify-order/route.ts:8-74 | the handler's answer and tables are those of `GetOutcome` |
| Reconciliation.StoredCasesDiffer | src/app/api/verify-order/route.ts:37 | the poll's stored status and the webhook update's stored status agree ignoring case and are equal only for letter-free statuses |
| Reconciliation.NotificationKeepsPolledStatus | src/app/api/webhook/route.ts:80-82 | after a poll, a notification with the same status in any case leaves the upper-cased status in place |
| Reconciliation.PollRecasesNotifiedStatus | src/app/api/verify-order/route.ts:37 | after a notification, a poll with the same status in any case stores the upper-case of the polled status |

## Left out

- The checkout page is browser UI (React state, loading the gateway's script, the checkout popup) and is not modelled.
- HMAC-SHA256 and base64 are the `Signer` parameter; the constant-time property of `timingSafeEqual` cannot be stated, so `TimingSafeEqual` only compares every position without an early exit.
- The signature buffers are compared as character strings, not as UTF-8 bytes; since the expected signature is base64 text, both comparisons accept the same signatures.
- The outbound `fetch` calls, their credential headers and the choice between the production and sandbox base URLs are the `Gateway` parameters.
- The hosted database client is replaced by in-memory maps; its errors are the `StoreFaults` flags, and their messages are one `StoreError`.
- JSON parsing of the create-order body and its `|| {}` fallback are not modelled; the webhook's parse is the `Parser` parameter, and a parse failure answers 500.
- Of the exceptions the catch blocks turn into 500, only three are modelled: a webhook body that does not parse, a missing `payment_status` on the webhook's insert path and a missing `order_status` on the poll path; an absent `order`, `payment` or `customer_details` object in the notification is treated like absent fields.
- A JSON `null` is not told apart from an absent field: a poll answer whose `transaction_id` is null would clear the column, while the model keeps it like an absent one.
- `team_id` is a required string, as the body's type declares; the source does not check that the caller sent one.
- `Date.now()` and `new Date().toISOString()` are the `millis` and `now` parameters; logging is left out; simultaneous requests are not modelled, each handler runs alone against the tables.
- Ascii.Upper: folds only ASCII letters, whereas `toUpperCase` follows full Unicode case mapping.
- Ascii.Lower: folds only ASCII letters, whereas `toLowerCase` follows full Unicode case mapping.
