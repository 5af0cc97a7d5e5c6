/**
 * How the poll path and the webhook path store the same gateway status: upper-cased by
 * the poll, lower-cased by the webhook's update, and compared ignoring case by the webhook.
 */
module Reconciliation {
  import opened Wrappers
  import opened Ascii
  import opened Store
  import Webhook
  import VerifyOrder

  /**
   * The two paths store a status in different cases: the stored values agree ignoring
   * case, and they are equal only when the status holds no letter.
   */
  lemma StoredCasesDiffer(s: string)
    ensures EqualIgnoringCase(UpperStatus(s), LowerStatus(s))
    ensures UpperStatus(s) == LowerStatus(s) <==> forall i :: 0 <= i < |s| ==> !IsLetter(s[i])
  {
    UpperIdempotent(s);
    UpperOfLower(s);
    UpperEqualsLowerIffNoLetter(s);
  }

  /**
   * After a poll has stored a status, a notification carrying the same status in any
   * case leaves it upper-cased: the webhook does not rewrite it.
   */
  lemma NotificationKeepsPolledStatus(rec: PaymentRecord, data: VerifyOrder.FetchedOrder, polledAt: string,
                                      n: Webhook.Notification, raw: string, now: string)
    requires data.orderStatus.Some? && Truthy(n.paymentStatus)
    requires EqualIgnoringCase(n.paymentStatus.value, data.orderStatus.value)
    ensures Webhook.Merged(Apply(rec, VerifyOrder.Overwrite(data, polledAt)), n, raw, now).status
         == Upper(data.orderStatus.value)
  {
    UpperIdempotent(data.orderStatus.value);
  }

  /**
   * After a notification has stored a status, a poll reporting the same status in any
   * case stores it upper-cased: the last path to write decides the case.
   */
  lemma PollRecasesNotifiedStatus(rec: PaymentRecord, n: Webhook.Notification, raw: string, now: string,
                                  data: VerifyOrder.FetchedOrder, polledAt: string)
    requires data.orderStatus.Some? && Truthy(n.paymentStatus)
    requires EqualIgnoringCase(n.paymentStatus.value, data.orderStatus.value)
    ensures var notified := Webhook.Merged(rec, n, raw, now);
            var polled := Apply(notified, VerifyOrder.Overwrite(data, polledAt));
            EqualIgnoringCase(polled.status, notified.status) && polled.status == Upper(data.orderStatus.value)
  {
    UpperIdempotent(data.orderStatus.value);
  }
}
