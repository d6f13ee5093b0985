/**
 * The subscription state machine: each payment-provider event type rewrites a
 * fixed set of columns of one `users` row. Every handler is a function from
 * the old row to the new one; `Transition` is the dispatch on the event name.
 */
module Subscription {
  import opened Common
  import opened Accounts
  import opened MysqlDatetime

  /** The columns of a `users` row that the billing code reads or writes. */
  datatype Column =
    | EmailCol | StatusCol | PlanNameCol | SubscriptionIdCol | CustomerIdCol
    | SubscriptionStartCol | SubscriptionEndCol | PeriodStartCol | PeriodEndCol
    | QuotaCol | UsedCol | LastResetCol | OverageCol | AutoStopCol

  /** Rows a and b hold the same value in column c. */
  predicate Agree(a: Account, b: Account, c: Column) {
    match c
    case EmailCol => a.email == b.email
    case StatusCol => a.status == b.status
    case PlanNameCol => a.planName == b.planName
    case SubscriptionIdCol => a.subscriptionId == b.subscriptionId
    case CustomerIdCol => a.customerId == b.customerId
    case SubscriptionStartCol => a.subscriptionStart == b.subscriptionStart
    case SubscriptionEndCol => a.subscriptionEnd == b.subscriptionEnd
    case PeriodStartCol => a.periodStart == b.periodStart
    case PeriodEndCol => a.periodEnd == b.periodEnd
    case QuotaCol => a.monthlyQuota == b.monthlyQuota
    case UsedCol => a.requestsUsed == b.requestsUsed
    case LastResetCol => a.lastQuotaReset == b.lastQuotaReset
    case OverageCol => a.overageEnabled == b.overageEnabled
    case AutoStopCol => a.autoStopAtLimit == b.autoStopAtLimit
  }

  /** b differs from a at most in the columns `written`: the SET list of an UPDATE. */
  predicate SameExcept(a: Account, b: Account, written: set<Column>) {
    && (EmailCol !in written ==> Agree(a, b, EmailCol))
    && (StatusCol !in written ==> Agree(a, b, StatusCol))
    && (PlanNameCol !in written ==> Agree(a, b, PlanNameCol))
    && (SubscriptionIdCol !in written ==> Agree(a, b, SubscriptionIdCol))
    && (CustomerIdCol !in written ==> Agree(a, b, CustomerIdCol))
    && (SubscriptionStartCol !in written ==> Agree(a, b, SubscriptionStartCol))
    && (SubscriptionEndCol !in written ==> Agree(a, b, SubscriptionEndCol))
    && (PeriodStartCol !in written ==> Agree(a, b, PeriodStartCol))
    && (PeriodEndCol !in written ==> Agree(a, b, PeriodEndCol))
    && (QuotaCol !in written ==> Agree(a, b, QuotaCol))
    && (UsedCol !in written ==> Agree(a, b, UsedCol))
    && (LastResetCol !in written ==> Agree(a, b, LastResetCol))
    && (OverageCol !in written ==> Agree(a, b, OverageCol))
    && (AutoStopCol !in written ==> Agree(a, b, AutoStopCol))
  }

  /**
   * The `status_map` lookup with default 'free': the provider's subscription
   * status as the store's status.
   */
  function ProviderStatus(s: Option<string>): (st: Status)
    ensures st == Pro <==> s == Some("active")
    ensures st == PastDue <==> s == Some("past_due")
    ensures st == Cancelled <==> (s == Some("cancelled") || s == Some("paused"))
    ensures st == Free <==> !(s.Some? && s.value in {"active", "past_due", "cancelled", "paused"})
  {
    match s
    case Some("active") => Pro
    case Some("cancelled") => Cancelled
    case Some("expired") => Free
    case Some("past_due") => PastDue
    case Some("paused") => Cancelled
    case _ => Free
  }

  /**
   * `subscription_created`: the row becomes a Pro subscription with the
   * included requests and a zeroed counter, whatever it was before.
   */
  function Created(a: Account, attrs: Attributes, now: string): (b: Account)
    ensures SameExcept(a, b, {StatusCol, SubscriptionIdCol, CustomerIdCol, PlanNameCol,
                              SubscriptionStartCol, PeriodStartCol, PeriodEndCol,
                              QuotaCol, UsedCol, LastResetCol})
    ensures b.status == Pro && b.planName == "Pro"
    ensures b.monthlyQuota == ProPlanIncludedRequests && b.requestsUsed == 0
    ensures b.subscriptionId == attrs.subscriptionId && b.customerId == attrs.customerId
    ensures b.subscriptionStart == ToMysqlDatetime(attrs.createdAt)
    ensures b.periodStart == ToMysqlDatetime(attrs.renewsAt)
    ensures b.periodEnd == ToMysqlDatetime(attrs.endsAt)
    ensures b.lastQuotaReset == Some(now)
  {
    a.(status := Pro,
       subscriptionId := attrs.subscriptionId,
       customerId := attrs.customerId,
       planName := "Pro",
       subscriptionStart := ToMysqlDatetime(attrs.createdAt),
       periodStart := ToMysqlDatetime(attrs.renewsAt),
       periodEnd := ToMysqlDatetime(attrs.endsAt),
       monthlyQuota := ProPlanIncludedRequests,
       requestsUsed := 0,
       lastQuotaReset := Some(now))
  }

  /**
   * `subscription_updated`: the status follows the provider's status and the
   * period is refreshed; plan, quota and counter are untouched.
   */
  function Updated(a: Account, attrs: Attributes): (b: Account)
    ensures SameExcept(a, b, {StatusCol, PeriodStartCol, PeriodEndCol})
    ensures b.status == ProviderStatus(attrs.status)
    ensures b.periodStart == ToMysqlDatetime(attrs.renewsAt)
    ensures b.periodEnd == ToMysqlDatetime(attrs.endsAt)
  {
    a.(status := ProviderStatus(attrs.status),
       periodStart := ToMysqlDatetime(attrs.renewsAt),
       periodEnd := ToMysqlDatetime(attrs.endsAt))
  }

  /**
   * `subscription_cancelled` and `subscription_expired`: the status becomes
   * cancelled and the end date is the provider's `ends_at`, stored as sent
   * (it is not normalised).
   */
  function CancelledOrExpired(a: Account, attrs: Attributes): (b: Account)
    ensures SameExcept(a, b, {StatusCol, SubscriptionEndCol})
    ensures b.status == Cancelled && b.subscriptionEnd == attrs.endsAt
  {
    a.(status := Cancelled, subscriptionEnd := attrs.endsAt)
  }

  /** `subscription_resumed`: Pro again, from any status, with no end date. */
  function Resumed(a: Account): (b: Account)
    ensures SameExcept(a, b, {StatusCol, SubscriptionEndCol})
    ensures b.status == Pro && b.subscriptionEnd == None
  {
    a.(status := Pro, subscriptionEnd := None)
  }

  /**
   * `subscription_payment_success`: a new period starts; the counter is
   * zeroed and the status is left as it is.
   */
  function PaymentSuccess(a: Account, attrs: Attributes, now: string): (b: Account)
    ensures SameExcept(a, b, {UsedCol, LastResetCol, PeriodStartCol, PeriodEndCol})
    ensures b.requestsUsed == 0 && b.lastQuotaReset == Some(now)
    ensures b.periodStart == ToMysqlDatetime(attrs.renewsAt)
    ensures b.periodEnd == ToMysqlDatetime(attrs.endsAt)
  {
    a.(requestsUsed := 0,
       lastQuotaReset := Some(now),
       periodStart := ToMysqlDatetime(attrs.renewsAt),
       periodEnd := ToMysqlDatetime(attrs.endsAt))
  }

  /** `subscription_payment_failed`: the status becomes past_due and nothing else changes. */
  function PaymentFailed(a: Account): (b: Account)
    ensures SameExcept(a, b, {StatusCol})
    ensures b.status == PastDue
  {
    a.(status := PastDue)
  }

  /** The event names the dispatcher handles. */
  const HandledEvents: set<string> := {
    "subscription_created", "subscription_updated", "subscription_cancelled",
    "subscription_expired", "subscription_resumed", "subscription_payment_success",
    "subscription_payment_failed"}

  /**
   * The dispatch on the event name: the row after the event's handler ran.
   * An event the dispatcher does not handle leaves the row as it was.
   */
  function Transition(eventName: Option<string>, a: Account, attrs: Attributes, now: string): (b: Account)
    ensures !(eventName.Some? && eventName.value in HandledEvents) ==> b == a
    ensures b.email == a.email && b.overageEnabled == a.overageEnabled && b.autoStopAtLimit == a.autoStopAtLimit
    ensures SameExcept(a, b, {StatusCol, SubscriptionIdCol, CustomerIdCol, PlanNameCol,
                              SubscriptionStartCol, SubscriptionEndCol, PeriodStartCol,
                              PeriodEndCol, QuotaCol, UsedCol, LastResetCol})
    ensures b.requestsUsed == a.requestsUsed || b.requestsUsed == 0
    ensures b.monthlyQuota == a.monthlyQuota || b.monthlyQuota == ProPlanIncludedRequests
    ensures b.customerId == a.customerId || b.customerId == attrs.customerId
  {
    match eventName
    case Some("subscription_created") => Created(a, attrs, now)
    case Some("subscription_updated") => Updated(a, attrs)
    case Some("subscription_cancelled") => CancelledOrExpired(a, attrs)
    case Some("subscription_expired") => CancelledOrExpired(a, attrs)
    case Some("subscription_resumed") => Resumed(a)
    case Some("subscription_payment_success") => PaymentSuccess(a, attrs, now)
    case Some("subscription_payment_failed") => PaymentFailed(a)
    case _ => a
  }

  /**
   * Which events can reset the counter or change the quota: only a new
   * subscription and a successful payment zero the counter, and only a new
   * subscription sets the quota.
   */
  lemma CounterAndQuotaWriters(eventName: Option<string>, a: Account, attrs: Attributes, now: string)
    requires a.requestsUsed != 0 && a.monthlyQuota != ProPlanIncludedRequests
    ensures var b := Transition(eventName, a, attrs, now);
            && (b.requestsUsed != a.requestsUsed <==>
                  eventName in {Some("subscription_created"), Some("subscription_payment_success")})
            && (b.monthlyQuota != a.monthlyQuota <==> eventName == Some("subscription_created"))
  {
  }

  /** Delivering the same event twice leaves the row as delivering it once. */
  lemma TransitionIdempotent(eventName: Option<string>, a: Account, attrs: Attributes, now: string)
    ensures var b := Transition(eventName, a, attrs, now);
            Transition(eventName, b, attrs, now) == b
  {
    match eventName
    case Some("subscription_created") =>
      var b := Created(a, attrs, now);
      assert Created(b, attrs, now) == b;
    case Some("subscription_updated") =>
      var b := Updated(a, attrs);
      assert Updated(b, attrs) == b;
    case Some("subscription_cancelled") =>
      var b := CancelledOrExpired(a, attrs);
      assert CancelledOrExpired(b, attrs) == b;
    case Some("subscription_expired") =>
      var b := CancelledOrExpired(a, attrs);
      assert CancelledOrExpired(b, attrs) == b;
    case Some("subscription_resumed") =>
      assert Resumed(Resumed(a)) == Resumed(a);
    case Some("subscription_payment_success") =>
      var b := PaymentSuccess(a, attrs, now);
      assert PaymentSuccess(b, attrs, now) == b;
    case Some("subscription_payment_failed") =>
      assert PaymentFailed(PaymentFailed(a)) == PaymentFailed(a);
    case _ =>
  }

  /**
   * The status after an event: fixed by the event name, except for an update,
   * which follows the provider, and a payment success or an unhandled event,
   * which keep it.
   */
  lemma StatusAfter(eventName: Option<string>, a: Account, attrs: Attributes, now: string)
    ensures var st := Transition(eventName, a, attrs, now).status;
            && (eventName in {Some("subscription_created"), Some("subscription_resumed")} ==> st == Pro)
            && (eventName in {Some("subscription_cancelled"), Some("subscription_expired")} ==> st == Cancelled)
            && (eventName == Some("subscription_payment_failed") ==> st == PastDue)
            && (eventName == Some("subscription_updated") ==> st == ProviderStatus(attrs.status))
            && (eventName !in {Some("subscription_created"), Some("subscription_resumed"),
                               Some("subscription_cancelled"), Some("subscription_expired"),
                               Some("subscription_payment_failed"), Some("subscription_updated")}
                ==> st == a.status)
  {
  }

  /** An expired provider subscription is reported as free by an update, but as cancelled by an expiry event. */
  lemma ExpiryDisagreement(a: Account, attrs: Attributes, now: string)
    requires attrs.status == Some("expired")
    ensures Transition(Some("subscription_updated"), a, attrs, now).status == Free
    ensures Transition(Some("subscription_expired"), a, attrs, now).status == Cancelled
  {
  }
}
