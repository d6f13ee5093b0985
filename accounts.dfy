/**
 * The records of the billing store: the account row of the `users` table,
 * the webhook payload a payment-provider event carries, the rows of the
 * `subscription_events` journal and of the `usage_logs` table.
 */
module Accounts {
  import opened Common

  /** The `subscription_status` enumeration of the `users` table. */
  datatype Status = Free | Pro | Cancelled | PastDue

  /** The `action_type` enumeration of the `usage_logs` table. */
  datatype ActionType = Summarize | Ask | Explain | Autofill | Chat

  const AllActionTypes: set<ActionType> := {Summarize, Ask, Explain, Autofill, Chat}

  /** Requests included in the Pro plan (PRO_PLAN_INCLUDED_REQUESTS, its default). */
  const ProPlanIncludedRequests: int := 2000

  /** The default `monthly_quota` of a new account row. */
  const DefaultMonthlyQuota: int := 50

  /**
   * The billing columns of one `users` row. Timestamps are the strings the
   * store holds; a missing value (SQL NULL) is None.
   */
  datatype Account = Account(
    email: string,
    status: Status,
    planName: string,
    subscriptionId: Option<string>,
    customerId: Option<string>,
    subscriptionStart: Option<string>,
    subscriptionEnd: Option<string>,
    periodStart: Option<string>,
    periodEnd: Option<string>,
    monthlyQuota: int,
    requestsUsed: int,
    lastQuotaReset: Option<string>,
    overageEnabled: bool,
    autoStopAtLimit: bool)

  /** A freshly inserted `users` row: every billing column at its declared default. */
  function NewAccount(email: string): (a: Account)
    ensures a.email == email && a.status == Free && a.planName == "Free"
    ensures a.monthlyQuota == DefaultMonthlyQuota && a.requestsUsed == 0
    ensures a.overageEnabled && !a.autoStopAtLimit
    ensures a.subscriptionId == None && a.customerId == None && a.periodStart == None && a.periodEnd == None
    ensures a.subscriptionStart == None && a.subscriptionEnd == None && a.lastQuotaReset == None
  {
    Account(email, Free, "Free", None, None, None, None, None, None,
            DefaultMonthlyQuota, 0, None, true, false)
  }

  /**
   * An id as a JSON body carries it: a number, or a string such as the
   * `str(user_id)` that the checkout puts in its custom data.
   */
  datatype JsonId = IdNumber(n: int) | IdText(s: string)

  /**
   * The `meta` object of a webhook body. A custom `user_id` that is missing,
   * null, or sits in a `custom_data` that is not an object is None.
   */
  datatype Meta = Meta(
    eventName: Option<string>,
    eventId: Option<string>,
    webhookId: Option<string>,
    customUserId: Option<JsonId>)

  /** The `data.attributes` object of a webhook body. */
  datatype Attributes = Attributes(
    customUserId: Option<JsonId>,
    userEmail: Option<string>,
    customerEmail: Option<string>,
    customerId: Option<string>,
    subscriptionId: Option<string>,
    status: Option<string>,
    createdAt: Option<string>,
    renewsAt: Option<string>,
    endsAt: Option<string>)

  /** A whole webhook body: `meta`, `data.id` and `data.attributes`. */
  datatype WebhookEvent = WebhookEvent(meta: Meta, dataId: Option<string>, attributes: Attributes)

  /** `a or b` on two optional strings. */
  function OrElse(a: Option<string>, b: Option<string>): (r: Option<string>)
    ensures Truthy(a) ==> r == a
    ensures !Truthy(a) ==> r == b
  {
    if Truthy(a) then a else b
  }

  /** The journal key of an event: `event_id`, or `webhook_id` when that is absent or empty. */
  function EventId(e: WebhookEvent): Option<string> {
    OrElse(e.meta.eventId, e.meta.webhookId)
  }

  /** The e-mail used for the account lookup: `user_email`, else `customer_email`. */
  function LookupEmail(e: WebhookEvent): Option<string> {
    OrElse(e.attributes.userEmail, e.attributes.customerEmail)
  }

  /** One row of the `subscription_events` journal; its columns declared NOT NULL are plain values. */
  datatype JournalEntry = JournalEntry(
    userId: int,
    eventType: string,
    subscriptionId: string,
    payload: WebhookEvent,
    processed: bool)

  /** One row of the `usage_logs` table. */
  datatype UsageLog = UsageLog(
    userId: int,
    actionType: ActionType,
    tokensUsed: int,
    periodStart: string,
    periodEnd: string,
    isOverage: bool)
}
