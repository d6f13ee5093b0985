/**
 * The billing store and the operations that change it: the webhook processor
 * with its event journal, and the usage recorder. Each operation either
 * commits all of its writes or none of them, as the single database
 * transaction around it does.
 */
module Ledger {
  import opened Common
  import opened Text
  import opened Accounts
  import Subscription
  import Quota

  /** Why a webhook delivery was refused; every refusal writes nothing. */
  datatype WebhookError =
    | MissingUserId       // no step of the resolution chain yielded a user
    | NullEventType       // `event_type` is NOT NULL
    | NullSubscriptionId  // `subscription_id` (the body's `data.id`) is NOT NULL
    | NullEventId         // `lemonsqueezy_event_id` is NOT NULL
    | DuplicateEventId    // `lemonsqueezy_event_id` is UNIQUE
    | UnreadableUserId    // strict mode refuses a `user_id` string that is not an integer
    | UnknownUser         // `user_id` references `users(id)`

  datatype UsageError = UserNotFound

  /**
   * A custom user id as Python's truthiness sees it: present, and a non-zero
   * number or a non-empty string (so the string "0" counts).
   */
  function CustomId(v: Option<JsonId>): (r: Option<JsonId>)
    ensures r.Some? <==> v.Some? && (v.value.IdNumber? ==> v.value.n != 0) && (v.value.IdText? ==> v.value.s != "")
    ensures r.Some? ==> r == v
  {
    match v
    case Some(IdNumber(n)) => if n != 0 then v else None
    case Some(IdText(s)) => if s != "" then v else None
    case None => None
  }

  /**
   * The `users.id` that MySQL reads from a user id: a number as it is, a
   * string of decimal digits as the number it denotes; strict mode refuses
   * any other string, which gives None.
   */
  function UserKey(v: JsonId): (k: Option<int>)
    ensures v.IdNumber? ==> k == Some(v.n)
    ensures v.IdText? ==> (k.Some? <==> v.s != "" && AllDigits(v.s))
    ensures v.IdText? && k.Some? ==> k.value >= 0
  {
    match v
    case IdNumber(n) => Some(n)
    case IdText(s) => if s != "" && AllDigits(s) then Some(DecimalValue(s)) else None
  }

  /** The id the checkout sends as `str(user_id)` names that same account. */
  lemma CheckoutIdReadBack(id: nat)
    ensures CustomId(Some(IdText(NatToDecimal(id)))) == Some(IdText(NatToDecimal(id)))
    ensures UserKey(IdText(NatToDecimal(id))) == Some(id)
  {
  }

  /** The account a resolved user id names, if it names one. */
  ghost predicate Names(accounts: map<int, Account>, uid: Option<JsonId>, k: int) {
    uid == Some(IdNumber(k)) && k in accounts
  }

  /** No two accounts share an e-mail address (the column is UNIQUE). */
  ghost predicate UniqueEmails(accounts: map<int, Account>) {
    forall i, j :: i in accounts && j in accounts && accounts[i].email == accounts[j].email ==> i == j
  }

  /** Some account holds this e-mail address. */
  ghost predicate EmailKnown(accounts: map<int, Account>, email: string) {
    exists j :: j in accounts && accounts[j].email == email
  }

  /** Some account holds this provider customer id. */
  ghost predicate CustomerKnown(accounts: map<int, Account>, customerId: Option<string>) {
    exists j :: j in accounts && accounts[j].customerId == customerId
  }

  /**
   * The account-resolution chain: the custom `user_id` of the attributes,
   * else that of `meta`, else the owner of the event's e-mail, else an owner
   * of its customer id, else nothing. The customer-id column is not unique,
   * so the last step may pick any of its owners.
   */
  ghost predicate Resolution(accounts: map<int, Account>, e: WebhookEvent, uid: Option<JsonId>) {
    var email := LookupEmail(e);
    var customer := e.attributes.customerId;
    if CustomId(e.attributes.customUserId).Some? then uid == CustomId(e.attributes.customUserId)
    else if CustomId(e.meta.customUserId).Some? then uid == CustomId(e.meta.customUserId)
    else if Truthy(email) && EmailKnown(accounts, email.value) then
      exists k :: Names(accounts, uid, k) && accounts[k].email == email.value
    else if Truthy(customer) && CustomerKnown(accounts, customer) then
      exists k :: Names(accounts, uid, k) && accounts[k].customerId == customer
    else uid == None
  }

  /** The chain stops at its customer-id step. */
  ghost predicate ViaCustomerId(accounts: map<int, Account>, e: WebhookEvent) {
    && CustomId(e.attributes.customUserId).None?
    && CustomId(e.meta.customUserId).None?
    && !(Truthy(LookupEmail(e)) && EmailKnown(accounts, LookupEmail(e).value))
    && Truthy(e.attributes.customerId) && CustomerKnown(accounts, e.attributes.customerId)
  }

  /**
   * The resolution is a function of the event and the accounts, except at the
   * customer-id step: the e-mail step is unambiguous because e-mails are unique.
   */
  lemma ResolutionUnique(accounts: map<int, Account>, e: WebhookEvent, u1: Option<JsonId>, u2: Option<JsonId>)
    requires UniqueEmails(accounts)
    requires Resolution(accounts, e, u1) && Resolution(accounts, e, u2)
    requires !ViaCustomerId(accounts, e)
    ensures u1 == u2
  {
    var email := LookupEmail(e);
    if && CustomId(e.attributes.customUserId).None? && CustomId(e.meta.customUserId).None?
       && Truthy(email) && EmailKnown(accounts, email.value) {
      var k1 :| Names(accounts, u1, k1) && accounts[k1].email == email.value;
      var k2 :| Names(accounts, u2, k2) && accounts[k2].email == email.value;
      assert k1 == k2;
    }
  }

  /** A custom user id wins over every lookup, whether or not such an account exists. */
  lemma CustomIdFirst(accounts: map<int, Account>, e: WebhookEvent, uid: Option<JsonId>)
    requires CustomId(e.attributes.customUserId).Some?
    requires Resolution(accounts, e, uid)
    ensures uid == e.attributes.customUserId
  {
  }

  /**
   * The string "0" is a truthy custom id, so the chain stops there and never
   * reaches the e-mail lookup; since no account has id 0, the journal insert
   * is refused and the delivery writes nothing.
   */
  lemma TextZeroRefused(accounts: map<int, Account>, events: map<string, JournalEntry>,
                        e: WebhookEvent, uid: Option<JsonId>)
    requires forall k :: k in accounts ==> 1 <= k
    requires e.attributes.customUserId == Some(IdText("0"))
    requires Resolution(accounts, e, uid)
    ensures uid == Some(IdText("0"))
    ensures JournalFault(accounts, events, e, uid.value).Some?
  {
    assert DecimalValue("0") == 0 by { assert "0"[..0] == []; }
  }

  /**
   * Whether the journal insert is refused, and why: a NULL in a NOT NULL
   * column, an event id already journaled, or a user id with no account.
   */
  function JournalFault(accounts: map<int, Account>, events: map<string, JournalEntry>,
                        e: WebhookEvent, uid: JsonId): (f: Option<WebhookError>)
    ensures f.None? <==> && e.meta.eventName.Some? && e.dataId.Some? && EventId(e).Some?
                         && EventId(e).value !in events
                         && UserKey(uid).Some? && UserKey(uid).value in accounts
    ensures EventId(e).Some? && EventId(e).value in events ==> f.Some?
  {
    if e.meta.eventName.None? then Some(NullEventType)
    else if e.dataId.None? then Some(NullSubscriptionId)
    else match EventId(e)
      case None => Some(NullEventId)
      case Some(id) =>
        if id in events then Some(DuplicateEventId)
        else match UserKey(uid)
          case None => Some(UnreadableUserId)
          case Some(k) => if k in accounts then None else Some(UnknownUser)
  }

  /**
   * The store after a committed delivery of e resolved to uid: the event is
   * journaled as processed under its event id, and the account's row has
   * taken the event's transition; nothing else changed.
   */
  ghost predicate Delivered(accounts0: map<int, Account>, events0: map<string, JournalEntry>,
                            e: WebhookEvent, now: string, uid: Option<JsonId>,
                            accounts: map<int, Account>, events: map<string, JournalEntry>) {
    && uid.Some? && UserKey(uid.value).Some? && UserKey(uid.value).value in accounts0
    && e.meta.eventName.Some? && e.dataId.Some? && EventId(e).Some?
    && var k := UserKey(uid.value).value;
       && events == events0[EventId(e).value := JournalEntry(k, e.meta.eventName.value, e.dataId.value, e, true)]
       && accounts == accounts0[k := Subscription.Transition(e.meta.eventName, accounts0[k], e.attributes, now)]
  }

  /**
   * After a committed delivery the same event still resolves to an account:
   * no handler changes an e-mail, and a customer id is only ever overwritten
   * by the event's own.
   */
  lemma StillResolves(accounts0: map<int, Account>, events0: map<string, JournalEntry>,
                      e: WebhookEvent, now: string, uid: Option<JsonId>,
                      accounts: map<int, Account>, events: map<string, JournalEntry>, u2: Option<JsonId>)
    requires Resolution(accounts0, e, uid)
    requires Delivered(accounts0, events0, e, now, uid, accounts, events)
    requires Resolution(accounts, e, u2)
    ensures u2.Some?
  {
    var k := UserKey(uid.value).value;
    var email, customer := LookupEmail(e), e.attributes.customerId;
    if CustomId(e.attributes.customUserId).None? && CustomId(e.meta.customUserId).None? {
      if Truthy(email) && EmailKnown(accounts0, email.value) {
        var j :| Names(accounts0, uid, j) && accounts0[j].email == email.value;
        assert j in accounts && accounts[j].email == email.value;
        assert EmailKnown(accounts, email.value);
      } else {
        var j :| Names(accounts0, uid, j) && accounts0[j].customerId == customer;
        assert j == k && accounts[k].customerId == customer;
        assert CustomerKnown(accounts, customer);
      }
    }
  }

  /** Two resolutions of one event against one store meet the same journal outcome. */
  lemma SameFault(accounts: map<int, Account>, events: map<string, JournalEntry>,
                  e: WebhookEvent, u1: Option<JsonId>, u2: Option<JsonId>)
    requires UniqueEmails(accounts)
    requires Resolution(accounts, e, u1) && Resolution(accounts, e, u2)
    ensures u1.None? <==> u2.None?
    ensures u1.Some? ==> JournalFault(accounts, events, e, u1.value) == JournalFault(accounts, events, e, u2.value)
  {
    if ViaCustomerId(accounts, e) {
      var k1 :| Names(accounts, u1, k1) && accounts[k1].customerId == e.attributes.customerId;
      var k2 :| Names(accounts, u2, k2) && accounts[k2].customerId == e.attributes.customerId;
      assert UserKey(u1.value) == Some(k1) && UserKey(u2.value) == Some(k2);
    } else {
      ResolutionUnique(accounts, e, u1, u2);
    }
  }

  class Store {
    /** The `users` table, by id. */
    var accounts: map<int, Account>
    /** The `subscription_events` journal, by provider event id. */
    var events: map<string, JournalEntry>
    /** The `usage_logs` table, in insertion order. */
    var usageLogs: seq<UsageLog>
    /** The next AUTO_INCREMENT value of `users.id`. */
    var nextId: int

    /**
     * Ids are positive, e-mails unique, every committed journal row is
     * processed and names an account, and every usage row names an account.
     */
    ghost predicate Valid()
      reads this
    {
      && 1 <= nextId
      && (forall id :: id in accounts ==> 1 <= id < nextId)
      && UniqueEmails(accounts)
      && (forall k :: k in events ==> events[k].userId in accounts && events[k].processed)
      && (forall n :: 0 <= n < |usageLogs| ==> usageLogs[n].userId in accounts)
    }

    constructor ()
      ensures Valid()
      ensures accounts == map[] && events == map[] && usageLogs == []
    {
      accounts, events, usageLogs, nextId := map[], map[], [], 1;
    }

    /**
     * Inserts a `users` row with every billing column at its default; an
     * e-mail already taken is refused and nothing is written.
     */
    method AddAccount(email: string) returns (uid: Option<int>)
      requires Valid()
      modifies this
      ensures Valid()
      ensures events == old(events) && usageLogs == old(usageLogs)
      ensures EmailKnown(old(accounts), email) ==> uid == None && accounts == old(accounts)
      ensures !EmailKnown(old(accounts), email) ==>
                && uid.Some? && uid.value !in old(accounts)
                && accounts == old(accounts)[uid.value := NewAccount(email)]
    {
      if exists j | j in accounts :: accounts[j].email == email {
        uid := None;
      } else {
        uid := Some(nextId);
        accounts := accounts[nextId := NewAccount(email)];
        nextId := nextId + 1;
      }
    }

    /** The account-resolution chain of the webhook processor. */
    method ResolveUser(e: WebhookEvent) returns (uid: Option<JsonId>)
      requires Valid()
      ensures Resolution(accounts, e, uid)
    {
      uid := CustomId(e.attributes.customUserId);
      if uid.None? {
        uid := CustomId(e.meta.customUserId);
      }
      if uid.None? {
        var email := LookupEmail(e);
        if Truthy(email) && exists j | j in accounts :: accounts[j].email == email.value {
          var j :| j in accounts && accounts[j].email == email.value;
          uid := Some(IdNumber(j));
          assert Names(accounts, uid, j);
        }
      }
      if uid.None? {
        var customer := e.attributes.customerId;
        if Truthy(customer) && exists j | j in accounts :: accounts[j].customerId == customer {
          var j :| j in accounts && accounts[j].customerId == customer;
          uid := Some(IdNumber(j));
          assert Names(accounts, uid, j);
        }
      }
    }

    /**
     * Runs the handler the event name selects on the account's row: each
     * handler is one UPDATE of that row, whose effect is the matching
     * function of the subscription state machine; other names change nothing.
     */
    method Dispatch(eventName: Option<string>, uid: int, attrs: Attributes, now: string)
      requires uid in accounts
      modifies this
      ensures accounts == old(accounts)[uid := Subscription.Transition(eventName, old(accounts)[uid], attrs, now)]
      ensures events == old(events) && usageLogs == old(usageLogs) && nextId == old(nextId)
    {
      accounts := accounts[uid := Subscription.Transition(eventName, accounts[uid], attrs, now)];
    }

    /** Sets `processed` on the journal row of an event id. */
    method MarkProcessed(id: string)
      requires id in events
      modifies this
      ensures events == old(events)[id := old(events)[id].(processed := true)]
      ensures accounts == old(accounts) && usageLogs == old(usageLogs) && nextId == old(nextId)
    {
      events := events[id := events[id].(processed := true)];
    }

    /**
     * Processes one webhook delivery: resolve the account, journal the event
     * unprocessed, run its handler, mark it processed, and commit; any refusal
     * rolls everything back. `uid` is the user id the chain resolved to.
     */
    method ProcessWebhookEvent(e: WebhookEvent, now: string) returns (r: Result<(), WebhookError>, ghost uid: Option<JsonId>)
      requires Valid()
      modifies this
      ensures Valid()
      ensures Resolution(old(accounts), e, uid)
      ensures uid.None? ==> r == Err(MissingUserId)
      ensures uid.Some? ==> (r.Ok? <==> JournalFault(old(accounts), old(events), e, uid.value).None?)
      ensures uid.Some? && r.Err? ==> Some(r.error) == JournalFault(old(accounts), old(events), e, uid.value)
      ensures nextId == old(nextId)
      ensures r.Err? ==> accounts == old(accounts) && events == old(events) && usageLogs == old(usageLogs)
      ensures r.Ok? ==> Delivered(old(accounts), old(events), e, now, uid, accounts, events) && usageLogs == old(usageLogs)
      ensures EventId(e).Some? && EventId(e).value in old(events) ==> r.Err?
    {
      var resolved := ResolveUser(e);
      uid := resolved;
      if resolved.None? {
        r := Err(MissingUserId);
        return;
      }
      var fault := JournalFault(accounts, events, e, resolved.value);
      if fault.Some? {
        r := Err(fault.value);
        return;
      }
      var id := UserKey(resolved.value).value;
      var key := EventId(e).value;
      events := events[key := JournalEntry(id, e.meta.eventName.value, e.dataId.value, e, false)];
      Dispatch(e.meta.eventName, id, e.attributes, now);
      MarkProcessed(key);
      r := Ok(());
    }

    /**
     * Delivers the same event twice. The second delivery is always refused:
     * after a committed first delivery its event id is journaled, and after a
     * refused one it meets the same refusal. Either way it writes nothing, so
     * the store ends as one delivery leaves it.
     */
    method DeliverTwice(e: WebhookEvent, now: string)
      returns (first: Result<(), WebhookError>, second: Result<(), WebhookError>, ghost uid: Option<JsonId>)
      requires Valid()
      modifies this
      ensures Valid()
      ensures Resolution(old(accounts), e, uid)
      ensures first.Ok? ==> second == Err(DuplicateEventId)
      ensures first.Err? ==> second == first
      ensures nextId == old(nextId)
      ensures first.Err? ==> accounts == old(accounts) && events == old(events) && usageLogs == old(usageLogs)
      ensures first.Ok? ==> Delivered(old(accounts), old(events), e, now, uid, accounts, events) && usageLogs == old(usageLogs)
    {
      ghost var accounts0, events0 := accounts, events;
      first, uid := ProcessWebhookEvent(e, now);
      ghost var accounts1, events1 := accounts, events;
      ghost var u2;
      second, u2 := ProcessWebhookEvent(e, now);
      if first.Ok? {
        StillResolves(accounts0, events0, e, now, uid, accounts1, events1, u2);
      } else {
        SameFault(accounts0, events0, e, uid, u2);
      }
    }

    // --------------------------------------------------------------- usage

    /** `check_quota`: the admission decision for the account, or an error for an unknown user. */
    function CheckQuota(uid: int): (r: Result<Quota.Decision, UsageError>)
      reads this
      ensures r.Ok? <==> uid in accounts
      ensures r.Ok? ==> r.value == Quota.Decide(accounts[uid])
    {
      if uid in accounts then Ok(Quota.Decide(accounts[uid])) else Err(UserNotFound)
    }

    /**
     * `log_usage`: appends one usage row for the account's current period
     * (`now` and `now` plus 30 days stand in for a missing period) and adds
     * one to its counter; an unknown user is refused and nothing is written.
     */
    method LogUsage(uid: int, action: ActionType, tokens: int, now: string, nowPlus30Days: string)
      returns (r: Result<(), UsageError>)
      requires Valid()
      modifies this
      ensures Valid()
      ensures events == old(events) && nextId == old(nextId)
      ensures uid !in old(accounts) ==>
                r == Err(UserNotFound) && accounts == old(accounts) && usageLogs == old(usageLogs)
      ensures uid in old(accounts) ==>
                var a := old(accounts)[uid];
                && r == Ok(())
                && usageLogs == old(usageLogs) + [UsageLog(uid, action, tokens,
                                                           ValueOr(a.periodStart, now),
                                                           ValueOr(a.periodEnd, nowPlus30Days),
                                                           a.requestsUsed >= a.monthlyQuota)]
                && accounts == old(accounts)[uid := a.(requestsUsed := a.requestsUsed + 1)]
      ensures uid in old(accounts) ==>
                usageLogs[|usageLogs| - 1].isOverage == Quota.Decide(old(accounts)[uid]).isOverage
      ensures uid in old(accounts) ==>
                var a := old(accounts)[uid];
                a.periodStart.Some? && a.periodEnd.Some? ==>
                  |Quota.Selected(usageLogs, uid, a.periodStart, a.periodEnd, action)|
                  == |Quota.Selected(old(usageLogs), uid, a.periodStart, a.periodEnd, action)| + 1
    {
      if uid !in accounts {
        return Err(UserNotFound);
      }
      var a := accounts[uid];
      var isOverage := a.requestsUsed >= a.monthlyQuota;
      var log := UsageLog(uid, action, tokens, ValueOr(a.periodStart, now), ValueOr(a.periodEnd, nowPlus30Days), isOverage);
      usageLogs := usageLogs + [log];
      accounts := accounts[uid := a.(requestsUsed := a.requestsUsed + 1)];
      r := Ok(());
      if a.periodStart.Some? && a.periodEnd.Some? {
        Quota.AppendInPeriod(old(usageLogs), log, uid, a.periodStart, a.periodEnd, action);
      }
    }

    /** `get_usage_stats`, integer figures only: None for an unknown user. */
    function UsageStats(uid: int): (r: Option<Quota.UsageStats>)
      reads this
      ensures r.Some? <==> uid in accounts
      ensures r.Some? ==> r.value == Quota.Stats(accounts[uid], uid, usageLogs)
    {
      if uid in accounts then Some(Quota.Stats(accounts[uid], uid, usageLogs)) else None
    }
  }
}
