/**
 * Usage metering: the quota admission decision of `check_quota`, the integer
 * figures of `get_usage_stats` and its per-action breakdown of the usage log.
 */
module Quota {
  import opened Common
  import opened Accounts
  import Subscription

  const QuotaExceededEnableOverage: string := "Monthly quota exceeded. Please upgrade or enable overage."
  const QuotaExceededUpgrade: string := "Monthly quota exceeded. Please upgrade your plan."

  /** The answer `check_quota` gives for an existing account. */
  datatype Decision = Decision(
    allowed: bool,
    remaining: int,
    quota: int,
    used: int,
    isOverage: bool,
    plan: string,
    message: Option<string>)

  /**
   * The admission decision for one request. Below quota the request is
   * allowed; at or over quota the auto-stop flag denies it first, then a
   * disabled overage denies it, and otherwise it is allowed as overage.
   */
  function Decide(a: Account): (d: Decision)
    ensures d.quota == a.monthlyQuota && d.used == a.requestsUsed && d.plan == a.planName
    ensures d.isOverage <==> a.requestsUsed >= a.monthlyQuota
    ensures d.remaining == Max(0, a.monthlyQuota - a.requestsUsed) && d.remaining >= 0
    ensures a.requestsUsed < a.monthlyQuota ==>
              d.allowed && !d.isOverage && d.remaining == a.monthlyQuota - a.requestsUsed
    ensures a.requestsUsed >= a.monthlyQuota ==> d.remaining == 0
    ensures d.allowed <==> a.requestsUsed < a.monthlyQuota || (!a.autoStopAtLimit && a.overageEnabled)
    ensures d.message.Some? <==> !d.allowed
    ensures a.requestsUsed >= a.monthlyQuota && a.autoStopAtLimit ==>
              d.message == Some(QuotaExceededEnableOverage)
    ensures a.requestsUsed >= a.monthlyQuota && !a.autoStopAtLimit && !a.overageEnabled ==>
              d.message == Some(QuotaExceededUpgrade)
  {
    var quota, used := a.monthlyQuota, a.requestsUsed;
    var remaining := Max(0, quota - used);
    var isOverage := used >= quota;
    if isOverage && a.autoStopAtLimit then
      Decision(false, 0, quota, used, true, a.planName, Some(QuotaExceededEnableOverage))
    else if isOverage && !a.overageEnabled then
      Decision(false, 0, quota, used, true, a.planName, Some(QuotaExceededUpgrade))
    else
      Decision(true, remaining, quota, used, isOverage, a.planName, None)
  }

  // ------------------------------------------------------------ admissions

  /**
   * The account after one round of "decide, then record if allowed", and
   * whether the request was admitted.
   */
  function Round(a: Account): (Account, bool) {
    if Decide(a).allowed then (a.(requestsUsed := a.requestsUsed + 1), true) else (a, false)
  }

  /** The number of requests admitted out of n made one after the other. */
  function Admitted(a: Account, n: nat): nat
    decreases n
  {
    if n == 0 then 0
    else
      var (b, ok) := Round(a);
      (if ok then 1 else 0) + Admitted(b, n - 1)
  }

  /**
   * With the auto-stop flag set or overage disabled the quota is a hard cap:
   * of n requests exactly the ones that fit under the quota are admitted.
   */
  lemma {:induction false} HardCapAdmissions(a: Account, n: nat)
    requires a.autoStopAtLimit || !a.overageEnabled
    ensures Admitted(a, n) == Min(n, Max(0, a.monthlyQuota - a.requestsUsed))
    decreases n
  {
    if n > 0 {
      var (b, ok) := Round(a);
      HardCapAdmissions(b, n - 1);
    }
  }

  /** With overage enabled and no auto-stop, no request is ever refused. */
  lemma {:induction false} OverageAdmitsAll(a: Account, n: nat)
    requires !a.autoStopAtLimit && a.overageEnabled
    ensures Admitted(a, n) == n
    decreases n
  {
    if n > 0 {
      OverageAdmitsAll(Round(a).0, n - 1);
    }
  }

  /** A new subscription admits the whole included allowance, under any flags. */
  lemma CreatedAdmits(a: Account, attrs: Attributes, now: string)
    ensures var d := Decide(Subscription.Created(a, attrs, now));
            d.allowed && !d.isOverage && d.remaining == ProPlanIncludedRequests
  {
  }

  /** After a successful payment the account is below quota again whenever its quota is positive. */
  lemma PaymentSuccessAdmits(a: Account, attrs: Attributes, now: string)
    requires a.monthlyQuota > 0
    ensures var d := Decide(Subscription.PaymentSuccess(a, attrs, now));
            d.allowed && !d.isOverage && d.remaining == a.monthlyQuota
  {
  }

  /**
   * A new account is admitted with its whole free allowance, and since its
   * overage is enabled and auto-stop is off it is never refused afterwards.
   */
  lemma NewAccountAdmits(email: string, n: nat)
    ensures var d := Decide(NewAccount(email));
            d.allowed && !d.isOverage && d.remaining == DefaultMonthlyQuota
    ensures Admitted(NewAccount(email), n) == n
  {
    OverageAdmitsAll(NewAccount(email), n);
  }

  // ------------------------------------------------------------------ stats

  /** The tally of one action type: COUNT(*) and SUM(tokens_used). */
  datatype Tally = Tally(count: nat, tokens: int)

  /** The integer figures of `get_usage_stats`. */
  datatype UsageStats = UsageStats(
    plan: string,
    status: Status,
    quota: int,
    used: int,
    remaining: int,
    overageRequests: int,
    periodStart: Option<string>,
    periodEnd: Option<string>,
    breakdown: map<ActionType, Tally>,
    overageEnabled: bool,
    autoStopAtLimit: bool)

  /**
   * SQL equality between a stored period bound and the account's: a NULL on
   * the account side matches nothing.
   */
  predicate SqlEq(stored: string, wanted: Option<string>) {
    wanted.Some? && wanted.value == stored
  }

  /** The rows the breakdown query selects: the user's rows of the current period. */
  predicate InPeriod(l: UsageLog, userId: int, ps: Option<string>, pe: Option<string>) {
    l.userId == userId && SqlEq(l.periodStart, ps) && SqlEq(l.periodEnd, pe)
  }

  /** The selected rows of one action type, in log order. */
  function Selected(logs: seq<UsageLog>, userId: int, ps: Option<string>, pe: Option<string>,
                    act: ActionType): (r: seq<UsageLog>)
    ensures |r| <= |logs|
    ensures forall k :: 0 <= k < |r| ==> r[k] in logs && InPeriod(r[k], userId, ps, pe) && r[k].actionType == act
  {
    if logs == [] then []
    else
      var rest := Selected(logs[..|logs| - 1], userId, ps, pe, act);
      var l := logs[|logs| - 1];
      if InPeriod(l, userId, ps, pe) && l.actionType == act then rest + [l] else rest
  }

  function TokenSum(logs: seq<UsageLog>): int {
    if logs == [] then 0 else TokenSum(logs[..|logs| - 1]) + logs[|logs| - 1].tokensUsed
  }

  /** The GROUP BY action_type result: one tally per action type that has rows. */
  function Breakdown(logs: seq<UsageLog>, userId: int, ps: Option<string>, pe: Option<string>)
    : (m: map<ActionType, Tally>)
    ensures forall act :: act in m <==> |Selected(logs, userId, ps, pe, act)| > 0
    ensures forall act :: act in m ==>
              m[act] == Tally(|Selected(logs, userId, ps, pe, act)|, TokenSum(Selected(logs, userId, ps, pe, act)))
  {
    forall act: ActionType ensures act in AllActionTypes {
      EveryActionType(act);
    }
    map act | act in AllActionTypes && |Selected(logs, userId, ps, pe, act)| > 0 ::
      Tally(|Selected(logs, userId, ps, pe, act)|, TokenSum(Selected(logs, userId, ps, pe, act)))
  }

  lemma EveryActionType(act: ActionType)
    ensures act in AllActionTypes
  {
    if act.Summarize? {} else if act.Ask? {} else if act.Explain? {} else if act.Autofill? {} else {}
  }

  /** The statistics of an account, given its id and the usage log. */
  function Stats(a: Account, userId: int, logs: seq<UsageLog>): (s: UsageStats)
    ensures s.remaining >= 0 && s.overageRequests >= 0
    ensures s.remaining - s.overageRequests == a.monthlyQuota - a.requestsUsed
    ensures s.remaining == 0 || s.overageRequests == 0
    ensures s.remaining == Decide(a).remaining
    ensures s.quota == a.monthlyQuota && s.used == a.requestsUsed
  {
    UsageStats(a.planName, a.status, a.monthlyQuota, a.requestsUsed,
               Max(0, a.monthlyQuota - a.requestsUsed), Max(0, a.requestsUsed - a.monthlyQuota),
               a.periodStart, a.periodEnd,
               Breakdown(logs, userId, a.periodStart, a.periodEnd),
               a.overageEnabled, a.autoStopAtLimit)
  }

  /**
   * Appending a row of the current period adds one to its action's count and
   * its tokens to that action's sum, and leaves every other action's tally.
   */
  lemma AppendInPeriod(logs: seq<UsageLog>, l: UsageLog, userId: int, ps: Option<string>, pe: Option<string>,
                       act: ActionType)
    requires InPeriod(l, userId, ps, pe)
    ensures var before := Selected(logs, userId, ps, pe, act);
            var after := Selected(logs + [l], userId, ps, pe, act);
            if act == l.actionType then
              |after| == |before| + 1 && TokenSum(after) == TokenSum(before) + l.tokensUsed
            else after == before
  {
    assert (logs + [l])[..|logs|] == logs;
    var after := Selected(logs + [l], userId, ps, pe, act);
    if act == l.actionType {
      assert after[..|after| - 1] == Selected(logs, userId, ps, pe, act);
    }
  }

  /** A row outside the current period changes no tally. */
  lemma AppendOutsidePeriod(logs: seq<UsageLog>, l: UsageLog, userId: int, ps: Option<string>, pe: Option<string>,
                            act: ActionType)
    requires !InPeriod(l, userId, ps, pe)
    ensures Selected(logs + [l], userId, ps, pe, act) == Selected(logs, userId, ps, pe, act)
  {
    assert (logs + [l])[..|logs|] == logs;
  }

  /** While the account has no current period, its breakdown is empty, whatever the log holds. */
  lemma {:induction false} NoPeriodNoBreakdown(logs: seq<UsageLog>, userId: int, pe: Option<string>)
    ensures Breakdown(logs, userId, None, pe) == map[]
  {
    forall act ensures Selected(logs, userId, None, pe, act) == [] {
      NothingSelectedWithoutStart(logs, userId, pe, act);
    }
  }

  lemma {:induction false} NothingSelectedWithoutStart(logs: seq<UsageLog>, userId: int, pe: Option<string>,
                                                       act: ActionType)
    ensures Selected(logs, userId, None, pe, act) == []
    decreases |logs|
  {
    if logs != [] {
      NothingSelectedWithoutStart(logs[..|logs| - 1], userId, pe, act);
    }
  }

  /** The tallies of the five action types add up to the number of selected rows. */
  lemma {:induction false} TalliesPartition(logs: seq<UsageLog>, userId: int, ps: Option<string>, pe: Option<string>)
    ensures |Selected(logs, userId, ps, pe, Summarize)| + |Selected(logs, userId, ps, pe, Ask)|
            + |Selected(logs, userId, ps, pe, Explain)| + |Selected(logs, userId, ps, pe, Autofill)|
            + |Selected(logs, userId, ps, pe, Chat)|
            == CountInPeriod(logs, userId, ps, pe)
    decreases |logs|
  {
    if logs != [] {
      TalliesPartition(logs[..|logs| - 1], userId, ps, pe);
    }
  }

  /** The number of the user's rows in the current period, of any action type. */
  function CountInPeriod(logs: seq<UsageLog>, userId: int, ps: Option<string>, pe: Option<string>): (n: nat)
    ensures n <= |logs|
  {
    if logs == [] then 0
    else CountInPeriod(logs[..|logs| - 1], userId, ps, pe) + (if InPeriod(logs[|logs| - 1], userId, ps, pe) then 1 else 0)
  }
}
