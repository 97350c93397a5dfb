/** One subscription's life: what a charge, a settlement, a failure and a cancellation make of the
    record, and what every sequence of them keeps. */
module Billing {
  import opened Records
  import opened Calendar
  import opened Token

  datatype Status = Active | PastDue | Cancelled

  /** Why a pull was sent: the regular period charge, or a stashed one-time charge. */
  datatype Purpose = Renewal | Proration

  /** A signed pull transaction. The record stands for its own hash: different transactions have
      different hashes. */
  datatype PullTx = PullTx(nonce: nat, user: Address, amount: nat, purpose: Purpose, tip: nat, maxFee: nat)

  datatype Sub = Sub(
    user: Address,
    planId: string,
    status: Status,
    nextAttemptAt: Instant,
    lastChargedAt: Instant,
    pending: Option<Decimal>,
    dunningAttempts: int,
    lastChargedTx: Option<PullTx>,
    lastChargedBlock: nat,
    inFlight: Option<PullTx>)

  /** Retry delays, in nanoseconds. */
  datatype Policy = Policy(backoffs: seq<nat>)
  {
    /** When to try again after the given number of failures; none when the delays are used up. */
    function NextRetry(attempts: int, now: Instant): (next: Option<Instant>)
      ensures next.Some? <==> 1 <= attempts <= |backoffs|
      ensures next.Some? ==> now <= next.value
    {
      if attempts < 1 || attempts > |backoffs| then None else Some(now + backoffs[attempts - 1])
    }
  }

  const OPERATOR_RETRY: int := 300 * SECOND

  predicate Billable(s: Sub) {
    s.status == Active || s.status == PastDue
  }

  predicate Due(s: Sub, now: Instant) {
    Billable(s) && (s.pending.Some? || s.nextAttemptAt <= now)
  }

  /** A record that has never been charged. */
  function NewSub(user: Address, planId: string, firstDue: Instant): Sub {
    Sub(user, planId, Active, firstDue, ZERO_TIME, None, 0, None, 0, None)
  }

  // ---------- the record after each outcome ----------

  function ChargedSub(s: Sub, plan: Plan, now: Instant, tx: PullTx, block: nat): Sub {
    var scheduled := if s.nextAttemptAt == ZERO_TIME then now else s.nextAttemptAt;
    s.(nextAttemptAt := AddPeriod(plan, scheduled),
       status := Active,
       dunningAttempts := 0,
       lastChargedTx := Some(tx),
       lastChargedBlock := block,
       lastChargedAt := now,
       inFlight := None)
  }

  function SettledSub(s: Sub, now: Instant, block: nat): Sub {
    s.(pending := None,
       lastChargedTx := s.inFlight,
       lastChargedBlock := block,
       lastChargedAt := now,
       inFlight := None)
  }

  function CancelledSub(s: Sub, now: Instant): Sub {
    s.(status := Cancelled, nextAttemptAt := RolledAddMonths(now, 1200), inFlight := None)
  }

  function FailedSub(s: Sub, policy: Policy, now: Instant, operatorSide: bool): Sub {
    if operatorSide then s.(inFlight := None, nextAttemptAt := now + OPERATOR_RETRY)
    else
      var failed := s.(inFlight := None, dunningAttempts := s.dunningAttempts + 1);
      match policy.NextRetry(failed.dunningAttempts, now)
      case None => CancelledSub(failed, now)
      case Some(next) => failed.(status := PastDue, nextAttemptAt := next)
  }

  // ---------- runs of the scheduler on a subscription with no stashed charge ----------

  datatype Outcome = Charge(tx: PullTx, block: nat) | UserFailure | OperatorFailure

  /** A pull attempt that ended at `now`. */
  datatype Attempt = Attempt(now: Instant, outcome: Outcome)

  function AfterAttempt(s: Sub, plan: Plan, policy: Policy, a: Attempt): Sub {
    match a.outcome
    case Charge(tx, block) => ChargedSub(s, plan, a.now, tx, block)
    case UserFailure => FailedSub(s, policy, a.now, false)
    case OperatorFailure => FailedSub(s, policy, a.now, true)
  }

  function AfterAttempts(s: Sub, plan: Plan, policy: Policy, run: seq<Attempt>): Sub {
    if run == [] then s
    else AfterAttempt(AfterAttempts(s, plan, policy, run[..|run| - 1]), plan, policy, run[|run| - 1])
  }

  /** Every attempt starts from a due subscription, however late, and the clock never goes back. */
  predicate DueRun(s: Sub, plan: Plan, policy: Policy, run: seq<Attempt>) {
    && s.pending.None?
    && (forall i | 0 <= i < |run| :: Due(AfterAttempts(s, plan, policy, run[..i]), run[i].now))
    && (forall i, j | 0 <= i <= j < |run| :: run[i].now <= run[j].now)
  }

  lemma DueRunPrefix(s: Sub, plan: Plan, policy: Policy, run: seq<Attempt>)
    requires DueRun(s, plan, policy, run) && run != []
    ensures DueRun(s, plan, policy, run[..|run| - 1])
    ensures Due(AfterAttempts(s, plan, policy, run[..|run| - 1]), run[|run| - 1].now)
  {
    var front := run[..|run| - 1];
    forall i | 0 <= i < |front| ensures Due(AfterAttempts(s, plan, policy, front[..i]), front[i].now) {
      assert front[..i] == run[..i];
    }
  }

  function Charges(run: seq<Attempt>): nat {
    if run == [] then 0
    else Charges(run[..|run| - 1]) + (if run[|run| - 1].outcome.Charge? then 1 else 0)
  }

  lemma {:induction false} NoStashAppears(s: Sub, plan: Plan, policy: Policy, run: seq<Attempt>)
    requires s.pending.None?
    ensures AfterAttempts(s, plan, policy, run).pending.None?
  {
    if run != [] {
      NoStashAppears(s, plan, policy, run[..|run| - 1]);
    }
  }

  lemma DatesChain(a: Instant, b: Instant, c: Instant)
    requires DateAtMost(DateOf(a), DateOf(b)) && b <= c
    ensures DateAtMost(DateOf(a), DateOf(c))
  {
    LaterInstantLaterDate(b, c);
  }

  predicate DueNotBefore(s: Sub, floor: Instant) {
    Billable(s) ==> DateAtMost(DateOf(floor), DateOf(s.nextAttemptAt))
  }

  /** An attempt keeps a floor under the next due date, and a charge raises it by one period. */
  lemma AttemptKeepsFloor(s: Sub, plan: Plan, policy: Policy, a: Attempt, from: Instant, k: nat)
    requires s.nextAttemptAt <= a.now && Billable(s) && DueNotBefore(s, AddPeriods(plan, k, from))
    ensures DueNotBefore(AfterAttempt(s, plan, policy, a), AddPeriods(plan, if a.outcome.Charge? then k + 1 else k, from))
  {
    var floor := AddPeriods(plan, k, from);
    if a.outcome.Charge? {
      var scheduled := if s.nextAttemptAt == ZERO_TIME then a.now else s.nextAttemptAt;
      DatesChain(floor, s.nextAttemptAt, scheduled);
      AddPeriodMonotone(plan, floor, scheduled);
    } else if Billable(AfterAttempt(s, plan, policy, a)) {
      DatesChain(floor, s.nextAttemptAt, AfterAttempt(s, plan, policy, a).nextAttemptAt);
    }
  }

  /** However late the ticks and whatever fails in between, after k charges a subscription that is
      still billable is not due again before the k-th billing date counted from its first due time. */
  lemma {:induction false} NextDueNotEarly(s: Sub, plan: Plan, policy: Policy, run: seq<Attempt>)
    requires DueRun(s, plan, policy, run)
    ensures DueNotBefore(AfterAttempts(s, plan, policy, run), AddPeriods(plan, Charges(run), s.nextAttemptAt))
  {
    if run != [] {
      var front, a := run[..|run| - 1], run[|run| - 1];
      DueRunPrefix(s, plan, policy, run);
      NextDueNotEarly(s, plan, policy, front);
      NoStashAppears(s, plan, policy, front);
      AttemptKeepsFloor(AfterAttempts(s, plan, policy, front), plan, policy, a, s.nextAttemptAt, Charges(front));
    }
  }

  lemma DueRunUpTo(s: Sub, plan: Plan, policy: Policy, run: seq<Attempt>, i: nat)
    requires DueRun(s, plan, policy, run) && i <= |run|
    ensures DueRun(s, plan, policy, run[..i])
    ensures i < |run| ==> Due(AfterAttempts(s, plan, policy, run[..i]), run[i].now)
  {
    var before := run[..i];
    forall j | 0 <= j < |before| ensures Due(AfterAttempts(s, plan, policy, before[..j]), before[j].now) {
      assert before[..j] == run[..j];
    }
  }

  lemma ChargesUpTo(run: seq<Attempt>, i: nat)
    requires i < |run|
    ensures Charges(run[..i + 1]) == Charges(run[..i]) + if run[i].outcome.Charge? then 1 else 0
  {
    assert run[..i + 1][..i] == run[..i];
  }

  lemma ChargeOnOrAfter(s: Sub, plan: Plan, policy: Policy, before: seq<Attempt>, a: Attempt)
    requires DueRun(s, plan, policy, before) && Due(AfterAttempts(s, plan, policy, before), a.now)
    ensures DateAtMost(DateOf(AddPeriods(plan, Charges(before), s.nextAttemptAt)), DateOf(a.now))
  {
    NextDueNotEarly(s, plan, policy, before);
    NoStashAppears(s, plan, policy, before);
    DatesChain(AddPeriods(plan, Charges(before), s.nextAttemptAt), AfterAttempts(s, plan, policy, before).nextAttemptAt, a.now);
  }

  /** Never over-billed: the k-th charge of any run falls on or after the k-th billing date. */
  lemma NeverOverBilled(s: Sub, plan: Plan, policy: Policy, run: seq<Attempt>, i: nat)
    requires DueRun(s, plan, policy, run)
    requires i < |run| && run[i].outcome.Charge?
    ensures DateAtMost(DateOf(AddPeriods(plan, Charges(run[..i + 1]) - 1, s.nextAttemptAt)), DateOf(run[i].now))
  {
    DueRunUpTo(s, plan, policy, run, i);
    ChargeOnOrAfter(s, plan, policy, run[..i], run[i]);
    ChargesUpTo(run, i);
  }

  /** No drift: with no failure in the run the next due time is exactly k periods from the first. */
  lemma {:induction false} NoDriftWithoutFailure(s: Sub, plan: Plan, policy: Policy, run: seq<Attempt>)
    requires DueRun(s, plan, policy, run) && plan.periodCount > 0
    requires ZERO_TIME < s.nextAttemptAt
    requires forall i | 0 <= i < |run| :: run[i].outcome.Charge?
    ensures AfterAttempts(s, plan, policy, run).nextAttemptAt == AddPeriods(plan, |run|, s.nextAttemptAt)
    ensures ZERO_TIME < AfterAttempts(s, plan, policy, run).nextAttemptAt
  {
    if run != [] {
      DueRunPrefix(s, plan, policy, run);
      NoDriftWithoutFailure(s, plan, policy, run[..|run| - 1]);
      AddPeriodAdvances(plan, AfterAttempts(s, plan, policy, run[..|run| - 1]).nextAttemptAt);
    }
  }

  lemma FailureDelays(s: Sub, plan: Plan, policy: Policy, a: Attempt)
    requires Due(s, a.now) && s.pending.None? && !a.outcome.Charge?
    ensures var after := AfterAttempt(s, plan, policy, a);
            && (Billable(after) ==> s.nextAttemptAt <= after.nextAttemptAt)
            && (a.outcome.OperatorFailure? ==> s.nextAttemptAt < after.nextAttemptAt)
  {
  }

  function OperatorFailures(run: seq<Attempt>): nat {
    if run == [] then 0
    else OperatorFailures(run[..|run| - 1]) + (if run[|run| - 1].outcome.OperatorFailure? then 1 else 0)
  }

  /** Failures only ever delay the due time, and an operator-side one always does. */
  lemma {:induction false} FailuresDelay(s: Sub, plan: Plan, policy: Policy, run: seq<Attempt>)
    requires DueRun(s, plan, policy, run) && Charges(run) == 0
    requires run != [] ==> Billable(AfterAttempts(s, plan, policy, run))
    ensures s.nextAttemptAt <= AfterAttempts(s, plan, policy, run).nextAttemptAt
    ensures OperatorFailures(run) > 0 ==> s.nextAttemptAt < AfterAttempts(s, plan, policy, run).nextAttemptAt
  {
    if run != [] {
      var front, a := run[..|run| - 1], run[|run| - 1];
      DueRunPrefix(s, plan, policy, run);
      NoStashAppears(s, plan, policy, front);
      FailuresDelay(s, plan, policy, front);
      FailureDelays(AfterAttempts(s, plan, policy, front), plan, policy, a);
    }
  }

  lemma RunOfOneMore(s: Sub, plan: Plan, policy: Policy, front: seq<Attempt>, a: Attempt)
    ensures AfterAttempts(s, plan, policy, front + [a]) == AfterAttempt(AfterAttempts(s, plan, policy, front), plan, policy, a)
  {
    assert (front + [a])[..|front|] == front;
  }

  /** After any failures and then a charge, the exact schedule is kept if and only if the retry time
      and the due time it replaced have the same next due time. */
  lemma ScheduleKeptIff(s: Sub, plan: Plan, policy: Policy, failures: seq<Attempt>, charge: Attempt)
    requires DueRun(s, plan, policy, failures + [charge]) && ZERO_TIME < s.nextAttemptAt
    requires Charges(failures) == 0 && charge.outcome.Charge?
    ensures var retry := AfterAttempts(s, plan, policy, failures).nextAttemptAt;
            && s.nextAttemptAt <= retry
            && (AfterAttempts(s, plan, policy, failures + [charge]).nextAttemptAt == AddPeriods(plan, 1, s.nextAttemptAt)
                <==> PeriodsAgree(plan, s.nextAttemptAt, retry))
  {
    var run := failures + [charge];
    assert run[..|run| - 1] == failures && run[|run| - 1] == charge;
    DueRunPrefix(s, plan, policy, run);
    FailuresDelay(s, plan, policy, failures);
    RunOfOneMore(s, plan, policy, failures, charge);
    assert AddPeriods(plan, 1, s.nextAttemptAt) == AddPeriod(plan, AddPeriods(plan, 0, s.nextAttemptAt));
    AddPeriodAgreesIff(plan, AfterAttempts(s, plan, policy, failures).nextAttemptAt, s.nextAttemptAt);
  }

  /** On a day plan an operator-side failure always loses it. */
  lemma DayPlanLosesSchedule(s: Sub, plan: Plan, policy: Policy, failures: seq<Attempt>, charge: Attempt)
    requires DueRun(s, plan, policy, failures + [charge]) && ZERO_TIME < s.nextAttemptAt
    requires Charges(failures) == 0 && charge.outcome.Charge?
    requires plan.periodUnit != "month" && plan.periodUnit != "year"
    requires OperatorFailures(failures) > 0
    ensures AfterAttempts(s, plan, policy, failures + [charge]).nextAttemptAt != AddPeriods(plan, 1, s.nextAttemptAt)
  {
    var run := failures + [charge];
    assert run[..|run| - 1] == failures && run[|run| - 1] == charge;
    DueRunPrefix(s, plan, policy, run);
    FailuresDelay(s, plan, policy, failures);
    ScheduleKeptIff(s, plan, policy, failures, charge);
  }

  lemma OneFailureThenCharge(s: Sub, plan: Plan, policy: Policy, failed: Instant, tx: PullTx)
    requires s.status == Active && s.pending.None? && s.nextAttemptAt <= failed
    ensures var failure, charge := Attempt(failed, OperatorFailure), Attempt(failed + OPERATOR_RETRY, Charge(tx, 0));
            && DueRun(s, plan, policy, [failure] + [charge]) && Charges([failure]) == 0
            && AfterAttempts(s, plan, policy, [failure]).nextAttemptAt == failed + OPERATOR_RETRY
  {
    var failure, charge := Attempt(failed, OperatorFailure), Attempt(failed + OPERATOR_RETRY, Charge(tx, 0));
    var run := [failure] + [charge];
    assert [failure][..0] == [] && run[..0] == [] && run[..1] == [failure];
    assert AfterAttempts(s, plan, policy, [failure]) == FailedSub(s, policy, failed, true);
  }

  /** A monthly plan can lose it, and can keep it by coincidence: due on January 30 at noon, a retry at
      five past twelve loses it, and one at noon of January 31 lands on the same February 28. */
  lemma MonthPlanMayLoseOrKeep(user: Address, policy: Policy, tx: PullTx)
    ensures var plan := Plan("pro", Atomic(1), 1, "month", true);
            var due := At(Date(EPOCH_MONTH, 30), 12 * 3600);
            var s := NewSub(user, "pro", due);
            var lost, kept := due, At(Date(EPOCH_MONTH, 31), 12 * 3600) - OPERATOR_RETRY;
            && AfterAttempts(s, plan, policy, [Attempt(lost, OperatorFailure)] + [Attempt(lost + OPERATOR_RETRY, Charge(tx, 0))]).nextAttemptAt
               != AddPeriods(plan, 1, due)
            && AfterAttempts(s, plan, policy, [Attempt(kept, OperatorFailure)] + [Attempt(kept + OPERATOR_RETRY, Charge(tx, 0))]).nextAttemptAt
               == AddPeriods(plan, 1, due)
  {
    var plan := Plan("pro", Atomic(1), 1, "month", true);
    var due := At(Date(EPOCH_MONTH, 30), 12 * 3600);
    var s := NewSub(user, "pro", due);
    var lost, kept := due, At(Date(EPOCH_MONTH, 31), 12 * 3600) - OPERATOR_RETRY;
    AtRoundTrip(Date(EPOCH_MONTH, 30), 12 * 3600);
    AtRoundTrip(Date(EPOCH_MONTH, 31), 12 * 3600);
    AtRoundTrip(Date(EPOCH_MONTH, 30), 12 * 3600 + 300);
    assert lost + OPERATOR_RETRY == At(Date(EPOCH_MONTH, 30), 12 * 3600 + 300);
    OneFailureThenCharge(s, plan, policy, lost, tx);
    OneFailureThenCharge(s, plan, policy, kept, tx);
    ScheduleKeptIff(s, plan, policy, [Attempt(lost, OperatorFailure)], Attempt(lost + OPERATOR_RETRY, Charge(tx, 0)));
    ScheduleKeptIff(s, plan, policy, [Attempt(kept, OperatorFailure)], Attempt(kept + OPERATOR_RETRY, Charge(tx, 0)));
  }

  // ---------- dunning ----------

  /** The user-side failures since the last charge. */
  function UserFailures(run: seq<Attempt>): nat {
    if run == [] || run[|run| - 1].outcome.Charge? then 0
    else UserFailures(run[..|run| - 1]) + (if run[|run| - 1].outcome.UserFailure? then 1 else 0)
  }

  function SumFirst(backoffs: seq<nat>, n: nat): nat
    requires n <= |backoffs|
  {
    if n == 0 then 0 else SumFirst(backoffs, n - 1) + backoffs[n - 1]
  }

  /** When the first of them was. */
  function FirstFailure(run: seq<Attempt>): Option<Instant> {
    if run == [] || run[|run| - 1].outcome.Charge? then None
    else
      var earlier := FirstFailure(run[..|run| - 1]);
      if earlier.Some? then earlier
      else if run[|run| - 1].outcome.UserFailure? then Some(run[|run| - 1].now)
      else None
  }

  predicate GoodStanding(s: Sub) {
    s.status == Active && s.dunningAttempts == 0
  }

  /** From a clean active subscription, every run: the user-side failures since the last charge alone
      fix the retries used and the status. None and it is active, so a charge wipes the slate; one past
      the last delay and it is cancelled; in between it is past due. */
  lemma {:induction false} DunningCounts(s: Sub, plan: Plan, policy: Policy, run: seq<Attempt>)
    requires DueRun(s, plan, policy, run) && GoodStanding(s)
    ensures var last := AfterAttempts(s, plan, policy, run);
            && UserFailures(run) <= |policy.backoffs| + 1
            && last.dunningAttempts == UserFailures(run)
            && (last.status == Active <==> UserFailures(run) == 0)
            && (last.status == Cancelled <==> UserFailures(run) == |policy.backoffs| + 1)
  {
    if run != [] {
      DueRunPrefix(s, plan, policy, run);
      DunningCounts(s, plan, policy, run[..|run| - 1]);
    }
  }

  /** One more attempt keeps the wait. */
  lemma OneMoreWait(s: Sub, plan: Plan, policy: Policy, a: Attempt, failures: nat, first: Option<Instant>)
    requires Due(s, a.now) && s.pending.None?
    requires s.dunningAttempts == failures && (s.status == Active <==> failures == 0) && (first.Some? <==> failures > 0)
    requires s.status == PastDue ==>
               failures <= |policy.backoffs| && first.value + SumFirst(policy.backoffs, failures) <= s.nextAttemptAt
    ensures var after := AfterAttempt(s, plan, policy, a);
            var failures' := if a.outcome.Charge? then 0 else if a.outcome.UserFailure? then failures + 1 else failures;
            var first' := if a.outcome.Charge? then None else if first.Some? then first
                          else if a.outcome.UserFailure? then Some(a.now) else None;
            && (first'.Some? <==> failures' > 0)
            && (after.status == PastDue ==>
                  failures' <= |policy.backoffs|
                  && first'.value + SumFirst(policy.backoffs, failures') <= after.nextAttemptAt)
  {
  }

  /** The retries wait out their delays: after f failures the next attempt is at least the sum of
      the first f delays after the first failure. */
  lemma {:induction false} RetriesWait(s: Sub, plan: Plan, policy: Policy, run: seq<Attempt>)
    requires DueRun(s, plan, policy, run) && GoodStanding(s)
    ensures FirstFailure(run).Some? <==> UserFailures(run) > 0
    ensures var last, f := AfterAttempts(s, plan, policy, run), UserFailures(run);
            last.status == PastDue
            ==> f <= |policy.backoffs|
                && FirstFailure(run).Some?
                && FirstFailure(run).value + SumFirst(policy.backoffs, f) <= last.nextAttemptAt
  {
    if run != [] {
      var front := run[..|run| - 1];
      DueRunPrefix(s, plan, policy, run);
      RetriesWait(s, plan, policy, front);
      DunningCounts(s, plan, policy, front);
      NoStashAppears(s, plan, policy, front);
      OneMoreWait(AfterAttempts(s, plan, policy, front), plan, policy, run[|run| - 1], UserFailures(front), FirstFailure(front));
    }
  }

  /** The attempt that cancels is the user-side failure after the last delay. */
  lemma CancelledByLastFailure(s: Sub, plan: Plan, policy: Policy, run: seq<Attempt>)
    requires DueRun(s, plan, policy, run) && run != [] && GoodStanding(s)
    requires AfterAttempts(s, plan, policy, run).status == Cancelled
    ensures UserFailures(run[..|run| - 1]) == |policy.backoffs| && run[|run| - 1].outcome.UserFailure?
    ensures AfterAttempts(s, plan, policy, run[..|run| - 1]).status == if policy.backoffs == [] then Active else PastDue
  {
    var front := run[..|run| - 1];
    DueRunPrefix(s, plan, policy, run);
    DunningCounts(s, plan, policy, run);
    DunningCounts(s, plan, policy, front);
  }

  /** So no user is cancelled before all the delays have passed since the first failed charge. */
  lemma CancellationWaits(s: Sub, plan: Plan, policy: Policy, run: seq<Attempt>)
    requires DueRun(s, plan, policy, run) && run != [] && GoodStanding(s)
    requires AfterAttempts(s, plan, policy, run).status == Cancelled
    ensures FirstFailure(run).Some?
    ensures FirstFailure(run).value + SumFirst(policy.backoffs, |policy.backoffs|) <= run[|run| - 1].now
  {
    var front := run[..|run| - 1];
    CancelledByLastFailure(s, plan, policy, run);
    DueRunPrefix(s, plan, policy, run);
    RetriesWait(s, plan, policy, front);
    NoStashAppears(s, plan, policy, front);
  }

  /** Every attempt is made the moment it is due. */
  predicate Prompt(s: Sub, plan: Plan, policy: Policy, run: seq<Attempt>) {
    forall i | 0 <= i < |run| :: run[i].now == AfterAttempts(s, plan, policy, run[..i]).nextAttemptAt
  }

  lemma PromptPrefix(s: Sub, plan: Plan, policy: Policy, run: seq<Attempt>)
    requires Prompt(s, plan, policy, run) && run != []
    ensures Prompt(s, plan, policy, run[..|run| - 1])
    ensures run[|run| - 1].now == AfterAttempts(s, plan, policy, run[..|run| - 1]).nextAttemptAt
  {
    var front := run[..|run| - 1];
    forall i | 0 <= i < |front| ensures front[i].now == AfterAttempts(s, plan, policy, front[..i]).nextAttemptAt {
      assert front[..i] == run[..i];
    }
  }

  /** The sum of the delays used, and five minutes for each operator-side failure. */
  function Delay(policy: Policy, userFailures: nat, operatorFailures: nat): nat {
    SumFirst(policy.backoffs, if userFailures <= |policy.backoffs| then userFailures else |policy.backoffs|)
    + operatorFailures * 300_000_000_000
  }

  lemma OnePromptRetry(s: Sub, plan: Plan, policy: Policy, a: Attempt, due: Instant, users: nat, operators: nat)
    requires Due(s, a.now) && !a.outcome.Charge? && a.now == s.nextAttemptAt && s.dunningAttempts == users
    requires s.nextAttemptAt == due + Delay(policy, users, operators)
    ensures var after := AfterAttempt(s, plan, policy, a);
            Billable(after) ==>
              after.nextAttemptAt == due + if a.outcome.UserFailure? then Delay(policy, users + 1, operators)
                                           else Delay(policy, users, operators + 1)
  {
  }

  /** Of prompt attempts the delays are exact: while it is still billable, the subscription is next due
      that much after its due time. */
  lemma {:induction false} PromptRetries(s: Sub, plan: Plan, policy: Policy, run: seq<Attempt>)
    requires DueRun(s, plan, policy, run) && GoodStanding(s) && Prompt(s, plan, policy, run) && Charges(run) == 0
    requires Billable(AfterAttempts(s, plan, policy, run))
    ensures AfterAttempts(s, plan, policy, run).nextAttemptAt
         == s.nextAttemptAt + Delay(policy, UserFailures(run), OperatorFailures(run))
  {
    if run != [] {
      var front := run[..|run| - 1];
      DueRunPrefix(s, plan, policy, run);
      PromptPrefix(s, plan, policy, run);
      PromptRetries(s, plan, policy, front);
      DunningCounts(s, plan, policy, front);
      OnePromptRetry(AfterAttempts(s, plan, policy, front), plan, policy, run[|run| - 1], s.nextAttemptAt,
                     UserFailures(front), OperatorFailures(front));
    }
  }

  // ---------- what the record says of the past ----------

  function LastCharge(run: seq<Attempt>): Option<Attempt> {
    if run == [] then None
    else if run[|run| - 1].outcome.Charge? then Some(run[|run| - 1])
    else LastCharge(run[..|run| - 1])
  }

  lemma ChargeIsLast(run: seq<Attempt>)
    ensures LastCharge(run).Some? ==> LastCharge(run).value.outcome.Charge?
  {
  }

  /** Every run leaves the user, the plan and the stash as they were, nothing in flight, and its last
      charge on record. */
  lemma {:induction false} RecordsLastCharge(s: Sub, plan: Plan, policy: Policy, run: seq<Attempt>)
    requires s.inFlight.None?
    ensures var last, charge := AfterAttempts(s, plan, policy, run), LastCharge(run);
            && last.user == s.user && last.planId == s.planId && last.pending == s.pending && last.inFlight.None?
            && (charge.None? ==> last.lastChargedAt == s.lastChargedAt && last.lastChargedTx == s.lastChargedTx
                                 && last.lastChargedBlock == s.lastChargedBlock)
            && (charge.Some? ==> last.lastChargedTx.Some?
                                 && charge.value == Attempt(last.lastChargedAt, Charge(last.lastChargedTx.value, last.lastChargedBlock)))
  {
    ChargeIsLast(run);
    if run != [] {
      RecordsLastCharge(s, plan, policy, run[..|run| - 1]);
      ChargeIsLast(run[..|run| - 1]);
    }
  }
}
