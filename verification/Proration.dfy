/** Changing plans: the prorated upgrade charge, and how a plan request is merged into a record. */
module Proration {
  import opened Records
  import opened Calendar
  import opened Token
  import opened Billing

  const MAX_DURATION: int := 0x7FFF_FFFF_FFFF_FFFF

  /** The difference of two instants as a signed 64-bit duration, which saturates. */
  function Elapsed(t: Instant, since: Instant): int {
    var d := t - since;
    if d > MAX_DURATION then MAX_DURATION else if d < -MAX_DURATION - 1 then -MAX_DURATION - 1 else d
  }

  /** The price difference scaled to the rest of the cycle, cut to whole units. */
  function ProratedDiff(now: Instant, s: Sub, oldPlan: Option<Plan>, newPlan: Plan): Option<int> {
    if oldPlan.None? then None
    else if s.lastChargedAt == ZERO_TIME || s.nextAttemptAt <= s.lastChargedAt then None
    else
      var cycle := Elapsed(s.nextAttemptAt, s.lastChargedAt);
      var remaining := Elapsed(s.nextAttemptAt, now);
      if remaining <= 0 then None
      else if oldPlan.value.price.Malformed? || newPlan.price.Malformed? then None
      else
        var priceDiff := newPlan.price.value - oldPlan.value.price.value;
        if priceDiff <= 0 then None else Some(priceDiff * remaining / cycle)
  }

  /** The record a plan request leaves behind, and whether anything material changed. */
  function AppliedPlan(existing: Option<Sub>, oldPlan: Option<Plan>, newPlan: Plan,
                       user: Address, startAt: Instant, now: Instant): (Sub, bool)
  {
    var start := if startAt == ZERO_TIME then now else startAt;
    if existing.None? then
      (NewSub(user, newPlan.id, start), true)
    else
      var s := existing.value;
      if s.planId == newPlan.id then
        if s.status == Cancelled then (s.(status := Active, nextAttemptAt := start), true) else (s, false)
      else
        var diff := ProratedDiff(now, s, oldPlan, newPlan);
        var stashed := if diff.Some? && diff.value > 0 then s.(pending := Some(Atomic(diff.value))) else s;
        (stashed.(planId := newPlan.id, status := Active, dunningAttempts := 0), true)
  }

  // ---------- bounds ----------

  lemma ProductOrder(x: int, y: int, c: nat)
    ensures x <= y ==> x * c <= y * c
  {
  }

  lemma OneMore(q: int, c: int)
    ensures (q + 1) * c == q * c + c
  {
  }

  lemma QuotientAtMost(num: nat, cycle: nat, high: nat, product: int)
    requires 0 < cycle && product == high * cycle
    ensures num / cycle <= high <==> num < product + cycle
  {
    var q := num / cycle;
    assert num == q * cycle + num % cycle;
    if q <= high {
      ProductOrder(q, high, cycle);
    } else {
      ProductOrder(high + 1, q, cycle);
      OneMore(high, cycle);
    }
  }

  lemma QuotientAtLeast(num: nat, cycle: nat, low: nat, product: int)
    requires 0 < cycle && product == low * cycle
    ensures low <= num / cycle <==> product <= num
  {
    var q := num / cycle;
    assert num == q * cycle + num % cycle;
    if low <= q {
      ProductOrder(low, q, cycle);
    } else {
      ProductOrder(q + 1, low, cycle);
      OneMore(q, cycle);
    }
  }

  /** A part of a cycle scales an amount to at most itself, and beyond the cycle only so far as the
      cut to whole units hides it. */
  lemma ScaledWithinIff(p: nat, remaining: nat, cycle: nat)
    requires 0 < cycle
    ensures 0 <= p * remaining / cycle
    ensures p * remaining / cycle <= p <==> p * remaining - p * cycle < cycle
  {
    QuotientAtMost(p * remaining, cycle, p, p * cycle);
    QuotientAtLeast(p * remaining, cycle, 0, 0);
  }

  lemma QuotientMonotone(a: nat, b: nat, cycle: nat)
    requires 0 < cycle && a <= b
    ensures a / cycle <= b / cycle
  {
    QuotientAtLeast(a, cycle, a / cycle, a / cycle * cycle);
    QuotientAtLeast(b, cycle, a / cycle, a / cycle * cycle);
  }

  /** Once the last charge is in the past, an upgrade costs between nothing and the full difference. */
  lemma DiffWithinDifference(now: Instant, s: Sub, oldPlan: Plan, newPlan: Plan)
    requires s.lastChargedAt <= now
    ensures var diff := ProratedDiff(now, s, Some(oldPlan), newPlan);
            diff.Some? ==> 0 <= diff.value <= newPlan.price.value - oldPlan.price.value
  {
    DiffWithinRiseIff(now, s, oldPlan, newPlan);
    if ProratedDiff(now, s, Some(oldPlan), newPlan).Some? {
      var p := newPlan.price.value - oldPlan.price.value;
      var remaining, cycle := Elapsed(s.nextAttemptAt, now), Elapsed(s.nextAttemptAt, s.lastChargedAt);
      ProductOrder(remaining - cycle, 0, p);
    }
  }

  /** The exact condition: with p the rise in price, the difference charged stays within it if and only
      if p times the part of the remaining time that lies beyond the cycle is less than the cycle. */
  lemma DiffWithinRiseIff(now: Instant, s: Sub, oldPlan: Plan, newPlan: Plan)
    ensures var diff := ProratedDiff(now, s, Some(oldPlan), newPlan);
            var cycle, remaining := Elapsed(s.nextAttemptAt, s.lastChargedAt), Elapsed(s.nextAttemptAt, now);
            diff.Some? ==>
              var p := newPlan.price.value - oldPlan.price.value;
              0 <= diff.value && (diff.value <= p <==> (remaining - cycle) * p < cycle)
  {
    if ProratedDiff(now, s, Some(oldPlan), newPlan).Some? {
      var p := newPlan.price.value - oldPlan.price.value;
      var remaining, cycle := Elapsed(s.nextAttemptAt, now), Elapsed(s.nextAttemptAt, s.lastChargedAt);
      ScaledWithinIff(p, remaining, cycle);
      DistributeMinus(remaining, cycle, p);
    }
  }

  lemma DistributeMinus(x: int, y: int, c: int)
    ensures (x - y) * c == c * x - c * y
  {
  }

  // ---------- when there is a difference, and how large ----------

  predicate Rises(oldPlan: Option<Plan>, newPlan: Plan) {
    && oldPlan.Some? && oldPlan.value.price.Atomic? && newPlan.price.Atomic?
    && oldPlan.value.price.value < newPlan.price.value
  }

  /** A difference is charged exactly for a rise in price inside a cycle: the last charge is known and
      before the due time, and so is now. */
  lemma ChargedWhen(now: Instant, s: Sub, oldPlan: Option<Plan>, newPlan: Plan)
    ensures ProratedDiff(now, s, oldPlan, newPlan).Some?
            <==> Rises(oldPlan, newPlan) && s.lastChargedAt != ZERO_TIME
                 && s.lastChargedAt < s.nextAttemptAt && now < s.nextAttemptAt
  {
  }

  /** The difference is to the rise as the time left is to the cycle, cut to whole units; a time past
      292 years counts as the longest duration. */
  lemma ShareOfTheRise(now: Instant, s: Sub, oldPlan: Option<Plan>, newPlan: Plan)
    ensures var diff := ProratedDiff(now, s, oldPlan, newPlan);
            diff.Some? ==>
              var p, cycle, left := newPlan.price.value - oldPlan.value.price.value,
                                    Min(s.nextAttemptAt - s.lastChargedAt, 0x7FFF_FFFF_FFFF_FFFF), Min(s.nextAttemptAt - now, 0x7FFF_FFFF_FFFF_FFFF);
              && 0 < cycle && 0 < left
              && diff.value * cycle <= p * left < (diff.value + 1) * cycle
              && (s.lastChargedAt == now ==> diff.value == p)
  {
    var diff := ProratedDiff(now, s, oldPlan, newPlan);
    if diff.Some? {
      var p, cycle, left := newPlan.price.value - oldPlan.value.price.value,
                            Min(s.nextAttemptAt - s.lastChargedAt, MAX_DURATION), Min(s.nextAttemptAt - now, MAX_DURATION);
      QuotientSandwich(p * left, cycle);
      WholeShare(p, cycle);
    }
  }

  lemma QuotientSandwich(num: nat, cycle: nat)
    requires 0 < cycle
    ensures num / cycle * cycle <= num < (num / cycle + 1) * cycle
  {
    OneMore(num / cycle, cycle);
  }

  lemma WholeShare(p: nat, cycle: nat)
    requires 0 < cycle
    ensures p * cycle / cycle == p
  {
    QuotientAtMost(p * cycle, cycle, p, p * cycle);
    QuotientAtLeast(p * cycle, cycle, p, p * cycle);
  }

  /** With a last charge still in the future of `now`, the upgrade costs more than the difference. */
  lemma FutureChargeOvercharges(user: Address)
    ensures var s := Sub(user, "basic", Active, 20, 10, None, 0, None, 0, None);
            ProratedDiff(0, s, Some(Plan("basic", Atomic(0), 1, "month", true)),
                         Plan("pro", Atomic(1), 1, "month", true)) == Some(2)
  {
  }

  /** Waiting never makes an upgrade dearer. */
  lemma DiffShrinks(earlier: Instant, later: Instant, s: Sub, oldPlan: Option<Plan>, newPlan: Plan)
    requires earlier <= later
    ensures var d0, d1 := ProratedDiff(earlier, s, oldPlan, newPlan), ProratedDiff(later, s, oldPlan, newPlan);
            d1.Some? ==> d0.Some? && d1.value <= d0.value
  {
    if ProratedDiff(later, s, oldPlan, newPlan).Some? {
      var p := newPlan.price.value - oldPlan.value.price.value;
      var r0, r1 := Elapsed(s.nextAttemptAt, earlier), Elapsed(s.nextAttemptAt, later);
      ProductOrder(r1, r0, p);
      QuotientMonotone(p * r1, p * r0, Elapsed(s.nextAttemptAt, s.lastChargedAt));
    }
  }

  lemma Distribute(x: nat, y: nat, c: nat)
    ensures (x + y) * c == x * c + y * c
  {
  }

  lemma SplitQuotient(a: nat, b: nat, cycle: nat)
    requires 0 < cycle
    ensures a / cycle + b / cycle <= (a + b) / cycle <= a / cycle + b / cycle + 1
  {
    var qa, qb := a / cycle, b / cycle;
    QuotientAtLeast(a, cycle, qa, qa * cycle);
    QuotientAtLeast(b, cycle, qb, qb * cycle);
    QuotientAtMost(a, cycle, qa, qa * cycle);
    QuotientAtMost(b, cycle, qb, qb * cycle);
    Distribute(qa, qb, cycle);
    OneMore(qa + qb, cycle);
    QuotientAtLeast(a + b, cycle, qa + qb, (qa + qb) * cycle);
    QuotientAtMost(a + b, cycle, qa + qb + 1, (qa + qb + 1) * cycle);
  }

  lemma SplitRise(d1: nat, d2: nat, remaining: nat, cycle: nat)
    requires 0 < cycle
    ensures d1 * remaining / cycle + d2 * remaining / cycle <= (d1 + d2) * remaining / cycle
            <= d1 * remaining / cycle + d2 * remaining / cycle + 1
  {
    Distribute(d1, d2, remaining);
    SplitQuotient(d1 * remaining, d2 * remaining, cycle);
  }

  /** Going up in two steps at one instant costs at most one unit less than going up at once. */
  lemma SplitLosesAtMostOne(now: Instant, s: Sub, p0: Plan, p1: Plan, p2: Plan)
    requires p0.price.Atomic? && p1.price.Atomic? && p2.price.Atomic?
    requires p0.price.value < p1.price.value < p2.price.value
    ensures var whole, first, second := ProratedDiff(now, s, Some(p0), p2),
                                        ProratedDiff(now, s, Some(p0), p1), ProratedDiff(now, s, Some(p1), p2);
            && (whole.Some? <==> first.Some? && second.Some?)
            && (whole.Some? ==> first.value + second.value <= whole.value <= first.value + second.value + 1)
  {
    if ProratedDiff(now, s, Some(p0), p2).Some? {
      var r, c := Elapsed(s.nextAttemptAt, now), Elapsed(s.nextAttemptAt, s.lastChargedAt);
      var d1, d2 := p1.price.value - p0.price.value, p2.price.value - p1.price.value;
      SplitRise(d1, d2, r, c);
      assert d1 + d2 == p2.price.value - p0.price.value;
    }
  }

  // ---------- a cycle of upgrades ----------

  /** Within one cycle the plan goes up, or the stashed charge is pulled in one call. */
  datatype CycleEvent = Upgrade(plan: Plan, at: Instant) | Settle(at: Instant, block: nat)

  datatype Cycle = Cycle(s: Sub, plan: Plan, now: Instant, pulled: int)

  predicate Possible(c: Cycle, e: CycleEvent) {
    && c.now <= e.at
    && match e
       case Upgrade(plan, _) =>
         && plan.id != c.plan.id && plan.price.Atomic? && c.plan.price.Atomic?
         && c.plan.price.value < plan.price.value
       case Settle(_, _) => c.s.pending.Some? && c.s.pending.value.Atomic?
  }

  function AfterEvent(c: Cycle, e: CycleEvent): Cycle
    requires Possible(c, e) && c.plan.price.Atomic?
  {
    match e
    case Upgrade(plan, at) =>
      Cycle(AppliedPlan(Some(c.s), Some(c.plan), plan, c.s.user, ZERO_TIME, at).0, plan, at, c.pulled)
    case Settle(at, block) =>
      Cycle(SettledSub(c.s, at, block), c.plan, at, c.pulled + c.s.pending.value.value)
  }

  ghost predicate CycleRun(c: Cycle, run: seq<CycleEvent>, last: Cycle)
    requires c.plan.price.Atomic?
    decreases |run|
  {
    if run == [] then last == c
    else Possible(c, run[0]) && CycleRun(AfterEvent(c, run[0]), run[1..], last)
  }

  predicate Stashed(s: Sub, amount: int) {
    if s.pending.None? then amount == 0 else s.pending == Some(Atomic(amount)) && 0 <= amount
  }

  /** What was pulled plus what is stashed is covered by the rise in price. */
  predicate Covered(c: Cycle, startPrice: int, stash: int) {
    && c.plan.price.Atomic? && c.s.planId == c.plan.id
    && c.s.lastChargedAt <= c.now
    && Stashed(c.s, stash)
    && c.pulled + stash <= c.plan.price.value - startPrice
  }

  /** However a user climbs the plans within one cycle, with stashed charges pulled or overwritten
      on the way, what is pulled pro rata never exceeds the final price less the first. */
  lemma {:induction false} UpgradesNeverOvercharge(c: Cycle, run: seq<CycleEvent>, last: Cycle, startPrice: int, stash: int)
    requires Covered(c, startPrice, stash) && CycleRun(c, run, last)
    ensures last.plan.price.Atomic? && last.pulled <= last.plan.price.value - startPrice
    decreases |run|
  {
    if run != [] {
      var next := AfterEvent(c, run[0]);
      match run[0] {
        case Settle(_, _) =>
          UpgradesNeverOvercharge(next, run[1..], last, startPrice, 0);
        case Upgrade(plan, at) =>
          DiffWithinDifference(at, c.s, c.plan, plan);
          var diff := ProratedDiff(at, c.s, Some(c.plan), plan);
          UpgradesNeverOvercharge(next, run[1..], last, startPrice,
                                  if diff.Some? && diff.value > 0 then diff.value else stash);
      }
    }
  }

  /** And the billing date never moves: a cycle of upgrades and settlements leaves the due date where
      the last renewal put it. */
  lemma {:induction false} CycleKeepsDueDate(c: Cycle, run: seq<CycleEvent>, last: Cycle)
    requires c.plan.price.Atomic? && c.s.planId == c.plan.id && CycleRun(c, run, last)
    ensures last.s.nextAttemptAt == c.s.nextAttemptAt
    ensures c.s.status == Active ==> last.s.status == Active
    ensures c.s.dunningAttempts == 0 ==> last.s.dunningAttempts == 0
    ensures last.s.user == c.s.user && last.s.planId == last.plan.id
    decreases |run|
  {
    if run != [] {
      CycleKeepsDueDate(AfterEvent(c, run[0]), run[1..], last);
    }
  }

  // ---------- what a plan request leaves of the record ----------

  /** A request for the plan of a subscription that is not cancelled changes nothing. A cancelled one
      is active again and due at the start, and its retries stay used. */
  lemma SamePlanAgain(s: Sub, oldPlan: Option<Plan>, newPlan: Plan, startAt: Instant, now: Instant)
    requires s.planId == newPlan.id
    ensures var (after, changed) := AppliedPlan(Some(s), oldPlan, newPlan, s.user, startAt, now);
            && (changed <==> s.status == Cancelled)
            && (s.status != Cancelled ==> after == s)
            && (s.status == Cancelled ==>
                  && after.status == Active
                  && (forall t: Instant :: Due(after, t) <==> s.pending.Some? || (if startAt == ZERO_TIME then now else startAt) <= t)
                  && (forall policy: Policy, t: Instant :: FailedSub(after, policy, t, false).status == Cancelled
                        <==> s.dunningAttempts < 0 || |policy.backoffs| <= s.dunningAttempts))
  {
  }

  /** A request for another plan keeps the due date and what is known of the last charge, and starts
      from no retries used. */
  lemma OtherPlanKeepsDueDate(s: Sub, oldPlan: Option<Plan>, newPlan: Plan, startAt: Instant, now: Instant)
    requires s.planId != newPlan.id
    ensures var (after, changed) := AppliedPlan(Some(s), oldPlan, newPlan, s.user, startAt, now);
            && changed && GoodStanding(after) && after.planId == newPlan.id
            && after.user == s.user && after.nextAttemptAt == s.nextAttemptAt && after.inFlight == s.inFlight
            && after.lastChargedAt == s.lastChargedAt && after.lastChargedTx == s.lastChargedTx
            && after.lastChargedBlock == s.lastChargedBlock
            && (after.pending != s.pending ==> Rises(oldPlan, newPlan) && s.lastChargedAt != ZERO_TIME
                                               && s.lastChargedAt < s.nextAttemptAt && now < s.nextAttemptAt)
  {
  }
}
