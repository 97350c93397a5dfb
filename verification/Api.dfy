/** Plan requests: merging a plan into the subscription record in memory. */
module Api {
  import opened Records
  import opened Calendar
  import opened Token
  import opened Billing
  import opened Proration
  import opened SubStore
  import opened Submitter

  /** Changes the existing record in place, or makes a new one. */
  method ApplyPlan(store: MemoryStore, existing: Subscription?, newPlan: Plan, user: Address, startAt: Instant, now: Instant)
    returns (sub: Subscription, changed: bool)
    modifies existing
    ensures existing != null ==> sub == existing
    ensures existing == null ==> fresh(sub)
    ensures (sub.Value(), changed)
            == (if existing == null then AppliedPlan(None, None, newPlan, user, startAt, now)
                else
                  var s := old(existing.Value());
                  AppliedPlan(Some(s), if s.planId in store.plans then Some(store.plans[s.planId]) else None,
                              newPlan, user, startAt, now))
  {
    var start := startAt;
    if start == ZERO_TIME {
      start := now;
    }
    if existing == null {
      sub := new Subscription.CopyOf(NewSub(user, newPlan.id, start));
      return sub, true;
    }
    sub := existing;
    if existing.planId == newPlan.id {
      if existing.status == Cancelled {
        existing.status := Active;
        existing.nextAttemptAt := start;
        return existing, true;
      }
      return existing, false;
    }
    var oldPlan := store.GetPlan(existing.planId);
    var diff := ProratedDiff(now, existing.Value(), oldPlan, newPlan);
    if diff.Some? && diff.value > 0 {
      existing.pending := Some(Atomic(diff.value));
    }
    existing.planId := newPlan.id;
    existing.status := Active;
    existing.dunningAttempts := 0;
    changed := true;
  }
}
