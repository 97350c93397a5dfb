/** What every run of the charge engine keeps: exactly-once booking, prices, and the billing dates. */
module EngineRuns {
  import opened Records
  import opened Calendar
  import opened Token
  import opened Billing
  import opened Engine

  ghost predicate Reaches(w: World, events: seq<Event>, last: World)
    decreases |events|
  {
    if events == [] then last == w
    else Enabled(w, events[0]) && Reaches(Next(w, events[0]), events[1..], last)
  }

  /** A run all of whose steps keep the books; between faults that do no harm it may contain any
      number of crashes, which change nothing that is persisted. */
  ghost predicate CleanRun(w: World, events: seq<Event>, last: World)
    decreases |events|
  {
    if events == [] then last == w
    else Enabled(w, events[0]) && Clean(w, events[0]) && CleanRun(Next(w, events[0]), events[1..], last)
  }

  lemma {:induction false} ReachesAppend(w: World, events: seq<Event>, mid: World, e: Event)
    requires Reaches(w, events, mid) && Enabled(mid, e)
    ensures Reaches(w, events + [e], Next(mid, e))
    decreases |events|
  {
    if events == [] {
      assert [e][1..] == [];
      assert events + [e] == [e];
    } else {
      assert (events + [e])[1..] == events[1..] + [e];
      ReachesAppend(Next(w, events[0]), events[1..], mid, e);
    }
  }

  lemma {:induction false} ReachesTrans(w: World, a: seq<Event>, mid: World, b: seq<Event>, last: World)
    requires Reaches(w, a, mid) && Reaches(mid, b, last)
    ensures Reaches(w, a + b, last)
    decreases |a|
  {
    if a == [] {
      assert a + b == b;
    } else {
      assert (a + b)[1..] == a[1..] + b;
      ReachesTrans(Next(w, a[0]), a[1..], mid, b, last);
    }
  }

  /** A service that starts with nothing broadcast and nothing in flight. */
  predicate Fresh(w: World) {
    && w.offered == {} && w.mined == [] && w.ledger == []
    && (forall user | user in w.subs :: w.subs[user].user == user && w.subs[user].inFlight.None?)
    && (forall id | id in w.plans :: w.plans[id].id == id)
  }

  lemma FreshIsSafe(w: World)
    requires Fresh(w)
    ensures Safe(w)
  {
  }

  lemma SafeIsExactlyOnce(w: World, user: Address)
    requires Safe(w)
    ensures ExactlyOnce(w, user)
  {
    assert Accounted(w.offered, w.mined, w.ledger, user, InFlight(w, user));
    var credits, unbooked := Credits(w.ledger, user), Unbooked(w.mined, InFlight(w, user), user);
    assert (credits + unbooked)[..|credits|] == credits;
    assert credits + [] == credits;
  }

  lemma {:induction false} CleanRunIsSafe(w: World, events: seq<Event>, last: World)
    requires Safe(w) && CleanRun(w, events, last)
    ensures Safe(last)
    decreases |events|
  {
    if events != [] {
      SafeIffClean(w, events[0]);
      CleanRunIsSafe(Next(w, events[0]), events[1..], last);
    }
  }

  /** Exactly-once charging: in every clean run of the whole service, every pull that mines for a
      user is booked once, in order and as what it was sent for; at most one is still to be booked,
      and then it is in flight. */
  lemma ExactlyOnceCharging(w: World, events: seq<Event>, last: World, user: Address)
    requires Fresh(w) && CleanRun(w, events, last)
    ensures ExactlyOnce(last, user)
    ensures InFlight(last, user).None? ==> Pulled(last.mined, user) == Credits(last.ledger, user)
  {
    FreshIsSafe(w);
    CleanRunIsSafe(w, events, last);
    SafeIsExactlyOnce(last, user);
  }

  // ---------- a step that is not clean really does lose or double a pull ----------

  function Subject(e: Event): Option<Address> {
    match e
    case Resolve(user) => Some(user)
    case Lost(tx) => Some(tx.user)
    case ReplaceFails(user, _) => Some(user)
    case NonceTooLow(user, _, _) => Some(user)
    case ResolveWithoutPlan(user) => Some(user)
    case Checkout(user, _) => Some(user)
    case _ => None
  }

  /** The transaction is next in line and its pull would go through. */
  predicate Ready(w: World, tx: PullTx) {
    tx.nonce == |w.mined| && Succeeds(w.chain, PullCall(w, tx))
  }

  lemma OrphanMines(w: World, user: Address, tx: PullTx)
    requires InFlight(w, user).None? && tx in w.offered && tx.user == user && Ready(w, tx)
    requires Pulled(w.mined, user) == Credits(w.ledger, user)
    ensures Enabled(w, Mine(tx, 0)) && !ExactlyOnce(Next(w, Mine(tx, 0)), user)
  {
    PulledAppend(w.mined, PullMined(tx, true, 0), user);
  }

  /** Partner of the main theorem: whenever a step is not clean, either the books are wrong at
      once, or they are as soon as the forgotten transaction mines. */
  lemma UncleanBreaksExactlyOnce(w: World, e: Event)
    requires Safe(w) && Enabled(w, e) && !Clean(w, e)
    requires e.Lost? ==> Ready(w, e.tx)
    requires Subject(e).Some? && InFlight(w, Subject(e).value).Some? && Live(w, InFlight(w, Subject(e).value).value)
             ==> Ready(w, InFlight(w, Subject(e).value).value)
    ensures Subject(e).Some?
    ensures var user, w' := Subject(e).value, Next(w, e);
            || !ExactlyOnce(w', user)
            || exists tx :: Enabled(w', Mine(tx, 0)) && !ExactlyOnce(Next(w', Mine(tx, 0)), user)
  {
    var user, w' := Subject(e).value, Next(w, e);
    var f := InFlight(w, user);
    assert Accounted(w.offered, w.mined, w.ledger, user, f);
    if e.Lost? {
      OrphanMines(w', user, e.tx);
    } else if w'.ledger != w.ledger {
      var booked := w'.ledger[|w.ledger|];
      BookingDiffers(w, w', user, booked);
    } else if |w.mined| <= f.value.nonce {
      OrphanMines(w', user, f.value);
    } else {
      assert |Pulled(w'.mined, user)| == |Credits(w'.ledger, user)| + 1;
    }
  }

  lemma BookingDiffers(w: World, w': World, user: Address, booked: Credit)
    requires Safe(w) && InFlight(w, user).Some? && ReceiptOf(w, InFlight(w, user).value).Some?
    requires w'.mined == w.mined && w'.ledger == w.ledger + [booked] && InFlight(w', user).None?
    requires booked.tx == InFlight(w, user).value
    requires !(ReceiptOf(w, booked.tx).value.success && booked.booked == booked.tx.purpose)
    ensures !ExactlyOnce(w', user)
  {
    assert Accounted(w.offered, w.mined, w.ledger, user, InFlight(w, user));
    BookingMatches(w.offered, w.mined, w.ledger, user, booked.tx, booked.booked);
  }

  // ---------- the amount booked is the plan's price ----------

  /** What is in flight as a renewal is for the current price of the subscriber's plan. */
  predicate Priced(w: World, user: Address) {
    InFlight(w, user).Some? && InFlight(w, user).value.purpose == Renewal
    ==> PlanOf(w, user).Some? && PlanOf(w, user).value.price == Atomic(InFlight(w, user).value.amount)
  }

  ghost predicate AllPriced(w: World) {
    forall user: Address :: Priced(w, user)
  }

  /** No price changes under a renewal in flight, by an edit of the plan or a change of plan. */
  ghost predicate PriceStable(w: World, e: Event)
    requires Enabled(w, e)
  {
    match e
    case UpsertPlan(plan) =>
      forall user: Address | user in w.subs && w.subs[user].planId == plan.id ::
        InFlight(w, user).Some? && InFlight(w, user).value.purpose == Renewal
        ==> plan.price == Atomic(InFlight(w, user).value.amount)
    case Subscribe(user, planId, _) =>
      InFlight(w, user).Some? && InFlight(w, user).value.purpose == Renewal
      ==> w.plans[planId].price == Atomic(InFlight(w, user).value.amount)
    case _ => true
  }

  lemma OthersStayPriced(w: World, e: Event, user: Address)
    requires Safe(w) && AllPriced(w) && Enabled(w, e) && Owner(e) != Some(user) && !e.UpsertPlan?
    ensures Priced(Next(w, e), user)
  {
    assert Priced(w, user);
    OthersUntouched(w, e, user);
    PlansStay(w, e);
  }

  lemma PlansStay(w: World, e: Event)
    requires Enabled(w, e) && !e.UpsertPlan?
    ensures Next(w, e).plans == w.plans
  {
  }

  lemma PricesKeptIffStable(w: World, e: Event)
    requires Safe(w) && AllPriced(w) && Enabled(w, e)
    ensures AllPriced(Next(w, e)) <==> PriceStable(w, e)
  {
    var w' := Next(w, e);
    if e.UpsertPlan? {
      PlanEditPrices(w, e.plan);
    } else {
      forall user: Address | Owner(e) != Some(user) ensures Priced(w', user) {
        OthersStayPriced(w, e, user);
      }
      if Owner(e).Some? {
        OwnPriceKept(w, e, Owner(e).value);
        assert AllPriced(w') <==> Priced(w', Owner(e).value);
      }
    }
  }

  lemma PlanEditPrices(w: World, plan: Plan)
    requires AllPriced(w)
    ensures AllPriced(Next(w, UpsertPlan(plan))) <==> PriceStable(w, UpsertPlan(plan))
  {
    var w' := Next(w, UpsertPlan(plan));
    forall user: Address
      ensures Priced(w', user)
              <==> (user in w.subs && w.subs[user].planId == plan.id
                    ==> InFlight(w, user).Some? && InFlight(w, user).value.purpose == Renewal
                        ==> plan.price == Atomic(InFlight(w, user).value.amount))
    {
      assert Priced(w, user);
    }
    if AllPriced(w') {
      forall user: Address | user in w.subs && w.subs[user].planId == plan.id
        ensures InFlight(w, user).Some? && InFlight(w, user).value.purpose == Renewal
                ==> plan.price == Atomic(InFlight(w, user).value.amount)
      {
        assert Priced(w', user);
      }
    }
  }

  lemma OwnPriceKept(w: World, e: Event, user: Address)
    requires Safe(w) && Enabled(w, e) && Owner(e) == Some(user) && AllPriced(w)
    ensures Priced(Next(w, e), user) <==> PriceStable(w, e)
  {
    assert Priced(w, user);
  }

  /** A renewal is booked only for a pull that mined successfully and moved exactly the plan's price
      from the user to the treasury, and booking it moves the due date on by one period. */
  lemma RenewalPaysThePrice(w: World, e: Event, c: Credit)
    requires Safe(w) && AllPriced(w) && Enabled(w, e) && Clean(w, e)
    requires Next(w, e).ledger == w.ledger + [c] && c.booked == Renewal
    ensures c.tx.user in w.subs && PlanOf(w, c.tx.user).Some? && c.tx.user in Next(w, e).subs
    ensures PulledAt(w.mined, c.tx.nonce, c.tx.user) && w.mined[c.tx.nonce].tx == c.tx
    ensures var s, plan := w.subs[c.tx.user], PlanOf(w, c.tx.user).value;
            && plan.price == Atomic(c.tx.amount)
            && Next(w, e).subs[c.tx.user].nextAttemptAt
               == AddPeriod(plan, if s.nextAttemptAt == ZERO_TIME then w.clock else s.nextAttemptAt)
  {
    assert (w.ledger + [c])[|w.ledger|] == c;
    BookingStep(w, e);
    assert Priced(w, e.user);
  }

  /** The amount has left the user's balance for the treasury's; a pull from the treasury itself
      moves nothing. */
  predicate Moved(before: World, after: World, user: Address, amount: nat) {
    var treasury := before.chain.contract.treasury;
    if user == treasury then after.chain.ledger.Balance(user) == before.chain.ledger.Balance(user)
    else
      && after.chain.ledger.Balance(user) == before.chain.ledger.Balance(user) - amount
      && after.chain.ledger.Balance(treasury) == before.chain.ledger.Balance(treasury) + amount
  }

  /** A pull that mines moves its amount, or nothing at all. */
  lemma MiningMovesTheAmount(w: World, tx: PullTx, block: nat)
    requires Enabled(w, Mine(tx, block))
    ensures var w' := Next(w, Mine(tx, block));
            if w'.mined[|w.mined|].success then Moved(w, w', tx.user, tx.amount) else w'.chain == w.chain
  {
    if Succeeds(w.chain, PullCall(w, tx)) {
      TransferMoves(w.chain.ledger, w.chain.contract.self, tx.user, w.chain.contract.treasury, tx.amount);
    }
  }

  // ---------- never over-billed, on the chain ----------

  /** Steps other than the API's edits of the user's record or of the plan it is on. */
  predicate LeftAlone(e: Event, user: Address, planId: string) {
    match e
    case UpsertPlan(plan) => plan.id != planId
    case Subscribe(u, _, _) => u != user
    case CancelSub(u) => u != user
    case Checkout(u, _) => u != user
    case _ => true
  }

  /** Where a record with no stashed charge stands after k bookings, counted from a first due time:
      the next due date, and the last booking, are not early. */
  predicate SubOnSchedule(s: Sub, clock: Instant, k: nat, plan: Plan, anchor: Instant) {
    && s.pending.None?
    && (s.inFlight.Some? ==> s.inFlight.value.purpose == Renewal && Due(s, clock))
    && DueNotBefore(s, AddPeriods(plan, k, anchor))
    && (k > 0 ==> DateAtMost(DateOf(AddPeriods(plan, k - 1, anchor)), DateOf(clock)))
  }

  predicate OnSchedule(w: World, user: Address, plan: Plan, anchor: Instant) {
    && user in w.subs && w.subs[user].planId == plan.id && PlanOf(w, user) == Some(plan)
    && SubOnSchedule(w.subs[user], w.clock, |Credits(w.ledger, user)|, plan, anchor)
  }

  lemma ChargeOnSchedule(s: Sub, plan: Plan, policy: Policy, now: Instant, tx: PullTx, block: nat, k: nat, anchor: Instant)
    requires SubOnSchedule(s, now, k, plan, anchor) && Due(s, now)
    ensures SubOnSchedule(ChargedSub(s, plan, now, tx, block), now, k + 1, plan, anchor)
  {
    AttemptKeepsFloor(s, plan, policy, Attempt(now, Charge(tx, block)), anchor, k);
    DatesChain(AddPeriods(plan, k, anchor), s.nextAttemptAt, now);
  }

  lemma FailureOnSchedule(s: Sub, plan: Plan, policy: Policy, now: Instant, operatorSide: bool, k: nat, anchor: Instant)
    requires SubOnSchedule(s, now, k, plan, anchor) && Due(s, now)
    ensures SubOnSchedule(FailedSub(s, policy, now, operatorSide), now, k, plan, anchor)
  {
    AttemptKeepsFloor(s, plan, policy, Attempt(now, if operatorSide then OperatorFailure else UserFailure), anchor, k);
  }

  lemma LaterOnSchedule(s: Sub, clock: Instant, later: Instant, k: nat, plan: Plan, anchor: Instant)
    requires SubOnSchedule(s, clock, k, plan, anchor) && clock <= later
    ensures SubOnSchedule(s, later, k, plan, anchor)
  {
    if k > 0 {
      DatesChain(AddPeriods(plan, k - 1, anchor), clock, later);
    }
  }

  lemma PlanLeftAlone(w: World, e: Event, user: Address, planId: string)
    requires Enabled(w, e) && LeftAlone(e, user, planId) && planId in w.plans
    ensures planId in Next(w, e).plans && Next(w, e).plans[planId] == w.plans[planId] && w.clock <= Next(w, e).clock
  {
  }

  lemma OthersStepOnSchedule(w: World, e: Event, user: Address, plan: Plan, anchor: Instant)
    requires Safe(w) && Enabled(w, e) && Owner(e) != Some(user)
    requires OnSchedule(w, user, plan, anchor) && LeftAlone(e, user, plan.id)
    ensures OnSchedule(Next(w, e), user, plan, anchor)
  {
    OthersUntouched(w, e, user);
    PlanLeftAlone(w, e, user, plan.id);
    LaterOnSchedule(w.subs[user], w.clock, Next(w, e).clock, |Credits(w.ledger, user)|, plan, anchor);
  }

  lemma StepOnSchedule(w: World, e: Event, user: Address, plan: Plan, anchor: Instant)
    requires Safe(w) && Enabled(w, e) && Clean(w, e)
    requires OnSchedule(w, user, plan, anchor) && LeftAlone(e, user, plan.id)
    ensures OnSchedule(Next(w, e), user, plan, anchor)
  {
    var w', k := Next(w, e), |Credits(w.ledger, user)|;
    if Owner(e) != Some(user) {
      OthersStepOnSchedule(w, e, user, plan, anchor);
    } else if w'.ledger != w.ledger {
      BookingStep(w, e);
      BookingOnSchedule(w, user, ReceiptOf(w, InFlight(w, user).value).value.block, plan, anchor);
    } else {
      OwnStepIsUnbilled(w, e, user, plan);
      UnbilledOnSchedule(w.subs[user], w'.subs[user], w.policy, w.clock, k, plan, anchor);
    }
  }

  lemma BookingOnSchedule(w: World, user: Address, block: nat, plan: Plan, anchor: Instant)
    requires OnSchedule(w, user, plan, anchor) && InFlight(w, user).Some? && InFlight(w, user).value.user == user
    ensures OnSchedule(Booked(w, user, Renewal, block), user, plan, anchor)
  {
    var t := InFlight(w, user).value;
    CreditsAppend(w.ledger, Credit(t, Renewal), user);
    ChargeOnSchedule(w.subs[user], plan, w.policy, w.clock, t, block, |Credits(w.ledger, user)|, anchor);
  }

  /** What a step that books nothing can make of its user's record. */
  predicate Unbilled(s: Sub, s': Sub, policy: Policy, clock: Instant) {
    || s' == FailedSub(s, policy, clock, true)
    || s' == FailedSub(s, policy, clock, false)
    || s' == CancelledSub(s, clock)
    || s' == s.(inFlight := None)
    || (s'.inFlight.Some? && s' == s.(inFlight := s'.inFlight) && s'.inFlight.value.purpose == Renewal)
  }

  lemma OwnStepIsUnbilled(w: World, e: Event, user: Address, plan: Plan)
    requires Safe(w) && Enabled(w, e) && Owner(e) == Some(user) && Next(w, e).ledger == w.ledger
    requires user in w.subs && w.subs[user].planId == plan.id && w.subs[user].pending.None? && LeftAlone(e, user, plan.id)
    requires InFlight(w, user).Some? ==> InFlight(w, user).value.purpose == Renewal && Due(w.subs[user], w.clock)
    ensures var w' := Next(w, e);
            && user in w'.subs && Unbilled(w.subs[user], w'.subs[user], w.policy, w.clock)
            && w'.plans == w.plans && w'.clock == w.clock
    ensures Due(w.subs[user], w.clock)
  {
    match e
    case Offer(_) =>
    case Replace(_) =>
    case Revert(_, _) =>
    case FailUnsent(_, _) =>
    case PlanGone(_) =>
    case DropStash(_) =>
    case ReplaceFails(_, _) =>
    case NonceTooLow(_, _, _) =>
    case ResolveWithoutPlan(_) =>
    case _ =>
  }

  lemma UnbilledOnSchedule(s: Sub, s': Sub, policy: Policy, clock: Instant, k: nat, plan: Plan, anchor: Instant)
    requires SubOnSchedule(s, clock, k, plan, anchor) && Unbilled(s, s', policy, clock) && Due(s, clock)
    ensures SubOnSchedule(s', clock, k, plan, anchor) && s'.planId == s.planId
  {
    FailureOnSchedule(s, plan, policy, clock, true, k, anchor);
    FailureOnSchedule(s, plan, policy, clock, false, k, anchor);
  }

  ghost predicate AloneRun(events: seq<Event>, user: Address, planId: string) {
    forall i | 0 <= i < |events| :: LeftAlone(events[i], user, planId)
  }

  lemma {:induction false} RunOnSchedule(w: World, events: seq<Event>, last: World, user: Address, plan: Plan, anchor: Instant)
    requires Safe(w) && CleanRun(w, events, last) && AloneRun(events, user, plan.id)
    requires OnSchedule(w, user, plan, anchor)
    ensures Safe(last) && OnSchedule(last, user, plan, anchor)
    decreases |events|
  {
    if events != [] {
      SafeIffClean(w, events[0]);
      StepOnSchedule(w, events[0], user, plan, anchor);
      RunOnSchedule(Next(w, events[0]), events[1..], last, user, plan, anchor);
    }
  }

  lemma PulledOnSchedule(w: World, user: Address, plan: Plan, anchor: Instant)
    requires Safe(w) && OnSchedule(w, user, plan, anchor)
    ensures var n := |Pulled(w.mined, user)|;
            n > 0 ==> DateAtMost(DateOf(AddPeriods(plan, n - 1, anchor)), DateOf(w.clock))
  {
    assert Accounted(w.offered, w.mined, w.ledger, user, InFlight(w, user));
    var k := |Credits(w.ledger, user)|;
    if |Pulled(w.mined, user)| == k + 1 {
      DatesChain(AddPeriods(plan, k, anchor), w.subs[user].nextAttemptAt, w.clock);
    }
  }

  /** Never over-billed, on the chain: in any clean run left to the scheduler, with any mix of late
      ticks, fee bumps, failures and crashes, once n pulls of a user have mined the n-th billing
      date counted from the first due time has come. */
  lemma NeverOverBilledOnChain(w: World, events: seq<Event>, last: World, user: Address, plan: Plan)
    requires Fresh(w) && CleanRun(w, events, last) && AloneRun(events, user, plan.id)
    requires user in w.subs && w.subs[user].pending.None?
    requires PlanOf(w, user) == Some(plan) && w.subs[user].planId == plan.id
    ensures var n := |Pulled(last.mined, user)|;
            n > 0 ==> DateAtMost(DateOf(AddPeriods(plan, n - 1, w.subs[user].nextAttemptAt)), DateOf(last.clock))
  {
    FreshIsSafe(w);
    RunOnSchedule(w, events, last, user, plan, w.subs[user].nextAttemptAt);
    PulledOnSchedule(last, user, plan, w.subs[user].nextAttemptAt);
  }
}
