/** What the charge engine writes on a subscription's record: which steps move its due date, what its
    last charge says of the chain, and who is not charged at all. */
module EngineRecords {
  import opened Records
  import opened Calendar
  import opened Token
  import opened Billing
  import opened Proration
  import opened Engine
  import opened EngineRuns
  import opened EngineTraces

  // ---------- what moves a due date ----------

  /** A receipt is there to be booked for what is in flight. */
  predicate Books(w: World, e: Event)
    requires Enabled(w, e)
  {
    e.Confirm? || e.Resolve?
    || (e.NonceTooLow? && !e.lookupFails && ReceiptOf(w, InFlight(w, e.user).value).Some?)
  }

  /** A renewal booked, a failure, a cancellation, a subscription made or taken up again. */
  predicate MovesDueDate(w: World, e: Event)
    requires Enabled(w, e)
  {
    || (Books(w, e) && (e.Resolve? || InFlight(w, e.user).value.purpose == Renewal))
    || (e.NonceTooLow? && !Books(w, e))
    || e.Revert? || e.FailUnsent? || e.ReplaceFails? || e.PlanGone? || e.CancelSub? || e.Checkout?
    || (e.Subscribe? && (e.user !in w.subs || (w.subs[e.user].planId == e.planId && w.subs[e.user].status == Cancelled)))
  }

  ghost predicate DueDateKept(w: World, w': World, user: Address) {
    user in w.subs ==> user in w'.subs && w'.subs[user].nextAttemptAt == w.subs[user].nextAttemptAt
  }

  lemma OwnDueDateStays(w: World, e: Event, user: Address)
    requires Safe(w) && Enabled(w, e) && Owner(e) == Some(user) && !MovesDueDate(w, e)
    ensures DueDateKept(w, Next(w, e), user)
  {
    if e.Offer? || e.Replace? {
    } else if e.Subscribe? {
    } else if Books(w, e) {
    } else {
      assert e.DropStash? || e.ResolveWithoutPlan?;
    }
  }

  /** No other step of anyone moves a due date: not an offer, not a bump, not a settled or dropped
      stash, not a change of plan. */
  lemma DueDateStays(w: World, e: Event, user: Address)
    requires Safe(w) && Enabled(w, e) && (Owner(e) == Some(user) ==> !MovesDueDate(w, e))
    ensures DueDateKept(w, Next(w, e), user)
  {
    if Owner(e) == Some(user) {
      OwnDueDateStays(w, e, user);
    } else {
      OthersUntouched(w, e, user);
    }
  }

  /** Booking a settled stash keeps the due date, the status, the plan and the retries used. */
  lemma SettlingKeepsDueDate(w: World, e: Event, c: Credit)
    requires Safe(w) && Enabled(w, e) && Next(w, e).ledger == w.ledger + [c] && c.booked == Proration
    ensures var u, w' := c.tx.user, Next(w, e);
            && u in w.subs && u in w'.subs
            && w'.subs[u].nextAttemptAt == w.subs[u].nextAttemptAt && w'.subs[u].status == w.subs[u].status
            && w'.subs[u].planId == w.subs[u].planId && w'.subs[u].dunningAttempts == w.subs[u].dunningAttempts
            && w'.subs[u].pending.None?
  {
    assert (w.ledger + [c])[|w.ledger|] == c;
    BookingIsByOwner(w, e);
  }

  lemma BookingIsByOwner(w: World, e: Event)
    requires Safe(w) && Enabled(w, e) && Next(w, e).ledger != w.ledger
    ensures Books(w, e) && Owner(e) == Some(e.user) && InFlight(w, e.user).value.user == e.user
    ensures Next(w, e) == Booked(w, e.user, if e.Resolve? then Renewal else InFlight(w, e.user).value.purpose,
                                 ReceiptOf(w, InFlight(w, e.user).value).value.block)
  {
    assert Accounted(w.offered, w.mined, w.ledger, e.user, InFlight(w, e.user));
  }

  // ---------- a stash is settled by a pull of just its amount ----------

  predicate Matched(w: World, user: Address) {
    InFlight(w, user).Some? && InFlight(w, user).value.purpose == Proration
    ==> w.subs[user].pending == Some(Atomic(InFlight(w, user).value.amount))
  }

  ghost predicate AllMatched(w: World) {
    forall user: Address :: Matched(w, user)
  }

  /** No change of plan puts another difference in the place of a stash in flight. */
  predicate StashStable(w: World, e: Event)
    requires Enabled(w, e)
  {
    e.Subscribe? && InFlight(w, e.user).Some? && InFlight(w, e.user).value.purpose == Proration && Stashes(w, e.user, e.planId)
    ==> ProratedDiff(w.clock, w.subs[e.user], PlanOf(w, e.user), w.plans[e.planId]) == Some(InFlight(w, e.user).value.amount)
  }

  lemma OwnMatchIff(w: World, e: Event, user: Address)
    requires Safe(w) && Enabled(w, e) && Owner(e) == Some(user) && Matched(w, user)
    ensures Matched(Next(w, e), user) <==> StashStable(w, e)
  {
    if e.Offer? || e.Replace? {
    } else if e.Subscribe? {
    } else if e.DropStash? || e.CancelSub? {
    } else {
      assert InFlight(Next(w, e), user).None?;
    }
  }

  /** What is in flight for a stash stays for the stash on record exactly when no other difference takes
      its place. */
  lemma MatchedIffStable(w: World, e: Event)
    requires Safe(w) && AllMatched(w) && Enabled(w, e)
    ensures AllMatched(Next(w, e)) <==> StashStable(w, e)
  {
    forall user: Address | Owner(e) != Some(user) ensures Matched(Next(w, e), user) {
      assert Matched(w, user);
      OthersUntouched(w, e, user);
    }
    if Owner(e).Some? {
      assert Matched(w, Owner(e).value);
      OwnMatchIff(w, e, Owner(e).value);
    }
  }

  /** And then a settlement is booked only for a pull that mined and took exactly the stash it clears. */
  lemma SettlementPaysTheStash(w: World, e: Event, c: Credit)
    requires Safe(w) && AllMatched(w) && Enabled(w, e) && Clean(w, e)
    requires Next(w, e).ledger == w.ledger + [c] && c.booked == Proration
    ensures PulledAt(w.mined, c.tx.nonce, c.tx.user) && w.mined[c.tx.nonce].tx == c.tx
    ensures c.tx.user in w.subs && w.subs[c.tx.user].pending == Some(Atomic(c.tx.amount))
    ensures c.tx.user in Next(w, e).subs && Next(w, e).subs[c.tx.user].pending.None?
  {
    assert (w.ledger + [c])[|w.ledger|] == c;
    BookingStep(w, e);
    assert Matched(w, e.user);
  }

  // ---------- the last charge on record ----------

  /** The last charge on record is the latest of the user in the books, and the chain has it at the block
      on record. */
  predicate OnRecord(w: World, user: Address) {
    user in w.subs && w.subs[user].lastChargedTx.Some? ==>
      var tx, credits := w.subs[user].lastChargedTx.value, Credits(w.ledger, user);
      && credits != [] && credits[|credits| - 1].tx == tx
      && ReceiptOf(w, tx) == Some(PullMined(tx, true, w.subs[user].lastChargedBlock))
  }

  lemma ReceiptsStay(w: World, e: Event, tx: PullTx)
    requires Enabled(w, e) && ReceiptOf(w, tx).Some?
    ensures ReceiptOf(Next(w, e), tx) == ReceiptOf(w, tx)
  {
    MinedGrows(w, e);
  }

  lemma BookedIsOnRecord(w: World, e: Event)
    requires Safe(w) && Enabled(w, e) && Clean(w, e) && Next(w, e).ledger != w.ledger
    ensures OnRecord(Next(w, e), e.user) && Owner(e) == Some(e.user)
  {
    BookingStep(w, e);
    var t := InFlight(w, e.user).value;
    CreditsAppend(w.ledger, Credit(t, t.purpose), e.user);
  }

  lemma SameLastCharge(w: World, e: Event, user: Address)
    requires Safe(w) && Enabled(w, e) && Next(w, e).ledger == w.ledger && Owner(e) == Some(user)
    ensures user in Next(w, e).subs
    ensures var s' := Next(w, e).subs[user];
            s'.lastChargedTx.None?
            || (user in w.subs && s'.lastChargedTx == w.subs[user].lastChargedTx && s'.lastChargedBlock == w.subs[user].lastChargedBlock)
  {
    BooksGrow(w, e);
    if e.Offer? || e.Replace? {
    } else if e.Subscribe? || e.Checkout? {
    } else {
    }
  }

  lemma BooksGrow(w: World, e: Event)
    requires Enabled(w, e)
    ensures Books(w, e) ==> |Next(w, e).ledger| == |w.ledger| + 1
  {
  }

  lemma StepKeepsRecord(w: World, e: Event, user: Address)
    requires Safe(w) && Enabled(w, e) && Clean(w, e) && OnRecord(w, user)
    ensures OnRecord(Next(w, e), user)
  {
    if Owner(e) == Some(user) && Next(w, e).ledger != w.ledger {
      BookedIsOnRecord(w, e);
    } else {
      if Owner(e) == Some(user) {
        SameLastCharge(w, e, user);
      } else {
        OthersUntouched(w, e, user);
      }
      if user in w.subs && w.subs[user].lastChargedTx.Some? && ReceiptOf(w, w.subs[user].lastChargedTx.value).Some? {
        ReceiptsStay(w, e, w.subs[user].lastChargedTx.value);
      }
    }
  }

  /** In every clean run the last charge a record shows is a successful pull of that user on the chain,
      at the block it shows, and the latest one in the books. */
  lemma {:induction false} RecordShowsLastCharge(w: World, events: seq<Event>, last: World, user: Address)
    requires Safe(w) && OnRecord(w, user) && CleanRun(w, events, last)
    ensures OnRecord(last, user)
    decreases |events|
  {
    if events != [] {
      StepKeepsRecord(w, events[0], user);
      SafeIffClean(w, events[0]);
      RecordShowsLastCharge(Next(w, events[0]), events[1..], last, user);
    }
  }

  // ---------- who is not charged ----------

  /** Nothing of the user can mine, and nothing is due before a time. */
  predicate Idle(w: World, user: Address, until: Instant) {
    && user in w.subs && w.subs[user].inFlight.None?
    && (w.subs[user].status == Cancelled || (w.subs[user].pending.None? && until <= w.subs[user].nextAttemptAt))
    && (forall tx | tx in w.offered && tx.user == user :: tx.nonce < |w.mined|)
  }

  /** The user neither subscribes nor checks out. */
  predicate StaysAway(e: Event, user: Address) {
    !(e.Subscribe? && e.user == user) && !(e.Checkout? && e.user == user)
  }

  lemma IdleRecordStays(w: World, e: Event, user: Address, until: Instant)
    requires Enabled(w, e) && Idle(w, user, until) && w.clock < until && StaysAway(e, user)
    ensures user in Next(w, e).subs
    ensures Next(w, e).subs[user] == w.subs[user] || e == CancelSub(user) || e == DropStash(user)
    ensures forall tx | tx in Next(w, e).offered && tx.user == user :: tx in w.offered
  {
    if Owner(e) == Some(user) {
      assert !e.Offer? && !e.Replace?;
    } else if e.Lost? {
      assert e.tx.user != user;
    } else if Owner(e).None? {
    } else if e.Offer? || e.Replace? {
    } else if Books(w, e) {
    } else {
    }
  }

  lemma IdleIsNotMined(w: World, e: Event, user: Address, until: Instant)
    requires Enabled(w, e) && Idle(w, user, until)
    ensures Pulled(Next(w, e).mined, user) == Pulled(w.mined, user) && |w.mined| <= |Next(w, e).mined|
  {
    MinedGrows(w, e);
    if e.Mine? || e.MineOther? {
      PulledAppend(w.mined, Next(w, e).mined[|w.mined|], user);
    }
  }

  lemma IdleStays(w: World, e: Event, user: Address, until: Instant)
    requires Enabled(w, e) && Idle(w, user, until) && w.clock < until && StaysAway(e, user)
    ensures Idle(Next(w, e), user, until) && Pulled(Next(w, e).mined, user) == Pulled(w.mined, user)
    ensures w.subs[user].status == Cancelled ==> Next(w, e).subs[user].status == Cancelled
  {
    IdleRecordStays(w, e, user, until);
    IdleIsNotMined(w, e, user, until);
  }

  lemma {:induction false} ClockGrows(w: World, events: seq<Event>, last: World)
    requires Reaches(w, events, last)
    ensures w.clock <= last.clock
    decreases |events|
  {
    if events != [] {
      ClockGrows(Next(w, events[0]), events[1..], last);
    }
  }

  lemma {:induction false} IdleRun(w: World, events: seq<Event>, last: World, user: Address, until: Instant)
    requires Reaches(w, events, last) && Idle(w, user, until) && last.clock < until
    requires forall e | e in events :: StaysAway(e, user)
    ensures Pulled(last.mined, user) == Pulled(w.mined, user) && user in last.subs
    ensures w.subs[user].status == Cancelled ==> last.subs[user].status == Cancelled
    decreases |events|
  {
    if events != [] {
      ClockGrows(w, events, last);
      assert events[0] in events;
      IdleStays(w, events[0], user, until);
      IdleRun(Next(w, events[0]), events[1..], last, user, until);
    }
  }

  lemma ForgottenIsIdle(w: World, user: Address, until: Instant)
    requires Safe(w) && user in w.subs && w.subs[user].inFlight.None?
    requires w.subs[user].status == Cancelled || (w.subs[user].pending.None? && until <= w.subs[user].nextAttemptAt)
    ensures Idle(w, user, until)
  {
    assert Accounted(w.offered, w.mined, w.ledger, user, InFlight(w, user));
  }

  /** A cancelled user with nothing in flight is never pulled from again and stays cancelled, whatever
      the rest of the service does and whatever fails, until the user subscribes or checks out. */
  lemma CancelledIsNeverPulled(w: World, events: seq<Event>, last: World, user: Address)
    requires Safe(w) && Reaches(w, events, last) && forall e | e in events :: StaysAway(e, user)
    requires user in w.subs && w.subs[user].status == Cancelled && w.subs[user].inFlight.None?
    ensures Pulled(last.mined, user) == Pulled(w.mined, user)
    ensures user in last.subs && last.subs[user].status == Cancelled
  {
    ForgottenIsIdle(w, user, last.clock + 1);
    IdleRun(w, events, last, user, last.clock + 1);
  }

  /** The period paid at checkout is not charged again: no run pulls from the user before one period has
      passed, and at that time the subscription is due. */
  lemma PaidPeriodIsNotPulled(w: World, planId: string, events: seq<Event>, last: World, user: Address)
    requires Safe(w) && Enabled(w, Checkout(user, planId)) && Clean(w, Checkout(user, planId))
    requires Reaches(Next(w, Checkout(user, planId)), events, last) && forall e | e in events :: StaysAway(e, user)
    requires last.clock < AddPeriod(w.plans[planId], w.clock)
    ensures Pulled(last.mined, user) == Pulled(w.mined, user)
    ensures forall t: Instant :: Due(Next(w, Checkout(user, planId)).subs[user], t) <==> AddPeriod(w.plans[planId], w.clock) <= t
  {
    var start := Next(w, Checkout(user, planId));
    SafeIffClean(w, Checkout(user, planId));
    ForgottenIsIdle(start, user, AddPeriod(w.plans[planId], w.clock));
    IdleRun(start, events, last, user, AddPeriod(w.plans[planId], w.clock));
  }

  // ---------- cancelled, and then another plan ----------

  /** The same day a hundred years on, or March 1 in the place of a February 29 that is not there. */
  predicate CenturyOn(cancelled: Instant, due: Instant) {
    var d, r := DateOf(cancelled), DateOf(due);
    && due % DAY == cancelled % DAY
    && (r == Date(d.month + 1200, d.day) || (d.day == 29 && r == Date(d.month + 1201, 1)))
  }

  lemma CenturyLength(month: int)
    ensures DaysIn(month) <= DaysIn(month + 1200) || (DaysIn(month) == 29 && DaysIn(month + 1200) == 28)
  {
    assert (month + 1200) % 12 == month % 12;
  }

  lemma CenturyLater(t: Instant)
    ensures CenturyOn(t, RolledAddMonths(t, 1200))
  {
    RolledStep(t, 1200);
    CenturyLength(DateOf(t).month);
  }

  lemma FailureCancelsFarOff(s: Sub, policy: Policy, now: Instant, operatorSide: bool)
    ensures s.status != Cancelled && FailedSub(s, policy, now, operatorSide).status == Cancelled
            ==> CenturyOn(now, FailedSub(s, policy, now, operatorSide).nextAttemptAt)
    ensures CenturyOn(now, CancelledSub(s, now).nextAttemptAt)
  {
    CenturyLater(now);
  }

  /** Whatever step cancels a subscription puts its due date a hundred years on. */
  lemma CancelledFarOff(w: World, e: Event, user: Address)
    requires Safe(w) && Enabled(w, e) && user in w.subs && w.subs[user].status != Cancelled
    requires user in Next(w, e).subs && Next(w, e).subs[user].status == Cancelled
    ensures CenturyOn(w.clock, Next(w, e).subs[user].nextAttemptAt)
  {
    CancellingStep(w, e, user);
    CenturyLater(w.clock);
    FailureCancelsFarOff(w.subs[user], w.policy, w.clock, true);
    FailureCancelsFarOff(w.subs[user], w.policy, w.clock, false);
  }

  lemma CancellingStep(w: World, e: Event, user: Address)
    requires Safe(w) && Enabled(w, e) && user in w.subs && w.subs[user].status != Cancelled
    requires user in Next(w, e).subs && Next(w, e).subs[user].status == Cancelled
    ensures var s, s' := w.subs[user], Next(w, e).subs[user];
            || s' == FailedSub(s, w.policy, w.clock, true) || s' == FailedSub(s, w.policy, w.clock, false)
            || s' == CancelledSub(s, w.clock) || s'.nextAttemptAt == RolledAddMonths(w.clock, 1200)
  {
    if Owner(e) != Some(user) {
      OthersUntouched(w, e, user);
    }
  }

  /** A cancellation puts the due date a hundred years on. Subscribing to another plan leaves it there:
      the user is active, but no renewal is due for a century. */
  lemma CancelledThenOtherPlan(w: World, user: Address, planId: string, startAt: Instant)
    requires user in w.subs && planId in w.plans && w.plans[planId].active && w.plans[planId].id == planId
    requires w.subs[user].planId != planId
    ensures var w' := Next(w, CancelSub(user));
            Enabled(w', Subscribe(user, planId, startAt))
            && var s := Next(w', Subscribe(user, planId, startAt)).subs[user];
            && s.status == Active && s.planId == planId && CenturyOn(w.clock, s.nextAttemptAt)
            && (forall t: Instant :: Due(s, t) <==> s.pending.Some? || s.nextAttemptAt <= t)
  {
    CenturyLater(w.clock);
    var w' := Next(w, CancelSub(user));
    OtherPlanKeepsDueDate(w'.subs[user], PlanOf(w', user), w.plans[planId], startAt, w.clock);
  }
}
