/** Traces of the charge engine: what the persisted record can be trusted for, where each renewal in
    the books was paid, and a run in which one stash is pulled twice. */
module EngineTraces {
  import opened Records
  import opened Calendar
  import opened Token
  import opened Billing
  import opened Proration
  import opened Engine
  import opened EngineRuns

  // ---------- the record tells what is in flight ----------

  /** What is in flight is for the stash exactly when the record has one. */
  predicate Labelled(w: World, user: Address) {
    InFlight(w, user).Some? ==> (InFlight(w, user).value.purpose == Proration <==> w.subs[user].pending.Some?)
  }

  ghost predicate AllLabelled(w: World) {
    forall user: Address :: Labelled(w, user)
  }

  /** A change of plan that would stash a difference. */
  predicate Stashes(w: World, user: Address, planId: string)
    requires user in w.subs && planId in w.plans
  {
    && w.subs[user].planId != planId
    && var diff := ProratedDiff(w.clock, w.subs[user], PlanOf(w, user), w.plans[planId]);
    && diff.Some? && diff.value > 0
  }

  /** No change of plan stashes a first difference while a renewal is in flight. */
  predicate LabelStable(w: World, e: Event)
    requires Enabled(w, e)
  {
    e.Subscribe? && InFlight(w, e.user).Some? && w.subs[e.user].pending.None? ==> !Stashes(w, e.user, e.planId)
  }

  lemma OthersStayLabelled(w: World, e: Event, user: Address)
    requires Safe(w) && Enabled(w, e) && Owner(e) != Some(user) && Labelled(w, user)
    ensures Labelled(Next(w, e), user)
  {
    OthersUntouched(w, e, user);
  }

  lemma SubscribeLabelIff(w: World, user: Address, planId: string, startAt: Instant)
    requires Safe(w) && Enabled(w, Subscribe(user, planId, startAt)) && Labelled(w, user)
    ensures Labelled(Next(w, Subscribe(user, planId, startAt)), user) <==> LabelStable(w, Subscribe(user, planId, startAt))
  {
  }

  lemma OwnLabelStays(w: World, e: Event, user: Address)
    requires Safe(w) && Enabled(w, e) && Owner(e) == Some(user) && Labelled(w, user) && !e.Subscribe?
    ensures Labelled(Next(w, e), user)
  {
    if e.Offer? || e.Replace? {
    } else if e.DropStash? || e.CancelSub? {
    } else {
      assert InFlight(Next(w, e), user).None?;
    }
  }

  lemma OwnLabelIff(w: World, e: Event, user: Address)
    requires Safe(w) && Enabled(w, e) && Owner(e) == Some(user) && Labelled(w, user)
    ensures Labelled(Next(w, e), user) <==> LabelStable(w, e)
  {
    if e.Subscribe? {
      SubscribeLabelIff(w, user, e.planId, e.startAt);
    } else {
      OwnLabelStays(w, e, user);
    }
  }

  /** The record keeps telling what is in flight exactly when no such change of plan is made. */
  lemma LabelledIffStable(w: World, e: Event)
    requires Safe(w) && AllLabelled(w) && Enabled(w, e)
    ensures AllLabelled(Next(w, e)) <==> LabelStable(w, e)
  {
    forall user: Address | Owner(e) != Some(user) ensures Labelled(Next(w, e), user) {
      assert Labelled(w, user);
      OthersStayLabelled(w, e, user);
    }
    if Owner(e).Some? {
      assert Labelled(w, Owner(e).value);
      OwnLabelIff(w, e, Owner(e).value);
    }
  }

  /** So the condition for resuming is read off the record: it is clean without a stash. */
  lemma ResumeCleanIff(w: World, user: Address)
    requires Labelled(w, user) && Enabled(w, Resolve(user))
    ensures Clean(w, Resolve(user)) <==> w.subs[user].pending.None?
  {
    var t := InFlight(w, user).value;
    match t.purpose
    case Renewal =>
    case Proration =>
  }

  // ---------- the last charge is in the past ----------

  ghost predicate ChargedInPast(w: World) {
    ZERO_TIME <= w.clock && forall user | user in w.subs :: w.subs[user].lastChargedAt <= w.clock
  }

  lemma StepChargesInPast(w: World, e: Event)
    requires ChargedInPast(w) && Enabled(w, e)
    ensures ChargedInPast(Next(w, e))
  {
  }

  lemma {:induction false} RunChargesInPast(w: World, events: seq<Event>, last: World)
    requires ChargedInPast(w) && Reaches(w, events, last)
    ensures ChargedInPast(last)
    decreases |events|
  {
    if events != [] {
      StepChargesInPast(w, events[0]);
      RunChargesInPast(Next(w, events[0]), events[1..], last);
    }
  }

  /** In every run at all, faults included, an upgrade costs between nothing and the rise in price. */
  lemma UpgradesCostWithinTheRise(w: World, events: seq<Event>, last: World, user: Address, newPlan: Plan)
    requires ChargedInPast(w) && Reaches(w, events, last) && user in last.subs && PlanOf(last, user).Some?
    ensures var oldPlan := PlanOf(last, user).value;
            var diff := ProratedDiff(last.clock, last.subs[user], Some(oldPlan), newPlan);
            diff.Some? ==> 0 <= diff.value <= newPlan.price.value - oldPlan.price.value
  {
    RunChargesInPast(w, events, last);
    DiffWithinDifference(last.clock, last.subs[user], PlanOf(last, user).value, newPlan);
  }

  // ---------- traces ----------

  /** Where the first n steps lead. */
  ghost function StateAt(w: World, events: seq<Event>, n: nat): World
    requires n <= |events|
  {
    if n == 0 then w
    else
      var before := StateAt(w, events, n - 1);
      if Enabled(before, events[n - 1]) then Next(before, events[n - 1]) else before
  }

  /** A clean run in which no price changes under a renewal in flight. */
  ghost predicate StableRun(w: World, events: seq<Event>) {
    forall n {:trigger StateAt(w, events, n)} | 0 <= n < |events| ::
      && Enabled(StateAt(w, events, n), events[n])
      && Clean(StateAt(w, events, n), events[n]) && PriceStable(StateAt(w, events, n), events[n])
  }

  lemma StableStepIsPriced(w: World, e: Event)
    requires Safe(w) && AllPriced(w) && Enabled(w, e) && Clean(w, e) && PriceStable(w, e)
    ensures Safe(Next(w, e)) && AllPriced(Next(w, e))
  {
    SafeIffClean(w, e);
    PricesKeptIffStable(w, e);
  }

  lemma {:induction false} StableRunIsPriced(w: World, events: seq<Event>, n: nat)
    requires Safe(w) && AllPriced(w) && StableRun(w, events) && n <= |events|
    ensures Safe(StateAt(w, events, n)) && AllPriced(StateAt(w, events, n))
  {
    if n > 0 {
      StableRunIsPriced(w, events, n - 1);
      StableStepIsPriced(StateAt(w, events, n - 1), events[n - 1]);
    }
  }

  lemma {:induction false} StateAfterFirst(w: World, events: seq<Event>, n: nat)
    requires events != [] && Enabled(w, events[0]) && n < |events|
    ensures StateAt(Next(w, events[0]), events[1..], n) == StateAt(w, events, n + 1)
  {
    if n > 0 {
      StateAfterFirst(w, events, n - 1);
    }
  }

  /** A stable run is a clean run. */
  lemma {:induction false} StableRunIsClean(w: World, events: seq<Event>)
    requires StableRun(w, events)
    ensures CleanRun(w, events, StateAt(w, events, |events|))
    decreases |events|
  {
    if events != [] {
      assert StateAt(w, events, 0) == w;
      var next, rest := Next(w, events[0]), events[1..];
      forall n | 0 <= n <= |rest| ensures StateAt(next, rest, n) == StateAt(w, events, n + 1) {
        StateAfterFirst(w, events, n);
      }
      StableRunIsClean(next, rest);
    }
  }

  // ---------- where each entry of the books and of the chain came from ----------

  lemma LedgerGrows(w: World, e: Event)
    requires Enabled(w, e)
    ensures var l, l' := w.ledger, Next(w, e).ledger; l' == l || (|l'| == |l| + 1 && l'[..|l|] == l)
  {
  }

  /** The step that made the i-th entry of the books. */
  lemma {:induction false} BookedWhen(w: World, events: seq<Event>, n: nat, i: nat) returns (k: nat)
    requires n <= |events| && |w.ledger| <= i < |StateAt(w, events, n).ledger|
    ensures k < n && |StateAt(w, events, k).ledger| == i
    ensures StateAt(w, events, k + 1).ledger == StateAt(w, events, n).ledger[..i + 1]
  {
    var before := StateAt(w, events, n - 1);
    if Enabled(before, events[n - 1]) {
      LedgerGrows(before, events[n - 1]);
    }
    if i < |before.ledger| {
      k := BookedWhen(w, events, n - 1, i);
      assert StateAt(w, events, n).ledger[..i + 1] == before.ledger[..i + 1];
    } else {
      k := n - 1;
    }
  }

  lemma MinedGrows(w: World, e: Event)
    requires Enabled(w, e)
    ensures var m, m' := w.mined, Next(w, e).mined;
            || m' == m
            || (|m'| == |m| + 1 && m'[..|m|] == m
                && (m'[|m|].PullMined? ==> e == Mine(m'[|m|].tx, m'[|m|].block) && m'[|m|].success == Succeeds(w.chain, PullCall(w, m'[|m|].tx))))
  {
  }

  /** The step that mined the pull of a nonce. */
  lemma {:induction false} MinedWhen(w: World, events: seq<Event>, n: nat, nonce: nat) returns (j: nat)
    requires n <= |events| && |w.mined| <= nonce < |StateAt(w, events, n).mined|
    requires StateAt(w, events, n).mined[nonce].PullMined?
    ensures j < n && Enabled(StateAt(w, events, j), events[j])
    ensures var m := StateAt(w, events, n).mined[nonce];
            && events[j] == Mine(m.tx, m.block)
            && m.success == Succeeds(StateAt(w, events, j).chain, PullCall(StateAt(w, events, j), m.tx))
            && |StateAt(w, events, j).mined| == nonce
  {
    var before := StateAt(w, events, n - 1);
    if Enabled(before, events[n - 1]) {
      MinedGrows(before, events[n - 1]);
    }
    if nonce < |before.mined| {
      assert StateAt(w, events, n).mined[..|before.mined|][nonce] == before.mined[nonce];
      j := MinedWhen(w, events, n - 1, nonce);
    } else {
      j := n - 1;
    }
  }

  // ---------- every renewal in the books was paid for ----------

  /** Step j mined this pull, and it moved its amount. */
  ghost predicate PaidAt(w: World, events: seq<Event>, j: nat, tx: PullTx)
    requires j < |events|
  {
    && events[j].Mine? && events[j].tx == tx && |StateAt(w, events, j).mined| == tx.nonce
    && Moved(StateAt(w, events, j), StateAt(w, events, j + 1), tx.user, tx.amount)
  }

  /** Step k booked this credit on the plan's price, and moved the due date on by one period. */
  ghost predicate RenewedAt(w: World, events: seq<Event>, k: nat, c: Credit)
    requires k < |events|
  {
    var before, after := StateAt(w, events, k), StateAt(w, events, k + 1);
    && after.ledger == before.ledger + [c]
    && c.tx.user in before.subs && c.tx.user in after.subs
    && var s, plan := before.subs[c.tx.user], PlanOf(before, c.tx.user);
    && plan.Some? && plan.value.price == Atomic(c.tx.amount)
    && after.subs[c.tx.user].nextAttemptAt
       == AddPeriod(plan.value, if s.nextAttemptAt == ZERO_TIME then before.clock else s.nextAttemptAt)
  }

  // ---------- no payment is booked twice ----------

  lemma {:induction false} InCredits(ledger: seq<Credit>, i: nat)
    requires i < |ledger|
    ensures ledger[i] in Credits(ledger, ledger[i].tx.user)
  {
    if i < |ledger| - 1 {
      InCredits(ledger[..|ledger| - 1], i);
    }
  }

  /** The credit is for a pull that mined at its own nonce. */
  predicate MinedAsSent(mined: seq<Mined>, c: Credit) {
    c.tx.nonce < |mined| && mined[c.tx.nonce].PullMined? && mined[c.tx.nonce].tx == c.tx
  }

  lemma {:induction false} PulledAreMined(offered: set<PullTx>, mined: seq<Mined>, user: Address)
    requires InOrder(offered, mined)
    ensures forall c | c in Pulled(mined, user) :: MinedAsSent(mined, c)
  {
    if mined != [] {
      var init, last := mined[..|mined| - 1], mined[|mined| - 1];
      assert InOrder(offered, init);
      PulledAreMined(offered, init, user);
      forall c | c in Pulled(mined, user) ensures MinedAsSent(mined, c) {
        if c in Pulled(init, user) {
          assert MinedAsSent(init, c);
        } else {
          assert mined[|mined| - 1].tx.nonce == |mined| - 1;
        }
      }
    }
  }

  predicate InNonceOrder(p: seq<Credit>) {
    forall a, b | 0 <= a < b < |p| :: p[a].tx.nonce < p[b].tx.nonce
  }

  /** The pulls of a user are in the order of their nonces. */
  lemma {:induction false} PulledIncrease(offered: set<PullTx>, mined: seq<Mined>, user: Address)
    requires InOrder(offered, mined)
    ensures InNonceOrder(Pulled(mined, user))
  {
    if mined != [] {
      var init := mined[..|mined| - 1];
      assert InOrder(offered, init);
      PulledIncrease(offered, init, user);
      PulledAreMined(offered, init, user);
      PulledAppend(init, mined[|mined| - 1], user);
      assert mined == init + [mined[|mined| - 1]];
      var p, q := Pulled(mined, user), Pulled(init, user);
      forall a, b | 0 <= a < b < |p| ensures p[a].tx.nonce < p[b].tx.nonce {
        assert p[a] == q[a] && q[a] in q && MinedAsSent(init, q[a]);
        if b == |q| {
          assert mined[|mined| - 1].tx.nonce == |mined| - 1;
        }
      }
    }
  }

  predicate OncePerNonce(ledger: seq<Credit>) {
    forall a, b | 0 <= a < b < |ledger| :: ledger[a].tx.nonce != ledger[b].tx.nonce
  }

  /** A pull about to be booked is in the books nowhere yet. */
  lemma NotYetBooked(w: World, user: Address, i: nat)
    requires Safe(w) && InFlight(w, user).Some? && i < |w.ledger|
    requires var r := ReceiptOf(w, InFlight(w, user).value); r.Some? && r.value.success
    ensures w.ledger[i].tx.nonce != InFlight(w, user).value.nonce
  {
    var t, c := InFlight(w, user).value, w.ledger[i];
    assert Accounted(w.offered, w.mined, w.ledger, user, Some(t));
    assert Accounted(w.offered, w.mined, w.ledger, c.tx.user, InFlight(w, c.tx.user));
    InCredits(w.ledger, i);
    PulledAreMined(w.offered, w.mined, c.tx.user);
    PulledIncrease(w.offered, w.mined, c.tx.user);
    var credits, pulled := Credits(w.ledger, c.tx.user), Pulled(w.mined, c.tx.user);
    var a :| 0 <= a < |credits| && credits[a] == c;
    assert pulled[a] == c && c in pulled && MinedAsSent(w.mined, c);
    assert c.tx.nonce == t.nonce ==> c.tx == t;
    if c.tx.user == user {
      assert pulled == credits + [Credit(w.mined[t.nonce].tx, w.mined[t.nonce].tx.purpose)];
      assert pulled[|credits|].tx == t;
      assert pulled[a].tx.nonce < pulled[|credits|].tx.nonce;
    }
  }

  lemma StepBooksOnce(w: World, e: Event)
    requires Safe(w) && Enabled(w, e) && Clean(w, e) && OncePerNonce(w.ledger)
    ensures OncePerNonce(Next(w, e).ledger)
  {
    if Next(w, e).ledger != w.ledger {
      BookingStep(w, e);
      forall i | 0 <= i < |w.ledger| ensures w.ledger[i].tx.nonce != InFlight(w, e.user).value.nonce {
        NotYetBooked(w, e.user, i);
      }
    }
  }

  /** In every clean run, no mined pull is in the books twice. */
  lemma {:induction false} BookedOncePerNonce(w: World, events: seq<Event>, last: World)
    requires Safe(w) && OncePerNonce(w.ledger) && CleanRun(w, events, last)
    ensures OncePerNonce(last.ledger)
    decreases |events|
  {
    if events != [] {
      SafeIffClean(w, events[0]);
      StepBooksOnce(w, events[0]);
      BookedOncePerNonce(Next(w, events[0]), events[1..], last);
    }
  }

  /** The step that booked a renewal, and the mined pull it booked. */
  lemma RenewalIsBooked(w: World, events: seq<Event>, i: nat) returns (k: nat)
    requires Fresh(w) && StableRun(w, events)
    requires i < |StateAt(w, events, |events|).ledger| && StateAt(w, events, |events|).ledger[i].booked == Renewal
    ensures var c := StateAt(w, events, |events|).ledger[i];
            && k < |events| && RenewedAt(w, events, k, c)
            && var mined := StateAt(w, events, k).mined;
            PulledAt(mined, c.tx.nonce, c.tx.user) && mined[c.tx.nonce].tx == c.tx
  {
    var last := StateAt(w, events, |events|);
    FreshIsSafe(w);
    k := BookedWhen(w, events, |events|, i);
    var before, after := StateAt(w, events, k), StateAt(w, events, k + 1);
    StableRunIsPriced(w, events, k);
    LedgerGrows(before, events[k]);
    assert after.ledger[i] == last.ledger[i];
    assert after.ledger == before.ledger + [last.ledger[i]];
    RenewalPaysThePrice(before, events[k], last.ledger[i]);
  }

  lemma RenewalIsPaid(w: World, events: seq<Event>, i: nat)
    requires Fresh(w) && StableRun(w, events)
    requires i < |StateAt(w, events, |events|).ledger| && StateAt(w, events, |events|).ledger[i].booked == Renewal
    ensures var c := StateAt(w, events, |events|).ledger[i];
            exists j: nat, k: nat :: j < k < |events| && PaidAt(w, events, j, c.tx) && RenewedAt(w, events, k, c)
  {
    var c := StateAt(w, events, |events|).ledger[i];
    var k := RenewalIsBooked(w, events, i);
    var j := MinedWhen(w, events, k, c.tx.nonce);
    MiningMovesTheAmount(StateAt(w, events, j), c.tx, events[j].block);
    assert PaidAt(w, events, j, c.tx) && RenewedAt(w, events, k, c);
  }

  /** Over whole runs: behind every renewal in the books there is a step that booked it at the plan's
      price and moved the due date by one period, and before that a step that mined its pull and
      moved exactly that price from the user to the treasury. No two entries of the books share
      such a step. */
  lemma RenewalsArePaidOnce(w: World, events: seq<Event>)
    requires Fresh(w) && StableRun(w, events)
    ensures var books := StateAt(w, events, |events|).ledger;
            && (forall i | 0 <= i < |books| && books[i].booked == Renewal ::
                  exists j: nat, k: nat :: j < k < |events| && PaidAt(w, events, j, books[i].tx) && RenewedAt(w, events, k, books[i]))
            && (forall a, b, j: nat | 0 <= a < b < |books| && j < |events| ::
                  !(PaidAt(w, events, j, books[a].tx) && PaidAt(w, events, j, books[b].tx)))
  {
    var books := StateAt(w, events, |events|).ledger;
    forall i | 0 <= i < |books| && books[i].booked == Renewal
      ensures exists j: nat, k: nat :: j < k < |events| && PaidAt(w, events, j, books[i].tx) && RenewedAt(w, events, k, books[i])
    {
      RenewalIsPaid(w, events, i);
    }
    FreshIsSafe(w);
    StableRunIsClean(w, events);
    BookedOncePerNonce(w, events, StateAt(w, events, |events|));
  }

  // ---------- a resumed stash ----------

  /** Whenever a stash is resumed, the due date moves as if a renewal had been paid, and the stash is
      still there, due, and can be sent again. */
  lemma ResumedStashIsOwedAgain(w: World, user: Address, again: PullTx)
    requires Safe(w) && Enabled(w, Resolve(user)) && w.subs[user].pending.Some?
    requires Usable(PlanOf(w, user))
    requires again.user == user && again.purpose == Proration && again.amount <= MAX_UINT && |w.mined| <= again.nonce
    requires w.subs[user].pending == Some(Atomic(again.amount)) && again.amount > 0
    ensures var w' := Next(w, Resolve(user));
            && w'.ledger == w.ledger + [Credit(InFlight(w, user).value, Renewal)]
            && w'.subs[user].pending == w.subs[user].pending
            && CanOffer(w', again)
  {
    assert Accounted(w.offered, w.mined, w.ledger, user, InFlight(w, user));
  }

  const PAYER: Address := Address(7)
  const CONTRACT: Contract := Contract(Address(1), Address(2), Address(3), Address(4))

  /** An active subscriber with one unit stashed, two in the wallet and two approved. */
  function StashWorld(): World {
    World(Chain(CONTRACT, Ledger(map[PAYER := 2], map[(PAYER, CONTRACT.self) := 2], 2, false)), CONTRACT.operator, {}, [],
          Policy([]), map["pro" := Plan("pro", Atomic(5), 1, "month", true)],
          map[PAYER := NewSub(PAYER, "pro", DAY).(pending := Some(Atomic(1)))], 0, [])
  }

  function StashPull(nonce: nat): PullTx {
    PullTx(nonce, PAYER, 1, Proration, 0, 0)
  }

  /** The chain and the plan of the witness, with so many units left. */
  predicate StashSetting(w: World, left: nat) {
    && w.plans == StashWorld().plans && w.clock == 0
    && w.operatorKey == CONTRACT.operator && w.chain.contract == CONTRACT && !w.chain.ledger.frozen
    && w.chain.ledger.Balance(PAYER) == left && w.chain.ledger.Allowance(PAYER, CONTRACT.self) == left
  }

  /** The stash is there and nothing is in flight. */
  predicate StashOwed(w: World) {
    PAYER in w.subs
    && var s := w.subs[PAYER];
    s.user == PAYER && s.planId == "pro" && s.status == Active && s.pending == Some(Atomic(1)) && s.inFlight.None?
  }

  /** One pull of the stash: offered, then mined. */
  lemma PullStash(w: World, nonce: nat) returns (mined: World)
    requires nonce < 2 && StashSetting(w, 2 - nonce) && StashOwed(w) && |w.mined| == nonce
    ensures Reaches(w, PullSteps(nonce), mined)
    ensures StashSetting(mined, 1 - nonce) && mined.ledger == w.ledger
    ensures mined.mined == w.mined + [PullMined(StashPull(nonce), true, 0)]
    ensures PAYER in mined.subs && mined.subs[PAYER] == w.subs[PAYER].(inFlight := Some(StashPull(nonce)))
  {
    var tx := StashPull(nonce);
    assert Enabled(w, Offer(tx));
    var w1 := Next(w, Offer(tx));
    assert Enabled(w1, Mine(tx, 0)) && Succeeds(w1.chain, PullCall(w1, tx));
    mined := Next(w1, Mine(tx, 0));
    TransferMoves(w1.chain.ledger, CONTRACT.self, PAYER, CONTRACT.treasury, 1);
    assert [Offer(tx), Mine(tx, 0)][1..] == [Mine(tx, 0)] && [Mine(tx, 0)][1..] == [];
    assert Reaches(w1, [Mine(tx, 0)], mined);
  }

  lemma ResumeStash(w: World) returns (next: World)
    requires StashSetting(w, 1) && w.mined == [PullMined(StashPull(0), true, 0)] && PAYER in w.subs
    requires w.subs[PAYER] == StashWorld().subs[PAYER].(inFlight := Some(StashPull(0)))
    ensures Enabled(w, Resolve(PAYER)) && !Clean(w, Resolve(PAYER)) && Reaches(w, [Resolve(PAYER)], next)
    ensures StashSetting(next, 1) && StashOwed(next)
    ensures next.mined == w.mined && next.ledger == w.ledger + [Credit(StashPull(0), Renewal)]
  {
    next := Next(w, Resolve(PAYER));
    assert [Resolve(PAYER)][1..] == [];
  }

  function PullSteps(nonce: nat): seq<Event> {
    [Offer(StashPull(nonce)), Mine(StashPull(nonce), 0)]
  }

  lemma TwoPullsOneCredit(w: World)
    requires w.mined == [PullMined(StashPull(0), true, 0)] + [PullMined(StashPull(1), true, 0)]
    requires w.ledger == [Credit(StashPull(0), Renewal)]
    ensures Pulled(w.mined, PAYER) == [Credit(StashPull(0), Proration), Credit(StashPull(1), Proration)]
    ensures !ExactlyOnce(w, PAYER)
  {
    var one := [PullMined(StashPull(0), true, 0)];
    PulledAppend([], PullMined(StashPull(0), true, 0), PAYER);
    assert [] + one == one;
    PulledAppend(one, PullMined(StashPull(1), true, 0), PAYER);
    CreditsAppend([], Credit(StashPull(0), Renewal), PAYER);
    assert [] + w.ledger == w.ledger;
    assert Pulled(w.mined, PAYER)[..1][0] == Credit(StashPull(0), Proration);
  }

  lemma JoinThree(w: World, a: seq<Event>, w1: World, b: seq<Event>, w2: World, c: seq<Event>, w3: World)
    requires Reaches(w, a, w1) && Reaches(w1, b, w2) && Reaches(w2, c, w3)
    ensures Reaches(w, a + b + c, w3)
  {
    ReachesTrans(w, a, w1, b, w2);
    ReachesTrans(w, a + b, w2, c, w3);
  }

  lemma StashRun() returns (mined: World, resumed: World, last: World)
    ensures Reaches(StashWorld(), PullSteps(0), mined)
    ensures Enabled(mined, Resolve(PAYER)) && !Clean(mined, Resolve(PAYER)) && Reaches(mined, [Resolve(PAYER)], resumed)
    ensures Reaches(resumed, PullSteps(1), last)
    ensures last.mined == [PullMined(StashPull(0), true, 0)] + [PullMined(StashPull(1), true, 0)]
    ensures last.ledger == [Credit(StashPull(0), Renewal)] && StashSetting(last, 0)
  {
    mined := PullStash(StashWorld(), 0);
    assert [] + [PullMined(StashPull(0), true, 0)] == [PullMined(StashPull(0), true, 0)];
    resumed := ResumeStash(mined);
    assert [] + [Credit(StashPull(0), Renewal)] == [Credit(StashPull(0), Renewal)];
    last := PullStash(resumed, 1);
  }

  /** It does happen: from a fresh start, a stash of one unit is pulled twice after a resumption, which
      is the one unclean step. */
  lemma StashPulledTwice() returns (last: World)
    ensures Fresh(StashWorld()) && StashWorld().subs[PAYER].pending == Some(Atomic(1))
    ensures Reaches(StashWorld(), PullSteps(0) + [Resolve(PAYER)] + PullSteps(1), last)
    ensures Pulled(last.mined, PAYER) == [Credit(StashPull(0), Proration), Credit(StashPull(1), Proration)]
    ensures last.chain.ledger.Balance(PAYER) == StashWorld().chain.ledger.Balance(PAYER) - 2
    ensures !ExactlyOnce(last, PAYER)
  {
    var mined, resumed;
    mined, resumed, last := StashRun();
    TwoPullsOneCredit(last);
    JoinThree(StashWorld(), PullSteps(0), mined, [Resolve(PAYER)], resumed, PullSteps(1), last);
  }

  // ---------- a replaced renewal ----------

  /** An active subscriber whose renewal of one unit is due, with two in the wallet and two approved. */
  function RenewalWorld(): World {
    StashWorld().(plans := map["pro" := Plan("pro", Atomic(1), 1, "month", true)],
                  subs := map[PAYER := NewSub(PAYER, "pro", 0)], policy := Policy([0]))
  }

  /** Offers at one nonce differ in their fees. */
  function RenewalPull(nonce: nat, tip: nat): PullTx {
    PullTx(nonce, PAYER, 1, Renewal, tip, tip)
  }

  predicate RenewalSetting(w: World, left: nat) {
    && w.plans == RenewalWorld().plans && w.clock == 0 && w.policy == Policy([0]) && w.ledger == []
    && w.operatorKey == CONTRACT.operator && w.chain.contract == CONTRACT && !w.chain.ledger.frozen
    && w.chain.ledger.Balance(PAYER) == left && w.chain.ledger.Allowance(PAYER, CONTRACT.self) == left
  }

  predicate RenewalOwed(w: World) {
    PAYER in w.subs
    && var s := w.subs[PAYER];
    s.user == PAYER && s.planId == "pro" && Due(s, 0) && s.pending.None? && s.inFlight.None? && s.dunningAttempts <= 1
  }

  lemma OfferRenewal(w: World, tx: PullTx) returns (next: World)
    requires tx.nonce < 2 && RenewalSetting(w, 2 - tx.nonce) && RenewalOwed(w) && |w.mined| == tx.nonce && tx == RenewalPull(tx.nonce, tx.tip)
    ensures Reaches(w, [Offer(tx)], next) && RenewalSetting(next, 2 - tx.nonce) && next.mined == w.mined && tx in next.offered
    ensures next.subs == w.subs[PAYER := w.subs[PAYER].(inFlight := Some(tx))]
  {
    next := Next(w, Offer(tx));
    assert [Offer(tx)][1..] == [];
  }

  lemma MineRenewal(w: World, tx: PullTx) returns (next: World)
    requires tx.nonce < 2 && RenewalSetting(w, 2 - tx.nonce) && |w.mined| == tx.nonce && tx == RenewalPull(tx.nonce, tx.tip) && tx in w.offered
    ensures Reaches(w, [Mine(tx, 0)], next) && RenewalSetting(next, 1 - tx.nonce)
    ensures next.mined == w.mined + [PullMined(tx, true, 0)] && next.subs == w.subs
  {
    next := Next(w, Mine(tx, 0));
    TransferMoves(w.chain.ledger, CONTRACT.self, PAYER, CONTRACT.treasury, 1);
    assert [Mine(tx, 0)][1..] == [];
  }

  /** The fee is bumped, the first offer mines, and the lookup asks for the second. */
  lemma LoseReplaced(w: World) returns (next: World)
    requires RenewalSetting(w, 2) && w.mined == [] && PAYER in w.subs && RenewalPull(0, 1) in w.offered
    requires w.subs[PAYER] == RenewalWorld().subs[PAYER].(inFlight := Some(RenewalPull(0, 1)))
    ensures Reaches(w, [Replace(RenewalPull(0, 2)), Mine(RenewalPull(0, 1), 0), NonceTooLow(PAYER, false, false)], next)
    ensures RenewalSetting(next, 1) && RenewalOwed(next) && next.mined == [PullMined(RenewalPull(0, 1), true, 0)]
  {
    var bumped := Next(w, Replace(RenewalPull(0, 2)));
    var mined := MineRenewal(bumped, RenewalPull(0, 1));
    assert [] + [PullMined(RenewalPull(0, 1), true, 0)] == mined.mined;
    next := Next(mined, NonceTooLow(PAYER, false, false));
    assert [NonceTooLow(PAYER, false, false)][1..] == [] && [Replace(RenewalPull(0, 2))][1..] == [];
    JoinThree(w, [Replace(RenewalPull(0, 2))], bumped, [Mine(RenewalPull(0, 1), 0)], mined, [NonceTooLow(PAYER, false, false)], next);
    assert [Replace(RenewalPull(0, 2))] + [Mine(RenewalPull(0, 1), 0)] + [NonceTooLow(PAYER, false, false)]
        == [Replace(RenewalPull(0, 2)), Mine(RenewalPull(0, 1), 0), NonceTooLow(PAYER, false, false)];
  }

  function LostSteps(): seq<Event> {
    [Replace(RenewalPull(0, 2)), Mine(RenewalPull(0, 1), 0), NonceTooLow(PAYER, false, false)]
  }

  /** A regular renewal can be pulled twice as well, by an ordinary fee bump: when the first offer mines
      although the second is the last hash, the receipt looked up is not there, the charge counts as
      failed, and the next attempt pulls again. Neither pull is in the books. */
  lemma RenewalPulledTwice() returns (last: World)
    ensures Fresh(RenewalWorld())
    ensures Reaches(RenewalWorld(), [Offer(RenewalPull(0, 1))] + LostSteps() + ([Offer(RenewalPull(1, 1))] + [Mine(RenewalPull(1, 1), 0)]), last)
    ensures last.mined == [PullMined(RenewalPull(0, 1), true, 0)] + [PullMined(RenewalPull(1, 1), true, 0)] && last.ledger == []
    ensures last.chain.ledger.Balance(PAYER) == RenewalWorld().chain.ledger.Balance(PAYER) - 2
    ensures !ExactlyOnce(last, PAYER)
  {
    var offered, lost, again;
    offered, lost, again, last := RenewalRun();
    JoinThree(RenewalWorld(), [Offer(RenewalPull(0, 1))], offered, LostSteps(), lost,
              [Offer(RenewalPull(1, 1))] + [Mine(RenewalPull(1, 1), 0)], last);
    TwoPullsNoCredit(last);
  }

  lemma RenewalRun() returns (offered: World, lost: World, again: World, last: World)
    ensures Reaches(RenewalWorld(), [Offer(RenewalPull(0, 1))], offered) && Reaches(offered, LostSteps(), lost)
    ensures Reaches(lost, [Offer(RenewalPull(1, 1))] + [Mine(RenewalPull(1, 1), 0)], last)
    ensures last.mined == [PullMined(RenewalPull(0, 1), true, 0)] + [PullMined(RenewalPull(1, 1), true, 0)]
    ensures RenewalSetting(last, 0)
  {
    offered := OfferRenewal(RenewalWorld(), RenewalPull(0, 1));
    lost := LoseReplaced(offered);
    again := OfferRenewal(lost, RenewalPull(1, 1));
    last := MineRenewal(again, RenewalPull(1, 1));
    ReachesTrans(lost, [Offer(RenewalPull(1, 1))], again, [Mine(RenewalPull(1, 1), 0)], last);
  }

  lemma TwoPullsNoCredit(w: World)
    requires w.mined == [PullMined(RenewalPull(0, 1), true, 0)] + [PullMined(RenewalPull(1, 1), true, 0)] && w.ledger == []
    ensures |Pulled(w.mined, PAYER)| == 2 && !ExactlyOnce(w, PAYER)
  {
    var one := [PullMined(RenewalPull(0, 1), true, 0)];
    PulledAppend([], PullMined(RenewalPull(0, 1), true, 0), PAYER);
    assert [] + one == one;
    PulledAppend(one, PullMined(RenewalPull(1, 1), true, 0), PAYER);
  }
}
