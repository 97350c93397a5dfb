/** The charge engine as a step system: the operator's account on the chain, the persisted
    subscriptions, and every step that moves either, faults included. The main result is that each
    pull that mines is credited to its subscription exactly once. */
module Engine {
  import opened Records
  import opened Calendar
  import opened Token
  import opened Billing
  import opened Proration

  /** What took one nonce of the operator's account: a pull with its outcome, or another
      transaction the operator key signed, such as an administrator's cancellation. */
  datatype Mined = PullMined(tx: PullTx, success: bool, block: nat) | OtherMined

  /** A pull booked against its subscriber: a renewal moves the due date, a proration clears the
      stash. */
  datatype Credit = Credit(tx: PullTx, booked: Purpose)

  datatype World = World(
    chain: Chain,
    operatorKey: Address,
    offered: set<PullTx>,
    mined: seq<Mined>,
    policy: Policy,
    plans: map<string, Plan>,
    subs: map<Address, Sub>,
    clock: Instant,
    ledger: seq<Credit>)

  datatype Event =
    // the world outside
    | Advance(now: Instant)
    | Mine(tx: PullTx, block: nat)
    | MineOther
    | Outside(call: Call)
    // the scheduler and the submitter
    | Offer(tx: PullTx)
    | Replace(tx: PullTx)
    | Confirm(user: Address)
    | Resolve(user: Address)
    | Revert(user: Address, operatorSide: bool)
    | FailUnsent(user: Address, operatorSide: bool)
    | PlanGone(user: Address)
    | DropStash(user: Address)
    // the same code after a fault
    | Lost(tx: PullTx)
    | ReplaceFails(user: Address, operatorSide: bool)
    | NonceTooLow(user: Address, lookupFails: bool, operatorSide: bool)
    | ResolveWithoutPlan(user: Address)
    // the API
    | UpsertPlan(plan: Plan)
    | Subscribe(user: Address, planId: string, startAt: Instant)
    | CancelSub(user: Address)
    | Checkout(user: Address, planId: string)

  // ---------- reading the world ----------

  function InFlight(w: World, user: Address): Option<PullTx> {
    if user in w.subs then w.subs[user].inFlight else None
  }

  /** A broadcast transaction can still mine while its nonce is unused. */
  predicate Live(w: World, tx: PullTx) {
    tx in w.offered && |w.mined| <= tx.nonce
  }

  /** The receipt the node returns for a transaction hash. */
  function ReceiptIn(mined: seq<Mined>, tx: PullTx): Option<Mined> {
    if tx.nonce < |mined| && mined[tx.nonce].PullMined? && mined[tx.nonce].tx == tx
    then Some(mined[tx.nonce]) else None
  }

  function ReceiptOf(w: World, tx: PullTx): Option<Mined> {
    ReceiptIn(w.mined, tx)
  }

  function PullCall(w: World, tx: PullTx): Call {
    Pull(w.operatorKey, tx.user, tx.amount)
  }

  function PlanOf(w: World, user: Address): Option<Plan>
    requires user in w.subs
  {
    if w.subs[user].planId in w.plans then Some(w.plans[w.subs[user].planId]) else None
  }

  predicate Usable(plan: Option<Plan>) {
    plan.Some? && plan.value.active
  }

  /** The amount the scheduler sends for a due subscription: the stash first, else the price. */
  predicate Owed(s: Sub, plan: Plan, tx: PullTx) {
    && tx.user == s.user && tx.amount <= MAX_UINT
    && (if s.pending.Some? then tx.purpose == Proration && s.pending.value == Atomic(tx.amount) && tx.amount > 0
        else tx.purpose == Renewal && plan.price == Atomic(tx.amount))
  }

  // ---------- which steps can happen ----------

  predicate CanOffer(w: World, tx: PullTx) {
    && tx.user in w.subs && InFlight(w, tx.user).None?
    && Due(w.subs[tx.user], w.clock)
    && Usable(PlanOf(w, tx.user)) && Owed(w.subs[tx.user], PlanOf(w, tx.user).value, tx)
    && |w.mined| <= tx.nonce
  }

  predicate CanReplace(w: World, tx: PullTx) {
    && InFlight(w, tx.user).Some?
    && var t := InFlight(w, tx.user).value;
    && tx == t.(tip := tx.tip, maxFee := tx.maxFee)
    && |w.mined| <= tx.nonce
  }

  predicate Enabled(w: World, e: Event) {
    match e
    case Advance(now) => w.clock <= now
    case Mine(tx, _) => tx in w.offered && tx.nonce == |w.mined|
    case MineOther => true
    case Outside(call) =>
      WellFormed(call, w.chain.contract.self) && !(call.Pull? && call.sender == w.operatorKey)
    case Offer(tx) => CanOffer(w, tx)
    case Replace(tx) => CanReplace(w, tx)
    case Confirm(user) =>
      && InFlight(w, user).Some? && PlanOf(w, user).Some?
      && var r := ReceiptOf(w, InFlight(w, user).value);
      && r.Some? && r.value.success
    case Resolve(user) =>
      && InFlight(w, user).Some? && PlanOf(w, user).Some?
      && var r := ReceiptOf(w, InFlight(w, user).value);
      && r.Some? && r.value.success
    case Revert(user, _) =>
      && InFlight(w, user).Some?
      && var r := ReceiptOf(w, InFlight(w, user).value);
      && r.Some? && !r.value.success
    case FailUnsent(user, _) => user in w.subs && InFlight(w, user).None? && Due(w.subs[user], w.clock)
    case PlanGone(user) =>
      && user in w.subs && InFlight(w, user).None? && Due(w.subs[user], w.clock)
      && (Usable(PlanOf(w, user)) ==> w.subs[user].pending.None? && PlanOf(w, user).value.price.Malformed?)
    case DropStash(user) =>
      && user in w.subs && InFlight(w, user).None? && w.subs[user].pending.Some?
      && !(w.subs[user].pending.value.Atomic? && w.subs[user].pending.value.value > 0)
    case Lost(tx) => CanOffer(w, tx) || CanReplace(w, tx)
    case ReplaceFails(user, _) => InFlight(w, user).Some?
    case NonceTooLow(user, _, _) =>
      InFlight(w, user).Some? && InFlight(w, user).value.nonce < |w.mined| && PlanOf(w, user).Some?
    case ResolveWithoutPlan(user) => InFlight(w, user).Some?
    case UpsertPlan(_) => true
    case Subscribe(user, planId, _) => planId in w.plans && w.plans[planId].active
    case CancelSub(user) => user in w.subs
    case Checkout(user, planId) => planId in w.plans
  }

  // ---------- what each step does ----------

  function WithKey(w: World, user: Address, s: Sub): World {
    w.(subs := w.subs[user := s])
  }

  /** The scheduler books a successful pull: a renewal through markCharged, a stash through the end
      of pullPending. */
  function Booked(w: World, user: Address, booked: Purpose, block: nat): World
    requires InFlight(w, user).Some? && PlanOf(w, user).Some?
  {
    var s, t := w.subs[user], InFlight(w, user).value;
    var after := if booked == Renewal then ChargedSub(s, PlanOf(w, user).value, w.clock, t, block)
                 else SettledSub(s, w.clock, block);
    WithKey(w, user, after).(ledger := w.ledger + [Credit(t, booked)])
  }

  function Failed(w: World, user: Address, operatorSide: bool): World
    requires user in w.subs
  {
    WithKey(w, user, FailedSub(w.subs[user], w.policy, w.clock, operatorSide))
  }

  function Next(w: World, e: Event): World
    requires Enabled(w, e)
  {
    match e
    case Advance(now) => w.(clock := now)
    case Mine(tx, block) =>
      w.(chain := Step(w.chain, PullCall(w, tx)),
         mined := w.mined + [PullMined(tx, Succeeds(w.chain, PullCall(w, tx)), block)])
    case MineOther => w.(mined := w.mined + [OtherMined])
    case Outside(call) => w.(chain := Step(w.chain, call))
    case Offer(tx) =>
      WithKey(w, tx.user, w.subs[tx.user].(inFlight := Some(tx))).(offered := w.offered + {tx})
    case Replace(tx) =>
      WithKey(w, tx.user, w.subs[tx.user].(inFlight := Some(tx))).(offered := w.offered + {tx})
    case Confirm(user) =>
      Booked(w, user, InFlight(w, user).value.purpose, ReceiptOf(w, InFlight(w, user).value).value.block)
    case Resolve(user) =>
      Booked(w, user, Renewal, ReceiptOf(w, InFlight(w, user).value).value.block)
    case Revert(user, operatorSide) => Failed(w, user, operatorSide)
    case FailUnsent(user, operatorSide) => Failed(w, user, operatorSide)
    case PlanGone(user) => WithKey(w, user, CancelledSub(w.subs[user], w.clock))
    case DropStash(user) => WithKey(w, user, w.subs[user].(pending := None))
    case Lost(tx) => w.(offered := w.offered + {tx})
    case ReplaceFails(user, operatorSide) => Failed(w, user, operatorSide)
    case NonceTooLow(user, lookupFails, operatorSide) =>
      var t := InFlight(w, user).value;
      if lookupFails || ReceiptOf(w, t).None? then Failed(w, user, operatorSide)
      else Booked(w, user, t.purpose, ReceiptOf(w, t).value.block)
    case ResolveWithoutPlan(user) => WithKey(w, user, w.subs[user].(inFlight := None))
    case UpsertPlan(plan) => w.(plans := w.plans[plan.id := plan])
    case Subscribe(user, planId, startAt) =>
      var existing := if user in w.subs then Some(w.subs[user]) else None;
      var oldPlan := if user in w.subs then PlanOf(w, user) else None;
      WithKey(w, user, AppliedPlan(existing, oldPlan, w.plans[planId], user, startAt, w.clock).0)
    case CancelSub(user) =>
      WithKey(w, user, w.subs[user].(status := Cancelled, nextAttemptAt := RolledAddMonths(w.clock, 1200)))
    case Checkout(user, planId) =>
      WithKey(w, user, NewSub(user, planId, AddPeriod(w.plans[planId], w.clock)))
  }

  /** The one user whose record a step may write. */
  function Owner(e: Event): Option<Address> {
    match e
    case Offer(tx) => Some(tx.user)
    case Replace(tx) => Some(tx.user)
    case Confirm(user) => Some(user)
    case Resolve(user) => Some(user)
    case Revert(user, _) => Some(user)
    case FailUnsent(user, _) => Some(user)
    case PlanGone(user) => Some(user)
    case DropStash(user) => Some(user)
    case ReplaceFails(user, _) => Some(user)
    case NonceTooLow(user, _, _) => Some(user)
    case ResolveWithoutPlan(user) => Some(user)
    case Subscribe(user, _, _) => Some(user)
    case CancelSub(user) => Some(user)
    case Checkout(user, _) => Some(user)
    case _ => None
  }

  // ---------- exactly once ----------

  /** The pulls of a user that mined successfully, in chain order, as they should be booked. */
  function Pulled(mined: seq<Mined>, user: Address): seq<Credit> {
    if mined == [] then []
    else
      var last := mined[|mined| - 1];
      Pulled(mined[..|mined| - 1], user)
      + (if last.PullMined? && last.success && last.tx.user == user then [Credit(last.tx, last.tx.purpose)] else [])
  }

  function Credits(ledger: seq<Credit>, user: Address): seq<Credit> {
    if ledger == [] then []
    else
      var last := ledger[|ledger| - 1];
      Credits(ledger[..|ledger| - 1], user) + (if last.tx.user == user then [last] else [])
  }

  /** The pulls of the user that mined are the ones booked, each once, in order and for what it was
      sent for; at most the latest is still unbooked, and then a transaction is in flight. */
  predicate ExactlyOnce(w: World, user: Address) {
    var pulled, credits := Pulled(w.mined, user), Credits(w.ledger, user);
    || pulled == credits
    || (InFlight(w, user).Some? && |pulled| == |credits| + 1 && pulled[..|credits|] == credits)
  }

  /** The nonce was used by a successful pull of the user. */
  predicate PulledAt(mined: seq<Mined>, nonce: nat, user: Address) {
    nonce < |mined| && mined[nonce].PullMined? && mined[nonce].success && mined[nonce].tx.user == user
  }

  /** Nothing is lost by forgetting what is in flight: it can no longer mine, and it did not pull. */
  predicate Forgettable(w: World, user: Address) {
    InFlight(w, user).None?
    || (InFlight(w, user).value.nonce < |w.mined| && !PulledAt(w.mined, InFlight(w, user).value.nonce, user))
  }

  /** The pull that mined at the nonce in flight and is still to be booked. */
  function Unbooked(mined: seq<Mined>, f: Option<PullTx>, user: Address): seq<Credit> {
    if f.Some? && PulledAt(mined, f.value.nonce, user)
    then [Credit(mined[f.value.nonce].tx, mined[f.value.nonce].tx.purpose)] else []
  }

  /** Only the nonce in flight can still mine for the user, and the books match the chain. */
  predicate Accounted(offered: set<PullTx>, mined: seq<Mined>, ledger: seq<Credit>, user: Address, f: Option<PullTx>) {
    && (forall tx | tx in offered && tx.user == user && |mined| <= tx.nonce ::
          f.Some? && tx.nonce == f.value.nonce)
    && (f.Some? ==> f.value in offered && f.value.user == user)
    && Pulled(mined, user) == Credits(ledger, user) + Unbooked(mined, f, user)
  }

  predicate InOrder(offered: set<PullTx>, mined: seq<Mined>) {
    forall i | 0 <= i < |mined| && mined[i].PullMined? :: mined[i].tx.nonce == i && mined[i].tx in offered
  }

  /** Everyone is accounted for, and the chain used nonces in order on transactions it was offered. */
  ghost predicate Safe(w: World) {
    && InOrder(w.offered, w.mined)
    && (forall user | user in w.subs :: w.subs[user].user == user)
    && (forall id | id in w.plans :: w.plans[id].id == id)
    && (forall user: Address :: Accounted(w.offered, w.mined, w.ledger, user, InFlight(w, user)))
  }

  /** The condition under which a step keeps the books: checked against the chain before the step.
      Only faults can fail it. */
  predicate Clean(w: World, e: Event)
    requires Enabled(w, e)
  {
    match e
    case Resolve(user) => InFlight(w, user).value.purpose == Renewal
    case Lost(tx) => InFlight(w, tx.user).Some?
    case ReplaceFails(user, _) => Forgettable(w, user)
    case NonceTooLow(user, lookupFails, _) =>
      var t := InFlight(w, user).value;
      if lookupFails || ReceiptOf(w, t).None? then Forgettable(w, user) else ReceiptOf(w, t).value.success
    case ResolveWithoutPlan(user) => Forgettable(w, user)
    case Checkout(user, _) => Forgettable(w, user)
    case _ => true
  }

  // ---------- every step keeps the books exactly when it is clean ----------

  lemma PulledAppend(mined: seq<Mined>, m: Mined, user: Address)
    ensures Pulled(mined + [m], user)
         == Pulled(mined, user)
            + (if m.PullMined? && m.success && m.tx.user == user then [Credit(m.tx, m.tx.purpose)] else [])
  {
    assert (mined + [m])[..|mined|] == mined;
  }

  lemma CreditsAppend(ledger: seq<Credit>, c: Credit, user: Address)
    ensures Credits(ledger + [c], user) == Credits(ledger, user) + (if c.tx.user == user then [c] else [])
  {
    assert (ledger + [c])[..|ledger|] == ledger;
  }

  lemma UnbookedAppend(mined: seq<Mined>, m: Mined, f: Option<PullTx>, user: Address)
    ensures Unbooked(mined + [m], f, user)
         == if f.Some? && f.value.nonce == |mined|
            then (if m.PullMined? && m.success && m.tx.user == user then [Credit(m.tx, m.tx.purpose)] else [])
            else Unbooked(mined, f, user)
  {
    assert f.Some? && f.value.nonce < |mined| ==> (mined + [m])[f.value.nonce] == mined[f.value.nonce];
  }

  lemma MinedKeepsAccount(offered: set<PullTx>, mined: seq<Mined>, ledger: seq<Credit>, user: Address,
                          f: Option<PullTx>, m: Mined)
    requires Accounted(offered, mined, ledger, user, f)
    requires m.PullMined? ==> m.tx in offered && m.tx.nonce == |mined|
    ensures Accounted(offered, mined + [m], ledger, user, f)
  {
    PulledAppend(mined, m, user);
    UnbookedAppend(mined, m, f, user);
  }

  lemma OfferKeepsAccount(offered: set<PullTx>, mined: seq<Mined>, ledger: seq<Credit>, user: Address,
                          f: Option<PullTx>, tx: PullTx)
    requires Accounted(offered, mined, ledger, user, f)
    requires tx.user == user ==> |mined| <= tx.nonce && (f.Some? ==> tx.nonce == f.value.nonce)
    ensures Accounted(offered + {tx}, mined, ledger, user, if tx.user == user then Some(tx) else f)
    ensures f.Some? ==> Accounted(offered + {tx}, mined, ledger, user, f)
  {
  }

  /** The scheduler drops what is in flight without booking anything. */
  lemma ForgetIff(w: World, user: Address, s: Sub)
    requires Safe(w) && user in w.subs && s.user == user && s.inFlight.None?
    ensures Safe(WithKey(w, user, s)) <==> Forgettable(w, user)
  {
    var w' := WithKey(w, user, s);
    assert Accounted(w.offered, w.mined, w.ledger, user, InFlight(w, user));
    assert InFlight(w', user) == None;
    forall u: Address | u != user ensures Accounted(w'.offered, w'.mined, w'.ledger, u, InFlight(w', u)) {
      assert Accounted(w.offered, w.mined, w.ledger, u, InFlight(w, u));
      assert InFlight(w', u) == InFlight(w, u);
    }
  }

  lemma SameInFlight(w: World, user: Address, s: Sub)
    requires Safe(w) && s.user == user && s.inFlight == InFlight(w, user)
    ensures Safe(WithKey(w, user, s))
  {
    var w' := WithKey(w, user, s);
    assert forall u: Address :: InFlight(w', u) == InFlight(w, u);
  }

  /** One more booking empties the flight: right exactly when it matches the pull that mined. */
  lemma BookingMatches(offered: set<PullTx>, mined: seq<Mined>, ledger: seq<Credit>, user: Address, t: PullTx, booked: Purpose)
    requires Accounted(offered, mined, ledger, user, Some(t))
    requires t.nonce < |mined| && mined[t.nonce].PullMined? && mined[t.nonce].tx == t
    ensures Accounted(offered, mined, ledger + [Credit(t, booked)], user, None)
            <==> mined[t.nonce].success && booked == t.purpose
  {
    CreditsAppend(ledger, Credit(t, booked), user);
    var pulled, credits := Pulled(mined, user), Credits(ledger, user);
    assert Credits(ledger + [Credit(t, booked)], user) + [] == credits + [Credit(t, booked)];
    if mined[t.nonce].success {
      assert pulled == credits + [Credit(t, t.purpose)];
      assert pulled[|credits|] == Credit(t, t.purpose);
      assert (credits + [Credit(t, booked)])[|credits|] == Credit(t, booked);
    } else {
      assert |pulled| == |credits|;
    }
  }

  /** Booking the receipt found for what is in flight. */
  lemma BookIff(w: World, user: Address, booked: Purpose, block: nat)
    requires Safe(w) && InFlight(w, user).Some? && PlanOf(w, user).Some?
    requires ReceiptOf(w, InFlight(w, user).value).Some?
    ensures Safe(Booked(w, user, booked, block))
            <==> ReceiptOf(w, InFlight(w, user).value).value.success && booked == InFlight(w, user).value.purpose
  {
    var w' := Booked(w, user, booked, block);
    var t := InFlight(w, user).value;
    assert Accounted(w.offered, w.mined, w.ledger, user, InFlight(w, user));
    BookingMatches(w.offered, w.mined, w.ledger, user, t, booked);
    assert InFlight(w', user) == None;
    forall u: Address | u != user ensures Accounted(w'.offered, w'.mined, w'.ledger, u, InFlight(w', u)) {
      assert Accounted(w.offered, w.mined, w.ledger, u, InFlight(w, u));
      assert InFlight(w', u) == InFlight(w, u);
      CreditsAppend(w.ledger, Credit(t, booked), u);
    }
  }

  lemma OutsideStepSafe(w: World, e: Event)
    requires Safe(w) && Enabled(w, e) && Owner(e).None? && !e.Lost?
    ensures Safe(Next(w, e))
  {
    var w' := Next(w, e);
    if e.Mine? || e.MineOther? {
      MineKeepsSafe(w, w'.mined[|w.mined|], w');
    } else {
      assert forall u: Address :: InFlight(w', u) == InFlight(w, u);
    }
  }

  lemma LostIff(w: World, tx: PullTx)
    requires Safe(w) && Enabled(w, Lost(tx))
    ensures Safe(Next(w, Lost(tx))) <==> Clean(w, Lost(tx))
  {
    var w' := Next(w, Lost(tx));
    if InFlight(w, tx.user).Some? {
      OfferKeepsSafe(w, tx, false);
    } else {
      assert !Accounted(w'.offered, w'.mined, w'.ledger, tx.user, InFlight(w', tx.user));
    }
  }

  /** The steps that drop what is in flight. */
  predicate Forgets(e: Event) {
    e.Revert? || e.FailUnsent? || e.PlanGone? || e.ReplaceFails? || e.ResolveWithoutPlan?
  }

  lemma ForgettingIff(w: World, e: Event)
    requires Safe(w) && Enabled(w, e) && Forgets(e)
    ensures Safe(Next(w, e)) <==> Clean(w, e)
  {
    ForgetIff(w, e.user, Next(w, e).subs[e.user]);
  }

  lemma NonceTooLowIff(w: World, user: Address, lookupFails: bool, operatorSide: bool)
    requires Safe(w) && Enabled(w, NonceTooLow(user, lookupFails, operatorSide))
    ensures Safe(Next(w, NonceTooLow(user, lookupFails, operatorSide))) <==> Clean(w, NonceTooLow(user, lookupFails, operatorSide))
  {
    var t := InFlight(w, user).value;
    if lookupFails || ReceiptOf(w, t).None? {
      ForgetIff(w, user, Next(w, NonceTooLow(user, lookupFails, operatorSide)).subs[user]);
    } else {
      BookIff(w, user, t.purpose, ReceiptOf(w, t).value.block);
    }
  }

  lemma CheckoutIff(w: World, user: Address, planId: string)
    requires Safe(w) && Enabled(w, Checkout(user, planId))
    ensures Safe(Next(w, Checkout(user, planId))) <==> Clean(w, Checkout(user, planId))
  {
    var s := Next(w, Checkout(user, planId)).subs[user];
    if user in w.subs {
      ForgetIff(w, user, s);
    } else {
      SameInFlight(w, user, s);
    }
  }

  lemma EditKeepsSafe(w: World, e: Event)
    requires Safe(w) && Enabled(w, e) && (e.DropStash? || e.Subscribe? || e.CancelSub?)
    ensures Safe(Next(w, e))
  {
    SameInFlight(w, e.user, Next(w, e).subs[e.user]);
  }

  lemma ReceiptIff(w: World, e: Event)
    requires Safe(w) && Enabled(w, e) && (e.Confirm? || e.Resolve?)
    ensures Safe(Next(w, e)) <==> Clean(w, e)
  {
    var t := InFlight(w, e.user).value;
    BookIff(w, e.user, if e.Confirm? then t.purpose else Renewal, ReceiptOf(w, t).value.block);
  }

  /** The books stay right across a step exactly when the step is clean. */
  lemma SafeIffClean(w: World, e: Event)
    requires Safe(w) && Enabled(w, e)
    ensures Safe(Next(w, e)) <==> Clean(w, e)
  {
    if e.Offer? || e.Replace? {
      OfferKeepsSafe(w, e.tx, true);
    } else if e.Lost? {
      LostIff(w, e.tx);
    } else if e.Confirm? || e.Resolve? {
      ReceiptIff(w, e);
    } else if e.NonceTooLow? {
      NonceTooLowIff(w, e.user, e.lookupFails, e.operatorSide);
    } else if e.Checkout? {
      CheckoutIff(w, e.user, e.planId);
    } else if Forgets(e) {
      ForgettingIff(w, e);
    } else if e.DropStash? || e.Subscribe? || e.CancelSub? {
      EditKeepsSafe(w, e);
    } else {
      OutsideStepSafe(w, e);
    }
  }

  lemma MineKeepsSafe(w: World, m: Mined, w': World)
    requires Safe(w) && w'.offered == w.offered && w'.mined == w.mined + [m]
    requires w'.subs == w.subs && w'.plans == w.plans && w'.ledger == w.ledger
    requires m.PullMined? ==> m.tx in w.offered && m.tx.nonce == |w.mined|
    ensures Safe(w')
  {
    forall u: Address ensures Accounted(w'.offered, w'.mined, w'.ledger, u, InFlight(w', u)) {
      assert InFlight(w', u) == InFlight(w, u);
      MinedKeepsAccount(w.offered, w.mined, w.ledger, u, InFlight(w, u), m);
    }
  }

  lemma OfferKeepsSafe(w: World, tx: PullTx, persisted: bool)
    requires Safe(w) && tx.user in w.subs && |w.mined| <= tx.nonce
    requires InFlight(w, tx.user).Some? ==> tx.nonce == InFlight(w, tx.user).value.nonce
    requires !persisted ==> InFlight(w, tx.user).Some?
    ensures var w1 := w.(offered := w.offered + {tx});
            Safe(if persisted then WithKey(w1, tx.user, w.subs[tx.user].(inFlight := Some(tx))) else w1)
  {
    var w1 := w.(offered := w.offered + {tx});
    var w' := if persisted then WithKey(w1, tx.user, w.subs[tx.user].(inFlight := Some(tx))) else w1;
    forall u: Address ensures Accounted(w'.offered, w'.mined, w'.ledger, u, InFlight(w', u)) {
      assert InFlight(w', u) == if persisted && u == tx.user then Some(tx) else InFlight(w, u);
      assert Accounted(w.offered, w.mined, w.ledger, u, InFlight(w, u));
      OfferKeepsAccount(w.offered, w.mined, w.ledger, u, InFlight(w, u), tx);
    }
  }

  // ---------- what a step leaves alone ----------

  lemma OthersRecordStays(w: World, e: Event, user: Address)
    requires Safe(w) && Enabled(w, e) && Owner(e) != Some(user)
    ensures user in Next(w, e).subs <==> user in w.subs
    ensures user in w.subs ==> Next(w, e).subs[user] == w.subs[user]
  {
    if Owner(e).None? {
    } else if e.Offer? || e.Replace? {
    } else if e.Confirm? || e.Resolve? || e.NonceTooLow? {
    } else if Forgets(e) {
    } else {
    }
  }

  lemma OthersCreditsStay(w: World, e: Event, user: Address)
    requires Safe(w) && Enabled(w, e) && Owner(e) != Some(user)
    ensures Credits(Next(w, e).ledger, user) == Credits(w.ledger, user)
  {
    var w' := Next(w, e);
    if w'.ledger != w.ledger {
      CreditsAppend(w.ledger, w'.ledger[|w.ledger|], user);
      assert Accounted(w.offered, w.mined, w.ledger, e.user, InFlight(w, e.user));
      assert w'.ledger == w.ledger + [w'.ledger[|w.ledger|]];
    }
  }

  lemma OthersUntouched(w: World, e: Event, user: Address)
    requires Safe(w) && Enabled(w, e) && Owner(e) != Some(user)
    ensures user in Next(w, e).subs <==> user in w.subs
    ensures user in w.subs ==> Next(w, e).subs[user] == w.subs[user]
    ensures Credits(Next(w, e).ledger, user) == Credits(w.ledger, user)
  {
    OthersRecordStays(w, e, user);
    OthersCreditsStay(w, e, user);
  }

  /** A clean step that books anything books the successful receipt of what was in flight. */
  lemma BookingStep(w: World, e: Event)
    requires Safe(w) && Enabled(w, e) && Clean(w, e) && Next(w, e).ledger != w.ledger
    ensures e.Confirm? || e.Resolve? || e.NonceTooLow?
    ensures InFlight(w, e.user).Some? && PlanOf(w, e.user).Some?
    ensures var t := InFlight(w, e.user).value;
            && t.user == e.user
            && ReceiptOf(w, t).Some? && ReceiptOf(w, t).value.success
            && Next(w, e) == Booked(w, e.user, t.purpose, ReceiptOf(w, t).value.block)
  {
    assert Accounted(w.offered, w.mined, w.ledger, e.user, InFlight(w, e.user));
  }
}
