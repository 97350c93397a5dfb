/** The scheduler: one tick resolves or charges each due subscription in turn. What a tick does to the
    chain and the store is a run of the charge engine's steps: quiet ones, and at most one more for
    each subscription, which the answers it gets determine. */
module Scheduler {
  import opened Records
  import opened Calendar
  import opened Token
  import opened Billing
  import opened Engine
  import opened SubStore
  import opened Submitter
  import Lock = TickLock

  const BATCH: int := 25

  /** The amounts a plan and a record can ask for are 256-bit words. */
  predicate WordAmounts(s: Sub, plan: Plan) {
    && (plan.price.Atomic? ==> 0 <= plan.price.value <= MAX_UINT)
    && (s.pending.Some? && s.pending.value.Atomic? ==> s.pending.value.value <= MAX_UINT)
  }

  /** A due record in memory that is the persisted one, on a plan nobody is editing. */
  ghost predicate Held(w: World, s: Sub, busy: set<Address>, frozen: set<string>) {
    && s.user in busy && s.planId in frozen
    && s.user in w.subs && w.subs[s.user] == s
    && Due(s, w.clock)
    && (s.planId in w.plans ==> WordAmounts(s, w.plans[s.planId]))
  }

  /** What the outside answers while one subscription is processed: whether the plan lookup fails,
      whether the receipt of what is in flight is heard, and the node's part in a submission. */
  datatype Replies = Replies(lookupFails: bool, heard: bool, opening: Opening, turns: nat -> Turn)

  /** How one subscription was processed: the quiet run and where it led, the offers and the result
      of a submission, and the engine step that booked the outcome, if any. */
  datatype Handling = Handling(
    quiet: seq<Event>, before: World, offers: seq<PullTx>, submission: Option<Submission>, ending: Option<Event>)

  /** A submission's result, what its first broadcast saw, and what each turn after it saw. */
  datatype Submission = Submission(result: SubmitResult, from: Sighting, seen: seq<Sighting>)

  /** The steps that book an outcome for a user. */
  predicate EndsFor(e: Event, user: Address) {
    match e
    case Confirm(u) => u == user
    case Resolve(u) => u == user
    case Revert(u, _) => u == user
    case FailUnsent(u, _) => u == user
    case PlanGone(u) => u == user
    case DropStash(u) => u == user
    case ReplaceFails(u, _) => u == user
    case NonceTooLow(u, _, _) => u == user
    case ResolveWithoutPlan(u) => u == user
    case _ => false
  }

  function After(h: Handling): World {
    if h.ending.Some? && Enabled(h.before, h.ending.value) then Next(h.before, h.ending.value) else h.before
  }

  /** Work on one user that is quiet but for its ending. */
  ghost predicate Handled(w: World, h: Handling, user: Address, busy: set<Address>, frozen: set<string>) {
    && Worked(w, h.quiet, h.before, h.offers, user, busy, frozen)
    && (h.ending.Some? ==> EndsFor(h.ending.value, user) && Enabled(h.before, h.ending.value))
  }

  function PlanIn(w: World, s: Sub): Option<Plan> {
    if s.planId in w.plans then Some(w.plans[s.planId]) else None
  }

  predicate PositiveStash(s: Sub) {
    s.pending.Some? && s.pending.value.Atomic? && s.pending.value.value > 0
  }

  /** An amount was submitted, and its receipt or failure booked in one step; a stuck or interrupted
      submission books nothing. */
  ghost predicate Pulls(w: World, h: Handling, s: Sub, amount: nat, purpose: Purpose, replies: Replies) {
    && h.submission.Some?
    && var Submission(result, from, seen) := h.submission.value;
    && Submitted(replies.opening, replies.turns, s.user, amount, purpose, w.clock + TOTAL_BUDGET, from, seen, result, h.offers)
    && w.mined <= from.mined && w.clock < from.clock && Sighting(h.before.mined, h.before.clock) == Latest(from, seen)
    && match result
       case Receipt(block) =>
         && h.ending.Some? && Concludes(h.before, s.user, purpose, result, h.ending.value)
         && After(h) == Booked(h.before, s.user, purpose, block)
       case Failure(operatorSide) =>
         && h.ending.Some? && Concludes(h.before, s.user, purpose, result, h.ending.value)
         && After(h) == Failed(h.before, s.user, operatorSide)
       case Interrupted => h.ending == None
       case Stuck => h.ending == None
  }

  /** Nothing but the one step, if any. */
  predicate Only(w: World, h: Handling, ending: Option<Event>) {
    h.quiet == [] && h.before == w && h.offers == [] && h.ending == ending
  }

  /** What is in flight is cleared without a plan, booked as a renewal on a success, failed on a
      revert, and left alone while no receipt is heard. */
  ghost predicate Resolves(w: World, h: Handling, s: Sub, replies: Replies)
    requires s.inFlight.Some?
  {
    if replies.lookupFails || PlanIn(w, s).None? then Only(w, h, Some(ResolveWithoutPlan(s.user)))
    else
      var r := ReceiptOf(h.before, s.inFlight.value);
      && h.offers == []
      && h.ending == if !replies.heard || r.None? then None
                     else if r.value.success then Some(Resolve(s.user)) else Some(Revert(s.user, false))
  }

  /** A stash that is no positive amount is dropped, and any other is pulled. */
  ghost predicate SettlesStash(w: World, h: Handling, s: Sub, replies: Replies) {
    if PositiveStash(s) then Pulls(w, h, s, s.pending.value.value, Proration, replies)
    else Only(w, h, Some(DropStash(s.user)))
  }

  /** The outcome of processing one due subscription, branch by branch. */
  ghost predicate Processed(w: World, h: Handling, s: Sub, replies: Replies) {
    var plan := PlanIn(w, s);
    if s.inFlight.Some? then Resolves(w, h, s, replies)
    else if replies.lookupFails then Only(w, h, None)
    else if plan.None? || !plan.value.active then Only(w, h, Some(PlanGone(s.user)))
    else if s.pending.Some? then SettlesStash(w, h, s, replies)
    else if plan.value.price.Malformed? then Only(w, h, Some(PlanGone(s.user)))
    else plan.value.price.value >= 0 && Pulls(w, h, s, plan.value.price.value, Renewal, replies)
  }

  lemma EndingKeepsOthers(w: World, e: Event, user: Address, busy: set<Address>, frozen: set<string>)
    requires Enabled(w, e) && EndsFor(e, user)
    ensures OthersKept(w, Next(w, e), user, busy, frozen) && Next(w, e).offered == w.offered
  {
  }

  lemma HandledKeepsOthers(w: World, h: Handling, user: Address, busy: set<Address>, frozen: set<string>)
    requires Handled(w, h, user, busy, frozen)
    ensures OthersKept(w, After(h), user, busy, frozen)
  {
    if h.ending.Some? {
      EndingKeepsOthers(h.before, h.ending.value, user, busy, frozen);
      OthersKeptTrans(w, h.before, After(h), user, busy, frozen);
    }
  }

  lemma OnlyIsHandled(w: World, h: Handling, user: Address, busy: set<Address>, frozen: set<string>)
    requires Only(w, h, h.ending)
    requires h.ending.Some? ==> EndsFor(h.ending.value, user) && Enabled(w, h.ending.value)
    ensures Handled(w, h, user, busy, frozen)
  {
  }

  class Scheduler {
    const client: Client
    const locker: Lock.RedisLocker
    const instanceId: string

    constructor (client: Client, locker: Lock.RedisLocker, instanceId: string)
      ensures this.client == client && this.locker == locker && this.instanceId == instanceId
    {
      this.client, this.locker, this.instanceId := client, locker, instanceId;
    }

    ghost function State(): World
      reads client, client.node, client.store
    {
      client.State()
    }

    method MarkCharged(sub: Subscription, plan: Plan, tx: PullTx, block: nat)
      modifies sub, client.store`subs, client`ledger
      ensures sub.Value() == ChargedSub(old(sub.Value()), plan, client.node.clock, tx, block)
      ensures client.store.subs == old(client.store.subs)[sub.user := sub.Value()]
      ensures client.ledger == old(client.ledger) + [Credit(tx, Renewal)]
    {
      var now := client.node.clock;
      var prevAttempt := sub.nextAttemptAt;
      if prevAttempt == ZERO_TIME {
        prevAttempt := now;
      }
      sub.nextAttemptAt := AddPeriod(plan, prevAttempt);
      sub.status := Active;
      sub.dunningAttempts := 0;
      sub.lastChargedTx := Some(tx);
      sub.lastChargedBlock := block;
      sub.lastChargedAt := now;
      sub.inFlight := None;
      client.store.UpsertSubscription(sub.Value());
      client.ledger := client.ledger + [Credit(tx, Renewal)];
    }

    method MarkCancelled(sub: Subscription)
      modifies sub, client.store`subs
      ensures sub.Value() == CancelledSub(old(sub.Value()), client.node.clock)
      ensures client.store.subs == old(client.store.subs)[sub.user := sub.Value()]
    {
      sub.status := Cancelled;
      sub.nextAttemptAt := RolledAddMonths(client.node.clock, 1200);
      sub.inFlight := None;
      client.store.UpsertSubscription(sub.Value());
    }

    method HandleFailure(sub: Subscription, operatorSide: bool)
      modifies sub, client.store`subs
      ensures sub.Value() == FailedSub(old(sub.Value()), client.policy, client.node.clock, operatorSide)
      ensures client.store.subs == old(client.store.subs)[sub.user := sub.Value()]
    {
      var now := client.node.clock;
      sub.inFlight := None;
      if operatorSide {
        sub.nextAttemptAt := now + 300 * SECOND;
        client.store.UpsertSubscription(sub.Value());
        return;
      }
      sub.dunningAttempts := sub.dunningAttempts + 1;
      var next := client.policy.NextRetry(sub.dunningAttempts, now);
      if next.None? {
        MarkCancelled(sub);
        return;
      }
      sub.status := PastDue;
      sub.nextAttemptAt := next.value;
      client.store.UpsertSubscription(sub.Value());
    }

    /** The end of pullPending: the stash is settled, the billing anchor stays. */
    method Settle(sub: Subscription, block: nat)
      requires sub.inFlight.Some?
      modifies sub, client.store`subs, client`ledger
      ensures sub.Value() == SettledSub(old(sub.Value()), client.node.clock, block)
      ensures client.store.subs == old(client.store.subs)[sub.user := sub.Value()]
      ensures client.ledger == old(client.ledger) + [Credit(old(sub.inFlight.value), Proration)]
    {
      client.ledger := client.ledger + [Credit(sub.inFlight.value, Proration)];
      sub.pending := None;
      sub.lastChargedTx := sub.inFlight;
      sub.lastChargedBlock := block;
      sub.lastChargedAt := client.node.clock;
      sub.inFlight := None;
      client.store.UpsertSubscription(sub.Value());
    }

    /** A receipt is booked as a renewal or a settlement, and a failure goes to dunning. */
    method Book(sub: Subscription, plan: Plan, purpose: Purpose, result: SubmitResult, ghost e: Event)
      requires result.Receipt? || result.Failure?
      requires Concludes(State(), sub.user, purpose, result, e)
      requires sub.user in client.store.subs && client.store.subs[sub.user] == sub.Value()
      requires sub.planId in client.store.plans && client.store.plans[sub.planId] == plan
      modifies client.store`subs, client`ledger, sub
      ensures Enabled(old(State()), e) && State() == Next(old(State()), e)
      ensures result.Receipt? ==> State() == Booked(old(State()), old(sub.user), purpose, result.block)
      ensures result.Failure? ==> State() == Failed(old(State()), old(sub.user), result.operatorSide)
    {
      ConclusionBooks(State(), sub.user, purpose, result, e);
      if result.Failure? {
        HandleFailure(sub, result.operatorSide);
      } else if purpose == Renewal {
        MarkCharged(sub, plan, sub.inFlight.value, result.block);
      } else {
        Settle(sub, result.block);
      }
    }

    /** Submit the amount owed and book the outcome; a stuck or interrupted submission stays in
        flight. */
    method PullAndBook(sub: Subscription, plan: Plan, amount: nat, purpose: Purpose, replies: Replies,
                       ghost busy: set<Address>, ghost frozen: set<string>)
      returns (ghost h: Handling)
      requires Held(State(), sub.Value(), busy, frozen)
      requires sub.planId in client.store.plans && client.store.plans[sub.planId] == plan
      requires CanOffer(State(), PullTx(|client.node.mined|, sub.user, amount, purpose, 0, 0))
      modifies client.node, client.store, client`ledger, sub
      ensures Handled(old(State()), h, old(sub.user), busy, frozen) && State() == After(h)
      ensures Pulls(old(State()), h, old(sub.Value()), amount, purpose, replies)
    {
      var result, offers;
      ghost var from, seen, quiet, last;
      result, offers, from, seen, quiet, last := client.SubmitAndWait(sub, amount, purpose, replies.opening, replies.turns, busy, frozen);
      h := Handling(quiet, State(), offers, Some(Submission(result, from, seen)), None);
      if result.Receipt? || result.Failure? {
        h := h.(ending := Some(last));
        Book(sub, plan, purpose, result, last);
      }
    }

    /** Settles the stash before anything else; a stash that is no positive amount is dropped. */
    method PullPending(sub: Subscription, plan: Plan, replies: Replies, ghost busy: set<Address>, ghost frozen: set<string>)
      returns (ghost h: Handling)
      requires Held(State(), sub.Value(), busy, frozen)
      requires sub.pending.Some? && sub.inFlight.None?
      requires sub.planId in client.store.plans && client.store.plans[sub.planId] == plan && plan.active
      modifies client.node, client.store, client`ledger, sub
      ensures Handled(old(State()), h, old(sub.user), busy, frozen) && State() == After(h)
      ensures SettlesStash(old(State()), h, old(sub.Value()), replies)
    {
      if sub.pending.value.Malformed? || sub.pending.value.value <= 0 {
        h := Handling([], State(), [], None, Some(DropStash(sub.user)));
        OnlyIsHandled(State(), h, sub.user, busy, frozen);
        sub.pending := None;
        client.store.UpsertSubscription(sub.Value());
        return;
      }
      h := PullAndBook(sub, plan, sub.pending.value.value, Proration, replies, busy, frozen);
    }

    method BookReceipt(sub: Subscription, plan: Plan, receipt: Mined)
      requires sub.inFlight.Some? && ReceiptIn(client.node.mined, sub.inFlight.value) == Some(receipt)
      requires sub.user in client.store.subs && client.store.subs[sub.user] == sub.Value()
      requires sub.planId in client.store.plans && client.store.plans[sub.planId] == plan
      modifies client.store`subs, client`ledger, sub
      ensures var e := if receipt.success then Resolve(old(sub.user)) else Revert(old(sub.user), false);
              Enabled(old(State()), e) && State() == Next(old(State()), e)
    {
      if receipt.success {
        MarkCharged(sub, plan, sub.inFlight.value, receipt.block);
      } else {
        HandleFailure(sub, false);
      }
    }

    /** Without a plan what is in flight is forgotten. */
    method ClearInFlight(sub: Subscription, ghost busy: set<Address>, ghost frozen: set<string>) returns (ghost h: Handling)
      requires Held(State(), sub.Value(), busy, frozen) && sub.inFlight.Some?
      modifies client.store`subs, sub`inFlight
      ensures Handled(old(State()), h, sub.user, busy, frozen) && State() == After(h)
      ensures Only(old(State()), h, Some(ResolveWithoutPlan(sub.user)))
    {
      h := Handling([], State(), [], None, Some(ResolveWithoutPlan(sub.user)));
      OnlyIsHandled(State(), h, sub.user, busy, frozen);
      sub.inFlight := None;
      client.store.UpsertSubscription(sub.Value());
    }

    /** Waits for the receipt of what is in flight. */
    method AwaitInFlight(sub: Subscription, heard: bool, ghost busy: set<Address>, ghost frozen: set<string>)
      returns (receipt: Option<Mined>, ghost h: Handling)
      requires Held(State(), sub.Value(), busy, frozen) && sub.inFlight.Some?
      modifies client.node, client.store
      ensures receipt == if heard then ReceiptIn(client.node.mined, sub.inFlight.value) else None
      ensures h.before == State() && h.ending == None && h.offers == [] && Handled(old(State()), h, sub.user, busy, frozen)
      ensures sub.user in client.store.subs && client.store.subs[sub.user] == sub.Value()
      ensures PlanIn(State(), sub.Value()) == PlanIn(old(State()), sub.Value())
    {
      ghost var quiet := client.Elapse(busy, frozen);
      WaitedWorks(old(State()), quiet, State(), [], sub.user, busy, frozen);
      h := Handling(quiet, State(), [], None, None);
      receipt := if heard then ReceiptIn(client.node.mined, sub.inFlight.value) else None;
    }

    /** Looks for the receipt of an earlier submission. A success is always booked as a renewal. */
    method ResolveInFlight(sub: Subscription, replies: Replies, ghost busy: set<Address>, ghost frozen: set<string>)
      returns (ghost h: Handling)
      requires Held(State(), sub.Value(), busy, frozen) && sub.inFlight.Some?
      modifies client.node, client.store, client`ledger, sub
      ensures Handled(old(State()), h, old(sub.user), busy, frozen) && State() == After(h)
      ensures Resolves(old(State()), h, old(sub.Value()), replies)
    {
      var plan := client.store.GetPlan(sub.planId);
      if plan.None? || replies.lookupFails {
        h := ClearInFlight(sub, busy, frozen);
        return;
      }
      var receipt;
      receipt, h := AwaitInFlight(sub, replies.heard, busy, frozen);
      if receipt.Some? {
        h := h.(ending := Some(if receipt.value.success then Resolve(sub.user) else Revert(sub.user, false)));
        BookReceipt(sub, plan.value, receipt.value);
      }
    }

    /** Cancels a subscription whose plan is gone, switched off, or without a price. */
    method CancelWithoutPlan(sub: Subscription, ghost busy: set<Address>, ghost frozen: set<string>) returns (ghost h: Handling)
      requires Held(State(), sub.Value(), busy, frozen) && Enabled(State(), PlanGone(sub.user))
      modifies client.store`subs, sub
      ensures Handled(old(State()), h, old(sub.user), busy, frozen) && State() == After(h)
      ensures Only(old(State()), h, Some(PlanGone(old(sub.user))))
    {
      h := Handling([], State(), [], None, Some(PlanGone(sub.user)));
      OnlyIsHandled(State(), h, sub.user, busy, frozen);
      MarkCancelled(sub);
    }

    /** Resolves what is in flight, or charges what is owed. */
    method ProcessOne(sub: Subscription, replies: Replies, ghost busy: set<Address>, ghost frozen: set<string>)
      returns (ghost h: Handling)
      requires Held(State(), sub.Value(), busy, frozen)
      modifies client.node, client.store, client`ledger, sub
      ensures Handled(old(State()), h, old(sub.user), busy, frozen) && State() == After(h)
      ensures Processed(old(State()), h, old(sub.Value()), replies)
    {
      if sub.inFlight.Some? {
        h := ResolveInFlight(sub, replies, busy, frozen);
        return;
      }
      var plan := client.store.GetPlan(sub.planId);
      if replies.lookupFails {
        h := Handling([], State(), [], None, None);
        OnlyIsHandled(State(), h, sub.user, busy, frozen);
        return;
      }
      if plan.None? || !plan.value.active {
        h := CancelWithoutPlan(sub, busy, frozen);
        return;
      }
      if sub.pending.Some? {
        h := PullPending(sub, plan.value, replies, busy, frozen);
        return;
      }
      if plan.value.price.Malformed? {
        h := CancelWithoutPlan(sub, busy, frozen);
        return;
      }
      h := PullAndBook(sub, plan.value, plan.value.price.value, Renewal, replies, busy, frozen);
    }

    /** The heartbeat beside a tick: the renewals sent up to now, until one fails or finds the lock
        gone. */
    method HeartbeatLock(pulse: Lock.Pulse, beats: seq<Lock.Beat>) returns (pulse': Lock.Pulse)
      requires locker.entry == pulse.entry
      modifies locker
      ensures pulse' == Lock.Beaten(pulse, beats, client.node.clock, instanceId) && locker.entry == pulse'.entry
    {
      pulse' := pulse;
      while !pulse'.lost && pulse'.next < |beats| && pulse'.at + beats[pulse'.next].after <= client.node.clock
        invariant Lock.Beaten(pulse', beats, client.node.clock, instanceId) == Lock.Beaten(pulse, beats, client.node.clock, instanceId)
        invariant locker.entry == pulse'.entry
        decreases |beats| - pulse'.next
      {
        var beat := beats[pulse'.next];
        var at, held := pulse'.at + beat.after, false;
        if beat.reached {
          held := locker.Renew(instanceId, Lock.TICK_LOCK_TTL, at);
        }
        pulse' := Lock.Pulse(locker.entry, at, pulse'.next + 1, !(held && beat.answered));
      }
    }

    /** One due record, copied into memory and processed. */
    method ChargeOne(s: Sub, replies: Replies, ghost busy: set<Address>, ghost frozen: set<string>) returns (ghost h: Handling)
      requires Held(State(), s, busy, frozen)
      modifies client.node, client.store, client`ledger
      ensures Dealt(old(State()), h, s, replies, busy, frozen) && State() == After(h)
    {
      var sub := new Subscription.CopyOf(s);
      h := ProcessOne(sub, replies, busy, frozen);
    }

    /** The next record of the batch, in the tick that began in `start`. */
    method ChargeNext(due: seq<Sub>, replies: nat -> Replies, k: nat, ghost start: World, ghost log: seq<Handling>,
                      ghost busy: set<Address>, ghost frozen: set<string>)
      returns (ghost log': seq<Handling>)
      requires DistinctUsers(due) && k < |due| && Midway(start, due, replies, k, log, State(), busy, frozen)
      modifies client.node, client.store, client`ledger
      ensures Midway(start, due, replies, k + 1, log', State(), busy, frozen)
      ensures log <= log' && old(client.node.clock) <= client.node.clock
    {
      ghost var before := State();
      ghost var h := ChargeOne(due[k], replies(k), busy, frozen);
      HandledKeepsOthers(before, h, due[k].user, busy, frozen);
      HeldStays(before, State(), due, k, busy, frozen);
      ChargedMore(start, due, replies, log, h, busy, frozen);
      log' := log + [h];
    }

    /** The body of a tick, under the lock: each due subscription in turn, until the loss of the lock
        is seen or the context has ended. The heartbeat goes on to the end. */
    method Charge(due: seq<Sub>, replies: nat -> Replies, pulse: Lock.Pulse, beats: seq<Lock.Beat>, ended: seq<bool>,
                  ghost busy: set<Address>, ghost frozen: set<string>)
      returns (processed: nat, pulse': Lock.Pulse, ghost log: seq<Handling>)
      requires DistinctUsers(due) && HeldFrom(State(), due, 0, busy, frozen) && |due| <= |ended|
      requires locker.entry == pulse.entry && pulse.at <= client.node.clock
      modifies client.node, client.store, client`ledger, locker
      ensures processed <= |due| && Midway(old(State()), due, replies, processed, log, State(), busy, frozen)
      ensures WentOn(old(State()), log, processed, pulse, beats, ended, instanceId)
      ensures pulse' == Lock.Beaten(pulse, beats, State().clock, instanceId) && locker.entry == pulse'.entry
      ensures processed < |due| ==> ended[processed] || pulse'.lost
    {
      processed, pulse', log := 0, pulse, [];
      ghost var start, heard := State(), pulse.at - 1;
      while processed < |due|
        invariant processed <= |due| && Midway(start, due, replies, processed, log, State(), busy, frozen)
        invariant WentOn(start, log, processed, pulse, beats, ended, instanceId)
        invariant locker.entry == pulse'.entry && heard <= State().clock && pulse' == Lock.Beaten(pulse, beats, heard, instanceId)
      {
        pulse' := Listen(pulse, pulse', heard, beats);
        heard := State().clock;
        if pulse'.lost || ended[processed] {
          return;
        }
        ghost var before := log;
        log := ChargeNext(due, replies, processed, start, log, busy, frozen);
        WentOnMore(start, before, log, processed, pulse, beats, ended, instanceId);
        processed := processed + 1;
      }
      pulse' := Listen(pulse, pulse', heard, beats);
    }

    /** The heartbeat brought up to now. */
    method Listen(ghost first: Lock.Pulse, pulse: Lock.Pulse, ghost heard: Instant, beats: seq<Lock.Beat>) returns (pulse': Lock.Pulse)
      requires locker.entry == pulse.entry && heard <= client.node.clock && pulse == Lock.Beaten(first, beats, heard, instanceId)
      modifies locker
      ensures pulse' == Lock.Beaten(first, beats, client.node.clock, instanceId) && locker.entry == pulse'.entry
    {
      pulse' := HeartbeatLock(pulse, beats);
      Lock.BeatenOn(first, beats, heard, client.node.clock, instanceId);
    }

    /** Under the lock: the due list of the store, up to the batch size, then the charges. An
        instance that finds the lock held does nothing. The release is sent in the tick's own
        context, so it does not reach the lock once that has ended. */
    method Tick(replies: nat -> Replies, beats: seq<Lock.Beat>, ended: seq<bool>, releases: bool,
                ghost busy: set<Address>, ghost frozen: set<string>)
      returns (due: seq<Sub>, processed: nat, ghost log: seq<Handling>)
      requires |ended| == BATCH && forall u | u in client.store.subs :: client.store.subs[u].user == u
      requires forall u | u in client.store.subs && Due(client.store.subs[u], client.node.clock) ::
                 Held(State(), client.store.subs[u], busy, frozen)
      modifies client.node, client.store, client`ledger, locker
      ensures processed == |log| <= |due| <= BATCH && Charged(old(State()), due, replies, log, busy, frozen)
      ensures State() == StateAfter(old(State()), log, processed)
      ensures if Lock.HolderAt(old(locker.entry), old(State()).clock).Some?
              then due == [] && locker.entry == old(locker.entry)
              else
                var first := Taken(instanceId, old(State()).clock);
                var last := Lock.Beaten(first, beats, State().clock, instanceId);
                && EarliestDue(old(client.store.subs), old(State()).clock, BATCH, due)
                && WentOn(old(State()), log, processed, first, beats, ended, instanceId)
                && (processed < |due| ==> ended[processed] || last.lost)
                && locker.entry == if releases && !(processed < |due| && ended[processed])
                                   then Lock.Released(last.entry, instanceId, State().clock) else last.entry
    {
      var acquired := locker.Acquire(instanceId, Lock.TICK_LOCK_TTL, client.node.clock);
      if !acquired {
        return [], 0, [];
      }
      var first := Taken(instanceId, client.node.clock);
      due := client.store.DueBefore(client.node.clock, BATCH);
      assert forall i | 0 <= i < |due| :: due[i] in due;
      var last;
      processed, last, log := Charge(due, replies, first, beats, ended, busy, frozen);
      if releases && !(processed < |due| && ended[processed]) {
        locker.Release(instanceId, client.node.clock);
      }
    }
  }

  /** A lock just acquired. */
  function Taken(holder: string, now: Instant): Lock.Pulse {
    Lock.Pulse(Some(Lock.Entry(holder, now + Lock.TICK_LOCK_TTL)), now, 0, false)
  }

  /** Before each of the first k subscriptions the context had not ended, and no beat sent by then had
      signalled the loss of the lock. */
  ghost predicate WentOn(start: World, log: seq<Handling>, k: nat, first: Lock.Pulse, beats: seq<Lock.Beat>, ended: seq<bool>, holder: string)
    decreases k
  {
    k == 0
    || (k <= |log| && k <= |ended|
        && WentOn(start, log, k - 1, first, beats, ended, holder)
        && !ended[k - 1] && !Lock.Beaten(first, beats, StateAfter(start, log, k - 1).clock, holder).lost)
  }

  lemma {:induction false} WentOnSame(start: World, log: seq<Handling>, more: seq<Handling>, k: nat, first: Lock.Pulse,
                                      beats: seq<Lock.Beat>, ended: seq<bool>, holder: string)
    requires k <= |log| && WentOn(start, log, k, first, beats, ended, holder)
    ensures WentOn(start, log + more, k, first, beats, ended, holder)
    decreases k
  {
    if k > 0 {
      WentOnSame(start, log, more, k - 1, first, beats, ended, holder);
      SameStateAfter(start, log, more, k - 1);
    }
  }

  lemma WentOnMore(start: World, before: seq<Handling>, log: seq<Handling>, k: nat, first: Lock.Pulse,
                   beats: seq<Lock.Beat>, ended: seq<bool>, holder: string)
    requires k == |before| < |ended| && |log| == k + 1 && before <= log
    requires WentOn(start, before, k, first, beats, ended, holder)
    requires !ended[k] && !Lock.Beaten(first, beats, StateAfter(start, before, k).clock, holder).lost
    ensures WentOn(start, log, k + 1, first, beats, ended, holder)
  {
    assert log == before + log[k..];
    WentOnSame(start, before, log[k..], k, first, beats, ended, holder);
    SameStateAfter(start, before, log[k..], k);
  }

  ghost predicate HeldFrom(w: World, due: seq<Sub>, k: nat, busy: set<Address>, frozen: set<string>) {
    forall i | k <= i < |due| :: Held(w, due[i], busy, frozen)
  }

  /** Processing one subscription leaves the rest of the batch as it was read. */
  lemma HeldStays(w: World, w': World, due: seq<Sub>, k: nat, busy: set<Address>, frozen: set<string>)
    requires k < |due| && DistinctUsers(due) && HeldFrom(w, due, k, busy, frozen)
    requires OthersKept(w, w', due[k].user, busy, frozen)
    ensures HeldFrom(w', due, k + 1, busy, frozen)
  {
  }

  /** The Redis store's due list may be charged in the same way: on whole-second times from 1970 on its
      records are due, of different users, and held. */
  lemma RedisListMayBeCharged(w: World, due: seq<Sub>, busy: set<Address>, frozen: set<string>)
    requires FirstScored(w.subs, w.clock, BATCH, due)
    requires 0 <= w.clock && w.clock % SECOND == 0 && forall u | u in w.subs :: w.subs[u].nextAttemptAt % SECOND == 0
    requires forall u | u in w.subs && Due(w.subs[u], w.clock) :: Held(w, w.subs[u], busy, frozen)
    ensures DistinctUsers(due) && HeldFrom(w, due, 0, busy, frozen)
  {
    ScoredListIsDistinct(w.subs, w.clock, BATCH, due);
    forall i | 0 <= i < |due| ensures Held(w, due[i], busy, frozen) {
      assert due[i] in due;
      DueAgreement(due[i], w.clock);
    }
  }

  // ---------- what a tick was ----------

  /** Where the first k subscriptions have led. */
  function StateAfter(w: World, log: seq<Handling>, k: nat): World
    requires k <= |log|
  {
    if k == 0 then w else After(log[k - 1])
  }

  /** A due record, still the persisted one, has been processed. */
  ghost predicate Dealt(w: World, h: Handling, s: Sub, replies: Replies, busy: set<Address>, frozen: set<string>) {
    Held(w, s, busy, frozen) && Handled(w, h, s.user, busy, frozen) && Processed(w, h, s, replies)
  }

  function Entry(log: seq<Handling>, k: nat): Handling
    requires k < |log|
  {
    log[k]
  }

  /** The log of a tick: each subscription in turn, processed as the answers to it determine. */
  ghost predicate Charged(w: World, due: seq<Sub>, replies: nat -> Replies, log: seq<Handling>, busy: set<Address>, frozen: set<string>) {
    && |log| <= |due|
    && forall k {:trigger Entry(log, k)} | 0 <= k < |log| ::
         Dealt(StateAfter(w, log, k), Entry(log, k), due[k], replies(k), busy, frozen)
  }

  /** A tick after k subscriptions, the rest of its batch still as it was read. */
  ghost predicate Midway(start: World, due: seq<Sub>, replies: nat -> Replies, k: nat, log: seq<Handling>, w: World,
                         busy: set<Address>, frozen: set<string>)
  {
    && k == |log| && Charged(start, due, replies, log, busy, frozen) && w == StateAfter(start, log, k)
    && HeldFrom(w, due, k, busy, frozen)
  }

  lemma SameStateAfter(w: World, log: seq<Handling>, more: seq<Handling>, k: nat)
    requires k <= |log|
    ensures StateAfter(w, log + more, k) == StateAfter(w, log, k)
  {
  }

  lemma ChargedMore(w: World, due: seq<Sub>, replies: nat -> Replies, log: seq<Handling>, h: Handling, busy: set<Address>, frozen: set<string>)
    requires Charged(w, due, replies, log, busy, frozen) && |log| < |due|
    requires Dealt(StateAfter(w, log, |log|), h, due[|log|], replies(|log|), busy, frozen)
    ensures Charged(w, due, replies, log + [h], busy, frozen)
    ensures StateAfter(w, log + [h], |log| + 1) == After(h)
  {
    var all := log + [h];
    forall k | 0 <= k < |all| ensures Dealt(StateAfter(w, all, k), Entry(all, k), due[k], replies(k), busy, frozen) {
      SameStateAfter(w, log, [h], k);
      if k < |log| {
        assert Entry(all, k) == Entry(log, k);
      }
    }
  }

  lemma ChargedLess(w: World, due: seq<Sub>, replies: nat -> Replies, log: seq<Handling>, busy: set<Address>, frozen: set<string>)
    requires Charged(w, due, replies, log, busy, frozen) && log != []
    ensures var k := |log| - 1;
            && Charged(w, due, replies, log[..k], busy, frozen)
            && StateAfter(w, log[..k], k) == StateAfter(w, log, k)
            && Dealt(StateAfter(w, log, k), log[k], due[k], replies(k), busy, frozen)
  {
    var n := |log| - 1;
    assert log == log[..n] + [log[n]];
    assert Entry(log, n) == log[n];
    forall k | 0 <= k < n ensures Dealt(StateAfter(w, log[..n], k), Entry(log[..n], k), due[k], replies(k), busy, frozen) {
      SameStateAfter(w, log[..n], [log[n]], k);
      assert Entry(log[..n], k) == Entry(log, k);
    }
    SameStateAfter(w, log[..n], [log[n]], n);
  }
}
