/** What the node's answers bring about: when a due subscription that is processed ends up charged,
    settled or failed, read off the books and the record. */
module Outcomes {
  import opened Records
  import opened Calendar
  import opened Token
  import opened Billing
  import opened Engine
  import opened EngineRuns
  import opened Submitter
  import opened Scheduler

  /** The record but for what is in flight. */
  predicate SameButFlight(w: World, w': World, user: Address) {
    user in w.subs ==> user in w'.subs && w'.subs[user] == w.subs[user].(inFlight := w'.subs[user].inFlight)
  }

  lemma QuietStepKeepsOwn(w: World, e: Event, offers: seq<PullTx>, user: Address, busy: set<Address>, frozen: set<string>)
    requires Enabled(w, e) && user in busy && user in w.subs
    requires Background(e, busy, frozen) || ((e.Offer? || e.Replace?) && e.tx in offers)
    ensures SameButFlight(w, Next(w, e), user) && Next(w, e).ledger == w.ledger && Next(w, e).policy == w.policy
    ensures InFlight(Next(w, e), user) == InFlight(w, user) || (InFlight(Next(w, e), user).Some? && InFlight(Next(w, e), user).value in offers)
  {
    if Background(e, busy, frozen) {
      BackgroundStepUndisturbed(w, e, busy, frozen);
    }
  }

  /** The work on a user books nothing before its ending, and writes on the record only what is in
      flight. */
  lemma {:induction false} QuietKeepsOwn(w: World, events: seq<Event>, w': World, offers: seq<PullTx>, user: Address, busy: set<Address>, frozen: set<string>)
    requires Reaches(w, events, w') && QuietRun(events, offers, busy, frozen) && user in busy && user in w.subs
    ensures SameButFlight(w, w', user) && w'.ledger == w.ledger && w'.policy == w.policy
    ensures InFlight(w', user) == InFlight(w, user) || (InFlight(w', user).Some? && InFlight(w', user).value in offers)
    decreases |events|
  {
    if events != [] {
      assert events[0] in events;
      QuietStepKeepsOwn(w, events[0], offers, user, busy, frozen);
      QuietKeepsOwn(Next(w, events[0]), events[1..], w', offers, user, busy, frozen);
    }
  }

  // ---------- the record and the books after each outcome ----------

  /** The period is paid: the due date is one period on, and the slate is clean. */
  predicate PaidFor(s: Sub, after: Sub, plan: Plan, clock: Instant, tx: PullTx, block: nat) {
    && after.status == Active && after.dunningAttempts == 0 && after.inFlight.None? && after.pending == s.pending
    && after.nextAttemptAt == AddPeriod(plan, if s.nextAttemptAt == ZERO_TIME then clock else s.nextAttemptAt)
    && after.lastChargedTx == Some(tx) && after.lastChargedBlock == block && after.lastChargedAt == clock
  }

  /** The stash is paid, and nothing else has changed. */
  predicate StashPaid(s: Sub, after: Sub, clock: Instant, tx: PullTx, block: nat) {
    && after.pending.None? && after.inFlight.None?
    && after.status == s.status && after.dunningAttempts == s.dunningAttempts && after.nextAttemptAt == s.nextAttemptAt
    && after.lastChargedTx == Some(tx) && after.lastChargedBlock == block && after.lastChargedAt == clock
  }

  /** What is in flight is booked when its receipt is heard: as a charge on a success, as a failure of
      the user's on a revert. Otherwise the record and the books stay. */
  lemma HeardReceiptIsBooked(w: World, h: Handling, s: Sub, plan: Plan, replies: Replies, busy: set<Address>, frozen: set<string>)
    requires Dealt(w, h, s, replies, busy, frozen) && s.inFlight.Some?
    requires PlanIn(w, s) == Some(plan) && !replies.lookupFails
    ensures s.user in After(h).subs
    ensures var after, r, tx := After(h).subs[s.user], ReceiptOf(h.before, s.inFlight.value), s.inFlight.value;
            && (!replies.heard || r.None? ==> After(h).ledger == w.ledger && after == s)
            && (replies.heard && r.Some? && r.value.success ==>
                  After(h).ledger == w.ledger + [Credit(tx, Renewal)] && PaidFor(s, after, plan, h.before.clock, tx, r.value.block))
            && (replies.heard && r.Some? && !r.value.success ==>
                  After(h).ledger == w.ledger && after.dunningAttempts == s.dunningAttempts + 1 && after.inFlight.None?)
  {
    QuietKeepsOwn(w, h.quiet, h.before, h.offers, s.user, busy, frozen);
  }

  /** The first offer's receipt, heard in the first turn. */
  predicate MinedAtOnce(submission: Submission, replies: Replies, tx: PullTx, block: nat) {
    && Opened(replies.opening, submission.from.mined) && submission.seen != [] && replies.turns(0).heard
    && ReceiptIn(submission.seen[0].mined, tx) == Some(PullMined(tx, true, block))
  }

  lemma FirstTurnEnds(first: Bid, replies: nat -> Turn, deadline: Instant, from: Sighting, seen: seq<Sighting>, result: SubmitResult, tx: PullTx, block: nat)
    requires first == FirstBid(tx) && Ended(first, replies, deadline, from, seen, result)
    requires seen != [] && replies(0).heard && ReceiptIn(seen[0].mined, tx) == Some(PullMined(tx, true, block))
    ensures result == Receipt(block) && Bids(first, replies, seen).0 == first
  {
    FirstTurnDecides(first, replies, seen, tx, block);
    var before := seen[..|seen| - 1];
    if before != [] {
      assert before[0] == seen[0];
      FirstTurnDecides(first, replies, before, tx, block);
    }
  }

  lemma {:induction false} FirstTurnDecides(first: Bid, replies: nat -> Turn, seen: seq<Sighting>, tx: PullTx, block: nat)
    requires first == FirstBid(tx)
    requires seen != [] && replies(0).heard && ReceiptIn(seen[0].mined, tx) == Some(PullMined(tx, true, block))
    ensures Bids(first, replies, seen) == (first, Some(Receipt(block)))
  {
    var k := |seen| - 1;
    if k > 0 {
      assert seen[..k][0] == seen[0];
      FirstTurnDecides(first, replies, seen[..k], tx, block);
    } else {
      assert seen[..0] == [];
    }
  }

  /** A pull that mines at once is booked for what it is. */
  lemma MinedAtOnceIsBooked(w: World, h: Handling, s: Sub, amount: nat, purpose: Purpose, replies: Replies, tx: PullTx, block: nat,
                            busy: set<Address>, frozen: set<string>)
    requires Pulls(w, h, s, amount, purpose, replies) && Held(w, s, busy, frozen) && Handled(w, h, s.user, busy, frozen) && s.inFlight.None?
    requires replies.opening.quote.Ok? && tx == FirstTx(replies.opening.quote.value, s.user, amount, purpose)
    requires MinedAtOnce(h.submission.value, replies, tx, block)
    ensures h.offers == [tx] && InFlight(h.before, s.user) == Some(tx) && PlanOf(h.before, s.user) == PlanOf(w, s.user)
    ensures PlanOf(w, s.user).Some? ==> After(h) == Booked(h.before, s.user, purpose, block)
    ensures SameButFlight(w, h.before, s.user) && h.before.ledger == w.ledger
  {
    var Submission(result, from, seen) := h.submission.value;
    FirstTurnEnds(FirstBid(tx), replies.turns, w.clock + TOTAL_BUDGET, from, seen, result, tx, block);
    QuietKeepsOwn(w, h.quiet, h.before, h.offers, s.user, busy, frozen);
  }

  /** A due subscription on an active plan is asked for the plan's price: when the pull is accepted and
      mines at once, it is in the books and the period is paid. */
  lemma PromptRenewalIsCharged(w: World, h: Handling, s: Sub, plan: Plan, replies: Replies, tx: PullTx, block: nat,
                               busy: set<Address>, frozen: set<string>)
    requires Dealt(w, h, s, replies, busy, frozen) && s.inFlight.None? && s.pending.None?
    requires PlanIn(w, s) == Some(plan) && plan.active && plan.price.Atomic? && !replies.lookupFails
    requires replies.opening.quote.Ok? && plan.price == Atomic(tx.amount)
    requires tx == FirstTx(replies.opening.quote.value, s.user, tx.amount, Renewal)
    ensures h.submission.Some?
    ensures MinedAtOnce(h.submission.value, replies, tx, block) ==>
              && h.offers == [tx] && After(h).ledger == w.ledger + [Credit(tx, Renewal)] && s.user in After(h).subs
              && PaidFor(s, After(h).subs[s.user], plan, h.before.clock, tx, block)
  {
    if MinedAtOnce(h.submission.value, replies, tx, block) {
      MinedAtOnceIsBooked(w, h, s, tx.amount, Renewal, replies, tx, block, busy, frozen);
    }
  }

  /** One with a stash is asked for just the stash, and keeps its due date. */
  lemma PromptStashIsSettled(w: World, h: Handling, s: Sub, plan: Plan, replies: Replies, tx: PullTx, block: nat,
                             busy: set<Address>, frozen: set<string>)
    requires Dealt(w, h, s, replies, busy, frozen) && s.inFlight.None? && s.pending == Some(Atomic(tx.amount)) && tx.amount > 0
    requires PlanIn(w, s) == Some(plan) && plan.active && !replies.lookupFails
    requires replies.opening.quote.Ok? && tx == FirstTx(replies.opening.quote.value, s.user, tx.amount, Proration)
    ensures h.submission.Some?
    ensures MinedAtOnce(h.submission.value, replies, tx, block) ==>
              && h.offers == [tx] && After(h).ledger == w.ledger + [Credit(tx, Proration)] && s.user in After(h).subs
              && StashPaid(s, After(h).subs[s.user], h.before.clock, tx, block)
  {
    if MinedAtOnce(h.submission.value, replies, tx, block) {
      MinedAtOnceIsBooked(w, h, s, tx.amount, Proration, replies, tx, block, busy, frozen);
    }
  }
}
