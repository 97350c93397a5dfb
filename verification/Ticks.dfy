/** What the theorems about runs say of a tick: it is one run of the engine, clean whenever its
    endings are, and then every pull is booked exactly once. */
module Ticks {
  import opened Token
  import opened Billing
  import opened Engine
  import opened EngineRuns
  import opened Submitter
  import opened Scheduler

  function EndingOf(h: Handling): seq<Event> {
    if h.ending.Some? then [h.ending.value] else []
  }

  /** The engine steps of a tick, in order. */
  function EventsOf(log: seq<Handling>): seq<Event> {
    if log == [] then []
    else EventsOf(log[..|log| - 1]) + (log[|log| - 1].quiet + EndingOf(log[|log| - 1]))
  }

  /** No checkout of another user drops a flight that can still pull. */
  ghost predicate CheckoutsClean(w: World, events: seq<Event>)
    decreases |events|
  {
    events == [] || !Enabled(w, events[0])
    || ((events[0].Checkout? ==> Clean(w, events[0])) && CheckoutsClean(Next(w, events[0]), events[1..]))
  }

  /** The condition on one subscription's processing: its ending is clean, and so are the checkouts
      beside it. */
  ghost predicate CleanHandling(w: World, h: Handling) {
    && CheckoutsClean(w, h.quiet)
    && (h.ending.Some? && Enabled(h.before, h.ending.value) ==> Clean(h.before, h.ending.value))
  }

  ghost predicate CleanTick(w: World, log: seq<Handling>)
    decreases |log|
  {
    log == []
    || var k := |log| - 1;
       CleanTick(w, log[..k]) && CleanHandling(StateAfter(w, log, k), log[k])
  }

  /** Only four endings can be unclean. */
  lemma EndingsThatNeedCare(w: World, e: Event, user: Address)
    requires EndsFor(e, user) && Enabled(w, e)
    requires !e.Resolve? && !e.ReplaceFails? && !e.NonceTooLow? && !e.ResolveWithoutPlan?
    ensures Clean(w, e)
  {
  }

  lemma {:induction false} CleanTrans(w: World, a: seq<Event>, mid: World, b: seq<Event>, last: World)
    requires CleanRun(w, a, mid) && CleanRun(mid, b, last)
    ensures CleanRun(w, a + b, last)
    decreases |a|
  {
    if a == [] {
      assert a + b == b;
    } else {
      assert (a + b)[1..] == a[1..] + b;
      CleanTrans(Next(w, a[0]), a[1..], mid, b, last);
    }
  }

  lemma {:induction false} QuietIsClean(w: World, events: seq<Event>, w': World, offers: seq<PullTx>, busy: set<Address>, frozen: set<string>)
    requires Reaches(w, events, w') && QuietRun(events, offers, busy, frozen) && CheckoutsClean(w, events)
    ensures CleanRun(w, events, w')
    decreases |events|
  {
    if events != [] {
      assert events[0] in events;
      QuietIsClean(Next(w, events[0]), events[1..], w', offers, busy, frozen);
    }
  }

  lemma HandlingIsClean(w: World, h: Handling, user: Address, busy: set<Address>, frozen: set<string>)
    requires Handled(w, h, user, busy, frozen) && CleanHandling(w, h)
    ensures CleanRun(w, h.quiet + EndingOf(h), After(h))
  {
    QuietIsClean(w, h.quiet, h.before, h.offers, busy, frozen);
    assert h.ending.Some? ==> EndingOf(h)[1..] == [];
    CleanTrans(w, h.quiet, h.before, EndingOf(h), After(h));
  }

  lemma HandlingIsARun(w: World, h: Handling, user: Address, busy: set<Address>, frozen: set<string>)
    requires Handled(w, h, user, busy, frozen)
    ensures Reaches(w, h.quiet + EndingOf(h), After(h))
  {
    assert h.ending.Some? ==> EndingOf(h)[1..] == [];
    ReachesTrans(w, h.quiet, h.before, EndingOf(h), After(h));
  }

  lemma ChargedBefore(w: World, due: seq<Sub>, replies: nat -> Replies, log: seq<Handling>, busy: set<Address>, frozen: set<string>)
    requires Charged(w, due, replies, log, busy, frozen) && log != []
    ensures var k := |log| - 1; Charged(w, due, replies, log[..k], busy, frozen) && StateAfter(w, log[..k], k) == StateAfter(w, log, k)
  {
    ChargedLess(w, due, replies, log, busy, frozen);
  }

  lemma OneMoreRun(w: World, log: seq<Handling>, due: seq<Sub>, replies: nat -> Replies, busy: set<Address>, frozen: set<string>)
    requires log != [] && Charged(w, due, replies, log, busy, frozen)
    requires var k := |log| - 1; Reaches(w, EventsOf(log[..k]), StateAfter(w, log, k))
    ensures Reaches(w, EventsOf(log), StateAfter(w, log, |log|))
  {
    var k := |log| - 1;
    ChargedLess(w, due, replies, log, busy, frozen);
    HandlingIsARun(StateAfter(w, log, k), log[k], due[k].user, busy, frozen);
    ReachesTrans(w, EventsOf(log[..k]), StateAfter(w, log, k), log[k].quiet + EndingOf(log[k]), After(log[k]));
  }

  /** Whatever the outside answers, a tick is a run of the engine. */
  lemma {:induction false} TickIsARun(w: World, due: seq<Sub>, replies: nat -> Replies, log: seq<Handling>, busy: set<Address>, frozen: set<string>)
    requires Charged(w, due, replies, log, busy, frozen)
    ensures Reaches(w, EventsOf(log), StateAfter(w, log, |log|))
    decreases |log|
  {
    if log != [] {
      var k := |log| - 1;
      ChargedBefore(w, due, replies, log, busy, frozen);
      TickIsARun(w, due, replies, log[..k], busy, frozen);
      OneMoreRun(w, log, due, replies, busy, frozen);
    }
  }

  lemma OneMoreClean(w: World, log: seq<Handling>, due: seq<Sub>, replies: nat -> Replies, busy: set<Address>, frozen: set<string>)
    requires log != [] && Charged(w, due, replies, log, busy, frozen)
    requires var k := |log| - 1; CleanRun(w, EventsOf(log[..k]), StateAfter(w, log, k)) && CleanHandling(StateAfter(w, log, k), log[k])
    ensures CleanRun(w, EventsOf(log), StateAfter(w, log, |log|))
  {
    var k := |log| - 1;
    ChargedLess(w, due, replies, log, busy, frozen);
    HandlingIsClean(StateAfter(w, log, k), log[k], due[k].user, busy, frozen);
    CleanTrans(w, EventsOf(log[..k]), StateAfter(w, log, k), log[k].quiet + EndingOf(log[k]), After(log[k]));
  }

  /** A tick with clean endings is a clean run. */
  lemma {:induction false} TickIsClean(w: World, due: seq<Sub>, replies: nat -> Replies, log: seq<Handling>, busy: set<Address>, frozen: set<string>)
    requires Charged(w, due, replies, log, busy, frozen) && CleanTick(w, log)
    ensures CleanRun(w, EventsOf(log), StateAfter(w, log, |log|))
    decreases |log|
  {
    if log != [] {
      var k := |log| - 1;
      ChargedBefore(w, due, replies, log, busy, frozen);
      TickIsClean(w, due, replies, log[..k], busy, frozen);
      OneMoreClean(w, log, due, replies, busy, frozen);
    }
  }

  /** Exactly-once charging, of the tick itself: from sound books, whatever the node answers, a tick
      with clean endings leaves every pull of every user booked exactly once, or in flight. */
  lemma TickChargesExactlyOnce(w: World, due: seq<Sub>, replies: nat -> Replies, log: seq<Handling>,
                               busy: set<Address>, frozen: set<string>, user: Address)
    requires Safe(w) && Charged(w, due, replies, log, busy, frozen) && CleanTick(w, log)
    ensures var w' := StateAfter(w, log, |log|);
            && Safe(w') && ExactlyOnce(w', user)
            && (InFlight(w', user).None? ==> Pulled(w'.mined, user) == Credits(w'.ledger, user))
  {
    var w' := StateAfter(w, log, |log|);
    TickIsClean(w, due, replies, log, busy, frozen);
    CleanRunIsSafe(w, EventsOf(log), w');
    SafeIsExactlyOnce(w', user);
  }
}
