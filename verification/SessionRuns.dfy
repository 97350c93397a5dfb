/** Runs of the checkout-session store: what every interleaving of its clients keeps, and how each
    command shows in the in-memory store. */
module SessionRuns {
  import opened Records
  import opened Calendar
  import opened Sessions

  const SWEEP_COUNT: int := 1000

  datatype World = World(server: Server, clients: map<nat, Client>)

  datatype Event =
    | Create(id: string, planId: string, expiresAt: Instant)
    | CallComplete(c: nat, call: Completion)
    | CallSweep(c: nat, t: Instant, ids: seq<string>)
    | Run(c: nat)

  predicate Theirs(e: Event, me: nat) {
    match e
    case Create(_, _, _) => true
    case CallComplete(c, _) => c != me
    case CallSweep(c, _, _) => c != me
    case Run(c) => c != me
  }

  predicate Busy(w: World, c: nat) {
    c in w.clients && Running(w.clients[c].phase)
  }

  /** What ZRANGEBYSCORE returns up to a time: all of it, unless cut at the count. */
  predicate InRange(s: Server, t: Instant, ids: seq<string>) {
    && |ids| <= SWEEP_COUNT
    && (forall i, j | 0 <= i < j < |ids| :: ids[i] != ids[j])
    && (forall id | id in ids :: id in s.expiring && s.expiring[id] <= Unix(t))
    && (|ids| < SWEEP_COUNT ==> forall id | id in s.expiring && s.expiring[id] <= Unix(t) :: id in ids)
  }

  /** Session ids are drawn at random, so a new session's id is fresh. */
  predicate Enabled(w: World, e: Event) {
    match e
    case Create(id, _, _) => id !in w.server.sessions
    case CallComplete(c, _) => !Busy(w, c)
    case CallSweep(c, t, ids) => !Busy(w, c) && InRange(w.server, t, ids)
    case Run(c) => Busy(w, c)
  }

  function Created(s: Server, id: string, planId: string, expiresAt: Instant): Server {
    Server(s.sessions[id := NewSession(planId, expiresAt)], s.txs, s.expiring[id := Unix(expiresAt)])
  }

  function Others(clients: map<nat, Client>, wrote: set<Key>): map<nat, Client> {
    map c | c in clients :: Client(Written(clients[c].watch, wrote), clients[c].phase)
  }

  function After(w: World, c: nat, e: Effect): World {
    World(e.server, Others(w.clients, e.wrote)[c := e.client])
  }

  function Began(w: World, call: Completion): Client {
    Client(None, Completing(call, 0, call.id in w.server.sessions, Starting))
  }

  function Next(w: World, e: Event): World
    requires Enabled(w, e)
  {
    match e
    case Create(id, planId, expiresAt) =>
      World(Created(w.server, id, planId, expiresAt), Others(w.clients, {SessionKey(id)}))
    case CallComplete(c, call) => w.(clients := w.clients[c := Began(w, call)])
    case CallSweep(c, t, ids) => w.(clients := w.clients[c := Client(None, Sweeping(t, ids, 0, 0, Starting))])
    case Run(c) => After(w, c, Command(w.server, w.clients[c]))
  }

  ghost predicate Reaches(w: World, events: seq<Event>, w': World)
    decreases |events|
  {
    if events == [] then w == w'
    else Enabled(w, events[0]) && Reaches(Next(w, events[0]), events[1..], w')
  }

  ghost predicate Sound(w: World) {
    Consistent(w.server) && forall c | c in w.clients :: ClientOk(w.server, w.clients[c])
  }

  const EMPTY: World := World(Server(map[], map[], map[]), map[])

  // ---------- the invariant ----------

  function Wrote(w: World, e: Event): set<Key>
    requires Enabled(w, e)
  {
    match e
    case Create(id, _, _) => {SessionKey(id)}
    case Run(c) => Command(w.server, w.clients[c]).wrote
    case _ => {}
  }

  lemma CreateKeepsConsistent(s: Server, id: string, planId: string, expiresAt: Instant)
    requires Consistent(s) && id !in s.sessions
    ensures Consistent(Created(s, id, planId, expiresAt))
  {
    var s' := Created(s, id, planId, expiresAt);
    forall h, k ensures Lookup(s'.txs, h) == Some(k)
                    <==> k in s'.sessions && s'.sessions[k].status == Completed && s'.sessions[k].transferTx == h
    {
      assert Lookup(s.txs, h) == Some(k)
        <==> k in s.sessions && s.sessions[k].status == Completed && s.sessions[k].transferTx == h;
    }
  }

  lemma CreateEvolves(s: Server, id: string, planId: string, expiresAt: Instant)
    requires id !in s.sessions
    ensures Evolves(s, Created(s, id, planId, expiresAt), {SessionKey(id)})
  {
  }

  lemma StepEvolves(w: World, e: Event)
    requires Sound(w) && Enabled(w, e)
    ensures Consistent(Next(w, e).server) && Evolves(w.server, Next(w, e).server, Wrote(w, e))
  {
    match e
    case Create(id, planId, expiresAt) =>
      CreateKeepsConsistent(w.server, id, planId, expiresAt);
      CreateEvolves(w.server, id, planId, expiresAt);
    case Run(c) => CommandKeeps(w.server, w.clients[c]);
    case _ => ReadingEvolves(w.server);
  }

  lemma CallerIsOk(w: World, e: Event)
    requires Sound(w) && Enabled(w, e) && !e.Create?
    ensures ClientOk(Next(w, e).server, Next(w, e).clients[e.c])
  {
    match e
    case Run(c) => CommandKeeps(w.server, w.clients[c]);
    case _ =>
  }

  lemma StepKeepsSound(w: World, e: Event)
    requires Sound(w) && Enabled(w, e)
    ensures Sound(Next(w, e))
  {
    var w', wrote := Next(w, e), Wrote(w, e);
    StepEvolves(w, e);
    forall c | c in w'.clients ensures ClientOk(w'.server, w'.clients[c]) {
      if !e.Create? && c == e.c {
        CallerIsOk(w, e);
      } else {
        OthersStayOk(w.server, w'.server, wrote, w.clients[c]);
        assert w'.clients[c] == Client(Written(w.clients[c].watch, wrote), w.clients[c].phase)
            || w'.clients[c] == w.clients[c];
      }
    }
  }

  lemma {:induction false} RunKeepsSound(w: World, events: seq<Event>, w': World)
    requires Sound(w) && Reaches(w, events, w')
    ensures Sound(w')
    decreases |events|
  {
    if events != [] {
      StepKeepsSound(w, events[0]);
      RunKeepsSound(Next(w, events[0]), events[1..], w');
    }
  }

  /** In every run from an empty store the indexes agree with the sessions, every answer is still
      true, and no completion that found its session needs a third attempt. */
  lemma EveryRunIsSound(events: seq<Event>, w: World)
    requires Reaches(EMPTY, events, w)
    ensures Consistent(w.server)
    ensures forall c | c in w.clients && w.clients[c].phase.Answered? ::
              var p := w.clients[c].phase;
              StillTrue(w.server, p.call, p.existed, p.answer) && p.answer != RetriesExhausted
    ensures forall c | c in w.clients && !w.clients[c].phase.Sweeping? ::
              var p := w.clients[c].phase;
              p.attempt <= 2 && (p.existed ==> p.attempt <= 1)
  {
    RunKeepsSound(EMPTY, events, w);
  }

  /** A completed or expired session is never written again. */
  lemma {:induction false} SettledForGood(w: World, events: seq<Event>, w': World, id: string)
    requires Sound(w) && Reaches(w, events, w')
    requires id in w.server.sessions && w.server.sessions[id].status != Pending
    ensures id in w'.server.sessions && w'.server.sessions[id] == w.server.sessions[id]
    decreases |events|
  {
    if events != [] {
      StepKeepsSound(w, events[0]);
      StepEvolves(w, events[0]);
      SettledForGood(Next(w, events[0]), events[1..], w', id);
    }
  }

  /** No payment hash ever completes two sessions. */
  lemma OneSessionPerHash(events: seq<Event>, w: World, a: string, b: string)
    requires Reaches(EMPTY, events, w)
    requires a in w.server.sessions && b in w.server.sessions
    requires w.server.sessions[a].status == Completed && w.server.sessions[b].status == Completed
    requires w.server.sessions[a].transferTx == w.server.sessions[b].transferTx
    ensures a == b
  {
    RunKeepsSound(EMPTY, events, w);
    var h := w.server.sessions[a].transferTx;
    assert Lookup(w.server.txs, h) == Some(a) && Lookup(w.server.txs, h) == Some(b);
  }

  // ---------- every call ends ----------

  function StageLeft(stage: Stage): nat {
    match stage
    case Starting => 4
    case Watching => 3
    case Read(_) => 2
    case Checked(_) => 1
    case Dropping => 1
  }

  /** The most commands a call can still send. */
  function CommandsLeft(p: Phase): int {
    match p
    case Completing(_, attempt, _, stage) => (2 - attempt) * 4 + StageLeft(stage)
    case Answered(_, _, _, _) => 0
    case Sweeping(_, ids, next, _, sweep) => (|ids| - next) * 4 + StageLeft(sweep) - 4
  }

  /** Each command of a call brings its end nearer, whatever the others do between: a completion
      ends within 12 commands and a sweep within 4 for each session of its range. */
  lemma CommandsRunOut(s: Server, c: Client)
    requires Running(c.phase) && ClientOk(s, c)
    ensures 0 <= CommandsLeft(Command(s, c).client.phase) < CommandsLeft(c.phase)
  {
  }

  lemma CallsEnd(w: World, e: Event, c: nat)
    requires Sound(w) && Enabled(w, e) && c in w.clients
    ensures Busy(w, c) ==> CommandsLeft(w.clients[c].phase) > 0
    ensures e == Run(c) ==> CommandsLeft(Next(w, e).clients[c].phase) < CommandsLeft(w.clients[c].phase)
    ensures Theirs(e, c) ==> Next(w, e).clients[c].phase == w.clients[c].phase
    ensures e.CallComplete? && e.c == c ==> CommandsLeft(Next(w, e).clients[c].phase) == 12
    ensures e.CallSweep? && e.c == c ==> CommandsLeft(Next(w, e).clients[c].phase) == 4 * |e.ids|
  {
    if Busy(w, c) {
      CommandsRunOut(w.server, w.clients[c]);
    }
  }

  // ---------- the in-memory store ----------

  function MemoryOf(s: Server): Memory {
    Memory(s.sessions, s.txs)
  }

  /** The last instant of a second: Redis compares whole seconds. */
  function SecondEnd(t: Instant): Instant {
    Unix(t) * SECOND + SECOND - 1
  }

  /** The index's comparison of whole seconds is the store's comparison at the end of the second, so
      a session is swept less than a second early at most. */
  lemma WholeSecondsExpire(expiresAt: Instant, t: Instant)
    ensures Unix(expiresAt) <= Unix(t) <==> expiresAt <= SecondEnd(t)
    ensures t <= SecondEnd(t) < t + SECOND
  {
  }

  lemma ExpireIsExpireOf(s: Server, id: string, t: Instant)
    requires Consistent(s) && id in s.sessions && s.sessions[id].status == Pending && Unix(s.sessions[id].expiresAt) <= Unix(t)
    ensures MemoryOf(Expire(s, id, s.sessions[id])) == ExpireOf(MemoryOf(s), {id}, SecondEnd(t))
    ensures Overdue(s.sessions[id], SecondEnd(t))
  {
    var m := MemoryOf(s);
    assert forall h | h in m.txs :: !Released(m, {id}, SecondEnd(t), h);
  }

  /** Each command of a completion either leaves the in-memory store alone or is its CompleteSession,
      answer included. The one answer that can differ is a consumed hash: the in-memory store says
      the same exactly when the session is still pending at that moment. */
  lemma CompletionRefines(w: World, c: nat)
    requires Sound(w) && Busy(w, c) && w.clients[c].phase.Completing?
    ensures var p, p' := w.clients[c].phase, Next(w, Run(c)).clients[c].phase;
            var m, m' := MemoryOf(w.server), MemoryOf(Next(w, Run(c)).server);
            if !p'.Answered? then m' == m
            else if p'.answer == TxAlreadyConsumed then
              m' == m && (Complete(m, p.call) == (m, TxAlreadyConsumed) <==> w.server.sessions[p.call.id].status == Pending)
            else Complete(m, p.call) == (m', p'.answer)
  {
    var p := w.clients[c].phase;
    assert CompletingOk(w.server, w.clients[c].watch, p);
  }

  /** Each command of a sweep either leaves the in-memory store alone or expires one overdue session
      there, and counts it. */
  lemma SweepRefines(w: World, c: nat)
    requires Sound(w) && Busy(w, c) && w.clients[c].phase.Sweeping?
    ensures var p, p' := w.clients[c].phase, Next(w, Run(c)).clients[c].phase;
            var m, m' := MemoryOf(w.server), MemoryOf(Next(w, Run(c)).server);
            if p'.expired == p.expired then m' == m
            else
              && p'.expired == p.expired + 1
              && p.ids[p.next] in m.sessions && Overdue(m.sessions[p.ids[p.next]], SecondEnd(p.t))
              && m' == ExpireOf(m, {p.ids[p.next]}, SecondEnd(p.t))
  {
    var p := w.clients[c].phase;
    assert SweepingOk(w.server, w.clients[c].watch, p);
    if p.sweep.Read? && !Dirty(w.clients[c].watch) {
      ExpireIsExpireOf(w.server, p.ids[p.next], p.t);
    }
  }

  lemma {:induction false} StillSessions(w: World, events: seq<Event>, w': World, id: string)
    requires Sound(w) && Reaches(w, events, w') && id in w.server.sessions
    ensures id in w'.server.sessions && w'.server.sessions[id].expiresAt == w.server.sessions[id].expiresAt
    decreases |events|
  {
    if events != [] {
      StepKeepsSound(w, events[0]);
      StepEvolves(w, events[0]);
      StillSessions(Next(w, events[0]), events[1..], w', id);
    }
  }

  /** Once a sweep below the count limit is over, no session that was overdue when it began is
      still pending, even those it lost to another client. */
  lemma SweepClears(w: World, c: nat, t: Instant, ids: seq<string>, events: seq<Event>, w': World, id: string)
    requires Sound(w) && Enabled(w, CallSweep(c, t, ids)) && |ids| < SWEEP_COUNT
    requires Reaches(Next(w, CallSweep(c, t, ids)), events, w')
    requires c in w'.clients && w'.clients[c].phase.Sweeping?
    requires w'.clients[c].phase.ids == ids && w'.clients[c].phase.next == |ids|
    requires id in w.server.sessions && Overdue(w.server.sessions[id], t)
    ensures id in w'.server.sessions && w'.server.sessions[id].status != Pending
  {
    StepKeepsSound(w, CallSweep(c, t, ids));
    RunKeepsSound(Next(w, CallSweep(c, t, ids)), events, w');
    StillSessions(Next(w, CallSweep(c, t, ids)), events, w', id);
    assert w.server.expiring[id] <= Unix(t);
    var k :| 0 <= k < |ids| && ids[k] == id;
    assert SweepingOk(w'.server, w'.clients[c].watch, w'.clients[c].phase);
  }

  // ---------- whole runs ----------

  /** An operation of the in-memory store that took effect. */
  datatype Operation =
    | Creates(id: string, planId: string, expiresAt: Instant)
    | Completes(call: Completion)
    | Expires(id: string, t: Instant)

  /** Whether the operation succeeds on the in-memory store, and what it leaves there. */
  predicate TakesEffect(m: Memory, op: Operation) {
    match op
    case Creates(id, _, _) => id !in m.sessions
    case Completes(call) => Complete(m, call).1 == Done
    case Expires(id, t) => id in m.sessions && Overdue(m.sessions[id], t)
  }

  function Performed(m: Memory, op: Operation): Memory {
    match op
    case Creates(id, planId, expiresAt) => m.(sessions := m.sessions[id := NewSession(planId, expiresAt)])
    case Completes(call) => Complete(m, call).0
    case Expires(id, t) => ExpireOf(m, {id}, t)
  }

  ghost predicate Replays(m: Memory, ops: seq<Operation>, m': Memory)
    decreases |ops|
  {
    if ops == [] then m == m'
    else TakesEffect(m, ops[0]) && Replays(Performed(m, ops[0]), ops[1..], m')
  }

  /** The operations a run amounts to: one for each creation and each successful EXEC. */
  function OperationOf(w: World, e: Event): seq<Operation>
    requires Enabled(w, e)
  {
    match e
    case Create(id, planId, expiresAt) => [Creates(id, planId, expiresAt)]
    case Run(c) =>
      var p, p' := w.clients[c].phase, Next(w, e).clients[c].phase;
      if p.Completing? && p'.Answered? && p'.answer == Done then [Completes(p.call)]
      else if p.Sweeping? && p'.Sweeping? && p'.expired > p.expired then [Expires(p.ids[p.next], SecondEnd(p.t))]
      else []
    case _ => []
  }

  ghost function Operations(w: World, events: seq<Event>): seq<Operation>
    decreases |events|
  {
    if events == [] || !Enabled(w, events[0]) then []
    else OperationOf(w, events[0]) + Operations(Next(w, events[0]), events[1..])
  }

  lemma StepReplays(w: World, e: Event)
    requires Sound(w) && Enabled(w, e)
    ensures var ops, m, m' := OperationOf(w, e), MemoryOf(w.server), MemoryOf(Next(w, e).server);
            if ops == [] then m' == m
            else |ops| == 1 && TakesEffect(m, ops[0]) && m' == Performed(m, ops[0])
  {
    if e.Run? {
      var p := w.clients[e.c].phase;
      if p.Completing? {
        CompletionRefines(w, e.c);
      } else {
        SweepRefines(w, e.c);
      }
    }
  }

  /** Optimistic commits refine the atomic store: every interleaving of any number of clients leaves
      exactly what the in-memory store holds after its successful operations, one at a time. */
  lemma {:induction false} RunRefines(w: World, events: seq<Event>, w': World)
    requires Sound(w) && Reaches(w, events, w')
    ensures Replays(MemoryOf(w.server), Operations(w, events), MemoryOf(w'.server))
    decreases |events|
  {
    if events != [] {
      StepReplays(w, events[0]);
      StepKeepsSound(w, events[0]);
      RunRefines(Next(w, events[0]), events[1..], w');
      var first, rest := OperationOf(w, events[0]), Operations(Next(w, events[0]), events[1..]);
      assert first != [] ==> (first + rest)[1..] == rest;
      assert first == [] ==> first + rest == rest;
    }
  }

  function ExpiredIds(m: Memory): set<string> {
    set id | id in m.sessions && m.sessions[id].status == Expired
  }

  function CountExpires(ops: seq<Operation>): nat {
    if ops == [] then 0 else (if ops[0].Expires? then 1 else 0) + CountExpires(ops[1..])
  }

  lemma OperationExpires(m: Memory, op: Operation)
    requires TakesEffect(m, op)
    ensures |ExpiredIds(Performed(m, op))| == |ExpiredIds(m)| + if op.Expires? then 1 else 0
  {
    match op
    case Creates(id, planId, expiresAt) =>
      assert ExpiredIds(Performed(m, op)) == ExpiredIds(m);
    case Completes(call) =>
      assert ExpiredIds(Performed(m, op)) == ExpiredIds(m);
    case Expires(id, t) =>
      assert ExpiredIds(Performed(m, op)) == ExpiredIds(m) + {id};
  }

  lemma {:induction false} ReplayCountsExpiries(m: Memory, ops: seq<Operation>, m': Memory)
    requires Replays(m, ops, m')
    ensures |ExpiredIds(m')| == |ExpiredIds(m)| + CountExpires(ops)
    decreases |ops|
  {
    if ops != [] {
      OperationExpires(m, ops[0]);
      ReplayCountsExpiries(Performed(m, ops[0]), ops[1..], m');
    }
  }

  /** Every expired session was counted by exactly one sweep. */
  lemma EachExpiryCountedOnce(events: seq<Event>, w: World)
    requires Reaches(EMPTY, events, w)
    ensures |ExpiredIds(MemoryOf(w.server))| == CountExpires(Operations(EMPTY, events))
  {
    RunRefines(EMPTY, events, w);
    ReplayCountsExpiries(MemoryOf(EMPTY.server), Operations(EMPTY, events), MemoryOf(w.server));
  }
}
