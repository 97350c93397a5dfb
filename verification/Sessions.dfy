/** The checkout-session store as a step system: any number of clients of one Redis server, each
    sending its next command whenever it likes. The in-memory store is the specification. */
module Sessions {
  import opened Records
  import opened Calendar
  import opened Text

  datatype SessionStatus = Pending | Completed | Expired

  datatype Session = Session(
    planId: string,
    status: SessionStatus,
    wallet: string,
    transferTx: string,
    approvalTx: string,
    subscriptionId: string,
    expiresAt: Instant,
    completedAt: Option<Instant>)

  /** The arguments of one CompleteSession call. */
  datatype Completion = Completion(
    id: string, wallet: string, transferTx: string, approvalTx: string, subscriptionId: string, at: Instant)

  datatype Answer = Done | NotFound | NotPending | TxAlreadyConsumed | RetriesExhausted

  function NewSession(planId: string, expiresAt: Instant): Session {
    Session(planId, Pending, "", "", "", "", expiresAt, None)
  }

  function Hash(call: Completion): string {
    Lower(call.transferTx)
  }

  function CompletedSession(s: Session, call: Completion): Session {
    s.(status := Completed, wallet := Lower(call.wallet), transferTx := Hash(call),
       approvalTx := Lower(call.approvalTx), subscriptionId := call.subscriptionId, completedAt := Some(call.at))
  }

  // ---------- the specification: the in-memory store ----------

  datatype Memory = Memory(sessions: map<string, Session>, txs: map<string, string>)

  function Complete(m: Memory, call: Completion): (Memory, Answer) {
    if call.id !in m.sessions then (m, NotFound)
    else if m.sessions[call.id].status != Pending then (m, NotPending)
    else if Hash(call) in m.txs && m.txs[Hash(call)] != call.id then (m, TxAlreadyConsumed)
    else (Memory(m.sessions[call.id := CompletedSession(m.sessions[call.id], call)], m.txs[Hash(call) := call.id]), Done)
  }

  predicate Overdue(s: Session, t: Instant) {
    s.status == Pending && s.expiresAt <= t
  }

  /** A reserved hash that expiring the given sessions gives back. */
  predicate Released(m: Memory, ids: set<string>, t: Instant, hash: string)
    requires hash in m.txs
  {
    var id := m.txs[hash];
    id in ids && id in m.sessions && Overdue(m.sessions[id], t) && m.sessions[id].transferTx == hash && hash != ""
  }

  /** The overdue ones of the given sessions expire. */
  function ExpireOf(m: Memory, ids: set<string>, t: Instant): Memory {
    Memory(map id | id in m.sessions :: if id in ids && Overdue(m.sessions[id], t)
                                        then m.sessions[id].(status := Expired) else m.sessions[id],
           map hash | hash in m.txs && !Released(m, ids, t, hash) :: m.txs[hash])
  }

  // ---------- the server and one client's commands ----------

  datatype Server = Server(sessions: map<string, Session>, txs: map<string, string>, expiring: map<string, int>)

  datatype Key = SessionKey(id: string) | TxKey(hash: string)

  /** A connection's WATCH; dirty once another command has written one of its keys. */
  datatype Watch = Watch(keys: set<Key>, dirty: bool)

  datatype Stage =
    | Starting
    | Watching
    | Read(found: Session)
    | Checked(found: Session)
    | Dropping

  /** Where a client is in its call. A completion remembers whether its session existed when the
      call began, and a sweep how many sessions it has expired. */
  datatype Phase =
    | Completing(call: Completion, attempt: nat, existed: bool, stage: Stage)
    | Answered(call: Completion, attempt: nat, existed: bool, answer: Answer)
    | Sweeping(t: Instant, ids: seq<string>, next: nat, expired: nat, sweep: Stage)

  datatype Client = Client(watch: Option<Watch>, phase: Phase)

  function WatchKeys(call: Completion): set<Key> {
    {SessionKey(call.id), TxKey(Hash(call))}
  }

  predicate Dirty(watch: Option<Watch>) {
    watch.Some? && watch.value.dirty
  }

  function Written(watch: Option<Watch>, keys: set<Key>): Option<Watch> {
    if watch.Some? then Some(Watch(watch.value.keys, watch.value.dirty || watch.value.keys * keys != {})) else None
  }

  predicate Running(phase: Phase) {
    phase.Completing? || (phase.Sweeping? && phase.next < |phase.ids|)
  }

  /** The EXEC of a completion that has read `found`. */
  function Commit(s: Server, call: Completion, found: Session): Server {
    Server(s.sessions[call.id := CompletedSession(found, call)], s.txs[Hash(call) := call.id], s.expiring - {call.id})
  }

  /** The EXEC of a sweep that has read `found`. */
  function Expire(s: Server, id: string, found: Session): Server {
    Server(s.sessions[id := found.(status := Expired)],
           if found.transferTx != "" then s.txs - {found.transferTx} else s.txs,
           s.expiring - {id})
  }

  /** The keys an expiry writes. */
  function ExpireKeys(id: string, found: Session): set<Key> {
    if found.transferTx != "" then {SessionKey(id), TxKey(found.transferTx)} else {SessionKey(id)}
  }

  /** What one command leaves: the server, the keys it wrote, and its client. */
  datatype Effect = Effect(server: Server, wrote: set<Key>, client: Client)

  function Answers(s: Server, p: Phase, answer: Answer): Effect
    requires p.Completing?
  {
    Effect(s, {}, Client(None, Answered(p.call, p.attempt, p.existed, answer)))
  }

  function CompleteCommand(s: Server, watch: Option<Watch>, p: Phase): Effect
    requires p.Completing?
  {
    match p.stage
    case Starting => Effect(s, {}, Client(Some(Watch(WatchKeys(p.call), false)), p.(stage := Watching)))
    case Watching =>
      if p.call.id !in s.sessions then Answers(s, p, NotFound)
      else if s.sessions[p.call.id].status != Pending then Answers(s, p, NotPending)
      else Effect(s, {}, Client(watch, p.(stage := Read(s.sessions[p.call.id]))))
    case Read(found) =>
      if Hash(p.call) in s.txs && s.txs[Hash(p.call)] != p.call.id then Answers(s, p, TxAlreadyConsumed)
      else Effect(s, {}, Client(watch, p.(stage := Checked(found))))
    case Checked(found) =>
      if !Dirty(watch) then Answers(Commit(s, p.call, found), p, Done).(wrote := WatchKeys(p.call))
      else if p.attempt + 1 < 5 then Effect(s, {}, Client(None, p.(attempt := p.attempt + 1, stage := Starting)))
      else Answers(s, p, RetriesExhausted)
    case Dropping => Effect(s, {}, Client(watch, p))
  }

  function SweepCommand(s: Server, watch: Option<Watch>, p: Phase): Effect
    requires p.Sweeping? && p.next < |p.ids|
  {
    var id := p.ids[p.next];
    var onward := p.(next := p.next + 1, sweep := Starting);
    match p.sweep
    case Starting => Effect(s, {}, Client(Some(Watch({SessionKey(id)}, false)), p.(sweep := Watching)))
    case Watching =>
      var stage := if id in s.sessions && s.sessions[id].status == Pending then Read(s.sessions[id]) else Dropping;
      Effect(s, {}, Client(watch, p.(sweep := stage)))
    case Read(found) =>
      if Dirty(watch) then Effect(s, {}, Client(None, onward))
      else Effect(Expire(s, id, found), ExpireKeys(id, found), Client(None, onward.(expired := p.expired + 1)))
    case Dropping =>
      Effect(if Dirty(watch) then s else s.(expiring := s.expiring - {id}), {}, Client(None, onward))
    case Checked(_) => Effect(s, {}, Client(watch, p))
  }

  function Command(s: Server, c: Client): Effect
    requires Running(c.phase)
  {
    if c.phase.Completing? then CompleteCommand(s, c.watch, c.phase) else SweepCommand(s, c.watch, c.phase)
  }

  // ---------- what holds of the server ----------

  function Lookup<V>(m: map<string, V>, k: string): Option<V> {
    if k in m then Some(m[k]) else None
  }

  /** A hash belongs to the one session completed with it; other sessions hold no hash; and the
      expiring index is exactly the pending sessions with their expiry times. */
  ghost predicate Consistent(s: Server) {
    && (forall h, id :: Lookup(s.txs, h) == Some(id)
          <==> id in s.sessions && s.sessions[id].status == Completed && s.sessions[id].transferTx == h)
    && (forall id | id in s.sessions && s.sessions[id].status != Completed :: s.sessions[id].transferTx == "")
    && (forall id :: id in s.expiring <==> id in s.sessions && s.sessions[id].status == Pending)
    && (forall id | id in s.expiring :: s.expiring[id] == Unix(s.sessions[id].expiresAt))
  }

  /** What any stretch of other clients' commands can do to the server: a session leaves pending
      once, a hash is reserved once, and a write to a key shows. */
  ghost predicate Evolves(s: Server, s': Server, wrote: set<Key>) {
    && (forall id | id in s.sessions ::
          && id in s'.sessions && s'.sessions[id].expiresAt == s.sessions[id].expiresAt
          && s'.sessions[id].planId == s.sessions[id].planId
          && (s.sessions[id].status != Pending ==> s'.sessions[id] == s.sessions[id])
          && (SessionKey(id) in wrote ==> s'.sessions[id].status != Pending))
    && (forall id | SessionKey(id) !in wrote :: Lookup(s'.sessions, id) == Lookup(s.sessions, id))
    && (forall id | SessionKey(id) in wrote :: id in s'.sessions)
    && (forall h | h in s.txs :: Lookup(s'.txs, h) == Lookup(s.txs, h))
    && (forall h | TxKey(h) !in wrote :: Lookup(s'.txs, h) == Lookup(s.txs, h))
    && (forall h | TxKey(h) in wrote :: h in s'.txs && h !in s.txs)
  }

  // ---------- what holds of a client ----------

  predicate TakenByOther(s: Server, call: Completion) {
    Hash(call) in s.txs && s.txs[Hash(call)] != call.id
  }

  /** The call can no longer succeed: its session is settled, or another session owns the hash. */
  predicate Decided(s: Server, call: Completion) {
    call.id in s.sessions && (s.sessions[call.id].status != Pending || TakenByOther(s, call))
  }

  /** The attempt that must answer: the second for a session that existed, else the third. */
  predicate LastAttempt(attempt: nat, existed: bool) {
    attempt >= 2 || (attempt == 1 && existed)
  }

  ghost predicate CompletingOk(s: Server, watch: Option<Watch>, p: Phase)
    requires p.Completing?
  {
    var call := p.call;
    var known := p.existed || p.attempt >= 1;
    && p.attempt <= (if p.existed then 1 else 2)
    && (known ==> call.id in s.sessions)
    && (LastAttempt(p.attempt, p.existed) ==> Decided(s, call))
    && !p.stage.Dropping?
    && (p.stage.Starting? <==> watch.None?)
    && (watch.Some? ==> watch.value.keys == WatchKeys(call))
    && (Dirty(watch) && known ==> Decided(s, call))
    && (p.stage.Read? || p.stage.Checked? ==>
          && p.stage.found.status == Pending && call.id in s.sessions
          && (LastAttempt(p.attempt, p.existed) ==> TakenByOther(s, call))
          && (!Dirty(watch) ==> s.sessions[call.id] == p.stage.found))
    && (p.stage.Checked? ==>
          && !LastAttempt(p.attempt, p.existed)
          && (!Dirty(watch) ==> !TakenByOther(s, call)))
  }

  /** An answer that is still true. */
  ghost predicate StillTrue(s: Server, call: Completion, existed: bool, answer: Answer) {
    match answer
    case Done =>
      && call.id in s.sessions && Lookup(s.txs, Hash(call)) == Some(call.id)
      && s.sessions[call.id] == CompletedSession(s.sessions[call.id], call)
    case NotFound => !existed
    case NotPending => call.id in s.sessions && s.sessions[call.id].status != Pending
    case TxAlreadyConsumed => TakenByOther(s, call)
    case RetriesExhausted => false
  }

  ghost predicate SweepingOk(s: Server, watch: Option<Watch>, p: Phase)
    requires p.Sweeping?
  {
    && p.next <= |p.ids|
    && (forall id | id in p.ids :: id in s.sessions && Unix(s.sessions[id].expiresAt) <= Unix(p.t))
    && (forall k | 0 <= k < p.next :: s.sessions[p.ids[k]].status != Pending)
    && p.expired <= p.next
    && !p.sweep.Checked?
    && (p.sweep.Starting? <==> watch.None?)
    && (p.next == |p.ids| ==> p.sweep.Starting?)
    && (!p.sweep.Starting? ==>
          var id := p.ids[p.next];
          && watch.value.keys == {SessionKey(id)}
          && (Dirty(watch) ==> s.sessions[id].status != Pending)
          && (p.sweep.Dropping? ==> s.sessions[id].status != Pending)
          && (p.sweep.Read? ==> p.sweep.found.status == Pending)
          && (p.sweep.Read? && !Dirty(watch) ==> s.sessions[id] == p.sweep.found))
  }

  ghost predicate ClientOk(s: Server, c: Client) {
    match c.phase
    case Completing(_, _, _, _) => CompletingOk(s, c.watch, c.phase)
    case Answered(call, attempt, existed, answer) =>
      c.watch == None && attempt <= (if existed then 1 else 2) && StillTrue(s, call, existed, answer)
    case Sweeping(_, _, _, _, _) => SweepingOk(s, c.watch, c.phase)
  }

  // ---------- what each command does ----------

  lemma HashUnreserved(s: Server, call: Completion)
    requires Consistent(s)
    requires call.id in s.sessions && s.sessions[call.id].status == Pending && !TakenByOther(s, call)
    ensures Hash(call) !in s.txs
  {
    assert Lookup(s.txs, Hash(call)) != Some(call.id);
  }

  lemma CommitKeepsConsistent(s: Server, call: Completion)
    requires Consistent(s)
    requires call.id in s.sessions && s.sessions[call.id].status == Pending && Hash(call) !in s.txs
    ensures Consistent(Commit(s, call, s.sessions[call.id]))
  {
    var s' := Commit(s, call, s.sessions[call.id]);
    forall h, id ensures Lookup(s'.txs, h) == Some(id)
                     <==> id in s'.sessions && s'.sessions[id].status == Completed && s'.sessions[id].transferTx == h
    {
      assert Lookup(s.txs, h) == Some(id)
        <==> id in s.sessions && s.sessions[id].status == Completed && s.sessions[id].transferTx == h;
    }
  }

  lemma CommitEvolves(s: Server, call: Completion)
    requires call.id in s.sessions && s.sessions[call.id].status == Pending && Hash(call) !in s.txs
    ensures Evolves(s, Commit(s, call, s.sessions[call.id]), WatchKeys(call))
  {
  }

  lemma ExpireKeeps(s: Server, id: string)
    requires Consistent(s)
    requires id in s.sessions && s.sessions[id].status == Pending
    ensures var s' := Expire(s, id, s.sessions[id]);
            Consistent(s') && Evolves(s, s', ExpireKeys(id, s.sessions[id]))
  {
  }

  lemma ReadingEvolves(s: Server)
    ensures Evolves(s, s, {})
  {
  }

  lemma CompletionReads(s: Server, watch: Option<Watch>, p: Phase)
    requires p.Completing? && Consistent(s) && CompletingOk(s, watch, p)
    requires !(p.stage.Checked? && !Dirty(watch))
    ensures var e := CompleteCommand(s, watch, p);
            e.server == s && e.wrote == {} && ClientOk(s, e.client)
  {
  }

  lemma CompleteCommandKeeps(s: Server, watch: Option<Watch>, p: Phase)
    requires p.Completing? && Consistent(s) && CompletingOk(s, watch, p)
    ensures var e := CompleteCommand(s, watch, p);
            Consistent(e.server) && Evolves(s, e.server, e.wrote) && ClientOk(e.server, e.client)
  {
    if p.stage.Checked? && !Dirty(watch) {
      HashUnreserved(s, p.call);
      CommitKeepsConsistent(s, p.call);
      CommitEvolves(s, p.call);
    } else {
      CompletionReads(s, watch, p);
      ReadingEvolves(s);
    }
  }

  lemma DroppingKeeps(s: Server, id: string)
    requires Consistent(s) && id in s.sessions && s.sessions[id].status != Pending
    ensures s.(expiring := s.expiring - {id}) == s
  {
    assert s.expiring - {id} == s.expiring;
  }

  lemma SweepReads(s: Server, watch: Option<Watch>, p: Phase)
    requires p.Sweeping? && p.next < |p.ids| && Consistent(s) && SweepingOk(s, watch, p)
    requires !(p.sweep.Read? && !Dirty(watch))
    ensures var e := SweepCommand(s, watch, p);
            e.server == s && e.wrote == {} && ClientOk(s, e.client)
  {
    if p.sweep.Dropping? {
      DroppingKeeps(s, p.ids[p.next]);
    }
  }

  lemma SweepExpires(s: Server, watch: Option<Watch>, p: Phase)
    requires p.Sweeping? && p.next < |p.ids| && SweepingOk(s, watch, p)
    requires p.sweep.Read? && !Dirty(watch)
    ensures var e := SweepCommand(s, watch, p);
            && e.server == Expire(s, p.ids[p.next], s.sessions[p.ids[p.next]])
            && e.wrote == ExpireKeys(p.ids[p.next], s.sessions[p.ids[p.next]])
            && ClientOk(e.server, e.client)
  {
  }

  lemma SweepCommandKeeps(s: Server, watch: Option<Watch>, p: Phase)
    requires p.Sweeping? && p.next < |p.ids| && Consistent(s) && SweepingOk(s, watch, p)
    ensures var e := SweepCommand(s, watch, p);
            Consistent(e.server) && Evolves(s, e.server, e.wrote) && ClientOk(e.server, e.client)
  {
    if p.sweep.Read? && !Dirty(watch) {
      ExpireKeeps(s, p.ids[p.next]);
      SweepExpires(s, watch, p);
    } else {
      SweepReads(s, watch, p);
      ReadingEvolves(s);
    }
  }

  /** Every command of every client keeps the store consistent, its own client in order, and the
      promises made to the others. */
  lemma CommandKeeps(s: Server, c: Client)
    requires Running(c.phase) && Consistent(s) && ClientOk(s, c)
    ensures var e := Command(s, c);
            Consistent(e.server) && Evolves(s, e.server, e.wrote) && ClientOk(e.server, e.client)
  {
    if c.phase.Completing? {
      CompleteCommandKeeps(s, c.watch, c.phase);
    } else {
      SweepCommandKeeps(s, c.watch, c.phase);
    }
  }

  lemma CompletingStaysOk(s: Server, s': Server, wrote: set<Key>, watch: Option<Watch>, p: Phase)
    requires p.Completing? && Consistent(s') && Evolves(s, s', wrote) && CompletingOk(s, watch, p)
    ensures CompletingOk(s', Written(watch, wrote), p)
  {
    var id, h := p.call.id, Hash(p.call);
    assert Lookup(s'.txs, h) == Some(id) ==> s'.sessions[id].status == Completed;
    if watch.Some? {
      var both := watch.value.keys * wrote;
      if SessionKey(id) in wrote {
        assert SessionKey(id) in both;
      } else {
        assert Lookup(s'.sessions, id) == Lookup(s.sessions, id);
      }
      if TxKey(h) in wrote {
        assert TxKey(h) in both;
      } else {
        assert Lookup(s'.txs, h) == Lookup(s.txs, h);
      }
    }
  }

  lemma SweepingStaysOk(s: Server, s': Server, wrote: set<Key>, watch: Option<Watch>, p: Phase)
    requires p.Sweeping? && Evolves(s, s', wrote) && SweepingOk(s, watch, p)
    ensures SweepingOk(s', Written(watch, wrote), p)
  {
    if watch.Some? {
      var id := p.ids[p.next];
      assert SessionKey(id) in wrote ==> SessionKey(id) in watch.value.keys * wrote;
      assert SessionKey(id) !in wrote ==> Lookup(s'.sessions, id) == Lookup(s.sessions, id);
    }
  }

  lemma OthersStayOk(s: Server, s': Server, wrote: set<Key>, c: Client)
    requires Consistent(s') && Evolves(s, s', wrote) && ClientOk(s, c)
    ensures ClientOk(s', Client(Written(c.watch, wrote), c.phase))
  {
    match c.phase
    case Completing(_, _, _, _) => CompletingStaysOk(s, s', wrote, c.watch, c.phase);
    case Sweeping(_, _, _, _, _) => SweepingStaysOk(s, s', wrote, c.watch, c.phase);
    case Answered(_, _, _, _) =>
  }
}
