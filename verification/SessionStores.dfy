/** The two session stores. The in-memory one is atomic; the Redis one is one client among many,
    and other clients' commands come between any two of its own. */
module SessionStores {
  import opened Records
  import opened Calendar
  import opened Text
  import opened Sessions
  import opened SessionRuns

  // ---------- in memory ----------

  ghost function OverdueIds(sessions: map<string, Session>, ids: set<string>, t: Instant): set<string> {
    set id | id in ids && id in sessions && Overdue(sessions[id], t)
  }

  lemma OverdueOneMore(sessions: map<string, Session>, done: set<string>, id: string, t: Instant)
    requires id in sessions && id !in done
    ensures |OverdueIds(sessions, done + {id}, t)| == |OverdueIds(sessions, done, t)| + if Overdue(sessions[id], t) then 1 else 0
  {
    var now := OverdueIds(sessions, done, t);
    assert OverdueIds(sessions, done + {id}, t) == if Overdue(sessions[id], t) then now + {id} else now;
  }

  lemma ExpireOfNone(m: Memory, t: Instant)
    ensures ExpireOf(m, {}, t) == m && OverdueIds(m.sessions, {}, t) == {}
  {
  }

  /** Expiring one more session: the step of the in-memory loop. */
  lemma ExpireOneMore(m: Memory, done: set<string>, id: string, t: Instant)
    requires id in m.sessions && id !in done
    ensures var now, s := ExpireOf(m, done, t), m.sessions[id];
            && now.sessions[id] == s
            && (!Overdue(s, t) ==> ExpireOf(m, done + {id}, t) == now)
            && (Overdue(s, t) ==>
                  ExpireOf(m, done + {id}, t)
                  == Memory(now.sessions[id := s.(status := Expired)],
                            if s.transferTx != "" && Lookup(now.txs, s.transferTx) == Some(id)
                            then now.txs - {s.transferTx} else now.txs))
  {
    var now, then', s := ExpireOf(m, done, t), ExpireOf(m, done + {id}, t), m.sessions[id];
    forall h | h in m.txs
      ensures Released(m, done + {id}, t, h)
              <==> Released(m, done, t, h) || (Overdue(s, t) && m.txs[h] == id && s.transferTx == h && h != "")
    {
    }
    if Overdue(s, t) {
      assert then'.sessions == now.sessions[id := s.(status := Expired)];
      assert then'.txs == if s.transferTx != "" && Lookup(now.txs, s.transferTx) == Some(id)
                          then now.txs - {s.transferTx} else now.txs;
    } else {
      assert then'.sessions == now.sessions;
      assert then'.txs == now.txs;
    }
  }

  class MemoryStore {
    var sessions: map<string, Session>
    var txOwners: map<string, string>

    function Contents(): Memory
      reads this
    {
      Memory(sessions, txOwners)
    }

    constructor ()
      ensures Contents() == Memory(map[], map[])
    {
      sessions, txOwners := map[], map[];
    }

    method CreateSession(id: string, s: Session)
      modifies this`sessions
      ensures sessions == old(sessions)[id := s]
    {
      sessions := sessions[id := s];
    }

    method GetSession(id: string) returns (s: Option<Session>)
      ensures s == if id in sessions then Some(sessions[id]) else None
    {
      s := if id in sessions then Some(sessions[id]) else None;
    }

    method CompleteSession(call: Completion) returns (answer: Answer)
      modifies this
      ensures (Contents(), answer) == Complete(old(Contents()), call)
    {
      if call.id !in sessions {
        return NotFound;
      }
      var s := sessions[call.id];
      if s.status != Pending {
        return NotPending;
      }
      var hash := Lower(call.transferTx);
      if hash in txOwners && txOwners[hash] != call.id {
        return TxAlreadyConsumed;
      }
      s := s.(status := Completed, wallet := Lower(call.wallet));
      s := s.(transferTx := hash, approvalTx := Lower(call.approvalTx));
      s := s.(subscriptionId := call.subscriptionId, completedAt := Some(call.at));
      sessions := sessions[call.id := s];
      txOwners := txOwners[hash := call.id];
      return Done;
    }

    /** One turn of the sweep's loop. */
    method ExpireOne(id: string, t: Instant, ghost m: Memory, ghost done: set<string>) returns (expired: bool)
      requires id in m.sessions && id !in done && Contents() == ExpireOf(m, done, t)
      modifies this
      ensures Contents() == ExpireOf(m, done + {id}, t)
      ensures expired == Overdue(m.sessions[id], t)
    {
      ExpireOneMore(m, done, id, t);
      var s := sessions[id];
      expired := s.status == Pending && s.expiresAt <= t;
      if expired {
        sessions := sessions[id := s.(status := Expired)];
        if s.transferTx != "" {
          if s.transferTx in txOwners && txOwners[s.transferTx] == id {
            txOwners := txOwners - {s.transferTx};
          }
        }
      }
    }

    /** Expires every overdue session, releasing the hashes they hold, and counts them. */
    method ExpireSessionsBefore(t: Instant) returns (n: nat)
      modifies this
      ensures Contents() == ExpireOf(old(Contents()), old(sessions.Keys), t)
      ensures n == |OverdueIds(old(sessions), old(sessions.Keys), t)|
    {
      n := 0;
      var rest := sessions.Keys;
      ghost var m, done := Contents(), {};
      ExpireOfNone(m, t);
      while rest != {}
        invariant done + rest == m.sessions.Keys && done !! rest
        invariant Contents() == ExpireOf(m, done, t)
        invariant n == |OverdueIds(m.sessions, done, t)|
        decreases rest
      {
        var id :| id in rest;
        rest := rest - {id};
        var expired := ExpireOne(id, t, m, done);
        OverdueOneMore(m.sessions, done, id, t);
        done := done + {id};
        if expired {
          n := n + 1;
        }
      }
      assert done == m.sessions.Keys;
    }
  }

  // ---------- Redis ----------

  lemma NothingWritten(clients: map<nat, Client>)
    ensures Others(clients, {}) == clients
  {
  }

  /** A command of client `me`, seen with the other clients apart. */
  lemma MyCommand(s: Server, others: map<nat, Client>, me: nat, mine: Client)
    requires Running(mine.phase)
    ensures var e, w := Command(s, mine), World(s, others[me := mine]);
            Enabled(w, Run(me)) && Next(w, Run(me)) == World(e.server, Others(others, e.wrote)[me := e.client])
  {
    var e := Command(s, mine);
    assert Others(others[me := mine], e.wrote)[me := e.client] == Others(others, e.wrote)[me := e.client];
  }

  /** A run with one more command of client `me`. */
  lemma MyCommandRuns(start: World, sofar: seq<Event>, s: Server, others: map<nat, Client>, me: nat, mine: Client)
    requires Running(mine.phase) && Sound(World(s, others[me := mine])) && Reaches(start, sofar, World(s, others[me := mine]))
    ensures var e := Command(s, mine);
            var w' := World(e.server, Others(others, e.wrote)[me := e.client]);
            Sound(w') && Reaches(start, sofar + [Run(me)], w') && ClientOk(e.server, e.client)
  {
    var e, w := Command(s, mine), World(s, others[me := mine]);
    MyCommand(s, others, me, mine);
    StepKeepsSound(w, Run(me));
    ReachesAppend(start, sofar, w, Run(me));
    assert Next(w, Run(me)).clients[me] == e.client;
  }

  /** A step of another client, seen from client `me`. */
  lemma TheirStep(s: Server, others: map<nat, Client>, me: nat, mine: Client, e: Event)
    requires me !in others && Enabled(World(s, others), e) && Theirs(e, me)
    ensures var w, w' := World(s, others[me := mine]), Next(World(s, others), e);
            && Enabled(w, e) && Wrote(w, e) == Wrote(World(s, others), e)
            && me !in w'.clients
            && Next(w, e)
               == World(w'.server, w'.clients[me := Client(Written(mine.watch, Wrote(w, e)), mine.phase)])
  {
    var w, w' := World(s, others[me := mine]), Next(World(s, others), e);
    var mine' := Client(Written(mine.watch, Wrote(w, e)), mine.phase);
    if e.Run? {
      var wrote := Command(s, others[e.c]).wrote;
      assert Others(others[me := mine], wrote) == Others(others, wrote)[me := mine'];
    } else if e.Create? {
      assert Others(others[me := mine], {SessionKey(e.id)}) == Others(others, {SessionKey(e.id)})[me := mine'];
    } else {
      assert mine' == mine;
    }
    assert Next(w, e).clients == w'.clients[me := mine'];
  }

  lemma {:induction false} ReachesAppend(w: World, events: seq<Event>, mid: World, e: Event)
    requires Reaches(w, events, mid) && Enabled(mid, e)
    ensures Reaches(w, events + [e], Next(mid, e))
    decreases |events|
  {
    if events == [] {
      assert events + [e] == [e] && [e][1..] == [];
    } else {
      assert (events + [e])[1..] == events[1..] + [e];
      ReachesAppend(Next(w, events[0]), events[1..], mid, e);
    }
  }

  lemma {:induction false} ReachesTrans(w: World, a: seq<Event>, mid: World, b: seq<Event>, last: World)
    requires Reaches(w, a, mid) && Reaches(mid, b, last)
    ensures Reaches(w, a + b, last)
    decreases |a|
  {
    if a == [] {
      assert a + b == b;
    } else {
      assert (a + b)[1..] == a[1..] + b;
      ReachesTrans(Next(w, a[0]), a[1..], mid, b, last);
    }
  }

  lemma SweepIsDone(s: Server, watch: Option<Watch>, p: Phase)
    requires p.Sweeping? && p.next == |p.ids| && SweepingOk(s, watch, p)
    ensures forall id | id in p.ids :: id in s.sessions && s.sessions[id].status != Pending
  {
  }

  lemma AttemptsAreFew(s: Server, c: Client)
    requires ClientOk(s, c)
    ensures c.phase.Completing? ==> c.phase.attempt <= 2
  {
  }

  lemma AnswerHolds(s: Server, c: Client)
    requires ClientOk(s, c) && c.phase.Answered?
    ensures c.phase.answer != RetriesExhausted && StillTrue(s, c.phase.call, c.phase.existed, c.phase.answer)
    ensures c.phase.attempt <= if c.phase.existed then 1 else 2
  {
  }

  class RedisStore {
    const me: nat
    var sessions: map<string, Session>
    var txs: map<string, string>
    var expiring: map<string, int>
    var watch: Option<Watch>
    var others: map<nat, Client>
    ghost var phase: Phase

    constructor (me: nat, s: Server, others: map<nat, Client>)
      requires me !in others
      ensures this.me == me && Store() == s && watch == None && this.others == others && !Running(phase)
    {
      this.me, sessions, txs, expiring := me, s.sessions, s.txs, s.expiring;
      this.watch, this.others := None, others;
      phase := Sweeping(0, [], 0, 0, Starting);
    }

    function Store(): Server
      reads this
    {
      Server(sessions, txs, expiring)
    }

    ghost function State(): World
      reads this
    {
      World(Store(), others[me := Client(watch, phase)])
    }

    ghost predicate Follows(start: World, events: seq<Event>)
      reads this
    {
      && me !in others && Sound(start) && Reaches(start, events, State()) && Sound(State())
      && ClientOk(Store(), Client(watch, phase))
    }

    lemma MineIsOk()
      requires Sound(State())
      ensures ClientOk(Store(), Client(watch, phase))
    {
      assert State().clients[me] == Client(watch, phase);
    }


    method OtherCommand(e: Event)
      requires me !in others && Theirs(e, me) && Enabled(World(Store(), others), e)
      modifies this`sessions, this`txs, this`expiring, this`watch, this`others
      ensures me !in others && watch.Some? == old(watch.Some?)
      ensures Enabled(old(State()), e) && State() == Next(old(State()), e)
    {
      TheirStep(Store(), others, me, Client(watch, phase), e);
      var w := World(Store(), others);
      var w' := Next(w, e);
      sessions, txs, expiring := w'.server.sessions, w'.server.txs, w'.server.expiring;
      others, watch := w'.clients, Written(watch, Wrote(w, e));
    }

    /** Any number of commands of the other clients. */
    method Interleave(ghost start: World, ghost sofar: seq<Event>) returns (ghost events: seq<Event>)
      requires Follows(start, sofar)
      modifies this`sessions, this`txs, this`expiring, this`watch, this`others
      ensures Follows(start, events)
      ensures watch.Some? == old(watch.Some?)
    {
      events := sofar;
      var theirs: seq<Event> := *;
      for i := 0 to |theirs|
        invariant Follows(start, events)
        invariant watch.Some? == old(watch.Some?)
      {
        if Theirs(theirs[i], me) && Enabled(World(Store(), others), theirs[i]) {
          ghost var before := State();
          OtherCommand(theirs[i]);
          StepKeepsSound(before, theirs[i]);
          ReachesAppend(start, events, before, theirs[i]);
          events := events + [theirs[i]];
          MineIsOk();
        }
      }
    }

    /** A command of this client that writes nothing, then any number of the others'. */
    method Reads(watching: Option<Watch>, ghost next: Phase, ghost start: World, ghost sofar: seq<Event>)
      returns (ghost events: seq<Event>)
      requires Follows(start, sofar) && Running(phase)
      requires Command(Store(), Client(watch, phase)) == Effect(Store(), {}, Client(watching, next))
      modifies this
      ensures Follows(start, events)
      ensures phase == next && watch.Some? == watching.Some?
    {
      MyCommandRuns(start, sofar, Store(), others, me, Client(watch, phase));
      NothingWritten(others);
      watch, phase := watching, next;
      events := Interleave(start, sofar + [Run(me)]);
    }

    /** An EXEC of this client: the new values, and the watches their keys dirty. */
    method Execs(s: Server, keys: set<Key>, ghost next: Phase, ghost start: World, ghost sofar: seq<Event>)
      returns (ghost events: seq<Event>)
      requires Follows(start, sofar) && Running(phase)
      requires Command(Store(), Client(watch, phase)) == Effect(s, keys, Client(None, next))
      modifies this
      ensures Follows(start, events)
      ensures phase == next && watch == None
    {
      MyCommandRuns(start, sofar, Store(), others, me, Client(watch, phase));
      Write(s, keys, next);
      events := Interleave(start, sofar + [Run(me)]);
    }

    /** The server takes the new values and marks the watches of the keys written. */
    method Write(s: Server, keys: set<Key>, ghost next: Phase)
      requires me !in others
      modifies this
      ensures Store() == s && watch == None && phase == next && others == Others(old(others), keys)
    {
      sessions, txs, expiring := s.sessions, s.txs, s.expiring;
      others := Others(others, keys);
      watch, phase := None, next;
    }

    /** A new call of this client. */
    method Calls(ghost e: Event, ghost next: Phase) returns (ghost events: seq<Event>)
      requires me !in others && !Running(phase) && Sound(State())
      requires Enabled(State(), e)
      requires Next(State(), e).clients == State().clients[me := Client(None, next)] && Next(State(), e).server == Store()
      modifies this
      ensures Follows(old(State()), events)
      ensures phase == next && watch == None
    {
      ghost var start := State();
      StepKeepsSound(start, e);
      watch, phase := None, next;
      assert State() == Next(start, e);
      MineIsOk();
      ReachesAppend(start, [], start, e);
      events := Interleave(start, [] + [e]);
    }

    /** A new session under a fresh id, in the expiring index from the start. */
    method CreateSession(id: string, planId: string, expiresAt: Instant)
      requires me !in others && id !in sessions
      modifies this
      ensures me !in others && phase == old(phase)
      ensures Enabled(old(State()), Create(id, planId, expiresAt))
      ensures State() == Next(old(State()), Create(id, planId, expiresAt))
    {
      TheirStep(Store(), others, me, Client(watch, phase), Create(id, planId, expiresAt));
      var s := NewSession(planId, expiresAt);
      sessions := sessions[id := s];
      if s.status == Pending {
        expiring := expiring[id := Unix(s.expiresAt)];
      }
      others, watch := Others(others, {SessionKey(id)}), Written(watch, {SessionKey(id)});
    }

    /** Watch both keys, then read the session and the owner of the hash. */
    method Examine(call: Completion, ghost start: World, ghost sofar: seq<Event>)
      returns (refusal: Option<Answer>, found: Option<Session>, ghost events: seq<Event>)
      requires Follows(start, sofar)
      requires phase.Completing? && phase.call == call && phase.stage.Starting?
      modifies this
      ensures Follows(start, events)
      ensures match refusal
              case None => found.Some? && phase == Completing(call, old(phase.attempt), old(phase.existed), Checked(found.value))
              case Some(a) => phase == Answered(call, old(phase.attempt), old(phase.existed), a)
    {
      var hash := Lower(call.transferTx);
      ghost var attempt, existed := phase.attempt, phase.existed;
      events := Reads(Some(Watch({SessionKey(call.id), TxKey(hash)}, false)), phase.(stage := Watching), start, sofar);
      found := Lookup(sessions, call.id);
      if found.None? || found.value.status != Pending {
        refusal := Some(if found.None? then NotFound else NotPending);
        events := Reads(None, Answered(call, attempt, existed, refusal.value), start, events);
        return;
      }
      events := Reads(watch, phase.(stage := Read(found.value)), start, events);
      var owner := Lookup(txs, hash);
      if owner.Some? && owner.value != call.id {
        refusal := Some(TxAlreadyConsumed);
        events := Reads(None, Answered(call, attempt, existed, TxAlreadyConsumed), start, events);
        return;
      }
      refusal := None;
      events := Reads(watch, phase.(stage := Checked(found.value)), start, events);
    }

    /** The EXEC of a completion: nothing happens when a watched key was written. */
    method TryCommit(call: Completion, found: Session, ghost start: World, ghost sofar: seq<Event>)
      returns (committed: bool, ghost events: seq<Event>)
      requires Follows(start, sofar)
      requires phase.Completing? && phase.call == call && phase.stage == Checked(found)
      modifies this
      ensures Follows(start, events)
      ensures phase == if committed then Answered(call, old(phase.attempt), old(phase.existed), Done)
                       else Completing(call, old(phase.attempt) + 1, old(phase.existed), Starting)
    {
      var hash := Lower(call.transferTx);
      ghost var attempt, existed := phase.attempt, phase.existed;
      committed := !watch.value.dirty;
      if committed {
        var s := found.(status := Completed, wallet := Lower(call.wallet), transferTx := hash);
        s := s.(approvalTx := Lower(call.approvalTx), subscriptionId := call.subscriptionId, completedAt := Some(call.at));
        var updated := Server(sessions[call.id := s], txs[hash := call.id], expiring - {call.id});
        events := Execs(updated, {SessionKey(call.id), TxKey(hash)}, Answered(call, attempt, existed, Done), start, sofar);
      } else {
        events := Reads(None, Completing(call, attempt + 1, existed, Starting), start, sofar);
      }
    }

    /** One attempt: an answer, or nothing when a watched key was written. */
    method Attempt(call: Completion, ghost start: World, ghost sofar: seq<Event>)
      returns (answer: Option<Answer>, ghost events: seq<Event>)
      requires Follows(start, sofar)
      requires phase.Completing? && phase.call == call && phase.stage.Starting?
      modifies this
      ensures Follows(start, events)
      ensures match answer
              case None => phase == Completing(call, old(phase.attempt) + 1, old(phase.existed), Starting)
              case Some(a) => phase == Answered(call, old(phase.attempt), old(phase.existed), a)
    {
      var found;
      answer, found, events := Examine(call, start, sofar);
      if answer.None? {
        var committed;
        committed, events := TryCommit(call, found.value, start, events);
        answer := if committed then Some(Done) else None;
      }
    }

    /** The retry loop. Its answer is still true when it returns, after at most two attempts if the
        session existed. */
    method CompleteSession(call: Completion) returns (answer: Answer, attempts: nat, ghost events: seq<Event>)
      requires me !in others && !Running(phase) && Sound(State())
      modifies this
      ensures me !in others && !Running(phase) && Sound(State())
      ensures Reaches(old(State()), events, State())
      ensures answer != RetriesExhausted && StillTrue(Store(), call, call.id in old(sessions), answer)
      ensures attempts <= if call.id in old(sessions) then 2 else 3
    {
      answer, attempts, events := RetryLoop(call);
      AnswerHolds(Store(), Client(watch, phase));
    }

    /** Up to five attempts, of which no run needs more than three. */
    method RetryLoop(call: Completion) returns (answer: Answer, attempts: nat, ghost events: seq<Event>)
      requires me !in others && !Running(phase) && Sound(State())
      modifies this
      ensures Follows(old(State()), events)
      ensures attempts > 0 && phase == Answered(call, attempts - 1, call.id in old(sessions), answer)
    {
      ghost var start, existed := State(), call.id in sessions;
      attempts := 0;
      events := Calls(CallComplete(me, call), Completing(call, 0, existed, Starting));
      while attempts < 5
        invariant attempts <= 2
        invariant Follows(start, events)
        invariant phase == Completing(call, attempts, existed, Starting)
      {
        attempts := attempts + 1;
        var result;
        result, events := Attempt(call, start, events);
        if result.Some? {
          return result.value, attempts, events;
        }
        AttemptsAreFew(Store(), Client(watch, phase));
      }
      answer := RetriesExhausted;
    }

    /** The EXEC that expires a session the sweep has read as pending. */
    method TryExpire(id: string, found: Session, ghost start: World, ghost sofar: seq<Event>)
      returns (expired: bool, ghost events: seq<Event>)
      requires Follows(start, sofar)
      requires phase.Sweeping? && phase.next < |phase.ids| && phase.ids[phase.next] == id && phase.sweep == Read(found)
      modifies this
      ensures Follows(start, events)
      ensures phase == Sweeping(old(phase.t), old(phase.ids), old(phase.next) + 1,
                                old(phase.expired) + if expired then 1 else 0, Starting)
    {
      ghost var onward := phase.(next := phase.next + 1, sweep := Starting);
      expired := !watch.value.dirty;
      if expired {
        var updated := Server(sessions[id := found.(status := Expired)], txs, expiring - {id});
        var keys := {SessionKey(id)};
        if found.transferTx != "" {
          updated := updated.(txs := txs - {found.transferTx});
          keys := {SessionKey(id), TxKey(found.transferTx)};
        }
        events := Execs(updated, keys, onward.(expired := onward.expired + 1), start, sofar);
      } else {
        events := Reads(None, onward, start, sofar);
      }
    }

    /** The EXEC that drops a settled session from the index. */
    method Drop(id: string, ghost start: World, ghost sofar: seq<Event>) returns (ghost events: seq<Event>)
      requires Follows(start, sofar)
      requires phase.Sweeping? && phase.next < |phase.ids| && phase.ids[phase.next] == id && phase.sweep.Dropping?
      modifies this
      ensures Follows(start, events)
      ensures phase == old(phase).(next := old(phase).next + 1, sweep := Starting)
    {
      var dropped := if watch.value.dirty then Store() else Server(sessions, txs, expiring - {id});
      events := Execs(dropped, {}, phase.(next := phase.next + 1, sweep := Starting), start, sofar);
    }

    /** Watch one session of the sweep and read it: it is pending, or only to be dropped. */
    method ReadOne(id: string, ghost start: World, ghost sofar: seq<Event>) returns (pending: Option<Session>, ghost events: seq<Event>)
      requires Follows(start, sofar)
      requires phase.Sweeping? && phase.next < |phase.ids| && phase.ids[phase.next] == id && phase.sweep.Starting?
      modifies this
      ensures Follows(start, events)
      ensures phase == old(phase).(sweep := if pending.Some? then Read(pending.value) else Dropping)
    {
      events := Reads(Some(Watch({SessionKey(id)}, false)), phase.(sweep := Watching), start, sofar);
      pending := Lookup(sessions, id);
      if pending.Some? && pending.value.status != Pending {
        pending := None;
      }
      events := Reads(watch, phase.(sweep := if pending.Some? then Read(pending.value) else Dropping), start, events);
    }

    /** One session of the sweep, read and expired under its own watch. */
    method SweepOne(id: string, ghost start: World, ghost sofar: seq<Event>) returns (expired: bool, ghost events: seq<Event>)
      requires Follows(start, sofar)
      requires phase.Sweeping? && phase.next < |phase.ids| && phase.ids[phase.next] == id && phase.sweep.Starting?
      modifies this
      ensures Follows(start, events)
      ensures phase == Sweeping(old(phase.t), old(phase.ids), old(phase.next) + 1,
                                old(phase.expired) + if expired then 1 else 0, Starting)
    {
      expired := false;
      var pending;
      pending, events := ReadOne(id, start, sofar);
      if pending.Some? {
        expired, events := TryExpire(id, pending.value, start, events);
      } else {
        events := Drop(id, start, events);
      }
    }

    /** The sweep over one range of the expiring index. No session it lists is pending when it
        returns, and the count is that of the sessions it expired itself. */
    method ExpireSessionsBefore(t: Instant) returns (n: nat, ids: seq<string>, ghost events: seq<Event>)
      requires me !in others && !Running(phase) && Sound(State())
      modifies this
      ensures me !in others && !Running(phase) && Sound(State())
      ensures Reaches(old(State()), events, State())
      ensures phase == Sweeping(t, ids, |ids|, n, Starting)
      ensures InRange(old(Store()), t, ids)
      ensures forall id | id in ids :: id in sessions && sessions[id].status != Pending
    {
      ids := ZRangeByScore(Unix(t));
      n, events := SweepRange(ids, t);
      SweepIsDone(Store(), watch, phase);
    }

    method BeginSweep(ids: seq<string>, t: Instant) returns (ghost events: seq<Event>)
      requires me !in others && !Running(phase) && Sound(State()) && InRange(Store(), t, ids)
      modifies this
      ensures Follows(old(State()), events)
      ensures phase == Sweeping(t, ids, 0, 0, Starting) && watch == None
    {
      events := Calls(CallSweep(me, t, ids), Sweeping(t, ids, 0, 0, Starting));
    }

    /** The sweep's loop over a range it has read. */
    method SweepRange(ids: seq<string>, t: Instant) returns (n: nat, ghost events: seq<Event>)
      requires me !in others && !Running(phase) && Sound(State()) && InRange(Store(), t, ids)
      modifies this
      ensures Follows(old(State()), events)
      ensures phase == Sweeping(t, ids, |ids|, n, Starting)
    {
      n := 0;
      ghost var start := State();
      events := BeginSweep(ids, t);
      for i := 0 to |ids|
        invariant n <= i
        invariant Follows(start, events)
        invariant phase == Sweeping(t, ids, i, n, Starting)
      {
        var expired;
        expired, events := SweepOne(ids[i], start, events);
        if expired {
          n := n + 1;
        }
      }
    }

    method ZRangeByScore(max: int) returns (ids: seq<string>)
      ensures |ids| <= SWEEP_COUNT
      ensures forall i, j | 0 <= i < j < |ids| :: ids[i] != ids[j]
      ensures forall id | id in ids :: id in expiring && expiring[id] <= max
      ensures |ids| < SWEEP_COUNT ==> forall id | id in expiring && expiring[id] <= max :: id in ids
    {
      ids := [];
      var rest := set id | id in expiring && expiring[id] <= max;
      while rest != {} && |ids| < SWEEP_COUNT
        invariant |ids| <= SWEEP_COUNT
        invariant forall i, j | 0 <= i < j < |ids| :: ids[i] != ids[j]
        invariant forall id | id in ids :: id in expiring && expiring[id] <= max && id !in rest
        invariant forall id | id in expiring && expiring[id] <= max :: id in ids || id in rest
        decreases rest
      {
        var id :| id in rest;
        rest := rest - {id};
        ids := ids + [id];
      }
    }
  }
}
