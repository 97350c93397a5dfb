/** The tick lock: one key with a time to live, and any number of scheduler instances that acquire,
    renew and release it. */
module TickLock {
  import opened Records
  import opened Calendar

  const TICK_LOCK_TTL: int := 30 * SECOND

  datatype Entry = Entry(holder: string, expiresAt: Instant)

  /** Who holds the key: an entry past its time is gone. */
  function HolderAt(entry: Option<Entry>, now: Instant): Option<string> {
    if entry.Some? && now < entry.value.expiresAt then Some(entry.value.holder) else None
  }

  function Acquired(entry: Option<Entry>, holder: string, ttl: int, now: Instant): Option<Entry> {
    if HolderAt(entry, now).None? then Some(Entry(holder, now + ttl)) else entry
  }

  function Renewed(entry: Option<Entry>, holder: string, ttl: int, now: Instant): Option<Entry> {
    if HolderAt(entry, now) == Some(holder) then Some(Entry(holder, now + ttl)) else entry
  }

  function Released(entry: Option<Entry>, holder: string, now: Instant): Option<Entry> {
    if HolderAt(entry, now) == Some(holder) then None else entry
  }

  class RedisLocker {
    var entry: Option<Entry>

    constructor ()
      ensures entry == None
    {
      entry := None;
    }

    /** SET if not exists, with a time to live. */
    method Acquire(holder: string, ttl: int, now: Instant) returns (acquired: bool)
      modifies this
      ensures acquired <==> HolderAt(old(entry), now).None?
      ensures entry == Acquired(old(entry), holder, ttl, now)
    {
      acquired := HolderAt(entry, now).None?;
      if acquired {
        entry := Some(Entry(holder, now + ttl));
      }
    }

    /** Compare and extend: false when the lock is someone else's or nobody's. */
    method Renew(holder: string, ttl: int, now: Instant) returns (held: bool)
      modifies this
      ensures held <==> HolderAt(old(entry), now) == Some(holder)
      ensures entry == Renewed(old(entry), holder, ttl, now)
    {
      held := HolderAt(entry, now) == Some(holder);
      if held {
        entry := Some(entry.value.(expiresAt := now + ttl));
      }
    }

    /** Compare and delete. */
    method Release(holder: string, now: Instant)
      modifies this
      ensures entry == Released(old(entry), holder, now)
      ensures HolderAt(entry, now) != Some(holder)
    {
      if HolderAt(entry, now) == Some(holder) {
        entry := None;
      }
    }
  }

  /** Renewing or releasing a lock one does not hold changes nothing, and neither does acquiring a
      lock that is held. */
  lemma OnlyTheHolderActs(entry: Option<Entry>, i: string, ttl: int, now: Instant)
    requires ttl > 0
    ensures HolderAt(entry, now) != Some(i) ==> Renewed(entry, i, ttl, now) == entry && Released(entry, i, now) == entry
    ensures HolderAt(entry, now).Some? ==> Acquired(entry, i, ttl, now) == entry
    ensures HolderAt(Acquired(entry, i, ttl, now), now) == Some(i) <==> HolderAt(entry, now) in {None, Some(i)}
  {
  }

  // ---------- many instances ----------

  /** A running tick: the subscriptions it has processed, and whether its heartbeat has signalled the
      loss of the lock. */
  datatype Tick = Idle | Running(processed: nat, lost: bool)

  datatype World = World(entry: Option<Entry>, clock: Instant, ticks: map<string, Tick>)

  datatype Event =
    | Advance(now: Instant)
    | Acquire(i: string)
    | AcquireUnanswered(i: string)
    | Renew(i: string)
    | RenewUnanswered(i: string, applied: bool)
    | CheckAndProcess(i: string)
    | Release(i: string)
    | ReleaseUnanswered(i: string, applied: bool)
    | Crash(i: string)

  predicate IsRunning(w: World, i: string) {
    i in w.ticks && w.ticks[i].Running?
  }

  function ActorOf(e: Event): Option<string> {
    match e
    case Advance(_) => None
    case Acquire(i) => Some(i)
    case AcquireUnanswered(i) => Some(i)
    case Renew(i) => Some(i)
    case RenewUnanswered(i, _) => Some(i)
    case CheckAndProcess(i) => Some(i)
    case Release(i) => Some(i)
    case ReleaseUnanswered(i, _) => Some(i)
    case Crash(i) => Some(i)
  }

  predicate Enabled(w: World, e: Event) {
    match e
    case Advance(now) => w.clock <= now
    case Acquire(i) => !IsRunning(w, i)
    case AcquireUnanswered(i) => !IsRunning(w, i)
    case CheckAndProcess(i) => IsRunning(w, i)
    case Release(i) => IsRunning(w, i)
    case ReleaseUnanswered(i, _) => IsRunning(w, i)
    case _ => true
  }

  function Told(w: World, i: string): map<string, Tick> {
    if IsRunning(w, i) then w.ticks[i := w.ticks[i].(lost := true)] else w.ticks
  }

  function Next(w: World, e: Event): World
    requires Enabled(w, e)
  {
    match e
    case Advance(now) => w.(clock := now)
    case Acquire(i) =>
      w.(entry := Acquired(w.entry, i, TICK_LOCK_TTL, w.clock),
         ticks := w.ticks[i := if HolderAt(w.entry, w.clock).None? then Running(0, false) else Idle])
    case AcquireUnanswered(i) => w.(entry := Acquired(w.entry, i, TICK_LOCK_TTL, w.clock))
    case Renew(i) =>
      w.(entry := Renewed(w.entry, i, TICK_LOCK_TTL, w.clock),
         ticks := if HolderAt(w.entry, w.clock) == Some(i) then w.ticks else Told(w, i))
    case RenewUnanswered(i, applied) =>
      w.(entry := if applied then Renewed(w.entry, i, TICK_LOCK_TTL, w.clock) else w.entry, ticks := Told(w, i))
    case CheckAndProcess(i) =>
      if w.ticks[i].lost then w
      else w.(ticks := w.ticks[i := w.ticks[i].(processed := w.ticks[i].processed + 1)])
    case Release(i) => w.(entry := Released(w.entry, i, w.clock), ticks := w.ticks[i := Idle])
    case ReleaseUnanswered(i, applied) =>
      w.(entry := if applied then Released(w.entry, i, w.clock) else w.entry, ticks := w.ticks[i := Idle])
    case Crash(i) => w.(ticks := w.ticks[i := Idle])
  }

  ghost predicate Reaches(w: World, events: seq<Event>, w': World)
    decreases |events|
  {
    if events == [] then w == w'
    else Enabled(w, events[0]) && Reaches(Next(w, events[0]), events[1..], w')
  }

  // ---------- mutual exclusion ----------

  /** Every running tick holds the lock now. */
  ghost predicate Exclusive(w: World) {
    forall i | IsRunning(w, i) :: HolderAt(w.entry, w.clock) == Some(i)
  }

  /** No running tick lets its time to live pass. */
  predicate Timely(w: World, e: Event) {
    e.Advance? && w.entry.Some? && IsRunning(w, w.entry.value.holder) ==> e.now < w.entry.value.expiresAt
  }

  lemma ExclusiveMeansOne(w: World, i: string, j: string)
    requires Exclusive(w) && IsRunning(w, i) && IsRunning(w, j)
    ensures i == j
  {
  }

  /** A step keeps the running ticks exclusive exactly when it does not let a running tick's time to
      live pass. */
  lemma ExclusiveIffTimely(w: World, e: Event)
    requires Exclusive(w) && Enabled(w, e)
    ensures Exclusive(Next(w, e)) <==> Timely(w, e)
  {
    var w' := Next(w, e);
    if e.Advance? && w.entry.Some? && IsRunning(w, w.entry.value.holder) {
      assert IsRunning(w', w.entry.value.holder);
    }
  }

  ghost predicate TimelyRun(w: World, events: seq<Event>, w': World)
    decreases |events|
  {
    if events == [] then w == w'
    else Enabled(w, events[0]) && Timely(w, events[0]) && TimelyRun(Next(w, events[0]), events[1..], w')
  }

  lemma {:induction false} TimelyRunIsExclusive(w: World, events: seq<Event>, w': World)
    requires Exclusive(w) && TimelyRun(w, events, w')
    ensures Exclusive(w')
    decreases |events|
  {
    if events != [] {
      ExclusiveIffTimely(w, events[0]);
      TimelyRunIsExclusive(Next(w, events[0]), events[1..], w');
    }
  }

  /** In every run in which running ticks renew in time, no two ticks ever run together. */
  lemma MutualExclusion(w: World, events: seq<Event>, w': World, i: string, j: string)
    requires w.ticks == map[] && TimelyRun(w, events, w')
    requires IsRunning(w', i) && IsRunning(w', j)
    ensures i == j
  {
    TimelyRunIsExclusive(w, events, w');
    ExclusiveMeansOne(w', i, j);
  }

  /** Another instance gets in beside a running tick exactly when that tick's time has run out. */
  lemma SecondTickIff(w: World, i: string, j: string)
    requires Exclusive(w) && IsRunning(w, i) && i != j
    ensures forall now | w.clock <= now ::
              var late := Next(w, Advance(now));
              (Enabled(late, Acquire(j)) && IsRunning(Next(late, Acquire(j)), j)) <==> w.entry.value.expiresAt <= now
  {
    assert !IsRunning(w, j);
  }

  // ---------- death and loss ----------

  /** What an instance that stays silent leaves behind: its entry with its old deadline, or none. */
  lemma {:induction false} SilentHolder(w: World, events: seq<Event>, w': World, i: string)
    requires Reaches(w, events, w') && forall k | 0 <= k < |events| :: ActorOf(events[k]) != Some(i)
    ensures w.clock <= w'.clock
    ensures w'.entry.Some? && w'.entry.value.holder == i ==> w'.entry == w.entry
    decreases |events|
  {
    if events != [] {
      assert ActorOf(events[0]) != Some(i);
      SilentHolder(Next(w, events[0]), events[1..], w', i);
    }
  }

  /** A dead holder blocks nobody a time to live after its last renewal: from then on the lock is
      free, or someone else's. */
  lemma DeadHolderExpires(w: World, renewedAt: Instant, events: seq<Event>, w': World, i: string, j: string)
    requires w.entry == Some(Entry(i, renewedAt + TICK_LOCK_TTL))
    requires Reaches(w, events, w') && forall k | 0 <= k < |events| :: ActorOf(events[k]) != Some(i)
    requires renewedAt + TICK_LOCK_TTL <= w'.clock
    ensures HolderAt(w'.entry, w'.clock) != Some(i)
    ensures HolderAt(w'.entry, w'.clock).None? && !IsRunning(w', j) ==> IsRunning(Next(w', Acquire(j)), j)
  {
    SilentHolder(w, events, w', i);
  }

  predicate Ends(e: Event, i: string) {
    (e.Release? || e.ReleaseUnanswered? || e.Crash?) && ActorOf(e) == Some(i)
  }

  /** After its heartbeat has signalled the loss, a tick processes nothing more. */
  lemma {:induction false} NothingAfterLoss(w: World, events: seq<Event>, w': World, i: string)
    requires Reaches(w, events, w') && IsRunning(w, i) && w.ticks[i].lost
    requires forall k | 0 <= k < |events| :: !Ends(events[k], i)
    ensures IsRunning(w', i) && w'.ticks[i] == w.ticks[i]
    decreases |events|
  {
    if events != [] {
      assert !Ends(events[0], i);
      NothingAfterLoss(Next(w, events[0]), events[1..], w', i);
    }
  }

  // ---------- the heartbeat of one tick ----------

  /** One beat: how long after the one before it is sent, and whether it reaches the server and its
      answer comes back. */
  datatype Beat = Beat(after: nat, reached: bool, answered: bool)

  /** The lock as one tick's heartbeat leaves it: the last beat's time, the next beat, and whether the
      loss has been signalled, after which there are no more. */
  datatype Pulse = Pulse(entry: Option<Entry>, at: Instant, next: nat, lost: bool)

  function BeatOnce(p: Pulse, b: Beat, holder: string): Pulse {
    var at := p.at + b.after;
    Pulse(if b.reached then Renewed(p.entry, holder, TICK_LOCK_TTL, at) else p.entry, at, p.next + 1,
          !(b.reached && b.answered && HolderAt(p.entry, at) == Some(holder)))
  }

  /** All the beats sent up to now. */
  function Beaten(p: Pulse, beats: seq<Beat>, now: Instant, holder: string): Pulse
    decreases if p.next < |beats| then |beats| - p.next else 0
  {
    if p.lost || p.next >= |beats| || now < p.at + beats[p.next].after then p
    else Beaten(BeatOnce(p, beats[p.next], holder), beats, now, holder)
  }

  lemma {:induction false} BeatenOn(p: Pulse, beats: seq<Beat>, now: Instant, later: Instant, holder: string)
    requires now <= later
    ensures Beaten(Beaten(p, beats, now, holder), beats, later, holder) == Beaten(p, beats, later, holder)
    decreases if p.next < |beats| then |beats| - p.next else 0
  {
    if !(p.lost || p.next >= |beats| || now < p.at + beats[p.next].after) {
      BeatenOn(BeatOnce(p, beats[p.next], holder), beats, now, later, holder);
    }
  }

  predicate Prompt(b: Beat) {
    b.reached && b.answered && b.after < TICK_LOCK_TTL
  }

  predicate Fresh(p: Pulse, holder: string) {
    p.entry == Some(Entry(holder, p.at + TICK_LOCK_TTL)) && !p.lost
  }

  /** The loss signal is real and complete: with the lock freshly held, it comes exactly when a beat
      sent by now did not reach the server, was not answered, or came a time to live after the one
      before. */
  lemma {:induction false} LossIff(p: Pulse, beats: seq<Beat>, now: Instant, holder: string)
    requires Fresh(p, holder)
    ensures var q := Beaten(p, beats, now, holder);
            && p.next <= q.next && (q.next <= |beats| || q.next == p.next) && p.at <= q.at
            && (q.lost <==> exists k :: p.next <= k < q.next && k < |beats| && !Prompt(beats[k]))
            && (!q.lost ==> Fresh(q, holder))
    decreases if p.next < |beats| then |beats| - p.next else 0
  {
    if !(p.next >= |beats| || now < p.at + beats[p.next].after) {
      var b, r := beats[p.next], BeatOnce(p, beats[p.next], holder);
      if Prompt(b) {
        LossIff(r, beats, now, holder);
      } else {
        assert !Prompt(beats[p.next]);
      }
    }
  }

  /** With every beat prompt and the next one still to come, the tick holds the lock now. */
  lemma PromptBeatsHold(p: Pulse, beats: seq<Beat>, now: Instant, holder: string)
    requires Fresh(p, holder) && p.at <= now && forall k | 0 <= k < |beats| :: Prompt(beats[k])
    ensures var q := Beaten(p, beats, now, holder);
            !q.lost && (q.next < |beats| ==> HolderAt(q.entry, now) == Some(holder))
  {
    LossIff(p, beats, now, holder);
    BeatenStops(p, beats, now, holder);
  }

  lemma {:induction false} BeatenStops(p: Pulse, beats: seq<Beat>, now: Instant, holder: string)
    ensures var q := Beaten(p, beats, now, holder);
            q.lost || q.next >= |beats| || now < q.at + beats[q.next].after
    decreases if p.next < |beats| then |beats| - p.next else 0
  {
    if !(p.lost || p.next >= |beats| || now < p.at + beats[p.next].after) {
      BeatenStops(BeatOnce(p, beats[p.next], holder), beats, now, holder);
    }
  }
}
