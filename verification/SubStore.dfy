/** The subscription stores: the in-memory one, and the Redis one with its status sets and its
    sorted set of due times. */
module SubStore {
  import opened Records
  import opened Calendar
  import opened Token
  import opened Billing

  // ---------- in memory ----------

  predicate SortedByDue(s: seq<Sub>) {
    forall i, j | 0 <= i < j < |s| :: s[i].nextAttemptAt <= s[j].nextAttemptAt
  }

  /** The due records of different users, earliest first: all of them, or with a positive limit the
      earliest `limit`. */
  predicate EarliestDue(subs: map<Address, Sub>, t: Instant, limit: int, due: seq<Sub>) {
    && (forall s | s in due :: s.user in subs && s == subs[s.user] && Due(s, t))
    && SortedByDue(due) && DistinctUsers(due)
    && (limit > 0 ==> |due| <= limit)
    && (forall u | u in subs && Due(subs[u], t) && subs[u] !in due ::
          limit > 0 && |due| == limit && forall i | 0 <= i < |due| :: due[i].nextAttemptAt <= subs[u].nextAttemptAt)
  }

  class MemoryStore {
    var plans: map<string, Plan>
    var subs: map<Address, Sub>

    constructor ()
      ensures plans == map[] && subs == map[]
    {
      plans, subs := map[], map[];
    }

    method UpsertPlan(p: Plan)
      modifies this`plans
      ensures plans == old(plans)[p.id := p]
    {
      plans := plans[p.id := p];
    }

    method GetPlan(id: string) returns (p: Option<Plan>)
      ensures p == if id in plans then Some(plans[id]) else None
    {
      p := if id in plans then Some(plans[id]) else None;
    }

    method UpsertSubscription(s: Sub)
      modifies this`subs
      ensures subs == old(subs)[s.user := s]
    {
      subs := subs[s.user := s];
    }

    method GetSubscription(user: Address) returns (s: Option<Sub>)
      ensures s == if user in subs then Some(subs[user]) else None
    {
      s := if user in subs then Some(subs[user]) else None;
    }

    /** Copies of the due subscriptions. */
    method DueBefore(t: Instant, limit: int) returns (due: seq<Sub>)
      requires forall u | u in subs :: subs[u].user == u
      ensures EarliestDue(subs, t, limit, due)
    {
      due := [];
      var rest := subs.Keys;
      while rest != {}
        invariant rest <= subs.Keys
        invariant forall s | s in due :: s.user in subs.Keys - rest && s == subs[s.user] && Due(s, t)
        invariant DistinctUsers(due)
        invariant forall u | u in subs && u !in rest && Due(subs[u], t) :: subs[u] in due
        decreases rest
      {
        var u :| u in rest;
        rest := rest - {u};
        var s := subs[u];
        if s.status != Active && s.status != PastDue {
          continue;
        }
        if s.pending.Some? || s.nextAttemptAt <= t {
          due := due + [s];
        }
      }
      due := SortSlice(due);
      if limit > 0 && |due| > limit {
        ghost var all := due;
        due := due[..limit];
        forall u | u in subs && Due(subs[u], t) && subs[u] !in due
          ensures forall i | 0 <= i < |due| :: due[i].nextAttemptAt <= subs[u].nextAttemptAt
        {
          var k :| 0 <= k < |all| && all[k] == subs[u];
          assert k >= limit;
        }
      }
    }
  }

  predicate DistinctUsers(s: seq<Sub>) {
    forall i, j | 0 <= i < j < |s| :: s[i].user != s[j].user
  }

  function Inserted(r: seq<Sub>, p: nat, x: Sub): (r': seq<Sub>)
    requires p <= |r|
    ensures |r'| == |r| + 1
    ensures forall k | 0 <= k < |r'| :: r'[k] == if k < p then r[k] else if k == p then x else r[k - 1]
  {
    r[..p] + [x] + r[p..]
  }

  lemma InsertKeepsMembers(r: seq<Sub>, p: nat, x: Sub)
    requires p <= |r|
    ensures forall y :: y in Inserted(r, p, x) <==> y in r || y == x
  {
    var r' := Inserted(r, p, x);
    assert r'[p] == x;
    forall y | y in r ensures y in r' {
      var k :| 0 <= k < |r| && r[k] == y;
      assert r'[if k < p then k else k + 1] == y;
    }
  }

  lemma InsertKeepsOrder(r: seq<Sub>, p: nat, x: Sub)
    requires p <= |r| && SortedByDue(r) && DistinctUsers(r)
    requires forall k | 0 <= k < p :: r[k].nextAttemptAt <= x.nextAttemptAt
    requires p < |r| ==> x.nextAttemptAt < r[p].nextAttemptAt
    requires forall k | 0 <= k < |r| :: r[k].user != x.user
    ensures SortedByDue(Inserted(r, p, x)) && DistinctUsers(Inserted(r, p, x))
  {
    assert forall k | p <= k < |r| :: x.nextAttemptAt <= r[k].nextAttemptAt;
  }

  /** The library sort the store calls, on the records of different users. */
  method SortSlice(s: seq<Sub>) returns (r: seq<Sub>)
    requires DistinctUsers(s)
    ensures SortedByDue(r) && DistinctUsers(r)
    ensures forall x :: x in r <==> x in s
  {
    r := [];
    for i := 0 to |s|
      invariant SortedByDue(r) && DistinctUsers(r)
      invariant forall x :: x in r <==> x in s[..i]
    {
      var p := 0;
      while p < |r| && r[p].nextAttemptAt <= s[i].nextAttemptAt
        invariant 0 <= p <= |r|
        invariant forall k | 0 <= k < p :: r[k].nextAttemptAt <= s[i].nextAttemptAt
      {
        p := p + 1;
      }
      forall k | 0 <= k < |r| ensures r[k].user != s[i].user {
        assert r[k] in s[..i];
      }
      InsertKeepsOrder(r, p, s[i]);
      InsertKeepsMembers(r, p, s[i]);
      assert s[..i + 1] == s[..i] + [s[i]];
      r := Inserted(r, p, s[i]);
    }
    assert s[..|s|] == s;
  }

  // ---------- Redis ----------

  /** The score of a billable subscription: a stashed charge sorts first. */
  function Score(s: Sub): int {
    if s.pending.Some? then 0 else Unix(s.nextAttemptAt)
  }

  /** The order of a sorted set: by score, then by member. */
  predicate Precedes(z: map<Address, int>, a: Address, b: Address)
    requires a in z && b in z
  {
    z[a] < z[b] || (z[a] == z[b] && a.number < b.number)
  }

  method FirstMember(z: map<Address, int>, members: set<Address>) returns (first: Address)
    requires members != {} && members <= z.Keys
    ensures first in members
    ensures forall u | u in members && u != first :: Precedes(z, first, u)
  {
    first :| first in members;
    var rest := members - {first};
    while rest != {}
      invariant rest <= members && first in members && first !in rest
      invariant forall u | u in members && u !in rest && u != first :: Precedes(z, first, u)
      decreases rest
    {
      var u :| u in rest;
      rest := rest - {u};
      if Precedes(z, u, first) {
        first := u;
      }
    }
  }

  /** ZRANGEBYSCORE from minus infinity, with LIMIT when the count is positive. */
  method ZRangeByScore(z: map<Address, int>, max: int, count: int) returns (members: seq<Address>)
    ensures forall u | u in members :: u in z && z[u] <= max
    ensures forall i, j | 0 <= i < j < |members| :: Precedes(z, members[i], members[j])
    ensures forall u | u in z && z[u] <= max && u !in members ::
              count > 0 && |members| == count && forall i | 0 <= i < |members| :: Precedes(z, members[i], u)
  {
    members := [];
    var rest := set u | u in z && z[u] <= max;
    while rest != {} && !(count > 0 && |members| == count)
      invariant rest <= z.Keys && forall u | u in rest :: z[u] <= max
      invariant forall u | u in members :: u in z && z[u] <= max
      invariant forall i, j | 0 <= i < j < |members| :: Precedes(z, members[i], members[j])
      invariant forall u, i | u in rest && 0 <= i < |members| :: Precedes(z, members[i], u)
      invariant forall u | u in z && z[u] <= max :: u in members || u in rest
      decreases rest
    {
      var first := FirstMember(z, rest);
      members := members + [first];
      rest := rest - {first};
    }
  }

  /** The indexes agree with the records: one status set per user, and the sorted set holds
      exactly the billable users at their scores. */
  ghost predicate Indexed(subs: map<Address, Sub>, byStatus: map<Status, set<Address>>, due: map<Address, int>) {
    && (forall u | u in subs :: subs[u].user == u)
    && byStatus.Keys == {Active, PastDue, Cancelled}
    && (forall st, u | st in byStatus :: u in byStatus[st] <==> u in subs && subs[u].status == st)
    && (forall u :: u in due <==> u in subs && Billable(subs[u]))
    && (forall u | u in due :: due[u] == Score(subs[u]))
  }

  lemma UpsertKeepsIndexes(subs: map<Address, Sub>, byStatus: map<Status, set<Address>>, due: map<Address, int>, s: Sub,
                           byStatus': map<Status, set<Address>>, due': map<Address, int>)
    requires Indexed(subs, byStatus, due)
    requires byStatus'.Keys == byStatus.Keys
    requires forall st | st in byStatus ::
               byStatus'[st] == if st == s.status then byStatus[st] - {s.user} + {s.user} else byStatus[st] - {s.user}
    requires due' == if Billable(s) then due[s.user := Score(s)] else due - {s.user}
    ensures Indexed(subs[s.user := s], byStatus', due')
  {
  }

  lemma EveryStatusHasASet(st: Status)
    ensures st in {Active, PastDue, Cancelled}
  {
    match st
    case Active =>
    case PastDue =>
    case Cancelled =>
  }

  /** The records scored due, in score order: all of them, or with a positive limit the first `limit`. */
  predicate FirstScored(subs: map<Address, Sub>, t: Instant, limit: int, out: seq<Sub>) {
    && (forall s | s in out :: s.user in subs && s == subs[s.user] && ScoredDue(s, t))
    && (forall i, j | 0 <= i < j < |out| ::
          Score(out[i]) < Score(out[j]) || (Score(out[i]) == Score(out[j]) && out[i].user.number < out[j].user.number))
    && (forall u | u in subs && ScoredDue(subs[u], t) && subs[u] !in out ::
          limit > 0 && |out| == limit && forall i | 0 <= i < |out| :: Score(out[i]) <= Score(subs[u]))
  }

  class RedisStore {
    var subs: map<Address, Sub>
    var byStatus: map<Status, set<Address>>
    var due: map<Address, int>

    ghost predicate Valid()
      reads this
    {
      Indexed(subs, byStatus, due)
    }

    constructor ()
      ensures Valid() && subs == map[]
    {
      subs := map[];
      byStatus := map[Active := {}, PastDue := {}, Cancelled := {}];
      due := map[];
    }

    /** SREM from every status set. */
    method RemoveFromStatusSets(user: Address)
      requires byStatus.Keys == {Active, PastDue, Cancelled}
      modifies this`byStatus
      ensures byStatus.Keys == old(byStatus.Keys)
      ensures forall st | st in byStatus :: byStatus[st] == old(byStatus[st]) - {user}
    {
      var statuses := [Active, PastDue, Cancelled];
      for i := 0 to |statuses|
        invariant byStatus.Keys == old(byStatus.Keys)
        invariant forall k | 0 <= k < |statuses| :: statuses[k] in byStatus && byStatus[statuses[k]]
                    == if k < i then old(byStatus[statuses[k]]) - {user} else old(byStatus[statuses[k]])
      {
        byStatus := byStatus[statuses[i] := byStatus[statuses[i]] - {user}];
      }
      assert byStatus[statuses[0]] == old(byStatus[Active]) - {user};
      assert byStatus[statuses[1]] == old(byStatus[PastDue]) - {user};
      assert byStatus[statuses[2]] == old(byStatus[Cancelled]) - {user};
    }

    /** One pipelined transaction. */
    method UpsertSubscription(s: Sub)
      requires Valid()
      modifies this
      ensures Valid()
      ensures subs == old(subs)[s.user := s]
    {
      subs := subs[s.user := s];
      RemoveFromStatusSets(s.user);
      EveryStatusHasASet(s.status);
      byStatus := byStatus[s.status := byStatus[s.status] + {s.user}];
      if s.status == Active || s.status == PastDue {
        var score := Unix(s.nextAttemptAt);
        if s.pending.Some? {
          score := 0;
        }
        due := due[s.user := score];
      } else {
        due := due - {s.user};
      }
      UpsertKeepsIndexes(old(subs), old(byStatus), old(due), s, byStatus, due);
    }

    method GetSubscription(user: Address) returns (s: Option<Sub>)
      ensures s == if user in subs then Some(subs[user]) else None
    {
      s := if user in subs then Some(subs[user]) else None;
    }

    /** The range of the sorted set up to now, each member's record looked up. */
    method DueBefore(t: Instant, limit: int) returns (out: seq<Sub>)
      requires Valid()
      ensures FirstScored(subs, t, limit, out)
    {
      var users := ZRangeByScore(due, Unix(t), limit);
      out := [];
      for k := 0 to |users|
        invariant |out| == k
        invariant forall i | 0 <= i < k :: users[i] in subs && out[i] == subs[users[i]]
      {
        var s := GetSubscription(users[k]);
        if s.Some? {
          out := out + [s.value];
        }
      }
      forall u | u in subs && ScoredDue(subs[u], t) && subs[u] !in out
        ensures u !in users
      {
        assert forall i | 0 <= i < |users| :: users[i] == u ==> out[i] == subs[u];
      }
    }
  }

  /** Due by the sorted set: scored at or before now. */
  predicate ScoredDue(s: Sub, t: Instant) {
    Billable(s) && Score(s) <= Unix(t)
  }

  /** The two stores agree on whether a subscription is due, except about a charge stashed before
      1970 and about fractions of the current second. */
  lemma DueAgreement(s: Sub, t: Instant)
    ensures ScoredDue(s, t) == Due(s, t)
            <==> (Billable(s) ==> if s.pending.Some? then 0 <= t
                                  else !(Unix(s.nextAttemptAt) == Unix(t) && t < s.nextAttemptAt))
  {
  }

  /** On whole-second times from 1970 on, an unlimited query finds the same subscriptions in both
      stores. */
  lemma SameDueSet(subs: map<Address, Sub>, t: Instant, memory: seq<Sub>, redis: seq<Sub>)
    requires 0 <= t && t % SECOND == 0
    requires forall u | u in subs :: subs[u].user == u && subs[u].nextAttemptAt % SECOND == 0
    requires forall s | s in memory :: s.user in subs && s == subs[s.user] && Due(s, t)
    requires forall u | u in subs && Due(subs[u], t) :: subs[u] in memory
    requires forall s | s in redis :: s.user in subs && s == subs[s.user] && ScoredDue(s, t)
    requires forall u | u in subs && ScoredDue(subs[u], t) :: subs[u] in redis
    ensures forall s :: s in memory <==> s in redis
  {
    forall u | u in subs ensures ScoredDue(subs[u], t) == Due(subs[u], t) {
      DueAgreement(subs[u], t);
    }
  }

  /** In the Redis order stashed charges come before every due time after the first second of 1970. */
  lemma StashesComeFirst(subs: map<Address, Sub>, t: Instant, limit: int, out: seq<Sub>, i: nat, j: nat)
    requires FirstScored(subs, t, limit, out) && i < j < |out|
    ensures out[j].pending.Some? ==> out[i].pending.Some? || out[i].nextAttemptAt < SECOND
  {
  }

  /** And no two records of the list are one user's. */
  lemma ScoredListIsDistinct(subs: map<Address, Sub>, t: Instant, limit: int, out: seq<Sub>)
    requires FirstScored(subs, t, limit, out)
    ensures DistinctUsers(out)
  {
    forall i, j | 0 <= i < j < |out| ensures out[i].user != out[j].user {
      assert out[i] in out && out[j] in out;
    }
  }
}
