/** Submitting one pull: the operator's node, the fee-bumping loop, and the in-memory subscription it
    records its hashes in. */
module Submitter {
  import opened Records
  import opened Calendar
  import opened Token
  import opened Billing
  import opened Engine
  import opened EngineRuns
  import opened SubStore

  const MAX_BUMPS: int := 5
  const TOTAL_BUDGET: int := 600 * SECOND

  /** The scheduler's own copy of a record, shared by the methods that process it. */
  class Subscription {
    var user: Address
    var planId: string
    var status: Status
    var nextAttemptAt: Instant
    var lastChargedAt: Instant
    var pending: Option<Decimal>
    var dunningAttempts: int
    var lastChargedTx: Option<PullTx>
    var lastChargedBlock: nat
    var inFlight: Option<PullTx>

    function Value(): Sub
      reads this
    {
      Sub(user, planId, status, nextAttemptAt, lastChargedAt, pending, dunningAttempts, lastChargedTx,
          lastChargedBlock, inFlight)
    }

    constructor CopyOf(s: Sub)
      ensures Value() == s
    {
      user, planId, status, nextAttemptAt := s.user, s.planId, s.status, s.nextAttemptAt;
      lastChargedAt, pending, dunningAttempts := s.lastChargedAt, s.pending, s.dunningAttempts;
      lastChargedTx, lastChargedBlock, inFlight := s.lastChargedTx, s.lastChargedBlock, s.inFlight;
    }
  }

  /** What the operator's node sees of the chain, and the clock. */
  class Node {
    var chain: Chain
    var offered: set<PullTx>
    var mined: seq<Mined>
    var clock: Instant
  }

  /** Steps that go on while the scheduler works: the chain, the clock, and the API on users other
      than the busy ones and plans other than theirs. */
  predicate Background(e: Event, busy: set<Address>, frozen: set<string>) {
    match e
    case Advance(_) => true
    case Mine(_, _) => true
    case MineOther => true
    case Outside(_) => true
    case UpsertPlan(plan) => plan.id !in frozen
    case Subscribe(u, _, _) => u !in busy
    case CancelSub(u) => u !in busy
    case Checkout(u, _) => u !in busy
    case _ => false
  }

  /** What background steps leave as it was. */
  ghost predicate Undisturbed(w: World, w': World, busy: set<Address>, frozen: set<string>) {
    && (forall u | u in busy && u in w.subs :: u in w'.subs && w'.subs[u] == w.subs[u])
    && (forall id | id in frozen ::
          (id in w'.plans <==> id in w.plans) && (id in w.plans ==> w'.plans[id] == w.plans[id]))
    && w.mined <= w'.mined && w.clock <= w'.clock
    && w'.ledger == w.ledger && w'.offered == w.offered
    && w'.policy == w.policy && w'.operatorKey == w.operatorKey
  }

  /** What processing one user leaves alone: the other busy users, the plans in use, and the past. */
  ghost predicate OthersKept(w: World, w': World, user: Address, busy: set<Address>, frozen: set<string>) {
    && (forall u | u in busy && u != user && u in w.subs :: u in w'.subs && w'.subs[u] == w.subs[u])
    && (forall id | id in frozen ::
          (id in w'.plans <==> id in w.plans) && (id in w.plans ==> w'.plans[id] == w.plans[id]))
    && w.clock <= w'.clock
  }

  lemma BackgroundStepUndisturbed(w: World, e: Event, busy: set<Address>, frozen: set<string>)
    requires Enabled(w, e) && Background(e, busy, frozen)
    ensures Undisturbed(w, Next(w, e), busy, frozen)
  {
  }

  /** Whatever goes on in the background leaves busy users, plans in use and mined blocks alone. */
  lemma {:induction false} BackgroundUndisturbed(w: World, events: seq<Event>, w': World, busy: set<Address>, frozen: set<string>)
    requires Reaches(w, events, w') && BackgroundRun(events, busy, frozen)
    ensures Undisturbed(w, w', busy, frozen)
    decreases |events|
  {
    if events != [] {
      assert events[0] in events;
      BackgroundStepUndisturbed(w, events[0], busy, frozen);
      BackgroundUndisturbed(Next(w, events[0]), events[1..], w', busy, frozen);
    }
  }

  lemma OthersKeptTrans(w: World, mid: World, w': World, user: Address, busy: set<Address>, frozen: set<string>)
    requires OthersKept(w, mid, user, busy, frozen) && OthersKept(mid, w', user, busy, frozen)
    ensures OthersKept(w, w', user, busy, frozen)
  {
  }

  /** A run of the submitter: background steps, and broadcasts of its own offers. */
  ghost predicate QuietRun(events: seq<Event>, offers: seq<PullTx>, busy: set<Address>, frozen: set<string>) {
    forall e | e in events :: Background(e, busy, frozen) || ((e.Offer? || e.Replace?) && e.tx in offers)
  }

  ghost predicate BackgroundRun(events: seq<Event>, busy: set<Address>, frozen: set<string>) {
    forall e | e in events :: Background(e, busy, frozen)
  }

  /** The submitter has worked on one user: a quiet run, these offers broadcast and nothing else, and
      the other busy users left alone. */
  ghost predicate Worked(w: World, events: seq<Event>, w': World, offers: seq<PullTx>, user: Address,
                         busy: set<Address>, frozen: set<string>)
  {
    && Reaches(w, events, w') && QuietRun(events, offers, busy, frozen)
    && OthersKept(w, w', user, busy, frozen)
    && w'.offered == w.offered + Members(offers)
  }

  lemma WorkedTrans(w: World, a: seq<Event>, mid: World, b: seq<Event>, w': World,
                    offers: seq<PullTx>, offers': seq<PullTx>, user: Address, busy: set<Address>, frozen: set<string>)
    requires Worked(w, a, mid, offers, user, busy, frozen) && Worked(mid, b, w', offers', user, busy, frozen)
    requires offers <= offers'
    ensures Worked(w, a + b, w', offers', user, busy, frozen)
  {
    ReachesTrans(w, a, mid, b, w');
    QuietJoin(a, b, offers, offers', busy, frozen);
    OthersKeptTrans(w, mid, w', user, busy, frozen);
    assert Members(offers) <= Members(offers');
  }

  /** Waiting on offers that are out already. */
  lemma WaitedWorks(w: World, events: seq<Event>, w': World, offers: seq<PullTx>, user: Address, busy: set<Address>, frozen: set<string>)
    requires Reaches(w, events, w') && BackgroundRun(events, busy, frozen) && Undisturbed(w, w', busy, frozen)
    requires Members(offers) <= w.offered
    ensures Worked(w, events, w', offers, user, busy, frozen)
  {
  }

  /** A broadcast of this user's last offer. */
  lemma BroadcastWorks(w: World, e: Event, offers: seq<PullTx>, user: Address, busy: set<Address>, frozen: set<string>)
    requires Enabled(w, e) && (e.Offer? || e.Replace?) && e.tx.user == user
    requires offers != [] && offers[|offers| - 1] == e.tx && Members(offers[..|offers| - 1]) <= w.offered
    ensures Worked(w, [e], Next(w, e), offers, user, busy, frozen)
  {
    assert [e][1..] == [];
    assert offers == offers[..|offers| - 1] + [e.tx];
  }

  lemma QuietJoin(a: seq<Event>, b: seq<Event>, offers: seq<PullTx>, offers': seq<PullTx>, busy: set<Address>, frozen: set<string>)
    requires QuietRun(a, offers, busy, frozen) && QuietRun(b, offers', busy, frozen) && offers <= offers'
    ensures QuietRun(a + b, offers', busy, frozen)
  {
    assert forall tx | tx in offers :: tx in offers';
  }

  function Members(offers: seq<PullTx>): set<PullTx> {
    set tx | tx in offers
  }

  // ---------- fees ----------

  /** The node's latest readings; either may fail. */
  datatype Reading = Reading(value: nat) | Unavailable

  predicate ShouldBump(tip: nat, maxFee: nat, baseFee: Reading, suggested: Reading) {
    baseFee.Reading? && (maxFee < baseFee.value || (suggested.Reading? && tip < suggested.value))
  }

  function MaxFeeForTip(baseFee: nat, tip: nat): nat {
    baseFee * 2 + tip
  }

  /** The highest the tip variable gets, in first tips, after so many bumps: each bump doubles, and
      each refused bump doubles again. */
  function Cap(bumps: nat): nat {
    if bumps == 0 then 1 else 4 * Cap(bumps - 1)
  }

  /** The fee cap is the tip plus twice some base fee. */
  predicate FeeCapped(tx: PullTx) {
    tx.tip <= tx.maxFee && (tx.maxFee - tx.tip) % 2 == 0
  }

  /** One submission's offers: one nonce, one pull, and tips that at least double, at most six of
      them, none past 2^9 first tips; every fee cap is twice some base fee plus the tip. */
  predicate FeeLadder(offers: seq<PullTx>) {
    && |offers| <= MAX_BUMPS + 1
    && (forall i | 0 <= i < |offers| ::
          offers[i] == offers[0].(tip := offers[i].tip, maxFee := offers[i].maxFee))
    && (forall i | 0 < i < |offers| :: 2 * offers[i - 1].tip <= offers[i].tip)
    && (forall i | 0 <= i < |offers| :: offers[i].tip <= 512 * offers[0].tip)
    && (forall i | 0 <= i < |offers| :: FeeCapped(offers[i]))
  }

  lemma LadderGrows(offers: seq<PullTx>, tx: PullTx)
    requires FeeLadder(offers) && 0 < |offers| <= MAX_BUMPS
    requires tx == offers[0].(tip := tx.tip, maxFee := tx.maxFee)
    requires 2 * offers[|offers| - 1].tip <= tx.tip <= 512 * offers[0].tip
    requires FeeCapped(tx)
    ensures FeeLadder(offers + [tx])
  {
  }

  /** At most one offer of a submission mines: they share a nonce, and the chain uses it once. */
  lemma OneOfferMines(w: World, offers: seq<PullTx>, i: nat, j: nat)
    requires FeeLadder(offers) && i < |offers| && j < |offers|
    requires ReceiptOf(w, offers[i]).Some? && ReceiptOf(w, offers[j]).Some?
    ensures offers[i] == offers[j]
  {
  }

  // ---------- what the node answers ----------

  /** How a failing call is classed: the caller's context ended, our side, or the user's. */
  datatype Trouble = ContextEnded | OperatorSide | UserSide

  /** How the node takes a transaction whose nonce is unused. "Already known" is acceptance. */
  datatype Reply = Accepts | CallsUnderpriced | Fails(trouble: Trouble)

  /** The pending nonce and the fee readings before the first broadcast. */
  datatype Quote = Quote(nonce: nat, tip: nat, baseFee: nat)

  datatype Opening = Opening(quote: Result<Quote, Trouble>, reply: Reply)

  /** One turn of the loop: whether a receipt that is there is heard in time, whether the context
      ends, the fee readings, the answer to a replacement, and to the lookup after a "nonce too
      low". */
  datatype Turn = Turn(
    heard: bool, ended: bool, head: Reading, suggested: Reading, newHead: Reading, reply: Reply, lookup: Option<Trouble>)

  datatype SendResult = Accepted | NonceTooLowError | Underpriced | Rejected(trouble: Trouble)

  datatype SubmitResult =
    | Receipt(block: nat)
    | Interrupted
    | Stuck
    | Failure(operatorSide: bool)

  function Sent(tx: PullTx, reply: Reply, mined: seq<Mined>): SendResult {
    if reply.Fails? then Rejected(reply.trouble)
    else if tx.nonce < |mined| then NonceTooLowError
    else if reply.CallsUnderpriced? then Underpriced
    else Accepted
  }

  function Troubled(t: Trouble): SubmitResult {
    match t
    case ContextEnded => Interrupted
    case OperatorSide => Failure(true)
    case UserSide => Failure(false)
  }

  // ---------- bidding ----------

  /** Where the bidding stands: the offers so far, the tip and fee cap, and the bumps used. */
  datatype Bid = Bid(offers: seq<PullTx>, tip: nat, maxFee: nat, bumps: nat)

  predicate Bidding(b: Bid) {
    && b.offers != [] && FeeLadder(b.offers) && |b.offers| <= b.bumps + 1 && b.bumps <= MAX_BUMPS
    && b.offers[|b.offers| - 1].tip <= b.tip <= Cap(b.bumps) * b.offers[0].tip
  }

  function Last(b: Bid): PullTx
    requires b.offers != []
  {
    b.offers[|b.offers| - 1]
  }

  function FirstTx(q: Quote, user: Address, amount: nat, purpose: Purpose): PullTx {
    PullTx(q.nonce, user, amount, purpose, q.tip, MaxFeeForTip(q.baseFee, q.tip))
  }

  /** The transaction a bump offers: twice the tip, on the newest base fee. */
  function Raised(b: Bid, baseFee: nat): PullTx
    requires b.offers != []
  {
    b.offers[0].(tip := b.tip * 2, maxFee := MaxFeeForTip(baseFee, b.tip * 2))
  }

  /** After a "nonce too low": the last hash's receipt as it is found, or a failure. */
  function LookedUp(lookup: Option<Trouble>, receipt: Option<Mined>): SubmitResult
    requires receipt.Some? ==> receipt.value.PullMined?
  {
    if lookup.Some? then Troubled(lookup.value)
    else if receipt.Some? then Receipt(receipt.value.block)
    else Failure(false)
  }

  /** A turn that timed out: stuck after the last bump, nothing while the fees suffice, else one
      bump. */
  function Rebid(b: Bid, turn: Turn, mined: seq<Mined>): (r: (Bid, Option<SubmitResult>))
    requires b.offers != []
    ensures r.0.offers != []
  {
    if b.bumps >= MAX_BUMPS then (b, Some(Stuck))
    else if !ShouldBump(b.tip, b.maxFee, turn.head, turn.suggested) || turn.newHead.Unavailable? then (b, None)
    else
      var tx := Raised(b, turn.newHead.value);
      var raised := b.(tip := tx.tip, maxFee := tx.maxFee, bumps := b.bumps + 1);
      match Sent(tx, turn.reply, mined)
      case Accepted => (raised.(offers := b.offers + [tx]), None)
      case Underpriced => (raised.(tip := raised.tip * 2), None)
      case NonceTooLowError => (raised, Some(LookedUp(turn.lookup, ReceiptIn(mined, Last(b)))))
      case Rejected(t) => (raised, Some(Troubled(t)))
  }

  /** A receipt that is heard ends the submission, then the context's end does, and otherwise the
      fees are looked at. */
  function Turned(b: Bid, turn: Turn, mined: seq<Mined>): (r: (Bid, Option<SubmitResult>))
    requires b.offers != []
    ensures r.0.offers != []
  {
    var r := ReceiptIn(mined, Last(b));
    if turn.heard && r.Some? then (b, Some(if r.value.success then Receipt(r.value.block) else Failure(false)))
    else if turn.ended then (b, Some(Interrupted))
    else Rebid(b, turn, mined)
  }

  lemma CapStep(tip: nat, first: nat, bumps: nat)
    requires bumps < 5 && tip <= Cap(bumps) * first
    ensures 2 * tip <= 512 * first
    ensures 4 * tip <= Cap(bumps + 1) * first
  {
    assert Cap(1) == 4 && Cap(2) == 16 && Cap(3) == 64 && Cap(4) == 256;
    assert Cap(bumps) * first <= 256 * first by {
      assert Cap(bumps) <= 256;
    }
    assert Cap(bumps + 1) * first == 4 * (Cap(bumps) * first);
  }

  /** A bump, accepted, refused or bid up again, keeps the ladder. */
  lemma BumpKeepsBidding(b: Bid, baseFee: nat)
    requires Bidding(b) && b.bumps < MAX_BUMPS
    ensures var tx := Raised(b, baseFee);
            var raised := b.(tip := tx.tip, maxFee := tx.maxFee, bumps := b.bumps + 1);
            && Bidding(raised) && Bidding(raised.(tip := raised.tip * 2)) && Bidding(raised.(offers := b.offers + [tx]))
  {
    CapStep(b.tip, b.offers[0].tip, b.bumps);
    LadderGrows(b.offers, Raised(b, baseFee));
  }

  /** What a turn can make of the bid. */
  lemma TurnCases(b: Bid, turn: Turn, mined: seq<Mined>)
    requires b.offers != [] && b.bumps <= MAX_BUMPS
    ensures var (b', result) := Turned(b, turn, mined);
            && (result == Some(Stuck) ==> b' == b && b.bumps == MAX_BUMPS)
            && (b' != b ==>
                  && b.bumps < MAX_BUMPS && turn.newHead.Reading?
                  && var tx := Raised(b, turn.newHead.value);
                  var raised := b.(tip := tx.tip, maxFee := tx.maxFee, bumps := b.bumps + 1);
                  || b' == raised
                  || b' == raised.(tip := raised.tip * 2)
                  || (b' == raised.(offers := b.offers + [tx]) && result.None? && |mined| <= tx.nonce))
  {
  }

  /** A turn keeps the ladder, adds at most one offer to it, and is stuck only after five bumps. */
  lemma TurnKeepsBidding(b: Bid, turn: Turn, mined: seq<Mined>)
    requires Bidding(b)
    ensures var (b', result) := Turned(b, turn, mined);
            && Bidding(b') && b.offers <= b'.offers && |b'.offers| <= |b.offers| + 1
            && (result == Some(Stuck) ==> b'.bumps == MAX_BUMPS)
  {
    TurnCases(b, turn, mined);
    if Turned(b, turn, mined).0 != b {
      BumpKeepsBidding(b, turn.newHead.value);
    }
  }

  /** Nothing is heard in this turn and the context lives on. */
  predicate Silent(b: Bid, turn: Turn, mined: seq<Mined>)
    requires b.offers != []
  {
    !turn.ended && !(turn.heard && ReceiptIn(mined, Last(b)).Some?)
  }

  /** In a silent turn at an accepting node, with bumps left and the nonce unused, an offer is added
      exactly when the node shows the cap below the base fee or the tip below its suggestion; without
      the suggestion the cap decides, and without either reading of the head none is added. */
  lemma BidsExactlyWhenBehind(b: Bid, turn: Turn, mined: seq<Mined>)
    requires b.offers != [] && b.bumps < 5 && Silent(b, turn, mined)
    requires |mined| <= b.offers[0].nonce && turn.reply.Accepts?
    ensures var (b', result) := Turned(b, turn, mined);
            && result.None?
            && (turn.head.Reading? && turn.suggested.Reading? && turn.newHead.Reading? ==>
                  (b'.offers != b.offers <==> b.maxFee < turn.head.value || b.tip < turn.suggested.value))
            && (turn.head.Reading? && turn.suggested.Unavailable? && turn.newHead.Reading? ==>
                  (b'.offers != b.offers <==> b.maxFee < turn.head.value))
            && (turn.head.Unavailable? || turn.newHead.Unavailable? ==> b'.offers == b.offers)
            && (b'.offers == b.offers ==> b' == b)
  {
    if Turned(b, turn, mined).0 != b {
      assert |b.offers + [Raised(b, turn.newHead.value)]| == |b.offers| + 1;
    }
  }

  /** The offer added is the same pull at twice the tip, and a refused one leaves four times the tip. */
  lemma BidsDouble(b: Bid, turn: Turn, mined: seq<Mined>)
    requires Bidding(b) && Silent(b, turn, mined)
    ensures var b' := Turned(b, turn, mined).0;
            && (b'.offers != b.offers ==>
                  && b'.offers == b.offers + [Last(b')] && turn.newHead.Reading?
                  && Last(b').user == b.offers[0].user && Last(b').amount == b.offers[0].amount
                  && Last(b').nonce == b.offers[0].nonce && Last(b').purpose == b.offers[0].purpose
                  && Last(b').tip == b.tip + b.tip == b'.tip
                  && Last(b').maxFee == b'.maxFee
                  && (forall fee: nat :: PaysFullTip(Last(b'), fee) <==> fee <= turn.newHead.value + turn.newHead.value))
            && (b'.offers == b.offers && b' != b && turn.reply.CallsUnderpriced? && |mined| <= b.offers[0].nonce ==>
                  b'.tip == 4 * b.tip && b'.bumps == b.bumps + 1)
  {
    assert Last(b).nonce == b.offers[0].nonce;
  }

  /** What a block producer gets from an offer at a base fee: the tip, or what the cap leaves of it. */
  predicate PaysFullTip(tx: PullTx, baseFee: nat) {
    tx.tip <= tx.maxFee - baseFee
  }

  /** The first offer pays its full tip until the base fee it was quoted has more than doubled. */
  lemma FirstOfferPaysFullTip(q: Quote, user: Address, amount: nat, purpose: Purpose, fee: nat)
    ensures var tx := FirstTx(q, user, amount, purpose);
            && PullTx(q.nonce, user, amount, purpose, q.tip, tx.maxFee) == tx
            && (PaysFullTip(tx, fee) <==> fee <= q.baseFee + q.baseFee)
  {
  }

  // ---------- how a submission ends ----------

  /** In the middle of a submission: the last offer is recorded in memory and in the store. */
  predicate Submitting(w: World, s: Sub, plan: Plan, offers: seq<PullTx>) {
    && offers != [] && offers[0].user == s.user
    && s.user in w.subs && w.subs[s.user] == s.(inFlight := Some(offers[|offers| - 1]))
    && s.planId in w.plans && w.plans[s.planId] == plan
    && Due(s, w.clock)
  }

  /** The engine step that books the end of a submission with offers out. */
  function Conclusion(b: Bid, turn: Turn, mined: seq<Mined>): Event
    requires b.offers != []
  {
    var user, r := b.offers[0].user, ReceiptIn(mined, Last(b));
    if turn.heard && r.Some? then (if r.value.success then Confirm(user) else Revert(user, false))
    else if turn.reply.Fails? then ReplaceFails(user, turn.reply.trouble == OperatorSide)
    else NonceTooLow(user, turn.lookup.Some?, turn.lookup == Some(OperatorSide))
  }

  /** How a finished submission ends, and the engine step that books it. */
  predicate Concludes(w: World, user: Address, purpose: Purpose, result: SubmitResult, e: Event) {
    var f := InFlight(w, user);
    match result
    case Receipt(block) =>
      && f.Some? && f.value.purpose == purpose && PlanOf(w, user).Some?
      && ReceiptOf(w, f.value).Some? && ReceiptOf(w, f.value).value.block == block
      && (e == NonceTooLow(user, false, false) || (e == Confirm(user) && ReceiptOf(w, f.value).value.success))
    case Failure(op) =>
      && user in w.subs
      && (|| (e == FailUnsent(user, op) && f.None? && Due(w.subs[user], w.clock))
          || (e == ReplaceFails(user, op) && f.Some?)
          || (e.NonceTooLow? && e.user == user && f.Some? && f.value.nonce < |w.mined| && PlanOf(w, user).Some?
              && e.operatorSide == op && (e.lookupFails || ReceiptOf(w, f.value).None?))
          || (e == Revert(user, op) && f.Some? && ReceiptOf(w, f.value).Some? && !ReceiptOf(w, f.value).value.success))
    case _ => true
  }

  lemma ConclusionBooks(w: World, user: Address, purpose: Purpose, result: SubmitResult, e: Event)
    requires Concludes(w, user, purpose, result, e)
    ensures result.Receipt? ==> Enabled(w, e) && Next(w, e) == Booked(w, user, purpose, result.block)
    ensures result.Failure? ==> Enabled(w, e) && Next(w, e) == Failed(w, user, result.operatorSide)
  {
  }

  /** The turn that ends a submission names the engine step that books it. */
  lemma TurnConcludes(w: World, s: Sub, plan: Plan, b: Bid, turn: Turn, b': Bid)
    requires Bidding(b) && Submitting(w, s, plan, b.offers)
    requires Turned(b, turn, w.mined).1.Some? && Turned(b, turn, w.mined).0 == b'
    ensures b'.offers == b.offers
    ensures Concludes(w, s.user, b.offers[0].purpose, Turned(b, turn, w.mined).1.value, Conclusion(b', turn, w.mined))
  {
  }

  /** The record after a failure of one side: the user's counts against the retries, our own only waits
      five minutes. */
  predicate Blamed(t: Trouble, before: Sub, after: Sub, clock: Instant) {
    && (t.UserSide? ==> after.dunningAttempts == before.dunningAttempts + 1 && after.status != Active)
    && (t.OperatorSide? ==> after == before.(inFlight := None, nextAttemptAt := clock + 300_000_000_000))
  }

  /** A replacement that fails is booked against whose trouble it was, and the end of the context books
      nothing. */
  lemma ReplacementBlamed(w: World, s: Sub, plan: Plan, b: Bid, turn: Turn)
    requires Bidding(b) && b.bumps < 5 && Submitting(w, s, plan, b.offers) && Silent(b, turn, w.mined)
    requires turn.head.Reading? && turn.newHead.Reading? && b.maxFee < turn.head.value && turn.reply.Fails?
    ensures var (b', result) := Turned(b, turn, w.mined);
            var e := Conclusion(b', turn, w.mined);
            && (result == Some(Interrupted) <==> turn.reply.trouble.ContextEnded?)
            && (result != Some(Interrupted) ==>
                  result.Some? && result.value.Failure? && Enabled(w, e) && s.user in Next(w, e).subs
                  && Blamed(turn.reply.trouble, w.subs[s.user], Next(w, e).subs[s.user], w.clock))
  {
    TurnConcludes(w, s, plan, b, turn, Turned(b, turn, w.mined).0);
  }

  /** What the node shows at a moment: the used nonces, and the time. */
  datatype Sighting = Sighting(mined: seq<Mined>, clock: Instant)

  function FirstBid(tx: PullTx): Bid {
    Bid([tx], tx.tip, tx.maxFee, 0)
  }

  /** What all the turns so far have made of the first bid, each on what was seen when it was taken;
      nothing happens after a turn that ends the bidding. */
  function Bids(first: Bid, replies: nat -> Turn, seen: seq<Sighting>): (r: (Bid, Option<SubmitResult>))
    requires first.offers != []
    ensures r.0.offers != []
  {
    if seen == [] then (first, None)
    else
      var k := |seen| - 1;
      var (b, ended) := Bids(first, replies, seen[..k]);
      if ended.Some? then (b, ended) else Turned(b, replies(k), seen[k].mined)
  }

  function Latest(from: Sighting, seen: seq<Sighting>): Sighting {
    if seen == [] then from else seen[|seen| - 1]
  }

  /** Each turn takes time, and the chain only grows. */
  predicate Watched(from: Sighting, seen: seq<Sighting>) {
    seen == []
    || var before := seen[..|seen| - 1];
       && Watched(from, before)
       && Latest(from, before).clock < Latest(from, seen).clock && Latest(from, before).mined <= Latest(from, seen).mined
  }

  /** The bidding in the middle: no turn has ended it, and the last began within the budget. */
  predicate Underway(first: Bid, replies: nat -> Turn, deadline: Instant, from: Sighting, seen: seq<Sighting>, bid: Bid)
    requires first.offers != []
  {
    && Watched(from, seen) && Bids(first, replies, seen) == (bid, None)
    && (seen != [] ==> Latest(from, seen[..|seen| - 1]).clock < deadline)
  }

  /** The bidding from its first offer to its end: a turn taken within the budget ended it, or the
      budget is spent. */
  predicate Ended(first: Bid, replies: nat -> Turn, deadline: Instant, from: Sighting, seen: seq<Sighting>, result: SubmitResult)
    requires first.offers != []
  {
    var (bid, ended) := Bids(first, replies, seen);
    if ended.Some? then
      && result == ended.value && Watched(from, seen) && seen != []
      && var before := seen[..|seen| - 1];
      Latest(from, before).clock < deadline && Underway(first, replies, deadline, from, before, Bids(first, replies, before).0)
    else result == Stuck && Underway(first, replies, deadline, from, seen, bid) && deadline <= Latest(from, seen).clock
  }

  /** One more turn goes on with the bidding or ends it. */
  lemma OneMoreTurn(first: Bid, replies: nat -> Turn, deadline: Instant, from: Sighting, seen: seq<Sighting>, bid: Bid,
                    now: Sighting, bid': Bid, ended: Option<SubmitResult>)
    requires first.offers != [] && Underway(first, replies, deadline, from, seen, bid) && Latest(from, seen).clock < deadline
    requires Latest(from, seen).clock < now.clock && Latest(from, seen).mined <= now.mined
    requires bid.offers != [] && (bid', ended) == Turned(bid, replies(|seen|), now.mined)
    ensures Latest(from, seen + [now]) == now && Bids(first, replies, seen + [now]) == (bid', ended)
    ensures if ended.None? then Underway(first, replies, deadline, from, seen + [now], bid')
            else Ended(first, replies, deadline, from, seen + [now], ended.value)
  {
    assert (seen + [now])[..|seen|] == seen;
  }

  /** The turns keep the ladder, and each makes at most one bump. */
  lemma {:induction false} BidsKeepBidding(first: Bid, replies: nat -> Turn, seen: seq<Sighting>)
    requires Bidding(first)
    ensures Bidding(Bids(first, replies, seen).0) && first.offers <= Bids(first, replies, seen).0.offers
    ensures Bids(first, replies, seen).0.bumps <= first.bumps + |seen|
  {
    if seen != [] {
      var k := |seen| - 1;
      BidsKeepBidding(first, replies, seen[..k]);
      var (b, ended) := Bids(first, replies, seen[..k]);
      TurnCases(b, replies(k), seen[k].mined);
      TurnKeepsBidding(b, replies(k), seen[k].mined);
    }
  }

  lemma {:induction false} WatchedTakesTime(from: Sighting, seen: seq<Sighting>)
    requires Watched(from, seen)
    ensures from.clock + |seen| <= Latest(from, seen).clock && from.mined <= Latest(from, seen).mined
  {
    if seen != [] {
      WatchedTakesTime(from, seen[..|seen| - 1]);
    }
  }

  /** What the first broadcast comes to when nothing is out after it. */
  function FirstRefusal(opening: Opening): SubmitResult {
    if opening.quote.Err? then Troubled(opening.quote.error)
    else if opening.reply.Fails? then Troubled(opening.reply.trouble)
    else Failure(false)
  }

  function Unsent(user: Address, opening: Opening): Event {
    FailUnsent(user, FirstRefusal(opening) == Failure(true))
  }

  /** So is trouble before the first offer is out. */
  lemma RefusalBlamed(w: World, user: Address, opening: Opening, t: Trouble)
    requires user in w.subs && InFlight(w, user).None? && Due(w.subs[user], w.clock)
    requires opening.quote == Err(t) || (opening.quote.Ok? && opening.reply == Fails(t))
    ensures var result, e := FirstRefusal(opening), Unsent(user, opening);
            && (result == Interrupted <==> t.ContextEnded?)
            && (result != Interrupted ==>
                  result.Failure? && Enabled(w, e) && Next(w, e) == Failed(w, user, result.operatorSide)
                  && Blamed(t, w.subs[user], Next(w, e).subs[user], w.clock))
  {
  }

  /** A first offer at a used nonce, or called underpriced, counts against the user, although the trouble
      is the operator's: the two errors are not among the texts taken for its own. */
  lemma RefusedOfferBlamesUser(w: World, user: Address, opening: Opening, mined: seq<Mined>)
    requires user in w.subs && InFlight(w, user).None? && Due(w.subs[user], w.clock)
    requires opening.quote.Ok? && !opening.reply.Fails? && !Opened(opening, mined)
    ensures Enabled(w, Unsent(user, opening)) && Blamed(UserSide, w.subs[user], Next(w, Unsent(user, opening)).subs[user], w.clock)
    ensures FirstRefusal(opening).Failure?
  {
  }

  /** The first offer is out exactly when the quote came, its nonce is unused, and it is accepted. */
  predicate Opened(opening: Opening, mined: seq<Mined>) {
    opening.quote.Ok? && opening.reply.Accepts? && |mined| <= opening.quote.value.nonce
  }

  /** What a submission was: nothing out, for the first refusal; or the bidding on the quoted offer,
      turn by turn to its end, and the ladder of offers it broadcast. */
  predicate Submitted(opening: Opening, replies: nat -> Turn, user: Address, amount: nat, purpose: Purpose, deadline: Instant,
                      from: Sighting, seen: seq<Sighting>, result: SubmitResult, offers: seq<PullTx>)
  {
    if !Opened(opening, from.mined) then offers == [] && seen == [] && result == FirstRefusal(opening)
    else
      var first := FirstBid(FirstTx(opening.quote.value, user, amount, purpose));
      && offers == Bids(first, replies, seen).0.offers && FeeLadder(offers)
      && Ended(first, replies, deadline, from, seen, result)
  }

  /** A submission is stuck only when its budget is spent, or when five turns have bumped the fee and
      one more has timed out. */
  lemma StuckAtTheCap(first: Bid, replies: nat -> Turn, deadline: Instant, from: Sighting, seen: seq<Sighting>)
    requires Bidding(first) && first.bumps == 0 && Ended(first, replies, deadline, from, seen, Stuck)
    ensures deadline <= Latest(from, seen).clock || (|seen| > MAX_BUMPS && Bids(first, replies, seen).0.bumps == MAX_BUMPS)
    ensures from.clock + |seen| <= Latest(from, seen).clock
  {
    WatchedTakesTime(from, seen);
    if Bids(first, replies, seen).1.Some? {
      StuckTurn(first, replies, seen);
    }
  }

  lemma StuckTurn(first: Bid, replies: nat -> Turn, seen: seq<Sighting>)
    requires Bidding(first) && first.bumps == 0 && seen != [] && Bids(first, replies, seen[..|seen| - 1]).1.None?
    requires Bids(first, replies, seen).1 == Some(Stuck)
    ensures |seen| > MAX_BUMPS && Bids(first, replies, seen).0.bumps == MAX_BUMPS
  {
    var k := |seen| - 1;
    BidsKeepBidding(first, replies, seen[..k]);
    TurnCases(Bids(first, replies, seen[..k]).0, replies(k), seen[k].mined);
  }

  /** A pull that could be offered still can be after background steps, at any unused nonce. */
  lemma OfferStays(w: World, w': World, tx: PullTx, tx': PullTx, busy: set<Address>, frozen: set<string>)
    requires CanOffer(w, tx) && Undisturbed(w, w', busy, frozen)
    requires tx.user in busy && w.subs[tx.user].planId in frozen
    requires tx' == tx.(nonce := tx'.nonce, tip := tx'.tip, maxFee := tx'.maxFee) && |w'.mined| <= tx'.nonce
    ensures CanOffer(w', tx')
  {
  }

  class Client {
    const node: Node
    const store: MemoryStore
    const policy: Policy
    const operatorKey: Address
    ghost var ledger: seq<Credit>

    ghost function State(): World
      reads this, node, store
    {
      World(node.chain, operatorKey, node.offered, node.mined, policy, store.plans, store.subs, node.clock, ledger)
    }

    constructor (node: Node, store: MemoryStore, policy: Policy, operatorKey: Address)
      ensures this.node == node && this.store == store && this.policy == policy && this.operatorKey == operatorKey
      ensures ledger == []
    {
      this.node, this.store, this.policy, this.operatorKey := node, store, policy, operatorKey;
      this.ledger := [];
    }

    /** Time passes: callers know only that the world took background steps and the clock moved. */
    method Elapse(ghost busy: set<Address>, ghost frozen: set<string>) returns (ghost events: seq<Event>)
      modifies node, store
      ensures Reaches(old(State()), events, State()) && BackgroundRun(events, busy, frozen)
      ensures Undisturbed(old(State()), State(), busy, frozen)
      ensures old(node.clock) < node.clock
    {
      node.clock := node.clock + 1;
      events := [Advance(node.clock)];
      assert Next(old(State()), events[0]) == State();
      assert Reaches(State(), events[1..], State());
      BackgroundUndisturbed(old(State()), events, State(), busy, frozen);
    }

    /** SendTransaction, then the hash into memory and the store. */
    method Send(sub: Subscription, tx: PullTx, reply: Reply, ghost e: Event) returns (sent: SendResult)
      requires e == Offer(tx) || e == Replace(tx)
      requires |node.mined| <= tx.nonce ==> Enabled(State(), e)
      requires tx.user == sub.user && sub.user in store.subs && store.subs[sub.user] == sub.Value()
      modifies node`offered, store`subs, sub`inFlight
      ensures sent == Sent(tx, reply, node.mined)
      ensures sent.Accepted? ==> Enabled(old(State()), e) && State() == Next(old(State()), e)
      ensures !sent.Accepted? ==> State() == old(State())
      ensures sub.inFlight == if sent.Accepted? then Some(tx) else old(sub.inFlight)
    {
      if reply.Fails? {
        return Rejected(reply.trouble);
      }
      if tx.nonce < |node.mined| {
        return NonceTooLowError;
      }
      if reply.CallsUnderpriced? {
        return Underpriced;
      }
      node.offered := node.offered + {tx};
      sub.inFlight := Some(tx);
      store.UpsertSubscription(sub.Value());
      return Accepted;
    }

    /** The wait for the last hash: a receipt that is heard, or the end of the context. */
    method Await(bid: Bid, turn: Turn, ghost busy: set<Address>, ghost frozen: set<string>)
      returns (result: Option<SubmitResult>, ghost events: seq<Event>)
      requires bid.offers != []
      modifies node, store
      ensures Reaches(old(State()), events, State()) && BackgroundRun(events, busy, frozen)
      ensures Undisturbed(old(State()), State(), busy, frozen)
      ensures old(node.clock) < node.clock
      ensures var r := ReceiptIn(node.mined, Last(bid));
              result == if turn.heard && r.Some? then Some(if r.value.success then Receipt(r.value.block) else Failure(false))
                        else if turn.ended then Some(Interrupted) else None
    {
      events := Elapse(busy, frozen);
      var receipt := ReceiptIn(node.mined, Last(bid));
      if turn.heard && receipt.Some? {
        if receipt.value.success {
          return Some(Receipt(receipt.value.block)), events;
        }
        return Some(Failure(false)), events;
      }
      if turn.ended {
        return Some(Interrupted), events;
      }
      result := None;
    }

    /** The attempt timed out: give up, keep waiting, or double the tip and send again. */
    method Bump(sub: Subscription, ghost s: Sub, ghost plan: Plan, bid: Bid, turn: Turn)
      returns (bid': Bid, result: Option<SubmitResult>, ghost events: seq<Event>)
      requires Bidding(bid) && Submitting(State(), s, plan, bid.offers)
      requires sub.Value() == s.(inFlight := Some(Last(bid)))
      modifies node`offered, store`subs, sub`inFlight
      ensures (bid', result) == Rebid(bid, turn, node.mined)
      ensures if bid'.offers == bid.offers then State() == old(State()) && events == []
              else events == [Replace(Last(bid'))] && Enabled(old(State()), events[0]) && State() == Next(old(State()), events[0])
      ensures sub.inFlight == Some(Last(bid'))
    {
      bid', events := bid, [];
      if bid.bumps >= MAX_BUMPS {
        return bid, Some(Stuck), [];
      }
      if !ShouldBump(bid.tip, bid.maxFee, turn.head, turn.suggested) {
        return bid, None, [];
      }
      var newTip := bid.tip * 2;
      if turn.newHead.Unavailable? {
        return bid, None, [];
      }
      bid' := bid.(tip := newTip, maxFee := MaxFeeForTip(turn.newHead.value, newTip), bumps := bid.bumps + 1);
      var tx := bid.offers[0].(tip := bid'.tip, maxFee := bid'.maxFee);
      var sent := Send(sub, tx, turn.reply, Replace(tx));
      match sent
      case Accepted =>
        bid' := bid'.(offers := bid.offers + [tx]);
        result, events := None, [Replace(tx)];
      case Underpriced =>
        bid' := bid'.(tip := bid'.tip * 2);
        result := None;
      case NonceTooLowError => result := Some(LookedUp(turn.lookup, ReceiptIn(node.mined, Last(bid))));
      case Rejected(t) => result := Some(Troubled(t));
    }

    /** One turn of the loop: wait, then perhaps bump. */
    method Attempt(sub: Subscription, ghost s: Sub, ghost plan: Plan, bid: Bid, turn: Turn,
                   ghost busy: set<Address>, ghost frozen: set<string>)
      returns (bid': Bid, result: Option<SubmitResult>, ghost events: seq<Event>)
      requires s.user in busy && s.planId in frozen
      requires Bidding(bid) && Submitting(State(), s, plan, bid.offers) && Members(bid.offers) <= node.offered
      requires sub.Value() == s.(inFlight := Some(Last(bid)))
      modifies node, store, sub`inFlight
      ensures (bid', result) == Turned(bid, turn, node.mined)
      ensures Worked(old(State()), events, State(), bid'.offers, s.user, busy, frozen)
      ensures Submitting(State(), s, plan, bid'.offers) && sub.inFlight == Some(Last(bid'))
      ensures old(node.clock) < node.clock && old(node.mined) <= node.mined
    {
      bid' := bid;
      result, events := Await(bid, turn, busy, frozen);
      WaitedWorks(old(State()), events, State(), bid.offers, s.user, busy, frozen);
      if result.None? {
        ghost var before := State();
        ghost var more;
        bid', result, more := Bump(sub, s, plan, bid, turn);
        if more != [] {
          BroadcastWorks(before, Replace(Last(bid')), bid'.offers, s.user, busy, frozen);
          WorkedTrans(old(State()), events, before, more, State(), bid.offers, bid'.offers, s.user, busy, frozen);
          events := events + more;
        }
      }
    }

    /** The first broadcast, at a quoted nonce. */
    method FirstSend(sub: Subscription, tx: PullTx, reply: Reply, ghost busy: set<Address>, ghost frozen: set<string>)
      returns (offers: seq<PullTx>, ghost events: seq<Event>)
      requires tx.user == sub.user && sub.user in store.subs && store.subs[sub.user] == sub.Value()
      requires sub.inFlight.None? && (|node.mined| <= tx.nonce ==> CanOffer(State(), tx))
      modifies node`offered, store`subs, sub`inFlight
      ensures offers == if Sent(tx, reply, node.mined).Accepted? then [tx] else []
      ensures Worked(old(State()), events, State(), offers, sub.user, busy, frozen)
      ensures sub.inFlight == if offers == [] then None else Some(tx)
      ensures sub.user in store.subs && store.subs[sub.user] == sub.Value()
    {
      var sent := Send(sub, tx, reply, Offer(tx));
      if sent.Accepted? {
        BroadcastWorks(old(State()), Offer(tx), [tx], sub.user, busy, frozen);
        return [tx], [Offer(tx)];
      }
      WaitedWorks(old(State()), [], State(), [], sub.user, busy, frozen);
      return [], [];
    }

    /** The nonce and the fees, then the first broadcast. */
    method FirstOffer(sub: Subscription, amount: nat, purpose: Purpose, opening: Opening, ghost busy: set<Address>, ghost frozen: set<string>)
      returns (offers: seq<PullTx>, ghost events: seq<Event>)
      requires sub.user in busy && sub.planId in frozen
      requires sub.user in store.subs && store.subs[sub.user] == sub.Value()
      requires CanOffer(State(), PullTx(|node.mined|, sub.user, amount, purpose, 0, 0))
      modifies node, store, sub`inFlight
      ensures offers == if Opened(opening, node.mined) then [FirstTx(opening.quote.value, sub.user, amount, purpose)] else []
      ensures old(node.mined) <= node.mined && old(node.clock) < node.clock
      ensures Worked(old(State()), events, State(), offers, sub.user, busy, frozen)
      ensures sub.inFlight == if offers == [] then None else Some(offers[0])
      ensures sub.user in store.subs && store.subs[sub.user] == sub.Value()
      ensures sub.planId in store.plans && store.plans[sub.planId] == old(store.plans[sub.planId])
      ensures Due(old(sub.Value()), node.clock)
    {
      ghost var asked := PullTx(|node.mined|, sub.user, amount, purpose, 0, 0);
      offers := [];
      events := Elapse(busy, frozen);
      WaitedWorks(old(State()), events, State(), [], sub.user, busy, frozen);
      if opening.quote.Err? {
        return;
      }
      var tx := FirstTx(opening.quote.value, sub.user, amount, purpose);
      if |node.mined| <= tx.nonce {
        OfferStays(old(State()), State(), asked, tx, busy, frozen);
      }
      ghost var before := State();
      ghost var more;
      offers, more := FirstSend(sub, tx, opening.reply, busy, frozen);
      WorkedTrans(old(State()), events, before, more, State(), [], offers, sub.user, busy, frozen);
      events := events + more;
    }

    /** A turn in the middle of a submission that began in `start`. */
    method TakeTurn(sub: Subscription, ghost s: Sub, ghost plan: Plan, bid: Bid, turn: Turn,
                    ghost start: World, ghost sofar: seq<Event>, ghost busy: set<Address>, ghost frozen: set<string>)
      returns (bid': Bid, result: Option<SubmitResult>, ghost events: seq<Event>)
      requires s.user in busy && s.planId in frozen
      requires Bidding(bid) && Submitting(State(), s, plan, bid.offers) && sub.Value() == s.(inFlight := Some(Last(bid)))
      requires Worked(start, sofar, State(), bid.offers, s.user, busy, frozen)
      modifies node, store, sub`inFlight
      ensures (bid', result) == Turned(bid, turn, node.mined)
      ensures Bidding(bid') && bid'.offers[0] == bid.offers[0]
      ensures Worked(start, events, State(), bid'.offers, s.user, busy, frozen)
      ensures Submitting(State(), s, plan, bid'.offers) && sub.inFlight == Some(Last(bid'))
      ensures result.Some? ==>
                Concludes(State(), s.user, bid.offers[0].purpose, result.value, Conclusion(bid', turn, node.mined))
      ensures old(node.clock) < node.clock && old(node.mined) <= node.mined
    {
      ghost var before := State();
      bid', result, events := Attempt(sub, s, plan, bid, turn, busy, frozen);
      TurnKeepsBidding(bid, turn, node.mined);
      WorkedTrans(start, sofar, before, events, State(), bid.offers, bid'.offers, s.user, busy, frozen);
      events := sofar + events;
      if result.Some? {
        TurnConcludes(State(), s, plan, bid, turn, bid');
      }
    }

    function Now(): Sighting
      reads node
    {
      Sighting(node.mined, node.clock)
    }

    /** The next turn of the bidding on `tx`. */
    method NextTurn(sub: Subscription, ghost s: Sub, ghost plan: Plan, tx: PullTx, bid: Bid, turns: nat, deadline: Instant, replies: nat -> Turn,
                    ghost from: Sighting, ghost seen: seq<Sighting>, ghost start: World, ghost sofar: seq<Event>,
                    ghost busy: set<Address>, ghost frozen: set<string>)
      returns (bid': Bid, result: Option<SubmitResult>, ghost seen': seq<Sighting>, ghost events: seq<Event>)
      requires s.user in busy && s.planId in frozen && node.clock < deadline
      requires turns == |seen| && Underway(FirstBid(tx), replies, deadline, from, seen, bid) && Now() == Latest(from, seen)
      requires Bidding(bid) && bid.offers[0] == tx
      requires Submitting(State(), s, plan, bid.offers) && sub.Value() == s.(inFlight := Some(Last(bid)))
      requires Worked(start, sofar, State(), bid.offers, s.user, busy, frozen)
      modifies node, store, sub`inFlight
      ensures |seen'| == turns + 1 && Now() == Latest(from, seen') && bid' == Bids(FirstBid(tx), replies, seen').0
      ensures if result.None? then Underway(FirstBid(tx), replies, deadline, from, seen', bid')
              else Ended(FirstBid(tx), replies, deadline, from, seen', result.value)
      ensures Bidding(bid') && bid'.offers[0] == tx
      ensures Worked(start, events, State(), bid'.offers, s.user, busy, frozen)
      ensures Submitting(State(), s, plan, bid'.offers) && sub.inFlight == Some(Last(bid'))
      ensures result.Some? ==> Concludes(State(), s.user, tx.purpose, result.value, Conclusion(bid', replies(turns), node.mined))
      ensures old(node.clock) < node.clock
    {
      bid', result, events := TakeTurn(sub, s, plan, bid, replies(turns), start, sofar, busy, frozen);
      OneMoreTurn(FirstBid(tx), replies, deadline, from, seen, bid, Now(), bid', result);
      seen' := seen + [Now()];
    }

    /** Wait and bump until a receipt, a failure or the end of the budget. */
    method BidUntilMined(sub: Subscription, ghost s: Sub, ghost plan: Plan, tx: PullTx, deadline: Instant, replies: nat -> Turn,
                         ghost start: World, ghost sofar: seq<Event>, ghost busy: set<Address>, ghost frozen: set<string>)
      returns (result: SubmitResult, bid: Bid, ghost seen: seq<Sighting>, ghost events: seq<Event>, ghost last: Event)
      requires s.user in busy && s.planId in frozen && FeeCapped(tx)
      requires Submitting(State(), s, plan, [tx]) && sub.Value() == s.(inFlight := Some(tx))
      requires Worked(start, sofar, State(), [tx], s.user, busy, frozen)
      modifies node, store, sub`inFlight
      ensures bid == Bids(FirstBid(tx), replies, seen).0 && Bidding(bid)
      ensures Ended(FirstBid(tx), replies, deadline, old(Now()), seen, result) && Now() == Latest(old(Now()), seen)
      ensures Worked(start, events, State(), bid.offers, s.user, busy, frozen)
      ensures Submitting(State(), s, plan, bid.offers) && sub.inFlight == Some(Last(bid))
      ensures Concludes(State(), s.user, tx.purpose, result, last)
    {
      ghost var from := Now();
      seen, events, last := [], sofar, MineOther;
      bid := FirstBid(tx);
      var turns := 0;
      while node.clock < deadline
        invariant turns == |seen| && Underway(FirstBid(tx), replies, deadline, from, seen, bid) && Now() == Latest(from, seen)
        invariant Bidding(bid) && bid.offers[0] == tx
        invariant Worked(start, events, State(), bid.offers, s.user, busy, frozen)
        invariant Submitting(State(), s, plan, bid.offers) && sub.Value() == s.(inFlight := Some(Last(bid)))
        decreases deadline - node.clock
      {
        var ended;
        bid, ended, seen, events := NextTurn(sub, s, plan, tx, bid, turns, deadline, replies, from, seen, start, events, busy, frozen);
        turns := turns + 1;
        if ended.Some? {
          return ended.value, bid, seen, events, Conclusion(bid, replies(turns - 1), node.mined);
        }
      }
      result := Stuck;
    }

    /** SubmitAndWait: broadcast the pull, then wait, and double the tip while the fees are too low.
        Everything it broadcasts is on the list it returns, and every turn it took was on what it saw. */
    method SubmitAndWait(sub: Subscription, amount: nat, purpose: Purpose, opening: Opening, replies: nat -> Turn,
                         ghost busy: set<Address>, ghost frozen: set<string>)
      returns (result: SubmitResult, offers: seq<PullTx>, ghost from: Sighting, ghost seen: seq<Sighting>,
               ghost events: seq<Event>, ghost last: Event)
      requires sub.user in busy && sub.planId in frozen
      requires sub.user in store.subs && store.subs[sub.user] == sub.Value()
      requires CanOffer(State(), PullTx(|node.mined|, sub.user, amount, purpose, 0, 0))
      modifies node, store, sub`inFlight
      ensures Submitted(opening, replies, sub.user, amount, purpose, old(node.clock) + TOTAL_BUDGET, from, seen, result, offers)
      ensures old(node.mined) <= from.mined && old(node.clock) < from.clock && Now() == Latest(from, seen)
      ensures Worked(old(State()), events, State(), offers, sub.user, busy, frozen)
      ensures sub.inFlight == if offers == [] then None else Some(offers[|offers| - 1])
      ensures sub.user in store.subs && store.subs[sub.user] == sub.Value()
      ensures sub.planId in store.plans && store.plans[sub.planId] == old(store.plans[sub.planId])
      ensures Concludes(State(), sub.user, purpose, result, last)
    {
      ghost var s, plan := sub.Value(), store.plans[sub.planId];
      var deadline := node.clock + TOTAL_BUDGET;
      offers, events := FirstOffer(sub, amount, purpose, opening, busy, frozen);
      from, seen := Now(), [];
      if offers == [] {
        return FirstRefusal(opening), offers, from, seen, events, Unsent(sub.user, opening);
      }
      var bid;
      result, bid, seen, events, last := BidUntilMined(sub, s, plan, offers[0], deadline, replies, old(State()), events, busy, frozen);
      offers := bid.offers;
    }
  }
}
