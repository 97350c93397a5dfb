/** Payment conservation: over every run of the checkout, with any number of handlers and sweepers
    of the session store at once, each completed session is backed by its own payment. */
module PaymentRuns {
  import opened Records
  import opened Text
  import opened Sums
  import opened Sessions
  import opened Payments
  import Runs = SessionRuns

  /** What a handler verified before it called the store: the price it read, and whether an operator
      vouched for the wallet, in which case the event log was not checked. */
  datatype Ask = Ask(price: nat, byOperator: bool)

  datatype Books = Books(
    terms: Terms,
    store: Runs.World,
    mined: map<nat, ChainTx>,
    quoted: set<(string, int)>,
    asked: map<nat, Ask>,
    bought: map<string, nat>,
    recovered: set<string>)

  datatype Event =
    | Store(e: Runs.Event)
    | Mine(hash: nat, tx: ChainTx)
    | SetPrice(planId: string, price: int)
    | Checkout(c: nat, call: Completion, ask: Ask)

  predicate Backed(b: Books, hash: string, wallet: string, ask: Ask) {
    BackedBy(b.terms, b.mined, hash, wallet, ask.price, ask.byOperator)
  }

  predicate Known(b: Books, id: string, price: int) {
    id in b.store.server.sessions && (b.store.server.sessions[id].planId, price) in b.quoted
  }

  /** Mined transactions stay as they are; a handler calls the store once its checks have passed, on
      a price its plan had at some time before. */
  predicate Enabled(b: Books, e: Event) {
    match e
    case Store(e) => !e.CallComplete? && Runs.Enabled(b.store, e)
    case Mine(hash, _) => hash !in b.mined
    case SetPrice(_, _) => true
    case Checkout(c, call, ask) =>
      && Runs.Enabled(b.store, Runs.CallComplete(c, call))
      && Known(b, call.id, ask.price) && Lower(call.wallet) == call.wallet
      && Backed(b, call.transferTx, call.wallet, ask)
  }

  /** The call of client c commits in this step. */
  predicate Commits(b: Books, e: Runs.Event)
    requires Runs.Enabled(b.store, e)
  {
    && e.Run? && b.store.clients[e.c].phase.Completing? && e.c in b.asked
    && var p' := Runs.Next(b.store, e).clients[e.c].phase;
    && p'.Answered? && p'.answer == Done
  }

  function Next(b: Books, e: Event): Books
    requires Enabled(b, e)
  {
    match e
    case Store(e) =>
      var b' := b.(store := Runs.Next(b.store, e));
      if Commits(b, e) then
        var id, ask := b.store.clients[e.c].phase.call.id, b.asked[e.c];
        b'.(bought := b.bought[id := ask.price], recovered := if ask.byOperator then b.recovered + {id} else b.recovered)
      else b'
    case Mine(hash, tx) => b.(mined := b.mined[hash := tx])
    case SetPrice(planId, price) => b.(quoted := b.quoted + {(planId, price)})
    case Checkout(c, call, ask) =>
      b.(store := Runs.Next(b.store, Runs.CallComplete(c, call)), asked := b.asked[c := ask])
  }

  ghost predicate Reaches(b: Books, events: seq<Event>, b': Books)
    decreases |events|
  {
    if events == [] then b == b'
    else Enabled(b, events[0]) && Reaches(Next(b, events[0]), events[1..], b')
  }

  function Opened(terms: Terms): Books {
    Books(terms, Runs.EMPTY, map[], {}, map[], map[], {})
  }

  // ---------- sums ----------

  /** What the direct payments among the given hashes paid in. */
  function PaidIn(terms: Terms, mined: map<nat, ChainTx>, used: set<nat>): map<nat, nat> {
    map n | n in mined && n in used && IsPayment(terms, mined[n]) :: mined[n].transfer.value.value
  }

  function AllPaidIn(terms: Terms, mined: map<nat, ChainTx>): map<nat, nat> {
    PaidIn(terms, mined, mined.Keys)
  }

  function Used(txs: map<string, string>): set<nat> {
    set h | h in txs && Canonical(h) :: HashNumber(h)
  }

  lemma {:induction false} PartSumsToLess(part: map<nat, nat>, whole: map<nat, nat>)
    requires forall n | n in part :: n in whole && whole[n] == part[n]
    ensures Sum(part) <= Sum(whole)
    decreases |part|
  {
    if part != map[] {
      var n :| n in part;
      PartSumsToLess(part - {n}, whole - {n});
      SumWithout(part, n);
      SumWithout(whole, n);
    }
  }

  lemma OneMorePayment(terms: Terms, mined: map<nat, ChainTx>, used: set<nat>, n: nat, price: nat)
    requires n in mined && n !in used && Pays(terms, mined[n], price)
    ensures Sum(PaidIn(terms, mined, used + {n})) == Sum(PaidIn(terms, mined, used)) + price
  {
    var before := PaidIn(terms, mined, used);
    assert PaidIn(terms, mined, used + {n}) == before[n := price];
    SumUpdate(before, n, price);
  }

  lemma UnusedPaymentIsNotCounted(terms: Terms, mined: map<nat, ChainTx>, used: set<nat>, n: nat, tx: ChainTx)
    requires n !in used
    ensures PaidIn(terms, mined[n := tx], used) == PaidIn(terms, mined, used)
  {
  }

  lemma UsedOneMore(txs: map<string, string>, h: string, id: string)
    requires Canonical(h)
    ensures Used(txs[h := id]) == Used(txs) + {HashNumber(h)}
  {
  }

  // ---------- the invariant ----------

  predicate IsCompleted(b: Books, id: string) {
    id in b.store.server.sessions && b.store.server.sessions[id].status == Completed
  }

  function AskOf(b: Books, id: string): Ask
    requires id in b.bought
  {
    Ask(b.bought[id], id in b.recovered)
  }

  ghost predicate Purchases(b: Books) {
    && (forall id :: id in b.bought <==> IsCompleted(b, id))
    && (forall id | id in b.bought ::
          var s := b.store.server.sessions[id];
          Backed(b, s.transferTx, s.wallet, AskOf(b, id)) && Known(b, id, b.bought[id]))
  }

  predicate Vouched(b: Books, c: nat, call: Completion) {
    && c in b.asked && Known(b, call.id, b.asked[c].price)
    && Backed(b, Hash(call), Lower(call.wallet), b.asked[c])
  }

  ghost predicate Handlers(b: Books) {
    forall c | c in b.store.clients && b.store.clients[c].phase.Completing? :: Vouched(b, c, b.store.clients[c].phase.call)
  }

  ghost predicate Balanced(b: Books) {
    Sum(b.bought) == Sum(PaidIn(b.terms, b.mined, Used(b.store.server.txs)))
  }

  ghost predicate Kept(b: Books) {
    Runs.Sound(b.store) && Purchases(b) && Handlers(b) && Balanced(b)
  }

  lemma UsedAreMined(b: Books)
    requires Runs.Sound(b.store) && Purchases(b)
    ensures forall h | h in b.store.server.txs :: Canonical(h) && HashNumber(h) in b.mined
  {
    forall h | h in b.store.server.txs ensures Canonical(h) && HashNumber(h) in b.mined {
      var id := b.store.server.txs[h];
      assert Lookup(b.store.server.txs, h) == Some(id);
      assert id in b.bought;
    }
  }

  lemma NewHashIsUnused(b: Books, h: string)
    requires Runs.Sound(b.store) && Purchases(b) && Canonical(h) && h !in b.store.server.txs
    ensures HashNumber(h) !in Used(b.store.server.txs)
  {
    UsedAreMined(b);
    forall k | k in b.store.server.txs ensures HashNumber(k) != HashNumber(h) {
      CanonicalDigits(k);
      CanonicalDigits(h);
    }
  }

  /** A step of the store either commits a completion or changes no completed session and no hash. */
  lemma StoreStep(w: Runs.World, e: Runs.Event)
    requires Runs.Sound(w) && Runs.Enabled(w, e)
    ensures var w' := Runs.Next(w, e);
            if e.Run? && w.clients[e.c].phase.Completing? && w'.clients[e.c].phase.Answered? && w'.clients[e.c].phase.answer == Done then
              var call := w.clients[e.c].phase.call;
              && call.id in w.server.sessions && w.server.sessions[call.id].status == Pending
              && Hash(call) !in w.server.txs
              && w'.server == Commit(w.server, call, w.server.sessions[call.id])
            else
              && w'.server.txs == w.server.txs
              && (forall id :: (id in w'.server.sessions && w'.server.sessions[id].status == Completed)
                               <==> (id in w.server.sessions && w.server.sessions[id].status == Completed))
  {
    var w' := Runs.Next(w, e);
    if e.Run? {
      var c := w.clients[e.c];
      if c.phase.Completing? {
        if c.phase.stage.Checked? && !Dirty(c.watch) {
          HashUnreserved(w.server, c.phase.call);
        } else {
          CompletionReads(w.server, c.watch, c.phase);
        }
      } else if c.phase.sweep.Read? && !Dirty(c.watch) {
        SweepExpires(w.server, c.watch, c.phase);
      } else {
        SweepReads(w.server, c.watch, c.phase);
      }
    }
  }

  lemma CallsStay(w: Runs.World, e: Runs.Event)
    requires Runs.Enabled(w, e) && !e.CallComplete?
    ensures forall c | c in Runs.Next(w, e).clients && Runs.Next(w, e).clients[c].phase.Completing? ::
              c in w.clients && w.clients[c].phase.Completing?
              && w.clients[c].phase.call == Runs.Next(w, e).clients[c].phase.call
  {
  }

  /** Session facts a store step keeps: plans never change, and settled sessions stay as they are. */
  lemma StoreStepKeepsFacts(w: Runs.World, e: Runs.Event)
    requires Runs.Sound(w) && Runs.Enabled(w, e)
    ensures forall id | id in w.server.sessions ::
              && id in Runs.Next(w, e).server.sessions
              && Runs.Next(w, e).server.sessions[id].planId == w.server.sessions[id].planId
              && (w.server.sessions[id].status == Completed ==>
                    Runs.Next(w, e).server.sessions[id] == w.server.sessions[id])
  {
    Runs.StepEvolves(w, e);
  }

  lemma HandlersStay(b: Books, e: Runs.Event)
    requires Kept(b) && Enabled(b, Store(e))
    ensures Handlers(Next(b, Store(e)))
  {
    var b' := Next(b, Store(e));
    CallsStay(b.store, e);
    StoreStepKeepsFacts(b.store, e);
    forall c | c in b'.store.clients && b'.store.clients[c].phase.Completing?
      ensures Vouched(b', c, b'.store.clients[c].phase.call)
    {
      assert Vouched(b, c, b.store.clients[c].phase.call);
    }
  }

  lemma PurchasesStay(b: Books, b': Books)
    requires Purchases(b) && b' == b.(store := b'.store)
    requires forall id :: IsCompleted(b', id) <==> IsCompleted(b, id)
    requires forall id | IsCompleted(b, id) && IsCompleted(b', id) :: b'.store.server.sessions[id] == b.store.server.sessions[id]
    ensures Purchases(b')
  {
    forall id | id in b'.bought
      ensures var s := b'.store.server.sessions[id];
              Backed(b', s.transferTx, s.wallet, AskOf(b', id)) && Known(b', id, b'.bought[id])
    {
      assert IsCompleted(b, id) && AskOf(b', id) == AskOf(b, id);
    }
  }

  lemma QuietStep(b: Books, e: Runs.Event)
    requires Kept(b) && Enabled(b, Store(e)) && !Commits(b, e)
    ensures var b' := Next(b, Store(e));
            && b'.store.server.txs == b.store.server.txs
            && forall id :: IsCompleted(b', id) <==> IsCompleted(b, id)
  {
    StoreStep(b.store, e);
    if e.Run? && b.store.clients[e.c].phase.Completing? {
      assert Vouched(b, e.c, b.store.clients[e.c].phase.call);
    }
  }

  lemma QuietStepKeeps(b: Books, e: Runs.Event)
    requires Kept(b) && Enabled(b, Store(e)) && !Commits(b, e)
    ensures Purchases(Next(b, Store(e))) && Balanced(Next(b, Store(e)))
  {
    QuietStep(b, e);
    StoreStepKeepsFacts(b.store, e);
    PurchasesStay(b, Next(b, Store(e)));
  }

  lemma CommitKeepsPurchases(b: Books, e: Runs.Event)
    requires Kept(b) && Enabled(b, Store(e)) && Commits(b, e)
    ensures Purchases(Next(b, Store(e)))
  {
    StoreStep(b.store, e);
    StoreStepKeepsFacts(b.store, e);
    var b', call := Next(b, Store(e)), b.store.clients[e.c].phase.call;
    assert Vouched(b, e.c, call);
    forall id ensures id in b'.bought <==> IsCompleted(b', id) {
      assert id in b.bought <==> IsCompleted(b, id);
    }
    forall id | id in b'.bought
      ensures var s := b'.store.server.sessions[id];
              Backed(b', s.transferTx, s.wallet, AskOf(b', id)) && Known(b', id, b'.bought[id])
    {
      if id == call.id {
        assert AskOf(b', id) == b.asked[e.c] || b'.bought[id] == b.asked[e.c].price;
      } else {
        assert id in b.bought && AskOf(b', id) == AskOf(b, id);
      }
    }
  }

  lemma CommitKeepsBalance(b: Books, e: Runs.Event)
    requires Kept(b) && Enabled(b, Store(e)) && Commits(b, e)
    ensures Balanced(Next(b, Store(e)))
  {
    StoreStep(b.store, e);
    var b', call := Next(b, Store(e)), b.store.clients[e.c].phase.call;
    assert Vouched(b, e.c, call);
    var h, price := Hash(call), b.asked[e.c].price;
    NewHashIsUnused(b, h);
    UsedOneMore(b.store.server.txs, h, call.id);
    OneMorePayment(b.terms, b.mined, Used(b.store.server.txs), HashNumber(h), price);
    assert call.id !in b.bought by {
      assert !IsCompleted(b, call.id);
    }
    SumUpdate(b.bought, call.id, price);
  }

  lemma CheckoutKeepsHandlers(b: Books, c: nat, call: Completion, ask: Ask)
    requires Kept(b) && Enabled(b, Checkout(c, call, ask))
    ensures Handlers(Next(b, Checkout(c, call, ask)))
  {
    var b' := Next(b, Checkout(c, call, ask));
    forall k | k in b'.store.clients && b'.store.clients[k].phase.Completing?
      ensures Vouched(b', k, b'.store.clients[k].phase.call)
    {
      if k != c {
        assert Vouched(b, k, b.store.clients[k].phase.call);
      }
    }
  }

  lemma CheckoutKeeps(b: Books, c: nat, call: Completion, ask: Ask)
    requires Kept(b) && Enabled(b, Checkout(c, call, ask))
    ensures Kept(Next(b, Checkout(c, call, ask)))
  {
    var b' := Next(b, Checkout(c, call, ask));
    Runs.StepKeepsSound(b.store, Runs.CallComplete(c, call));
    CheckoutKeepsHandlers(b, c, call, ask);
    PurchasesStay(b, b.(store := b'.store));
    MoreAsked(b.(store := b'.store), b'.asked);
  }

  lemma MoreAsked(b: Books, asked: map<nat, Ask>)
    requires Purchases(b)
    ensures Purchases(b.(asked := asked))
  {
    var b' := b.(asked := asked);
    forall id ensures id in b'.bought <==> IsCompleted(b', id) {
      assert id in b.bought <==> IsCompleted(b, id);
    }
    forall id | id in b'.bought
      ensures var s := b'.store.server.sessions[id];
              Backed(b', s.transferTx, s.wallet, AskOf(b', id)) && Known(b', id, b'.bought[id])
    {
      assert AskOf(b', id) == AskOf(b, id);
    }
  }

  lemma MineKeepsBalance(b: Books, hash: nat, tx: ChainTx)
    requires Kept(b) && Enabled(b, Mine(hash, tx))
    ensures Balanced(Next(b, Mine(hash, tx)))
  {
    assert hash !in Used(b.store.server.txs) by {
      UsedAreMined(b);
    }
    UnusedPaymentIsNotCounted(b.terms, b.mined, Used(b.store.server.txs), hash, tx);
  }

  /** More mined transactions and more quoted prices leave every backing in place. */
  lemma MoreFactsKeep(b: Books, b': Books)
    requires Purchases(b) && Handlers(b)
    requires b.mined.Keys <= b'.mined.Keys && forall n | n in b.mined :: b'.mined[n] == b.mined[n]
    requires b.quoted <= b'.quoted
    requires b' == b.(mined := b'.mined, quoted := b'.quoted)
    ensures Purchases(b') && Handlers(b')
  {
    forall c | c in b'.store.clients && b'.store.clients[c].phase.Completing?
      ensures Vouched(b', c, b'.store.clients[c].phase.call)
    {
      assert Vouched(b, c, b.store.clients[c].phase.call);
    }
    forall id ensures id in b'.bought <==> IsCompleted(b', id) {
      assert id in b.bought <==> IsCompleted(b, id);
    }
    forall id | id in b'.bought
      ensures var s := b'.store.server.sessions[id];
              Backed(b', s.transferTx, s.wallet, AskOf(b', id)) && Known(b', id, b'.bought[id])
    {
      assert AskOf(b', id) == AskOf(b, id);
    }
  }

  lemma StepKeeps(b: Books, e: Event)
    requires Kept(b) && Enabled(b, e)
    ensures Kept(Next(b, e))
  {
    match e
    case Store(s) =>
      Runs.StepKeepsSound(b.store, s);
      HandlersStay(b, s);
      if Commits(b, s) {
        CommitKeepsPurchases(b, s);
        CommitKeepsBalance(b, s);
      } else {
        QuietStepKeeps(b, s);
      }
    case Mine(hash, tx) =>
      MineKeepsBalance(b, hash, tx);
      MoreFactsKeep(b, Next(b, e));
    case SetPrice(_, _) => MoreFactsKeep(b, Next(b, e));
    case Checkout(c, call, ask) => CheckoutKeeps(b, c, call, ask);
  }

  lemma {:induction false} RunKeeps(b: Books, events: seq<Event>, b': Books)
    requires Kept(b) && Reaches(b, events, b')
    ensures Kept(b')
    decreases |events|
  {
    if events != [] {
      StepKeeps(b, events[0]);
      RunKeeps(Next(b, events[0]), events[1..], b');
    }
  }

  /** In every run, what the completed sessions cost never exceeds what direct transfers to the
      treasury paid in. */
  lemma PaymentsAreConserved(terms: Terms, events: seq<Event>, b: Books)
    requires Reaches(Opened(terms), events, b)
    ensures forall id :: id in b.bought <==> IsCompleted(b, id)
    ensures Sum(b.bought) <= Sum(AllPaidIn(b.terms, b.mined))
  {
    RunKeeps(Opened(terms), events, b);
    PartSumsToLess(PaidIn(b.terms, b.mined, Used(b.store.server.txs)), AllPaidIn(b.terms, b.mined));
  }

  /** In every run, each completed session is backed by a mined, successful transfer of a price its
      plan had, from its wallet to the treasury, with the event to show it unless an operator
      completed it; and no two sessions by the same transfer. */
  lemma EachSessionHasItsOwnPayment(terms: Terms, events: seq<Event>, b: Books, id: string)
    requires Reaches(Opened(terms), events, b)
    requires IsCompleted(b, id)
    ensures id in b.bought && Known(b, id, b.bought[id])
    ensures var s := b.store.server.sessions[id]; Backed(b, s.transferTx, s.wallet, AskOf(b, id))
    ensures forall other | IsCompleted(b, other) && other != id ::
              && Canonical(b.store.server.sessions[other].transferTx)
              && HashNumber(b.store.server.sessions[other].transferTx) != HashNumber(b.store.server.sessions[id].transferTx)
  {
    RunKeeps(Opened(terms), events, b);
    forall other | IsCompleted(b, other) && other != id
      ensures Canonical(b.store.server.sessions[other].transferTx)
      ensures HashNumber(b.store.server.sessions[other].transferTx) != HashNumber(b.store.server.sessions[id].transferTx)
    {
      assert other in b.bought;
      var h, k := b.store.server.sessions[id].transferTx, b.store.server.sessions[other].transferTx;
      CanonicalDigits(h);
      CanonicalDigits(k);
      assert Lookup(b.store.server.txs, h) == Some(id) && Lookup(b.store.server.txs, k) == Some(other);
    }
  }
}
