/** The handlers that complete a checkout session: the ladder of checks, in its order, then the
    commit in the session store and the new subscription. */
module Checkout {
  import opened Records
  import opened Calendar
  import opened Text
  import opened Token
  import opened Billing
  import opened Sessions
  import Runs = SessionRuns
  import opened SessionStores
  import opened Challenges
  import opened Payments
  import Conservation = PaymentRuns
  import Subs = SubStore
  import Sums
  import Coverage

  datatype Code =
    | BadRequest
    | SessionNotFound
    | SessionAlreadyCompleted
    | SessionExpired
    | SignatureInvalid
    | ChallengeMismatch
    | ChallengeExpired
    | UpstreamError
    | TransferNotMined
    | TransferReverted
    | TransferWrongToken
    | TransferWrongMethod
    | TransferWrongRecipient
    | TransferWrongAmount
    | TransferFromMismatch
    | TransferLogMismatch
    | InsufficientAllowance
    | ApprovalReverted
    | ApprovalWrongToken
    | ApprovalWrongMethod
    | ApprovalWrongSpender
    | ApprovalFromMismatch
    | TransferAlreadyConsumed

  datatype Config = Config(
    terms: Terms,
    contract: Address,
    chainId: int,
    prefix: string,
    freshness: int,
    minConfirmations: nat,
    approvePeriods: int)

  datatype Request = Request(message: string, signature: string, transferTx: string, approvalTx: string)

  /** What the node shows: mined transactions, the newest block, and allowances to the contract. */
  datatype View = View(mined: map<nat, ChainTx>, head: nat, allowances: map<Address, nat>)

  /** Which of the calls to the store and the node fail. */
  datatype Faults = Faults(store: bool, transfer: bool, allowance: bool, approval: bool)

  predicate Faulty(f: Faults) {
    f.store || f.transfer || f.allowance || f.approval
  }

  datatype Outcome =
    | Subscribed(wallet: string, nextChargeAt: Instant)
    | Replayed(wallet: string)
    | Refused(code: Code)

  /** The two refusals only the session store gives. */
  predicate StoreRefuses(code: Code) {
    code == TransferAlreadyConsumed || code == SessionAlreadyCompleted
  }

  function Confirmations(view: View, tx: ChainTx): nat {
    if view.head >= tx.block then view.head - tx.block + 1 else 0
  }

  /** A transaction has n confirmations when its block and n - 1 more are there. */
  lemma ConfirmedIff(view: View, tx: ChainTx, n: nat)
    ensures Confirmations(view, tx) >= n <==> n == 0 || tx.block + n - 1 <= view.head
  {
  }

  function AllowanceOf(view: View, wallet: Address): nat {
    if wallet in view.allowances then view.allowances[wallet] else 0
  }

  /** The renewals an approval must cover after the first period. */
  function RenewalTarget(config: Config, price: int): int {
    price * if config.approvePeriods < 1 then 0 else config.approvePeriods - 1
  }

  // ---------- the signature ----------

  /** The wallet signed a fresh challenge for this session, plan, contract and chain. */
  predicate SignedFor(config: Config, id: string, planId: string, message: string, signer: Address, now: Instant) {
    Parse(message).Ok?
    && var c := Parse(message).value;
    && c.prefix == config.prefix && c.sessionId == id && c.planId == planId
    && c.wallet == AddressText(signer) && c.contract == AddressText(config.contract)
    && c.chainId == config.chainId
    && 0 <= now - c.issued <= config.freshness
  }

  method CheckSignature(config: Config, id: string, planId: string, message: string, recovered: Option<Address>, now: Instant)
    returns (r: Result<Address, Code>)
    ensures r.Ok? <==> recovered.Some? && SignedFor(config, id, planId, message, recovered.value, now)
    ensures r.Ok? ==> recovered == Some(r.value)
    ensures r.Err? ==> r.error in {SignatureInvalid, ChallengeMismatch, ChallengeExpired}
    ensures r == Err(SignatureInvalid) <==> recovered.None?
  {
    if recovered.None? {
      return Err(SignatureInvalid);
    }
    var signer := recovered.value;
    var parsed := ParseChallenge(message);
    if parsed.Err? {
      return Err(ChallengeMismatch);
    }
    var challenge := parsed.value;
    if challenge.prefix != config.prefix {
      return Err(ChallengeMismatch);
    }
    if challenge.sessionId != id {
      return Err(ChallengeMismatch);
    }
    if challenge.planId != planId {
      return Err(ChallengeMismatch);
    }
    if challenge.wallet != AddressText(signer) {
      return Err(ChallengeMismatch);
    }
    if challenge.contract != AddressText(config.contract) {
      return Err(ChallengeMismatch);
    }
    if challenge.chainId != config.chainId {
      return Err(ChallengeMismatch);
    }
    var age := now - challenge.issued;
    if age < 0 || age > config.freshness {
      return Err(ChallengeExpired);
    }
    return Ok(signer);
  }

  /** The printed challenge for a session is accepted exactly for its own wallet, session, plan, contract,
      chain and prefix, from the second it is issued until it is no longer fresh. */
  lemma PrintedIsAccepted(config: Config, id: string, planId: string, c: Challenge, signer: Address, now: Instant)
    requires Printable(c)
    ensures SignedFor(config, id, planId, Print(c), signer, now)
            <==> c.prefix == config.prefix && id == c.sessionId && planId == c.planId
                 && AddressText(signer) == Lower(c.wallet) && AddressText(config.contract) == Lower(c.contract)
                 && config.chainId == c.chainId && c.issued <= now <= c.issued + config.freshness
  {
    RoundTrip(c);
  }

  /** One message stands for one purchase: it is accepted for no second session, plan or wallet. */
  lemma SignedForOneThing(config: Config, message: string, id: string, planId: string, signer: Address, now: Instant,
                          id': string, planId': string, signer': Address, now': Instant)
    requires SignedFor(config, id, planId, message, signer, now) && SignedFor(config, id', planId', message, signer', now')
    requires signer.number < Pow(16, 40) && signer'.number < Pow(16, 40)
    ensures id == id' && planId == planId' && signer == signer'
    ensures now' <= now + config.freshness
  {
    AddressTextNamesIt(signer, signer');
  }

  // ---------- the transfer ----------

  /** The first event of the token with the expected value runs from the wallet to the treasury. */
  predicate Logged(terms: Terms, tx: ChainTx, price: int) {
    exists i :: 0 <= i < |tx.logs| && Matches(tx.logs[i], terms.token, price)
                && tx.logs[i].from == tx.from && tx.logs[i].to == terms.treasury
                && forall j | 0 <= j < i :: !Matches(tx.logs[j], terms.token, price)
  }

  /** A mined, confirmed transfer of the price from the wallet to the treasury. */
  predicate PaidBy(config: Config, view: View, hash: string, price: int, signer: Address) {
    && IsHashLike(hash) && HashNumber(hash) in view.mined
    && var tx := view.mined[HashNumber(hash)];
    && Pays(config.terms, tx, price) && tx.from == signer
    && Confirmations(view, tx) >= config.minConfirmations
    && Logged(config.terms, tx, price)
  }

  /** What each refusal of a transaction's call says. */
  predicate CallFault(terms: Terms, tx: ChainTx, price: int, code: Code) {
    match code
    case TransferReverted => !tx.success
    case TransferWrongToken => tx.success && tx.to != Some(terms.token)
    case TransferWrongMethod => tx.success && tx.to == Some(terms.token) && tx.transfer.None?
    case TransferWrongRecipient =>
      tx.success && tx.to == Some(terms.token) && tx.transfer.Some? && tx.transfer.value.to != terms.treasury
    case TransferWrongAmount => IsPayment(terms, tx) && tx.transfer.value.value != price
    case _ => false
  }

  /** What each refusal of a transfer says. */
  predicate TransferFault(config: Config, view: View, hash: string, price: int, signer: Address, code: Code) {
    if !IsHashLike(hash) then code == BadRequest
    else if HashNumber(hash) !in view.mined then code == TransferNotMined
    else
      var tx := view.mined[HashNumber(hash)];
      match code
      case TransferFromMismatch => Pays(config.terms, tx, price) && tx.from != signer
      case TransferNotMined =>
        Pays(config.terms, tx, price) && tx.from == signer && Confirmations(view, tx) < config.minConfirmations
      case TransferLogMismatch =>
        && Pays(config.terms, tx, price) && tx.from == signer
        && Confirmations(view, tx) >= config.minConfirmations && !Logged(config.terms, tx, price)
      case _ => CallFault(config.terms, tx, price, code)
  }

  /** The receipt, token, calldata, recipient and amount, in this order. */
  method CheckCall(terms: Terms, tx: ChainTx, price: int) returns (fault: Option<Code>)
    ensures fault.None? <==> Pays(terms, tx, price)
    ensures match fault
            case None => true
            case Some(code) => CallFault(terms, tx, price, code)
  {
    if !tx.success {
      return Some(TransferReverted);
    }
    if tx.to != Some(terms.token) {
      return Some(TransferWrongToken);
    }
    if tx.transfer.None? {
      return Some(TransferWrongMethod);
    }
    if tx.transfer.value.to != terms.treasury {
      return Some(TransferWrongRecipient);
    }
    if tx.transfer.value.value != price {
      return Some(TransferWrongAmount);
    }
    return None;
  }

  /** The event agrees with the call. */
  method CheckLog(terms: Terms, tx: ChainTx, price: int, signer: Address) returns (ok: bool)
    requires tx.from == signer
    ensures ok <==> Logged(terms, tx, price)
  {
    var log := DecodeTransferLog(tx.logs, terms.token, price);
    ok := !(log.None? || log.value.from != signer || log.value.to != terms.treasury);
  }

  method CheckTransfer(config: Config, view: View, hash: string, price: int, signer: Address, nodeFails: bool) returns (r: Result<ChainTx, Code>)
    ensures r.Ok? ==> PaidBy(config, view, hash, price, signer) && r.value == view.mined[HashNumber(hash)]
    ensures r.Err? ==> if r.error == UpstreamError then nodeFails else TransferFault(config, view, hash, price, signer, r.error)
  {
    if !IsHashLike(hash) {
      return Err(BadRequest);
    }
    if nodeFails {
      return Err(UpstreamError);
    }
    if HashNumber(hash) !in view.mined {
      return Err(TransferNotMined);
    }
    var tx := view.mined[HashNumber(hash)];
    var fault := CheckCall(config.terms, tx, price);
    if fault.Some? {
      return Err(fault.value);
    }
    if tx.from != signer {
      return Err(TransferFromMismatch);
    }
    if Confirmations(view, tx) < config.minConfirmations {
      return Err(TransferNotMined);
    }
    var logged := CheckLog(config.terms, tx, price, signer);
    return if logged then Ok(tx) else Err(TransferLogMismatch);
  }

  /** A refused transfer is one that does not pay: no code is given for a transfer that does. */
  lemma FaultsAreFaults(config: Config, view: View, hash: string, price: int, signer: Address, code: Code)
    requires TransferFault(config, view, hash, price, signer, code)
    ensures !PaidBy(config, view, hash, price, signer)
  {
  }

  // ---------- the allowance ----------

  predicate ApprovalShown(config: Config, view: View, hash: string, signer: Address) {
    && IsHashLike(hash) && HashNumber(hash) in view.mined
    && var tx := view.mined[HashNumber(hash)];
    tx.success && tx.to == Some(config.terms.token) && tx.approved == Some(config.contract) && tx.from == signer
  }

  /** The wallet's allowance covers the renewals, and an approval transaction, if named, is one. */
  predicate Covered(config: Config, view: View, price: int, signer: Address, approvalTx: string) {
    && AllowanceOf(view, signer) >= RenewalTarget(config, price)
    && (TrimSpace(approvalTx) != "" ==> ApprovalShown(config, view, NormalizeHash(approvalTx), signer))
  }

  method CheckApproval(config: Config, view: View, approvalTx: string, signer: Address, nodeFails: bool) returns (fault: Option<Code>)
    ensures fault.None? ==> ApprovalShown(config, view, NormalizeHash(approvalTx), signer)
    ensures fault.Some? ==> !StoreRefuses(fault.value)
    ensures fault == Some(UpstreamError) ==> nodeFails
    ensures fault.Some? && fault.value != UpstreamError ==> !ApprovalShown(config, view, NormalizeHash(approvalTx), signer)
  {
    var hash := NormalizeHash(approvalTx);
    if !IsHashLike(hash) {
      return Some(BadRequest);
    }
    if nodeFails {
      return Some(UpstreamError);
    }
    if HashNumber(hash) !in view.mined {
      return Some(TransferNotMined);
    }
    var tx := view.mined[HashNumber(hash)];
    if !tx.success {
      return Some(ApprovalReverted);
    }
    if tx.to != Some(config.terms.token) {
      return Some(ApprovalWrongToken);
    }
    if tx.approved.None? {
      return Some(ApprovalWrongMethod);
    }
    if tx.approved.value != config.contract {
      return Some(ApprovalWrongSpender);
    }
    if tx.from != signer {
      return Some(ApprovalFromMismatch);
    }
    return None;
  }

  method CheckAllowance(config: Config, view: View, price: int, signer: Address, approvalTx: string, faults: Faults) returns (fault: Option<Code>)
    ensures fault.None? ==> Covered(config, view, price, signer, approvalTx)
    ensures fault.Some? ==> !StoreRefuses(fault.value)
    ensures fault == Some(UpstreamError) ==> Faulty(faults)
    ensures fault.Some? && fault.value != UpstreamError ==> !Covered(config, view, price, signer, approvalTx)
  {
    if faults.allowance {
      return Some(UpstreamError);
    }
    if AllowanceOf(view, signer) < RenewalTarget(config, price) {
      return Some(InsufficientAllowance);
    }
    if TrimSpace(approvalTx) != "" {
      fault := CheckApproval(config, view, approvalTx, signer, faults.approval);
      return;
    }
    return None;
  }

  /** The renewals a wallet pays by allowance: all the periods to be approved but the first. */
  function Renewals(config: Config): nat {
    if config.approvePeriods <= 1 then 0 else config.approvePeriods - 1
  }

  /** The allowance asked for is the one the contract needs: on a token that is not frozen, with a finite
      allowance and balance to spare, the test passes exactly when every renewal can be pulled. */
  lemma TargetIsPullable(config: Config, view: View, l: Ledger, wallet: Address, price: nat)
    requires !l.frozen && AllowanceOf(view, wallet) == l.Allowance(wallet, config.contract) < MAX_UINT
    requires price * Renewals(config) <= l.Balance(wallet)
    ensures Covered(config, view, price, wallet, "")
            <==> Coverage.AllPulled(l, config.contract, config.terms.treasury, wallet, Sums.Repeated(price, Renewals(config)))
  {
    var n, self, treasury := Renewals(config), config.contract, config.terms.treasury;
    assert TrimSpace("") == "";
    if n > 0 && price > MAX_UINT {
      Coverage.ProductUp(price, n);
    } else {
      Coverage.AllPulledIff(l, self, treasury, wallet, Sums.Repeated(price, n));
      Coverage.RepeatedAffordable(l, treasury, wallet, price, n);
      Sums.TotalRepeated(price, n);
    }
  }

  // ---------- the whole ladder ----------

  datatype Verified = Verified(signer: Address, plan: Plan, hash: string)

  predicate Paid(config: Config, view: View, req: Request, price: int, signer: Address) {
    PaidBy(config, view, NormalizeHash(req.transferTx), price, signer) && Covered(config, view, price, signer, req.approvalTx)
  }

  /** Everything a completion is granted for. */
  predicate Entitled(config: Config, view: View, plans: map<string, Plan>, id: string, s: Session,
                     req: Request, recovered: Option<Address>, now: Instant)
  {
    && req.signature != "" && s.status == Pending && now < s.expiresAt
    && recovered.Some? && SignedFor(config, id, s.planId, req.message, recovered.value, now)
    && s.planId in plans && plans[s.planId].price.Atomic?
    && Paid(config, view, req, plans[s.planId].price.value, recovered.value)
  }

  method CheckPayment(config: Config, view: View, req: Request, price: int, signer: Address, faults: Faults) returns (fault: Option<Code>)
    ensures fault.None? ==> Paid(config, view, req, price, signer)
    ensures fault.Some? ==> !StoreRefuses(fault.value)
    ensures fault == Some(UpstreamError) ==> Faulty(faults)
    ensures fault.Some? && fault.value != UpstreamError ==> !Paid(config, view, req, price, signer)
  {
    var hash := NormalizeHash(req.transferTx);
    var paid := CheckTransfer(config, view, hash, price, signer, faults.transfer);
    if paid.Err? {
      if paid.error != UpstreamError {
        FaultsAreFaults(config, view, hash, price, signer, paid.error);
      }
      return Some(paid.error);
    }
    fault := CheckAllowance(config, view, price, signer, req.approvalTx, faults);
  }

  method Verify(config: Config, view: View, plans: map<string, Plan>, id: string, s: Session, req: Request,
                recovered: Option<Address>, now: Instant, faults: Faults)
    returns (r: Result<Verified, Code>)
    requires req.signature != ""
    ensures r.Ok? ==> Entitled(config, view, plans, id, s, req, recovered, now)
                      && r.value == Verified(recovered.value, plans[s.planId], NormalizeHash(req.transferTx))
    ensures r.Err? ==> !StoreRefuses(r.error)
    ensures r.Err? ==> Faulty(faults) || !Entitled(config, view, plans, id, s, req, recovered, now)
  {
    if s.status != Pending || s.expiresAt <= now {
      return Err(SessionExpired);
    }
    var signed := CheckSignature(config, id, s.planId, req.message, recovered, now);
    if signed.Err? {
      return Err(signed.error);
    }
    if faults.store || s.planId !in plans {
      return Err(UpstreamError);
    }
    var plan := plans[s.planId];
    if plan.price.Malformed? {
      return Err(UpstreamError);
    }
    var fault := CheckPayment(config, view, req, plan.price.value, signed.value, faults);
    if fault.Some? {
      return Err(fault.value);
    }
    return Ok(Verified(signed.value, plan, NormalizeHash(req.transferTx)));
  }

  /** A transaction is evidence for one wallet, and a transfer for one price; neither is when reverted. */
  lemma EvidenceIsSpecific(config: Config, view: View, hash: string, price: int, price': int, signer: Address, signer': Address)
    ensures PaidBy(config, view, hash, price, signer) && PaidBy(config, view, hash, price', signer') ==> price == price' && signer == signer'
    ensures ApprovalShown(config, view, hash, signer) && ApprovalShown(config, view, hash, signer') ==> signer == signer'
    ensures PaidBy(config, view, hash, price, signer) || ApprovalShown(config, view, hash, signer) ==> view.mined[HashNumber(hash)].success
  {
  }

  /** A completed checkout can be renewed: the wallet's allowance lets every renewal through, short of a
      frozen token or an empty wallet, and its transfer has the blocks asked for on top. */
  lemma EntitledIsRenewable(config: Config, view: View, plans: map<string, Plan>, id: string, s: Session,
                            req: Request, recovered: Option<Address>, now: Instant, l: Ledger)
    requires Entitled(config, view, plans, id, s, req, recovered, now)
    requires !l.frozen && AllowanceOf(view, recovered.value) == l.Allowance(recovered.value, config.contract) < MAX_UINT
    requires plans[s.planId].price.value >= 0
    requires plans[s.planId].price.value * Renewals(config) <= l.Balance(recovered.value)
    ensures Coverage.AllPulled(l, config.contract, config.terms.treasury, recovered.value,
                               Sums.Repeated(plans[s.planId].price.value, Renewals(config)))
    ensures config.minConfirmations > 0 ==>
              view.mined[HashNumber(NormalizeHash(req.transferTx))].block + config.minConfirmations - 1 <= view.head
  {
    assert TrimSpace("") == "";
    TargetIsPullable(config, view, l, recovered.value, plans[s.planId].price.value);
  }

  /** Whoever is entitled is backed by the chain, for the wallet and the price that were checked. */
  lemma EntitledIsBacked(config: Config, view: View, plans: map<string, Plan>, id: string, s: Session,
                         req: Request, recovered: Option<Address>, now: Instant)
    ensures Entitled(config, view, plans, id, s, req, recovered, now) ==>
              && BackedBy(config.terms, view.mined, NormalizeHash(req.transferTx), AddressText(recovered.value),
                          plans[s.planId].price.value, false)
              && plans[s.planId].price.value >= 0
              && Lower(AddressText(recovered.value)) == AddressText(recovered.value)
  {
    NormalizedIsLower(req.transferTx);
    if recovered.Some? {
      AddressTextIsLower(recovered.value);
    }
  }

  /** The call a handler makes after its checks. */
  function CallFor(id: string, signer: Address, hash: string, approvalTx: string, at: Instant): Completion {
    Completion(id, AddressText(signer), hash, approvalTx, AddressText(signer), at)
  }

  /** Passing the ladder is what the conservation law asks of a handler's call: on books that know the
      chain the handler saw and the price it read, the call is a checkout step of them. */
  lemma EntitledMayCheckOut(b: Conservation.Books, c: nat, config: Config, view: View, plans: map<string, Plan>, id: string, s: Session,
                            req: Request, recovered: Option<Address>, now: Instant, at: Instant)
    requires b.terms == config.terms && !Runs.Busy(b.store, c)
    requires forall n | n in view.mined :: n in b.mined && b.mined[n] == view.mined[n]
    requires id in b.store.server.sessions && b.store.server.sessions[id].planId == s.planId
    requires s.planId in plans && plans[s.planId].price.Atomic? ==> (s.planId, plans[s.planId].price.value) in b.quoted
    ensures Entitled(config, view, plans, id, s, req, recovered, now) ==>
              var call := CallFor(id, recovered.value, NormalizeHash(req.transferTx), Lower(TrimSpace(req.approvalTx)), at);
              Conservation.Enabled(b, Conservation.Checkout(c, call, Conservation.Ask(plans[s.planId].price.value, false)))
  {
    EntitledIsBacked(config, view, plans, id, s, req, recovered, now);
  }

  /** And so is the operator's, for a canonical hash text. */
  lemma RecoverableMayCheckOut(b: Conservation.Books, c: nat, config: Config, view: View, plans: map<string, Plan>, id: string, s: Session,
                               transferTx: string, at: Instant)
    requires b.terms == config.terms && !Runs.Busy(b.store, c)
    requires forall n | n in view.mined :: n in b.mined && b.mined[n] == view.mined[n]
    requires id in b.store.server.sessions && b.store.server.sessions[id].planId == s.planId
    requires s.planId in plans && plans[s.planId].price.Atomic? ==> (s.planId, plans[s.planId].price.value) in b.quoted
    requires IsHashLike(NormalizeHash(transferTx))
    ensures Recoverable(config, view, plans, s, transferTx) ==>
              var hash := NormalizeHash(transferTx);
              Conservation.Enabled(b, Conservation.Checkout(c, CallFor(id, view.mined[HexToHash(hash)].from, hash, "", at),
                                                            Conservation.Ask(plans[s.planId].price.value, true)))
  {
    if Recoverable(config, view, plans, s, transferTx) {
      var hash := NormalizeHash(transferTx);
      NormalizedIsLower(transferTx);
      HexToHashOfHash(hash);
      AddressTextIsLower(view.mined[HexToHash(hash)].from);
    }
  }

  // ---------- the handlers ----------

  /** The session is completed for this wallet with this hash, and the wallet is subscribed from one
      period on. */
  ghost predicate Granted(store: RedisStore, subs: map<Address, Sub>, id: string, wallet: Address, plan: Plan,
                          hash: string, approvalTx: string, at: Instant)
    reads store
  {
    && id in store.sessions
    && var s := store.sessions[id];
    && s.status == Completed && s.wallet == AddressText(wallet) && s.transferTx == hash && s.approvalTx == approvalTx
    && s.subscriptionId == AddressText(wallet) && s.completedAt == Some(at)
    && Lookup(store.txs, hash) == Some(id)
    && wallet in subs && subs[wallet] == NewSub(wallet, plan.id, AddPeriod(plan, at))
  }

  /** What the operator's completion is granted for: a pending session and a paying transfer. */
  predicate Recoverable(config: Config, view: View, plans: map<string, Plan>, s: Session, transferTx: string) {
    && transferTx != "" && s.status == Pending
    && s.planId in plans && plans[s.planId].price.Atomic?
    && HexToHash(NormalizeHash(transferTx)) in view.mined
    && Pays(config.terms, view.mined[HexToHash(NormalizeHash(transferTx))], plans[s.planId].price.value)
  }

  class SessionApi {
    const config: Config
    const recover: (string, string) -> Option<Address>
    const store: RedisStore
    const subscriptions: Subs.MemoryStore

    constructor (config: Config, recover: (string, string) -> Option<Address>, store: RedisStore, subscriptions: Subs.MemoryStore)
      ensures this.config == config && this.recover == recover && this.store == store && this.subscriptions == subscriptions
    {
      this.config, this.recover, this.store, this.subscriptions := config, recover, store, subscriptions;
    }

    ghost predicate Ready()
      reads this, store
    {
      store.me !in store.others && !Running(store.phase) && Runs.Sound(store.State())
    }

    /** The commit, and the subscription that starts one period on, since the first is paid. */
    method Commit(id: string, signer: Address, plan: Plan, hash: string, approvalTx: string, at: Instant)
      returns (answer: Answer, ghost events: seq<Runs.Event>)
      requires Ready() && id in store.sessions && Lower(hash) == hash && Lower(approvalTx) == approvalTx
      modifies store, subscriptions`subs
      ensures Ready() && Runs.Reaches(old(store.State()), events, store.State())
      ensures answer in {Done, NotPending, TxAlreadyConsumed}
      ensures answer == Done ==>
                && Granted(store, subscriptions.subs, id, signer, plan, hash, approvalTx, at)
                && subscriptions.subs == old(subscriptions.subs)[signer := subscriptions.subs[signer]]
      ensures answer != Done ==> subscriptions.subs == old(subscriptions.subs)
      ensures answer == NotPending ==> id in store.sessions && store.sessions[id].status != Pending
      ensures answer == TxAlreadyConsumed ==> hash in store.txs && store.txs[hash] != id
    {
      AddressTextIsLower(signer);
      var attempts;
      answer, attempts, events := store.CompleteSession(CallFor(id, signer, hash, approvalTx, at));
      if answer == Done {
        subscriptions.UpsertSubscription(NewSub(signer, plan.id, AddPeriod(plan, at)));
      }
    }

    /** Other clients' commands between the handler's checks and its commit, and then the commit. */
    method CommitLater(id: string, signer: Address, plan: Plan, hash: string, approvalTx: string, at: Instant)
      returns (answer: Answer, ghost events: seq<Runs.Event>)
      requires Ready() && id in store.sessions && Lower(hash) == hash && Lower(approvalTx) == approvalTx
      modifies store, subscriptions`subs
      ensures Ready() && Runs.Reaches(old(store.State()), events, store.State())
      ensures answer in {Done, NotPending, TxAlreadyConsumed}
      ensures answer == Done ==>
                && Granted(store, subscriptions.subs, id, signer, plan, hash, approvalTx, at)
                && subscriptions.subs == old(subscriptions.subs)[signer := subscriptions.subs[signer]]
      ensures answer != Done ==> subscriptions.subs == old(subscriptions.subs)
      ensures answer == NotPending ==> id in store.sessions && store.sessions[id].status != Pending
      ensures answer == TxAlreadyConsumed ==> hash in store.txs && store.txs[hash] != id
    {
      ghost var start := store.State();
      assert store.State().clients[store.me] == Client(store.watch, store.phase);
      events := store.Interleave(start, []);
      ghost var mid := store.State();
      Runs.StillSessions(start, events, mid, id);
      ghost var more;
      answer, more := Commit(id, signer, plan, hash, approvalTx, at);
      ReachesTrans(start, events, mid, more, store.State());
      events := events + more;
    }

    /** The request names the payment the session is completed with already. */
    predicate Repeats(s: Session, req: Request, faults: Faults) {
      && req.message != "" && req.signature != "" && req.transferTx != "" && !faults.store
      && s.status == Completed && Lower(s.transferTx) == Lower(req.transferTx)
    }

    /** The handler up to its commit: the session as read, then every check. */
    method Admit(id: string, req: Request, view: View, plans: map<string, Plan>, now: Instant, faults: Faults)
      returns (r: Result<Verified, Outcome>)
      ensures r.Ok? ==>
                && id in store.sessions
                && var s := store.sessions[id];
                && Entitled(config, view, plans, id, s, req, recover(req.message, req.signature), now)
                && r.value == Verified(recover(req.message, req.signature).value, plans[s.planId], NormalizeHash(req.transferTx))
      ensures id in store.sessions && Repeats(store.sessions[id], req, faults) ==> r == Err(Replayed(store.sessions[id].wallet))
      ensures r.Err? ==>
                match r.error
                case Subscribed(_, _) => false
                case Replayed(wallet) =>
                  && id in store.sessions && store.sessions[id].status == Completed && store.sessions[id].wallet == wallet
                  && Lower(store.sessions[id].transferTx) == Lower(req.transferTx)
                case Refused(code) =>
                  && code != TransferAlreadyConsumed
                  && (code == SessionAlreadyCompleted ==> id in store.sessions && store.sessions[id].status == Completed)
                  && (Faulty(faults) || id !in store.sessions
                      || !Entitled(config, view, plans, id, store.sessions[id], req, recover(req.message, req.signature), now))
    {
      if req.message == "" || req.signature == "" || req.transferTx == "" {
        BlankIsNotEntitled(req);
        return Err(Refused(BadRequest));
      }
      if faults.store {
        return Err(Refused(UpstreamError));
      }
      var found := Lookup(store.sessions, id);
      if found.None? {
        return Err(Refused(SessionNotFound));
      }
      var s := found.value;
      if s.status == Completed {
        if Lower(s.transferTx) == Lower(req.transferTx) {
          return Err(Replayed(s.wallet));
        }
        return Err(Refused(SessionAlreadyCompleted));
      }
      var verified := Verify(config, view, plans, id, s, req, recover(req.message, req.signature), now, faults);
      if verified.Err? {
        return Err(Refused(verified.error));
      }
      return Ok(verified.value);
    }

    /** POST /sessions/{id}/complete: a session is completed only for a wallet that signed for it and
        paid its plan's price, a refusal by the store is still true at return, and any other means
        that a call upstream failed or the request was not entitled. */
    method CompleteSession(id: string, req: Request, view: View, plans: map<string, Plan>, now: Instant, at: Instant, faults: Faults)
      returns (outcome: Outcome, ghost events: seq<Runs.Event>)
      requires Ready()
      modifies store, subscriptions`subs
      ensures Ready() && Runs.Reaches(old(store.State()), events, store.State())
      ensures !outcome.Subscribed? ==> subscriptions.subs == old(subscriptions.subs)
      ensures id in old(store.sessions) && Repeats(old(store.sessions[id]), req, faults) ==>
                outcome == Replayed(old(store.sessions[id]).wallet)
      ensures match outcome
              case Subscribed(wallet, next) =>
                && id in old(store.sessions) && old(store.sessions[id]).planId in plans
                && var plan, signer, hash := plans[old(store.sessions[id]).planId], recover(req.message, req.signature), NormalizeHash(req.transferTx);
                && Entitled(config, view, plans, id, old(store.sessions[id]), req, signer, now)
                && wallet == AddressText(signer.value) && next == AddPeriod(plan, at)
                && BackedBy(config.terms, view.mined, hash, wallet, plan.price.value, false)
                && Granted(store, subscriptions.subs, id, signer.value, plan, hash, Lower(TrimSpace(req.approvalTx)), at)
              case Replayed(wallet) =>
                && id in old(store.sessions) && old(store.sessions[id]).status == Completed && old(store.sessions[id]).wallet == wallet
                && Lower(old(store.sessions[id]).transferTx) == Lower(req.transferTx)
              case Refused(code) =>
                if code == SessionAlreadyCompleted then id in store.sessions && store.sessions[id].status != Pending
                else if code == TransferAlreadyConsumed then
                  NormalizeHash(req.transferTx) in store.txs && store.txs[NormalizeHash(req.transferTx)] != id
                else
                  || Faulty(faults) || id !in old(store.sessions)
                  || !Entitled(config, view, plans, id, old(store.sessions[id]), req, recover(req.message, req.signature), now)
    {
      var admitted := Admit(id, req, view, plans, now, faults);
      if admitted.Err? {
        return admitted.error, [];
      }
      var v := admitted.value;
      EntitledIsBacked(config, view, plans, id, store.sessions[id], req, recover(req.message, req.signature), now);
      LowerTwice(TrimSpace(req.approvalTx));
      var answer;
      answer, events := CommitLater(id, v.signer, v.plan, v.hash, Lower(TrimSpace(req.approvalTx)), at);
      match answer
      case Done => outcome := Subscribed(AddressText(v.signer), AddPeriod(v.plan, at));
      case TxAlreadyConsumed => outcome := Refused(TransferAlreadyConsumed);
      case NotPending => outcome := Refused(SessionAlreadyCompleted);
    }

    /** POST /admin/sessions/{id}/force_complete: the operator stands in for the signature, and the
        payer is the sender of the transfer. The form of the hash text is not checked; a canonical
        one backs the price in the sense of the conservation law. */
    method ForceCompleteSession(id: string, transferTx: string, view: View, plans: map<string, Plan>, at: Instant, faults: Faults)
      returns (outcome: Outcome, ghost events: seq<Runs.Event>)
      requires Ready()
      modifies store, subscriptions`subs
      ensures Ready() && Runs.Reaches(old(store.State()), events, store.State())
      ensures !outcome.Subscribed? ==> subscriptions.subs == old(subscriptions.subs)
      ensures match outcome
              case Subscribed(wallet, next) =>
                && id in old(store.sessions) && Recoverable(config, view, plans, old(store.sessions[id]), transferTx)
                && var plan, hash := plans[old(store.sessions[id]).planId], NormalizeHash(transferTx);
                && var payer := view.mined[HexToHash(hash)].from;
                && wallet == AddressText(payer) && next == AddPeriod(plan, at)
                && (IsHashLike(hash) ==> BackedBy(config.terms, view.mined, hash, wallet, plan.price.value, true))
                && Granted(store, subscriptions.subs, id, payer, plan, hash, "", at)
              case Replayed(wallet) => false
              case Refused(code) =>
                if code == TransferAlreadyConsumed then
                  NormalizeHash(transferTx) in store.txs && store.txs[NormalizeHash(transferTx)] != id
                else
                  || Faulty(faults) || id !in old(store.sessions)
                  || !Recoverable(config, view, plans, old(store.sessions[id]), transferTx)
                  || (id in store.sessions && store.sessions[id].status != Pending)
    {
      events := [];
      if transferTx == "" {
        return Refused(BadRequest), events;
      }
      if faults.store {
        return Refused(UpstreamError), events;
      }
      var found := Lookup(store.sessions, id);
      if found.None? {
        return Refused(SessionNotFound), events;
      }
      if found.value.status != Pending {
        return Refused(SessionAlreadyCompleted), events;
      }
      if found.value.planId !in plans {
        return Refused(UpstreamError), events;
      }
      var plan := plans[found.value.planId];
      var hash := NormalizeHash(transferTx);
      if faults.transfer {
        return Refused(UpstreamError), events;
      }
      if HexToHash(hash) !in view.mined {
        return Refused(TransferNotMined), events;
      }
      var tx := view.mined[HexToHash(hash)];
      if plan.price.Malformed? {
        return Refused(UpstreamError), events;
      }
      var fault := CheckCall(config.terms, tx, plan.price.value);
      if fault.Some? {
        return Refused(if fault.value == TransferWrongMethod || fault.value == TransferWrongRecipient
                       then TransferWrongAmount else fault.value), events;
      }
      NormalizedIsLower(transferTx);
      if IsHashLike(hash) {
        HexToHashOfHash(hash);
      }
      var answer;
      answer, events := CommitLater(id, tx.from, plan, hash, "", at);
      match answer
      case Done => outcome := Subscribed(AddressText(tx.from), AddPeriod(plan, at));
      case TxAlreadyConsumed => outcome := Refused(TransferAlreadyConsumed);
      case NotPending => outcome := Refused(UpstreamError);
    }
  }

  /** Repeating a request that completed a session is answered as a replay exactly when its hash text has
      the prefix and no white space around it; otherwise it is taken for a different payment. */
  lemma RetryIsReplayedIff(api: SessionApi, s: Session, req: Request, faults: Faults)
    requires req.message != "" && req.signature != "" && req.transferTx != "" && !faults.store
    requires s.status == Completed && s.transferTx == NormalizeHash(req.transferTx)
    ensures api.Repeats(s, req, faults)
            <==> TrimSpace(Lower(req.transferTx)) == Lower(req.transferTx) && "0x" <= Lower(req.transferTx)
  {
    NormalizedIsLower(req.transferTx);
    NormalizedAsItIs(req.transferTx);
  }

  /** A request with a blank field is entitled to nothing. */
  lemma BlankIsNotEntitled(req: Request)
    requires req.message == "" || req.signature == "" || req.transferTx == ""
    ensures forall config: Config, view: View, plans: map<string, Plan>, id: string, s: Session, recovered: Option<Address>, now: Instant ::
              !Entitled(config, view, plans, id, s, req, recovered, now)
  {
    if req.message == "" {
      assert Lines("") == [""];
    }
    if req.transferTx == "" {
      assert TrimSpace(Lower("")) == "" && NormalizeHash("") == "0x";
    }
  }
}
