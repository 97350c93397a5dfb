/** The payment token (ERC-20, uint256 arithmetic) and the puller contract that spends users'
    allowances into one treasury. */
module Token {
  import opened Sums

  const MAX_UINT: nat := 0xFFFF_FFFF_FFFF_FFFF_FFFF_FFFF_FFFF_FFFF_FFFF_FFFF_FFFF_FFFF_FFFF_FFFF_FFFF_FFFF

  datatype Address = Address(number: nat)

  const ZERO_ADDRESS: Address := Address(0)

  function Sub256(a: nat, b: nat): nat {
    (a - b) % (MAX_UINT + 1)
  }

  function Add256(a: nat, b: nat): nat {
    (a + b) % (MAX_UINT + 1)
  }

  lemma WordsInRange(a: nat, b: nat)
    requires a <= MAX_UINT && b <= MAX_UINT
    ensures Sub256(a, b) == a - b <==> b <= a
    ensures Add256(a, b) == a + b <==> a + b <= MAX_UINT
  {
  }

  /** The token's storage as one value. Missing entries read as zero. */
  datatype Ledger = Ledger(
    balances: map<Address, nat>,
    allowances: map<(Address, Address), nat>,
    totalSupply: nat,
    frozen: bool)
  {
    function Balance(a: Address): nat {
      Get(balances, a)
    }

    function Allowance(owner: Address, spender: Address): nat {
      Get(allowances, (owner, spender))
    }

    /** Every unit in circulation is in exactly one balance, and everything fits in 256 bits. */
    ghost predicate Conserved() {
      && Sum(balances) == totalSupply <= MAX_UINT
      && forall k | k in allowances :: allowances[k] <= MAX_UINT
    }

    function Minted(to: Address, amount: nat): Ledger {
      this.(balances := balances[to := Balance(to) + amount], totalSupply := totalSupply + amount)
    }

    function Approved(owner: Address, spender: Address, amount: nat): Ledger {
      this.(allowances := allowances[(owner, spender) := amount])
    }

    predicate Transferable(spender: Address, from: Address, amount: nat) {
      !frozen && amount <= Allowance(from, spender) && amount <= Balance(from)
    }

    /** The exact effect of a transfer: what leaves one balance enters the other, and a finite
        allowance shrinks by the amount. Subtraction and addition here never wrap. */
    function Transferred(spender: Address, from: Address, to: Address, amount: nat): Ledger
      requires Transferable(spender, from, amount)
    {
      var a := Allowance(from, spender);
      var debited := balances[from := Balance(from) - amount];
      this.(
        allowances := if a == MAX_UINT then allowances else allowances[(from, spender) := a - amount],
        balances := debited[to := Get(debited, to) + amount])
    }
  }

  lemma MintConserves(l: Ledger, to: Address, amount: nat)
    requires l.Conserved() && l.totalSupply + amount <= MAX_UINT
    ensures l.Minted(to, amount).Conserved()
    ensures l.Balance(to) + amount <= MAX_UINT
  {
    SumUpdate(l.balances, to, l.Balance(to) + amount);
    EntryAtMostSum(l.balances, to);
  }

  lemma MovingKeepsSum(balances: map<Address, nat>, from: Address, to: Address, amount: nat)
    requires amount <= Get(balances, from)
    ensures var debited := balances[from := Get(balances, from) - amount];
            Sum(debited[to := Get(debited, to) + amount]) == Sum(balances)
  {
    var debited := balances[from := Get(balances, from) - amount];
    SumUpdate(balances, from, Get(balances, from) - amount);
    SumUpdate(debited, to, Get(debited, to) + amount);
  }

  lemma TransferConserves(l: Ledger, spender: Address, from: Address, to: Address, amount: nat)
    requires l.Conserved() && l.Transferable(spender, from, amount)
    ensures l.Transferred(spender, from, to, amount).Conserved()
  {
    MovingKeepsSum(l.balances, from, to, amount);
  }

  /** What a transfer does to each account, a transfer to oneself included. */
  lemma TransferMoves(l: Ledger, spender: Address, from: Address, to: Address, amount: nat)
    requires l.Transferable(spender, from, amount)
    ensures var l' := l.Transferred(spender, from, to, amount);
            && (from != to ==> l'.Balance(from) == l.Balance(from) - amount
                               && l'.Balance(to) == l.Balance(to) + amount)
            && (from == to ==> l'.Balance(from) == l.Balance(from))
            && (forall k: Address | k != from && k != to :: l'.Balance(k) == l.Balance(k))
            && (forall o: Address, s: Address | (o, s) != (from, spender) :: l'.Allowance(o, s) == l.Allowance(o, s))
  {
  }

  /** Minting credits one account, and approving sets one allowance. */
  lemma MintAndApproveMove(l: Ledger, to: Address, amount: nat, owner: Address, spender: Address)
    ensures forall k: Address :: l.Minted(to, amount).Balance(k) == l.Balance(k) + if k == to then amount else 0
    ensures forall o: Address, s: Address :: l.Minted(to, amount).Allowance(o, s) == l.Allowance(o, s)
    ensures forall k: Address :: l.Approved(owner, spender, amount).Balance(k) == l.Balance(k)
    ensures forall o: Address, s: Address ::
              l.Approved(owner, spender, amount).Allowance(o, s) == if (o, s) == (owner, spender) then amount else l.Allowance(o, s)
  {
  }

  /** With conservation, the modular arithmetic of the transfer is ordinary arithmetic. */
  lemma UncheckedIsExact(l: Ledger, spender: Address, from: Address, to: Address, amount: nat)
    requires l.Conserved() && l.Transferable(spender, from, amount)
    ensures Sub256(l.Allowance(from, spender), amount) == l.Allowance(from, spender) - amount
    ensures Sub256(l.Balance(from), amount) == l.Balance(from) - amount
    ensures var debited := l.balances[from := l.Balance(from) - amount];
            Add256(Get(debited, to), amount) == Get(debited, to) + amount
  {
    var debited := l.balances[from := l.Balance(from) - amount];
    EntryAtMostSum(l.balances, from);
    EntryAtMostSum(l.balances, to);
    WordsInRange(l.Allowance(from, spender), amount);
    WordsInRange(l.Balance(from), amount);
    WordsInRange(Get(debited, to), amount);
    TransferConserves(l, spender, from, to, amount);
    EntryAtMostSum(l.Transferred(spender, from, to, amount).balances, to);
  }

  /** What the unchecked block writes, as written. */
  function Unchecked(l: Ledger, spender: Address, from: Address, to: Address, amount: nat): Ledger {
    var a := l.Allowance(from, spender);
    var debited := l.balances[from := Sub256(l.Balance(from), amount)];
    l.(allowances := if a == MAX_UINT then l.allowances else l.allowances[(from, spender) := Sub256(a, amount)],
       balances := debited[to := Add256(Get(debited, to), amount)])
  }

  /** Under conservation it is the exact transfer, which keeps conservation. */
  lemma UncheckedTransfers(l: Ledger, spender: Address, from: Address, to: Address, amount: nat)
    requires l.Conserved() && l.Transferable(spender, from, amount)
    ensures Unchecked(l, spender, from, to, amount) == l.Transferred(spender, from, to, amount)
    ensures l.Transferred(spender, from, to, amount).Conserved()
  {
    UncheckedIsExact(l, spender, from, to, amount);
    TransferConserves(l, spender, from, to, amount);
  }

  class MockERC20 {
    var balanceOf: map<Address, nat>
    var allowance: map<(Address, Address), nat>
    var totalSupply: nat
    var transferFromFails: bool

    function Snapshot(): Ledger
      reads this
    {
      Ledger(balanceOf, allowance, totalSupply, transferFromFails)
    }

    ghost predicate Valid()
      reads this
    {
      Snapshot().Conserved()
    }

    constructor ()
      ensures Valid()
      ensures Snapshot() == Ledger(map[], map[], 0, false)
    {
      balanceOf, allowance, totalSupply, transferFromFails := map[], map[], 0, false;
    }

    method SetTransferFromFails(v: bool)
      requires Valid()
      modifies this
      ensures Valid()
      ensures Snapshot() == old(Snapshot()).(frozen := v)
    {
      transferFromFails := v;
    }

    /** Both additions are checked; a revert undoes the first. */
    method Mint(to: Address, amount: nat) returns (ok: bool)
      requires Valid() && amount <= MAX_UINT
      modifies this
      ensures Valid()
      ensures ok <==> old(totalSupply) + amount <= MAX_UINT
      ensures Snapshot() == if ok then old(Snapshot()).Minted(to, amount) else old(Snapshot())
    {
      if totalSupply + amount <= MAX_UINT {
        MintConserves(Snapshot(), to, amount);
      }
      var before := balanceOf;
      if Get(balanceOf, to) + amount > MAX_UINT {
        return false;
      }
      balanceOf := balanceOf[to := Get(balanceOf, to) + amount];
      if totalSupply + amount > MAX_UINT {
        balanceOf := before;
        return false;
      }
      totalSupply := totalSupply + amount;
      return true;
    }

    method Approve(sender: Address, spender: Address, amount: nat)
      requires Valid() && amount <= MAX_UINT
      modifies this
      ensures Valid()
      ensures Snapshot() == old(Snapshot()).Approved(sender, spender, amount)
    {
      allowance := allowance[(sender, spender) := amount];
    }

    /** The unchecked block computes modulo 2^256; conservation makes that the exact transfer.
        `reverted` is a failed require, `returned` the boolean the call returns otherwise. */
    method TransferFrom(sender: Address, from: Address, to: Address, amount: nat)
      returns (reverted: bool, returned: bool)
      requires Valid() && amount <= MAX_UINT
      modifies this
      ensures Valid()
      ensures !reverted && returned <==> old(Snapshot()).Transferable(sender, from, amount)
      ensures !reverted && !returned <==> old(transferFromFails)
      ensures Snapshot() == if !reverted && returned
                            then old(Snapshot()).Transferred(sender, from, to, amount)
                            else old(Snapshot())
    {
      if transferFromFails {
        return false, false;
      }
      var a := Get(allowance, (from, sender));
      if a < amount {
        return true, false;
      }
      if Get(balanceOf, from) < amount {
        return true, false;
      }
      UncheckedTransfers(Snapshot(), sender, from, to, amount);
      if a != MAX_UINT {
        allowance := allowance[(from, sender) := Sub256(a, amount)];
      }
      balanceOf := balanceOf[from := Sub256(Get(balanceOf, from), amount)];
      balanceOf := balanceOf[to := Add256(Get(balanceOf, to), amount)];
      assert Snapshot() == Unchecked(old(Snapshot()), sender, from, to, amount);
      return false, true;
    }
  }

  /** The puller contract: `operator` may move approved tokens, and only to the treasury. */
  class Subscriptions {
    var owner: Address
    var operator: Address
    const treasury: Address
    const token: MockERC20
    const self: Address

    constructor Init(sender: Address, self: Address, token: MockERC20, treasury: Address, operator: Address)
      ensures this.owner == sender && this.operator == operator
      ensures this.treasury == treasury && this.token == token && this.self == self
    {
      this.owner := sender;
      this.token := token;
      this.treasury := treasury;
      this.operator := operator;
      this.self := self;
    }

    /** Deployment; a zero token, treasury or operator reverts. */
    static method Deploy(sender: Address, self: Address, token: MockERC20?, treasury: Address, operator: Address)
      returns (c: Subscriptions?)
      ensures c == null <==> token == null || treasury == ZERO_ADDRESS || operator == ZERO_ADDRESS
      ensures c != null ==> fresh(c) && c.owner == sender && c.operator == operator
                            && c.treasury == treasury && c.token == token && c.self == self
    {
      if token == null || treasury == ZERO_ADDRESS || operator == ZERO_ADDRESS {
        return null;
      }
      c := new Subscriptions.Init(sender, self, token, treasury, operator);
    }

    method TransferOwnership(sender: Address, a: Address) returns (ok: bool)
      modifies this
      ensures ok <==> sender == old(owner) && a != ZERO_ADDRESS
      ensures owner == (if ok then a else old(owner)) && operator == old(operator)
    {
      if sender != owner || a == ZERO_ADDRESS {
        return false;
      }
      owner := a;
      return true;
    }

    /** Rotates the operator; the zero address halts every pull. */
    method SetOperator(sender: Address, a: Address) returns (ok: bool)
      modifies this
      ensures ok <==> sender == old(owner)
      ensures operator == (if ok then a else old(operator)) && owner == old(owner)
    {
      if sender != owner {
        return false;
      }
      operator := a;
      return true;
    }

    method Pull(sender: Address, user: Address, amount: nat) returns (ok: bool)
      requires token.Valid() && amount <= MAX_UINT
      modifies token
      ensures token.Valid()
      ensures ok <==> sender == operator && old(token.Snapshot()).Transferable(self, user, amount)
      ensures token.Snapshot() == if ok then old(token.Snapshot()).Transferred(self, user, treasury, amount)
                                  else old(token.Snapshot())
    {
      if sender != operator {
        return false;
      }
      var reverted, returned := token.TransferFrom(self, user, treasury, amount);
      return !reverted && returned;
    }
  }

  // ---------- whole runs of the token and the contract ----------

  datatype Contract = Contract(owner: Address, operator: Address, treasury: Address, self: Address)

  datatype Chain = Chain(contract: Contract, ledger: Ledger)

  /** One transaction. `sender` is the account that signed it. */
  datatype Call =
    | Mint(to: Address, amount: nat)
    | Freeze(value: bool)
    | Approve(sender: Address, spender: Address, amount: nat)
    | TransferFrom(sender: Address, from: Address, to: Address, amount: nat)
    | Pull(sender: Address, user: Address, amount: nat)
    | SetOperator(sender: Address, a: Address)
    | TransferOwnership(sender: Address, a: Address)

  predicate Succeeds(c: Chain, call: Call) {
    match call
    case Mint(_, amount) => c.ledger.totalSupply + amount <= MAX_UINT
    case Freeze(_) => true
    case Approve(_, _, _) => true
    case TransferFrom(sender, from, _, amount) => c.ledger.Transferable(sender, from, amount)
    case Pull(sender, user, amount) =>
      sender == c.contract.operator && c.ledger.Transferable(c.contract.self, user, amount)
    case SetOperator(sender, _) => sender == c.contract.owner
    case TransferOwnership(sender, a) => sender == c.contract.owner && a != ZERO_ADDRESS
  }

  function Step(c: Chain, call: Call): Chain {
    if !Succeeds(c, call) then c
    else match call
      case Mint(to, amount) => c.(ledger := c.ledger.Minted(to, amount))
      case Freeze(v) => c.(ledger := c.ledger.(frozen := v))
      case Approve(sender, spender, amount) => c.(ledger := c.ledger.Approved(sender, spender, amount))
      case TransferFrom(sender, from, to, amount) =>
        c.(ledger := c.ledger.Transferred(sender, from, to, amount))
      case Pull(_, user, amount) =>
        c.(ledger := c.ledger.Transferred(c.contract.self, user, c.contract.treasury, amount))
      case SetOperator(_, a) => c.(contract := c.contract.(operator := a))
      case TransferOwnership(_, a) => c.(contract := c.contract.(owner := a))
  }

  /** Arguments are uint256, the zero address signs nothing, and a contract account signs nothing
      itself: it spends allowances only through its own pull. */
  predicate WellFormed(call: Call, self: Address) {
    match call
    case Mint(_, amount) => amount <= MAX_UINT
    case Approve(sender, _, amount) => sender != ZERO_ADDRESS && sender != self && amount <= MAX_UINT
    case TransferFrom(sender, _, _, amount) => sender != ZERO_ADDRESS && sender != self && amount <= MAX_UINT
    case Pull(sender, _, amount) => sender != ZERO_ADDRESS && sender != self && amount <= MAX_UINT
    case SetOperator(sender, _) => sender != ZERO_ADDRESS && sender != self
    case TransferOwnership(sender, _) => sender != ZERO_ADDRESS && sender != self
    case Freeze(_) => true
  }

  predicate WellFormedRun(calls: seq<Call>, self: Address) {
    forall i | 0 <= i < |calls| :: WellFormed(calls[i], self)
  }

  function Run(c: Chain, calls: seq<Call>): Chain {
    if calls == [] then c else Step(Run(c, calls[..|calls| - 1]), calls[|calls| - 1])
  }

  function Deployed(contract: Contract): Chain {
    Chain(contract, Ledger(map[], map[], 0, false))
  }

  lemma StepConserves(c: Chain, call: Call)
    requires c.ledger.Conserved() && WellFormed(call, c.contract.self)
    ensures Step(c, call).ledger.Conserved()
  {
    if Succeeds(c, call) {
      match call
      case Mint(to, amount) => MintConserves(c.ledger, to, amount);
      case TransferFrom(sender, from, to, amount) => TransferConserves(c.ledger, sender, from, to, amount);
      case Pull(_, user, amount) =>
        TransferConserves(c.ledger, c.contract.self, user, c.contract.treasury, amount);
      case _ =>
    }
  }

  /** In every run from deployment the balances sum to the supply, which stays below 2^256; the
      treasury and the contract's address never change. */
  lemma {:induction false} RunConserves(contract: Contract, calls: seq<Call>)
    requires WellFormedRun(calls, contract.self)
    ensures Run(Deployed(contract), calls).ledger.Conserved()
    ensures Run(Deployed(contract), calls).contract.treasury == contract.treasury
    ensures Run(Deployed(contract), calls).contract.self == contract.self
  {
    if calls != [] {
      var c := Run(Deployed(contract), calls[..|calls| - 1]);
      RunConserves(contract, calls[..|calls| - 1]);
      StepConserves(c, calls[|calls| - 1]);
    }
  }

  /** The amount a user approved for the contract in the latest such approval. */
  function LastApproved(calls: seq<Call>, user: Address, self: Address): nat {
    if calls == [] then 0
    else match calls[|calls| - 1]
      case Approve(sender, spender, amount) =>
        if sender == user && spender == self then amount else LastApproved(calls[..|calls| - 1], user, self)
      case _ => LastApproved(calls[..|calls| - 1], user, self)
  }

  /** What the contract has pulled from the user since then. */
  function PulledSince(c: Chain, calls: seq<Call>, user: Address): nat {
    if calls == [] then 0
    else
      var before := calls[..|calls| - 1];
      match calls[|calls| - 1]
      case Approve(sender, spender, _) =>
        if sender == user && spender == c.contract.self then 0 else PulledSince(c, before, user)
      case Pull(_, u, amount) =>
        PulledSince(c, before, user)
        + (if u == user && Succeeds(Run(c, before), calls[|calls| - 1]) then amount else 0)
      case _ => PulledSince(c, before, user)
  }

  /** Only the user's own approval and the contract's pull touch the contract's allowance. */
  lemma AllowanceStep(c: Chain, call: Call, user: Address)
    requires WellFormed(call, c.contract.self)
    ensures var self := c.contract.self;
            var a := c.ledger.Allowance(user, self);
            var a' := Step(c, call).ledger.Allowance(user, self);
            match call
            case Approve(sender, spender, amount) => a' == if sender == user && spender == self then amount else a
            case Pull(_, u, amount) =>
              if u == user && Succeeds(c, call) then amount <= a && a' == (if a == MAX_UINT then a else a - amount)
              else a' == a
            case _ => a' == a
  {
  }

  /** An approval is a budget: what was pulled since plus what remains is what was approved, unless
      the approval was the maximum, which never runs down. */
  lemma {:induction false} AllowanceIsABudget(contract: Contract, calls: seq<Call>, user: Address)
    requires WellFormedRun(calls, contract.self)
    ensures var approved := LastApproved(calls, user, contract.self);
            var left := Run(Deployed(contract), calls).ledger.Allowance(user, contract.self);
            if approved == MAX_UINT then left == MAX_UINT
            else left + PulledSince(Deployed(contract), calls, user) == approved
    ensures LastApproved(calls, user, contract.self) <= MAX_UINT
  {
    if calls != [] {
      var c := Run(Deployed(contract), calls[..|calls| - 1]);
      AllowanceIsABudget(contract, calls[..|calls| - 1], user);
      RunConserves(contract, calls[..|calls| - 1]);
      AllowanceStep(c, calls[|calls| - 1], user);
    }
  }

  function WithoutPulls(calls: seq<Call>): seq<Call> {
    if calls == [] then []
    else
      var last := calls[|calls| - 1];
      WithoutPulls(calls[..|calls| - 1]) + (if last.Pull? then [] else [last])
  }

  lemma RunOneMore(c: Chain, calls: seq<Call>, call: Call)
    ensures Run(c, calls + [call]) == Step(Run(c, calls), call)
  {
    assert (calls + [call])[..|calls|] == calls;
  }

  /** From the rotation of the operator to the zero address until the next rotation, a run is the same
      as without its pulls, whoever signs them. */
  lemma {:induction false} HaltedRunPullsNothing(c: Chain, calls: seq<Call>)
    requires c.contract.operator == ZERO_ADDRESS && WellFormedRun(calls, c.contract.self)
    requires forall i | 0 <= i < |calls| :: !calls[i].SetOperator?
    ensures Run(c, calls) == Run(c, WithoutPulls(calls)) && Run(c, calls).contract.operator == ZERO_ADDRESS
    ensures Run(c, calls).contract.self == c.contract.self
  {
    if calls != [] {
      var init, last := calls[..|calls| - 1], calls[|calls| - 1];
      HaltedRunPullsNothing(c, init);
      if last.Pull? {
        assert WithoutPulls(calls) == WithoutPulls(init) + [] == WithoutPulls(init);
      } else {
        RunOneMore(c, WithoutPulls(init), last);
      }
    }
  }
}
