/** How far an approval reaches: the allowance a user is asked for, and the low-allowance warning. */
module Coverage {
  import opened Records
  import opened Sums
  import opened Token

  /** The recommended number of periods: six times the warning threshold, at least twelve. */
  function RecommendedPeriods(lowMonths: int): (periods: int)
    ensures 12 <= periods
  {
    if lowMonths * 6 < 12 then 12 else lowMonths * 6
  }

  /** What the user is asked to approve; nothing is asked when the price does not parse, and a
      pending charge that does not parse is left out. */
  function RequiredAllowance(price: Decimal, pending: Option<Decimal>, periods: int): Option<int> {
    if price.Malformed? then None
    else if pending.Some? && pending.value.Atomic? then Some(price.value * periods + pending.value.value)
    else Some(price.value * periods)
  }

  predicate WarnsLow(allowance: nat, price: Decimal, lowMonths: int) {
    lowMonths != 0 && price.Atomic? && price.value > 0 && allowance < price.value * lowMonths
  }

  /** The number of periods the warning reports as remaining. */
  function RemainingPeriods(allowance: nat, price: nat): nat
    requires price > 0
  {
    allowance / price
  }

  /** The contract at `self` pulls these amounts from the user, one after the other. */
  predicate AllPulled(l: Ledger, self: Address, treasury: Address, user: Address, amounts: seq<nat>)
    decreases |amounts|
  {
    amounts == []
    || (l.Transferable(self, user, amounts[0])
        && AllPulled(l.Transferred(self, user, treasury, amounts[0]), self, treasury, user, amounts[1..]))
  }

  predicate Affordable(l: Ledger, treasury: Address, user: Address, amounts: seq<nat>) {
    if user == treasury then forall i | 0 <= i < |amounts| :: amounts[i] <= l.Balance(user)
    else Total(amounts) <= l.Balance(user)
  }

  /** A series of pulls goes through exactly when the token is not frozen, the allowance covers the
      total (or is the maximum), and the balance can pay. */
  lemma {:induction false} AllPulledIff(l: Ledger, self: Address, treasury: Address, user: Address, amounts: seq<nat>)
    requires l.Allowance(user, self) <= MAX_UINT
    requires forall i | 0 <= i < |amounts| :: amounts[i] <= MAX_UINT
    ensures AllPulled(l, self, treasury, user, amounts)
            <==> amounts == []
                 || (!l.frozen
                     && (l.Allowance(user, self) == MAX_UINT || Total(amounts) <= l.Allowance(user, self))
                     && Affordable(l, treasury, user, amounts))
    decreases |amounts|
  {
    if amounts != [] && l.Transferable(self, user, amounts[0]) {
      var next := l.Transferred(self, user, treasury, amounts[0]);
      TransferMoves(l, self, user, treasury, amounts[0]);
      AllPulledIff(next, self, treasury, user, amounts[1..]);
      AffordableAfterFirst(l, self, treasury, user, amounts);
    }
  }

  lemma AffordableAfterFirst(l: Ledger, self: Address, treasury: Address, user: Address, amounts: seq<nat>)
    requires amounts != [] && l.Transferable(self, user, amounts[0])
    ensures Affordable(l, treasury, user, amounts)
            <==> Affordable(l.Transferred(self, user, treasury, amounts[0]), treasury, user, amounts[1..])
  {
    assert forall i | 0 < i < |amounts| :: amounts[i] == amounts[1..][i - 1];
  }

  lemma RepeatedAffordable(l: Ledger, treasury: Address, user: Address, price: nat, times: nat)
    requires price * times <= l.Balance(user)
    ensures Affordable(l, treasury, user, Repeated(price, times))
  {
    TotalRepeated(price, times);
    if times > 0 {
      assert price <= price * times;
    }
  }

  lemma {:induction false} ProductUp(price: nat, n: nat)
    ensures price * (n + 1) == price * n + price
    ensures n > 0 ==> price <= price * n
  {
    if n > 0 {
      ProductUp(price, n - 1);
    }
  }

  lemma PendingThenPeriods(pending: nat, price: nat, n: nat)
    ensures Total([pending] + Repeated(price, n)) == price * n + pending
    ensures forall i | 0 <= i < n + 1 :: ([pending] + Repeated(price, n))[i] <= price * n + pending
  {
    var s := [pending] + Repeated(price, n);
    assert s[1..] == Repeated(price, n);
    TotalRepeated(price, n);
    ProductUp(price, n);
  }

  /** After approving an amount, the pending charge and then n regular pulls go through exactly when the
      amount covers them or is the maximum, and the balance can pay. */
  lemma PulledFromApproval(l: Ledger, self: Address, treasury: Address, user: Address, price: nat, pending: nat, n: nat, approved: nat)
    requires !l.frozen && approved <= MAX_UINT && price <= MAX_UINT && pending <= MAX_UINT
    ensures AllPulled(l.Approved(user, self, approved), self, treasury, user, [pending] + Repeated(price, n))
            <==> (approved == MAX_UINT || price * n + pending <= approved)
                 && Affordable(l, treasury, user, [pending] + Repeated(price, n))
  {
    var after, amounts := l.Approved(user, self, approved), [pending] + Repeated(price, n);
    PendingThenPeriods(pending, price, n);
    assert forall i | 0 <= i < |amounts| :: amounts[i] == if i == 0 then pending else price;
    AllPulledIff(after, self, treasury, user, amounts);
  }

  lemma BalanceCovers(l: Ledger, treasury: Address, user: Address, price: nat, pending: nat, n: nat)
    requires price * n + pending <= l.Balance(user)
    ensures Affordable(l, treasury, user, [pending] + Repeated(price, n))
  {
    PendingThenPeriods(pending, price, n);
  }

  lemma OnePullMore(l: Ledger, self: Address, treasury: Address, user: Address, price: nat, pending: nat, n: nat)
    requires !l.frozen && price <= MAX_UINT && price * n + pending <= MAX_UINT
    ensures var oneMore := AllPulled(l.Approved(user, self, price * n + pending), self, treasury, user, [pending] + Repeated(price, n + 1));
            && (oneMore ==> price * n + pending == MAX_UINT || price == 0)
            && ((price * n + pending == MAX_UINT || price == 0) && price * (n + 1) + pending <= l.Balance(user) ==> oneMore)
  {
    ProductUp(price, n);
    PulledFromApproval(l, self, treasury, user, price, pending, n + 1, price * n + pending);
    if price * (n + 1) + pending <= l.Balance(user) {
      BalanceCovers(l, treasury, user, price, pending, n + 1);
    }
  }

  /** Approving what is asked for n periods lets the pending charge and then n regular pulls
      through, for every n. One pull more goes through only if the approval was the maximum or the
      plan is free, and then it does on a sufficient balance. */
  lemma RequiredCovers(l: Ledger, self: Address, treasury: Address, user: Address, price: nat, pending: nat, n: nat)
    requires !l.frozen && price <= MAX_UINT
    requires price * n + pending <= MAX_UINT && price * n + pending <= l.Balance(user)
    ensures RequiredAllowance(Atomic(price), Some(Atomic(pending)), n) == Some(price * n + pending)
    ensures var approved := l.Approved(user, self, price * n + pending);
            var oneMore := AllPulled(approved, self, treasury, user, [pending] + Repeated(price, n + 1));
            && AllPulled(approved, self, treasury, user, [pending] + Repeated(price, n))
            && (oneMore ==> price * n + pending == MAX_UINT || price == 0)
            && ((price * n + pending == MAX_UINT || price == 0) && price * (n + 1) + pending <= l.Balance(user) ==> oneMore)
  {
    BalanceCovers(l, treasury, user, price, pending, n);
    PulledFromApproval(l, self, treasury, user, price, pending, n, price * n + pending);
    OnePullMore(l, self, treasury, user, price, pending, n);
  }

  /** The recommended approval covers twelve periods, or six times the warning's threshold. After it and
      k regular pulls the warning fires exactly from the pull on that leaves fewer than the threshold:
      the twelfth, or the first after five times the threshold. */
  lemma RecommendedOutlastsWarning(price: nat, pending: Option<Decimal>, lowMonths: nat, k: nat)
    requires price > 0 && lowMonths > 0 && k <= RecommendedPeriods(lowMonths)
    ensures var n := if lowMonths == 1 then 12 else 6 * lowMonths;
            var extra := if pending.Some? && pending.value.Atomic? then pending.value.value else 0;
            && RequiredAllowance(Atomic(price), pending, RecommendedPeriods(lowMonths)) == Some(price * n + extra)
            && k <= n
            && (WarnsLow(price * (n - k), Atomic(price), lowMonths) <==> (if lowMonths == 1 then 12 else 5 * lowMonths + 1) <= k)
  {
    var left := RecommendedPeriods(lowMonths) - k;
    QuotientBound(price * left, price, lowMonths);
    assert price * left / price == left by {
      QuotientBound(price * left, price, left);
      QuotientBound(price * left, price, left + 1);
      ProductUp(price, left);
    }
  }

  /** With balance to spare and a finite allowance, exactly the reported number of further pulls
      would succeed. */
  lemma RemainingIsExact(l: Ledger, self: Address, treasury: Address, user: Address, price: nat, k: nat)
    requires !l.frozen && price > 0 && price * k <= l.Balance(user)
    requires l.Allowance(user, self) < MAX_UINT && price <= MAX_UINT
    ensures AllPulled(l, self, treasury, user, Repeated(price, k))
            <==> k <= RemainingPeriods(l.Allowance(user, self), price)
  {
    var a := l.Allowance(user, self);
    AllPulledIff(l, self, treasury, user, Repeated(price, k));
    RepeatedAffordable(l, treasury, user, price, k);
    TotalRepeated(price, k);
    QuotientBound(a, price, k);
  }

  lemma QuotientBound(a: nat, price: nat, k: nat)
    requires price > 0
    ensures price * k <= a <==> k <= a / price
  {
    var q := a / price;
    assert a == price * q + a % price;
    if k <= q {
      assert price * k <= price * q;
    } else {
      assert price * (q + 1) <= price * k;
    }
  }

  /** The warning fires exactly when fewer further pulls than the threshold would succeed. */
  lemma WarningIsExact(l: Ledger, self: Address, treasury: Address, user: Address, price: nat, lowMonths: nat)
    requires !l.frozen && price > 0 && price * lowMonths <= l.Balance(user)
    requires l.Allowance(user, self) < MAX_UINT && price <= MAX_UINT
    ensures WarnsLow(l.Allowance(user, self), Atomic(price), lowMonths)
            <==> !AllPulled(l, self, treasury, user, Repeated(price, lowMonths))
    ensures WarnsLow(l.Allowance(user, self), Atomic(price), lowMonths)
            <==> RemainingPeriods(l.Allowance(user, self), price) < lowMonths
  {
    RemainingIsExact(l, self, treasury, user, price, lowMonths);
    QuotientBound(l.Allowance(user, self), price, lowMonths);
  }

  /** An unlimited allowance is never warned about, short of a threshold past 256 bits. */
  lemma UnlimitedIsNotLow(price: nat, lowMonths: nat)
    ensures WarnsLow(MAX_UINT, Atomic(price), lowMonths) <==> MAX_UINT < price * lowMonths
  {
    assert price == 0 ==> price * lowMonths == 0;
  }
}
