/** Payments at checkout: one key per transaction hash, and the conservation of what completed
    sessions cost against what the chain shows was paid. */
module Payments {
  import opened Records
  import opened Text
  import opened Token

  // ---------- transaction hashes as text ----------

  /** Unicode white space. */
  predicate IsSpace(c: char) {
    var n := c as int;
    (9 <= n <= 13) || n == 32 || n == 0x85 || n == 0xA0 || n == 0x1680 || (0x2000 <= n <= 0x200A)
    || n == 0x2028 || n == 0x2029 || n == 0x202F || n == 0x205F || n == 0x3000
  }

  function TrimLeft(s: string): string {
    if s != "" && IsSpace(s[0]) then TrimLeft(s[1..]) else s
  }

  function TrimRight(s: string): string {
    if s != "" && IsSpace(s[|s| - 1]) then TrimRight(s[..|s| - 1]) else s
  }

  function TrimSpace(s: string): string {
    TrimRight(TrimLeft(s))
  }

  function NormalizeHash(h: string): string {
    var t := TrimSpace(Lower(h));
    if "0x" <= t then t else "0x" + t
  }

  predicate IsHashLike(h: string) {
    |h| == 66 && "0x" <= h && AllDigits(Lower(h[2..]), 16)
  }

  /** The 32 bytes a hash names, as a number. */
  function HashNumber(h: string): nat
    requires IsHashLike(h)
  {
    ValueOf(Lower(h[2..]), 16)
  }

  predicate Canonical(h: string) {
    IsHashLike(h) && Lower(h) == h
  }

  /** The whole pairs of hex digits a text begins with, as far as they go. */
  function HexPairs(s: string): (r: string)
    ensures |r| <= |s| && AllDigits(Lower(r), 16)
  {
    if |s| < 2 || !IsDigit(LowerChar(s[0]), 16) || !IsDigit(LowerChar(s[1]), 16) then ""
    else
      var r := s[..2] + HexPairs(s[2..]);
      LowerConcat(s[..2], HexPairs(s[2..]));
      r
  }

  /** The 32 bytes the handler asks the chain for, whatever the text: an odd text is padded with a zero
      in front, what follows the last whole pair of digits is dropped, and the last 32 bytes count. */
  function HexToHash(text: string): nat {
    ValueOf(Lower(HexPairs(HexBody(text))), 16) % Pow(16, 64)
  }

  function HexBody(text: string): string {
    var body := if |text| >= 2 && text[0] == '0' && (text[1] == 'x' || text[1] == 'X') then text[2..] else text;
    if |body| % 2 == 1 then "0" + body else body
  }

  lemma {:induction false} HexPairsOfDigits(s: string)
    requires |s| % 2 == 0 && AllDigits(Lower(s), 16)
    ensures HexPairs(s) == s
  {
    if s != "" {
      var rest := s[2..];
      assert IsDigit(Lower(s)[0], 16) && IsDigit(Lower(s)[1], 16);
      assert forall i | 0 <= i < |rest| :: Lower(rest)[i] == Lower(s)[i + 2];
      HexPairsOfDigits(rest);
      assert s == s[..2] + rest;
    }
  }

  lemma BelowModulus(n: nat, m: nat)
    requires n < m
    ensures n % m == n
  {
  }

  lemma HexBodyOfHash(h: string)
    requires IsHashLike(h)
    ensures HexBody(h) == h[2..] && |h[2..]| == 64
  {
    assert h[0] == "0x"[0] && h[1] == "0x"[1];
  }

  /** On a hash text it is the 32 bytes the text names. */
  lemma HexToHashOfHash(h: string)
    requires IsHashLike(h)
    ensures HexToHash(h) == HashNumber(h)
  {
    HexBodyOfHash(h);
    HexPairsOfDigits(h[2..]);
    ValueFitsWidth(Lower(h[2..]), 16);
    BelowModulus(HashNumber(h), Pow(16, 64));
  }

  lemma {:induction false} TrimLeftKeepsLower(s: string)
    requires Lower(s) == s
    ensures Lower(TrimLeft(s)) == TrimLeft(s)
  {
    if s != "" && IsSpace(s[0]) {
      assert forall i | 0 <= i < |s[1..]| :: LowerChar(s[1..][i]) == Lower(s)[i + 1];
      assert Lower(s[1..]) == s[1..];
      TrimLeftKeepsLower(s[1..]);
    }
  }

  lemma {:induction false} TrimRightKeepsLower(s: string)
    requires Lower(s) == s
    ensures Lower(TrimRight(s)) == TrimRight(s)
  {
    if s != "" && IsSpace(s[|s| - 1]) {
      var init := s[..|s| - 1];
      assert forall i | 0 <= i < |init| :: LowerChar(init[i]) == Lower(s)[i];
      assert Lower(init) == init;
      TrimRightKeepsLower(init);
    }
  }

  lemma NormalizedIsLower(h: string)
    ensures Lower(NormalizeHash(h)) == NormalizeHash(h)
  {
    LowerTwice(h);
    TrimLeftKeepsLower(Lower(h));
    TrimRightKeepsLower(TrimLeft(Lower(h)));
    LowerConcat("0x", TrimSpace(Lower(h)));
    assert Lower("0x") == "0x";
  }

  lemma CanonicalDigits(h: string)
    requires Canonical(h)
    ensures h == "0x" + Digits(HashNumber(h), 16, 64) && HashNumber(h) < Pow(16, 64)
  {
    var d := h[2..];
    assert forall i | 0 <= i < |d| :: Lower(d)[i] == Lower(h)[i + 2];
    assert Lower(d) == d;
    DigitsOfValue(d, 16);
    assert h == h[..2] + d && h[..2] == "0x";
  }

  /** After normalising, two hash texts are the same key exactly when they name the same 32 bytes;
      the store's own lower-casing changes nothing more. */
  lemma OneKeyPerHash(a: string, b: string)
    requires IsHashLike(NormalizeHash(a)) && IsHashLike(NormalizeHash(b))
    ensures NormalizeHash(a) == NormalizeHash(b) <==> HashNumber(NormalizeHash(a)) == HashNumber(NormalizeHash(b))
    ensures Canonical(NormalizeHash(a))
  {
    NormalizedIsLower(a);
    NormalizedIsLower(b);
    CanonicalDigits(NormalizeHash(a));
    CanonicalDigits(NormalizeHash(b));
  }

  lemma {:induction false} TrimRightKeepsFront(s: string, n: nat)
    requires 0 < n <= |s| && !IsSpace(s[n - 1])
    ensures s[..n] <= TrimRight(s)
    decreases |s|
  {
    if IsSpace(s[|s| - 1]) {
      assert s[..|s| - 1][..n] == s[..n];
      TrimRightKeepsFront(s[..|s| - 1], n);
    }
  }

  /** Normalising is only lower-casing exactly for a text with the prefix and no white space around it. */
  lemma NormalizedAsItIs(h: string)
    ensures NormalizeHash(h) == Lower(h) <==> TrimSpace(Lower(h)) == Lower(h) && "0x" <= Lower(h)
  {
    var l := Lower(h);
    if "0x" <= l {
      assert l[0] == "0x"[0] && l[1] == "0x"[1];
      TrimRightKeepsFront(l, 2);
      assert "0x" == l[..2] <= TrimSpace(l);
    }
  }

  predicate AllSpaces(s: string) {
    forall c | c in s :: IsSpace(c)
  }

  lemma {:induction false} TrimLeftSpaces(spaces: string, s: string)
    requires AllSpaces(spaces) && (s == "" || !IsSpace(s[0]))
    ensures TrimLeft(spaces + s) == s
  {
    if spaces != "" {
      assert (spaces + s)[1..] == spaces[1..] + s;
      TrimLeftSpaces(spaces[1..], s);
    } else {
      assert spaces + s == s;
    }
  }

  lemma {:induction false} TrimRightSpaces(s: string, spaces: string)
    requires AllSpaces(spaces) && (s == "" || !IsSpace(s[|s| - 1]))
    ensures TrimRight(s + spaces) == s
  {
    if spaces != "" {
      var k := |spaces| - 1;
      assert (s + spaces)[..|s + spaces| - 1] == s + spaces[..k] && (s + spaces)[|s + spaces| - 1] == spaces[k];
      TrimRightSpaces(s, spaces[..k]);
    } else {
      assert s + spaces == s;
    }
  }

  lemma LowerSpaces(s: string)
    requires AllSpaces(s)
    ensures Lower(s) == s
  {
    forall i | 0 <= i < |s| ensures LowerChar(s[i]) == s[i] {
      assert s[i] in s;
    }
  }

  lemma TrimmedLower(before: string, h: string, after: string)
    requires AllSpaces(before) && AllSpaces(after) && h != ""
    requires !IsSpace(Lower(h)[0]) && !IsSpace(Lower(h)[|h| - 1])
    ensures TrimSpace(Lower(before + h + after)) == Lower(h)
  {
    LowerConcat(before + h, after);
    LowerConcat(before, h);
    LowerSpaces(before);
    LowerSpaces(after);
    assert Lower(before + h + after) == before + (Lower(h) + after);
    TrimLeftSpaces(before, Lower(h) + after);
    TrimRightSpaces(Lower(h), after);
  }

  lemma Spelled(d: string, before: string, h: string, after: string)
    requires |d| == 64 && AllDigits(d, 16) && AllSpaces(before) && AllSpaces(after)
    requires Lower(h) == d || Lower(h) == "0x" + d
    ensures NormalizeHash(before + h + after) == "0x" + d
  {
    assert IsDigit(d[0], 16) && IsDigit(d[1], 16) && IsDigit(d[63], 16);
    assert Lower(h)[|h| - 1] == d[63];
    TrimmedLower(before, h, after);
  }

  /** Every spelling of a hash is normalised to the one key: in either case, with the prefix or without,
      and with white space around it. */
  lemma OneKeyPerSpelling(n: nat, before: string, h: string, after: string)
    requires n < Pow(16, 64) && AllSpaces(before) && AllSpaces(after)
    requires Lower(h) == Digits(n, 16, 64) || Lower(h) == "0x" + Digits(n, 16, 64)
    ensures NormalizeHash(before + h + after) == "0x" + Digits(n, 16, 64)
  {
    DigitsAreDigits(n, 16, 64);
    Spelled(Digits(n, 16, 64), before, h, after);
  }

  lemma LowerDigits(s: string)
    requires AllDigits(s, 16)
    ensures Lower(s) == s
  {
    forall i | 0 <= i < |s| ensures LowerChar(s[i]) == s[i] {
      assert IsDigit(s[i], 16);
    }
  }

  /** Every 32-byte hash has a key. */
  lemma EveryHashHasAKey(n: nat)
    requires n < Pow(16, 64)
    ensures Canonical("0x" + Digits(n, 16, 64)) && HashNumber("0x" + Digits(n, 16, 64)) == n
  {
    var d := Digits(n, 16, 64);
    var h := "0x" + d;
    ValueOfDigits(n, 16, 64);
    LowerDigits(d);
    LowerConcat("0x", d);
    assert Lower("0x") == "0x" && h[2..] == d;
  }

  /** The lower-case text of an address. */
  function AddressText(a: Address): string {
    "0x" + Digits(a.number, 16, 40)
  }

  lemma AddressTextIsLower(a: Address)
    ensures Lower(AddressText(a)) == AddressText(a)
  {
    var d := Digits(a.number, 16, 40);
    DigitsAreDigits(a.number, 16, 40);
    LowerDigits(d);
    LowerConcat("0x", d);
    assert Lower("0x") == "0x";
  }

  lemma AddressTextNamesIt(a: Address, b: Address)
    requires a.number < Pow(16, 40) && b.number < Pow(16, 40)
    ensures AddressText(a) == AddressText(b) <==> a == b
  {
    ValueOfDigits(a.number, 16, 40);
    ValueOfDigits(b.number, 16, 40);
    assert AddressText(a)[2..] == Digits(a.number, 16, 40) && AddressText(b)[2..] == Digits(b.number, 16, 40);
  }

  // ---------- what the chain shows ----------

  /** A Transfer event; other events are left out of a receipt's list. */
  datatype Log = Log(emitter: Address, from: Address, to: Address, value: nat)

  datatype TransferCall = TransferCall(to: Address, value: nat)

  /** A mined transaction with its receipt: its calldata decoded as transfer() or as approve(). */
  datatype ChainTx = ChainTx(
    from: Address,
    to: Option<Address>,
    transfer: Option<TransferCall>,
    approved: Option<Address>,
    success: bool,
    block: nat,
    logs: seq<Log>)

  /** The token the service takes and the address it is paid to. */
  datatype Terms = Terms(token: Address, treasury: Address)

  /** A successful direct transfer of the token to the treasury. */
  predicate IsPayment(terms: Terms, tx: ChainTx) {
    tx.success && tx.to == Some(terms.token) && tx.transfer.Some? && tx.transfer.value.to == terms.treasury
  }

  predicate Pays(terms: Terms, tx: ChainTx, price: int) {
    IsPayment(terms, tx) && tx.transfer.value.value == price
  }

  predicate Matches(l: Log, token: Address, value: int) {
    l.emitter == token && l.value == value
  }

  /** The first Transfer event of the token with the expected value. */
  method DecodeTransferLog(logs: seq<Log>, token: Address, value: int) returns (found: Option<Log>)
    ensures found.None? ==> forall l | l in logs :: !Matches(l, token, value)
    ensures found.Some? ==>
              exists i :: 0 <= i < |logs| && logs[i] == found.value && Matches(logs[i], token, value)
                          && forall j | 0 <= j < i :: !Matches(logs[j], token, value)
  {
    for i := 0 to |logs|
      invariant forall j | 0 <= j < i :: !Matches(logs[j], token, value)
    {
      if logs[i].emitter != token {
        continue;
      }
      if logs[i].value != value {
        continue;
      }
      return Some(logs[i]);
    }
    return None;
  }

  /** The chain backs a price with the transaction of a hash, sent by a wallet; the event is asked for
      unless an operator vouches for the wallet. */
  predicate BackedBy(terms: Terms, mined: map<nat, ChainTx>, hash: string, wallet: string, price: int, byOperator: bool) {
    && Canonical(hash) && HashNumber(hash) in mined
    && var tx := mined[HashNumber(hash)];
    && Pays(terms, tx, price) && wallet == AddressText(tx.from)
    && (byOperator || exists l :: l in tx.logs && Matches(l, terms.token, price) && l.from == tx.from && l.to == terms.treasury)
  }
}
