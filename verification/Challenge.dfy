/** The message a wallet signs at checkout: its printed form, and the parser that reads it back. */
module Challenges {
  import opened Records
  import opened Calendar
  import opened Text

  datatype Challenge = Challenge(
    prefix: string, sessionId: string, planId: string, wallet: string, contract: string, chainId: int, issued: Instant)

  datatype Malformation =
    | TooFewLines
    | SecondLineNotBlank
    | NoSeparator(line: string)
    | UnknownField(key: string)
    | MissingField
    | BadChain
    | BadIssued

  const MAX_INT64: int := 0x7FFF_FFFF_FFFF_FFFF
  const MIN_INT64: int := -0x8000_0000_0000_0000

  // ---------- printing ----------

  function FormatInt(n: int): string {
    if n < 0 then "-" + Text.Decimal(-n) else Text.Decimal(n)
  }

  function FormatYear(year: int): string {
    var digits := if -10_000 < year < 10_000 then Digits(if year < 0 then -year else year, 10, 4)
                  else Text.Decimal(if year < 0 then -year else year);
    if year < 0 then "-" + digits else digits
  }

  function DateText(d: Date): string
    requires ValidDate(d)
  {
    FormatYear(d.month / 12) + "-" + Digits(d.month % 12 + 1, 10, 2) + "-" + Digits(d.day, 10, 2)
  }

  function PartsText(hour: nat, minute: nat, second: nat): string {
    Digits(hour, 10, 2) + ":" + Digits(minute, 10, 2) + ":" + Digits(second, 10, 2)
  }

  function ClockText(s: nat): string {
    PartsText(s / 3600, s / 60 % 60, s % 60)
  }

  /** Go's layout 2006-01-02T15:04:05Z, in UTC: whole seconds only. */
  function FormatTime(t: Instant): string {
    DateText(DateOf(t)) + ("T" + (ClockText(ClockOf(t)) + "Z"))
  }

  function Row(key: string, value: string): string {
    key + ": " + value
  }

  const KEY_ORDER: seq<string> := ["Session", "Plan", "Wallet", "Contract", "Chain", "Issued"]

  function Values(c: Challenge): seq<string> {
    [c.sessionId, c.planId, Lower(c.wallet), Lower(c.contract), FormatInt(c.chainId), FormatTime(c.issued)]
  }

  function RowsOf(keys: seq<string>, values: seq<string>): (rows: seq<string>)
    requires |keys| == |values|
    ensures |rows| == |keys|
  {
    seq(|keys|, i requires 0 <= i < |keys| => Row(keys[i], values[i]))
  }

  function Joined(lines: seq<string>): string
    requires lines != []
  {
    if |lines| == 1 then lines[0] else lines[0] + "\n" + Joined(lines[1..])
  }

  function Print(c: Challenge): string {
    Joined([c.prefix, ""] + RowsOf(KEY_ORDER, Values(c)))
  }

  // ---------- numbers and times ----------

  /** A base-10 integer of 64 bits: an optional sign, then digits. */
  function ParseInt64(s: string): Option<int> {
    var signed := s != "" && (s[0] == '-' || s[0] == '+');
    var digits := if signed then s[1..] else s;
    if digits == "" || !AllDigits(digits, 10) then None
    else
      var n: int := ValueOf(digits, 10);
      var n := if s[0] == '-' then -n else n;
      if MIN_INT64 <= n <= MAX_INT64 then Some(n) else None
  }

  /** One or two digits from the front; `fixed` demands two. */
  function TakeNumber(s: string, fixed: bool): Option<(nat, string)> {
    if |s| < 1 || !IsDigit(s[0], 10) then None
    else if |s| < 2 || !IsDigit(s[1], 10) then (if fixed then None else Some((DigitValue(s[0]), s[1..])))
    else Some((ValueOf(s[..2], 10), s[2..]))
  }

  function TakeYear(s: string): Option<(nat, string)> {
    if |s| < 4 || !AllDigits(s[..4], 10) then None else Some((ValueOf(s[..4], 10), s[4..]))
  }

  function TakeChar(s: string, c: char): Option<string> {
    if s != "" && s[0] == c then Some(s[1..]) else None
  }

  function DigitRun(s: string): (n: nat)
    ensures n <= |s| && AllDigits(s[..n], 10)
  {
    if s != "" && IsDigit(s[0], 10) then 1 + DigitRun(s[1..]) else 0
  }

  /** A fraction of a second, which Go accepts after the seconds though the layout has none; past
      the ninth digit it is cut. */
  function TakeFraction(s: string): (nat, string) {
    if |s| < 2 || !(s[0] == '.' || s[0] == ',') || !IsDigit(s[1], 10) then (0, s)
    else
      var n := DigitRun(s[1..]);
      var k := if n < 9 then n else 9;
      (ValueOf(s[1..][..n][..k], 10) * Pow(10, 9 - k), s[1 + n..])
  }

  function TakeDate(s: string): Option<(Date, string)> {
    match TakeYear(s) case None => None case Some((year, s)) =>
    match TakeChar(s, '-') case None => None case Some(s) =>
    match TakeNumber(s, true) case None => None case Some((month, s)) =>
    match TakeChar(s, '-') case None => None case Some(s) =>
    match TakeNumber(s, true) case None => None case Some((day, s)) =>
    if !(1 <= month <= 12) then None
    else
      var d := Date(12 * year + month - 1, day);
      if ValidDate(d) then Some((d, s)) else None
  }

  function TakeClock(s: string): Option<(nat, string)> {
    match TakeNumber(s, false) case None => None case Some((hour, s)) =>
    match TakeChar(s, ':') case None => None case Some(s) =>
    match TakeNumber(s, true) case None => None case Some((minute, s)) =>
    match TakeChar(s, ':') case None => None case Some(s) =>
    match TakeNumber(s, true) case None => None case Some((second, s)) =>
    if hour < 24 && minute < 60 && second < 60 then Some((hour * 3600 + minute * 60 + second, s)) else None
  }

  function ParseTime(s: string): Option<Instant> {
    match TakeDate(s) case None => None case Some((d, s)) =>
    match TakeChar(s, 'T') case None => None case Some(s) =>
    match TakeClock(s) case None => None case Some((seconds, s)) =>
    var (nanos, s) := TakeFraction(s);
    if s == "Z" then Some(At(d, seconds) + nanos) else None
  }

  // ---------- parsing ----------

  /** The text between newlines. */
  function Lines(s: string): (lines: seq<string>)
    ensures lines != []
  {
    if s == "" then [""]
    else if s[0] == '\n' then [""] + Lines(s[1..])
    else
      var rest := Lines(s[1..]);
      [[s[0]] + rest[0]] + rest[1..]
  }

  /** A line cut at its first ": ". */
  function Cut(line: string): Option<(string, string)> {
    if |line| < 2 then None
    else if line[0] == ':' && line[1] == ' ' then Some(("", line[2..]))
    else match Cut(line[1..])
         case None => None
         case Some((key, value)) => Some(([line[0]] + key, value))
  }

  const KEYS: set<string> := {"Session", "Plan", "Wallet", "Contract", "Chain", "Issued"}

  /** The fields a list of lines sets: the last line of a key wins. */
  function Fields(lines: seq<string>, keys: set<string>): Result<map<string, string>, Malformation> {
    if lines == [] then Ok(map[])
    else
      var line := lines[|lines| - 1];
      match Fields(lines[..|lines| - 1], keys)
      case Err(e) => Err(e)
      case Ok(fields) =>
        match Cut(line)
        case None => Err(NoSeparator(line))
        case Some((key, value)) => if key in keys then Ok(fields[key := value]) else Err(UnknownField(key))
  }

  predicate Filled(fields: map<string, string>, key: string) {
    key in fields && fields[key] != ""
  }

  predicate AllFilled(fields: map<string, string>) {
    forall key | key in KEYS :: Filled(fields, key)
  }

  function Assembled(prefix: string, fields: map<string, string>): Result<Challenge, Malformation> {
    if !AllFilled(fields) then Err(MissingField)
    else if ParseInt64(fields["Chain"]).None? then Err(BadChain)
    else if ParseTime(fields["Issued"]).None? then Err(BadIssued)
    else Ok(Challenge(prefix, fields["Session"], fields["Plan"], Lower(fields["Wallet"]), Lower(fields["Contract"]),
                      ParseInt64(fields["Chain"]).value, ParseTime(fields["Issued"]).value))
  }

  function Parse(message: string): Result<Challenge, Malformation> {
    var lines := Lines(message);
    if |lines| < 8 then Err(TooFewLines)
    else if lines[1] != "" then Err(SecondLineNotBlank)
    else match Fields(lines[2..8], KEYS)
         case Err(e) => Err(e)
         case Ok(fields) => Assembled(lines[0], fields)
  }

  /** The loop of the parser, writing each field where its key says. */
  method ParseChallenge(message: string) returns (r: Result<Challenge, Malformation>)
    ensures r == Parse(message)
  {
    var lines := Lines(message);
    if |lines| < 8 {
      return Err(TooFewLines);
    }
    if lines[1] != "" {
      return Err(SecondLineNotBlank);
    }
    var rows, fields := lines[2..8], map[];
    for i := 0 to |rows|
      invariant Fields(rows[..i], KEYS) == Ok(fields)
    {
      assert rows[..i + 1][..i] == rows[..i];
      var cut := Cut(rows[i]);
      if cut.None? {
        FieldsStop(rows, KEYS, i);
        return Err(NoSeparator(rows[i]));
      }
      var (key, value) := cut.value;
      if key !in KEYS {
        FieldsStop(rows, KEYS, i);
        return Err(UnknownField(key));
      }
      fields := fields[key := value];
    }
    assert rows[..6] == rows;
    if exists key | key in KEYS :: key !in fields || fields[key] == "" {
      return Err(MissingField);
    }
    var chainId := ParseInt64(fields["Chain"]);
    if chainId.None? {
      return Err(BadChain);
    }
    var issued := ParseTime(fields["Issued"]);
    if issued.None? {
      return Err(BadIssued);
    }
    return Ok(Challenge(lines[0], fields["Session"], fields["Plan"], Lower(fields["Wallet"]), Lower(fields["Contract"]),
                        chainId.value, issued.value));
  }

  /** The first bad line decides. */
  lemma {:induction false} FieldsStop(lines: seq<string>, keys: set<string>, i: nat)
    requires i < |lines| && Fields(lines[..i + 1], keys).Err?
    ensures Fields(lines, keys) == Fields(lines[..i + 1], keys)
    decreases |lines|
  {
    if i + 1 < |lines| {
      var init := lines[..|lines| - 1];
      assert init[..i + 1] == lines[..i + 1];
      FieldsStop(init, keys, i);
    } else {
      assert lines[..i + 1] == lines;
    }
  }

  // ---------- times and numbers read back ----------

  lemma PowersOfTen()
    ensures Pow(10, 2) == 100 && Pow(10, 4) == 10_000
  {
    assert Pow(10, 1) == 10 && Pow(10, 3) == Pow(10, 2) * 10;
  }

  lemma TakeDigits(n: nat, rest: string)
    requires n < 100
    ensures TakeNumber(Digits(n, 10, 2) + rest, true) == Some((n, rest))
    ensures TakeNumber(Digits(n, 10, 2) + rest, false) == Some((n, rest))
  {
    PowersOfTen();
    ValueOfDigits(n, 10, 2);
    var s := Digits(n, 10, 2) + rest;
    assert s[..2] == Digits(n, 10, 2) && s[2..] == rest;
    assert s[0] == s[..2][0] && s[1] == s[..2][1];
  }

  lemma TakeYearDigits(year: nat, rest: string)
    requires year < 10_000
    ensures TakeYear(Digits(year, 10, 4) + rest) == Some((year, rest))
  {
    PowersOfTen();
    ValueOfDigits(year, 10, 4);
    var s := Digits(year, 10, 4) + rest;
    assert s[..4] == Digits(year, 10, 4) && s[4..] == rest;
  }

  lemma TakeDateSteps(s0: string, s1: string, s2: string, s3: string, s4: string, rest: string, d: Date)
    requires ValidDate(d) && d.month >= 0
    requires TakeYear(s0) == Some((d.month / 12, s1)) && TakeChar(s1, '-') == Some(s2)
    requires TakeNumber(s2, true) == Some((d.month % 12 + 1, s3)) && TakeChar(s3, '-') == Some(s4)
    requires TakeNumber(s4, true) == Some((d.day, rest))
    ensures TakeDate(s0) == Some((d, rest))
  {
    assert Date(12 * (d.month / 12) + (d.month % 12 + 1) - 1, d.day) == d;
  }

  lemma TakeDateParts(year: nat, month: nat, day: nat, d: Date, rest: string)
    requires ValidDate(d) && d.month >= 0 && year == d.month / 12 < 10_000
    requires month == d.month % 12 + 1 && day == d.day
    ensures TakeDate(Digits(year, 10, 4) + "-" + Digits(month, 10, 2) + "-" + Digits(day, 10, 2) + rest) == Some((d, rest))
  {
    var y, m, dd := Digits(year, 10, 4), Digits(month, 10, 2), Digits(day, 10, 2);
    Regroup(y, "-", m, "-", dd, rest);
    TakeYearDigits(year, "-" + (m + ("-" + (dd + rest))));
    AfterChar('-', m + ("-" + (dd + rest)));
    TakeDigits(month, "-" + (dd + rest));
    AfterChar('-', dd + rest);
    TakeDigits(day, rest);
    TakeDateSteps(y + ("-" + (m + ("-" + (dd + rest)))), "-" + (m + ("-" + (dd + rest))),
                  m + ("-" + (dd + rest)), "-" + (dd + rest), dd + rest, rest, d);
  }

  lemma DateTextParts(d: Date, year: nat, month: nat, day: nat)
    requires ValidDate(d) && year == d.month / 12 < 10_000 && month == d.month % 12 + 1 && day == d.day
    ensures DateText(d) == Digits(year, 10, 4) + "-" + Digits(month, 10, 2) + "-" + Digits(day, 10, 2)
  {
  }

  lemma TakeDateText(d: Date, rest: string)
    requires ValidDate(d) && 0 <= d.month / 12 < 10_000
    ensures TakeDate(DateText(d) + rest) == Some((d, rest))
  {
    var year, month, day := d.month / 12, d.month % 12 + 1, d.day;
    DateTextParts(d, year, month, day);
    TakeDateParts(year, month, day, d, rest);
  }

  lemma Regroup(a: string, b: string, c: string, d: string, e: string, rest: string)
    ensures a + b + c + d + e + rest == a + (b + (c + (d + (e + rest))))
  {
  }

  lemma AfterChar(c: char, rest: string)
    ensures TakeChar([c] + rest, c) == Some(rest)
  {
    assert ([c] + rest)[1..] == rest;
  }

  lemma TakeClockSteps(s0: string, s1: string, s2: string, s3: string, s4: string, rest: string, hour: nat, minute: nat, second: nat)
    requires TakeNumber(s0, false) == Some((hour, s1)) && TakeChar(s1, ':') == Some(s2)
    requires TakeNumber(s2, true) == Some((minute, s3)) && TakeChar(s3, ':') == Some(s4)
    requires TakeNumber(s4, true) == Some((second, rest))
    requires hour < 24 && minute < 60 && second < 60
    ensures TakeClock(s0) == Some((hour * 3600 + minute * 60 + second, rest))
  {
  }

  lemma TakeClockParts(hour: nat, minute: nat, second: nat, rest: string)
    requires hour < 24 && minute < 60 && second < 60
    ensures TakeClock(PartsText(hour, minute, second) + rest) == Some((hour * 3600 + minute * 60 + second, rest))
  {
    var h, m, s := Digits(hour, 10, 2), Digits(minute, 10, 2), Digits(second, 10, 2);
    Regroup(h, ":", m, ":", s, rest);
    TakeDigits(hour, ":" + (m + (":" + (s + rest))));
    AfterChar(':', m + (":" + (s + rest)));
    TakeDigits(minute, ":" + (s + rest));
    AfterChar(':', s + rest);
    TakeDigits(second, rest);
    TakeClockSteps(h + (":" + (m + (":" + (s + rest)))), ":" + (m + (":" + (s + rest))), m + (":" + (s + rest)),
                   ":" + (s + rest), s + rest, rest, hour, minute, second);
  }

  lemma ClockParts(s: nat, hour: nat, minute: nat, second: nat)
    requires s < 86_400 && hour == s / 3600 && minute == s / 60 % 60 && second == s % 60
    ensures hour < 24 && minute < 60 && second < 60 && hour * 3600 + minute * 60 + second == s
  {
  }

  lemma ClockTextParts(s: nat, hour: nat, minute: nat, second: nat)
    requires hour == s / 3600 && minute == s / 60 % 60 && second == s % 60
    ensures ClockText(s) == PartsText(hour, minute, second)
  {
  }

  lemma TakeClockText(s: nat, rest: string)
    requires s < 86_400
    ensures TakeClock(ClockText(s) + rest) == Some((s, rest))
  {
    var hour, minute, second := s / 3600, s / 60 % 60, s % 60;
    ClockParts(s, hour, minute, second);
    ClockTextParts(s, hour, minute, second);
    TakeClockParts(hour, minute, second, rest);
  }

  lemma {:induction false} DecimalIsLong(n: nat, width: nat)
    requires n >= Pow(10, width)
    ensures |Text.Decimal(n)| > width
  {
    if width > 0 {
      SplitNumber(n, 10, Pow(10, width - 1));
      DecimalIsLong(n / 10, width - 1);
    }
  }

  predicate FourDigitYear(t: Instant) {
    0 <= DateOf(t).month / 12 <= 9999
  }

  lemma NoFourDigitYear(s: string)
    requires (s != "" && s[0] == '-') || (|s| > 4 && IsDigit(s[4], 10))
    ensures ParseTime(s).None?
  {
    if TakeYear(s).Some? {
      assert IsDigit(s[..4][0], 10) && s[4..][0] == s[4];
    }
  }

  lemma OtherYearsDoNotParse(t: Instant)
    requires !FourDigitYear(t)
    ensures ParseTime(FormatTime(t)).None?
  {
    var year := DateOf(t).month / 12;
    var s, y := FormatTime(t), FormatYear(year);
    assert y <= s;
    if year >= 0 {
      PowersOfTen();
      DecimalIsLong(year, 4);
      ValueOfDecimal(year);
      assert s[4] == y[4];
    }
    NoFourDigitYear(s);
  }

  lemma ParseTimeSteps(s0: string, s1: string, s2: string, d: Date, seconds: nat)
    requires TakeDate(s0) == Some((d, s1)) && TakeChar(s1, 'T') == Some(s2) && TakeClock(s2) == Some((seconds, "Z"))
    ensures ParseTime(s0) == Some(At(d, seconds))
  {
  }

  /** What is printed is read back without its nanoseconds. */
  lemma TimeReadsBack(t: Instant)
    requires FourDigitYear(t)
    ensures ParseTime(FormatTime(t)) == Some(At(DateOf(t), ClockOf(t)))
  {
    var d, c := DateOf(t), ClockOf(t);
    TakeDateText(d, "T" + (ClockText(c) + "Z"));
    AfterChar('T', ClockText(c) + "Z");
    TakeClockText(c, "Z");
    ParseTimeSteps(DateText(d) + ("T" + (ClockText(c) + "Z")), "T" + (ClockText(c) + "Z"), ClockText(c) + "Z", d, c);
  }

  lemma WholeSecond(t: Instant)
    ensures At(DateOf(t), ClockOf(t)) == t <==> t % SECOND == 0
  {
    var day, rest := t / DAY, t % DAY;
    assert DayNumber(DateOf(t)) == day;
    assert t == day * DAY + rest;
    assert rest == rest / SECOND * SECOND + rest % SECOND;
    assert t == (day * 86_400 + rest / SECOND) * SECOND + rest % SECOND;
  }

  /** A printed time is read back exactly when it is a whole second of a four-digit year. */
  lemma TimeRoundTrip(t: Instant)
    ensures ParseTime(FormatTime(t)) == Some(t) <==> FourDigitYear(t) && t % SECOND == 0
  {
    WholeSecond(t);
    if FourDigitYear(t) {
      TimeReadsBack(t);
    } else {
      OtherYearsDoNotParse(t);
    }
  }

  lemma {:induction false} DigitRunOf(f: string)
    requires AllDigits(f, 10)
    ensures DigitRun(f + "Z") == |f|
  {
    if f != "" {
      assert (f + "Z")[1..] == f[1..] + "Z" && (f + "Z")[0] == f[0];
      DigitRunOf(f[1..]);
    }
  }

  lemma FractionStep(s: string, n: nat, f: string, rest: string)
    requires |s| >= 2 && s[0] == '.' && IsDigit(s[1], 10) && DigitRun(s[1..]) == n <= 9
    requires s[1..][..n][..n] == f && s[1 + n..] == rest
    ensures AllDigits(f, 10) && TakeFraction(s) == (ValueOf(f, 10) * Pow(10, 9 - n), rest)
  {
  }

  /** A fraction of a second after the seconds, of up to nine digits, is read as so many nanoseconds. */
  lemma FractionReads(s: string, f: string)
    requires 1 <= |f| <= 9 && AllDigits(f, 10) && s == "." + (f + "Z")
    ensures TakeFraction(s) == (ValueOf(f, 10) * Pow(10, 9 - |f|), "Z")
  {
    DigitRunOf(f);
    assert s[1] == f[0] && s[1..] == f + "Z" && s[1 + |f|..] == "Z";
    assert s[1..][..|f|] == f && f[..|f|] == f;
    FractionStep(s, |f|, f, "Z");
  }

  lemma LeapDay(t: Instant, month: int)
    requires t == 1_709_210_096_000_000_000 && month == 24_289
    ensures DateOf(t) == Date(month, 29) && ClockOf(t) == 45_296
  {
    CalendarIsGregorian(month);
    LeapDayNumber(month);
    AtRoundTrip(Date(month, 29), 45_296);
    assert t == At(Date(month, 29), 45_296);
  }

  lemma LeapDayNumber(month: int)
    requires month == 24_289
    ensures DaysIn(month) == 29 && DaysBeforeMonth(MarchYear(month), MarchMonth(month)) == 19_754
  {
  }

  lemma TwoDigitsValue(s: string)
    requires |s| == 2 && AllDigits(s, 10)
    ensures ValueOf(s, 10) == 10 * DigitValue(s[0]) + DigitValue(s[1])
  {
    ValueOfLast("", s[0], 10);
    ValueOfLast("" + [s[0]], s[1], 10);
    assert "" + [s[0]] + [s[1]] == s;
  }

  lemma FourDigitsValue(s: string)
    requires |s| == 4 && AllDigits(s, 10)
    ensures ValueOf(s, 10) == 1000 * DigitValue(s[0]) + 100 * DigitValue(s[1]) + 10 * DigitValue(s[2]) + DigitValue(s[3])
  {
    ValueOfLast("", s[0], 10);
    ValueOfLast("" + [s[0]], s[1], 10);
    ValueOfLast("" + [s[0]] + [s[1]], s[2], 10);
    ValueOfLast("" + [s[0]] + [s[1]] + [s[2]], s[3], 10);
    assert "" + [s[0]] + [s[1]] + [s[2]] + [s[3]] == s;
  }

  lemma ValueText(s: string, n: nat)
    requires AllDigits(s, 10) && n == ValueOf(s, 10)
    ensures Digits(n, 10, |s|) == s
  {
    DigitsBack(s, 10);
  }

  lemma TwoDigitsText(s: string, n: nat)
    requires |s| == 2 && AllDigits(s, 10) && n == 10 * DigitValue(s[0]) + DigitValue(s[1])
    ensures Digits(n, 10, |s|) == s
  {
    TwoDigitsValue(s);
    ValueText(s, n);
  }

  lemma FourDigitsText(s: string, n: nat)
    requires |s| == 4 && AllDigits(s, 10)
    requires n == 1000 * DigitValue(s[0]) + 100 * DigitValue(s[1]) + 10 * DigitValue(s[2]) + DigitValue(s[3])
    ensures Digits(n, 10, |s|) == s
  {
    FourDigitsValue(s);
    ValueText(s, n);
  }

  /** One second of a leap day, in its text: the date and the clock, with a T between and a Z behind. */
  lemma LeapDayText(t: Instant)
    requires t == 1_709_210_096_000_000_000
    ensures DateText(DateOf(t)) == "2024-02-29" && ClockText(ClockOf(t)) == "12:34:56"
    ensures FormatTime(t) == DateText(DateOf(t)) + ("T" + (ClockText(ClockOf(t)) + "Z"))
  {
    var month :| month == 24_289;
    LeapDay(t, month);
    LeapDate(DateOf(t));
    LeapClock(ClockOf(t));
  }

  lemma LeapYear(year: int)
    requires year == 2024
    ensures FormatYear(year) == "2024"
  {
    FourDigitsText("2024", year);
  }

  lemma LeapDate(d: Date)
    requires d == Date(24_289, 29)
    ensures ValidDate(d) && DateText(d) == "2024-02-29"
  {
    LeapDayNumber(d.month);
    LeapYear(d.month / 12);
    TwoDigitsText("02", d.month % 12 + 1);
    TwoDigitsText("29", d.day);
    assert "2024" + "-" + "02" + "-" + "29" == "2024-02-29";
  }

  lemma LeapClock(clock: nat)
    requires clock == 45_296
    ensures ClockText(clock) == "12:34:56"
  {
    TwoDigitsText("12", clock / 3600);
    TwoDigitsText("34", clock / 60 % 60);
    TwoDigitsText("56", clock % 60);
    assert "12" + ":" + "34" + ":" + "56" == "12:34:56";
  }

  /** A leading plus sign is accepted. */
  lemma PlusSign(n: nat)
    requires n <= MAX_INT64
    ensures ParseInt64("+" + Text.Decimal(n)) == Some(n)
  {
    ValueOfDecimal(n);
    assert ("+" + Text.Decimal(n))[1..] == Text.Decimal(n);
  }

  lemma IntRoundTrip(n: int)
    ensures ParseInt64(FormatInt(n)) == (if MIN_INT64 <= n <= MAX_INT64 then Some(n) else None)
  {
    var s := FormatInt(n);
    ValueOfDecimal(if n < 0 then -n else n);
    if n < 0 {
      assert s[1..] == Text.Decimal(-n);
    } else {
      assert IsDigit(s[0], 10);
    }
  }

  // ---------- lines read back ----------

  predicate OneLine(s: string) {
    '\n' !in s
  }

  lemma {:induction false} LinesOfLine(s: string)
    requires OneLine(s)
    ensures Lines(s) == [s]
  {
    if s != "" {
      assert OneLine(s[1..]);
      LinesOfLine(s[1..]);
      assert s == [s[0]] + s[1..];
    }
  }

  lemma {:induction false} LinesOfTwo(s: string, rest: string)
    requires OneLine(s)
    ensures Lines(s + "\n" + rest) == [s] + Lines(rest)
  {
    var all := s + "\n" + rest;
    if s == "" {
      assert all[1..] == rest;
    } else {
      assert OneLine(s[1..]);
      LinesOfTwo(s[1..], rest);
      assert all[1..] == s[1..] + "\n" + rest;
      assert s == [s[0]] + s[1..];
    }
  }

  lemma {:induction false} EachLineIsOneLine(s: string)
    ensures forall line | line in Lines(s) :: OneLine(line)
  {
    if s != "" {
      EachLineIsOneLine(s[1..]);
      assert Lines(s[1..])[0] in Lines(s[1..]);
      forall line | line in Lines(s) ensures OneLine(line) {
        if s[0] != '\n' && line == Lines(s)[0] {
        } else {
          assert line == "" || line in Lines(s[1..]);
        }
      }
    }
  }

  lemma {:induction false} RowReadsBack(key: string, value: string)
    requires ':' !in key
    ensures Cut(Row(key, value)) == Some((key, value))
  {
    var line := Row(key, value);
    if key == "" {
      assert line[2..] == value;
    } else {
      assert line[1..] == Row(key[1..], value);
      RowReadsBack(key[1..], value);
      assert key == [key[0]] + key[1..];
    }
  }

  lemma {:induction false} CutIsRow(line: string)
    requires Cut(line).Some?
    ensures line == Row(Cut(line).value.0, Cut(line).value.1)
  {
    if !(line[0] == ':' && line[1] == ' ') {
      CutIsRow(line[1..]);
      assert line == [line[0]] + line[1..];
    }
  }

  // ---------- the message ----------

  /** A challenge as the server compares it: addresses in lower case. */
  function Canonical(c: Challenge): Challenge {
    c.(wallet := Lower(c.wallet), contract := Lower(c.contract))
  }

  predicate OneLineFields(c: Challenge) {
    OneLine(c.prefix) && OneLine(c.sessionId) && OneLine(c.planId) && OneLine(c.wallet) && OneLine(c.contract)
  }

  predicate FieldsFilled(c: Challenge) {
    c.sessionId != "" && c.planId != "" && c.wallet != "" && c.contract != ""
  }

  /** The challenges the text form can carry. */
  predicate Printable(c: Challenge) {
    && OneLineFields(c) && FieldsFilled(c)
    && MIN_INT64 <= c.chainId <= MAX_INT64
    && FourDigitYear(c.issued) && c.issued % SECOND == 0
  }

  lemma LowerOneLine(s: string)
    ensures OneLine(Lower(s)) <==> OneLine(s)
  {
    forall i | 0 <= i < |s| ensures Lower(s)[i] == '\n' <==> s[i] == '\n' {
    }
    if '\n' in s {
      var i :| 0 <= i < |s| && s[i] == '\n';
      assert Lower(s)[i] == '\n';
    }
  }

  lemma {:induction false} DecimalOneLine(n: nat)
    ensures OneLine(Text.Decimal(n))
  {
    ValueOfDecimal(n);
  }

  lemma FormatIntOneLine(n: int)
    ensures OneLine(FormatInt(n)) && FormatInt(n) != ""
  {
    DecimalOneLine(if n < 0 then -n else n);
  }

  lemma {:induction false} DigitsOneLine(n: nat, width: nat)
    ensures OneLine(Digits(n, 10, width))
  {
    if width > 0 {
      DigitsOneLine(n / 10, width - 1);
      DigitCharValue(n % 10, 10);
    }
  }

  lemma JoinOneLine(a: string, b: string, c: string, sep: string)
    requires OneLine(a) && OneLine(b) && OneLine(c) && OneLine(sep)
    ensures OneLine(a + sep + b + sep + c)
  {
  }

  lemma FormatYearOneLine(year: int)
    ensures OneLine(FormatYear(year))
  {
    DigitsOneLine(if year < 0 then -year else year, 4);
    DecimalOneLine(if year < 0 then -year else year);
  }

  lemma DateTextOneLine(d: Date)
    requires ValidDate(d)
    ensures OneLine(DateText(d))
  {
    var year, month := d.month / 12, d.month % 12 + 1;
    FormatYearOneLine(year);
    DigitsOneLine(month, 2);
    DigitsOneLine(d.day, 2);
    JoinOneLine(FormatYear(year), Digits(month, 10, 2), Digits(d.day, 10, 2), "-");
  }

  lemma FormatTimeOneLine(t: Instant)
    ensures OneLine(FormatTime(t))
  {
    var c := ClockOf(t);
    DateTextOneLine(DateOf(t));
    DigitsOneLine(c / 3600, 2);
    DigitsOneLine(c / 60 % 60, 2);
    DigitsOneLine(c % 60, 2);
    JoinOneLine(Digits(c / 3600, 10, 2), Digits(c / 60 % 60, 10, 2), Digits(c % 60, 10, 2), ":");
  }

  lemma {:induction false} LinesOfJoined(lines: seq<string>)
    requires lines != [] && forall line | line in lines :: OneLine(line)
    ensures Lines(Joined(lines)) == lines
  {
    if |lines| == 1 {
      LinesOfLine(lines[0]);
    } else {
      LinesOfTwo(lines[0], Joined(lines[1..]));
      LinesOfJoined(lines[1..]);
    }
  }

  predicate IsField(line: string, keys: set<string>) {
    Cut(line).Some? && Cut(line).value.0 in keys
  }

  function KeyOf(line: string): string {
    if Cut(line).Some? then Cut(line).value.0 else ""
  }

  predicate DistinctKeys(lines: seq<string>) {
    forall i, j | 0 <= i < j < |lines| :: KeyOf(lines[i]) != KeyOf(lines[j])
  }

  /** Every field comes from a line, and every line sets a field. */
  lemma {:induction false} FieldsComeFromLines(lines: seq<string>, keys: set<string>)
    requires Fields(lines, keys).Ok?
    ensures var fields := Fields(lines, keys).value;
            && fields.Keys <= keys
            && (forall line | line in lines :: IsField(line, keys) && KeyOf(line) in fields)
            && (forall key | key in fields :: Row(key, fields[key]) in lines && Cut(Row(key, fields[key])) == Some((key, fields[key])))
  {
    if lines != [] {
      var init, line := lines[..|lines| - 1], lines[|lines| - 1];
      FieldsComeFromLines(init, keys);
      CutIsRow(line);
      assert lines == init + [line];
    }
  }

  lemma OneMoreField(fields: map<string, string>, key: string, value: string)
    ensures |fields[key := value]| == |fields| + if key in fields then 0 else 1
  {
    assert fields[key := value].Keys == fields.Keys + {key};
    assert |fields.Keys| == |fields| && |fields[key := value].Keys| == |fields[key := value]|;
  }

  lemma DistinctKeysAppend(init: seq<string>, line: string)
    requires DistinctKeys(init) && forall l | l in init :: KeyOf(l) != KeyOf(line)
    ensures DistinctKeys(init + [line])
  {
    forall i | 0 <= i < |init| ensures KeyOf(init[i]) != KeyOf(line) {
      assert init[i] in init;
    }
  }

  lemma FieldsWithOneMore(lines: seq<string>, keys: set<string>)
    requires lines != [] && Fields(lines, keys).Ok?
    ensures var init, line := lines[..|lines| - 1], lines[|lines| - 1];
            && Fields(init, keys).Ok? && Cut(line).Some?
            && Fields(lines, keys).value == Fields(init, keys).value[KeyOf(line) := Cut(line).value.1]
  {
  }

  lemma NewKeyIsDistinct(init: seq<string>, line: string, keys: set<string>)
    requires Fields(init, keys).Ok? && KeyOf(line) !in Fields(init, keys).value && DistinctKeys(init)
    ensures DistinctKeys(init + [line])
  {
    FieldsComeFromLines(init, keys);
    DistinctKeysAppend(init, line);
  }

  /** With as many fields as lines, no key is on two lines. */
  lemma {:induction false} AsManyFieldsAsLines(lines: seq<string>, keys: set<string>)
    requires Fields(lines, keys).Ok?
    ensures |Fields(lines, keys).value| <= |lines|
    ensures |Fields(lines, keys).value| == |lines| ==> DistinctKeys(lines)
  {
    if lines != [] {
      var init, line := lines[..|lines| - 1], lines[|lines| - 1];
      FieldsWithOneMore(lines, keys);
      var before := Fields(init, keys).value;
      OneMoreField(before, KeyOf(line), Cut(line).value.1);
      AsManyFieldsAsLines(init, keys);
      if KeyOf(line) !in before && |before| == |init| {
        NewKeyIsDistinct(init, line, keys);
        assert lines == init + [line];
      }
    }
  }

  lemma {:induction false} FieldLinesAreAccepted(lines: seq<string>, keys: set<string>)
    requires forall line | line in lines :: IsField(line, keys)
    ensures Fields(lines, keys).Ok?
  {
    if lines != [] {
      assert lines[|lines| - 1] in lines;
      FieldLinesAreAccepted(lines[..|lines| - 1], keys);
    }
  }

  lemma SixKeys(fields: map<string, string>)
    requires fields.Keys <= KEYS && AllFilled(fields)
    ensures |fields| == 6 && fields.Keys == KEYS
  {
    assert |KEYS| == 6;
    assert fields.Keys == KEYS;
  }

  lemma AcceptedFields(message: string)
    ensures Parse(message).Ok? ==>
              && |Lines(message)| >= 8 && Lines(message)[1] == ""
              && Fields(Lines(message)[2..8], KEYS).Ok?
              && AllFilled(Fields(Lines(message)[2..8], KEYS).value)
  {
  }

  /** The six lines carry the six keys: each on exactly one line, with a value. */
  predicate SixFields(rows: seq<string>) {
    && |rows| == 6
    && (forall row | row in rows :: IsField(row, KEYS))
    && DistinctKeys(rows)
    && (forall key | key in KEYS :: exists row | row in rows :: KeyOf(row) == key && row != Row(key, ""))
  }

  lemma FilledFieldsAreSix(rows: seq<string>)
    requires |rows| == 6 && Fields(rows, KEYS).Ok? && AllFilled(Fields(rows, KEYS).value)
    ensures SixFields(rows)
  {
    var fields := Fields(rows, KEYS).value;
    FieldsComeFromLines(rows, KEYS);
    AsManyFieldsAsLines(rows, KEYS);
    SixKeys(fields);
    forall key | key in KEYS ensures exists row | row in rows :: KeyOf(row) == key && row != Row(key, "") {
      var row := Row(key, fields[key]);
      assert row in rows && KeyOf(row) == key;
      assert |row| > |Row(key, "")|;
    }
  }

  /** An accepted message has each of the six keys on exactly one of its six lines, with a value. */
  lemma AcceptedLinesAreTheSixFields(message: string)
    ensures Parse(message).Ok? ==> |Lines(message)| >= 8 && Lines(message)[1] == "" && SixFields(Lines(message)[2..8])
  {
    if Parse(message).Ok? {
      AcceptedFields(message);
      FilledFieldsAreSix(Lines(message)[2..8]);
    }
  }

  /** Lines with distinct keys set the same fields in any order. */
  lemma SameFields(rows: seq<string>, rows': seq<string>, keys: set<string>)
    requires Fields(rows, keys).Ok? && DistinctKeys(rows)
    requires forall x :: x in rows' <==> x in rows
    ensures Fields(rows', keys) == Fields(rows, keys)
  {
    FieldsComeFromLines(rows, keys);
    FieldLinesAreAccepted(rows', keys);
    FieldsComeFromLines(rows', keys);
    var m, m' := Fields(rows, keys).value, Fields(rows', keys).value;
    forall key | key in m ensures key in m' && m'[key] == m[key] {
      OneLinePerKey(rows, Row(key, m[key]), Row(key, m'[key]));
    }
    assert m == m';
  }

  lemma OneLinePerKey(rows: seq<string>, a: string, b: string)
    requires DistinctKeys(rows) && a in rows && b in rows && KeyOf(a) == KeyOf(b)
    ensures a == b
  {
    var i :| 0 <= i < |rows| && rows[i] == a;
    var j :| 0 <= j < |rows| && rows[j] == b;
    assert !(i < j) && !(j < i);
  }

  lemma AcceptedKeysAreDistinct(message: string)
    ensures Parse(message).Ok? ==> |Lines(message)| >= 8 && DistinctKeys(Lines(message)[2..8])
  {
    AcceptedLinesAreTheSixFields(message);
  }

  /** The result does not depend on the order of the six lines. */
  lemma OrderDoesNotMatter(a: string, b: string)
    requires |Lines(a)| >= 8 && |Lines(b)| >= 8 && Lines(b)[..2] == Lines(a)[..2]
    requires forall row :: row in Lines(b)[2..8] <==> row in Lines(a)[2..8]
    ensures Parse(a).Ok? ==> Parse(b) == Parse(a)
  {
    if Parse(a).Ok? {
      AcceptedKeysAreDistinct(a);
      AcceptedFields(a);
      assert Lines(b)[1] == Lines(b)[..2][1] && Lines(b)[0] == Lines(b)[..2][0];
      SameFields(Lines(a)[2..8], Lines(b)[2..8], KEYS);
    }
  }

  lemma {:induction false} FieldsOfRows(keys: seq<string>, values: seq<string>, known: set<string>)
    requires |keys| == |values|
    requires forall i | 0 <= i < |keys| :: keys[i] in known && ':' !in keys[i]
    requires forall i, j | 0 <= i < j < |keys| :: keys[i] != keys[j]
    ensures var fields := Fields(RowsOf(keys, values), known);
            fields.Ok? && forall i | 0 <= i < |keys| :: keys[i] in fields.value && fields.value[keys[i]] == values[i]
  {
    if keys != [] {
      var n := |keys| - 1;
      assert RowsOf(keys, values)[..n] == RowsOf(keys[..n], values[..n]);
      FieldsOfRows(keys[..n], values[..n], known);
      RowReadsBack(keys[n], values[n]);
      assert forall i | 0 <= i < n :: keys[..n][i] == keys[i] && values[..n][i] == values[i];
    }
  }

  lemma KeyOrderIsKeys()
    ensures forall i, j | 0 <= i < j < 6 :: KEY_ORDER[i] != KEY_ORDER[j]
    ensures forall i | 0 <= i < 6 :: KEY_ORDER[i] in KEYS && ':' !in KEY_ORDER[i] && OneLine(KEY_ORDER[i])
  {
  }

  lemma RowOneLine(key: string, value: string)
    requires OneLine(key) && OneLine(value)
    ensures OneLine(Row(key, value))
  {
  }

  lemma PrintedLines(c: Challenge)
    requires OneLineFields(c)
    ensures Lines(Print(c)) == [c.prefix, ""] + RowsOf(KEY_ORDER, Values(c))
  {
    var rows := RowsOf(KEY_ORDER, Values(c));
    KeyOrderIsKeys();
    LowerOneLine(c.wallet);
    LowerOneLine(c.contract);
    FormatIntOneLine(c.chainId);
    FormatTimeOneLine(c.issued);
    assert forall i | 0 <= i < 6 :: OneLine(Values(c)[i]);
    forall i | 0 <= i < 6 ensures OneLine(rows[i]) {
      RowOneLine(KEY_ORDER[i], Values(c)[i]);
    }
    LinesOfJoined([c.prefix, ""] + rows);
  }

  lemma ParsedPrint(c: Challenge)
    requires OneLineFields(c)
    ensures var fields := Fields(RowsOf(KEY_ORDER, Values(c)), KEYS);
            && fields.Ok? && Parse(Print(c)) == Assembled(c.prefix, fields.value)
            && forall i | 0 <= i < 6 :: KEY_ORDER[i] in fields.value && fields.value[KEY_ORDER[i]] == Values(c)[i]
  {
    PrintedLines(c);
    KeyOrderIsKeys();
    FieldsOfRows(KEY_ORDER, Values(c), KEYS);
    assert Lines(Print(c))[2..8] == RowsOf(KEY_ORDER, Values(c));
  }

  lemma JoinedRows(lines: seq<string>)
    requires |lines| == 8
    ensures Joined(lines) == lines[0] + ("\n" + (lines[1] + ("\n" + (lines[2] + ("\n" + (lines[3] + ("\n" + (lines[4]
                           + ("\n" + (lines[5] + ("\n" + (lines[6] + ("\n" + lines[7])))))))))))))
  {
    var last := lines[7];
    assert lines[0..] == lines && lines[7..] == [last];
    JoinedFrom(lines, 6, last);
    var seven := lines[6] + ("\n" + last);
    JoinedFrom(lines, 5, seven);
    var six := lines[5] + ("\n" + seven);
    JoinedFrom(lines, 4, six);
    var five := lines[4] + ("\n" + six);
    JoinedFrom(lines, 3, five);
    var four := lines[3] + ("\n" + five);
    JoinedFrom(lines, 2, four);
    var three := lines[2] + ("\n" + four);
    JoinedFrom(lines, 1, three);
    JoinedFrom(lines, 0, lines[1] + ("\n" + three));
  }

  lemma JoinedFrom(lines: seq<string>, i: nat, tail: string)
    requires i + 1 < |lines| && Joined(lines[i + 1..]) == tail
    ensures Joined(lines[i..]) == lines[i] + ("\n" + tail)
  {
    assert lines[i..][1..] == lines[i + 1..];
  }

  /** The text the wallet shows, line by line. */
  lemma PrintedText(c: Challenge)
    ensures Print(c) == c.prefix + ("\n" + ("" + ("\n" + (("Session: " + c.sessionId)
                      + ("\n" + (("Plan: " + c.planId)
                      + ("\n" + (("Wallet: " + Lower(c.wallet))
                      + ("\n" + (("Contract: " + Lower(c.contract))
                      + ("\n" + (("Chain: " + FormatInt(c.chainId))
                      + ("\n" + ("Issued: " + FormatTime(c.issued)))))))))))))))
  {
    var lines := [c.prefix, ""] + RowsOf(KEY_ORDER, Values(c));
    JoinedRows(lines);
    assert "Session" + ": " == "Session: " && "Plan" + ": " == "Plan: " && "Wallet" + ": " == "Wallet: ";
    assert "Contract" + ": " == "Contract: " && "Chain" + ": " == "Chain: " && "Issued" + ": " == "Issued: ";
  }

  predicate Holds(fields: map<string, string>, values: seq<string>)
    requires |values| == 6
  {
    forall i | 0 <= i < 6 :: KEY_ORDER[i] in fields && fields[KEY_ORDER[i]] == values[i]
  }

  lemma FilledValues(fields: map<string, string>, values: seq<string>)
    requires |values| == 6 && Holds(fields, values)
    ensures AllFilled(fields) <==> forall i | 0 <= i < 6 :: values[i] != ""
  {
    KeyOrderIsKeys();
    forall key | key in KEYS ensures exists i :: 0 <= i < 6 && KEY_ORDER[i] == key {
      if key == "Session" { assert KEY_ORDER[0] == key; }
      if key == "Plan" { assert KEY_ORDER[1] == key; }
      if key == "Wallet" { assert KEY_ORDER[2] == key; }
      if key == "Contract" { assert KEY_ORDER[3] == key; }
      if key == "Chain" { assert KEY_ORDER[4] == key; }
      if key == "Issued" { assert KEY_ORDER[5] == key; }
    }
    if AllFilled(fields) {
      forall i | 0 <= i < 6 ensures values[i] != "" {
        assert Filled(fields, KEY_ORDER[i]);
      }
    }
  }

  lemma FieldAt(fields: map<string, string>, values: seq<string>)
    requires |values| == 6 && Holds(fields, values) && AllFilled(fields)
    ensures fields["Session"] == values[0] && fields["Plan"] == values[1] && fields["Wallet"] == values[2]
    ensures fields["Contract"] == values[3] && fields["Chain"] == values[4] && fields["Issued"] == values[5]
  {
    assert KEY_ORDER[0] in fields && KEY_ORDER[1] in fields && KEY_ORDER[2] in fields;
    assert KEY_ORDER[3] in fields && KEY_ORDER[4] in fields && KEY_ORDER[5] in fields;
  }

  /** What parsing a printed challenge gives, when its fields have no newline. */
  lemma AssembledFrom(prefix: string, fields: map<string, string>, values: seq<string>)
    requires |values| == 6 && Holds(fields, values)
    ensures var r := Assembled(prefix, fields);
            if exists i :: 0 <= i < 6 && values[i] == "" then r == Err(MissingField)
            else if ParseInt64(values[4]).None? then r == Err(BadChain)
            else if ParseTime(values[5]).None? then r == Err(BadIssued)
            else r == Ok(Challenge(prefix, values[0], values[1], Lower(values[2]), Lower(values[3]),
                                   ParseInt64(values[4]).value, ParseTime(values[5]).value))
  {
    FilledValues(fields, values);
    if AllFilled(fields) {
      FieldAt(fields, values);
    }
  }

  lemma LowerEmpty(s: string)
    ensures Lower(s) == "" <==> s == ""
  {
    assert |Lower(s)| == |s|;
  }

  lemma FormatTimeNotEmpty(t: Instant)
    ensures FormatTime(t) != ""
  {
  }

  lemma ValuesFilled(c: Challenge)
    ensures (exists i :: 0 <= i < 6 && Values(c)[i] == "") <==> !FieldsFilled(c)
  {
    LowerEmpty(c.wallet);
    LowerEmpty(c.contract);
    FormatIntOneLine(c.chainId);
    FormatTimeNotEmpty(c.issued);
    var v := Values(c);
    if !FieldsFilled(c) {
      assert v[0] == "" || v[1] == "" || v[2] == "" || v[3] == "";
    }
  }

  lemma ParseOfPrint(c: Challenge)
    requires OneLineFields(c)
    ensures var r := Parse(Print(c));
            if !FieldsFilled(c) then r == Err(MissingField)
            else if ParseInt64(FormatInt(c.chainId)).None? then r == Err(BadChain)
            else if ParseTime(FormatTime(c.issued)).None? then r == Err(BadIssued)
            else r == Ok(Canonical(c).(chainId := ParseInt64(FormatInt(c.chainId)).value,
                                       issued := ParseTime(FormatTime(c.issued)).value))
  {
    ParsedPrint(c);
    var fields := Fields(RowsOf(KEY_ORDER, Values(c)), KEYS).value;
    AssembledFrom(c.prefix, fields, Values(c));
    ValuesFilled(c);
    LowerTwice(c.wallet);
    LowerTwice(c.contract);
  }

  lemma OneLineRoundTrip(c: Challenge)
    requires OneLineFields(c)
    ensures Parse(Print(c)) == Ok(Canonical(c)) <==> Printable(c)
  {
    ParseOfPrint(c);
    IntRoundTrip(c.chainId);
    TimeRoundTrip(c.issued);
  }

  lemma ValueOneLine(key: string, value: string)
    requires OneLine(Row(key, value))
    ensures OneLine(value)
  {
    forall i | 0 <= i < |value| ensures value[i] != '\n' {
      assert value[i] == Row(key, value)[|key| + 2 + i];
    }
  }

  /** Whatever the parser accepts, no text field of the result holds a newline. */
  lemma ParsedFieldsAreOneLine(message: string)
    ensures Parse(message).Ok? ==> OneLineFields(Parse(message).value)
  {
    if Parse(message).Ok? {
      AcceptedFields(message);
      var lines := Lines(message);
      var fields := Fields(lines[2..8], KEYS).value;
      EachLineIsOneLine(message);
      FieldsComeFromLines(lines[2..8], KEYS);
      forall key | key in fields ensures OneLine(fields[key]) {
        assert Row(key, fields[key]) in lines;
        ValueOneLine(key, fields[key]);
      }
      assert lines[0] in lines;
      LowerOneLine(fields["Wallet"]);
      LowerOneLine(fields["Contract"]);
    }
  }

  /** A challenge is read back from its printed form exactly when the text form can carry it: text
      fields without newlines, none of the four names empty, a 64-bit chain id, and a whole second
      of a four-digit year. */
  lemma RoundTrip(c: Challenge)
    ensures Parse(Print(c)) == Ok(Canonical(c)) <==> Printable(c)
  {
    if OneLineFields(c) {
      OneLineRoundTrip(c);
    } else if Parse(Print(c)) == Ok(Canonical(c)) {
      ParsedFieldsAreOneLine(Print(c));
      LowerOneLine(c.wallet);
      LowerOneLine(c.contract);
      assert false;
    }
  }

  /** So on those, two messages are equal only for the same challenge. */
  lemma PrintIsInjective(a: Challenge, b: Challenge)
    requires Printable(a) && Printable(b)
    ensures Print(a) == Print(b) <==> Canonical(a) == Canonical(b)
  {
    RoundTrip(a);
    RoundTrip(b);
    LowerTwice(a.wallet);
    LowerTwice(a.contract);
    LowerTwice(b.wallet);
    LowerTwice(b.contract);
    assert Canonical(a) == Canonical(b) ==> Values(a) == Values(b);
  }
}
