/** The billing calendar: months of the proleptic Gregorian calendar, instants in UTC, and
    the end-of-month-clamped period addition that moves a subscription's next due time. */
module Calendar {
  import opened Records

  const SECOND: int := 1_000_000_000
  const DAY: int := 86_400_000_000_000

  /** Go's zero time, 0001-01-01T00:00:00Z, which the records use for "not set". */
  const ZERO_TIME: Instant := -62_135_596_800 * SECOND

  /** Whole seconds since 1970. */
  function Unix(t: Instant): int {
    t / SECOND
  }

  /** A civil date. Months are counted through the years, so January of year y is 12 * y. */
  datatype Date = Date(month: int, day: int)

  const EPOCH_MONTH: int := 23_640

  predicate Leap(year: int) {
    year % 4 == 0 && (year % 100 != 0 || year % 400 == 0)
  }

  function DaysIn(month: int): (days: int)
    ensures 28 <= days <= 31
  {
    var m := month % 12 + 1;
    if m == 2 then (if Leap(month / 12) then 29 else 28)
    else if m == 4 || m == 6 || m == 9 || m == 11 then 30
    else 31
  }

  predicate ValidDate(d: Date) {
    1 <= d.day <= DaysIn(d.month)
  }

  /** Days from the epoch to the first of the month. */
  function MonthStart(month: int): int
    decreases if month < EPOCH_MONTH then EPOCH_MONTH - month else month - EPOCH_MONTH
  {
    if month == EPOCH_MONTH then 0
    else if month > EPOCH_MONTH then MonthStart(month - 1) + DaysIn(month - 1)
    else MonthStart(month + 1) - DaysIn(month)
  }

  function DayNumber(d: Date): int {
    MonthStart(d.month) + d.day - 1
  }

  /** The month a day falls in, searched from a first guess. */
  function MonthOfDay(day: int, guess: int): (month: int)
    ensures MonthStart(month) <= day < MonthStart(month) + DaysIn(month)
    decreases if day < MonthStart(guess) then MonthStart(guess) - day + 31 else day - MonthStart(guess)
  {
    if day < MonthStart(guess) then MonthOfDay(day, guess - 1)
    else if day >= MonthStart(guess) + DaysIn(guess) then MonthOfDay(day, guess + 1)
    else guess
  }

  function CivilDate(day: int): (d: Date)
    ensures ValidDate(d) && DayNumber(d) == day
  {
    var m := MonthOfDay(day, EPOCH_MONTH);
    Date(m, day - MonthStart(m) + 1)
  }

  function DateOf(t: Instant): (d: Date)
    ensures ValidDate(d)
  {
    CivilDate(t / DAY)
  }

  /** Whole seconds since midnight: hour, minute and second, without the nanoseconds. */
  function ClockOf(t: Instant): (seconds: int)
    ensures 0 <= seconds < 86_400
  {
    t % DAY / SECOND
  }

  function At(d: Date, seconds: int): Instant {
    DayNumber(d) * DAY + seconds * SECOND
  }

  predicate DateBefore(a: Date, b: Date) {
    a.month < b.month || (a.month == b.month && a.day < b.day)
  }

  predicate DateAtMost(a: Date, b: Date) {
    a == b || DateBefore(a, b)
  }

  function Min(a: int, b: int): int {
    if a < b then a else b
  }

  /** The date n months on, its day cut to the last day of the month landed on. */
  function ClampedDate(d: Date, n: int): (r: Date) {
    Date(d.month + n, Min(d.day, DaysIn(d.month + n)))
  }

  function ClampedAddMonths(t: Instant, n: int): Instant {
    At(ClampedDate(DateOf(t), n), ClockOf(t))
  }

  /** Go's own month addition, which lets a day past the month's end roll into the next month. */
  function RolledAddMonths(t: Instant, n: int): Instant {
    var d := DateOf(t);
    (MonthStart(d.month + n) + d.day - 1) * DAY + t % DAY
  }

  function AddPeriod(plan: Plan, t: Instant): Instant {
    if plan.periodUnit == "month" then ClampedAddMonths(t, plan.periodCount)
    else if plan.periodUnit == "year" then ClampedAddMonths(t, plan.periodCount * 12)
    else t + plan.periodCount * DAY
  }

  function AddPeriods(plan: Plan, k: nat, t: Instant): Instant {
    if k == 0 then t else AddPeriod(plan, AddPeriods(plan, k - 1, t))
  }

  // ---------- day numbers and dates are two names for one thing ----------

  lemma MonthStartStep(month: int)
    ensures MonthStart(month + 1) == MonthStart(month) + DaysIn(month)
  {
  }

  lemma {:induction false} MonthSpan(month: int, n: nat)
    ensures 28 * n <= MonthStart(month + n) - MonthStart(month) <= 31 * n
  {
    if n > 0 {
      MonthSpan(month, n - 1);
      MonthStartStep(month + n - 1);
    }
  }

  lemma LaterMonthStartsAfter(a: int, b: int)
    requires a < b
    ensures MonthStart(a) + DaysIn(a) <= MonthStart(b)
  {
    MonthStartStep(a);
    MonthSpan(a + 1, b - a - 1);
  }

  lemma DayNumberOrdersDates(a: Date, b: Date)
    requires ValidDate(a) && ValidDate(b)
    ensures DayNumber(a) < DayNumber(b) <==> DateBefore(a, b)
    ensures DayNumber(a) == DayNumber(b) <==> a == b
  {
    if a.month < b.month {
      LaterMonthStartsAfter(a.month, b.month);
    } else if b.month < a.month {
      LaterMonthStartsAfter(b.month, a.month);
    }
  }

  lemma SplitInstant(day: int, seconds: int, nanos: int)
    requires 0 <= seconds < 86_400 && 0 <= nanos < SECOND
    ensures (day * DAY + seconds * SECOND + nanos) / DAY == day
    ensures (day * DAY + seconds * SECOND + nanos) % DAY == seconds * SECOND + nanos
    ensures (seconds * SECOND + nanos) / SECOND == seconds
  {
  }

  lemma AtRoundTrip(d: Date, seconds: int)
    requires ValidDate(d) && 0 <= seconds < 86_400
    ensures DateOf(At(d, seconds)) == d
    ensures ClockOf(At(d, seconds)) == seconds
    ensures At(d, seconds) % SECOND == 0
  {
    SplitInstant(DayNumber(d), seconds, 0);
    DayNumberOrdersDates(DateOf(At(d, seconds)), d);
    assert At(d, seconds) == (DayNumber(d) * 86_400 + seconds) * SECOND;
  }

  lemma LaterInstantLaterDate(s: Instant, t: Instant)
    requires s <= t
    ensures DateAtMost(DateOf(s), DateOf(t))
  {
    assert s / DAY <= t / DAY;
    DayNumberOrdersDates(DateOf(s), DateOf(t));
  }

  // ---------- one clamped step ----------

  /** A step lands on the clamped date at the same second of the day, and drops the nanoseconds. */
  lemma ClampedStep(t: Instant, n: int)
    ensures DateOf(ClampedAddMonths(t, n)) == ClampedDate(DateOf(t), n)
    ensures ClockOf(ClampedAddMonths(t, n)) == ClockOf(t)
    ensures ClampedAddMonths(t, n) % SECOND == 0
  {
    AtRoundTrip(ClampedDate(DateOf(t), n), ClockOf(t));
  }

  /** An n-month step moves the date by 28n to 31n days, wherever it starts. */
  lemma ClampedStepSpan(d: Date, n: nat)
    requires ValidDate(d)
    ensures 28 * n <= DayNumber(ClampedDate(d, n)) - DayNumber(d) <= 31 * n
  {
    MonthSpan(d.month, n);
    if n > 0 && d.day > DaysIn(d.month + n) {
      MonthStartStep(d.month);
      MonthSpan(d.month + 1, n - 1);
      MonthStartStep(d.month + n);
      MonthSpan(d.month + 1, n);
    }
  }

  lemma ClampedStepMonotone(a: Date, b: Date, n: int)
    requires DateAtMost(a, b)
    ensures DateAtMost(ClampedDate(a, n), ClampedDate(b, n))
  {
  }

  /** Two steps land in the month one long step lands in, and never on a later day. */
  lemma ClampedStepsCompose(d: Date, a: int, b: int)
    ensures ClampedDate(ClampedDate(d, a), b).month == ClampedDate(d, a + b).month
    ensures ClampedDate(ClampedDate(d, a), b).day <= ClampedDate(d, a + b).day
    ensures ClampedDate(ClampedDate(d, a), b) == ClampedDate(d, a + b)
            <==> (d.day <= DaysIn(d.month + a) || DaysIn(d.month + a + b) <= DaysIn(d.month + a))
  {
    assert d.month + (a + b) == d.month + a + b;
  }

  /** On instants the order of two due times can swap: exactly when both land on one date and the
      earlier instant has the later second of the day. */
  lemma ClampedStepSwapsInstants(s: Instant, t: Instant, n: int)
    requires s <= t
    ensures ClampedAddMonths(t, n) < ClampedAddMonths(s, n)
            <==> ClampedDate(DateOf(s), n) == ClampedDate(DateOf(t), n) && ClockOf(t) < ClockOf(s)
  {
    LaterInstantLaterDate(s, t);
    var a, b := ClampedDate(DateOf(s), n), ClampedDate(DateOf(t), n);
    ClampedStepMonotone(DateOf(s), DateOf(t), n);
    DayNumberOrdersDates(a, b);
  }

  /** Jan 30 23:00 and Jan 31 01:00 of 1970 become Feb 28 23:00 and Feb 28 01:00. */
  lemma SwapWitness()
    ensures exists s: Instant, t: Instant ::
              s < t && ClampedAddMonths(t, 1) < ClampedAddMonths(s, 1)
  {
    var d30, d31 := Date(EPOCH_MONTH, 30), Date(EPOCH_MONTH, 31);
    var s, t := At(d30, 23 * 3600), At(d31, 3600);
    AtRoundTrip(d30, 23 * 3600);
    AtRoundTrip(d31, 3600);
    ClampedStepSwapsInstants(s, t, 1);
  }

  // ---------- repeated steps ----------

  function Repeat(d: Date, c: int, k: nat): Date {
    if k == 0 then d else ClampedDate(Repeat(d, c, k - 1), c)
  }

  function Landed(month: int, c: int, j: int): int {
    month + j * c
  }

  /** After k steps of c months: k * c months on, and the day is the least of the starting day and
      the last day of every month landed on. A day once cut never grows back. */
  lemma {:induction false} RepeatClosedForm(d: Date, c: int, k: nat)
    requires ValidDate(d)
    ensures ValidDate(Repeat(d, c, k))
    ensures Repeat(d, c, k).month == d.month + k * c
    ensures Repeat(d, c, k).day <= d.day
    ensures forall j | 1 <= j <= k :: Repeat(d, c, k).day <= DaysIn(Landed(d.month, c, j))
    ensures Repeat(d, c, k).day == d.day
            || exists j :: 1 <= j <= k && Repeat(d, c, k).day == DaysIn(Landed(d.month, c, j))
  {
    if k > 0 {
      RepeatClosedForm(d, c, k - 1);
      var last := DaysIn(Landed(d.month, c, k));
      assert d.month + (k - 1) * c + c == Landed(d.month, c, k) by {
        assert (k - 1) * c + c == k * c;
      }
    }
  }

  function MonthsPerPeriod(plan: Plan): nat
    requires plan.periodUnit == "month" || plan.periodUnit == "year"
  {
    if plan.periodUnit == "month" then plan.periodCount else plan.periodCount * 12
  }

  /** Repeated month and year periods are the repeated clamped steps, at an unchanging second. */
  lemma {:induction false} AddPeriodsDates(plan: Plan, k: nat, t: Instant)
    requires plan.periodUnit == "month" || plan.periodUnit == "year"
    ensures DateOf(AddPeriods(plan, k, t)) == Repeat(DateOf(t), MonthsPerPeriod(plan), k)
    ensures ClockOf(AddPeriods(plan, k, t)) == ClockOf(t)
  {
    if k > 0 {
      AddPeriodsDates(plan, k - 1, t);
      ClampedStep(AddPeriods(plan, k - 1, t), MonthsPerPeriod(plan));
    }
  }

  /** A month or year period lands on the clamped date, any other so many days on at the same time of
      day. */
  lemma AddPeriodDate(plan: Plan, t: Instant)
    ensures plan.periodUnit == "month" || plan.periodUnit == "year"
            ==> DateOf(AddPeriod(plan, t)) == ClampedDate(DateOf(t), MonthsPerPeriod(plan))
    ensures plan.periodUnit != "month" && plan.periodUnit != "year"
            ==> DayNumber(DateOf(AddPeriod(plan, t))) == DayNumber(DateOf(t)) + plan.periodCount
                && AddPeriod(plan, t) % DAY == t % DAY
  {
    if plan.periodUnit == "month" || plan.periodUnit == "year" {
      ClampedStep(t, MonthsPerPeriod(plan));
    } else {
      SplitInstant(t / DAY + plan.periodCount, ClockOf(t), t % DAY % SECOND);
      assert AddPeriod(plan, t)
          == (t / DAY + plan.periodCount) * DAY + ClockOf(t) * SECOND + t % DAY % SECOND;
    }
  }

  /** Period addition keeps the order of dates, for every plan. */
  lemma AddPeriodMonotone(plan: Plan, s: Instant, t: Instant)
    requires DateAtMost(DateOf(s), DateOf(t))
    ensures DateAtMost(DateOf(AddPeriod(plan, s)), DateOf(AddPeriod(plan, t)))
  {
    AddPeriodDate(plan, s);
    AddPeriodDate(plan, t);
    DayNumberOrdersDates(DateOf(s), DateOf(t));
    DayNumberOrdersDates(DateOf(AddPeriod(plan, s)), DateOf(AddPeriod(plan, t)));
    if plan.periodUnit == "month" || plan.periodUnit == "year" {
      ClampedStepMonotone(DateOf(s), DateOf(t), MonthsPerPeriod(plan));
    }
  }

  /** A period of at least one unit moves the date strictly forward. */
  lemma AddPeriodAdvances(plan: Plan, t: Instant)
    requires plan.periodCount > 0
    ensures DateBefore(DateOf(t), DateOf(AddPeriod(plan, t)))
    ensures t < AddPeriod(plan, t)
  {
    AddPeriodDate(plan, t);
    DayNumberOrdersDates(DateOf(t), DateOf(AddPeriod(plan, t)));
    if plan.periodUnit == "month" || plan.periodUnit == "year" {
      ClampedStepSpan(DateOf(t), MonthsPerPeriod(plan));
    }
    if AddPeriod(plan, t) <= t {
      LaterInstantLaterDate(AddPeriod(plan, t), t);
    }
  }

  /** Two due times land on one next due time: as month and year periods land on one clamped date at
      one second of the day, and as day periods only from one instant. */
  predicate PeriodsAgree(plan: Plan, s: Instant, t: Instant) {
    if plan.periodUnit == "month" || plan.periodUnit == "year"
    then ClampedDate(DateOf(s), MonthsPerPeriod(plan)) == ClampedDate(DateOf(t), MonthsPerPeriod(plan)) && ClockOf(s) == ClockOf(t)
    else s == t
  }

  lemma AddPeriodAgreesIff(plan: Plan, s: Instant, t: Instant)
    ensures AddPeriod(plan, s) == AddPeriod(plan, t) <==> PeriodsAgree(plan, s, t)
  {
    if plan.periodUnit == "month" || plan.periodUnit == "year" {
      ClampedStep(s, MonthsPerPeriod(plan));
      ClampedStep(t, MonthsPerPeriod(plan));
    }
  }

  // ---------- the calendar by formula ----------

  /** Days from the epoch to the first of a month, counting years from March, so that a leap day ends
      its year: 365 days a year, a day for every fourth year but not for every hundredth unless for
      every four hundredth, and (153 m + 2) / 5 days before month m. */
  function DaysBeforeMonth(year: int, m: int): int {
    365 * year + year / 4 - year / 100 + year / 400 + (153 * m + 2) / 5 - 719_468
  }

  function MarchYear(month: int): int {
    if month % 12 < 2 then month / 12 - 1 else month / 12
  }

  function MarchMonth(month: int): int {
    if month % 12 < 2 then month % 12 + 10 else month % 12 - 2
  }

  lemma LeapDays(year: int)
    ensures year / 4 - (year - 1) / 4 == (if year % 4 == 0 then 1 else 0)
    ensures year / 100 - (year - 1) / 100 == (if year % 100 == 0 then 1 else 0)
    ensures year / 400 - (year - 1) / 400 == (if year % 400 == 0 then 1 else 0)
    ensures year % 100 == 0 ==> year % 4 == 0
    ensures year % 400 == 0 ==> year % 100 == 0
  {
  }

  lemma MarchStep(month: int)
    ensures if month % 12 == 1 then MarchYear(month + 1) == MarchYear(month) + 1 == month / 12 && MarchMonth(month) == 11 && MarchMonth(month + 1) == 0
            else MarchYear(month + 1) == MarchYear(month) && MarchMonth(month + 1) == MarchMonth(month) + 1
  {
    var year, m := month / 12, month % 12;
    assert month == 12 * year + m;
    if m == 11 {
      assert (month + 1) / 12 == year + 1 && (month + 1) % 12 == 0;
    } else {
      assert (month + 1) / 12 == year && (month + 1) % 12 == m + 1;
    }
  }

  lemma DaysInMarchMonth(month: int)
    requires month % 12 != 1
    ensures (153 * (MarchMonth(month) + 1) + 2) / 5 - (153 * MarchMonth(month) + 2) / 5 == DaysIn(month)
  {
  }

  lemma FormulaStep(month: int)
    ensures DaysBeforeMonth(MarchYear(month + 1), MarchMonth(month + 1))
         == DaysBeforeMonth(MarchYear(month), MarchMonth(month)) + DaysIn(month)
  {
    MarchStep(month);
    if month % 12 == 1 {
      LeapDays(month / 12);
    } else {
      DaysInMarchMonth(month);
    }
  }

  /** The day numbers of the months' starts are fixed by one of them and the months' lengths. */
  lemma {:induction false} FixedByLengths(starts: int -> int, month: int)
    requires starts(EPOCH_MONTH) == 0
    requires forall m {:trigger DaysIn(m)} :: starts(m + 1) == starts(m) + DaysIn(m)
    ensures MonthStart(month) == starts(month)
    decreases if month < EPOCH_MONTH then EPOCH_MONTH - month else month - EPOCH_MONTH
  {
    if month > EPOCH_MONTH {
      FixedByLengths(starts, month - 1);
      assert starts(month - 1 + 1) == starts(month - 1) + DaysIn(month - 1);
    } else if month < EPOCH_MONTH {
      FixedByLengths(starts, month + 1);
      assert starts(month + 1) == starts(month) + DaysIn(month);
    }
  }

  /** The month lengths and the leap-year rule give that calendar, for every month before and after the
      epoch. */
  lemma CalendarIsGregorian(month: int)
    ensures MonthStart(month) == DaysBeforeMonth(MarchYear(month), MarchMonth(month))
  {
    var starts := m => DaysBeforeMonth(MarchYear(m), MarchMonth(m));
    forall m {:trigger DaysIn(m)} ensures starts(m + 1) == starts(m) + DaysIn(m) {
      FormulaStep(m);
    }
    FixedByLengths(starts, month);
  }

  /** Go's month addition lets a day past the month's end roll into the next month, at the same time
      of day. */
  lemma RolledStep(t: Instant, n: int)
    ensures var d := DateOf(t);
            && RolledAddMonths(t, n) % DAY == t % DAY
            && DateOf(RolledAddMonths(t, n)) == (if d.day <= DaysIn(d.month + n) then Date(d.month + n, d.day)
                                                 else Date(d.month + n + 1, d.day - DaysIn(d.month + n)))
  {
    var d, u := DateOf(t), RolledAddMonths(t, n);
    var target := if d.day <= DaysIn(d.month + n) then Date(d.month + n, d.day)
                  else Date(d.month + n + 1, d.day - DaysIn(d.month + n));
    MonthStartStep(d.month + n);
    assert u == DayNumber(target) * DAY + t % DAY;
    assert u / DAY == DayNumber(target) && u % DAY == t % DAY;
    DayNumberOrdersDates(DateOf(u), target);
  }
}
