/** The proleptic Gregorian calendar of Python's `datetime`, ISO dates, and UTC months. */
module Calendar {
  import opened Basics

  datatype Date = Date(year: int, month: int, day: int)

  predicate Leap(y: int)
  {
    y % 4 == 0 && (y % 100 != 0 || y % 400 == 0)
  }

  function DaysInMonth(y: int, m: int): int
  {
    if m == 2 then (if Leap(y) then 29 else 28)
    else if m == 4 || m == 6 || m == 9 || m == 11 then 30
    else 31
  }

  predicate ValidDate(d: Date)
  {
    1 <= d.year <= 9999 && 1 <= d.month <= 12 && 1 <= d.day <= DaysInMonth(d.year, d.month)
  }

  function DaysBeforeYear(y: int): int
    requires y >= 1
  {
    (y - 1) * 365 + (y - 1) / 4 - (y - 1) / 100 + (y - 1) / 400
  }

  function DaysBeforeMonth(y: int, m: int): (n: int)
    requires 1 <= m <= 13
    decreases m
  {
    if m == 1 then 0 else DaysBeforeMonth(y, m - 1) + DaysInMonth(y, m - 1)
  }

  /** `date.toordinal()`: 1 for 0001-01-01. */
  function Ordinal(d: Date): int
    requires d.year >= 1 && 1 <= d.month <= 12
  {
    DaysBeforeYear(d.year) + DaysBeforeMonth(d.year, d.month) + d.day
  }

  /** Python compares dates field by field. */
  predicate Earlier(a: Date, b: Date)
  {
    a.year < b.year || (a.year == b.year && (a.month < b.month || (a.month == b.month && a.day < b.day)))
  }

  function DaysInYear(y: int): int { if Leap(y) then 366 else 365 }

  lemma YearStep(y: int)
    requires y >= 1
    ensures DaysBeforeYear(y + 1) == DaysBeforeYear(y) + DaysInYear(y)
  {
    FourthStep(y);
    CenturyStep(y);
    CycleStep(y);
  }

  lemma FourthStep(y: int)
    requires y >= 1
    ensures y / 4 == (y - 1) / 4 + if y % 4 == 0 then 1 else 0
  {
  }

  lemma CenturyStep(y: int)
    requires y >= 1
    ensures y / 100 == (y - 1) / 100 + if y % 100 == 0 then 1 else 0
    ensures y % 100 == 0 ==> y % 4 == 0
  {
  }

  lemma CycleStep(y: int)
    requires y >= 1
    ensures y / 400 == (y - 1) / 400 + if y % 400 == 0 then 1 else 0
    ensures y % 400 == 0 ==> y % 100 == 0
  {
  }

  lemma {:induction false} YearsOrdered(y: int, z: int)
    requires 1 <= y < z
    ensures DaysBeforeYear(y) + DaysInYear(y) <= DaysBeforeYear(z)
    decreases z
  {
    YearStep(z - 1);
    if y < z - 1 { YearsOrdered(y, z - 1); }
  }

  lemma {:induction false} MonthsOrdered(y: int, m: int, n: int)
    requires 1 <= m < n <= 13
    ensures DaysBeforeMonth(y, m) + DaysInMonth(y, m) <= DaysBeforeMonth(y, n)
    decreases n
  {
    if m < n - 1 { MonthsOrdered(y, m, n - 1); }
  }

  lemma YearLength(y: int)
    ensures DaysBeforeMonth(y, 13) == DaysInYear(y)
  {
    assert DaysBeforeMonth(y, 4) == 62 + DaysInMonth(y, 2);
    assert DaysBeforeMonth(y, 7) == DaysBeforeMonth(y, 4) + 91;
    assert DaysBeforeMonth(y, 10) == DaysBeforeMonth(y, 7) + 92;
    assert DaysBeforeMonth(y, 13) == DaysBeforeMonth(y, 10) + 92;
  }

  lemma {:induction false} MonthNonNegative(y: int, m: int)
    requires 1 <= m <= 13
    ensures DaysBeforeMonth(y, m) >= 0
  {
    if m > 1 { MonthNonNegative(y, m - 1); }
  }

  lemma EarlierOrdinal(a: Date, b: Date)
    requires ValidDate(a) && ValidDate(b) && Earlier(a, b)
    ensures Ordinal(a) < Ordinal(b)
  {
    if a.year < b.year {
      MonthsOrdered(a.year, a.month, 13);
      YearLength(a.year);
      YearsOrdered(a.year, b.year);
      MonthNonNegative(b.year, b.month);
    } else if a.month < b.month {
      MonthsOrdered(a.year, a.month, b.month);
    }
  }

  /** Field order and day-count order agree, across month ends and leap years. */
  lemma OrdinalOrder(a: Date, b: Date)
    requires ValidDate(a) && ValidDate(b)
    ensures Earlier(a, b) <==> Ordinal(a) < Ordinal(b)
    ensures a == b <==> Ordinal(a) == Ordinal(b)
  {
    if Earlier(a, b) { EarlierOrdinal(a, b); }
    else if Earlier(b, a) { EarlierOrdinal(b, a); }
  }

  function NextDay(d: Date): Date
  {
    if d.day < DaysInMonth(d.year, d.month) then d.(day := d.day + 1)
    else if d.month < 12 then Date(d.year, d.month + 1, 1)
    else Date(d.year + 1, 1, 1)
  }

  /** Ordinals count days: the calendar starts at 1, and each next day, over month ends, leap days and year ends, is
      one more. So differences of ordinals are spans in days. */
  lemma OrdinalCountsDays(d: Date)
    requires ValidDate(d) && d != Date(9999, 12, 31)
    ensures ValidDate(NextDay(d)) && Ordinal(NextDay(d)) == Ordinal(d) + 1 && Ordinal(Date(1, 1, 1)) == 1
  {
    if d.day == DaysInMonth(d.year, d.month) && d.month == 12 {
      MonthsOrdered(d.year, 12, 13);
      YearLength(d.year);
      YearStep(d.year);
    }
  }

  /** The lengths of the twelve months. */
  lemma MonthLengths(y: int, m: int)
    requires 1 <= m <= 12
    ensures DaysInMonth(y, m) == [31, if Leap(y) then 29 else 28, 31, 30, 31, 30, 31, 31, 30, 31, 30, 31][m - 1]
  {
  }

  /** A leap year every four years, but of the century years only every fourth. */
  lemma LeapYears(cycle: nat, century: nat, four: nat, rest: nat)
    requires century < 4 && four < 25 && rest < 4
    ensures Leap(400 * cycle + 100 * century + 4 * four + rest) <==> rest == 0 && (four != 0 || century == 0)
  {
    var y := 400 * cycle + 100 * century + 4 * four + rest;
    assert y == 4 * (100 * cycle + 25 * century + four) + rest;
    assert y == 100 * (4 * cycle + century) + (4 * four + rest);
    assert y == 400 * cycle + (100 * century + 4 * four + rest);
  }

  /** 97 leap years in 400 years. */
  lemma FourHundredYears(y: int)
    requires y >= 1
    ensures DaysBeforeYear(y + 400) == DaysBeforeYear(y) + 400 * 365 + 97
  {
    var n := y - 1;
    assert (n + 400) / 4 == n / 4 + 100;
    assert (n + 400) / 100 == n / 100 + 4;
    assert (n + 400) / 400 == n / 400 + 1;
  }

  predicate Proper(d: Date)
  {
    d.year >= 1 && 1 <= d.month <= 12 && 1 <= d.day <= DaysInMonth(d.year, d.month)
  }

  /** The day `n` days after `d`. */
  function DaysAfter(d: Date, n: nat): Date
  {
    if n == 0 then d else NextDay(DaysAfter(d, n - 1))
  }

  lemma NextDayIsProper(d: Date)
    requires Proper(d)
    ensures Proper(NextDay(d)) && Ordinal(NextDay(d)) == Ordinal(d) + 1
  {
    if d.day == DaysInMonth(d.year, d.month) && d.month == 12 {
      MonthsOrdered(d.year, 12, 13);
      YearLength(d.year);
      YearStep(d.year);
    }
  }

  /** Going from day to day, also beyond the last year Python knows, ordinals count the days passed. */
  lemma {:induction false} OrdinalAfter(d: Date, n: nat)
    requires Proper(d)
    ensures Proper(DaysAfter(d, n)) && Ordinal(DaysAfter(d, n)) == Ordinal(d) + n
  {
    if n > 0 {
      OrdinalAfter(d, n - 1);
      NextDayIsProper(DaysAfter(d, n - 1));
    }
  }

  lemma ProperOrdinals(a: Date, b: Date)
    requires Proper(a) && Proper(b) && Ordinal(a) == Ordinal(b)
    ensures a == b
  {
    if a.year != b.year {
      var x, y := if a.year < b.year then a else b, if a.year < b.year then b else a;
      MonthsOrdered(x.year, x.month, 13);
      YearLength(x.year);
      YearsOrdered(x.year, y.year);
      MonthNonNegative(y.year, y.month);
    } else if a.month < b.month {
      MonthsOrdered(a.year, a.month, b.month);
    } else if b.month < a.month {
      MonthsOrdered(a.year, b.month, a.month);
    }
  }

  /** A day comes `n` days after another exactly if their ordinals differ by `n`. */
  lemma DaysBetween(a: Date, b: Date, n: nat)
    requires Proper(a) && Proper(b)
    ensures DaysAfter(a, n) == b <==> Ordinal(b) - Ordinal(a) == n
  {
    OrdinalAfter(a, n);
    if Ordinal(b) - Ordinal(a) == n { ProperOrdinals(DaysAfter(a, n), b); }
  }

  // ---------------------------------------------------------------- ISO text

  function Digit(n: int): (c: char)
    requires 0 <= n < 10
  {
    '0' + n as char
  }

  function DigitValue(c: char): (n: int)
    requires IsDigit(c)
    ensures 0 <= n < 10
  {
    (c - '0') as int
  }

  /** `n` in decimal, zero-padded to `width` digits. */
  function Padded(n: nat, width: nat): (s: string)
    ensures |s| == width
  {
    if width == 0 then "" else Padded(n / 10, width - 1) + [Digit(n % 10)]
  }

  predicate AllDigits(s: string)
  {
    forall i :: 0 <= i < |s| ==> IsDigit(s[i])
  }

  function Decimal(s: string): nat
    requires AllDigits(s)
  {
    if s == "" then 0 else 10 * Decimal(s[..|s| - 1]) + DigitValue(s[|s| - 1])
  }

  function PowerOfTen(width: nat): nat
  {
    if width == 0 then 1 else 10 * PowerOfTen(width - 1)
  }

  lemma {:induction false} DecimalOfPadded(n: nat, width: nat)
    requires n < PowerOfTen(width)
    ensures AllDigits(Padded(n, width)) && Decimal(Padded(n, width)) == n
  {
    if width > 0 {
      DecimalOfPadded(n / 10, width - 1);
      var s := Padded(n, width);
      assert s[..width - 1] == Padded(n / 10, width - 1) && s[width - 1] == Digit(n % 10);
    }
  }

  lemma {:induction false} PaddedOfDecimal(s: string)
    requires AllDigits(s)
    ensures Padded(Decimal(s), |s|) == s
  {
    if s != "" {
      PaddedOfDecimal(s[..|s| - 1]);
      assert s == s[..|s| - 1] + [s[|s| - 1]];
    }
  }

  /** `date.isoformat()`. */
  function IsoText(d: Date): string
    requires ValidDate(d)
  {
    Padded(d.year, 4) + "-" + Padded(d.month, 2) + "-" + Padded(d.day, 2)
  }

  predicate IsoShape(s: string)
  {
    && |s| == 10 && s[4] == '-' && s[7] == '-'
    && AllDigits(s[..4]) && AllDigits(s[5..7]) && AllDigits(s[8..])
  }

  /** The `YYYY-MM-DD` pattern followed by `date.fromisoformat`. */
  function ParseIso(s: string): Option<Date>
  {
    if !IsoShape(s) then None
    else
      var d := Date(Decimal(s[..4]), Decimal(s[5..7]), Decimal(s[8..]));
      if ValidDate(d) then Some(d) else None
  }

  lemma Powers()
    ensures PowerOfTen(2) == 100 && PowerOfTen(4) == 10000
  {
    assert PowerOfTen(1) == 10;
    assert PowerOfTen(3) == 1000;
  }

  lemma ParsedPrints(s: string, d: Date)
    requires ParseIso(s) == Some(d)
    ensures ValidDate(d) && s == IsoText(d)
  {
    PaddedOfDecimal(s[..4]);
    PaddedOfDecimal(s[5..7]);
    PaddedOfDecimal(s[8..]);
    assert s == s[..4] + "-" + s[5..7] + "-" + s[8..];
  }

  /** The ten characters of an ISO date. */
  lemma IsoCharacters(d: Date)
    requires ValidDate(d)
    ensures var y, n, s := d.year, "0123456789", IsoText(d);
            s == [n[y / 1000], n[y / 100 % 10], n[y / 10 % 10], n[y % 10], '-', n[d.month / 10], n[d.month % 10], '-',
                  n[d.day / 10], n[d.day % 10]]
  {
    FourDigits(d.year);
    TwoDigits(d.month);
    TwoDigits(d.day);
  }

  lemma DigitIs(n: nat)
    requires n < 10
    ensures Digit(n) == "0123456789"[n] && DigitValue("0123456789"[n]) == n
  {
  }

  lemma TwoDigits(n: nat)
    requires n < 100
    ensures Padded(n, 2) == ["0123456789"[n / 10], "0123456789"[n % 10]]
  {
    DigitIs(n / 10);
    DigitIs(n % 10);
    assert Padded(n / 10, 1) == [Digit(n / 10)];
  }

  lemma FourDigits(n: nat)
    requires n < 10000
    ensures Padded(n, 4) == ["0123456789"[n / 1000], "0123456789"[n / 100 % 10], "0123456789"[n / 10 % 10],
                             "0123456789"[n % 10]]
  {
    var high, low := n / 100, n % 100;
    TwoDigits(high);
    DigitIs(low / 10);
    DigitIs(low % 10);
    assert high / 10 == n / 1000 && n / 10 / 10 == high && n / 10 % 10 == low / 10 && n % 10 == low % 10;
    LastTwo(n, 4);
  }

  lemma LastTwo(n: nat, width: nat)
    requires width >= 2
    ensures Padded(n, width) == Padded(n / 10 / 10, width - 2) + [Digit(n / 10 % 10), Digit(n % 10)]
  {
    assert Padded(n, width) == Padded(n / 10, width - 1) + [Digit(n % 10)];
    assert Padded(n / 10, width - 1) == Padded(n / 10 / 10, width - 2) + [Digit(n / 10 % 10)];
  }

  lemma JoinedParts(s: string, y: string, m: string, d: string)
    requires |y| == 4 && |m| == 2 && |d| == 2 && s == y + "-" + m + "-" + d
    ensures |s| == 10 && s[4] == '-' && s[7] == '-' && s[..4] == y && s[5..7] == m && s[8..] == d
  {
  }

  lemma PrintedParses(d: Date)
    requires ValidDate(d)
    ensures ParseIso(IsoText(d)) == Some(d)
  {
    Powers();
    DecimalOfPadded(d.year, 4);
    DecimalOfPadded(d.month, 2);
    DecimalOfPadded(d.day, 2);
    JoinedParts(IsoText(d), Padded(d.year, 4), Padded(d.month, 2), Padded(d.day, 2));
  }

  /** A text parses to a date exactly when it is that date printed. */
  lemma ParsePrint(s: string, d: Date)
    ensures ParseIso(s) == Some(d) <==> ValidDate(d) && s == IsoText(d)
  {
    if ParseIso(s) == Some(d) { ParsedPrints(s, d); }
    if ValidDate(d) { PrintedParses(d); }
  }

  // ---------------------------------------------------------------- instants

  /** An aware UTC datetime: a date and the microseconds since its midnight. */
  datatype DateTime = DateTime(date: Date, micros: int)

  const MICROS_PER_DAY := 86_400_000_000
  const MICROS_PER_SECOND := 1_000_000
  const EPOCH_ORDINAL := 719163

  predicate ValidTime(t: DateTime)
  {
    ValidDate(t.date) && 0 <= t.micros < MICROS_PER_DAY
  }

  type Clock = t: DateTime | ValidTime(t) witness DateTime(Date(1970, 1, 1), 0)

  /** Microseconds since 1970-01-01T00:00Z. */
  function Instant(t: Clock): int
  {
    (Ordinal(t.date) - EPOCH_ORDINAL) * MICROS_PER_DAY + t.micros
  }

  /** `int(seconds)`: truncation toward zero. */
  function Epoch(instant: int): int
  {
    if instant >= 0 then instant / MICROS_PER_SECOND else -(-instant / MICROS_PER_SECOND)
  }

  lemma EpochMonotone(a: int, b: int)
    requires a <= b
    ensures Epoch(a) <= Epoch(b)
  {
  }

  /** Whole seconds between zero and the instant, and less than a second away from it. */
  lemma EpochTruncates(instant: int)
    ensures instant >= 0 ==> 0 <= instant - Epoch(instant) * 1_000_000 < 1_000_000
    ensures instant < 0 ==> 0 <= Epoch(instant) * 1_000_000 - instant < 1_000_000
  {
  }

  /** Instants count microseconds from the first of January 1970, midnight. */
  lemma EpochIs1970(t: Clock, n: nat)
    ensures DaysAfter(Date(1970, 1, 1), n) == t.date ==>
              Instant(t) == n * 24 * 3600 * 1_000_000 + t.micros
    ensures DaysAfter(t.date, n) == Date(1970, 1, 1) ==>
              Instant(t) + n * 24 * 3600 * 1_000_000 == t.micros
  {
    DaysBetween(Date(1970, 1, 1), t.date, n);
    DaysBetween(t.date, Date(1970, 1, 1), n);
    DaysBefore1970();
  }

  lemma DaysBefore1970()
    ensures Ordinal(Date(1970, 1, 1)) == EPOCH_ORDINAL
  {
    assert DaysBeforeMonth(1970, 1) == 0;
  }

  /** An instant whose whole seconds lie before a second lies before it. */
  lemma EpochBelow(at: int, second: int)
    requires Epoch(at) < second
    ensures at < second * MICROS_PER_SECOND
  {
  }

  // ---------------------------------------------------------------- months

  datatype Month = Month(year: int, month: int)

  predicate ValidMonth(m: Month)
  {
    1 <= m.year <= 9999 && 1 <= m.month <= 12
  }

  function MonthOf(t: Clock): (m: Month)
    ensures ValidMonth(m)
  {
    Month(t.date.year, t.date.month)
  }

  /** `strftime("%Y-%m")`. */
  function PeriodText(m: Month): string
    requires ValidMonth(m)
  {
    Padded(m.year, 4) + "-" + Padded(m.month, 2)
  }

  /** The seven characters of a period. */
  lemma PeriodCharacters(m: Month)
    requires ValidMonth(m)
    ensures var y, n := m.year, "0123456789";
            PeriodText(m) == [n[y / 1000], n[y / 100 % 10], n[y / 10 % 10], n[y % 10], '-', n[m.month / 10],
                              n[m.month % 10]]
  {
    FourDigits(m.year);
    TwoDigits(m.month);
  }

  lemma PeriodTextInjective(m: Month, n: Month)
    requires ValidMonth(m) && ValidMonth(n) && PeriodText(m) == PeriodText(n)
    ensures m == n
  {
    Powers();
    DecimalOfPadded(m.year, 4);
    DecimalOfPadded(n.year, 4);
    DecimalOfPadded(m.month, 2);
    DecimalOfPadded(n.month, 2);
    var s := PeriodText(m);
    assert s[..4] == Padded(m.year, 4) && s[..4] == Padded(n.year, 4);
    assert s[5..] == Padded(m.month, 2) && s[5..] == Padded(n.month, 2);
  }

  function MonthAfter(m: Month): Month
  {
    if m.month == 12 then Month(m.year + 1, 1) else Month(m.year, m.month + 1)
  }

  /** The instant of the month's first midnight. */
  function MonthStart(m: Month): int
    requires m.year >= 1 && 1 <= m.month <= 12
  {
    (Ordinal(Date(m.year, m.month, 1)) - EPOCH_ORDINAL) * MICROS_PER_DAY
  }

  /** The instant the next month starts. */
  function MonthEnd(m: Month): int
    requires ValidMonth(m)
  {
    MonthStart(MonthAfter(m))
  }

  /** Every instant of a month, December included, comes before the month's end. */
  lemma InsideMonth(t: Clock)
    ensures Instant(t) < MonthEnd(MonthOf(t))
  {
    var d := t.date;
    if d.month == 12 {
      MonthsOrdered(d.year, 12, 13);
      YearLength(d.year);
      YearStep(d.year);
    }
  }

  /** The end of a month is a whole second, so writing it as epoch seconds loses nothing. */
  lemma MonthEndIsWhole(m: Month)
    requires ValidMonth(m)
    ensures Epoch(MonthEnd(m)) * MICROS_PER_SECOND == MonthEnd(m)
  {
    var next := MonthAfter(m);
    var days := Ordinal(Date(next.year, next.month, 1)) - EPOCH_ORDINAL;
    assert MonthEnd(m) == (days * 86400) * MICROS_PER_SECOND;
  }

  /** The expiry of a month's counter: whole days of 86400 seconds from the first of January 1970 to the first day of
      the next month, December and the last year included. */
  lemma MonthEndInDays(m: Month, n: nat)
    requires ValidMonth(m)
    ensures var next := if m.month == 12 then Date(m.year + 1, 1, 1) else Date(m.year, m.month + 1, 1);
            && (DaysAfter(Date(1970, 1, 1), n) == next ==> Epoch(MonthEnd(m)) == n * 86400)
            && (DaysAfter(next, n) == Date(1970, 1, 1) ==> Epoch(MonthEnd(m)) + n * 86400 == 0)
  {
    var next := if m.month == 12 then Date(m.year + 1, 1, 1) else Date(m.year, m.month + 1, 1);
    DaysBetween(Date(1970, 1, 1), next, n);
    DaysBetween(next, Date(1970, 1, 1), n);
    DaysBefore1970();
    MonthEndIsWhole(m);
  }

  predicate MonthBefore(m: Month, n: Month)
  {
    m.year < n.year || (m.year == n.year && m.month < n.month)
  }

  /** Time and months run in the same direction. */
  lemma MonthsFollowTime(a: Clock, b: Clock)
    requires Instant(a) <= Instant(b)
    ensures MonthOf(a) == MonthOf(b) || MonthBefore(MonthOf(a), MonthOf(b))
  {
    OrdinalOrder(b.date, a.date);
  }

  predicate During(m: Month, instant: int)
    requires ValidMonth(m)
  {
    MonthStart(m) <= instant < MonthEnd(m)
  }

  lemma MonthLength(m: Month)
    requires ValidMonth(m)
    ensures MonthEnd(m) == MonthStart(m) + DaysInMonth(m.year, m.month) * MICROS_PER_DAY
  {
    if m.month == 12 {
      MonthsOrdered(m.year, 12, 13);
      YearLength(m.year);
      YearStep(m.year);
    }
  }

  lemma MonthsApart(m: Month, n: Month)
    requires ValidMonth(m) && ValidMonth(n) && MonthBefore(m, n)
    ensures MonthEnd(m) <= MonthStart(n)
  {
    MonthLength(m);
    if m.year == n.year {
      MonthsOrdered(m.year, m.month, n.month);
    } else {
      MonthsOrdered(m.year, m.month, 13);
      YearLength(m.year);
      YearsOrdered(m.year, n.year);
      MonthNonNegative(n.year, n.month);
    }
  }

  /** Months divide time: an instant lies in its own month, and in no other. */
  lemma MonthsDivideTime(t: Clock, m: Month)
    requires ValidMonth(m)
    ensures During(m, Instant(t)) <==> m == MonthOf(t)
  {
    InsideMonth(t);
    if MonthBefore(m, MonthOf(t)) { MonthsApart(m, MonthOf(t)); }
    if MonthBefore(MonthOf(t), m) { MonthsApart(MonthOf(t), m); }
  }

  /** The first microsecond of a month. */
  function FirstInstant(m: Month): (t: Clock)
    requires ValidMonth(m)
    ensures MonthOf(t) == m && Instant(t) == MonthStart(m)
  {
    DateTime(Date(m.year, m.month, 1), 0)
  }

  /** The last microsecond of a month. */
  function LastInstant(m: Month): (t: Clock)
    requires ValidMonth(m)
    ensures MonthOf(t) == m && Instant(t) == MonthEnd(m) - 1
  {
    MonthLength(m);
    DateTime(Date(m.year, m.month, DaysInMonth(m.year, m.month)), MICROS_PER_DAY - 1)
  }
}
