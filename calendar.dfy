/** Calendar arithmetic standing in for JavaScript Date, parseLocal and the date-fns
    helpers. A date is a day ordinal: day 0 is 0001-01-01 of the proleptic Gregorian
    calendar, and adding n days adds n to the ordinal. */
module Calendar {
  import opened Types

  const MinutesPerDay := 1440

  predicate IsLeapYear(y: int)
  {
    y % 4 == 0 && (y % 100 != 0 || y % 400 == 0)
  }

  function DaysInYear(y: int): int
  {
    if IsLeapYear(y) then 366 else 365
  }

  function DaysInMonth(y: int, m: int): int
    requires 1 <= m <= 12
  {
    if m == 2 then (if IsLeapYear(y) then 29 else 28)
    else if m == 4 || m == 6 || m == 9 || m == 11 then 30
    else 31
  }

  /** Days in the months before month m of year y. */
  function DaysBeforeMonth(y: int, m: int): int
    requires 1 <= m <= 13
  {
    if m == 1 then 0 else DaysBeforeMonth(y, m - 1) + DaysInMonth(y, m - 1)
  }

  /** Days from 0001-01-01 to January 1 of year y (negative for earlier years). */
  function DaysBeforeYear(y: int): int
  {
    var p := y - 1;
    365 * p + p / 4 - p / 100 + p / 400
  }

  /** `new Date(y, m - 1, d)` as a day ordinal. As in JavaScript, a month outside 1..12
      rolls into the neighbouring years, a day outside the month rolls into the
      neighbouring months, and a year in 0..99 means 1900..1999. */
  function DayNumber(y: int, m: int, d: int): (n: int)
    ensures 1 <= m <= 12 && !(0 <= y <= 99) ==> n == DaysBeforeYear(y) + DaysBeforeMonth(y, m) + d - 1
    ensures 1 <= m <= 12 && 0 <= y <= 99 ==> n == DaysBeforeYear(1900 + y) + DaysBeforeMonth(1900 + y, m) + d - 1
    ensures m == 13 && !(-1 <= y <= 99) ==> n == DaysBeforeYear(y + 1) + d - 1
    ensures m == 0 && !(0 <= y <= 100) ==> n == DaysBeforeYear(y - 1) + DaysBeforeMonth(y - 1, 12) + d - 1
  {
    var year := if 0 <= y <= 99 then 1900 + y else y;
    var yy := year + (m - 1) / 12;
    var mm := (m - 1) % 12 + 1;
    DaysBeforeYear(yy) + DaysBeforeMonth(yy, mm) + d - 1
  }

  predicate ValidDate(y: int, m: int, d: int)
  {
    1 <= m <= 12 && 1 <= d <= DaysInMonth(y, m)
  }

  lemma DivStep4(y: int)
    ensures y / 4 == (y - 1) / 4 + (if y % 4 == 0 then 1 else 0)
  {
  }

  lemma DivStep100(y: int)
    ensures y / 100 == (y - 1) / 100 + (if y % 100 == 0 then 1 else 0)
  {
  }

  lemma DivStep400(y: int)
    ensures y / 400 == (y - 1) / 400 + (if y % 400 == 0 then 1 else 0)
  {
  }

  /** A multiple of 400 is a multiple of 100. */
  lemma CycleIsCentury(y: int)
    requires y % 400 == 0
    ensures y % 100 == 0
  {
    var k := y / 400;
    assert y == 100 * (4 * k);
  }

  /** A multiple of 100 is a multiple of 4. */
  lemma CenturyIsLeap(y: int)
    requires y % 100 == 0
    ensures y % 4 == 0
  {
    var k := y / 100;
    assert y == 4 * (25 * k);
  }

  lemma YearLength(y: int)
    ensures DaysBeforeYear(y + 1) == DaysBeforeYear(y) + DaysInYear(y)
  {
    DivStep4(y);
    DivStep100(y);
    DivStep400(y);
    if y % 400 == 0 {
      CycleIsCentury(y);
    }
    if y % 100 == 0 {
      CenturyIsLeap(y);
    }
    var leap := if y % 4 == 0 then 1 else 0;
    var century := if y % 100 == 0 then 1 else 0;
    var cycle := if y % 400 == 0 then 1 else 0;
    assert DaysInYear(y) == 365 + leap - century + cycle;
    assert DaysBeforeYear(y + 1) == 365 * (y - 1) + 365 + y / 4 - y / 100 + y / 400;
  }

  lemma MonthsFillYear(y: int)
    ensures DaysBeforeMonth(y, 13) == DaysInYear(y)
  {
    assert DaysBeforeMonth(y, 1) == 0;
    assert DaysBeforeMonth(y, 2) == 31;
    assert DaysBeforeMonth(y, 3) == 31 + DaysInMonth(y, 2);
    assert DaysBeforeMonth(y, 4) == DaysBeforeMonth(y, 3) + 31;
    assert DaysBeforeMonth(y, 5) == DaysBeforeMonth(y, 3) + 61;
    assert DaysBeforeMonth(y, 6) == DaysBeforeMonth(y, 3) + 92;
    assert DaysBeforeMonth(y, 7) == DaysBeforeMonth(y, 3) + 122;
    assert DaysBeforeMonth(y, 8) == DaysBeforeMonth(y, 3) + 153;
    assert DaysBeforeMonth(y, 9) == DaysBeforeMonth(y, 3) + 184;
    assert DaysBeforeMonth(y, 10) == DaysBeforeMonth(y, 3) + 214;
    assert DaysBeforeMonth(y, 11) == DaysBeforeMonth(y, 3) + 245;
    assert DaysBeforeMonth(y, 12) == DaysBeforeMonth(y, 3) + 275;
  }

  lemma {:induction false} DaysBeforeMonthGrows(y: int, m1: int, m2: int)
    requires 1 <= m1 < m2 <= 13
    ensures DaysBeforeMonth(y, m1) + DaysInMonth(y, m1) <= DaysBeforeMonth(y, m2)
    decreases m2 - m1
  {
    if m1 + 1 < m2 {
      DaysBeforeMonthGrows(y, m1 + 1, m2);
    }
  }

  /** Days of a valid date stay inside its year. */
  lemma {:induction false} DayWithinYear(y: int, m: int, d: int)
    requires ValidDate(y, m, d)
    ensures 0 <= DaysBeforeMonth(y, m) + d - 1 < DaysInYear(y)
  {
    if m < 12 {
      DaysBeforeMonthGrows(y, m, 13);
    }
    MonthsFillYear(y);
    DaysBeforeMonthNonNegative(y, m);
  }

  lemma {:induction false} DaysBeforeMonthNonNegative(y: int, m: int)
    requires 1 <= m <= 13
    ensures DaysBeforeMonth(y, m) >= 0
  {
    if m > 1 {
      DaysBeforeMonthNonNegative(y, m - 1);
    }
  }

  lemma {:induction false} YearsGrow(y1: int, y2: int)
    requires y1 < y2
    ensures DaysBeforeYear(y1) + DaysInYear(y1) <= DaysBeforeYear(y2)
    decreases y2 - y1
  {
    YearLength(y1);
    if y1 + 1 < y2 {
      YearsGrow(y1 + 1, y2);
    }
  }

  /** For valid dates outside the two-digit-year window, the ordinal follows the
      calendar order (year, then month, then day); in particular it is injective. */
  lemma DayNumberOrder(y1: int, m1: int, d1: int, y2: int, m2: int, d2: int)
    requires ValidDate(y1, m1, d1) && ValidDate(y2, m2, d2)
    requires !(0 <= y1 <= 99) && !(0 <= y2 <= 99)
    requires y1 < y2 || (y1 == y2 && (m1 < m2 || (m1 == m2 && d1 < d2)))
    ensures DayNumber(y1, m1, d1) < DayNumber(y2, m2, d2)
  {
    if y1 < y2 {
      DayWithinYear(y1, m1, d1);
      DayWithinYear(y2, m2, d2);
      YearsGrow(y1, y2);
    } else if m1 < m2 {
      DaysBeforeMonthGrows(y1, m1, m2);
    }
  }

  /** JavaScript getDay(): 0 is Sunday, 1 is Monday, ..., 6 is Saturday. */
  function Weekday(day: int): (w: int)
    ensures 0 <= w < 7
  {
    (day + 1) % 7
  }

  /** The anchor of the weekday formula: 1970-01-01 was a Thursday. */
  lemma EpochIsThursday()
    ensures DayNumber(1970, 1, 1) == 719162 && Weekday(DayNumber(1970, 1, 1)) == 4
  {
  }

  // ----- parseLocal -----

  predicate IsDigit(c: char)
  {
    '0' <= c <= '9'
  }

  predicate AllDigits(s: string)
  {
    forall i :: 0 <= i < |s| ==> IsDigit(s[i])
  }

  /** String.prototype.split with a one-character separator. */
  function Split(s: string, sep: char): (parts: seq<string>)
    ensures |parts| >= 1
  {
    if s == [] then [""]
    else
      var rest := Split(s[1..], sep);
      if s[0] == sep then [""] + rest else [[s[0]] + rest[0]] + rest[1..]
  }

  function ParseDigits(s: string): nat
    requires AllDigits(s)
  {
    if s == [] then 0
    else 10 * ParseDigits(s[..|s| - 1]) + (s[|s| - 1] as int - '0' as int)
  }

  /** Number(field) for a field of a date string: "" is 0, a run of decimal digits is
      its value, anything else is NaN (None). */
  function NumberOf(s: string): (r: Option<int>)
    ensures r.Some? <==> AllDigits(s)
    ensures s == "" ==> r == Some(0)
  {
    if AllDigits(s) then Some(ParseDigits(s)) else None
  }

  /** parseLocal: split on '-', convert the first three fields with Number and build
      the local date at midnight; None stands for an Invalid Date. */
  function ParseLocal(s: string): (r: Option<int>)
    ensures |Split(s, '-')| < 3 ==> r.None?
    ensures r.Some? <==> var parts := Split(s, '-');
                         |parts| >= 3 && AllDigits(parts[0]) && AllDigits(parts[1]) && AllDigits(parts[2])
    ensures r.Some? ==> var parts := Split(s, '-');
                        r.value == DayNumber(ParseDigits(parts[0]), ParseDigits(parts[1]), ParseDigits(parts[2]))
  {
    var parts := Split(s, '-');
    if |parts| < 3 then None
    else
      match (NumberOf(parts[0]), NumberOf(parts[1]), NumberOf(parts[2]))
      case (Some(y), Some(m), Some(d)) => Some(DayNumber(y, m, d))
      case _ => None
  }

  // ----- format(date, 'yyyy-MM-dd') -----

  function Pow10(w: nat): nat
  {
    if w == 0 then 1 else 10 * Pow10(w - 1)
  }

  /** The last w decimal digits of n, zero-padded. */
  function Pad(n: nat, w: nat): (s: string)
    ensures |s| == w && AllDigits(s)
  {
    if w == 0 then "" else Pad(n / 10, w - 1) + [('0' as int + n % 10) as char]
  }

  function FormatDate(y: nat, m: nat, d: nat): string
  {
    Pad(y, 4) + "-" + Pad(m, 2) + "-" + Pad(d, 2)
  }

  lemma {:induction false} ParsePad(n: nat, w: nat)
    requires n < Pow10(w)
    ensures ParseDigits(Pad(n, w)) == n
  {
    if w > 0 {
      var s := Pad(n, w);
      assert s[..w - 1] == Pad(n / 10, w - 1);
      ParsePad(n / 10, w - 1);
    }
  }

  lemma {:induction false} SplitNoSeparator(s: string, sep: char)
    requires sep !in s
    ensures Split(s, sep) == [s]
  {
    if s != [] {
      SplitNoSeparator(s[1..], sep);
      assert s == [s[0]] + s[1..];
    }
  }

  lemma {:induction false} SplitAtFirst(a: string, sep: char, b: string)
    requires sep !in a
    ensures Split(a + [sep] + b, sep) == [a] + Split(b, sep)
  {
    if a != [] {
      assert (a + [sep] + b)[1..] == a[1..] + [sep] + b;
      assert (a + [sep] + b)[0] == a[0];
      SplitAtFirst(a[1..], sep, b);
      assert a == [a[0]] + a[1..];
    } else {
      assert a + [sep] + b == [sep] + b;
    }
  }

  lemma DigitsHaveNoDash(s: string)
    requires AllDigits(s)
    ensures '-' !in s
  {
  }

  /** The three fields of a formatted date are its padded numbers. */
  lemma SplitFormatted(y: nat, m: nat, d: nat)
    ensures Split(FormatDate(y, m, d), '-') == [Pad(y, 4), Pad(m, 2), Pad(d, 2)]
  {
    var ys, ms, ds := Pad(y, 4), Pad(m, 2), Pad(d, 2);
    DigitsHaveNoDash(ys);
    DigitsHaveNoDash(ms);
    DigitsHaveNoDash(ds);
    assert FormatDate(y, m, d) == ys + ['-'] + (ms + ['-'] + ds);
    SplitAtFirst(ys, '-', ms + ['-'] + ds);
    SplitAtFirst(ms, '-', ds);
    SplitNoSeparator(ds, '-');
  }

  /** A date written as 'yyyy-MM-dd' parses back to the same day. */
  lemma ParseFormatRoundTrip(y: nat, m: nat, d: nat)
    requires 100 <= y < 10000 && m < 100 && d < 100
    ensures ParseLocal(FormatDate(y, m, d)) == Some(DayNumber(y, m, d))
  {
    SplitFormatted(y, m, d);
    assert Pow10(4) == 10000 && Pow10(2) == 100;
    ParsePad(y, 4);
    ParsePad(m, 2);
    ParsePad(d, 2);
  }
}
