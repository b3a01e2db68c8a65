/** The calendar arithmetic the handlers borrow from Python's `datetime`:
    strict `YYYY-MM-DD` parsing (`strptime(s, "%Y-%m-%d")`), formatting
    (`strftime("%Y-%m-%d")`), day ordinals (`date.toordinal()`, where
    0001-01-01 is day 1), shifting by whole days and differences in days.
    Dates range over the proleptic Gregorian years 1..9999, like `datetime`;
    leaving that range is an error (`OverflowError`). */
module Dates {
  import opened Wrappers

  const MaxYear: int := 9999
  /** The ordinal of 9999-12-31, the last day `datetime` can represent. */
  const MaxOrdinal: int := 3652059
  /** Text of the `OverflowError` raised when date arithmetic leaves the range. */
  const OutOfRangeMessage: string := "date value out of range"

  /** A day, as its ordinal: 1 is 0001-01-01. */
  type Date = n: int | 1 <= n <= MaxOrdinal witness 1

  datatype Ymd = Ymd(year: int, month: int, day: int)

  predicate IsLeap(y: int) {
    y % 4 == 0 && (y % 100 != 0 || y % 400 == 0)
  }

  function DaysInYear(y: int): int {
    if IsLeap(y) then 366 else 365
  }

  function DaysInMonth(y: int, m: int): int
    requires 1 <= m <= 12
  {
    if m == 2 then (if IsLeap(y) then 29 else 28)
    else if m == 4 || m == 6 || m == 9 || m == 11 then 30
    else 31
  }

  /** Days in the years before `y` (Python's `_days_before_year`). */
  function DaysBeforeYear(y: int): int
    requires 1 <= y
  {
    var p := y - 1;
    p * 365 + p / 4 - p / 100 + p / 400
  }

  /** Days in the months of `y` before `m` (Python's `_days_before_month`). */
  function DaysBeforeMonth(y: int, m: int): int
    requires 1 <= m <= 12
  {
    [0, 31, 59, 90, 120, 151, 181, 212, 243, 273, 304, 334][m - 1]
      + (if m > 2 && IsLeap(y) then 1 else 0)
  }

  predicate ValidYmd(d: Ymd) {
    && 1 <= d.year <= MaxYear
    && 1 <= d.month <= 12
    && 1 <= d.day <= DaysInMonth(d.year, d.month)
  }

  lemma YearStep(y: int)
    requires 1 <= y
    ensures DaysBeforeYear(y + 1) == DaysBeforeYear(y) + DaysInYear(y)
  {
    DivStep(y - 1);
  }

  /** Each of the leap-year counters steps by one exactly at a multiple. */
  lemma DivStep(p: int)
    requires 0 <= p
    ensures (p + 1) / 4 == p / 4 + (if (p + 1) % 4 == 0 then 1 else 0)
    ensures (p + 1) / 100 == p / 100 + (if (p + 1) % 100 == 0 then 1 else 0)
    ensures (p + 1) / 400 == p / 400 + (if (p + 1) % 400 == 0 then 1 else 0)
  {
  }

  lemma MonthStep(y: int, m: int)
    requires 1 <= m <= 12
    ensures DaysBeforeMonth(y, m) + DaysInMonth(y, m)
            == if m < 12 then DaysBeforeMonth(y, m + 1) else DaysInYear(y)
  {
  }

  /** Later months start no earlier than the end of an earlier month. */
  lemma MonthOrder(y: int, m: int, m': int)
    requires 1 <= m < m' <= 12
    ensures DaysBeforeMonth(y, m) + DaysInMonth(y, m) <= DaysBeforeMonth(y, m')
  {
  }

  lemma {:induction false} YearOrder(y: int, y': int)
    requires 1 <= y < y'
    ensures DaysBeforeYear(y + 1) <= DaysBeforeYear(y')
    decreases y' - y
  {
    if y + 1 < y' {
      YearOrder(y, y' - 1);
      YearStep(y' - 1);
    }
  }

  /** No year of the range ends after the last representable day. */
  lemma LastYearEnd(y: int)
    requires 1 <= y <= MaxYear
    ensures DaysBeforeYear(y + 1) <= MaxOrdinal
  {
    if y < MaxYear {
      YearOrder(y, MaxYear + 1);
    }
  }

  /** Where a day of year `d.year` falls among the year boundaries. */
  lemma OrdinalWithinYear(d: Ymd)
    requires ValidYmd(d)
    ensures DaysBeforeYear(d.year) < DaysBeforeYear(d.year) + DaysBeforeMonth(d.year, d.month) + d.day
    ensures DaysBeforeYear(d.year) + DaysBeforeMonth(d.year, d.month) + d.day <= DaysBeforeYear(d.year + 1)
  {
    MonthStep(d.year, d.month);
    if d.month < 12 {
      MonthOrder(d.year, d.month, 12);
      MonthStep(d.year, 12);
    }
    YearStep(d.year);
  }

  /** The ordinal of a valid calendar date (Python's `date.toordinal`). */
  function ToOrdinal(d: Ymd): (n: Date)
    requires ValidYmd(d)
    ensures DaysBeforeYear(d.year) < n <= DaysBeforeYear(d.year + 1)
  {
    OrdinalWithinYear(d);
    LastYearEnd(d.year);
    DaysBeforeYear(d.year) + DaysBeforeMonth(d.year, d.month) + d.day
  }

  /** The year holding day `n`, searched upwards from year `y`. */
  function YearFrom(n: int, y: int): (r: int)
    requires 1 <= y <= MaxYear
    requires DaysBeforeYear(y) < n <= DaysBeforeYear(MaxYear + 1)
    ensures y <= r <= MaxYear
    ensures DaysBeforeYear(r) < n <= DaysBeforeYear(r + 1)
    decreases MaxYear - y
  {
    if n <= DaysBeforeYear(y + 1) then y else YearFrom(n, y + 1)
  }

  /** The month holding day-of-year `k` of year `y`, searched upwards from `m`. */
  function MonthFrom(y: int, k: int, m: int): (r: int)
    requires 1 <= m <= 12
    requires DaysBeforeMonth(y, m) < k <= DaysInYear(y)
    ensures m <= r <= 12
    ensures DaysBeforeMonth(y, r) < k <= DaysBeforeMonth(y, r) + DaysInMonth(y, r)
    decreases 12 - m
  {
    MonthStep(y, m);
    if k <= DaysBeforeMonth(y, m) + DaysInMonth(y, m) then m else MonthFrom(y, k, m + 1)
  }

  /** The calendar date of an ordinal (Python's `date.fromordinal`). */
  function FromOrdinal(n: Date): (d: Ymd)
    ensures ValidYmd(d) && ToOrdinal(d) == n
  {
    var y := YearFrom(n, 1);
    YearStep(y);
    var m := MonthFrom(y, n - DaysBeforeYear(y), 1);
    Ymd(y, m, n - DaysBeforeYear(y) - DaysBeforeMonth(y, m))
  }

  /** Distinct valid calendar dates have distinct ordinals. */
  lemma OrdinalInjective(a: Ymd, b: Ymd)
    requires ValidYmd(a) && ValidYmd(b)
    requires ToOrdinal(a) == ToOrdinal(b)
    ensures a == b
  {
    if a.year < b.year {
      YearOrder(a.year, b.year);
    } else if b.year < a.year {
      YearOrder(b.year, a.year);
    } else if a.month < b.month {
      MonthOrder(a.year, a.month, b.month);
    } else if b.month < a.month {
      MonthOrder(a.year, b.month, a.month);
    }
  }

  lemma FromToOrdinal(d: Ymd)
    requires ValidYmd(d)
    ensures FromOrdinal(ToOrdinal(d)) == d
  {
    OrdinalInjective(FromOrdinal(ToOrdinal(d)), d);
  }

  // ----- text -----

  predicate IsDigit(c: char) {
    '0' <= c <= '9'
  }

  predicate AllDigits(s: string) {
    forall i :: 0 <= i < |s| ==> IsDigit(s[i])
  }

  function DigitChar(n: int): (c: char)
    requires 0 <= n <= 9
    ensures IsDigit(c)
  {
    (n + '0' as int) as char
  }

  /** The number a string of decimal digits denotes. */
  function DigitsValue(s: string): nat
    requires AllDigits(s)
  {
    if |s| == 0 then 0
    else DigitsValue(s[..|s| - 1]) * 10 + ((s[|s| - 1] as int) - '0' as int)
  }

  function Pow10(w: nat): nat {
    if w == 0 then 1 else 10 * Pow10(w - 1)
  }

  /** `n` written with exactly `width` digits, zero-padded on the left. */
  function Pad(n: nat, width: nat): (s: string)
    ensures |s| == width && AllDigits(s)
  {
    if width == 0 then "" else Pad(n / 10, width - 1) + [DigitChar(n % 10)]
  }

  lemma {:induction false} PadValue(n: nat, width: nat)
    requires n < Pow10(width)
    ensures DigitsValue(Pad(n, width)) == n
  {
    if width > 0 {
      var s := Pad(n, width);
      assert s[..width - 1] == Pad(n / 10, width - 1);
      PadValue(n / 10, width - 1);
    }
  }

  lemma {:induction false} ValuePad(s: string)
    requires AllDigits(s)
    ensures Pad(DigitsValue(s), |s|) == s
  {
    if |s| > 0 {
      var p := s[..|s| - 1];
      assert AllDigits(p);
      ValuePad(p);
      var v := DigitsValue(s);
      assert v / 10 == DigitsValue(p);
      assert DigitChar(v % 10) == s[|s| - 1];
      assert s == p + [s[|s| - 1]];
    }
  }

  /** `strptime(s, "%Y-%m-%d")` read strictly: four-digit year, two-digit
      month and day, and a day that exists in that month and year. */
  function Parse(s: string): (r: Option<Date>)
  {
    if |s| == 10 && s[4] == '-' && s[7] == '-'
       && AllDigits(s[..4]) && AllDigits(s[5..7]) && AllDigits(s[8..])
    then
      var d := Ymd(DigitsValue(s[..4]), DigitsValue(s[5..7]), DigitsValue(s[8..]));
      if ValidYmd(d) then Some(ToOrdinal(d)) else None
    else None
  }

  predicate IsValidDate(s: string) {
    Parse(s).Some?
  }

  /** `strftime("%Y-%m-%d")`. */
  function Format(n: Date): (s: string)
    ensures |s| == 10 && s[4] == '-' && s[7] == '-'
  {
    var d := FromOrdinal(n);
    Pad(d.year, 4) + "-" + Pad(d.month, 2) + "-" + Pad(d.day, 2)
  }

  /** The year, month and day fields of a text joined by dashes. */
  lemma JoinedParts(a: string, b: string, c: string)
    requires |a| == 4 && |b| == 2 && |c| == 2
    ensures var s := a + "-" + b + "-" + c;
      |s| == 10 && s[..4] == a && s[5..7] == b && s[8..] == c
  {
  }

  lemma SplitParts(s: string)
    requires |s| == 10 && s[4] == '-' && s[7] == '-'
    ensures s == s[..4] + "-" + s[5..7] + "-" + s[8..]
  {
  }

  /** Formatting a day and parsing the text gives the day back. */
  lemma ParseFormat(n: Date)
    ensures Parse(Format(n)) == Some(n)
  {
    var d := FromOrdinal(n);
    JoinedParts(Pad(d.year, 4), Pad(d.month, 2), Pad(d.day, 2));
    PadValue(d.year, 4);
    PadValue(d.month, 2);
    PadValue(d.day, 2);
  }

  /** Every text the parser accepts is the canonical text of its day. */
  lemma FormatParse(s: string)
    requires Parse(s).Some?
    ensures Format(Parse(s).value) == s
  {
    var d := Ymd(DigitsValue(s[..4]), DigitsValue(s[5..7]), DigitsValue(s[8..]));
    assert Parse(s).value == ToOrdinal(d);
    FromToOrdinal(d);
    ValuePad(s[..4]);
    ValuePad(s[5..7]);
    ValuePad(s[8..]);
    SplitParts(s);
  }

  // ----- arithmetic -----

  /** `date - timedelta(days=k)`: `None` models the `OverflowError` raised
      when the result leaves years 1..9999. */
  function Minus(n: Date, k: int): (r: Option<Date>)
    ensures r.Some? <==> 1 <= n - k <= MaxOrdinal
    ensures r.Some? ==> r.value + k == n
  {
    if 1 <= n - k <= MaxOrdinal then Some(n - k) else None
  }

  /** `(a - b).days`: the signed number of whole days from `b` to `a`. */
  function DaysBetween(a: Date, b: Date): (k: int)
    ensures Minus(a, k) == Some(b)
  {
    a - b
  }

  /** `s.split(" ")[0]`: the text before the first space, or all of `s`. */
  function DatePart(s: string): (r: string)
    ensures r <= s && ' ' !in r
    ensures |r| < |s| ==> s[|r|] == ' '
  {
    if |s| == 0 || s[0] == ' ' then "" else [s[0]] + DatePart(s[1..])
  }
}
