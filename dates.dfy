/** Calendar dates as Python's datetime.date sees them: parsing with
    strptime(s, "%Y-%m-%d"), printing with isoformat(), comparison, and the
    day count toordinal() on which date subtraction rests. */
module Dates {
  import opened Common

  datatype Date = Date(year: int, month: int, day: int)

  predicate IsLeap(y: int) {
    y % 4 == 0 && (y % 100 != 0 || y % 400 == 0)
  }

  function DaysInMonth(y: int, m: int): int
    requires 1 <= m <= 12
  {
    if m == 2 then (if IsLeap(y) then 29 else 28)
    else if m == 4 || m == 6 || m == 9 || m == 11 then 30
    else 31
  }

  /** The dates datetime.date can hold (MINYEAR 1 to MAXYEAR 9999). */
  predicate Valid(d: Date) {
    1 <= d.year <= 9999 && 1 <= d.month <= 12 && 1 <= d.day <= DaysInMonth(d.year, d.month)
  }

  /** date < date: the (year, month, day) triples in lexicographic order. */
  predicate Before(a: Date, b: Date) {
    a.year < b.year || (a.year == b.year && (a.month < b.month || (a.month == b.month && a.day < b.day)))
  }

  // ---------------------------------------------------------------------
  // strptime(s, "%Y-%m-%d")

  /** The %m directive: 1[0-2] | 0[1-9] | [1-9]. */
  function MonthToken(t: string): Option<int> {
    if 1 <= |t| <= 2 && AllDigits(t) && 1 <= DigitsValue(t) <= 12 then Some(DigitsValue(t)) else None
  }

  /** The %d directive: 3[01] | [12][0-9] | 0[1-9] | [1-9] | " "[1-9]. */
  function DayToken(t: string): Option<int> {
    if |t| == 2 && t[0] == ' ' && '1' <= t[1] <= '9' then Some(DigitValue(t[1]))
    else if 1 <= |t| <= 2 && AllDigits(t) && 1 <= DigitsValue(t) <= 31 then Some(DigitsValue(t))
    else None
  }

  /** datetime.strptime(s, "%Y-%m-%d").date(), with None where Python raises
      ValueError: four digits of year, "-", the month, "-", the day, nothing
      else, and a date that exists. */
  function ParseDate(s: string): (r: Option<Date>)
    ensures r.Some? ==> Valid(r.value)
  {
    if |s| < 5 || !AllDigits(s[..4]) || s[4] != '-' then None
    else
      var rest := s[5..];
      match IndexOf(rest, '-')
      case None => None
      case Some(k) =>
        match (MonthToken(rest[..k]), DayToken(rest[k + 1..]))
        case (Some(m), Some(d)) =>
          var date := Date(DigitsValue(s[..4]), m, d);
          if Valid(date) then Some(date) else None
        case _ => None
  }

  // ---------------------------------------------------------------------
  // date.isoformat()

  /** The last `width` decimal digits of n, zero-padded. */
  function Pad(n: nat, width: nat): string {
    if width == 0 then [] else Pad(n / 10, width - 1) + [DigitChar(n % 10)]
  }

  /** date.isoformat(): "YYYY-MM-DD". */
  function IsoFormat(d: Date): string
    requires Valid(d)
  {
    Pad(d.year, 4) + "-" + Pad(d.month, 2) + "-" + Pad(d.day, 2)
  }

  lemma {:induction false} PadDigits(n: nat, width: nat)
    requires n < Pow10(width)
    ensures |Pad(n, width)| == width && AllDigits(Pad(n, width)) && DigitsValue(Pad(n, width)) == n
  {
    if width > 0 {
      PadDigits(n / 10, width - 1);
      DigitsValueSnoc(Pad(n / 10, width - 1), DigitChar(n % 10));
    }
  }

  /** strptime reads back every date that isoformat writes. */
  lemma ParseIsoFormat(d: Date)
    requires Valid(d)
    ensures ParseDate(IsoFormat(d)) == Some(d)
  {
    var y, m, dd := Pad(d.year, 4), Pad(d.month, 2), Pad(d.day, 2);
    PadDigits(d.year, 4);
    PadDigits(d.month, 2);
    PadDigits(d.day, 2);
    var s := IsoFormat(d);
    IsoLayout(y, m, dd);
    var rest := s[5..];
    RestSplit(m, dd);
    assert MonthToken(rest[..2]) == Some(d.month);
    assert DayToken(rest[3..]) == Some(d.day);
  }

  lemma IsoLayout(y: string, m: string, dd: string)
    requires |y| == 4 && AllDigits(y)
    ensures var s := y + "-" + m + "-" + dd;
      |s| >= 5 && s[..4] == y && s[4] == '-' && s[5..] == m + "-" + dd
  {
    var s := y + "-" + m + "-" + dd;
    assert s == y + ("-" + (m + "-" + dd));
  }

  lemma RestSplit(m: string, dd: string)
    requires |m| == 2 && AllDigits(m)
    ensures var rest := m + "-" + dd;
      IndexOf(rest, '-') == Some(2) && rest[..2] == m && rest[3..] == dd
  {
    var rest := m + "-" + dd;
    assert rest[0] != '-' && rest[1] != '-' && rest[2] == '-';
  }

  // ---------------------------------------------------------------------
  // date.toordinal(): day 1 is 0001-01-01

  function DaysBeforeYear(y: int): int {
    var p := y - 1;
    365 * p + p / 4 - p / 100 + p / 400
  }

  function DaysBeforeMonth(y: int, m: int): int
    requires 1 <= m <= 12
  {
    [0, 0, 31, 59, 90, 120, 151, 181, 212, 243, 273, 304, 334][m] + (if m > 2 && IsLeap(y) then 1 else 0)
  }

  function DaysInYear(y: int): int {
    if IsLeap(y) then 366 else 365
  }

  function Ordinal(d: Date): int
    requires Valid(d)
  {
    DaysBeforeYear(d.year) + DaysBeforeMonth(d.year, d.month) + d.day
  }

  /** (b - a).days */
  function DaysBetween(a: Date, b: Date): int
    requires Valid(a) && Valid(b)
  {
    Ordinal(b) - Ordinal(a)
  }

  lemma DaysBeforeNextYear(y: int)
    requires y >= 1
    ensures DaysBeforeYear(y + 1) == DaysBeforeYear(y) + DaysInYear(y)
  {
    DivStep4(y);
    DivStep100(y);
    DivStep400(y);
    if y % 400 == 0 {
      Multiple400(y);
    } else if y % 100 == 0 {
      Multiple100(y);
    }
  }

  lemma DivStep4(y: int)
    ensures y / 4 - (y - 1) / 4 == if y % 4 == 0 then 1 else 0
  {
  }

  lemma DivStep100(y: int)
    ensures y / 100 - (y - 1) / 100 == if y % 100 == 0 then 1 else 0
  {
  }

  lemma DivStep400(y: int)
    ensures y / 400 - (y - 1) / 400 == if y % 400 == 0 then 1 else 0
  {
  }

  lemma Multiple400(y: int)
    requires y % 400 == 0
    ensures y % 100 == 0 && y % 4 == 0
  {
    var k := y / 400;
    assert y == 100 * (4 * k);
    assert y == 4 * (100 * k);
  }

  lemma Multiple100(y: int)
    requires y % 100 == 0
    ensures y % 4 == 0
  {
    var k := y / 100;
    assert y == 4 * (25 * k);
  }

  lemma {:induction false} DaysBeforeYearMonotone(a: int, b: int)
    requires 1 <= a <= b
    ensures DaysBeforeYear(a) <= DaysBeforeYear(b)
    decreases b - a
  {
    if a < b {
      DaysBeforeNextYear(a);
      DaysBeforeYearMonotone(a + 1, b);
    }
  }

  lemma MonthEndsBeforeNextMonth(y: int, m1: int, m2: int)
    requires 1 <= m1 < m2 <= 12
    ensures DaysBeforeMonth(y, m1) + DaysInMonth(y, m1) <= DaysBeforeMonth(y, m2)
  {
  }

  lemma MonthEndsWithinYear(y: int, m: int)
    requires 1 <= m <= 12
    ensures DaysBeforeMonth(y, m) + DaysInMonth(y, m) <= DaysInYear(y)
  {
  }

  lemma BeforeOrdinal(a: Date, b: Date)
    requires Valid(a) && Valid(b) && Before(a, b)
    ensures Ordinal(a) < Ordinal(b)
  {
    if a.year < b.year {
      MonthEndsWithinYear(a.year, a.month);
      DaysBeforeNextYear(a.year);
      DaysBeforeYearMonotone(a.year + 1, b.year);
    } else if a.month < b.month {
      MonthEndsBeforeNextMonth(a.year, a.month, b.month);
    }
  }

  /** Comparing dates is comparing their day numbers. */
  lemma BeforeIffOrdinalLess(a: Date, b: Date)
    requires Valid(a) && Valid(b)
    ensures Before(a, b) <==> Ordinal(a) < Ordinal(b)
  {
    if Before(a, b) {
      BeforeOrdinal(a, b);
    } else if Before(b, a) {
      BeforeOrdinal(b, a);
    } else {
      assert a == b;
    }
  }

  lemma BeforeTransitive(a: Date, b: Date, c: Date)
    requires Before(a, b) && Before(b, c)
    ensures Before(a, c)
  {
  }
}
