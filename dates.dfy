/**
 * Calendar dates as the bot reads them with `strptime(..., "%Y-%m-%d")`,
 * and the day count (Python's `date.toordinal()`) behind "n days ago".
 */
module Dates {
  import opened Wrappers
  import opened Amounts

  datatype Date = Date(year: int, month: int, day: int)

  predicate IsLeap(y: int)
  {
    y % 4 == 0 && (y % 100 != 0 || y % 400 == 0)
  }

  function DaysInMonth(y: int, m: int): (n: int)
    requires 1 <= m <= 12
    ensures 28 <= n <= 31
  {
    if m == 2 then (if IsLeap(y) then 29 else 28)
    else if m == 4 || m == 6 || m == 9 || m == 11 then 30
    else 31
  }

  function DaysInYear(y: int): int
  {
    if IsLeap(y) then 366 else 365
  }

  /** A date Python's `date` type accepts: years 1 to 9999 and a real day of the month. */
  predicate ValidDate(d: Date)
  {
    1 <= d.year <= 9999 && 1 <= d.month <= 12 && 1 <= d.day <= DaysInMonth(d.year, d.month)
  }

  /** A `YYYY-MM-DD` token: four, two and two digits separated by dashes, naming a valid date. */
  function ParseDate(s: string): (r: Option<Date>)
    ensures r.Some? ==> ValidDate(r.value)
    ensures r.Some? ==> |s| == 10 && s[4] == '-' && s[7] == '-'
    ensures r.Some? ==> AllDigits(s[..4]) && AllDigits(s[5..7]) && AllDigits(s[8..])
  {
    if |s| == 10 && s[4] == '-' && s[7] == '-'
       && AllDigits(s[..4]) && AllDigits(s[5..7]) && AllDigits(s[8..])
    then
      var d := Date(NatOf(s[..4]), NatOf(s[5..7]), NatOf(s[8..]));
      if ValidDate(d) then Some(d) else None
    else None
  }

  /** The last `w` decimal digits of `n`, zero-padded: `strftime`'s `%Y` (w = 4) and `%m`, `%d` (w = 2). */
  function Fixed(n: nat, w: nat): (s: string)
    ensures |s| == w && AllDigits(s)
  {
    if w == 0 then [] else Fixed(n / 10, w - 1) + [DigitChar(n % 10)]
  }

  /** The token that names date `d`. */
  function FormatDate(d: Date): string
    requires ValidDate(d)
  {
    Fixed(d.year, 4) + "-" + Fixed(d.month, 2) + "-" + Fixed(d.day, 2)
  }

  lemma {:induction false} NatOfFixed(n: nat, w: nat)
    requires n < Pow10(w)
    ensures NatOf(Fixed(n, w)) == n
  {
    if w > 0 {
      var s := Fixed(n, w);
      assert s[..w - 1] == Fixed(n / 10, w - 1);
      NatOfFixed(n / 10, w - 1);
    }
  }

  lemma {:induction false} FixedOfNat(t: string)
    requires AllDigits(t)
    ensures Fixed(NatOf(t), |t|) == t
  {
    if t != [] {
      var init, c := t[..|t| - 1], t[|t| - 1];
      FixedOfNat(init);
      var n := NatOf(t);
      assert n == 10 * NatOf(init) + DigitValue(c);
      assert n / 10 == NatOf(init) && n % 10 == DigitValue(c);
      assert DigitChar(DigitValue(c)) == c;
      assert t == init + [c];
    }
  }

  lemma FormatDateParses(d: Date)
    requires ValidDate(d)
    ensures ParseDate(FormatDate(d)) == Some(d)
  {
    var s := FormatDate(d);
    assert Pow10(2) == 100 && Pow10(4) == 10000;
    assert s[..4] == Fixed(d.year, 4);
    assert s[5..7] == Fixed(d.month, 2);
    assert s[8..] == Fixed(d.day, 2);
    NatOfFixed(d.year, 4);
    NatOfFixed(d.month, 2);
    NatOfFixed(d.day, 2);
  }

  lemma ParsedDateIsFormat(s: string)
    requires ParseDate(s).Some?
    ensures s == FormatDate(ParseDate(s).value)
  {
    FixedOfNat(s[..4]);
    FixedOfNat(s[5..7]);
    FixedOfNat(s[8..]);
    assert s == s[..4] + "-" + s[5..7] + "-" + s[8..];
  }

  /**
   * A token is read as date `d` exactly when it is the zero-padded
   * `YYYY-MM-DD` spelling of the valid date `d`: nothing else is accepted,
   * and every valid date's spelling is.
   */
  lemma ParseDateExact(s: string, d: Date)
    ensures ParseDate(s) == Some(d) <==> ValidDate(d) && s == FormatDate(d)
  {
    if ParseDate(s) == Some(d) {
      ParsedDateIsFormat(s);
    }
    if ValidDate(d) && s == FormatDate(d) {
      FormatDateParses(d);
    }
  }

  /** Days in the years before year `y` (Python's `_days_before_year`). */
  function DaysBeforeYear(y: int): int
    requires y >= 1
  {
    var k := y - 1;
    k * 365 + k / 4 - k / 100 + k / 400
  }

  /** Days in the months of year `y` before month `m` (Python's `_days_before_month`). */
  function DaysBeforeMonth(y: int, m: int): (n: int)
    requires 1 <= m <= 12
    ensures n >= 0
  {
    var base :=
      if m == 1 then 0 else if m == 2 then 31 else if m == 3 then 59
      else if m == 4 then 90 else if m == 5 then 120 else if m == 6 then 151
      else if m == 7 then 181 else if m == 8 then 212 else if m == 9 then 243
      else if m == 10 then 273 else if m == 11 then 304 else 334;
    base + (if m > 2 && IsLeap(y) then 1 else 0)
  }

  /** Python's `date.toordinal()`: 0001-01-01 is day 1. */
  function Ordinal(d: Date): int
    requires ValidDate(d)
  {
    DaysBeforeYear(d.year) + DaysBeforeMonth(d.year, d.month) + d.day
  }

  /** Python's `<` on dates: by year, then month, then day. */
  predicate Before(a: Date, b: Date)
  {
    a.year < b.year || (a.year == b.year && (a.month < b.month || (a.month == b.month && a.day < b.day)))
  }

  /** Leap days in the years before year `y`. */
  function LeapDaysBefore(y: int): int
    requires y >= 1
  {
    var k := y - 1;
    k / 4 - k / 100 + k / 400
  }

  lemma MultiplesStep(k: nat, d: nat)
    requires d == 4 || d == 100 || d == 400
    ensures (k + 1) / d == k / d + (if (k + 1) % d == 0 then 1 else 0)
  {
    var q, r := k / d, k % d;
    assert k == q * d + r && 0 <= r < d;
    if r + 1 == d {
      assert k + 1 == (q + 1) * d;
    } else {
      assert k + 1 == q * d + (r + 1);
    }
  }

  lemma CenturiesAreQuadrennial(y: int)
    ensures y % 100 == 0 ==> y % 4 == 0
    ensures y % 400 == 0 ==> y % 100 == 0
  {
    if y % 100 == 0 {
      assert y == 4 * (25 * (y / 100));
    }
    if y % 400 == 0 {
      assert y == 100 * (4 * (y / 400));
    }
  }

  /** Year `y` adds one leap day to the count exactly when it is a leap year. */
  lemma LeapDaysStep(y: int)
    requires y >= 1
    ensures LeapDaysBefore(y + 1) == LeapDaysBefore(y) + (if IsLeap(y) then 1 else 0)
  {
    MultiplesStep(y - 1, 4);
    MultiplesStep(y - 1, 100);
    MultiplesStep(y - 1, 400);
    CenturiesAreQuadrennial(y);
  }

  lemma DaysBeforeYearStep(y: int)
    requires y >= 1
    ensures DaysBeforeYear(y + 1) == DaysBeforeYear(y) + DaysInYear(y)
  {
    LeapDaysStep(y);
    assert DaysBeforeYear(y + 1) == y * 365 + LeapDaysBefore(y + 1);
    assert DaysBeforeYear(y) == (y - 1) * 365 + LeapDaysBefore(y);
  }

  lemma {:induction false} DaysBeforeYearMonotone(y: int, z: int)
    requires 1 <= y < z
    ensures DaysBeforeYear(y) + DaysInYear(y) <= DaysBeforeYear(z)
    decreases z - y
  {
    DaysBeforeYearStep(y);
    if y + 1 < z {
      DaysBeforeYearMonotone(y + 1, z);
    }
  }

  lemma DaysBeforeMonthMonotone(y: int, m: int, n: int)
    requires 1 <= m < n <= 12
    ensures DaysBeforeMonth(y, m) + DaysInMonth(y, m) <= DaysBeforeMonth(y, n)
  {
  }

  lemma LastMonthEndsYear(y: int)
    ensures DaysBeforeMonth(y, 12) + DaysInMonth(y, 12) == DaysInYear(y)
  {
  }

  lemma {:induction false} OrdinalMonotone(a: Date, b: Date)
    requires ValidDate(a) && ValidDate(b)
    requires Before(a, b)
    ensures Ordinal(a) < Ordinal(b)
  {
    if a.year < b.year {
      if a.month < 12 {
        DaysBeforeMonthMonotone(a.year, a.month, 12);
      }
      LastMonthEndsYear(a.year);
      DaysBeforeYearMonotone(a.year, b.year);
    } else if a.month < b.month {
      DaysBeforeMonthMonotone(a.year, a.month, b.month);
    }
  }

  /**
   * The day count orders valid dates exactly as Python compares them, and
   * two valid dates have the same day count only when they are equal: so
   * `d >= today - n days` holds iff `Ordinal(d) >= Ordinal(today) - n`.
   */
  lemma OrdinalOrder(a: Date, b: Date)
    requires ValidDate(a) && ValidDate(b)
    ensures Before(a, b) <==> Ordinal(a) < Ordinal(b)
    ensures a == b <==> Ordinal(a) == Ordinal(b)
  {
    if Before(a, b) {
      OrdinalMonotone(a, b);
    } else if Before(b, a) {
      OrdinalMonotone(b, a);
    }
  }
}
