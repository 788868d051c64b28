/**
 * Viewing transactions over a period: the label the user picks from the
 * keyboard, lower-cased, selects one of four filters over the stored lines.
 * "Today" is a parameter of every filter.
 */
module Periods {
  import opened Wrappers
  import opened Text
  import opened Dates
  import opened Records

  datatype Period = Today | LastWeek | LastMonth | AllTime

  /** The lower-case menu label of each period ("today", "week", "month", "all time"). */
  function PeriodLabel(p: Period): string
  {
    match p
    case Today => "сегодня"
    case LastWeek => "неделя"
    case LastMonth => "месяц"
    case AllTime => "всё время"
  }

  /** Labels are matched after lower-casing; any other label names no period. */
  function ParsePeriod(choice: string): (r: Option<Period>)
    ensures forall p :: r == Some(p) <==> Lower(choice) == PeriodLabel(p)
  {
    var l := Lower(choice);
    if l == PeriodLabel(Today) then Some(Today)
    else if l == PeriodLabel(LastWeek) then Some(LastWeek)
    else if l == PeriodLabel(LastMonth) then Some(LastMonth)
    else if l == PeriodLabel(AllTime) then Some(AllTime)
    else None
  }

  /** Length in days of the two sliding windows; the month is a fixed 30 days. */
  function WindowDays(p: Period): nat
    requires p == LastWeek || p == LastMonth
  {
    if p == LastWeek then 7 else 30
  }

  /** The date of a stored line, read as the filters read it: the third token, as a date. */
  function LineDate(line: string): Option<Date>
  {
    var parts := Split(line);
    if |parts| < 3 then None else ParseDate(parts[2])
  }

  /** A line has date `d` exactly when its third token is the spelling of the valid date `d`. */
  lemma LineDateSpelling(line: string, d: Date)
    ensures LineDate(line) == Some(d) <==> |Split(line)| >= 3 && ValidDate(d) && Split(line)[2] == FormatDate(d)
  {
    if |Split(line)| >= 3 {
      ParseDateExact(Split(line)[2], d);
    }
  }

  /**
   * Whether a transaction dated `d` is shown: on `today` for Today; no
   * earlier than `today` minus the window for the two windows (inclusive).
   */
  predicate Keep(p: Period, d: Date, today: Date)
    requires ValidDate(d) && ValidDate(today)
  {
    match p
    case Today => d == today
    case LastWeek => Ordinal(d) >= Ordinal(today) - 7
    case LastMonth => Ordinal(d) >= Ordinal(today) - 30
    case AllTime => true
  }

  predicate Kept(line: string, p: Period, today: Date)
    requires ValidDate(today)
  {
    match LineDate(line)
    case None => false
    case Some(d) => Keep(p, d, today)
  }

  /** The filters' list comprehension: every line's date is read; one that cannot be read aborts the view. */
  function Filter(lines: seq<string>, p: Period, today: Date): Option<seq<string>>
    requires ValidDate(today)
  {
    if lines == [] then Some([])
    else match LineDate(lines[0])
      case None => None
      case Some(d) =>
        match Filter(lines[1..], p, today)
        case None => None
        case Some(rest) => Some(if Keep(p, d, today) then [lines[0]] + rest else rest)
  }

  /** `a` is `b` with some elements dropped, the rest in their original order. */
  predicate SubsequenceOf<T(==)>(a: seq<T>, b: seq<T>)
  {
    if a == [] then true
    else if b == [] then false
    else (a[0] == b[0] && SubsequenceOf(a[1..], b[1..])) || SubsequenceOf(a, b[1..])
  }

  lemma {:induction false} SubsequenceOfSelf<T>(a: seq<T>)
    ensures SubsequenceOf(a, a)
  {
    if a != [] {
      SubsequenceOfSelf(a[1..]);
    }
  }

  /**
   * A filter succeeds exactly when every line has a readable date, and it
   * then returns the kept lines in their original order: a subsequence of
   * the input holding every kept line as often as the input does and no
   * other line.
   */
  lemma {:induction false} FilterMeaning(lines: seq<string>, p: Period, today: Date)
    requires ValidDate(today)
    ensures Filter(lines, p, today).Some? <==> forall i :: 0 <= i < |lines| ==> LineDate(lines[i]).Some?
    ensures Filter(lines, p, today).Some? ==>
      var out := Filter(lines, p, today).value;
      && SubsequenceOf(out, lines)
      && forall x :: multiset(out)[x] == if Kept(x, p, today) then multiset(lines)[x] else 0
  {
    FilterDefined(lines, p, today);
    if Filter(lines, p, today).Some? {
      FilterSubsequence(lines, p, today);
      FilterCounts(lines, p, today);
    }
  }

  lemma {:induction false} FilterDefined(lines: seq<string>, p: Period, today: Date)
    requires ValidDate(today)
    ensures Filter(lines, p, today).Some? <==> forall i :: 0 <= i < |lines| ==> LineDate(lines[i]).Some?
  {
    if lines != [] {
      FilterDefined(lines[1..], p, today);
      assert forall i :: 1 <= i < |lines| ==> lines[i] == lines[1..][i - 1];
    }
  }

  lemma {:induction false} FilterSubsequence(lines: seq<string>, p: Period, today: Date)
    requires ValidDate(today)
    requires Filter(lines, p, today).Some?
    ensures SubsequenceOf(Filter(lines, p, today).value, lines)
  {
    if lines != [] {
      FilterSubsequence(lines[1..], p, today);
      var rest := Filter(lines[1..], p, today).value;
      var out := Filter(lines, p, today).value;
      if Kept(lines[0], p, today) {
        assert out == [lines[0]] + rest;
        assert out[1..] == rest;
      } else {
        assert out == rest;
      }
    }
  }

  lemma {:induction false} FilterCounts(lines: seq<string>, p: Period, today: Date)
    requires ValidDate(today)
    requires Filter(lines, p, today).Some?
    ensures var out := Filter(lines, p, today).value;
      forall x :: multiset(out)[x] == if Kept(x, p, today) then multiset(lines)[x] else 0
  {
    if lines != [] {
      FilterCounts(lines[1..], p, today);
      assert lines == [lines[0]] + lines[1..];
      var rest := Filter(lines[1..], p, today).value;
      var out := Filter(lines, p, today).value;
      if Kept(lines[0], p, today) {
        assert out == [lines[0]] + rest;
      } else {
        assert out == rest;
      }
    }
  }

  /** Stored records always carry a readable date. */
  lemma RecordHasDate(line: string)
    requires IsRecord(line)
    ensures LineDate(line) == ParseDate(ParseTransaction(line).value.dateText)
    ensures LineDate(line).Some?
  {
  }

  lemma RecordsHaveDates(lines: seq<string>)
    ensures (forall i :: 0 <= i < |lines| ==> IsRecord(lines[i])) ==>
            forall i :: 0 <= i < |lines| ==> LineDate(lines[i]).Some?
  {
    forall i | 0 <= i < |lines| && IsRecord(lines[i])
      ensures LineDate(lines[i]).Some?
    {
      RecordHasDate(lines[i]);
    }
  }

  datatype ViewError = UnknownPeriod | UndatedLine | DateOutOfRange

  /**
   * The view handler after the ledger is loaded. An unknown label is an
   * error; "all time" shows the lines unchanged; the windows first compute
   * `today` minus the window, which fails before 0001-01-01.
   */
  function View(lines: seq<string>, choice: string, today: Date): (r: Result<seq<string>, ViewError>)
    requires ValidDate(today)
    ensures ParsePeriod(choice).None? <==> r == Err(UnknownPeriod)
    ensures ParsePeriod(choice) == Some(AllTime) ==> r == Ok(lines)
    ensures r.Ok? ==> SubsequenceOf(r.value, lines)
    ensures ParsePeriod(choice).Some? && ParsePeriod(choice).value != AllTime ==>
      var p := ParsePeriod(choice).value;
      var underflow := p != Today && Ordinal(today) - WindowDays(p) < 1;
      && (r == Err(DateOutOfRange) <==> underflow)
      && (r == Err(UndatedLine) <==> !underflow && exists i :: 0 <= i < |lines| && LineDate(lines[i]).None?)
      && (r.Ok? ==> Filter(lines, p, today) == Some(r.value))
      && (r.Ok? ==> forall x :: multiset(r.value)[x] == if Kept(x, p, today) then multiset(lines)[x] else 0)
    ensures (forall i :: 0 <= i < |lines| ==> IsRecord(lines[i])) ==> r.Err? ==> r.error != UndatedLine
  {
    match ParsePeriod(choice)
    case None => Err(UnknownPeriod)
    case Some(p) =>
      if p == AllTime then (SubsequenceOfSelf(lines); Ok(lines))
      else if p != Today && Ordinal(today) - WindowDays(p) < 1 then Err(DateOutOfRange)
      else
        FilterMeaning(lines, p, today);
        RecordsHaveDates(lines);
        match Filter(lines, p, today)
        case None => Err(UndatedLine)
        case Some(out) => Ok(out)
  }

  /**
   * The window test on day counts is Python's `date >= today - timedelta(days=n)`:
   * for the date `start` that lies `n` days before `today`, a date is kept iff
   * it is not before `start`. A transaction exactly 7 days old is in the week.
   */
  lemma WindowIsDateComparison(p: Period, d: Date, today: Date, start: Date)
    requires p == LastWeek || p == LastMonth
    requires ValidDate(d) && ValidDate(today) && ValidDate(start)
    requires Ordinal(start) == Ordinal(today) - WindowDays(p)
    ensures Keep(p, d, today) <==> !Before(d, start)
    ensures d == start ==> Keep(p, d, today)
  {
    OrdinalOrder(d, start);
  }

  /** A window does not reach one day further back than its length. */
  lemma WindowBoundary(p: Period, d: Date, today: Date)
    requires p == LastWeek || p == LastMonth
    requires ValidDate(d) && ValidDate(today)
    ensures Ordinal(d) == Ordinal(today) - WindowDays(p) ==> Keep(p, d, today)
    ensures Ordinal(d) == Ordinal(today) - WindowDays(p) - 1 ==> !Keep(p, d, today)
  {
  }

  /** With today 2024-08-18, the week keeps 2024-08-11 and drops 2024-08-10. */
  lemma WeekExample()
    ensures Keep(LastWeek, Date(2024, 8, 11), Date(2024, 8, 18))
    ensures !Keep(LastWeek, Date(2024, 8, 10), Date(2024, 8, 18))
  {
  }
}
