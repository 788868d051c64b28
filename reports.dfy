/**
 * The analysis reports: totals per category and per date, kept in a
 * dictionary that remembers the order keys were first seen, and the
 * month and year totals relative to "now".
 */
module Reports {
  import opened Wrappers
  import opened Text
  import opened Amounts
  import opened Dates
  import opened Records

  /** One (key, amount) pair read from a stored line. */
  type Pair = (string, real)

  /** Which token of a line keys the totals: the category (second) or the date text (third). */
  datatype Grouping = ByCategory | ByDate

  function KeyIndex(g: Grouping): nat
  {
    if g == ByCategory then 1 else 2
  }

  /**
   * A line as the grouping loops read it: `parts[1]` or `parts[2]` as the
   * key, `float(parts[0])` as the amount. The date key is not checked to be
   * a date.
   */
  function Entry(line: string, g: Grouping): Option<Pair>
  {
    var parts := Split(line);
    if |parts| <= KeyIndex(g) then None
    else match ParseAmount(parts[0])
      case None => None
      case Some(a) => Some((parts[KeyIndex(g)], Value(a)))
  }

  /** The pairs of all lines, or None when some line cannot be read. */
  function Entries(lines: seq<string>, g: Grouping): Option<seq<Pair>>
  {
    if lines == [] then Some([])
    else match Entries(lines[..|lines| - 1], g)
      case None => None
      case Some(ps) =>
        match Entry(lines[|lines| - 1], g)
        case None => None
        case Some(e) => Some(ps + [e])
  }

  /** The distinct keys of `ps`, in the order of their first occurrence. */
  function FirstSeen(ps: seq<Pair>): seq<string>
  {
    if ps == [] then []
    else
      var ks := FirstSeen(ps[..|ps| - 1]);
      if ps[|ps| - 1].0 in ks then ks else ks + [ps[|ps| - 1].0]
  }

  /** Position of the first pair keyed `k`, or `|ps|` when there is none. */
  function FirstPos(ps: seq<Pair>, k: string): (n: nat)
    ensures n <= |ps|
    ensures n < |ps| ==> ps[n].0 == k
    ensures forall a :: 0 <= a < n ==> ps[a].0 != k
  {
    if ps == [] then 0
    else
      var f := FirstPos(ps[..|ps| - 1], k);
      if f < |ps| - 1 then f else if ps[|ps| - 1].0 == k then |ps| - 1 else |ps|
  }

  /** Sum of the amounts keyed `k`. */
  function SumFor(ps: seq<Pair>, k: string): real
  {
    if ps == [] then 0.0
    else SumFor(ps[..|ps| - 1], k) + (if ps[|ps| - 1].0 == k then ps[|ps| - 1].1 else 0.0)
  }

  /** Sum of all amounts. */
  function Total(ps: seq<Pair>): real
  {
    if ps == [] then 0.0 else Total(ps[..|ps| - 1]) + ps[|ps| - 1].1
  }

  predicate NoDuplicates(ks: seq<string>)
  {
    forall i, j :: 0 <= i < j < |ks| ==> ks[i] != ks[j]
  }

  /**
   * The keys of a report are the distinct keys of the pairs, each once,
   * ordered by where each first occurs.
   */
  lemma {:induction false} FirstSeenMeaning(ps: seq<Pair>)
    ensures NoDuplicates(FirstSeen(ps))
    ensures forall k :: k in FirstSeen(ps) <==> FirstPos(ps, k) < |ps|
    ensures forall i, j :: 0 <= i < j < |FirstSeen(ps)| ==>
              FirstPos(ps, FirstSeen(ps)[i]) < FirstPos(ps, FirstSeen(ps)[j])
  {
    if ps != [] {
      var init := ps[..|ps| - 1];
      FirstSeenMeaning(init);
      var ks := FirstSeen(init);
      assert forall k :: FirstPos(init, k) < |init| ==> FirstPos(ps, k) == FirstPos(init, k);
    }
  }

  /** A key that never occurs sums to zero. */
  lemma {:induction false} SumForAbsent(ps: seq<Pair>, k: string)
    requires k !in FirstSeen(ps)
    ensures SumFor(ps, k) == 0.0
  {
    if ps != [] {
      SumForAbsent(ps[..|ps| - 1], k);
    }
  }

  /** The sums of the given keys, each key's sum taken over all of `ps`. */
  function SumOverKeys(ks: seq<string>, ps: seq<Pair>): real
  {
    if ks == [] then 0.0 else SumOverKeys(ks[..|ks| - 1], ps) + SumFor(ps, ks[|ks| - 1])
  }

  lemma {:induction false} SumOverKeysAppend(ks: seq<string>, ps: seq<Pair>, e: Pair)
    requires NoDuplicates(ks)
    ensures SumOverKeys(ks, ps + [e]) == SumOverKeys(ks, ps) + (if e.0 in ks then e.1 else 0.0)
  {
    var ps' := ps + [e];
    assert ps'[..|ps'| - 1] == ps;
    if ks != [] {
      var init := ks[..|ks| - 1];
      assert NoDuplicates(init);
      SumOverKeysAppend(init, ps, e);
      assert e.0 in ks <==> e.0 in init || e.0 == ks[|ks| - 1];
      assert e.0 == ks[|ks| - 1] ==> e.0 !in init;
    }
  }

  /** Grouping conserves the total: the per-key sums add up to the sum of all amounts. */
  lemma {:induction false} GroupingConservesTotal(ps: seq<Pair>)
    ensures SumOverKeys(FirstSeen(ps), ps) == Total(ps)
  {
    if ps != [] {
      var init := ps[..|ps| - 1];
      var e := ps[|ps| - 1];
      assert ps == init + [e];
      GroupingConservesTotal(init);
      FirstSeenMeaning(init);
      var ks := FirstSeen(init);
      SumOverKeysAppend(ks, init, e);
      if e.0 !in ks {
        var ks' := ks + [e.0];
        assert ks'[..|ks'| - 1] == ks;
        SumForAbsent(init, e.0);
      }
    }
  }

  /**
   * Amounts 10 and 5 for "food" and 3 for "transport": the keys are
   * "food" then "transport", with sums 15 and 3.
   */
  lemma CategoryExample()
    ensures var ps := [("food", 10.0), ("food", 5.0), ("transport", 3.0)];
            && FirstSeen(ps) == ["food", "transport"]
            && SumFor(ps, "food") == 15.0 && SumFor(ps, "transport") == 3.0
  {
    var p1: seq<Pair> := [("food", 10.0)];
    var p2 := p1 + [("food", 5.0)];
    var ps := p2 + [("transport", 3.0)];
    assert p1[..0] == [] && p2[..1] == p1 && ps[..2] == p2;
    assert FirstSeen(p1) == ["food"] && SumFor(p1, "food") == 10.0 && SumFor(p1, "transport") == 0.0;
    assert FirstSeen(p2) == ["food"] && SumFor(p2, "food") == 15.0 && SumFor(p2, "transport") == 0.0;
    assert "transport" !in FirstSeen(p2);
    assert ps == [("food", 10.0), ("food", 5.0), ("transport", 3.0)];
  }

  /** An insertion-ordered dictionary of totals: its keys in order, and their values. */
  datatype Totals = Totals(keys: seq<string>, sums: map<string, real>)

  /** Sum of the dictionary's values, walked in key order. */
  function SumValues(keys: seq<string>, sums: map<string, real>): real
    requires forall k :: k in keys ==> k in sums
  {
    if keys == [] then 0.0 else SumValues(keys[..|keys| - 1], sums) + sums[keys[|keys| - 1]]
  }

  lemma {:induction false} SumValuesIsSumOverKeys(keys: seq<string>, sums: map<string, real>, ps: seq<Pair>)
    requires forall k :: k in keys ==> k in sums && sums[k] == SumFor(ps, k)
    ensures SumValues(keys, sums) == SumOverKeys(keys, ps)
  {
    if keys != [] {
      SumValuesIsSumOverKeys(keys[..|keys| - 1], sums, ps);
    }
  }

  lemma {:induction false} EntriesPrefixFails(lines: seq<string>, i: nat, g: Grouping)
    requires i <= |lines|
    requires Entries(lines[..i], g).None?
    ensures Entries(lines, g).None?
    decreases |lines| - i
  {
    if i < |lines| {
      assert lines[..i + 1][..i] == lines[..i];
      EntriesPrefixFails(lines, i + 1, g);
    } else {
      assert lines[..i] == lines;
    }
  }

  lemma EntriesFailAt(lines: seq<string>, i: nat, g: Grouping)
    requires i < |lines|
    requires Entries(lines[..i], g).Some?
    requires Entry(lines[i], g).None?
    ensures Entries(lines, g).None?
  {
    assert lines[..i + 1][..i] == lines[..i];
    EntriesPrefixFails(lines, i + 1, g);
  }

  /** Reading one more line extends the pairs by that line's pair. */
  lemma EntriesStep(lines: seq<string>, i: nat, g: Grouping, e: Pair)
    requires i < |lines|
    requires Entries(lines[..i], g).Some?
    requires Entry(lines[i], g) == Some(e)
    ensures Entries(lines[..i + 1], g) == Some(Entries(lines[..i], g).value + [e])
  {
    assert lines[..i + 1][..i] == lines[..i];
  }

  /** How one more pair changes the keys and the per-key sums. */
  lemma PairStep(ps: seq<Pair>, e: Pair)
    ensures FirstSeen(ps + [e]) == if e.0 in FirstSeen(ps) then FirstSeen(ps) else FirstSeen(ps) + [e.0]
    ensures forall k :: SumFor(ps + [e], k) == SumFor(ps, k) + (if k == e.0 then e.1 else 0.0)
  {
    var ps' := ps + [e];
    assert ps'[..|ps'| - 1] == ps;
  }

  /** `keys` and `sums` are the dictionary built from `ps`. */
  ghost predicate Tracks(keys: seq<string>, sums: map<string, real>, ps: seq<Pair>)
  {
    && keys == FirstSeen(ps)
    && (forall k :: k in sums <==> k in keys)
    && (forall k :: k in sums ==> sums[k] == SumFor(ps, k))
  }

  /** Adding to an existing key, or inserting a new key at the end, keeps the dictionary in step with the pairs. */
  lemma TracksStep(keys: seq<string>, sums: map<string, real>, ps: seq<Pair>, e: Pair)
    requires Tracks(keys, sums, ps)
    ensures e.0 in sums ==> Tracks(keys, sums[e.0 := sums[e.0] + e.1], ps + [e])
    ensures e.0 !in sums ==> Tracks(keys + [e.0], sums[e.0 := e.1], ps + [e])
  {
    PairStep(ps, e);
    if e.0 !in sums {
      SumForAbsent(ps, e.0);
    }
  }

  /** A dictionary built from the pairs sums, over its keys, to the total of the pairs. */
  lemma TracksTotal(keys: seq<string>, sums: map<string, real>, ps: seq<Pair>)
    requires Tracks(keys, sums, ps)
    ensures forall k :: k in keys ==> k in sums
    ensures SumValues(keys, sums) == Total(ps)
  {
    GroupingConservesTotal(ps);
    SumValuesIsSumOverKeys(keys, sums, ps);
  }

  /**
   * One turn of the grouping loop: read the line's key and amount, then add
   * the amount to the key's value, or insert the key at the end.
   */
  method AddLine(keys: seq<string>, sums: map<string, real>, ghost ps: seq<Pair>, line: string, g: Grouping)
    returns (ok: bool, keys': seq<string>, sums': map<string, real>)
    requires Tracks(keys, sums, ps)
    ensures ok <==> Entry(line, g).Some?
    ensures ok ==> Tracks(keys', sums', ps + [Entry(line, g).value])
  {
    var entry := Entry(line, g);
    if entry.None? {
      return false, keys, sums;
    }
    var e := entry.value;
    TracksStep(keys, sums, ps, e);
    ok := true;
    if e.0 in sums {
      keys', sums' := keys, sums[e.0 := sums[e.0] + e.1];
    } else {
      keys', sums' := keys + [e.0], sums[e.0 := e.1];
    }
  }

  /**
   * `t` is the dictionary the grouping loop builds from the pairs `ps`: its
   * keys in first-seen order, each mapped to its total, and the values
   * adding up to the total of all amounts.
   */
  ghost predicate Tallies(t: Totals, ps: seq<Pair>)
  {
    && t.keys == FirstSeen(ps)
    && (forall k :: k in t.sums <==> k in t.keys)
    && (forall k :: k in t.sums ==> t.sums[k] == SumFor(ps, k))
    && SumValues(t.keys, t.sums) == Total(ps)
  }

  /**
   * The per-category / per-date loop: fails when some line cannot be read;
   * otherwise its keys are the distinct keys in first-seen order, each with
   * the sum of its amounts, and its values add up to the sum of all amounts.
   */
  method GroupTotals(lines: seq<string>, g: Grouping) returns (r: Option<Totals>)
    ensures r.None? <==> Entries(lines, g).None?
    ensures r.Some? ==> Tallies(r.value, Entries(lines, g).value)
  {
    var keys: seq<string> := [];
    var sums: map<string, real> := map[];
    ghost var ps: seq<Pair> := [];
    var i := 0;
    assert lines[..0] == [];
    while i < |lines|
      invariant 0 <= i <= |lines|
      invariant Entries(lines[..i], g) == Some(ps)
      invariant Tracks(keys, sums, ps)
    {
      var ok;
      ok, keys, sums := AddLine(keys, sums, ps, lines[i], g);
      if !ok {
        EntriesFailAt(lines, i, g);
        return None;
      }
      EntriesStep(lines, i, g, Entry(lines[i], g).value);
      ps := ps + [Entry(lines[i], g).value];
      i := i + 1;
    }
    assert lines[..i] == lines;
    assert Entries(lines, g) == Some(ps);
    TracksTotal(keys, sums, ps);
    r := Some(Totals(keys, sums));
  }

  /** A stored record yields the pair the grouping expects: its category or date text, and its amount. */
  lemma RecordEntry(line: string, g: Grouping)
    requires IsRecord(line)
    ensures var t := ParseTransaction(line).value;
            Entry(line, g) == Some((if g == ByCategory then t.category else t.dateText, Value(t.amount)))
  {
  }

  lemma {:induction false} RecordsHaveEntries(lines: seq<string>, g: Grouping)
    requires forall i :: 0 <= i < |lines| ==> IsRecord(lines[i])
    ensures Entries(lines, g).Some?
  {
    if lines != [] {
      RecordsHaveEntries(lines[..|lines| - 1], g);
      RecordEntry(lines[|lines| - 1], g);
    }
  }

  // ---- the summary report

  /** A line as the summary loop reads it: `parts[2]` as a date, then `float(parts[0])`. */
  function DatedEntry(line: string): Option<(Date, real)>
  {
    var parts := Split(line);
    if |parts| < 3 then None
    else match ParseDate(parts[2])
      case None => None
      case Some(d) =>
        match ParseAmount(parts[0])
        case None => None
        case Some(a) => Some((d, Value(a)))
  }

  function DatedEntries(lines: seq<string>): Option<seq<(Date, real)>>
  {
    if lines == [] then Some([])
    else match DatedEntries(lines[..|lines| - 1])
      case None => None
      case Some(es) =>
        match DatedEntry(lines[|lines| - 1])
        case None => None
        case Some(e) => Some(es + [e])
  }

  /** Sum of the amounts dated in `now`'s calendar year. */
  function YearTotal(es: seq<(Date, real)>, now: Date): real
  {
    if es == [] then 0.0
    else YearTotal(es[..|es| - 1], now) + (if es[|es| - 1].0.year == now.year then es[|es| - 1].1 else 0.0)
  }

  /** Sum of the amounts dated in `now`'s calendar month of `now`'s year. */
  function MonthTotal(es: seq<(Date, real)>, now: Date): real
  {
    if es == [] then 0.0
    else
      var d := es[|es| - 1].0;
      MonthTotal(es[..|es| - 1], now) + (if d.year == now.year && d.month == now.month then es[|es| - 1].1 else 0.0)
  }

  /** Sum of the amounts dated in `now`'s year but another month. */
  function OtherMonthsTotal(es: seq<(Date, real)>, now: Date): real
  {
    if es == [] then 0.0
    else
      var d := es[|es| - 1].0;
      OtherMonthsTotal(es[..|es| - 1], now) + (if d.year == now.year && d.month != now.month then es[|es| - 1].1 else 0.0)
  }

  /** The month total counts a part of what the year total counts: the rest is the year's other months. */
  lemma {:induction false} YearSplitsIntoMonths(es: seq<(Date, real)>, now: Date)
    ensures YearTotal(es, now) == MonthTotal(es, now) + OtherMonthsTotal(es, now)
  {
    if es != [] {
      YearSplitsIntoMonths(es[..|es| - 1], now);
    }
  }

  /**
   * With now = 2024-08-18 and amounts 100 (2024-08-01), 50 (2024-07-01) and
   * 20 (2023-08-01), the month total is 100 and the year total 150: both
   * 2024 amounts count toward the year.
   */
  lemma SummaryExample()
    ensures var es := [(Date(2024, 8, 1), 100.0), (Date(2024, 7, 1), 50.0), (Date(2023, 8, 1), 20.0)];
            MonthTotal(es, Date(2024, 8, 18)) == 100.0 && YearTotal(es, Date(2024, 8, 18)) == 150.0
  {
    var now := Date(2024, 8, 18);
    var e1: seq<(Date, real)> := [(Date(2024, 8, 1), 100.0)];
    var e2 := e1 + [(Date(2024, 7, 1), 50.0)];
    var es := e2 + [(Date(2023, 8, 1), 20.0)];
    assert e1[..0] == [] && e2[..1] == e1 && es[..2] == e2;
    assert MonthTotal(e1, now) == 100.0 && YearTotal(e1, now) == 100.0;
    assert MonthTotal(e2, now) == 100.0 && YearTotal(e2, now) == 150.0;
    assert MonthTotal(es, now) == 100.0 && YearTotal(es, now) == 150.0;
    assert es == [(Date(2024, 8, 1), 100.0), (Date(2024, 7, 1), 50.0), (Date(2023, 8, 1), 20.0)];
  }

  lemma {:induction false} DatedPrefixFails(lines: seq<string>, i: nat)
    requires i <= |lines|
    requires DatedEntries(lines[..i]).None?
    ensures DatedEntries(lines).None?
    decreases |lines| - i
  {
    if i < |lines| {
      assert lines[..i + 1][..i] == lines[..i];
      DatedPrefixFails(lines, i + 1);
    } else {
      assert lines[..i] == lines;
    }
  }

  lemma DatedFailAt(lines: seq<string>, i: nat)
    requires i < |lines|
    requires DatedEntries(lines[..i]).Some?
    requires DatedEntry(lines[i]).None?
    ensures DatedEntries(lines).None?
  {
    assert lines[..i + 1][..i] == lines[..i];
    DatedPrefixFails(lines, i + 1);
  }

  lemma DatedStep(lines: seq<string>, i: nat, e: (Date, real), now: Date)
    requires i < |lines|
    requires DatedEntries(lines[..i]).Some?
    requires DatedEntry(lines[i]) == Some(e)
    ensures DatedEntries(lines[..i + 1]) == Some(DatedEntries(lines[..i]).value + [e])
    ensures var es := DatedEntries(lines[..i]).value;
            && MonthTotal(es + [e], now) == MonthTotal(es, now) + (if e.0.year == now.year && e.0.month == now.month then e.1 else 0.0)
            && YearTotal(es + [e], now) == YearTotal(es, now) + (if e.0.year == now.year then e.1 else 0.0)
  {
    assert lines[..i + 1][..i] == lines[..i];
    var es := DatedEntries(lines[..i]).value;
    assert (es + [e])[..|es|] == es;
  }

  /**
   * One turn of the summary loop: read the line's date and amount, and add
   * the amount to the year total when the year is now's, and to the month
   * total when the month is also now's.
   */
  method AddDatedLine(totalMonth: real, totalYear: real, line: string, now: Date)
    returns (ok: bool, month': real, year': real)
    ensures ok <==> DatedEntry(line).Some?
    ensures ok ==>
      var (date, amount) := DatedEntry(line).value;
      && year' == totalYear + (if date.year == now.year then amount else 0.0)
      && month' == totalMonth + (if date.year == now.year && date.month == now.month then amount else 0.0)
  {
    var entry := DatedEntry(line);
    if entry.None? {
      return false, totalMonth, totalYear;
    }
    var (date, amount) := entry.value;
    ok, month', year' := true, totalMonth, totalYear;
    if date.year == now.year {
      year' := year' + amount;
      if date.month == now.month {
        month' := month' + amount;
      }
    }
  }

  /**
   * The summary loop: fails when some line cannot be read; otherwise returns
   * (month total, year total) for the calendar month and year of `now`.
   */
  method SummaryTotals(lines: seq<string>, now: Date) returns (r: Option<(real, real)>)
    ensures r.None? <==> DatedEntries(lines).None?
    ensures r.Some? ==>
      var es := DatedEntries(lines).value;
      r.value == (MonthTotal(es, now), YearTotal(es, now))
  {
    var totalMonth, totalYear := 0.0, 0.0;
    ghost var es: seq<(Date, real)> := [];
    var i := 0;
    assert lines[..0] == [];
    while i < |lines|
      invariant 0 <= i <= |lines|
      invariant DatedEntries(lines[..i]) == Some(es)
      invariant totalMonth == MonthTotal(es, now)
      invariant totalYear == YearTotal(es, now)
    {
      var ok;
      ok, totalMonth, totalYear := AddDatedLine(totalMonth, totalYear, lines[i], now);
      if !ok {
        DatedFailAt(lines, i);
        return None;
      }
      DatedStep(lines, i, DatedEntry(lines[i]).value, now);
      es := es + [DatedEntry(lines[i]).value];
      i := i + 1;
    }
    assert lines[..i] == lines;
    assert DatedEntries(lines) == Some(es);
    r := Some((totalMonth, totalYear));
  }

  lemma RecordDatedEntry(line: string)
    requires IsRecord(line)
    ensures var t := ParseTransaction(line).value;
            DatedEntry(line) == Some((ParseDate(t.dateText).value, Value(t.amount)))
  {
  }

  lemma {:induction false} RecordsHaveDatedEntries(lines: seq<string>)
    requires forall i :: 0 <= i < |lines| ==> IsRecord(lines[i])
    ensures DatedEntries(lines).Some?
  {
    if lines != [] {
      RecordsHaveDatedEntries(lines[..|lines| - 1]);
      RecordDatedEntry(lines[|lines| - 1]);
    }
  }

  // ---- choosing a report

  datatype ReportKind = Grouped(g: Grouping) | Summary

  /** The lower-case menu label of each report ("by categories", "by dates", "summary"). */
  function ReportLabel(k: ReportKind): string
  {
    match k
    case Grouped(ByCategory) => "по категориям"
    case Grouped(ByDate) => "по датам"
    case Summary => "общий отчет"
  }

  /** Labels are matched after lower-casing; any other label names no report. */
  function ParseReport(choice: string): (r: Option<ReportKind>)
    ensures forall k :: r == Some(k) <==> Lower(choice) == ReportLabel(k)
  {
    var l := Lower(choice);
    if l == ReportLabel(Grouped(ByCategory)) then Some(Grouped(ByCategory))
    else if l == ReportLabel(Grouped(ByDate)) then Some(Grouped(ByDate))
    else if l == ReportLabel(Summary) then Some(Summary)
    else None
  }

  datatype Report = GroupReport(totals: Totals) | SummaryReport(month: real, year: real)

  datatype ReportError = UnknownReport | UnreadableLine

  /** Every line can be read the way the chosen report reads it. */
  predicate Readable(lines: seq<string>, kind: ReportKind)
  {
    if kind.Grouped? then Entries(lines, kind.g).Some? else DatedEntries(lines).Some?
  }

  /** `rep` is the report of kind `kind` over `lines`, with the summary relative to `now`. */
  ghost predicate ReportOf(lines: seq<string>, kind: ReportKind, now: Date, rep: Report)
  {
    && Readable(lines, kind)
    && if kind.Grouped? then
         rep.GroupReport? && Tallies(rep.totals, Entries(lines, kind.g).value)
       else
         var es := DatedEntries(lines).value;
         rep == SummaryReport(MonthTotal(es, now), YearTotal(es, now))
  }

  /**
   * The analysis handler after the ledger is loaded: an unknown label is an
   * error; otherwise the chosen report, which can fail only on a line that
   * is not a stored record.
   */
  method Analyze(lines: seq<string>, choice: string, now: Date) returns (r: Result<Report, ReportError>)
    ensures ParseReport(choice).None? <==> r == Err(UnknownReport)
    ensures ParseReport(choice).Some? ==>
      var kind := ParseReport(choice).value;
      && (r.Ok? <==> Readable(lines, kind))
      && (r.Err? ==> r.error == UnreadableLine)
      && (r.Ok? ==> ReportOf(lines, kind, now, r.value))
    ensures (forall i :: 0 <= i < |lines| ==> IsRecord(lines[i])) ==> r != Err(UnreadableLine)
  {
    var kind := ParseReport(choice);
    if kind.None? {
      return Err(UnknownReport);
    }
    if kind.value.Grouped? {
      var g := kind.value.g;
      if forall i :: 0 <= i < |lines| ==> IsRecord(lines[i]) {
        RecordsHaveEntries(lines, g);
      }
      var t := GroupTotals(lines, g);
      r := if t.None? then Err(UnreadableLine) else Ok(GroupReport(t.value));
    } else {
      if forall i :: 0 <= i < |lines| ==> IsRecord(lines[i]) {
        RecordsHaveDatedEntries(lines);
      }
      var s := SummaryTotals(lines, now);
      r := if s.None? then Err(UnreadableLine) else Ok(SummaryReport(s.value.0, s.value.1));
    }
  }
}
