/**
 * A transaction as the user types it and as the ledger stores it: one line
 * `"<amount> <category> <YYYY-MM-DD>"`.
 */
module Records {
  import opened Wrappers
  import opened Text
  import opened Amounts
  import opened Dates

  /** The three fields of a transaction; the date is kept as the text the user typed. */
  datatype Transaction = Transaction(amount: Decimal, category: string, dateText: string)

  /** What a parsed transaction always satisfies. */
  predicate WellFormed(t: Transaction)
  {
    IsToken(t.category) && ParseDate(t.dateText).Some?
  }

  /**
   * Reading a transaction: exactly three whitespace-separated tokens, the
   * first an amount, the third a `YYYY-MM-DD` date; the second is the
   * category, taken verbatim. Anything else is a format error.
   */
  function ParseTransaction(text: string): (r: Option<Transaction>)
    ensures r.Some? <==>
      var parts := Split(text);
      |parts| == 3 && ParseAmount(parts[0]).Some? && ParseDate(parts[2]).Some?
    ensures r.Some? ==>
      var parts := Split(text);
      && WellFormed(r.value)
      && ParseAmount(parts[0]) == Some(r.value.amount)
      && r.value.category == parts[1]
      && r.value.dateText == parts[2]
  {
    var parts := Split(text);
    if |parts| != 3 then None
    else match ParseAmount(parts[0])
      case None => None
      case Some(a) =>
        if ParseDate(parts[2]).None? then None
        else Some(Transaction(a, parts[1], parts[2]))
  }

  /** The line stored for a transaction. */
  function Encode(t: Transaction): string
  {
    FormatAmount(t.amount) + " " + t.category + " " + t.dateText
  }

  /** A stored line is well formed when it reads back as a transaction. */
  predicate IsRecord(line: string)
  {
    ParseTransaction(line).Some?
  }

  /** The stored line splits into exactly the written amount, the category and the date text. */
  lemma EncodeSplits(t: Transaction)
    requires WellFormed(t)
    ensures Split(Encode(t)) == [FormatAmount(t.amount), t.category, t.dateText]
  {
    FormatAmountIsToken(t.amount);
    var d := ParseDate(t.dateText).value;
    assert IsToken(t.dateText) by {
      forall i | 0 <= i < |t.dateText|
        ensures !IsSpace(t.dateText[i])
      {
        assert i < 4 ==> t.dateText[..4][i] == t.dateText[i];
        assert 5 <= i < 7 ==> t.dateText[5..7][i - 5] == t.dateText[i];
        assert 8 <= i ==> t.dateText[8..][i - 8] == t.dateText[i];
      }
    }
    SplitJoin3(FormatAmount(t.amount), t.category, t.dateText);
  }

  /** Every transaction the parser produces is stored as a line that reads back as itself. */
  lemma RecordRoundTrip(t: Transaction)
    requires WellFormed(t)
    ensures ParseTransaction(Encode(t)) == Some(t)
  {
    EncodeSplits(t);
    AmountRoundTrip(t.amount);
  }

  /**
   * The stored line keeps the user's category and date tokens verbatim and
   * rewrites only the amount, to a numeral that reads as the same number.
   */
  lemma StoredLineKeepsInput(text: string, t: Transaction)
    requires ParseTransaction(text) == Some(t)
    ensures |Split(text)| == 3
    ensures Split(Encode(t)) == [FormatAmount(t.amount)] + Split(text)[1..]
    ensures ParseAmount(Split(Encode(t))[0]) == ParseAmount(Split(text)[0])
    ensures IsRecord(Encode(t))
  {
    var parts := Split(text);
    var written := FormatAmount(t.amount);
    EncodeSplits(t);
    assert Split(Encode(t)) == [written, t.category, t.dateText];
    assert parts[1..] == [t.category, t.dateText];
    AmountRoundTrip(t.amount);
    assert ParseAmount(written) == Some(t.amount) == ParseAmount(parts[0]);
    RecordRoundTrip(t);
  }
}
