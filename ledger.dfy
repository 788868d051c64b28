/**
 * The per-chat ledgers the handlers load and store, and the handlers that
 * change them. Each ledger file becomes an entry of a map keyed by chat id;
 * the session flag `adding_transaction` becomes the set of chats it is set for.
 */
module LedgerStore {
  import opened Wrappers
  import opened Dates
  import opened Records
  import opened Periods
  import opened Reports

  /** One ledger file: the stored transaction lines and the settings dictionary. */
  datatype Ledger = Ledger(transactions: seq<string>, settings: map<string, string>)

  const EmptyLedger := Ledger([], map[])

  const CurrencyKey := "currency"

  /** Every line of the ledger is a stored record. */
  predicate AllRecords(lines: seq<string>)
  {
    forall i :: 0 <= i < |lines| ==> IsRecord(lines[i])
  }

  lemma AppendRecord(lines: seq<string>, line: string)
    requires AllRecords(lines) && IsRecord(line)
    ensures AllRecords(lines + [line])
  {
    assert forall i :: 0 <= i < |lines| ==> (lines + [line])[i] == lines[i];
  }

  /** The ledgers after `start`: an empty ledger for a chat that has none, nothing else touched. */
  function Ensure(ledgers: map<string, Ledger>, chat: string): (r: map<string, Ledger>)
    ensures chat in r && r.Keys == ledgers.Keys + {chat}
    ensures forall c :: c in ledgers ==> r[c] == ledgers[c]
    ensures chat !in ledgers ==> r[chat] == EmptyLedger
  {
    if chat in ledgers then ledgers else ledgers[chat := EmptyLedger]
  }

  /** `start` twice is `start` once. */
  lemma EnsureIdempotent(ledgers: map<string, Ledger>, chat: string)
    ensures Ensure(Ensure(ledgers, chat), chat) == Ensure(ledgers, chat)
  {
  }

  /** The ledger after the currency is chosen: only `settings["currency"]` changes. */
  function WithCurrency(l: Ledger, currency: string): (r: Ledger)
    ensures r.transactions == l.transactions
    ensures CurrencyKey in r.settings && r.settings[CurrencyKey] == currency
    ensures forall k :: k != CurrencyKey ==> (k in r.settings <==> k in l.settings)
    ensures forall k :: k != CurrencyKey && k in l.settings ==> r.settings[k] == l.settings[k]
  {
    l.(settings := l.settings[CurrencyKey := currency])
  }

  /** Choosing the same currency twice gives the same ledger as choosing it once. */
  lemma WithCurrencyIdempotent(l: Ledger, currency: string)
    ensures WithCurrency(WithCurrency(l, currency), currency) == WithCurrency(l, currency)
  {
  }

  /** What submitting a transaction did. */
  datatype AddOutcome =
    | NotAdding           // the chat's flag was not set: the handler does nothing
    | Added(line: string) // the line appended to the ledger
    | InvalidFormat       // the text did not parse; nothing stored
    | NoLedgerFile        // the text parsed but the chat has no ledger: the handler aborts

  /** The answer of a handler that only reads a ledger. */
  datatype Loaded<T> = NoLedger | Loaded(answer: T)

  class Store {
    /** The ledger file of each chat that has one. */
    var ledgers: map<string, Ledger>
    /** The chats whose next text message is read as a transaction. */
    var adding: set<string>

    /** Every stored line was written by the add handler, so it reads back as a transaction. */
    ghost predicate Valid()
      reads this
    {
      forall c :: c in ledgers ==> AllRecords(ledgers[c].transactions)
    }

    constructor ()
      ensures Valid()
      ensures ledgers == map[] && adding == {}
    {
      ledgers := map[];
      adding := {};
    }

    /** `/start`: create an empty ledger for the chat unless it already has one. */
    method Start(chat: string)
      requires Valid()
      modifies this`ledgers
      ensures Valid()
      ensures ledgers == Ensure(old(ledgers), chat)
    {
      if chat !in ledgers {
        ledgers := ledgers[chat := EmptyLedger];
      }
    }

    /** `/add`: the chat's next text message is read as a transaction. */
    method BeginAdd(chat: string)
      requires Valid()
      modifies this`adding
      ensures Valid()
      ensures adding == old(adding) + {chat}
    {
      adding := adding + {chat};
    }

    /**
     * The text handler for transactions. With the flag set: a text that does
     * not parse is refused and nothing is stored; one that parses is appended,
     * as its encoded line, to the end of the chat's list when the chat has a
     * ledger, with every other line, the settings and all other chats
     * unchanged. The flag is cleared, except when the text parses but the
     * chat has no ledger: then loading aborts the handler, nothing is stored
     * and the flag stays set.
     */
    method SubmitTransaction(chat: string, text: string) returns (outcome: AddOutcome)
      requires Valid()
      modifies this
      ensures Valid()
      ensures chat !in old(adding) ==>
        outcome == NotAdding && ledgers == old(ledgers) && adding == old(adding)
      ensures chat in old(adding) && ParseTransaction(text).None? ==>
        outcome == InvalidFormat && ledgers == old(ledgers) && adding == old(adding) - {chat}
      ensures chat in old(adding) && ParseTransaction(text).Some? && chat !in old(ledgers) ==>
        outcome == NoLedgerFile && ledgers == old(ledgers) && adding == old(adding)
      ensures chat in old(adding) && ParseTransaction(text).Some? && chat in old(ledgers) ==>
        var line := Encode(ParseTransaction(text).value);
        var l := old(ledgers)[chat];
        && outcome == Added(line)
        && ledgers == old(ledgers)[chat := l.(transactions := l.transactions + [line])]
        && adding == old(adding) - {chat}
    {
      if chat !in adding {
        return NotAdding;
      }
      var parsed := ParseTransaction(text);
      if parsed.None? {
        outcome := InvalidFormat;
      } else if chat !in ledgers {
        return NoLedgerFile;
      } else {
        var line := Encode(parsed.value);
        RecordRoundTrip(parsed.value);
        var l := ledgers[chat];
        AppendRecord(l.transactions, line);
        ledgers := ledgers[chat := l.(transactions := l.transactions + [line])];
        outcome := Added(line);
      }
      adding := adding - {chat};
    }

    /** The currency handler: sets `settings["currency"]` of the chat's ledger to the text as sent. */
    method SetCurrency(chat: string, currency: string) returns (stored: bool)
      requires Valid()
      modifies this`ledgers
      ensures Valid()
      ensures stored == (chat in old(ledgers))
      ensures ledgers == if stored then old(ledgers)[chat := WithCurrency(old(ledgers)[chat], currency)] else old(ledgers)
    {
      stored := chat in ledgers;
      if stored {
        ledgers := ledgers[chat := WithCurrency(ledgers[chat], currency)];
      }
    }

    /**
     * The view handler: loads the chat's ledger and filters it. On a ledger
     * the store keeps, the only errors are an unknown label and a window that
     * reaches before year 1.
     */
    method ViewPeriod(chat: string, choice: string, today: Date) returns (r: Loaded<Result<seq<string>, ViewError>>)
      requires Valid() && ValidDate(today)
      ensures r.NoLedger? <==> chat !in ledgers
      ensures r.Loaded? ==> r.answer == View(ledgers[chat].transactions, choice, today)
      ensures r.Loaded? ==> r.answer != Err(UndatedLine)
    {
      if chat !in ledgers {
        return NoLedger;
      }
      r := Loaded(View(ledgers[chat].transactions, choice, today));
    }

    /** The analysis handler: loads the chat's ledger and computes the chosen report, which cannot fail on a line. */
    method AnalyzeLedger(chat: string, choice: string, now: Date) returns (r: Loaded<Result<Report, ReportError>>)
      requires Valid()
      ensures r.NoLedger? <==> chat !in ledgers
      ensures r.Loaded? ==> (r.answer == Err(UnknownReport) <==> ParseReport(choice).None?)
      ensures r.Loaded? ==> r.answer != Err(UnreadableLine)
      ensures r.Loaded? && ParseReport(choice).Some? ==>
        r.answer.Ok? && ReportOf(ledgers[chat].transactions, ParseReport(choice).value, now, r.answer.value)
    {
      if chat !in ledgers {
        return NoLedger;
      }
      var lines := ledgers[chat].transactions;
      assert AllRecords(lines);
      var answer := Analyze(lines, choice, now);
      r := Loaded(answer);
    }
  }
}
