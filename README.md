# control_finance ledger core, in Dafny

This project models the ledger logic of a Telegram bot for personal finance
(`main.py`). Each chat has a ledger file holding a list of transaction lines
and a settings dictionary. The model covers five things:

- **Adding a transaction.** The user's text `"<amount> <category> <YYYY-MM-DD>"` is
  split on whitespace, checked and appended as one line.
- **Viewing a period.** Today, last 7 days, last 30 days, or all time.
- **Reports.** Totals per category and per date, kept in dictionaries that
  remember first-seen key order, and a summary with the calendar month and
  year totals relative to "now".
- **`/start`.** Creates an empty ledger only if the chat has none.
- **The currency setting.** Overwrites the single key `settings["currency"]`.

Modules:

- `Text` (text.dfy): Python's argument-less `str.split()` and `str.lower()`.
  `SplitJoin3` proves that three tokens joined by single spaces split back
  into those three tokens.
- `Amounts` (amounts.dfy): the amount token, read as an exact decimal
  `units / 10^scale` and written back in plain decimal notation, with a
  round-trip proof.
- `Dates` (dates.dfy): `YYYY-MM-DD` parsing with the Gregorian validity
  check, and Python's `date.toordinal()`. `OrdinalOrder` proves that the
  ordinal orders dates the same way Python compares them.
- `Records` (records.dfy): parsing the user's text and encoding the stored
  line. `RecordRoundTrip` is the central invariant: every stored line reads
  back as the transaction that produced it. So the later `split()[2]`,
  `parts[1]` and `parts[0]` accesses always find their token.
- `Periods` (periods.dfy): the four view filters and the label that selects
  them.
- `Reports` (reports.dfy): the grouping loops and the summary loop, written
  as methods. Each is proved against specification functions (`FirstSeen`,
  `SumFor`, `Total`, `MonthTotal`, `YearTotal`). Lemmas about those
  functions cover key order, total conservation, and how the year total
  splits into the current month and the other months.
- `LedgerStore` (ledger.dfy): the class `Store`. It holds one ledger per chat
  id, plus the set of chats whose `adding_transaction` flag is set. Its
  invariant `Valid()` says that every stored line is a well-formed record.
  Every mutating handler preserves it, so the view and report handlers can
  never fail on a stored line.

"Now" and "today" are parameters. The ledger files are a map from chat id
to ledger value.

The summary's year total counts every amount dated in now's calendar year,
whatever its month (main.py:111-112). For now = 2024-08-18 and amounts 100
(2024-08-01), 50 (2024-07-01) and 20 (2023-08-01), the month total is 100 and
the year total is 150: `Reports.SummaryExample` proves exactly these numbers.

A second point also follows the code. When the chat has no ledger file,
opening it raises an error that the add handler does not catch. The handler
then stops before it clears the `adding_transaction` flag, so the flag stays
set (`LedgerStore.Store.SubmitTransaction`).

## Model

| member | source | states |
|---|---|---|
| `Text.Split` | main.py:24 | every token `str.split()` returns is non-empty and free of whitespace |
| `Text.SplitJoin3` | main.py:24-27 | three tokens joined with single spaces split back into exactly those three tokens |
| `Text.SplitRebuilds` | main.py:24 | `str.split()` loses only whitespace: the input is its tokens with whitespace-only gaps around them, and neighbouring tokens are always separated by some whitespace |
| `Text.Lower` | main.py:45 | lower-casing keeps the length and lower-cases each letter, as used to match the menu labels |
| `Amounts.ParseAmount` | main.py:25 | an accepted amount token is non-empty; it reads as a negative number only when it starts with `-`, and never as negative otherwise |
| `Amounts.AmountSpellings` | main.py:25 | every plain decimal spelling is accepted: an optional `+` or `-`, then digits, optionally a dot and more digits, with at least one digit in all (`+5`, `.5`, `007`, `-1.25`); it reads as the digits without the dot, negated after `-`, scaled by the number of digits after the dot |
| `Amounts.AmountShapes` | main.py:25 | every accepted amount is such a spelling: after its sign, either digits alone, or digits, one dot and digits with at least one digit in all; and it reads as `AmountSpellings` says |
| `Amounts.FormatAmount` | main.py:27 | the written amount is non-empty and starts with `-` exactly when the amount is negative |
| `Amounts.AmountRoundTrip` | main.py:25-27 | reading back a written amount gives the same number, at the same scale |
| `Amounts.FormatAmountIsToken` | main.py:27 | a written amount contains no whitespace, so it stays one token of the stored line |
| `Dates.ParseDate` | main.py:26 | an accepted date token has the shape `dddd-dd-dd` and names a valid Gregorian date in years 1 to 9999 |
| `Dates.ParseDateExact` | main.py:26 | a token reads as date `d` iff `d` is a valid date and the token is its zero-padded `YYYY-MM-DD` spelling; so every valid date's spelling is accepted and nothing else is |
| `Dates.DaysBeforeYearStep` | main.py:55 | consecutive years' day counts differ by 366 in a leap year and 365 otherwise |
| `Dates.OrdinalOrder` | main.py:55-60 | the day count orders valid dates exactly as Python's date comparison, and it is injective |
| `Records.ParseTransaction` | main.py:24-26 | input is accepted iff it splits into exactly three tokens, the first an amount and the third a date; the category and date text are the second and third tokens verbatim |
| `Records.EncodeSplits` | main.py:27 | the stored line splits into exactly the written amount, the category and the date text |
| `Records.RecordRoundTrip` | main.py:24-27 | every parsed transaction is stored as a line that parses back to the same transaction |
| `Records.StoredLineKeepsInput` | main.py:24-30 | the stored line keeps the user's category and date tokens verbatim; only the amount is rewritten, to a numeral with the same value |
| `Periods.ParsePeriod` | main.py:45-65 | a label names a period iff its lower-cased form is that period's label; every other label names none |
| `Periods.LineDateSpelling` | main.py:52-60 | a line is dated `d` iff it has at least three tokens and the third is the `YYYY-MM-DD` spelling of the valid date `d` |
| `Periods.FilterMeaning` | main.py:50-60 | a filter succeeds iff every line has a readable date; it then returns an order-preserving subsequence of the lines holding each kept line as often as the input does and nothing else |
| `Periods.FilterDefined` | main.py:50-60 | a filter succeeds iff every line's third token is a readable date |
| `Periods.FilterSubsequence` | main.py:50-60 | a successful filter keeps the lines in their original order and adds none |
| `Periods.FilterCounts` | main.py:50-60 | a successful filter keeps each line that falls in the period exactly as often as the input has it, and drops every other line |
| `Periods.RecordHasDate` | main.py:52 | the third token of a stored record is its date text and parses as a date |
| `Periods.RecordsHaveDates` | main.py:52-60 | when every line is a stored record, every line has a readable date |
| `Periods.View` | main.py:43-65 | an unknown label is an error; "all time" returns the lines unchanged; for the other three the answer is a date-range error iff the window's start falls before 0001-01-01, otherwise an undated-line error iff some line has no readable date, otherwise the filter's result: each line in the period as often as the input has it, in order, and nothing else; on stored records no line makes it fail |
| `Periods.WindowIsDateComparison` | main.py:55-60 | the week and month tests equal Python's `date >= today - timedelta(days=7 or 30)`, and the start day itself is included |
| `Periods.WindowBoundary` | main.py:55-60 | in day counts, a date exactly 7 (or 30) days before today is kept and one a day earlier is not; the calendar meaning (the `timedelta` start date is included) is `Periods.WindowIsDateComparison` |
| `Periods.WeekExample` | main.py:55-56 | with today 2024-08-18 the week keeps 2024-08-11 and drops 2024-08-10 |
| `Reports.FirstSeenMeaning` | main.py:80-88 | report keys are the distinct keys, each once, ordered by their first occurrence |
| `Reports.SumForAbsent` | main.py:85-88 | a key that never occurs has total zero |
| `Reports.SumOverKeysAppend` | main.py:85-88 | one more pair raises the summed totals of a duplicate-free key list by its amount iff its key is listed |
| `Reports.GroupingConservesTotal` | main.py:80-88 | the per-key totals add up to the sum of all amounts |
| `Reports.CategoryExample` | main.py:80-88 | amounts 10 and 5 for "food" and 3 for "transport" give keys "food" then "transport" with totals 15 and 3 |
| `Reports.SumValuesIsSumOverKeys` | main.py:89 | summing the dictionary's values in key order equals summing each key's total |
| `Reports.EntriesPrefixFails` | main.py:81-84 | if some line cannot be read, the whole grouping fails |
| `Reports.TracksStep` | main.py:85-88 | adding to an existing key, or inserting a new key at the end, keeps the dictionary equal to the first-seen keys and per-key totals of the pairs read so far |
| `Reports.AddLine` | main.py:82-88 | one loop step fails iff the line lacks the key token or a numeric first token; otherwise the dictionary afterwards matches the pairs read so far plus this line's pair |
| `Reports.GroupTotals` | main.py:79-101 | the per-category and per-date loop fails iff some line lacks the key token or a numeric first token; otherwise its dictionary has the keys in first-seen order, each key's total, and values adding up to the total |
| `Reports.RecordEntry` | main.py:82-84 | a stored record yields its category (or date text) and its amount |
| `Reports.RecordsHaveEntries` | main.py:81-96 | the grouping loops never fail on stored records |
| `Reports.YearSplitsIntoMonths` | main.py:111-114 | the year total is the month total plus the total of the year's other months |
| `Reports.SummaryExample` | main.py:104-114 | with now 2024-08-18 and amounts 100 (2024-08-01), 50 (2024-07-01) and 20 (2023-08-01), the month total is 100 and the year total 150 |
| `Reports.DatedPrefixFails` | main.py:108-110 | if some line cannot be read, the summary fails |
| `Reports.AddDatedLine` | main.py:108-114 | one summary step fails iff the line lacks a date third token or a numeric first token; otherwise the year total grows by the amount iff the year matches, and the month total iff both year and month match |
| `Reports.SummaryTotals` | main.py:103-115 | the summary loop fails iff some line lacks a date third token or a numeric first token; otherwise it returns the current month's and the current year's totals |
| `Reports.RecordDatedEntry` | main.py:108-110 | a stored record yields its date and its amount |
| `Reports.RecordsHaveDatedEntries` | main.py:107-110 | the summary loop never fails on stored records |
| `Reports.ParseReport` | main.py:74-117 | a label names a report iff its lower-cased form is that report's label |
| `Reports.Analyze` | main.py:72-117 | an unknown label is an error; for a known one the answer is a report iff every line can be read for that report, and the only other answer is the line-reading error; a grouped report's dictionary has the keys in first-seen order, each key's total and values adding up to the sum of all amounts; the summary holds the current month's and year's totals; on stored records no line makes it fail |
| `LedgerStore.Ensure` | main.py:9-11 | the chat has a ledger afterwards; existing ledgers are untouched; a new one is empty |
| `LedgerStore.EnsureIdempotent` | main.py:9-11 | creating the ledger twice is the same as once |
| `LedgerStore.WithCurrency` | main.py:130 | only `settings["currency"]` changes, to the text sent; the transactions and other settings stay |
| `LedgerStore.WithCurrencyIdempotent` | main.py:128-132 | choosing the same currency twice is the same as once |
| `LedgerStore.Store.Start` | main.py:7-11 | `/start` creates an empty ledger only for a chat that has none, and keeps every line a well-formed record |
| `LedgerStore.Store.BeginAdd` | main.py:14-17 | `/add` sets the chat's flag |
| `LedgerStore.Store.SubmitTransaction` | main.py:19-36 | without the flag, nothing happens. With the flag: bad input stores nothing; good input appends exactly its encoded line to the end of the chat's list when the chat has a ledger, and nothing else changes. The flag is cleared, except when the text parses but the chat has no ledger: then nothing is stored and the flag stays set |
| `LedgerStore.Store.SetCurrency` | main.py:125-132 | sets the chat's currency as `WithCurrency` says, if the chat has a ledger, and changes nothing else |
| `LedgerStore.Store.ViewPeriod` | main.py:43-65 | on a loaded ledger the answer is `View` of its lines, and it is never a line-reading error |
| `LedgerStore.Store.AnalyzeLedger` | main.py:72-117 | on a loaded ledger an unknown label is an error; a known label always gives the report, exactly as `Analyze` specifies it over the ledger's lines |

## Left out

- Telegram transport: the updater, the handler registration, the keyboards and the reply texts, including the Russian messages (main.py:4-5, 12, 16, 38-41, 67-70, 119-123, 135-159). Replies are represented only by each handler's result value.
- Handler dispatch: the four text handlers are registered on the same filter (main.py:150-153). The model treats each handler as called on its own and does not model which one the library runs.
- The session flag lives in the library's per-user data and the ledger file is keyed by chat id. The model keys both by chat id.
- File and JSON I/O: each ledger file is an entry of an in-memory map. Read and write failures, corrupt JSON and concurrent writers are not modelled.
- `datetime.now()`: "today" and "now" are parameters.
- Amounts.ParseAmount: accepts only an optional sign and a plain decimal numeral of ASCII digits. Python's `float()` also accepts exponents, `inf`, `nan`, underscores and the decimal digits of other scripts (such as full-width `１００`); the model refuses those inputs.
- Amounts.FormatAmount: writes the exact decimal (`100`, `12.50`) instead of Python's float repr (`100.0`, `12.5`). Amounts are exact, so float rounding in the sums is not modelled.
- Dates.ParseDate: requires exactly two ASCII digits for the month and the day. `strptime` also accepts one-digit fields and the decimal digits of other scripts (such as `２０２４-０８-１８`), so an input like `１００ food ２０２４-０８-１８` that the bot stores is refused by the model as a format error.
- Text.Lower: lower-cases ASCII and basic Cyrillic letters only, which covers every menu label. Python's `str.lower()` covers all of Unicode.
- Periods.View: "today minus n days" is used only through its day count, as CPython computes it. A function from day count back to a date is not modelled.
- Display formatting: `capitalize()` of categories and the newline-joined report text (main.py:53, 57, 61, 63, 89, 101, 115).
- `help_command` and the prompt-only handlers (`add_transaction` apart from its flag, `view_transactions`, `analyze_expenses`, `settings`) only send text.
