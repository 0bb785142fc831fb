# PynanceCLI ledger engine in Dafny

A model of the ledger engine of PynanceCLI, a personal finance tracker. The
engine comes in two versions. Both keep an in-memory, append-only list of
transaction records and compute an income/expense summary from it.

- `tracker_sql.py` (module `TrackerSql`). `process_transaction` builds a
  record and appends it. The record holds the amount, a timestamp, the kind
  as its enum code (0 for expense, 1 for income), the title-cased category
  and the lower-cased description. `get_summary_data` derives five figures
  from the list: the income total and count, the expense total and count,
  and the current balance.
- `tracker.py` (module `Tracker`). Transactions are stored verbatim. The
  tracker also keeps a separate running `total`, which `perform_transaction`
  moves by +amount for an income and -amount for an expense. The model
  proves that `total` stays equal to Σincome − Σexpense. This holds from the
  empty initial state and is kept by every transaction.
- `cli.py` (module `Cli`). The `add` command accepts a transaction only when
  exactly one of `--income` / `--expense` is set. It then performs one
  transaction on the tracker, which the model passes in as a parameter.

Shared modules:

- `Kind`: the 0/1 transaction enum. Both tracker files declare it with the
  same values, expense 0 and income 1 (`tracker_sql.py:13-18`,
  `tracker.py:8-10`). Only the member names are spelled differently:
  `EXPENSE`/`INCOME` in one file and `expense`/`income` in the other.
- `Ledger`: the stored record and the partition by kind. The summary list
  comprehensions become `Amounts`, Python's `sum` becomes `Sum`, and `Net`
  is an independent record-by-record reference for the balance.
- `Text`: ASCII models of Python's `str.title` and `str.lower`.
- `Wrappers`: the `Option` and `Result` types used for the enum lookup and
  for the command's error outcome.

Modelling choices:

- Amounts are Dafny `real` values. Sums are exact, with no float rounding.
- A record stores its kind as an `int`, as the list does. The summary filters
  by `== 1` and `== 0`, so a record with any other code is counted in
  neither list. The count partition is stated as an if-and-only-if over this.
- Timestamps are opaque strings passed in by the caller. The clock is not
  read.
- `get_summary_data` and the summary part of `view_summary` are functions
  that only read the tracker (`reads this`), so they cannot change the list.

Facts about the code that the model keeps:

- The source never rejects a negative amount, so no operation requires a
  non-negative one.
- `tracker.py` keeps `total` as a separate field. The model proves it stays
  equal to Σincome − Σexpense whenever it starts that way.
- Categories and descriptions are normalised only in `tracker_sql.py`.
  `tracker.py` stores them as passed.

## Model

| member | source | states |
|---|---|---|
| Text.Lower | tracker_sql.py:72 | the lower-cased description has the input's length, and each character is that input character's lower-case form |
| Text.LowerHasNoUpper | tracker_sql.py:72 | a lower-cased string contains no upper-case letter |
| Text.LowerIdempotent | tracker_sql.py:72 | lower-casing an already lower-cased description changes nothing |
| Text.TitleFrom | tracker_sql.py:71 | the left-to-right scan keeps the length; a character is lower-cased when the character before it (or, at position 0, the one before the string) is a letter, and upper-cased otherwise |
| Text.Title | tracker_sql.py:71 | title-casing keeps the length; a letter at a word start (position 0, or after a non-letter) is upper-cased, every other letter is lower-cased, and non-letters are unchanged |
| Text.TitleIdempotent | tracker_sql.py:71 | title-casing an already title-cased category changes nothing |
| Text.TitleGroceries | tracker_sql.py:71 | "groceries" becomes "Groceries", and "Groceries" stays "Groceries" |
| Kind.TransactionType.Value | tracker_sql.py:70 | the stored code of a kind is 0 or 1, and looking that code up gives the kind back |
| Kind.FromValue | tracker_sql.py:13-18 | the enum lookup succeeds exactly for the codes 0 and 1 |
| Kind.ValueRoundTrip | tracker.py:8-10 | looking up code v gives kind k exactly when k's stored value is v |
| Ledger.Amounts | tracker_sql.py:78-81 | the amounts filtered out for one code are never more than the records |
| Ledger.Sum | tracker_sql.py:84 | the sum of a list is never negative when no amount in it is negative |
| Ledger.AmountsConcat | tracker_sql.py:78-81 | filtering a concatenation by kind equals concatenating the filtered parts, in order |
| Ledger.SumConcat | tracker_sql.py:84 | the sum of two concatenated amount lists is the sum of their sums |
| Ledger.AmountsAppend | tracker_sql.py:67-81 | appending a record adds its amount to its own kind's list and sum, and leaves every other kind's list and sum unchanged |
| Ledger.BalanceAppend | tracker.py:53-58 | appending a record moves Σincome − Σexpense by exactly +amount (income), -amount (expense) or 0 (any other code) |
| Ledger.BalanceIsNet | tracker_sql.py:88 | Σincome − Σexpense equals the record-by-record signed sum |
| Ledger.CountPartition | tracker.py:73-80 | the income and expense counts together never exceed the number of records, and equal it exactly when every record has code 0 or 1 |
| Ledger.EmptyLedger | tracker.py:41-45 | an empty list has no income or expense amounts and a zero balance |
| TrackerSql.Summarize | tracker_sql.py:76-89 | CurrentBalance equals IncomeTotal − ExpenseTotal and equals the independent signed sum of the records; IncomeCount + ExpenseCount never exceeds the number of records |
| TrackerSql.SummarizeCounts | tracker_sql.py:78-87 | IncomeCount + ExpenseCount is at most the number of records, and equals it exactly when every record's type is 0 or 1 |
| TrackerSql.SummarizeEmpty | tracker_sql.py:83-89 | with no records, all five summary figures are zero |
| TrackerSql.SummarizeAppend | tracker_sql.py:67-89 | appending an income raises IncomeTotal and CurrentBalance by its amount and IncomeCount by 1, with the expense figures unchanged; an expense does the same on the expense side and lowers the balance; any other code changes nothing |
| TrackerSql.SummarizeAppendIncome | tracker_sql.py:78-88 | appending an income record raises IncomeTotal and CurrentBalance by its amount and IncomeCount by 1; every expense figure stays the same |
| TrackerSql.SummarizeAppendExpense | tracker_sql.py:80-88 | appending an expense record raises ExpenseTotal and ExpenseCount, lowers CurrentBalance by its amount, and leaves the income figures unchanged |
| TrackerSql.MakeRecord | tracker_sql.py:67-73 | the built record stores the amount and timestamp, the kind's code (0/1, which looks back up to that kind), the category title-cased and the description lower-cased, and normalising either again changes nothing |
| TrackerSql.Scenario | tracker_sql.py:76-89 | one income of 100 and expenses of 40 and 15 summarise to totals 100 and 55, counts 1 and 2, and balance 45 |
| TrackerSql.Pynance.constructor | tracker_sql.py:23-37 | a tracker on a missing store has no records, and its summary is all zeros |
| TrackerSql.Pynance.GetSummaryData | tracker_sql.py:76-89 | reads the tracker without changing it; the reported balance is the signed sum of the records held, and the counts never exceed the number of records |
| TrackerSql.Pynance.ProcessTransaction | tracker_sql.py:53-74 | the list grows by exactly one record, the normalised one, at the end; earlier records are unchanged; the balance moves by +amount for an income and -amount for an expense; the kind defaults to expense and the description to "" |
| Tracker.NewTransaction | tracker.py:14-21 | the transaction stores the amount, timestamp and kind code (the type defaults to expense), with category and description exactly as passed |
| Tracker.ViewSummaryOf | tracker.py:73-84 | the printed balance is the stored total; total income − total expense equals the signed sum of the records; the two counts never exceed the number of records and cover it exactly when every record has code 0 or 1 |
| Tracker.Pynance.Consistent | tracker.py:53-58 | the `total` invariant: the stored total equals Σincome − Σexpense, which is the signed sum of the records |
| Tracker.Pynance.ViewSummary | tracker.py:72-85 | reads the tracker without changing it; the printed balance is the stored total, and it equals total income − total expense exactly when the tracker is consistent |
| Tracker.Pynance.constructor | tracker.py:31-45 | with no data file, the tracker starts with no records and a zero total, so the balance invariant holds |
| Tracker.Pynance.PerformTransaction | tracker.py:51-60 | the record is appended at the end with earlier records unchanged; the total falls by the amount for an expense and rises by it for an income; if total = Σincome − Σexpense held before, it holds after |
| Cli.CheckFlags | cli.py:21-30 | the flags are accepted exactly when one of them is set, and the kind is income exactly when --income is set; both flags set gives the both-types error and neither gives the no-type error |
| Cli.Add | cli.py:18-33 | on a flag error the tracker's records and total are unchanged; otherwise exactly one transaction with the given amount, the category verbatim and the description is appended, and the total rises by the amount for --income and falls by it for --expense; in every case at most one record is added and the balance invariant is kept |

## Left out

- Persistence: `load_data`/`save_data` (the JSON file, `tracker.py:37-49`) and `load_transactions`/`save_transactions` (pandas and SQLAlchemy, `tracker_sql.py:35-51`). These are file and database I/O through libraries that are not part of this model. The store is modelled only as empty on first load (both constructors).
- Loading an existing store, and two quirks it has. First, `tracker_sql.py:36` calls `Path(...).exists()` on a `sqlite:///` URL, so an existing database is not found. Second, reloading returns rows as lists rather than dictionaries (`tracker_sql.py:39-41`). Neither is modelled, because loading is not modelled.
- Timestamp generation and formatting (`datetime.now()`, `strftime`). The timestamp is an opaque string passed to each operation. The `now` parameter of `TrackerSql.Pynance.ProcessTransaction` stands for the clock reading at `tracker_sql.py:69`; it is not a parameter of the source method. The default argument in `tracker.py:14`, evaluated once at definition time, is not modelled.
- `PynanceVis.expense_by_category` (`tracker_sql.py:110-130`): a pandas group-by plus a matplotlib pie chart, which is rendering.
- All printing: `view_summary`, `view_transactions` and `__repr__` output, and the `click` decorators and echo messages of `cli.py`. `Cli.Add` returns the error instead of echoing it. The `view` and `summary` commands only print.
- Aliasing of the stored entry: `tracker.py:53` appends the transaction object's own `__dict__`, so the list entry and the object share one dictionary. The model appends a `Record` value, a copy. Since nothing in the core changes a transaction after it is built, the model does not capture later changes made through either reference.
- The module-level `tracker` singleton in `cli.py`. `Cli.Add` takes the tracker as a parameter.
- Float arithmetic. Amounts are exact reals, so the float literals in `test/example_transactions_test.py:7-11` are not reproduced. Those values also depend on a data file that is not part of this model.
- The `created=` keyword that `load_sample_data.py` and `test/example_transactions.py` pass to `process_transaction`. The signature does not accept it, so such a call fails in the source. The model has no parameter of that name.
- Non-ASCII text: `Text.Title` and `Text.Lower` change only the ASCII letters A–Z and a–z. Python's Unicode case mapping is not modelled.
- `main.py` (a demo script using random values), `setup.py` and `load_sample_data.py`.
