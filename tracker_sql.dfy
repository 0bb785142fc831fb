/**
 * The relational-store version of the tracker: records are normalised when
 * they are appended, and every summary figure, the balance included, is
 * derived from the list of records.
 */
module TrackerSql {
  import opened Kind
  import opened Ledger
  import Text
  import opened Wrappers

  /** The five figures of the summary dictionary. */
  datatype SummaryData = SummaryData(
    incomeTotal: real,
    incomeCount: nat,
    expenseTotal: real,
    expenseCount: nat,
    currentBalance: real)

  /**
   * The summary of a list of records, as the list comprehensions compute it:
   * the balance is the record-by-record signed sum, and the two counts
   * never exceed the number of records.
   */
  function Summarize(ts: seq<Record>): (d: SummaryData)
    ensures d.currentBalance == d.incomeTotal - d.expenseTotal
    ensures d.currentBalance == Net(ts)
    ensures d.incomeCount + d.expenseCount <= |ts|
  {
    BalanceIsNet(ts);
    CountPartition(ts);
    var income := IncomeAmounts(ts);
    var expense := ExpenseAmounts(ts);
    SummaryData(Sum(income), |income|, Sum(expense), |expense|, Sum(income) - Sum(expense))
  }

  /** The two counts add up to the number of records exactly when every record has a kind. */
  lemma SummarizeCounts(ts: seq<Record>)
    ensures Summarize(ts).incomeCount + Summarize(ts).expenseCount <= |ts|
    ensures Summarize(ts).incomeCount + Summarize(ts).expenseCount == |ts| <==>
      forall i :: 0 <= i < |ts| ==> HasKind(ts[i])
  {
    CountPartition(ts);
  }

  /** With no store to load from, every figure is zero. */
  lemma SummarizeEmpty()
    ensures Summarize([]) == SummaryData(0.0, 0, 0.0, 0, 0.0)
  {
  }

  /**
   * Appending one record: an income raises the income total and the
   * balance by its amount and the income count by one; an expense raises
   * the expense figures and lowers the balance; the other side, and every
   * figure for a record of neither code, stays as it was.
   */
  lemma SummarizeAppend(ts: seq<Record>, r: Record)
    ensures var before, after := Summarize(ts), Summarize(ts + [r]);
      if r.transactionType == Income.Value() then
        after == before.(incomeTotal := before.incomeTotal + r.amount,
                         incomeCount := before.incomeCount + 1,
                         currentBalance := before.currentBalance + r.amount)
      else if r.transactionType == Expense.Value() then
        after == before.(expenseTotal := before.expenseTotal + r.amount,
                         expenseCount := before.expenseCount + 1,
                         currentBalance := before.currentBalance - r.amount)
      else
        after == before
  {
    AmountsAppend(ts, r, Income.Value());
    AmountsAppend(ts, r, Expense.Value());
  }

  /**
   * The record `process_transaction` builds: the kind stored as its code,
   * the category title-cased and the description lower-cased.
   */
  function MakeRecord(amt: real, now: Timestamp, transType: TransactionType,
                      cat: string, desc: string): (r: Record)
    ensures HasKind(r) && FromValue(r.transactionType) == Some(transType)
    ensures r.amount == amt && r.created == now
    ensures r.category == Text.Title(cat) && Text.Title(r.category) == r.category
    ensures r.description == Text.Lower(desc) && Text.Lower(r.description) == r.description
  {
    Text.TitleIdempotent(cat);
    Text.LowerIdempotent(desc);
    Record(amt, now, transType.Value(), Text.Title(cat), Text.Lower(desc))
  }

  /** Appending an income: only the income figures and the balance move. */
  lemma SummarizeAppendIncome(ts: seq<Record>, r: Record)
    requires r.transactionType == Income.Value()
    ensures Summarize(ts + [r]) ==
      Summarize(ts).(incomeTotal := Summarize(ts).incomeTotal + r.amount,
                     incomeCount := Summarize(ts).incomeCount + 1,
                     currentBalance := Summarize(ts).currentBalance + r.amount)
  {
    SummarizeAppend(ts, r);
  }

  /** Appending an expense: only the expense figures and the balance move. */
  lemma SummarizeAppendExpense(ts: seq<Record>, r: Record)
    requires r.transactionType == Expense.Value()
    ensures Summarize(ts + [r]) ==
      Summarize(ts).(expenseTotal := Summarize(ts).expenseTotal + r.amount,
                     expenseCount := Summarize(ts).expenseCount + 1,
                     currentBalance := Summarize(ts).currentBalance - r.amount)
  {
    SummarizeAppend(ts, r);
  }

  /** An income of 100 and expenses of 40 and 15 leave a balance of 45. */
  lemma Scenario(salary: Record, food: Record, snack: Record)
    requires salary.transactionType == Income.Value() && salary.amount == 100.0
    requires food.transactionType == Expense.Value() && food.amount == 40.0
    requires snack.transactionType == Expense.Value() && snack.amount == 15.0
    ensures Summarize([salary, food, snack]) == SummaryData(100.0, 1, 55.0, 2, 45.0)
  {
    assert [] + [salary] == [salary];
    SummarizeAppendIncome([], salary);
    assert Summarize([salary]) == SummaryData(100.0, 1, 0.0, 0, 100.0);
    assert [salary] + [food] == [salary, food];
    SummarizeAppendExpense([salary], food);
    assert Summarize([salary, food]) == SummaryData(100.0, 1, 40.0, 1, 60.0);
    assert [salary, food] + [snack] == [salary, food, snack];
    SummarizeAppendExpense([salary, food], snack);
  }

  /** The tracker object: its store location and its in-memory list of records. */
  class Pynance {
    var dbFile: string
    var transactions: seq<Record>

    /** A tracker opened on a store that does not exist yet holds no records. */
    constructor (dbFile: string := "sqlite:///transactions.db")
      ensures this.dbFile == dbFile && transactions == []
      ensures GetSummaryData() == SummaryData(0.0, 0, 0.0, 0, 0.0)
    {
      this.dbFile := dbFile;
      transactions := [];
    }

    /**
     * `get_summary_data`: reads the list and changes nothing; the balance it
     * reports is the signed sum of the records held.
     */
    function GetSummaryData(): (d: SummaryData)
      reads this
      ensures d.currentBalance == Net(transactions)
      ensures d.incomeCount + d.expenseCount <= |transactions|
    {
      Summarize(transactions)
    }

    /**
     * `process_transaction`: appends the normalised record and leaves the
     * earlier records as they were; the summary moves by that one record.
     * `now` is the clock reading the source takes when it builds the record.
     */
    method ProcessTransaction(now: Timestamp, amt: real, cat: string,
                              transType: TransactionType := Expense, desc: string := "")
      modifies this
      ensures dbFile == old(dbFile)
      ensures transactions == old(transactions) + [MakeRecord(amt, now, transType, cat, desc)]
      ensures |transactions| == |old(transactions)| + 1
      ensures transactions[..|old(transactions)|] == old(transactions)
      ensures GetSummaryData().currentBalance ==
        old(GetSummaryData().currentBalance) + (if transType == Income then amt else -amt)
    {
      var r := MakeRecord(amt, now, transType, cat, desc);
      SummarizeAppend(transactions, r);
      transactions := transactions + [r];
    }
  }
}
