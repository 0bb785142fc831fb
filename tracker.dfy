/**
 * The file-store version of the tracker: records are stored verbatim, and
 * besides the list the tracker keeps a running `total` that each
 * transaction moves by its signed amount.
 */
module Tracker {
  import opened Kind
  import opened Ledger
  import opened Wrappers

  /**
   * `Transaction(...)`: the kind stored as its code (expense unless given),
   * category and description stored exactly as passed.
   */
  function NewTransaction(amount: real, timestamp: Timestamp,
                          transactionType: TransactionType := Expense,
                          cat: string := "", desc: string := ""): (t: Record)
    ensures HasKind(t) && FromValue(t.transactionType) == Some(transactionType)
    ensures t.amount == amount && t.created == timestamp
    ensures t.category == cat && t.description == desc
  {
    Record(amount, timestamp, transactionType.Value(), cat, desc)
  }

  /** What `view_summary` computes: both sums and counts, and the stored total as the balance. */
  datatype ViewSummaryData = ViewSummaryData(
    totalIncome: real,
    countIncome: nat,
    totalExpense: real,
    countExpense: nat,
    balance: real)

  /**
   * The figures `view_summary` prints for a list of records and a stored
   * total: the printed balance is the total, the two sums differ by the
   * record-by-record signed sum, and the two counts cover the list exactly
   * when every record has a kind.
   */
  function ViewSummaryOf(ts: seq<Record>, total: real): (d: ViewSummaryData)
    ensures d.balance == total
    ensures d.totalIncome - d.totalExpense == Net(ts)
    ensures d.countIncome + d.countExpense <= |ts|
    ensures d.countIncome + d.countExpense == |ts| <==>
      forall i :: 0 <= i < |ts| ==> HasKind(ts[i])
  {
    BalanceIsNet(ts);
    CountPartition(ts);
    ViewSummaryData(Sum(IncomeAmounts(ts)), |IncomeAmounts(ts)|,
                    Sum(ExpenseAmounts(ts)), |ExpenseAmounts(ts)|, total)
  }

  /** The tracker object: its data file, its list of records and its running total. */
  class Pynance {
    var dataFile: string
    var transactions: seq<Record>
    var total: real

    /**
     * The stored total equals Σincome − Σexpense over the list, that is,
     * the record-by-record signed sum.
     */
    predicate Consistent()
      reads this
      ensures Consistent() <==> total == Net(transactions)
    {
      BalanceIsNet(transactions);
      total == Balance(transactions)
    }

    /** A tracker whose data file is missing starts empty with a zero total, so it is consistent. */
    constructor (dataFile: string := "data.json")
      ensures this.dataFile == dataFile
      ensures transactions == [] && total == 0.0
      ensures Consistent()
    {
      this.dataFile := dataFile;
      transactions := [];
      total := 0.0;
    }

    /**
     * The figures `view_summary` prints; reads the state and changes nothing.
     * The printed balance agrees with the printed sums exactly when the
     * stored total is consistent.
     */
    function ViewSummary(): (d: ViewSummaryData)
      reads this
      ensures d.balance == total
      ensures Consistent() <==> d.balance == d.totalIncome - d.totalExpense
    {
      ViewSummaryOf(transactions, total)
    }

    /**
     * `perform_transaction`: appends the record and moves the total by
     * -amount for an expense and +amount for an income (a record of any
     * other code leaves it alone). A consistent total stays consistent.
     */
    method PerformTransaction(transaction: Record)
      modifies this
      ensures dataFile == old(dataFile)
      ensures transactions == old(transactions) + [transaction]
      ensures transactions[..|old(transactions)|] == old(transactions)
      ensures total ==
        if transaction.transactionType == Expense.Value() then old(total) - transaction.amount
        else if transaction.transactionType == Income.Value() then old(total) + transaction.amount
        else old(total)
      ensures old(Consistent()) ==> Consistent()
    {
      ghost var before := transactions;
      BalanceAppend(before, transaction);
      transactions := transactions + [transaction];
      assert transactions[..|before|] == before;
      if transaction.transactionType == Expense.Value() {
        total := total - transaction.amount;
      } else if transaction.transactionType == Income.Value() {
        total := total + transaction.amount;
      }
      assert total == old(total) + Signed(transaction);
    }
  }
}
