/**
 * The `add` command of the command-line front end: it accepts a transaction
 * only when exactly one of `--income` and `--expense` is set, and then hands
 * it to the file-store tracker.
 */
module Cli {
  import opened Kind
  import opened Ledger
  import opened Wrappers
  import Tracker

  /** The two ways the flags can be wrong. */
  datatype FlagError = BothTypes | NoType

  /** The flag rule: both flags, or neither, is an error; otherwise the set flag gives the kind. */
  function CheckFlags(income: bool, expense: bool): (r: Result<TransactionType, FlagError>)
    ensures r.Ok? <==> income != expense
    ensures r.Ok? ==> (r.value == Income <==> income) && (r.value == Expense <==> expense)
    ensures r.Err? ==> (r.error == BothTypes <==> income)
  {
    if income && expense then Err(BothTypes)
    else if !income && !expense then Err(NoType)
    else Ok(if income then Income else Expense)
  }

  /**
   * `add`: on a flag error the tracker is left untouched; otherwise exactly
   * one transaction with the given amount, category and description is
   * performed, moving the total by +amount for an income and -amount for an
   * expense. Either way at most one record is added and the earlier
   * records are kept.
   */
  method Add(tracker: Tracker.Pynance, now: Timestamp, amount: real, category: string,
             d: string, income: bool, expense: bool)
    returns (outcome: Result<Record, FlagError>)
    modifies tracker
    ensures outcome.Err? <==> CheckFlags(income, expense).Err?
    ensures outcome.Err? ==> outcome.error == CheckFlags(income, expense).error
    ensures outcome.Err? ==>
      tracker.transactions == old(tracker.transactions) && tracker.total == old(tracker.total)
    ensures outcome.Ok? ==>
      outcome.value == Tracker.NewTransaction(amount, now, CheckFlags(income, expense).value,
                                              category, d) &&
      tracker.transactions == old(tracker.transactions) + [outcome.value] &&
      tracker.total == old(tracker.total) + (if income then amount else -amount)
    ensures |tracker.transactions| <= |old(tracker.transactions)| + 1
    ensures tracker.transactions[..|old(tracker.transactions)|] == old(tracker.transactions)
    ensures tracker.dataFile == old(tracker.dataFile)
    ensures old(tracker.Consistent()) ==> tracker.Consistent()
  {
    var check := CheckFlags(income, expense);
    if check.Err? {
      return Err(check.error);
    }
    var transaction := Tracker.NewTransaction(amount, now, check.value, category, d);
    tracker.PerformTransaction(transaction);
    outcome := Ok(transaction);
  }
}
