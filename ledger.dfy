/**
 * The stored transaction record and the income/expense partition that both
 * versions of the tracker compute from their list of records.
 */
module Ledger {
  import opened Kind

  /** The timestamp text; the clock and its formatting are not modelled. */
  type Timestamp = string

  /**
   * One stored transaction: the dictionary the tracker appends. The kind is
   * kept as the integer its enum stands for, exactly as the list holds it.
   */
  datatype Record = Record(
    amount: real,
    created: Timestamp,
    transactionType: int,
    category: string,
    description: string)

  /** A record whose stored code is one of the two kinds. */
  predicate HasKind(r: Record)
  {
    r.transactionType == Expense.Value() || r.transactionType == Income.Value()
  }

  /** `[trans['amount'] for trans in ts if trans['transaction_type'] == code]`. */
  function Amounts(ts: seq<Record>, code: int): (xs: seq<real>)
    ensures |xs| <= |ts|
  {
    if ts == [] then []
    else
      var last := ts[|ts| - 1];
      Amounts(ts[..|ts| - 1], code) + (if last.transactionType == code then [last.amount] else [])
  }

  function IncomeAmounts(ts: seq<Record>): seq<real> { Amounts(ts, Income.Value()) }

  function ExpenseAmounts(ts: seq<Record>): seq<real> { Amounts(ts, Expense.Value()) }

  /** Python's `sum` over a list of amounts: never negative when no amount is. */
  function Sum(xs: seq<real>): (total: real)
    ensures (forall i :: 0 <= i < |xs| ==> xs[i] >= 0.0) ==> total >= 0.0
  {
    if xs == [] then 0.0 else Sum(xs[..|xs| - 1]) + xs[|xs| - 1]
  }

  /** What one record contributes to the balance: +amount or -amount. */
  function Signed(r: Record): real
  {
    if r.transactionType == Income.Value() then r.amount
    else if r.transactionType == Expense.Value() then -r.amount
    else 0.0
  }

  /** Independent reference for the balance: each record's signed amount, added up in order. */
  function Net(ts: seq<Record>): real
  {
    if ts == [] then 0.0 else Net(ts[..|ts| - 1]) + Signed(ts[|ts| - 1])
  }

  /** Σincome − Σexpense over a list of records. */
  function Balance(ts: seq<Record>): real
  {
    Sum(IncomeAmounts(ts)) - Sum(ExpenseAmounts(ts))
  }

  /** Filtering distributes over concatenation: the list is processed in order. */
  lemma {:induction false} AmountsConcat(a: seq<Record>, b: seq<Record>, code: int)
    ensures Amounts(a + b, code) == Amounts(a, code) + Amounts(b, code)
    decreases |b|
  {
    if b == [] {
      assert a + b == a;
    } else {
      var b' := b[..|b| - 1];
      assert (a + b)[..|a + b| - 1] == a + b';
      assert (a + b)[|a + b| - 1] == b[|b| - 1];
      AmountsConcat(a, b', code);
    }
  }

  lemma {:induction false} SumConcat(xs: seq<real>, ys: seq<real>)
    ensures Sum(xs + ys) == Sum(xs) + Sum(ys)
    decreases |ys|
  {
    if ys == [] {
      assert xs + ys == xs;
    } else {
      var ys' := ys[..|ys| - 1];
      assert (xs + ys)[..|xs + ys| - 1] == xs + ys';
      assert (xs + ys)[|xs + ys| - 1] == ys[|ys| - 1];
      SumConcat(xs, ys');
    }
  }

  /**
   * Appending a record adds its amount to the list of its own code and
   * leaves the list of every other code as it was.
   */
  lemma AmountsAppend(ts: seq<Record>, r: Record, code: int)
    ensures Amounts(ts + [r], code) ==
      Amounts(ts, code) + (if r.transactionType == code then [r.amount] else [])
    ensures Sum(Amounts(ts + [r], code)) ==
      Sum(Amounts(ts, code)) + (if r.transactionType == code then r.amount else 0.0)
  {
    assert (ts + [r])[..|ts|] == ts;
    var added := if r.transactionType == code then [r.amount] else [];
    SumConcat(Amounts(ts, code), added);
    if added != [] {
      assert added[..0] == [];
    }
  }

  /** The balance rule holds on every prefix: appending moves it by the record's signed amount. */
  lemma BalanceAppend(ts: seq<Record>, r: Record)
    ensures Balance(ts + [r]) == Balance(ts) + Signed(r)
  {
    AmountsAppend(ts, r, Income.Value());
    AmountsAppend(ts, r, Expense.Value());
  }

  /** Σincome − Σexpense agrees with the record-by-record signed sum. */
  lemma {:induction false} BalanceIsNet(ts: seq<Record>)
    ensures Balance(ts) == Net(ts)
    decreases |ts|
  {
    if ts != [] {
      var init := ts[..|ts| - 1];
      BalanceIsNet(init);
      assert init + [ts[|ts| - 1]] == ts;
      BalanceAppend(init, ts[|ts| - 1]);
    }
  }

  /**
   * The income and expense lists together hold one amount per record
   * exactly when every record carries one of the two codes.
   */
  lemma {:induction false} CountPartition(ts: seq<Record>)
    ensures |IncomeAmounts(ts)| + |ExpenseAmounts(ts)| <= |ts|
    ensures |IncomeAmounts(ts)| + |ExpenseAmounts(ts)| == |ts| <==>
      forall i :: 0 <= i < |ts| ==> HasKind(ts[i])
    decreases |ts|
  {
    if ts != [] {
      var init := ts[..|ts| - 1];
      CountPartition(init);
      if forall i :: 0 <= i < |init| ==> HasKind(init[i]) {
        if HasKind(ts[|ts| - 1]) {
          forall i | 0 <= i < |ts| ensures HasKind(ts[i]) {
            if i < |init| { assert ts[i] == init[i]; }
          }
        }
      } else {
        var j :| 0 <= j < |init| && !HasKind(init[j]);
        assert ts[j] == init[j];
      }
    }
  }

  /** The empty list: no amounts of either kind and a zero balance. */
  lemma EmptyLedger()
    ensures IncomeAmounts([]) == [] && ExpenseAmounts([]) == []
    ensures Balance([]) == 0.0 && Net([]) == 0.0
  {
  }
}
