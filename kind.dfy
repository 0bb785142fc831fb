/**
 * The two transaction kinds. Both versions of the tracker declare an
 * integer-backed enum with the same values, expense 0 and income 1; only the
 * spelling of the member names differs between them.
 */
module Kind {
  import opened Wrappers

  datatype TransactionType = Expense | Income {
    /** The enum's `.value`, the integer the ledger stores. */
    function Value(): (v: int)
      ensures v == 0 || v == 1
      ensures FromValue(v) == Some(this)
    {
      match this
      case Expense => 0
      case Income => 1
    }
  }

  /** The enum lookup `TransactionType(v)`: fails for any other integer. */
  function FromValue(v: int): (r: Option<TransactionType>)
    ensures r.Some? <==> v == 0 || v == 1
  {
    if v == 0 then Some(Expense) else if v == 1 then Some(Income) else None
  }

  /** Looking a code up and taking a kind's code are inverse to each other. */
  lemma ValueRoundTrip(k: TransactionType, v: int)
    ensures FromValue(v) == Some(k) <==> k.Value() == v
  {
  }
}
