/**
 * The session's expense table and the validated add operation of the
 * sidebar form. The table is append-only: the only way an entry enters it
 * is through Add, and nothing ever removes one.
 */
module Store {
  import opened Text
  import opened Expense
  import opened Aggregate
  import opened Months

  /** Why an add was refused. */
  datatype AddError = InvalidAmount | EmptyDescription

  datatype AddOutcome = Added | Rejected(reason: AddError)

  class ExpenseStore {
    /** The table's rows, in insertion order. */
    var entries: seq<Entry>

    /** Every row passed validation when it was added. */
    ghost predicate Valid()
      reads this
    {
      AllAccepted(entries)
    }

    /** A new session starts with an empty table. */
    constructor ()
      ensures Valid() && entries == []
    {
      entries := [];
    }

    /**
     * The "Add Expense" button: the amount is checked first, then the
     * description after trimming; only when both pass is one row appended,
     * holding the inputs exactly as given (the description untrimmed).
     */
    method Add(date: Date, category: Category, description: string, amount: int) returns (outcome: AddOutcome)
      requires Valid()
      modifies this
      ensures Valid()
      ensures old(entries) <= entries
      ensures amount <= 0 ==> outcome == Rejected(InvalidAmount) && entries == old(entries)
      ensures amount > 0 && Strip(description) == [] ==>
                outcome == Rejected(EmptyDescription) && entries == old(entries)
      ensures amount > 0 && Strip(description) != [] ==>
                outcome == Added && entries == old(entries) + [Entry(date, category, description, amount)]
    {
      if amount <= 0 {
        return Rejected(InvalidAmount);
      }
      if Strip(description) == [] {
        return Rejected(EmptyDescription);
      }
      var row := Entry(date, category, description, amount);
      entries := entries + [row];
      outcome := Added;
    }
  }

  /**
   * Every table a session can hold has non-negative amounts, so its totals
   * are non-negative, and each month's total lies between 0 and the overall
   * total.
   */
  lemma ValidStoreTotals(s: ExpenseStore, k: MonthKey)
    requires s.Valid()
    ensures Total(s.entries) >= 0
    ensures 0 <= Total(InMonth(s.entries, k)) <= Total(s.entries)
  {
    AcceptedNonNegative(s.entries);
    TotalNonNegative(s.entries);
    MonthTotalBounded(s.entries, k);
  }
}
