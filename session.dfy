/**
 * A session driven through the store's operations, showing what a caller
 * can conclude from their contracts alone.
 */
module Session {
  import opened Wrappers
  import opened Text
  import opened Expense
  import opened Store
  import opened Aggregate
  import opened Months

  const Lunch := Entry(Date(2024, 5, 1), Food, "Lunch", 20000)
  const Shoes := Entry(Date(2024, 6, 3), Shopping, " Shoes ", 150000)

  lemma DescriptionsNotBlank()
    ensures Strip(Lunch.description) != [] && Strip(Shoes.description) != []
  {
    StripEmptyIffBlank(Lunch.description);
    assert !IsSpace(Lunch.description[0]);
    StripEmptyIffBlank(Shoes.description);
    assert !IsSpace(Shoes.description[1]);
  }

  lemma LunchSummary()
    ensures OverallSummary([Lunch]) == Some(Summary(20000, map[Food := 20000]))
  {
    assert [Lunch][1..] == [];
    assert Total([Lunch]) == 20000;
    assert CategoryTotals([Lunch]) == Bump(map[], Food, 20000);
    assert Bump(map[], Food, 20000) == map[Food := 20000];
  }

  lemma MayAndJune()
    ensures MonthsPresent([Lunch, Shoes]) == [MonthKey(2024, 5), MonthKey(2024, 6)]
  {
    assert [Lunch, Shoes][1..] == [Shoes] && [Shoes][1..] == [];
    assert MonthsPresent([Shoes]) == [MonthKey(2024, 6)];
  }

  /**
   * A zero amount is refused and leaves the table empty; a lunch of 200
   * rupees on 2024-05-01 is accepted and is then the whole summary; a
   * later purchase in June makes the month selector offer May and June,
   * in that order.
   */
  method ExampleSession() returns (first: AddOutcome, second: AddOutcome, summary: Option<Summary>, months: seq<MonthKey>)
    ensures first == Rejected(InvalidAmount)
    ensures second == Added
    ensures summary == Some(Summary(20000, map[Food := 20000]))
    ensures months == [MonthKey(2024, 5), MonthKey(2024, 6)]
  {
    DescriptionsNotBlank();
    var store := new ExpenseStore();
    first := store.Add(Lunch.date, Lunch.category, Lunch.description, 0);
    second := store.Add(Lunch.date, Lunch.category, Lunch.description, Lunch.amount);
    assert store.entries == [Lunch];
    LunchSummary();
    summary := OverallSummary(store.entries);
    var third := store.Add(Shoes.date, Shoes.category, Shoes.description, Shoes.amount);
    assert third == Added;
    assert store.entries == [Lunch] + [Shoes];
    MayAndJune();
    months := MonthsPresent(store.entries);
  }
}
