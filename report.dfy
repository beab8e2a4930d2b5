/**
 * The monthly report: the month selector's options, the selected month's
 * entries, its total and per-category totals, the budget alert and the
 * spending suggestion based on the month's highest category.
 */
module Report {
  import opened Wrappers
  import opened Expense
  import opened Aggregate
  import opened Months
  import opened Budget

  /**
   * Scanning `cs` for the category of `m` with the largest sum; on a tie the
   * one listed first wins. None when no category of `cs` is a key of `m`.
   */
  function TopIn(m: map<Category, int>, cs: seq<Category>): (r: Option<Category>)
    ensures r.None? <==> forall i :: 0 <= i < |cs| ==> cs[i] !in m
    ensures r.Some? ==> r.value in m && r.value in cs
    ensures r.Some? ==> forall i :: 0 <= i < |cs| && cs[i] in m ==> m[cs[i]] <= m[r.value]
  {
    if cs == [] then None
    else
      var rest := TopIn(m, cs[1..]);
      assert forall i :: 1 <= i < |cs| ==> cs[i] == cs[1..][i - 1];
      if cs[0] in m && (rest.None? || m[cs[0]] >= m[rest.value]) then Some(cs[0]) else rest
  }

  /**
   * The highest category of a non-empty table of category sums and its sum:
   * a key of the table whose sum no other category's exceeds. The scan runs
   * in name order, the order in which the grouped sums are listed.
   */
  function Highest(m: map<Category, int>): (r: (Category, int))
    requires m != map[]
    ensures r.0 in m && r.1 == m[r.0]
    ensures forall c :: c in m ==> m[c] <= r.1
  {
    var c :| c in m;
    CategoryLists(c);
    var top := TopIn(m, ByName);
    assert top.Some?;
    assert forall d :: d in m ==> d in ByName by {
      forall d | d in m ensures d in ByName { CategoryLists(d); }
    }
    (top.value, m[top.value])
  }

  /** The advisory to cut non-essential spending is shown for these two categories. */
  predicate Suggests(c: Category): (r: bool)
    ensures r <==> c == Shopping || c == Entertainment
  {
    Name(c) in ["Shopping", "Entertainment"]
  }

  /** Everything the monthly report decides. */
  datatype MonthlyReport = MonthlyReport(
    months: seq<MonthKey>,
    entries: seq<Entry>,
    total: int,
    byCategory: map<Category, int>,
    status: Option<BudgetStatus>,
    top: Category,
    topAmount: int,
    suggest: bool)

  /**
   * The report for the month `selected` (one of the selector's options)
   * under `budget`; nothing is reported for an empty table.
   */
  function Monthly(es: seq<Entry>, selected: MonthKey, budget: int): (r: Option<MonthlyReport>)
    requires es == [] || selected in MonthsPresent(es)
    ensures r.None? <==> es == []
  {
    if es == [] then None
    else
      var monthly := InMonth(es, selected);
      SelectedMonthNonEmpty(es, selected);
      assert monthly[0] in monthly;
      var sums := CategoryTotals(monthly);
      assert monthly[0].category in sums;
      var total := Total(monthly);
      var (top, amount) := Highest(sums);
      Some(MonthlyReport(MonthsPresent(es), monthly, total, sums,
                         Evaluate(total, budget), top, amount, Suggests(top)))
  }

  /** The selector offers the table's months, each once, in strictly ascending order. */
  lemma MonthlyOptions(es: seq<Entry>, selected: MonthKey, budget: int)
    requires es != [] && selected in MonthsPresent(es)
    ensures var r := Monthly(es, selected, budget).value;
            && StrictlyAscending(r.months)
            && NoDuplicates(r.months)
            && (forall k :: k in r.months <==> exists e :: e in es && KeyOf(e) == k)
  {
    AscendingNoDuplicates(MonthsPresent(es));
  }

  /**
   * The month's entries are the table's filter to the selected month, so
   * each of its entries appears as often as in the table, in table order,
   * and there is at least one; the month's total is their sum and never
   * exceeds the overall total, and the month's per-category sums are the
   * grouped sums of those entries.
   */
  lemma MonthlyEntries(es: seq<Entry>, selected: MonthKey, budget: int)
    requires es != [] && selected in MonthsPresent(es)
    requires NonNegative(es)
    ensures var r := Monthly(es, selected, budget).value;
            && r.entries == InMonth(es, selected)
            && r.byCategory == CategoryTotals(r.entries)
            && r.entries != []
            && (forall e :: e in r.entries <==> e in es && KeyOf(e) == selected)
            && IsSubsequence(r.entries, es)
            && r.total == Total(r.entries) && 0 <= r.total <= Total(es)
  {
    SelectedMonthNonEmpty(es, selected);
    InMonthIsSubsequence(es, selected);
    MonthTotalBounded(es, selected);
  }

  /** The alert follows the decision table, applied to the month's total. */
  lemma MonthlyAlert(es: seq<Entry>, selected: MonthKey, budget: int)
    requires es != [] && selected in MonthsPresent(es)
    ensures var r := Monthly(es, selected, budget).value;
            && (r.status == None <==> budget <= 0)
            && (r.status == Some(Exceeded) <==> budget > 0 && r.total > budget)
            && (r.status == Some(Warning) <==> budget > 0 && r.total <= budget && r.total * 100 >= 80 * budget)
            && (r.status == Some(WithinBudget) <==> budget > 0 && r.total * 100 < 80 * budget)
  {
    EvaluateCases(Monthly(es, selected, budget).value.total, budget);
  }

  /**
   * The highest category occurs in the month, its amount is that
   * category's monthly sum, no category of the month has a larger one, and
   * the suggestion is made exactly when it is Shopping or Entertainment.
   */
  lemma MonthlyTop(es: seq<Entry>, selected: MonthKey, budget: int)
    requires es != [] && selected in MonthsPresent(es)
    ensures var r := Monthly(es, selected, budget).value;
            && (exists i :: 0 <= i < |r.entries| && r.entries[i].category == r.top)
            && r.topAmount == Total(OfCategory(r.entries, r.top))
            && (forall i :: 0 <= i < |r.entries| ==>
                  Total(OfCategory(r.entries, r.entries[i].category)) <= r.topAmount)
            && (r.suggest <==> r.top == Shopping || r.top == Entertainment)
  {
    var r := Monthly(es, selected, budget).value;
    CategoryTotalsValue(r.entries, r.top);
    forall i | 0 <= i < |r.entries|
      ensures Total(OfCategory(r.entries, r.entries[i].category)) <= r.topAmount
    {
      CategoryTotalsValue(r.entries, r.entries[i].category);
    }
  }
}
