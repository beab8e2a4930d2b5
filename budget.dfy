/** The monthly budget alert: the month's total against the budget the user set. */
module Budget {
  import opened Wrappers

  /** The three alerts, from worst to best. */
  datatype BudgetStatus = Exceeded | Warning | WithinBudget

  /** How bad an alert is: the higher, the worse. */
  function Severity(s: BudgetStatus): nat {
    match s
    case WithinBudget => 0
    case Warning => 1
    case Exceeded => 2
  }

  /** The share of the budget spent, in percent (exact, where the application computes in floating point). */
  function UsagePercent(total: int, budget: int): (r: real)
    requires budget > 0
    ensures r >= 0.0 <==> total >= 0
    ensures total == budget ==> r == 100.0
  {
    assert total == budget ==> total as real / budget as real == 1.0;
    (total as real / budget as real) * 100.0
  }

  lemma ScalePositive(x: real, b: real)
    requires b > 0.0
    ensures x >= 0.0 <==> x * b >= 0.0
  {
    if x < 0.0 {
      assert -x * b > 0.0;
    }
  }

  /** The 80% threshold needs no division: it is a comparison of integers. */
  lemma UsageThreshold(total: int, budget: int)
    requires budget > 0
    ensures UsagePercent(total, budget) >= 80.0 <==> total * 100 >= 80 * budget
  {
    var t, b := total as real, budget as real;
    var p := UsagePercent(total, budget);
    assert p * b == t * 100.0 by {
      assert (t / b) * b == t;
    }
    assert (p - 80.0) * b == t * 100.0 - 80.0 * b;
    ScalePositive(p - 80.0, b);
    assert (total * 100) as real == t * 100.0;
    assert (80 * budget) as real == 80.0 * b;
  }

  /**
   * The alert for a month: none at all unless the budget is positive; then
   * the first that applies of "exceeded" (strictly over budget), "warning"
   * (at least 80% used) and "within budget".
   */
  function Evaluate(total: int, budget: int): (r: Option<BudgetStatus>)
    ensures r.None? <==> budget <= 0
  {
    if budget <= 0 then None
    else if total > budget then Some(Exceeded)
    else if UsagePercent(total, budget) >= 80.0 then Some(Warning)
    else Some(WithinBudget)
  }

  /** The decision table, each row both ways; the rows exclude one another and cover every case. */
  lemma EvaluateCases(total: int, budget: int)
    ensures Evaluate(total, budget) == None <==> budget <= 0
    ensures Evaluate(total, budget) == Some(Exceeded) <==> budget > 0 && total > budget
    ensures Evaluate(total, budget) == Some(Warning) <==>
              budget > 0 && total <= budget && total * 100 >= 80 * budget
    ensures Evaluate(total, budget) == Some(WithinBudget) <==> budget > 0 && total * 100 < 80 * budget
  {
    if budget > 0 {
      UsageThreshold(total, budget);
    }
  }

  /** Spending more never gives a better alert under the same budget. */
  lemma EvaluateMonotone(total1: int, total2: int, budget: int)
    requires budget > 0 && total1 <= total2
    ensures Severity(Evaluate(total1, budget).value) <= Severity(Evaluate(total2, budget).value)
  {
    EvaluateCases(total1, budget);
    EvaluateCases(total2, budget);
  }

  /** Spending exactly the budget is a warning, not an excess; spending 120% of it is an excess. */
  lemma EvaluateExamples()
    ensures Evaluate(100000, 100000) == Some(Warning)
    ensures Evaluate(120000, 100000) == Some(Exceeded)
    ensures Evaluate(79999, 100000) == Some(WithinBudget)
  {
    EvaluateCases(100000, 100000);
    EvaluateCases(120000, 100000);
    EvaluateCases(79999, 100000);
  }
}
