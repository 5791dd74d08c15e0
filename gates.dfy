/**
 * The budget and spending gates the dashboard and its panels compute from
 * the saved monthly budget and the current month's signed total, both of
 * which may still be `null`.
 */
module Gates {
  import opened Wrappers

  /** `budget !== null && budget > 0`. */
  predicate HasBudget(budget: Option<real>) {
    budget.Some? && budget.value > 0.0
  }

  /** `Math.abs(monthTotal || 0)`: the month's spending as a positive amount. */
  function Spent(monthTotal: Option<real>): real {
    var t := monthTotal.GetOr(0.0);
    if t < 0.0 then -t else t
  }

  /** `monthTotal !== null && Math.abs(monthTotal) > 0.01`. */
  predicate HasSpending(monthTotal: Option<real>) {
    monthTotal.Some? && Spent(monthTotal) > 0.01
  }

  /** `hasBudget && hasSpending`. */
  predicate CanShowTips(budget: Option<real>, monthTotal: Option<real>) {
    HasBudget(budget) && HasSpending(monthTotal)
  }
}
