/**
 * The generic "Budget vs Actual" card shown to users of no known archetype:
 * the flat budget against the magnitude of the month's total.
 */
module SummaryPanel {
  import opened Wrappers
  import opened Gates

  datatype View =
    | Placeholder
    | Summary(effectiveBudget: real, spent: real, remaining: real, overBudget: bool)

  /**
   * The card. With neither a budget nor spending, the placeholder; otherwise
   * the budget (0 when there is none), the spending, what remains and the
   * alert, raised exactly when spending is above the effective budget.
   */
  function Summarize(budget: Option<real>, monthTotal: Option<real>): (v: View)
    ensures v.Placeholder? <==> !HasBudget(budget) && !HasSpending(monthTotal)
    ensures v.Summary? ==>
              && v.effectiveBudget == (if HasBudget(budget) then budget.value else 0.0)
              && v.spent >= 0.0
              && (v.spent == monthTotal.GetOr(0.0) || v.spent == -monthTotal.GetOr(0.0))
              && v.remaining == v.effectiveBudget - v.spent
              && (v.overBudget <==> v.spent > v.effectiveBudget)
  {
    if !HasBudget(budget) && !HasSpending(monthTotal) then Placeholder
    else
      var spent := Spent(monthTotal);
      var effectiveBudget := if HasBudget(budget) then budget.value else 0.0;
      var remaining := effectiveBudget - spent;
      Summary(effectiveBudget, spent, remaining, remaining < 0.0)
  }

  /** Spending with no budget always raises the alert. */
  lemma SpendingWithoutBudgetIsOver(budget: Option<real>, monthTotal: Option<real>)
    requires !HasBudget(budget) && HasSpending(monthTotal)
    ensures Summarize(budget, monthTotal).overBudget
  {
  }

  /** Spending exactly the budget is not over it. */
  lemma ExactlyOnBudgetIsNotOver(budget: real, monthTotal: real)
    requires budget > 0.0 && (monthTotal == budget || monthTotal == -budget)
    ensures !Summarize(Some(budget), Some(monthTotal)).overBudget
  {
  }
}
