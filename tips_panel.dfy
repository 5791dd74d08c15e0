/**
 * The generic "Saving Tips" card: two fixed tips per archetype, and a
 * warning when the month's spending is above the budget.
 */
module TipsPanel {
  import opened Wrappers
  import opened Gates
  import opened Roles

  datatype Tip =
    | CutEntertainment | PlanWeeklyFood
    | SetSpendingLimit | TurnOnAlerts
    | SeparateBusinessExpenses | ReviewHighVariance
    | WatchTrends | TargetSavingsRates
    | ExceededBudget

  datatype View = Placeholder | Tips(tips: seq<Tip>)

  /** The two tips each archetype is given, and none for any other `userType`. */
  function TypeTips(userType: string): (tips: seq<Tip>)
    ensures IsKnown(userType) <==> |tips| == 2
    ensures !IsKnown(userType) <==> tips == []
    ensures ExceededBudget !in tips
  {
    if userType == Student then [CutEntertainment, PlanWeeklyFood]
    else if userType == FreeSpender then [SetSpendingLimit, TurnOnAlerts]
    else if userType == BusinessOwner then [SeparateBusinessExpenses, ReviewHighVariance]
    else if userType == FinanciallyInclined then [WatchTrends, TargetSavingsRates]
    else []
  }

  /** The pushes of the archetype's two tips, in the card's `if` chain on the role flags. */
  method PushTypeTips(userType: string) returns (tips: seq<Tip>)
    ensures tips == TypeTips(userType)
  {
    tips := [];
    if userType == Student {
      tips := tips + [CutEntertainment];
      tips := tips + [PlanWeeklyFood];
    } else if userType == FreeSpender {
      tips := tips + [SetSpendingLimit];
      tips := tips + [TurnOnAlerts];
    } else if userType == BusinessOwner {
      tips := tips + [SeparateBusinessExpenses];
      tips := tips + [ReviewHighVariance];
    } else if userType == FinanciallyInclined {
      tips := tips + [WatchTrends];
      tips := tips + [TargetSavingsRates];
    }
  }

  /**
   * The card: the placeholder when there is neither a budget nor spending;
   * otherwise the archetype's tips, then the warning exactly when there is a
   * budget and the spending is strictly above it.
   */
  method BuildTips(userType: string, budget: Option<real>, monthTotal: Option<real>) returns (v: View)
    ensures v.Placeholder? <==> !HasBudget(budget) && !HasSpending(monthTotal)
    ensures v.Tips? ==> v.tips == TypeTips(userType)
                                 + (if HasBudget(budget) && Spent(monthTotal) > budget.value then [ExceededBudget] else [])
    ensures v.Tips? ==> (ExceededBudget in v.tips <==> HasBudget(budget) && Spent(monthTotal) > budget.value)
    ensures v.Tips? && ExceededBudget in v.tips ==> v.tips[|v.tips| - 1] == ExceededBudget
  {
    var hasBudget := budget.Some? && budget.value > 0.0;
    var total := monthTotal.GetOr(0.0);
    var spent := if total < 0.0 then -total else total;
    var hasSpending := monthTotal.Some? && spent > 0.01;
    if !hasBudget && !hasSpending {
      return Placeholder;
    }
    var tips := PushTypeTips(userType);
    if hasBudget && spent > budget.value {
      tips := tips + [ExceededBudget];
    }
    return Tips(tips);
  }
}
