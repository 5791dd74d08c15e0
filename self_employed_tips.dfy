/**
 * The self-employed "Saving Tips" card: whether the month stayed within the
 * income-based budget, the category with the largest spend, and a reminder
 * to plan for a low-income month.
 */
module SelfEmployedTips {
  import opened Wrappers
  import opened Transactions
  import opened Categorizer
  import opened Spending
  import opened Gates

  datatype Tip =
    | OverBy(amount: real)
    | WithinBudget
    | MoveToSavings
    | BiggestCategory(category: Category, amount: real)
    | LowIncomeMonth

  datatype View = Reminder | Tips(tips: seq<Tip>)

  /**
   * `c` has the largest spend of `cats`, above 0, and no category listed
   * before its first place in `cats` spent as much.
   */
  predicate IsFirstLargest(spend: SpendMap, cats: seq<Category>, c: Category) {
    && Get(spend, c) > 0.0
    && (forall j | 0 <= j < |cats| :: Get(spend, cats[j]) <= Get(spend, c))
    && exists k | 0 <= k < |cats| :: cats[k] == c && forall j | 0 <= j < k :: Get(spend, cats[j]) < Get(spend, c)
  }

  /** At most one category is the first largest. */
  lemma FirstLargestUnique(spend: SpendMap, cats: seq<Category>, a: Category, b: Category)
    requires IsFirstLargest(spend, cats, a) && IsFirstLargest(spend, cats, b)
    ensures a == b
  {
    var ka :| 0 <= ka < |cats| && cats[ka] == a && forall j | 0 <= j < ka :: Get(spend, cats[j]) < Get(spend, a);
    var kb :| 0 <= kb < |cats| && cats[kb] == b && forall j | 0 <= j < kb :: Get(spend, cats[j]) < Get(spend, b);
    assert Get(spend, a) == Get(spend, b) by {
      assert Get(spend, cats[ka]) <= Get(spend, b) && Get(spend, cats[kb]) <= Get(spend, a);
    }
  }

  /**
   * The `Object.entries(categorySpend).forEach` that keeps the first
   * category whose spend is strictly larger than every one before it and
   * than 0: none when nothing spent more than 0.
   */
  method Biggest(spend: SpendMap, cats: seq<Category>) returns (biggestCat: Option<Category>, biggestAmount: real)
    ensures biggestCat.None? <==> forall c | c in cats :: Get(spend, c) <= 0.0
    ensures biggestCat.None? ==> biggestAmount == 0.0
    ensures biggestCat.Some? ==>
              IsFirstLargest(spend, cats, biggestCat.value) && biggestAmount == Get(spend, biggestCat.value)
  {
    biggestCat := None;
    biggestAmount := 0.0;
    for i := 0 to |cats|
      invariant biggestAmount >= 0.0
      invariant forall j | 0 <= j < i :: Get(spend, cats[j]) <= biggestAmount
      invariant biggestCat.None? ==> biggestAmount == 0.0
      invariant biggestCat.Some? ==>
                  && biggestAmount == Get(spend, biggestCat.value) && biggestAmount > 0.0
                  && exists k | 0 <= k < i :: cats[k] == biggestCat.value
                                              && forall j | 0 <= j < k :: Get(spend, cats[j]) < biggestAmount
    {
      var amt := Get(spend, cats[i]);
      if amt > biggestAmount {
        biggestAmount := amt;
        biggestCat := Some(cats[i]);
      }
    }
    if biggestCat.None? {
      forall c | c in cats ensures Get(spend, c) <= 0.0 {
        var j :| 0 <= j < |cats| && cats[j] == c;
      }
    } else {
      assert cats[0] in cats;
    }
  }

  /**
   * The card. Without a budget above 0 and spending above 0.01, only the
   * reminder. Otherwise: the overshoot when the budget is exceeded, or the
   * two within-budget tips; then the first largest category when some
   * category spent more than 0; then the low-income-month tip.
   */
  method BuildTips(budget: Option<real>, spend: SpendMap, totalSpent: real) returns (v: View)
    ensures v.Reminder? <==> !HasBudget(budget) || totalSpent <= 0.01
    ensures v.Tips? ==>
              && |v.tips| == (if totalSpent > budget.value then 1 else 2)
                             + (if exists c :: Get(spend, c) > 0.0 then 1 else 0) + 1
              && v.tips[|v.tips| - 1] == LowIncomeMonth
    ensures v.Tips? && totalSpent > budget.value ==> v.tips[0] == OverBy(totalSpent - budget.value)
    ensures v.Tips? && totalSpent <= budget.value ==> v.tips[..2] == [WithinBudget, MoveToSavings]
    ensures v.Tips? ==> ((exists c :: Get(spend, c) > 0.0) <==> v.tips[|v.tips| - 2].BiggestCategory?)
    ensures v.Tips? && v.tips[|v.tips| - 2].BiggestCategory? ==>
              && IsFirstLargest(spend, Categories, v.tips[|v.tips| - 2].category)
              && v.tips[|v.tips| - 2].amount == Get(spend, v.tips[|v.tips| - 2].category)
  {
    var hasBudget := budget.Some? && budget.value > 0.0;
    var hasSpending := totalSpent > 0.01;
    if !hasBudget || !hasSpending {
      return Reminder;
    }
    var tips: seq<Tip> := [];
    var remaining := budget.value - totalSpent;
    var overBudget := remaining < 0.0;
    var biggestCat, biggestAmount := Biggest(spend, Categories);
    assert biggestCat.None? <==> forall c :: Get(spend, c) <= 0.0 by {
      forall c ensures c in Categories {
        EveryCategoryListed(c);
      }
    }
    if overBudget {
      tips := tips + [OverBy(-remaining)];
    } else {
      tips := tips + [WithinBudget];
      tips := tips + [MoveToSavings];
    }
    if biggestCat.Some? {
      tips := tips + [BiggestCategory(biggestCat.value, biggestAmount)];
    }
    tips := tips + [LowIncomeMonth];
    return Tips(tips);
  }

  /**
   * Fed by the panel's own `forEach` over the month's transactions, the
   * spent figure is the sum of the category spends; so once it is above
   * 0.01 some category spent more than 0, and a card that shows tips always
   * names the biggest category.
   */
  lemma {:induction false} SpentIsCategorySum(txns: seq<Transaction>)
    ensures TotalOutflow(txns) == SumOver(SpendOf(txns), Categories)
    ensures TotalOutflow(txns) > 0.01 ==> exists c :: Get(SpendOf(txns), c) > 0.0
  {
    var spend := SpendOf(txns);
    CategoriesPartitionSpend(txns);
    SumOverCategories(spend);
    if Get(spend, Food) > 0.0 {
      assert Get(spend, Food) > 0.0;
    } else if Get(spend, Rent) > 0.0 {
      assert Get(spend, Rent) > 0.0;
    } else if Get(spend, Entertainment) > 0.0 {
      assert Get(spend, Entertainment) > 0.0;
    } else if Get(spend, Transport) > 0.0 {
      assert Get(spend, Transport) > 0.0;
    }
  }
}
