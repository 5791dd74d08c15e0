/**
 * The free-spender "Saving Tips" card: a word on the month's balance against
 * the budget, the category most of the money went to, and two fixed habits.
 */
module FreeSpenderTips {
  import opened Wrappers
  import opened JsValues
  import opened Categorizer
  import opened Spending
  import opened StableSort
  import opened Gates

  /** `{ name, spent }`, one per category. */
  datatype Entry = Entry(name: Category, spent: real)

  datatype Tip =
    | ExceededBy(amount: real)
    | UnderBy(amount: real)
    | TopCategory(name: Category, spent: real, pct: real)
    | DebitOnly
    | PauseAndAsk

  datatype View = BudgetReminder | UploadReminder | Tips(tips: seq<Tip>)

  /** `cats.map((c) => ({ name: c, spent: Number(categorySpend[c]) || 0 }))`. */
  function Entries(spend: SpendMap, cats: seq<Category>): (es: seq<Entry>)
    ensures |es| == |cats|
    ensures forall i | 0 <= i < |cats| :: es[i] == Entry(cats[i], Get(spend, cats[i]))
  {
    if cats == [] then [] else [Entry(cats[0], Get(spend, cats[0]))] + Entries(spend, cats[1..])
  }

  function EntrySpent(e: Entry): real {
    e.spent
  }

  /** The entries sorted by `b.spent - a.spent`. */
  function Ranked(spend: SpendMap, cats: seq<Category>): seq<Entry> {
    SortDesc(Entries(spend, cats), EntrySpent)
  }

  /**
   * The first ranked entry is a category of `cats` with its own spend, no
   * category spent more, and every other category that spent as much comes
   * later in `cats`.
   */
  lemma RankedFirst(spend: SpendMap, cats: seq<Category>)
    requires cats != []
    ensures |Ranked(spend, cats)| == |cats|
    ensures Ranked(spend, cats)[0].name in cats
    ensures Ranked(spend, cats)[0].spent == Get(spend, Ranked(spend, cats)[0].name)
    ensures forall c | c in cats :: Get(spend, c) <= Ranked(spend, cats)[0].spent
    ensures forall c | c in cats && c != Ranked(spend, cats)[0].name && Get(spend, c) == Ranked(spend, cats)[0].spent ::
              Before(cats, Ranked(spend, cats)[0].name, c)
  {
    var es := Entries(spend, cats);
    SortDescShape(es, EntrySpent);
    FirstIsEarliestMaximum(es, EntrySpent);
    var top := Ranked(spend, cats)[0];
    assert top in multiset(es);
    var k :| 0 <= k < |es| && es[k] == top;
    assert top.name == cats[k] && top.spent == Get(spend, cats[k]);
    RankedFirstLargest(spend, cats, top);
  }

  /** An entry ahead of every other in the stable order spent the most, and ties come after it in `cats`. */
  lemma RankedFirstLargest(spend: SpendMap, cats: seq<Category>, top: Entry)
    requires top in Entries(spend, cats)
    requires forall y | y in Entries(spend, cats) :: EntrySpent(top) >= EntrySpent(y)
    requires forall y | y in Entries(spend, cats) && y != top && EntrySpent(y) == EntrySpent(top) ::
               Before(Entries(spend, cats), top, y)
    ensures forall c | c in cats :: Get(spend, c) <= top.spent
    ensures forall c | c in cats && c != top.name && Get(spend, c) == top.spent :: Before(cats, top.name, c)
  {
    var es := Entries(spend, cats);
    forall c | c in cats
      ensures Get(spend, c) <= top.spent
    {
      var i :| 0 <= i < |cats| && cats[i] == c;
      assert es[i] in es;
    }
    forall c | c in cats && c != top.name && Get(spend, c) == top.spent
      ensures Before(cats, top.name, c)
    {
      var i :| 0 <= i < |cats| && cats[i] == c;
      assert es[i] in es && es[i] != top;
      var p, q :| 0 <= p < q < |es| && es[p] == top && es[q] == es[i];
      assert cats[p] == top.name && cats[q] == c;
    }
  }

  /** `entries[0]`: the top-spending category, the earliest in `CATEGORIES` on a tie. */
  function Top(spend: SpendMap): Entry {
    RankedFirst(spend, Categories);
    Ranked(spend, Categories)[0]
  }

  /** What `Top` means: the largest spend, and the first category in `CATEGORIES` that has it. */
  lemma TopIsEarliestLargest(spend: SpendMap)
    ensures Top(spend).spent == Get(spend, Top(spend).name)
    ensures forall c :: Get(spend, c) <= Top(spend).spent
    ensures forall c | c != Top(spend).name && Get(spend, c) == Top(spend).spent ::
              Before(Categories, Top(spend).name, c)
    ensures Top(spend).spent > 0.0 <==> exists c :: Get(spend, c) > 0.0
  {
    RankedFirst(spend, Categories);
    forall c ensures c in Categories {
      EveryCategoryListed(c);
    }
  }

  /**
   * The tips pushed once both gates have passed: the overshoot when spending
   * is more than 5 above the budget, or the margin when it is more than 5
   * below; then `top` with its share of the total when it spent anything;
   * then the two fixed habits.
   */
  method PushTips(totalBudget: real, totalSpent: real, top: Entry) returns (tips: seq<Tip>)
    requires totalSpent > 0.01
    ensures |tips| == 2 + (if totalSpent - totalBudget > 5.0 || totalBudget - totalSpent > 5.0 then 1 else 0)
                        + (if top.spent > 0.0 then 1 else 0)
    ensures tips[|tips| - 2..] == [DebitOnly, PauseAndAsk]
    ensures tips[0].ExceededBy? <==> totalSpent - totalBudget > 5.0
    ensures tips[0].ExceededBy? ==> tips[0].amount == totalSpent - totalBudget
    ensures tips[0].UnderBy? <==> totalBudget - totalSpent > 5.0
    ensures tips[0].UnderBy? ==> tips[0].amount == totalBudget - totalSpent
    ensures top.spent > 0.0 ==> tips[|tips| - 3] == TopCategory(top.name, top.spent, Percent(top.spent, totalSpent))
  {
    tips := [];
    var diff := totalSpent - totalBudget;
    if diff > 5.0 {
      tips := tips + [ExceededBy(diff)];
    } else if totalBudget - totalSpent > 5.0 {
      tips := tips + [UnderBy(totalBudget - totalSpent)];
    }
    if top.spent > 0.0 {
      var pct := top.spent / totalSpent * 100.0;
      tips := tips + [TopCategory(top.name, top.spent, pct)];
    }
    tips := tips + [DebitOnly];
    tips := tips + [PauseAndAsk];
  }

  /**
   * The card. Without a budget above 0, the budget reminder; without spending
   * above 0.01, the upload reminder. Otherwise: the overshoot when spending
   * is more than 5 above the budget, or the margin when it is more than 5
   * below; then the top category with its share of the total when it spent
   * anything; then the two fixed habits.
   */
  method BuildTips(budget: Option<real>, spend: SpendMap) returns (v: View)
    ensures v.BudgetReminder? <==> !HasBudget(budget)
    ensures v.UploadReminder? <==> HasBudget(budget) && SumOver(spend, Categories) <= 0.01
    ensures v.Tips? ==>
              && |v.tips| == 2 + (if SumOver(spend, Categories) - budget.value > 5.0
                                     || budget.value - SumOver(spend, Categories) > 5.0 then 1 else 0)
                             + (if Top(spend).spent > 0.0 then 1 else 0)
              && v.tips[|v.tips| - 2..] == [DebitOnly, PauseAndAsk]
    ensures v.Tips? ==>
              && (v.tips[0].ExceededBy? <==> SumOver(spend, Categories) - budget.value > 5.0)
              && (v.tips[0].ExceededBy? ==> v.tips[0].amount == SumOver(spend, Categories) - budget.value)
              && (v.tips[0].UnderBy? <==> budget.value - SumOver(spend, Categories) > 5.0)
              && (v.tips[0].UnderBy? ==> v.tips[0].amount == budget.value - SumOver(spend, Categories))
    ensures v.Tips? && Top(spend).spent > 0.0 ==>
              v.tips[|v.tips| - 3]
              == TopCategory(Top(spend).name, Top(spend).spent, Percent(Top(spend).spent, SumOver(spend, Categories)))
  {
    var totalBudget := budget.GetOr(0.0);
    var hasBudget := totalBudget > 0.0;
    var totalSpent := SumOver(spend, Categories);
    var hasSpending := totalSpent > 0.01;
    if !hasBudget {
      return BudgetReminder;
    }
    if !hasSpending {
      return UploadReminder;
    }
    var tips := PushTips(totalBudget, totalSpent, Top(spend));
    return Tips(tips);
  }
}
