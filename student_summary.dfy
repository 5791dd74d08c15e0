/**
 * The student "Budget vs Actual" panel: per-category budgets saved by the
 * category budget form, set against the month's per-category spend.
 */
module StudentSummary {
  import opened Wrappers
  import opened JsValues
  import opened JsObjects
  import opened Categorizer
  import opened Spending

  /** One table row: `{ category, budget, spent, diff }`. */
  datatype Row = Row(category: Category, budget: real, spent: real, diff: real)

  /** What the panel shows once loading is over and no error occurred. */
  datatype View =
    | Reminder
    | Breakdown(totalBudget: real, totalSpent: real, remaining: real, overspent: bool, rows: seq<Row>)

  /**
   * `Number(categoryBudget[c]) || 0`, where `stored` holds `Number(v)` of each
   * value of the saved object.
   */
  function BudgetOf(stored: Entries<JsNum>, c: Category): real {
    match Lookup(stored, Name(c))
    case Some(n) => OrZero(n)
    case None => 0.0
  }

  /** `CATEGORIES.reduce((sum, c) => sum + (Number(categoryBudget[c]) || 0), 0)`. */
  function SumBudgets(stored: Entries<JsNum>, cats: seq<Category>): real {
    if cats == [] then 0.0 else BudgetOf(stored, cats[0]) + SumBudgets(stored, cats[1..])
  }

  function TotalBudget(stored: Entries<JsNum>): real {
    SumBudgets(stored, Categories)
  }

  /** Adding one more category to the reduce adds its budget. */
  lemma {:induction false} SumBudgetsSnoc(stored: Entries<JsNum>, cats: seq<Category>, c: Category)
    ensures SumBudgets(stored, cats + [c]) == SumBudgets(stored, cats) + BudgetOf(stored, c)
  {
    if cats != [] {
      assert (cats + [c])[1..] == cats[1..] + [c];
      SumBudgetsSnoc(stored, cats[1..], c);
    }
  }

  /** Keys of the saved object that are not category names play no part in the total. */
  lemma {:induction false} OnlyCategoriesCount(stored: Entries<JsNum>, k: string, v: JsNum, cats: seq<Category>)
    requires forall c :: Name(c) != k
    ensures SumBudgets(Set(stored, k, v), cats) == SumBudgets(stored, cats)
  {
    if cats != [] {
      OnlyCategoriesCount(stored, k, v, cats[1..]);
    }
  }

  /** `budget > 0.01`: an all-zero or tiny budget counts as none. */
  predicate HasBudget(totalBudget: real) {
    totalBudget > 0.01
  }

  /** `CATEGORIES.map(...)`: one row per category, in `CATEGORIES` order. */
  function Rows(stored: Entries<JsNum>, spend: SpendMap, cats: seq<Category>): (rows: seq<Row>)
    ensures |rows| == |cats|
    ensures forall i | 0 <= i < |cats| ::
              rows[i].category == cats[i] && rows[i].budget == BudgetOf(stored, cats[i])
              && rows[i].spent == Get(spend, cats[i]) && rows[i].diff == rows[i].spent - rows[i].budget
  {
    if cats == [] then []
    else
      var b, s := BudgetOf(stored, cats[0]), Get(spend, cats[0]);
      [Row(cats[0], b, s, s - b)] + Rows(stored, spend, cats[1..])
  }

  function SumSpent(rows: seq<Row>): real {
    if rows == [] then 0.0 else rows[0].spent + SumSpent(rows[1..])
  }

  function SumBudget(rows: seq<Row>): real {
    if rows == [] then 0.0 else rows[0].budget + SumBudget(rows[1..])
  }

  /** The table's columns add up to the totals shown above it. */
  lemma {:induction false} RowsAddUp(stored: Entries<JsNum>, spend: SpendMap, cats: seq<Category>)
    ensures SumSpent(Rows(stored, spend, cats)) == SumOver(spend, cats)
    ensures SumBudget(Rows(stored, spend, cats)) == SumBudgets(stored, cats)
  {
    if cats != [] {
      RowsAddUp(stored, spend, cats[1..]);
    }
  }

  /**
   * The panel's verdict. Without a budget above 0.01 only the reminder is
   * shown; otherwise the totals, the alert when spending exceeds the budget
   * by more than 0.01, and the five rows.
   */
  function Summarize(stored: Entries<JsNum>, spend: SpendMap): (v: View)
    ensures v.Reminder? <==> TotalBudget(stored) <= 0.01
    ensures v.Breakdown? ==>
              && v.totalBudget == TotalBudget(stored)
              && v.totalSpent == SumOver(spend, Categories)
              && v.remaining == v.totalBudget - v.totalSpent
              && (v.overspent <==> v.remaining < -0.01)
              && v.rows == Rows(stored, spend, Categories)
              && |v.rows| == |Categories|
              && SumSpent(v.rows) == v.totalSpent
              && SumBudget(v.rows) == v.totalBudget
  {
    var totalBudget := TotalBudget(stored);
    var totalSpent := SumOver(spend, Categories);
    var remaining := totalBudget - totalSpent;
    var overspent := HasBudget(totalBudget) && totalSpent > totalBudget + 0.01;
    RowsAddUp(stored, spend, Categories);
    if !HasBudget(totalBudget) then Reminder
    else Breakdown(totalBudget, totalSpent, remaining, overspent, Rows(stored, spend, Categories))
  }

  /** Spending over the budget by 0.01 or less raises no alert. */
  lemma ToleranceNotFlagged(stored: Entries<JsNum>, spend: SpendMap)
    requires HasBudget(TotalBudget(stored))
    requires SumOver(spend, Categories) <= TotalBudget(stored) + 0.01
    ensures !Summarize(stored, spend).overspent
  {
  }

  /** Read from the month's transactions, the spent column is their total outflow. */
  lemma SpentIsMonthOutflow(stored: Entries<JsNum>, txns: seq<Transactions.Transaction>)
    requires HasBudget(TotalBudget(stored))
    ensures Summarize(stored, SpendOf(txns)).totalSpent == TotalOutflow(txns)
  {
    CategoriesPartitionSpend(txns);
  }
}
