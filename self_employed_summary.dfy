/**
 * The self-employed "Budget vs Actual" panel: the income-based budget set
 * against the month's spend, with a table of the categories used, largest
 * first.
 */
module SelfEmployedSummary {
  import opened Wrappers
  import opened Transactions
  import opened JsValues
  import opened Categorizer
  import opened Spending
  import opened StableSort
  import opened Gates

  /** One table row: the category, what it spent and its share of the total. */
  datatype Row = Row(category: Category, spent: real, pct: real)

  /** What the panel shows once loading is over and no error occurred. */
  datatype View =
    | Reminder
    | Report(totalSpent: real, remaining: real, overBudget: bool, hasSpending: bool, rows: seq<Row>)

  /** `(spend[c] || 0)`, the sort key of `sortedCategories`. */
  function SpendKey(spend: SpendMap): Category -> real {
    c => Get(spend, c)
  }

  /** `CATEGORIES.slice().sort((a, b) => (spend[b] || 0) - (spend[a] || 0))`. */
  function SortedCategories(spend: SpendMap): seq<Category> {
    SortDesc(Categories, SpendKey(spend))
  }

  /** `sortedCategories` lists every category once, from largest to smallest spend. */
  lemma SortedCategoriesShape(spend: SpendMap)
    ensures multiset(SortedCategories(spend)) == multiset(Categories)
    ensures |SortedCategories(spend)| == |Categories|
    ensures forall i, j | 0 <= i < j < |SortedCategories(spend)| ::
              Get(spend, SortedCategories(spend)[i]) >= Get(spend, SortedCategories(spend)[j])
  {
    SortDescShape(Categories, SpendKey(spend));
  }

  /** The table body: each category in `cats` with spend above 0.01, and its share. */
  function TableRows(spend: SpendMap, totalSpent: real, cats: seq<Category>): (rows: seq<Row>)
    ensures forall r | r in rows ::
              r.category in cats && r.spent > 0.01 && r.spent == Get(spend, r.category)
              && r.pct == Percent(r.spent, totalSpent)
    ensures |rows| <= |cats|
  {
    if cats == [] then []
    else
      var s := Get(spend, cats[0]);
      var rest := TableRows(spend, totalSpent, cats[1..]);
      if s <= 0.01 then rest
      else
        var r := [Row(cats[0], s, Percent(s, totalSpent))] + rest;
        assert r[0].category == cats[0];
        r
  }

  /** Every category of `cats` with spend above 0.01 has a row. */
  lemma {:induction false} TableRowsCover(spend: SpendMap, totalSpent: real, cats: seq<Category>, c: Category)
    requires c in cats && Get(spend, c) > 0.01
    ensures exists r | r in TableRows(spend, totalSpent, cats) :: r.category == c
  {
    var rows := TableRows(spend, totalSpent, cats);
    if cats[0] == c {
      assert rows[0].category == c;
    } else {
      TableRowsCover(spend, totalSpent, cats[1..], c);
      var r :| r in TableRows(spend, totalSpent, cats[1..]) && r.category == c;
      assert r in rows;
    }
  }

  /** Categories listed from largest to smallest spend. */
  predicate SpendDescending(spend: SpendMap, cats: seq<Category>) {
    forall i, j | 0 <= i < j < |cats| :: Get(spend, cats[i]) >= Get(spend, cats[j])
  }

  /** A table whose rows run from largest to smallest spend. */
  predicate RowsDescending(rows: seq<Row>) {
    forall i, j | 0 <= i < j < |rows| :: rows[i].spent >= rows[j].spent
  }

  /** The tail of a descending list is descending, and its head is its largest. */
  lemma DescendingTail(spend: SpendMap, cats: seq<Category>)
    requires cats != [] && SpendDescending(spend, cats)
    ensures SpendDescending(spend, cats[1..])
    ensures forall c | c in cats[1..] :: Get(spend, c) <= Get(spend, cats[0])
  {
    forall i, j | 0 <= i < j < |cats[1..]| ensures Get(spend, cats[1..][i]) >= Get(spend, cats[1..][j]) {
      assert cats[1..][i] == cats[i + 1] && cats[1..][j] == cats[j + 1];
    }
    forall c | c in cats[1..] ensures Get(spend, c) <= Get(spend, cats[0]) {
      var k :| 0 <= k < |cats[1..]| && cats[1..][k] == c;
      assert cats[k + 1] == c;
    }
  }

  /** Putting a row with the largest spend in front of a descending table keeps it descending. */
  lemma ConsDescending(row: Row, rest: seq<Row>)
    requires RowsDescending(rest)
    requires forall r | r in rest :: row.spent >= r.spent
    ensures RowsDescending([row] + rest)
  {
    var rows := [row] + rest;
    forall i, j | 0 <= i < j < |rows| ensures rows[i].spent >= rows[j].spent {
      assert rows[j] == rest[j - 1];
      assert rest[j - 1] in rest;
      if i > 0 {
        assert rows[i] == rest[i - 1];
      }
    }
  }

  /** Drawn from categories in non-increasing spend order, the table is in non-increasing order. */
  lemma {:induction false} TableKeepsDescent(spend: SpendMap, totalSpent: real, cats: seq<Category>)
    requires SpendDescending(spend, cats)
    ensures RowsDescending(TableRows(spend, totalSpent, cats))
  {
    if cats != [] {
      var rest := TableRows(spend, totalSpent, cats[1..]);
      DescendingTail(spend, cats);
      TableKeepsDescent(spend, totalSpent, cats[1..]);
      if Get(spend, cats[0]) > 0.01 {
        var row := Row(cats[0], Get(spend, cats[0]), Percent(Get(spend, cats[0]), totalSpent));
        assert TableRows(spend, totalSpent, cats) == [row] + rest;
        ConsDescending(row, rest);
      }
    }
  }

  /** The table runs from largest to smallest spend. */
  lemma TableDescending(spend: SpendMap, totalSpent: real)
    ensures RowsDescending(TableRows(spend, totalSpent, SortedCategories(spend)))
  {
    SortedCategoriesShape(spend);
    TableKeepsDescent(spend, totalSpent, SortedCategories(spend));
  }

  /**
   * The panel. Without a budget only the reminder is shown. With one, the
   * remaining amount (`budget - totalSpent`), the over-budget alert when it
   * is below 0, with no tolerance, and, when more than 0.01 was spent, the
   * table over `sortedCategories`.
   */
  function Summarize(budget: Option<real>, spend: SpendMap, totalSpent: real): (v: View)
    ensures v.Reminder? <==> !HasBudget(budget)
    ensures v.Report? ==>
              && v.totalSpent == totalSpent
              && v.remaining == budget.value - totalSpent
              && (v.overBudget <==> totalSpent > budget.value)
              && (v.hasSpending <==> totalSpent > 0.01)
              && (!v.hasSpending ==> v.rows == [])
              && (v.hasSpending ==> v.rows == TableRows(spend, totalSpent, SortedCategories(spend)))
  {
    if !HasBudget(budget) then Reminder
    else
      var hasSpending := totalSpent > 0.01;
      var remaining := budget.value - totalSpent;
      var rows := if hasSpending then TableRows(spend, totalSpent, SortedCategories(spend)) else [];
      Report(totalSpent, remaining, remaining < 0.0, hasSpending, rows)
  }

  /**
   * Fed by the panel's own `forEach` over the month's transactions, the
   * spent figure is the sum of the category spends, and the remaining
   * amount is the budget less that sum.
   */
  lemma {:induction false} SpentIsCategorySum(budget: Option<real>, txns: seq<Transaction>)
    requires HasBudget(budget)
    ensures var v := Summarize(budget, SpendOf(txns), TotalOutflow(txns));
            && v.totalSpent == SumOver(SpendOf(txns), Categories)
            && v.remaining == budget.value - SumOver(SpendOf(txns), Categories)
  {
    CategoriesPartitionSpend(txns);
  }

  /** Spending exactly the budget is not over budget. */
  lemma ExactlyOnBudgetIsNotOver(budget: real, spend: SpendMap)
    requires budget > 0.0
    ensures !Summarize(Some(budget), spend, budget).overBudget
  {
  }
}
