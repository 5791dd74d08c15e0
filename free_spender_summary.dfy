/**
 * The free-spender "Budget vs Actual" panel: one flat monthly budget set
 * against the month's spend, with a table of the categories that were
 * actually used, largest first.
 */
module FreeSpenderSummary {
  import opened Wrappers
  import opened JsValues
  import opened Categorizer
  import opened Spending
  import opened StableSort
  import opened Gates

  /** One table row: `{ category, spent, pct }`. */
  datatype Row = Row(category: Category, spent: real, pct: real)

  /** What the panel shows once loading is over and no error occurred. */
  datatype View =
    | Reminder
    | Breakdown(totalSpent: real, remaining: real, overspent: bool, rows: seq<Row>)

  /** `CATEGORIES.map(c => ({ category: c, spent: spend[c] || 0, pct }))`. */
  function AllRows(spend: SpendMap, totalSpent: real, cats: seq<Category>): (rows: seq<Row>)
    ensures |rows| == |cats|
    ensures forall i | 0 <= i < |cats| ::
              rows[i] == Row(cats[i], Get(spend, cats[i]), Percent(Get(spend, cats[i]), totalSpent))
  {
    if cats == [] then []
    else
      var s := Get(spend, cats[0]);
      [Row(cats[0], s, Percent(s, totalSpent))] + AllRows(spend, totalSpent, cats[1..])
  }

  predicate Significant(r: Row) {
    r.spent > 0.01
  }

  function Spent(r: Row): real {
    r.spent
  }

  /** The mapped categories that pass `.filter((r) => r.spent > 0.01)`. */
  function Kept(spend: SpendMap): seq<Row> {
    Filter(AllRows(spend, SumOver(spend, RentFirst), RentFirst), Significant)
  }

  /** `rows`: the kept rows sorted by `b.spent - a.spent`. */
  function Rows(spend: SpendMap): seq<Row> {
    SortDesc(Kept(spend), Spent)
  }

  /** Rows of `AllRows` in the same order name their categories in that order. */
  lemma AllRowsOrder(spend: SpendMap, totalSpent: real, cats: seq<Category>, a: Row, b: Row)
    requires Before(AllRows(spend, totalSpent, cats), a, b)
    ensures Before(cats, a.category, b.category)
  {
    var rows := AllRows(spend, totalSpent, cats);
    var p, q :| 0 <= p < q < |rows| && rows[p] == a && rows[q] == b;
    assert cats[p] == a.category && cats[q] == b.category;
  }

  /** Every row spent more than 0.01 and carries its category's spend and share of the total. */
  lemma RowsAreSignificant(spend: SpendMap)
    ensures forall r | r in Rows(spend) ::
              r.spent > 0.01 && r.spent == Get(spend, r.category)
              && r.pct == Percent(r.spent, SumOver(spend, Categories))
  {
    SumOverCategories(spend);
    forall r | r in Rows(spend)
      ensures r.spent > 0.01 && r.spent == Get(spend, r.category)
              && r.pct == Percent(r.spent, SumOver(spend, RentFirst))
    {
      assert r in multiset(Kept(spend));
      var all := AllRows(spend, SumOver(spend, RentFirst), RentFirst);
      assert r in all && Significant(r);
      var i :| 0 <= i < |all| && all[i] == r;
    }
  }

  /** A category has a row exactly when it spent more than 0.01. */
  lemma RowsCoverSignificant(spend: SpendMap, c: Category)
    ensures (exists r | r in Rows(spend) :: r.category == c) <==> Get(spend, c) > 0.01
  {
    RowsAreSignificant(spend);
    var all := AllRows(spend, SumOver(spend, RentFirst), RentFirst);
    EveryCategoryListed(c);
    var i :| 0 <= i < |RentFirst| && RentFirst[i] == c;
    if Get(spend, c) > 0.01 {
      assert all[i] in Kept(spend);
      assert all[i] in multiset(Rows(spend));
    }
  }

  /** Rows run from largest to smallest spend. */
  lemma RowsDescending(spend: SpendMap)
    ensures forall i, j | 0 <= i < j < |Rows(spend)| :: Rows(spend)[i].spent >= Rows(spend)[j].spent
  {
  }

  /** Equal spends keep the panel's category order, which starts with Rent. */
  lemma RowsTiesKeepCategoryOrder(spend: SpendMap)
    ensures forall i, j | 0 <= i < j < |Rows(spend)| && Rows(spend)[i].spent == Rows(spend)[j].spent ::
              Before(RentFirst, Rows(spend)[i].category, Rows(spend)[j].category)
  {
    var all := AllRows(spend, SumOver(spend, RentFirst), RentFirst);
    var rows := Rows(spend);
    forall i, j | 0 <= i < j < |rows| && rows[i].spent == rows[j].spent
      ensures Before(RentFirst, rows[i].category, rows[j].category)
    {
      assert Before(Kept(spend), rows[i], rows[j]);
      FilterKeepsOrder(all, Significant, rows[i], rows[j]);
      AllRowsOrder(spend, SumOver(spend, RentFirst), RentFirst, rows[i], rows[j]);
    }
  }

  /**
   * The panel's verdict. Without a numeric budget above 0 only the reminder
   * is shown; otherwise the total spent, what remains of the budget, the
   * alert when more than 0.01 has been overspent, and the table.
   */
  function Summarize(budget: Option<real>, spend: SpendMap): (v: View)
    ensures v.Reminder? <==> !HasBudget(budget)
    ensures v.Breakdown? ==>
              && v.totalSpent == SumOver(spend, Categories)
              && v.remaining == budget.value - v.totalSpent
              && (v.overspent <==> v.totalSpent > budget.value + 0.01)
              && v.rows == Rows(spend)
  {
    var totalSpent := SumOver(spend, RentFirst);
    var remaining := budget.GetOr(0.0) - totalSpent;
    var overspent := HasBudget(budget) && remaining < -0.01;
    SumOverCategories(spend);
    if !HasBudget(budget) then Reminder
    else Breakdown(totalSpent, remaining, overspent, Rows(spend))
  }
}
