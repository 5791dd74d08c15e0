/**
 * What the trend-analytics panel shows from the aggregated accumulators:
 * the month-over-month table, the categories that spent more than 0.01
 * with their share of the period's total, and the points of the trend
 * chart for the selected category or for all of them.
 */
module AnalyticsTrend {
  import opened Wrappers
  import opened JsValues
  import opened JsObjects
  import opened Strings
  import opened Transactions
  import opened Categorizer
  import opened Spending
  import opened StableSort
  import opened AnalyticsAggregate

  /** One row of the month-over-month table: `{ key, total, delta }` (`delta` is `null` on the first row). */
  datatype MonthlyRow = MonthlyRow(key: string, total: real, delta: Option<real>)

  /** `Object.keys(monthMap).sort()`: the month keys, each once, in ascending string order. */
  function SortedKeys(monthMap: Entries<real>): (keys: seq<string>)
    requires DistinctKeys(monthMap)
    ensures StrictlyAscending(keys)
    ensures multiset(keys) == multiset(KeySeq(monthMap))
    ensures forall k :: k in keys <==> Lookup(monthMap, k).Some?
  {
    DistinctKeysAt(monthMap);
    KeySeqAt(monthMap);
    var keys := SortAscending(KeySeq(monthMap));
    forall k ensures k in keys <==> Lookup(monthMap, k).Some? {
      assert k in keys <==> k in multiset(keys);
      assert k in KeySeq(monthMap) <==> k in multiset(KeySeq(monthMap));
    }
    keys
  }

  /** Each row's `delta` is its total less the previous row's, and the first row has none. */
  predicate Chained(rows: seq<MonthlyRow>) {
    && (rows != [] ==> rows[0].delta.None?)
    && forall i | 0 < i < |rows| :: rows[i].delta == Some(rows[i].total - rows[i - 1].total)
  }

  /** `monthMap[k]` of a month key. */
  function TotalAt(monthMap: Entries<real>, k: string): real {
    Lookup(monthMap, k).GetOr(0.0)
  }

  /** `keys.map((k, idx) => ...)`: each key with `monthMap[k]`, and its change from the key before it. */
  function MonthlyRows(keys: seq<string>, monthMap: Entries<real>): (rows: seq<MonthlyRow>)
    ensures |rows| == |keys|
    ensures forall i | 0 <= i < |keys| :: rows[i].key == keys[i] && rows[i].total == TotalAt(monthMap, keys[i])
    ensures Chained(rows)
  {
    var rows := RowsUpTo(keys, monthMap, |keys|);
    RowsChained(keys, monthMap, rows);
    rows
  }

  /** The rows of the first `n` keys. */
  function RowsUpTo(keys: seq<string>, monthMap: Entries<real>, n: nat): (rows: seq<MonthlyRow>)
    requires n <= |keys|
    ensures |rows| == n && forall i | 0 <= i < n :: rows[i] == RowAt(keys, monthMap, i)
  {
    if n == 0 then [] else RowsUpTo(keys, monthMap, n - 1) + [RowAt(keys, monthMap, n - 1)]
  }

  /** Rows made key by key carry their keys' totals and are chained. */
  lemma RowsChained(keys: seq<string>, monthMap: Entries<real>, rows: seq<MonthlyRow>)
    requires |rows| == |keys| && forall i | 0 <= i < |keys| :: rows[i] == RowAt(keys, monthMap, i)
    ensures forall i | 0 <= i < |keys| :: rows[i].key == keys[i] && rows[i].total == TotalAt(monthMap, keys[i])
    ensures Chained(rows)
  {
    forall i | 0 < i < |rows| ensures rows[i].delta == Some(rows[i].total - rows[i - 1].total) {
      assert rows[i] == RowAt(keys, monthMap, i) && rows[i - 1] == RowAt(keys, monthMap, i - 1);
    }
  }

  /** The row of the `idx`-th key. */
  function RowAt(keys: seq<string>, monthMap: Entries<real>, idx: nat): MonthlyRow
    requires idx < |keys|
  {
    var total := TotalAt(monthMap, keys[idx]);
    MonthlyRow(keys[idx], total, if idx == 0 then None else Some(total - TotalAt(monthMap, keys[idx - 1])))
  }

  /**
   * The table `monthlyTotals`: one row per month of `monthMap`, in
   * chronological (ascending key) order, with that month's total.
   */
  function Monthly(monthMap: Entries<real>): (rows: seq<MonthlyRow>)
    requires DistinctKeys(monthMap)
    ensures |rows| == |monthMap|
    ensures forall i, j | 0 <= i < j < |rows| :: Less(rows[i].key, rows[j].key)
    ensures forall k :: Lookup(monthMap, k).Some? <==> exists i | 0 <= i < |rows| :: rows[i].key == k
    ensures forall i | 0 <= i < |rows| :: Lookup(monthMap, rows[i].key) == Some(rows[i].total)
    ensures Chained(rows)
  {
    var keys := SortedKeys(monthMap);
    assert |keys| == |monthMap| by {
      assert |multiset(keys)| == |multiset(KeySeq(monthMap))|;
    }
    var rows := MonthlyRows(keys, monthMap);
    RowsOfSortedKeys(monthMap, keys, rows);
    rows
  }

  /** Rows made from the sorted keys list every month once, in order, with its total. */
  lemma RowsOfSortedKeys(monthMap: Entries<real>, keys: seq<string>, rows: seq<MonthlyRow>)
    requires StrictlyAscending(keys) && forall k :: k in keys <==> Lookup(monthMap, k).Some?
    requires |rows| == |keys|
    requires forall i | 0 <= i < |keys| :: rows[i].key == keys[i] && rows[i].total == TotalAt(monthMap, keys[i])
    ensures forall i, j | 0 <= i < j < |rows| :: Less(rows[i].key, rows[j].key)
    ensures forall k :: Lookup(monthMap, k).Some? <==> exists i | 0 <= i < |rows| :: rows[i].key == k
    ensures forall i | 0 <= i < |rows| :: Lookup(monthMap, rows[i].key) == Some(rows[i].total)
  {
    forall k | Lookup(monthMap, k).Some? ensures exists i | 0 <= i < |rows| :: rows[i].key == k {
      var i :| 0 <= i < |keys| && keys[i] == k;
      assert rows[i].key == k;
    }
    forall i | 0 <= i < |rows| ensures Lookup(monthMap, rows[i].key) == Some(rows[i].total) {
      assert keys[i] in keys;
    }
  }

  /** The deltas shown, added up (a missing delta counts as 0). */
  function SumDeltas(rows: seq<MonthlyRow>): real {
    if rows == [] then 0.0 else SumDeltas(rows[..|rows| - 1]) + rows[|rows| - 1].delta.GetOr(0.0)
  }

  /** The month totals, added up. */
  function SumTotals(rows: seq<MonthlyRow>): real {
    if rows == [] then 0.0 else rows[0].total + SumTotals(rows[1..])
  }

  /** The deltas of a chained table add up to the change from its first month to its last. */
  lemma {:induction false} DeltasTelescope(rows: seq<MonthlyRow>)
    requires rows != [] && Chained(rows)
    ensures SumDeltas(rows) == rows[|rows| - 1].total - rows[0].total
  {
    var prefix := rows[..|rows| - 1];
    if prefix != [] {
      assert Chained(prefix);
      DeltasTelescope(prefix);
    }
  }

  /** Totals read key by key add up like the values at those keys. */
  lemma {:induction false} SumTotalsAtKeys(rows: seq<MonthlyRow>, keys: seq<string>, monthMap: Entries<real>)
    requires |rows| == |keys|
    requires forall i | 0 <= i < |rows| :: rows[i].total == TotalAt(monthMap, keys[i])
    ensures SumTotals(rows) == SumAtKeys(monthMap, keys)
  {
    if rows != [] {
      SumTotalsAtKeys(rows[1..], keys[1..], monthMap);
    }
  }

  /** Sorting the months changes nothing in what they add up to. */
  lemma MonthlyAddsUp(monthMap: Entries<real>)
    requires DistinctKeys(monthMap)
    ensures SumTotals(Monthly(monthMap)) == SumValues(monthMap)
  {
    var keys := SortedKeys(monthMap);
    SumTotalsAtKeys(Monthly(monthMap), keys, monthMap);
    SumInAnyKeyOrder(monthMap, keys);
  }

  /**
   * Read from the transactions: a row for exactly the months with a dated
   * outflow, each with that month's outflow (above 0), and the rows add up
   * to the dated outflow.
   */
  lemma MonthlyOfTransactions(total: real, monthMap: Entries<real>, perMonthCat: Entries<MonthCats>,
                              catTotals: SpendMap, txns: seq<Transaction>)
    requires Summarises(total, monthMap, perMonthCat, catTotals, txns)
    ensures forall k :: MonthTxns(txns, k) != [] <==>
                          exists i | 0 <= i < |Monthly(monthMap)| :: Monthly(monthMap)[i].key == k
    ensures forall i | 0 <= i < |Monthly(monthMap)| ::
              && Monthly(monthMap)[i].total == TotalOutflow(MonthTxns(txns, Monthly(monthMap)[i].key))
              && Monthly(monthMap)[i].total > 0.0
    ensures SumTotals(Monthly(monthMap)) == TotalOutflow(DatedOutflows(txns))
  {
    var rows := Monthly(monthMap);
    forall k ensures MonthTxns(txns, k) != [] <==> Lookup(monthMap, k).Some? {
      assert Lookup(monthMap, k) == MonthTotalOf(txns, k);
    }
    forall i | 0 <= i < |rows| ensures rows[i].total > 0.0 {
      assert Lookup(monthMap, rows[i].key) == MonthTotalOf(txns, rows[i].key);
      MonthTotalPositive(txns, rows[i].key);
    }
    MonthlyAddsUp(monthMap);
  }

  /** One row of the category table: `{ name, amount }`. */
  datatype CategoryEntry = CategoryEntry(name: Category, amount: real)

  /** `cats.map((c) => ({ name: c, amount: Number(categoryTotals[c]) || 0 }))`. */
  function EntriesOf(catTotals: SpendMap, cats: seq<Category>): (es: seq<CategoryEntry>)
    ensures |es| == |cats|
    ensures forall i | 0 <= i < |cats| :: es[i] == CategoryEntry(cats[i], Get(catTotals, cats[i]))
  {
    if cats == [] then [] else [CategoryEntry(cats[0], Get(catTotals, cats[0]))] + EntriesOf(catTotals, cats[1..])
  }

  /** `c.amount > 0.01`. */
  function IsShown(e: CategoryEntry): bool {
    e.amount > 0.01
  }

  /**
   * `categoryEntries`: the categories that spent more than 0.01, each with
   * its total, and no other.
   */
  function CategoryEntries(catTotals: SpendMap): (es: seq<CategoryEntry>)
    ensures forall e | e in es :: e.amount > 0.01 && e.amount == Get(catTotals, e.name)
    ensures forall c :: CategoryEntry(c, Get(catTotals, c)) in es <==> Get(catTotals, c) > 0.01
  {
    var all := EntriesOf(catTotals, Categories);
    forall e | e in all ensures e.amount == Get(catTotals, e.name) {
      var i :| 0 <= i < |all| && all[i] == e;
    }
    forall c ensures CategoryEntry(c, Get(catTotals, c)) in all {
      EveryCategoryListed(c);
      var i :| 0 <= i < |Categories| && Categories[i] == c;
      assert all[i] == CategoryEntry(c, Get(catTotals, c));
    }
    Filter(all, IsShown)
  }

  /** The category table keeps the order of `CATEGORIES`. */
  lemma CategoryEntriesInOrder(catTotals: SpendMap, a: CategoryEntry, b: CategoryEntry)
    requires Before(CategoryEntries(catTotals), a, b)
    ensures Before(Categories, a.name, b.name)
  {
    var all := EntriesOf(catTotals, Categories);
    FilterKeepsOrder(all, IsShown, a, b);
    var p, q :| 0 <= p < q < |all| && all[p] == a && all[q] == b;
    assert Categories[p] == a.name && Categories[q] == b.name;
  }

  /** The "% of Total" cell: `totalSpent > 0 ? (c.amount / totalSpent) * 100 : 0`. */
  function Share(e: CategoryEntry, totalSpent: real): real {
    Percent(e.amount, totalSpent)
  }

  /** Read from the transactions, every category's share of the period's total lies in 0..100 and is above 0. */
  lemma SharesWithinRange(total: real, monthMap: Entries<real>, perMonthCat: Entries<MonthCats>,
                          catTotals: SpendMap, txns: seq<Transaction>)
    requires Summarises(total, monthMap, perMonthCat, catTotals, txns)
    ensures forall e | e in CategoryEntries(catTotals) :: 0.0 < Share(e, total) <= 100.0
  {
    var es := CategoryEntries(catTotals);
    forall e | e in es ensures 0.0 < Share(e, total) <= 100.0 {
      CategoryWithinTotal(total, monthMap, perMonthCat, catTotals, txns, e.name);
      assert 0.01 < e.amount <= total;
      PercentOfWhole(e.amount, total);
    }
  }

  /** No category's total exceeds the period's total. */
  lemma CategoryWithinTotal(total: real, monthMap: Entries<real>, perMonthCat: Entries<MonthCats>,
                            catTotals: SpendMap, txns: seq<Transaction>, c: Category)
    requires Summarises(total, monthMap, perMonthCat, catTotals, txns)
    ensures 0.0 <= Get(catTotals, c) <= total
  {
    var dated := DatedOutflows(txns);
    assert Tallied(catTotals, dated);
    assert Get(catTotals, c) == CategorySpend(dated, c);
    SpendBounds(dated, c);
    DatedUndatedSplit(txns);
    SpendBounds(UndatedOutflows(txns), c);
  }

  /** The chart's category selector: `"All"` or one of the categories. */
  datatype Selection = AllCategories | Only(category: Category)

  /** One chart point: the month and what the selection spent in it. */
  datatype TrendPoint = TrendPoint(month: string, spent: real)

  /** `(monthCategoryMap[key] || {})[selected] || 0`. */
  function MonthSpent(perMonthCat: Entries<MonthCats>, key: string, sel: Selection): real {
    match Lookup(perMonthCat, key)
    case None => 0.0
    case Some(row) => if sel.AllCategories? then row.all else Get(row.spend, sel.category)
  }

  /** `trendChartData`: one point per row of the table, in the table's order. */
  function TrendChartData(monthly: seq<MonthlyRow>, perMonthCat: Entries<MonthCats>, sel: Selection): (points: seq<TrendPoint>)
    ensures |points| == |monthly|
    ensures forall i | 0 <= i < |monthly| ::
              points[i].month == monthly[i].key && points[i].spent == MonthSpent(perMonthCat, monthly[i].key, sel)
  {
    if monthly == [] then []
    else [TrendPoint(monthly[0].key, MonthSpent(perMonthCat, monthly[0].key, sel))]
         + TrendChartData(monthly[1..], perMonthCat, sel)
  }

  /** What the selections `Only(c)` of the categories `cats` spent in one month, added up. */
  function SumSelections(perMonthCat: Entries<MonthCats>, key: string, cats: seq<Category>): real {
    if cats == [] then 0.0 else MonthSpent(perMonthCat, key, Only(cats[0])) + SumSelections(perMonthCat, key, cats[1..])
  }

  /** With the month present, the category selections add up like its spend map. */
  lemma {:induction false} SumSelectionsIsSumOver(perMonthCat: Entries<MonthCats>, key: string, cats: seq<Category>)
    requires Lookup(perMonthCat, key).Some?
    ensures SumSelections(perMonthCat, key, cats) == SumOver(Lookup(perMonthCat, key).value.spend, cats)
  {
    if cats != [] {
      SumSelectionsIsSumOver(perMonthCat, key, cats[1..]);
    }
  }

  /** Read from the transactions, "All" charts the table's month totals. */
  lemma TrendOfAll(total: real, monthMap: Entries<real>, perMonthCat: Entries<MonthCats>,
                   catTotals: SpendMap, txns: seq<Transaction>)
    requires Summarises(total, monthMap, perMonthCat, catTotals, txns)
    ensures var rows := Monthly(monthMap);
            forall i | 0 <= i < |rows| :: TrendChartData(rows, perMonthCat, AllCategories)[i].spent == rows[i].total
  {
    var rows := Monthly(monthMap);
    var points := TrendChartData(rows, perMonthCat, AllCategories);
    forall i | 0 <= i < |rows| ensures points[i].spent == rows[i].total {
      MonthPoint(total, monthMap, perMonthCat, catTotals, txns, rows[i].key);
    }
  }

  /** Read from the transactions, a single category charts that category's outflow in each month. */
  lemma TrendOfCategory(total: real, monthMap: Entries<real>, perMonthCat: Entries<MonthCats>,
                        catTotals: SpendMap, txns: seq<Transaction>, c: Category)
    requires Summarises(total, monthMap, perMonthCat, catTotals, txns)
    ensures var rows := Monthly(monthMap);
            forall i | 0 <= i < |rows| ::
              TrendChartData(rows, perMonthCat, Only(c))[i].spent == CategorySpend(MonthTxns(txns, rows[i].key), c)
  {
    var rows := Monthly(monthMap);
    var points := TrendChartData(rows, perMonthCat, Only(c));
    forall i | 0 <= i < |rows| ensures points[i].spent == CategorySpend(MonthTxns(txns, rows[i].key), c) {
      MonthPoint(total, monthMap, perMonthCat, catTotals, txns, rows[i].key);
    }
  }

  /** Read from the transactions, at every month of the chart the five categories add up to "All". */
  lemma TrendCategoriesAddUp(total: real, monthMap: Entries<real>, perMonthCat: Entries<MonthCats>,
                             catTotals: SpendMap, txns: seq<Transaction>)
    requires Summarises(total, monthMap, perMonthCat, catTotals, txns)
    ensures var rows := Monthly(monthMap);
            forall i | 0 <= i < |rows| ::
              SumSelections(perMonthCat, rows[i].key, Categories) == TrendChartData(rows, perMonthCat, AllCategories)[i].spent
  {
    var rows := Monthly(monthMap);
    var points := TrendChartData(rows, perMonthCat, AllCategories);
    forall i | 0 <= i < |rows| ensures SumSelections(perMonthCat, rows[i].key, Categories) == points[i].spent {
      MonthPoint(total, monthMap, perMonthCat, catTotals, txns, rows[i].key);
    }
  }

  /** At a month of the table, the chart reads that month's total, its categories' outflows, and their sum. */
  lemma MonthPoint(total: real, monthMap: Entries<real>, perMonthCat: Entries<MonthCats>,
                   catTotals: SpendMap, txns: seq<Transaction>, k: string)
    requires Summarises(total, monthMap, perMonthCat, catTotals, txns)
    requires Lookup(monthMap, k).Some?
    ensures MonthSpent(perMonthCat, k, AllCategories) == Lookup(monthMap, k).value
    ensures forall c :: MonthSpent(perMonthCat, k, Only(c)) == CategorySpend(MonthTxns(txns, k), c)
    ensures SumSelections(perMonthCat, k, Categories) == MonthSpent(perMonthCat, k, AllCategories)
  {
    assert Lookup(monthMap, k) == MonthTotalOf(txns, k);
    assert Lookup(perMonthCat, k) == MonthCatsOf(txns, k);
    SumSelectionsIsSumOver(perMonthCat, k, Categories);
    MonthAllIsCategorySum(txns, k);
  }
}
