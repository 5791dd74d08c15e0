/**
 * The trend-analytics aggregation over the transactions of the chosen date
 * range: the total outflow, the outflow of each `YYYY-MM` month, each
 * month's outflow per category, and each category's outflow. An outflow
 * without a date counts towards the total only.
 */
module AnalyticsAggregate {
  import opened Wrappers
  import opened JsObjects
  import opened Transactions
  import opened Categorizer
  import opened Spending

  /** `perMonthCat[monthKey]`: `{ All, Food, Rent, Entertainment, Transport, Other }`. */
  datatype MonthCats = MonthCats(all: real, spend: SpendMap)

  /** A dated outflow whose month key is `k`. */
  predicate InMonth(t: Transaction, k: string) {
    IsOutflow(t) && DateStr(t) != "" && MonthKey(DateStr(t)) == k
  }

  /** The outflows of month `k`, in order. */
  function MonthTxns(txns: seq<Transaction>, k: string): seq<Transaction> {
    if txns == [] then []
    else
      var t := txns[|txns| - 1];
      MonthTxns(txns[..|txns| - 1], k) + (if InMonth(t, k) then [t] else [])
  }

  /** The outflows that carry a date, in order. */
  function DatedOutflows(txns: seq<Transaction>): seq<Transaction> {
    if txns == [] then []
    else
      var t := txns[|txns| - 1];
      DatedOutflows(txns[..|txns| - 1]) + (if IsOutflow(t) && DateStr(t) != "" then [t] else [])
  }

  /** The outflows without a date, in order. */
  function UndatedOutflows(txns: seq<Transaction>): seq<Transaction> {
    if txns == [] then []
    else
      var t := txns[|txns| - 1];
      UndatedOutflows(txns[..|txns| - 1]) + (if IsOutflow(t) && DateStr(t) == "" then [t] else [])
  }

  /** What `monthMap[k]` holds: nothing for a month without outflows, else their total. */
  function MonthTotalOf(txns: seq<Transaction>, k: string): Option<real> {
    if MonthTxns(txns, k) == [] then None else Some(TotalOutflow(MonthTxns(txns, k)))
  }

  /** What `perMonthCat[k]` holds: nothing for a month without outflows, else their total and per-category spend. */
  function MonthCatsOf(txns: seq<Transaction>, k: string): Option<MonthCats> {
    if MonthTxns(txns, k) == [] then None else Some(RowOf(MonthTxns(txns, k)))
  }

  /** The `All` total and the per-category spend of one month's outflows. */
  function RowOf(month: seq<Transaction>): MonthCats {
    MonthCats(TotalOutflow(month), SpendOf(month))
  }

  /** One more outflow adds its amount `spent` to its own category `cat` of the spend map `spend`. */
  lemma SpendOfSnoc(txns: seq<Transaction>, t: Transaction, spend: SpendMap, cat: Category, spent: real)
    requires IsOutflow(t) && cat == Categorize(t) && spent == Outflow(t) && spend == SpendOf(txns)
    ensures SpendOf(txns + [t]) == spend[cat := Get(spend, cat) + spent]
  {
    TalliedSnoc(spend, txns, t, cat, spent);
    TalliedIsSpendOf(spend[cat := Get(spend, cat) + spent], txns + [t]);
  }

  /** One more transaction extends the month and dated lists it belongs to, and only those. */
  lemma ListsSnoc(txns: seq<Transaction>, t: Transaction)
    ensures forall k :: MonthTxns(txns + [t], k) == MonthTxns(txns, k) + (if InMonth(t, k) then [t] else [])
    ensures DatedOutflows(txns + [t]) == DatedOutflows(txns) + (if IsOutflow(t) && DateStr(t) != "" then [t] else [])
    ensures UndatedOutflows(txns + [t]) == UndatedOutflows(txns) + (if IsOutflow(t) && DateStr(t) == "" then [t] else [])
  {
    assert (txns + [t])[..|txns|] == txns;
  }

  /** Adding a transaction to the end of a list adds its outflow to the list's total. */
  lemma TotalOutflowSnoc(txns: seq<Transaction>, t: Transaction)
    ensures TotalOutflow(txns + [t]) == TotalOutflow(txns) + Outflow(t)
  {
    assert (txns + [t])[..|txns|] == txns;
  }

  /** The spend map before any transaction: every category at 0. */
  function ZeroSpend(): (m: SpendMap)
    ensures m == SpendOf([])
  {
    map c | c in Categories :: 0.0
  }

  /**
   * The four accumulators after the transactions `txns`: `total` is their
   * whole outflow; `catTotals` the per-category spend of the dated ones;
   * `monthMap` and `perMonthCat` have the same keys in the same order, a
   * key for each month with a dated outflow, holding that month's total and
   * its total with the per-category spend; and the months add up to the
   * dated outflow.
   */
  ghost predicate Summarises(total: real, monthMap: Entries<real>, perMonthCat: Entries<MonthCats>, catTotals: SpendMap,
                       txns: seq<Transaction>) {
    && total == TotalOutflow(txns)
    && Tallied(catTotals, DatedOutflows(txns))
    && DistinctKeys(monthMap) && KeySeq(perMonthCat) == KeySeq(monthMap)
    && (forall k :: Lookup(monthMap, k) == MonthTotalOf(txns, k))
    && (forall k :: Lookup(perMonthCat, k) == MonthCatsOf(txns, k))
    && SumValues(monthMap) == TotalOutflow(DatedOutflows(txns))
  }

  /** A transaction that is not a dated outflow changes no month and no dated list. */
  lemma NoMonthStep(txns: seq<Transaction>, t: Transaction)
    requires !(IsOutflow(t) && DateStr(t) != "")
    ensures forall k :: MonthTotalOf(txns + [t], k) == MonthTotalOf(txns, k)
    ensures forall k :: MonthCatsOf(txns + [t], k) == MonthCatsOf(txns, k)
    ensures DatedOutflows(txns + [t]) == DatedOutflows(txns)
  {
    ListsSnoc(txns, t);
    forall k ensures MonthTxns(txns + [t], k) == MonthTxns(txns, k) {
      assert MonthTxns(txns + [t], k) == MonthTxns(txns, k) + [];
    }
    assert DatedOutflows(txns + [t]) == DatedOutflows(txns) + [];
  }

  /** One more transaction extends month `k`'s list exactly when it is an outflow of that month. */
  lemma MonthTxnsSnoc(txns: seq<Transaction>, t: Transaction, k: string)
    ensures MonthTxns(txns + [t], k) == if InMonth(t, k) then MonthTxns(txns, k) + [t] else MonthTxns(txns, k)
  {
    assert (txns + [t])[..|txns|] == txns;
    assert MonthTxns(txns, k) + [] == MonthTxns(txns, k);
  }

  /** A dated outflow leaves every other month as it was. */
  lemma OtherMonthStep(txns: seq<Transaction>, t: Transaction, k: string)
    requires !InMonth(t, k)
    ensures MonthTotalOf(txns + [t], k) == MonthTotalOf(txns, k)
    ensures MonthCatsOf(txns + [t], k) == MonthCatsOf(txns, k)
  {
    MonthTxnsSnoc(txns, t, k);
  }

  /** A dated outflow adds its amount to its own month's total. */
  lemma OwnMonthTotalStep(txns: seq<Transaction>, t: Transaction, k: string, spent: real)
    requires InMonth(t, k) && spent == Outflow(t)
    ensures MonthTotalOf(txns + [t], k) == Some(MonthTotalOf(txns, k).GetOr(0.0) + spent)
  {
    MonthTxnsSnoc(txns, t, k);
    TotalOutflowSnoc(MonthTxns(txns, k), t);
  }

  /**
   * A dated outflow adds its amount `spent` to its own month's `All` and to
   * its category `cat` there.
   */
  lemma OwnMonthCatsStep(txns: seq<Transaction>, t: Transaction, k: string, row: MonthCats, spent: real, cat: Category)
    requires InMonth(t, k) && spent == Outflow(t) && cat == Categorize(t)
    requires row == MonthCatsOf(txns, k).GetOr(MonthCats(0.0, ZeroSpend()))
    ensures MonthCatsOf(txns + [t], k) == Some(MonthCats(row.all + spent, row.spend[cat := Get(row.spend, cat) + spent]))
  {
    MonthRow(txns, k, row);
    MonthCatsSnoc(txns, t, k);
    RowSnoc(MonthTxns(txns, k), t, row, cat, spent);
  }

  /** The row read for month `k`, or the fresh one when it is missing, holds that month's total and spend map. */
  lemma MonthRow(txns: seq<Transaction>, k: string, row: MonthCats)
    requires row == MonthCatsOf(txns, k).GetOr(MonthCats(0.0, ZeroSpend()))
    ensures row == RowOf(MonthTxns(txns, k))
  {
  }

  /** Once a dated outflow of month `k` is appended, that month's row is read from its list with the outflow last. */
  lemma MonthCatsSnoc(txns: seq<Transaction>, t: Transaction, k: string)
    requires InMonth(t, k)
    ensures MonthCatsOf(txns + [t], k) == Some(RowOf(MonthTxns(txns, k) + [t]))
  {
    MonthTxnsSnoc(txns, t, k);
  }

  /** Appending an outflow to a month's list adds it to the row's `All` and to its category. */
  lemma RowSnoc(month: seq<Transaction>, t: Transaction, row: MonthCats, cat: Category, spent: real)
    requires IsOutflow(t) && spent == Outflow(t) && cat == Categorize(t) && row == RowOf(month)
    ensures RowOf(month + [t]) == MonthCats(row.all + spent, row.spend[cat := Get(row.spend, cat) + spent])
  {
    TotalOutflowSnoc(month, t);
    SpendOfSnoc(month, t, row.spend, cat, spent);
  }

  /**
   * The months of `monthMap` and `perMonthCat` summarise `txns`: the same
   * keys in the same order, one per month with an outflow, holding that
   * month's total and its total with the per-category spend.
   */
  ghost predicate MonthsSummarise(monthMap: Entries<real>, perMonthCat: Entries<MonthCats>, txns: seq<Transaction>) {
    && DistinctKeys(monthMap) && KeySeq(perMonthCat) == KeySeq(monthMap)
    && (forall k :: Lookup(monthMap, k) == MonthTotalOf(txns, k))
    && (forall k :: Lookup(perMonthCat, k) == MonthCatsOf(txns, k))
  }

  /** `monthMap[monthKey] = (monthMap[monthKey] || 0) + spent` for a dated outflow of that month. */
  method AddToMonthTotals(monthMap: Entries<real>, ghost prefix: seq<Transaction>, t: Transaction, monthKey: string, spent: real)
    returns (monthMap': Entries<real>)
    requires InMonth(t, monthKey) && spent == Outflow(t)
    requires DistinctKeys(monthMap) && forall k :: Lookup(monthMap, k) == MonthTotalOf(prefix, k)
    ensures DistinctKeys(monthMap') && forall k :: Lookup(monthMap', k) == MonthTotalOf(prefix + [t], k)
    ensures KeySeq(monthMap') == if Lookup(monthMap, monthKey).Some? then KeySeq(monthMap) else KeySeq(monthMap) + [monthKey]
    ensures SumValues(monthMap') == SumValues(monthMap) + spent
  {
    var v := Lookup(monthMap, monthKey).GetOr(0.0) + spent;
    SumAfterSet(monthMap, monthKey, v);
    monthMap' := Set(monthMap, monthKey, v);
    OwnMonthTotalStep(prefix, t, monthKey, spent);
    forall k | k != monthKey ensures Lookup(monthMap', k) == MonthTotalOf(prefix + [t], k) {
      OtherMonthStep(prefix, t, k);
    }
  }

  /**
   * `perMonthCat[monthKey]` for a dated outflow of that month: created with
   * `All` and every category at 0 when missing, then the amount `spent` is
   * added under `All` and under the outflow's category `cat`.
   */
  method AddToMonthCats(perMonthCat: Entries<MonthCats>, ghost prefix: seq<Transaction>, t: Transaction, monthKey: string,
                        cat: Category, spent: real)
    returns (perMonthCat': Entries<MonthCats>)
    requires InMonth(t, monthKey) && spent == Outflow(t) && cat == Categorize(t)
    requires forall k :: Lookup(perMonthCat, k) == MonthCatsOf(prefix, k)
    ensures forall k :: Lookup(perMonthCat', k) == MonthCatsOf(prefix + [t], k)
    ensures KeySeq(perMonthCat') == if Lookup(perMonthCat, monthKey).Some? then KeySeq(perMonthCat) else KeySeq(perMonthCat) + [monthKey]
  {
    perMonthCat' := perMonthCat;
    if Lookup(perMonthCat', monthKey).None? {
      perMonthCat' := Set(perMonthCat', monthKey, MonthCats(0.0, ZeroSpend()));
    }
    var row := Lookup(perMonthCat', monthKey).value;
    perMonthCat' := Set(perMonthCat', monthKey, MonthCats(row.all + spent, row.spend[cat := Get(row.spend, cat) + spent]));
    OwnMonthCatsStep(prefix, t, monthKey, row, spent, cat);
    forall k | k != monthKey ensures Lookup(perMonthCat', k) == MonthCatsOf(prefix + [t], k) {
      OtherMonthStep(prefix, t, k);
    }
  }

  /**
   * A dated outflow's part of the `forEach` body: its amount goes to its
   * month in both month objects and to its category's total.
   */
  method AddDatedOutflow(t: Transaction, ghost prefix: seq<Transaction>,
                         monthMap: Entries<real>, perMonthCat: Entries<MonthCats>, catTotals: SpendMap)
    returns (monthMap': Entries<real>, perMonthCat': Entries<MonthCats>, catTotals': SpendMap)
    requires IsOutflow(t) && DateStr(t) != ""
    requires MonthsSummarise(monthMap, perMonthCat, prefix)
    requires Tallied(catTotals, DatedOutflows(prefix))
    ensures MonthsSummarise(monthMap', perMonthCat', prefix + [t])
    ensures Tallied(catTotals', DatedOutflows(prefix) + [t])
    ensures SumValues(monthMap') == SumValues(monthMap) + Outflow(t)
  {
    var spent := -Amount(t);
    assert spent == Outflow(t);
    var monthKey := MonthKey(DateStr(t));
    var cat := Categorize(t);
    assert Lookup(perMonthCat, monthKey).Some? <==> Lookup(monthMap, monthKey).Some? by {
      assert Lookup(perMonthCat, monthKey) == MonthCatsOf(prefix, monthKey);
      assert Lookup(monthMap, monthKey) == MonthTotalOf(prefix, monthKey);
    }
    perMonthCat' := AddToMonthCats(perMonthCat, prefix, t, monthKey, cat, spent);
    monthMap' := AddToMonthTotals(monthMap, prefix, t, monthKey, spent);
    catTotals' := catTotals[cat := Get(catTotals, cat) + spent];
    TalliedSnoc(catTotals, DatedOutflows(prefix), t, cat, spent);
  }

  /**
   * The body of the `txns.forEach` of `fetchData` for one transaction. An
   * outflow adds its absolute amount to `total`, and when it has a date it
   * is also added to its month and its category.
   */
  method AddTransaction(t: Transaction, ghost prefix: seq<Transaction>,
                        total: real, monthMap: Entries<real>, perMonthCat: Entries<MonthCats>, catTotals: SpendMap)
    returns (total': real, monthMap': Entries<real>, perMonthCat': Entries<MonthCats>, catTotals': SpendMap)
    requires Summarises(total, monthMap, perMonthCat, catTotals, prefix)
    ensures Summarises(total', monthMap', perMonthCat', catTotals', prefix + [t])
  {
    total', monthMap', perMonthCat', catTotals' := total, monthMap, perMonthCat, catTotals;
    ListsSnoc(prefix, t);
    assert MonthsSummarise(monthMap, perMonthCat, prefix);
    var amount := Amount(t);
    if amount < 0.0 {
      var spent := -amount;
      total' := total' + spent;
      var dateStr := DateStr(t);
      if dateStr == "" {
        NoMonthStep(prefix, t);
        return;
      }
      monthMap', perMonthCat', catTotals' := AddDatedOutflow(t, prefix, monthMap, perMonthCat, catTotals);
      TotalOutflowSnoc(DatedOutflows(prefix), t);
      assert DatedOutflows(prefix + [t]) == DatedOutflows(prefix) + [t];
    } else {
      NoMonthStep(prefix, t);
    }
  }

  /**
   * The `txns.forEach` of `fetchData`: the four accumulators, starting from
   * 0, two empty objects and every category at 0, summarise `txns`.
   */
  method Aggregate(txns: seq<Transaction>)
    returns (total: real, monthMap: Entries<real>, perMonthCat: Entries<MonthCats>, catTotals: SpendMap)
    ensures Summarises(total, monthMap, perMonthCat, catTotals, txns)
    ensures catTotals == SpendOf(DatedOutflows(txns))
  {
    total := 0.0;
    monthMap := [];
    perMonthCat := [];
    catTotals := ZeroSpend();
    for i := 0 to |txns|
      invariant Summarises(total, monthMap, perMonthCat, catTotals, txns[..i])
    {
      assert txns[..i + 1] == txns[..i] + [txns[i]];
      total, monthMap, perMonthCat, catTotals := AddTransaction(txns[i], txns[..i], total, monthMap, perMonthCat, catTotals);
    }
    assert txns[..|txns|] == txns;
    TalliedIsSpendOf(catTotals, DatedOutflows(txns));
  }

  /** Every outflow is either dated or undated: the total is the dated part plus the undated part. */
  lemma {:induction false} DatedUndatedSplit(txns: seq<Transaction>)
    ensures TotalOutflow(txns) == TotalOutflow(DatedOutflows(txns)) + TotalOutflow(UndatedOutflows(txns))
  {
    if txns != [] {
      var prefix, t := txns[..|txns| - 1], txns[|txns| - 1];
      DatedUndatedSplit(prefix);
      var dated, undated := DatedOutflows(prefix), UndatedOutflows(prefix);
      assert TotalOutflow(txns) == TotalOutflow(prefix) + Outflow(t);
      assert dated + [] == dated && undated + [] == undated;
      if IsOutflow(t) && DateStr(t) != "" {
        assert DatedOutflows(txns) == dated + [t] && UndatedOutflows(txns) == undated + [];
        TotalOutflowSnoc(dated, t);
      } else if IsOutflow(t) {
        assert DatedOutflows(txns) == dated + [] && UndatedOutflows(txns) == undated + [t];
        TotalOutflowSnoc(undated, t);
      } else {
        assert DatedOutflows(txns) == dated + [] && UndatedOutflows(txns) == undated + [];
      }
    }
  }

  /**
   * The total shown is what the category totals add up to plus the outflows
   * without a date, and the months add up to the category totals.
   */
  lemma TotalIsCategoriesPlusUndated(total: real, monthMap: Entries<real>, perMonthCat: Entries<MonthCats>,
                                     catTotals: SpendMap, txns: seq<Transaction>)
    requires Summarises(total, monthMap, perMonthCat, catTotals, txns)
    ensures total == SumOver(catTotals, Categories) + TotalOutflow(UndatedOutflows(txns))
    ensures SumValues(monthMap) == SumOver(catTotals, Categories)
  {
    TalliedIsSpendOf(catTotals, DatedOutflows(txns));
    CategoriesPartitionSpend(DatedOutflows(txns));
    DatedUndatedSplit(txns);
  }

  /** Each month's `All` is what its five categories add up to. */
  lemma MonthAllIsCategorySum(txns: seq<Transaction>, k: string)
    requires MonthCatsOf(txns, k).Some?
    ensures MonthCatsOf(txns, k).value.all == SumOver(MonthCatsOf(txns, k).value.spend, Categories)
  {
    CategoriesPartitionSpend(MonthTxns(txns, k));
  }

  /** A month's list holds outflows of that month only. */
  lemma {:induction false} MonthTxnsAreInMonth(txns: seq<Transaction>, k: string)
    ensures forall t | t in MonthTxns(txns, k) :: InMonth(t, k)
  {
    if txns != [] {
      MonthTxnsAreInMonth(txns[..|txns| - 1], k);
    }
  }

  /** A list of outflows only, at least one, has a total above 0. */
  lemma {:induction false} OutflowsTotalPositive(txns: seq<Transaction>)
    requires txns != [] && forall t | t in txns :: IsOutflow(t)
    ensures TotalOutflow(txns) > 0.0
  {
    var prefix := txns[..|txns| - 1];
    if prefix != [] {
      assert forall t | t in prefix :: t in txns;
      OutflowsTotalPositive(prefix);
    }
    assert txns[|txns| - 1] in txns;
  }

  /** Every month that `monthMap` holds has spending above 0. */
  lemma MonthTotalPositive(txns: seq<Transaction>, k: string)
    requires MonthTotalOf(txns, k).Some?
    ensures MonthTotalOf(txns, k).value > 0.0
  {
    MonthTxnsAreInMonth(txns, k);
    OutflowsTotalPositive(MonthTxns(txns, k));
  }
}
