/**
 * The per-category spend map every summary and tips panel builds from the
 * month's transactions: a five-category object initialised to 0, to which
 * each outflow adds its absolute amount under its category. The
 * self-employed panels also keep a running `total` beside it.
 */
module Spending {
  import opened Transactions
  import opened Categorizer

  type SpendMap = map<Category, real>

  /** What the transactions `txns` spent in category `c`. */
  function CategorySpend(txns: seq<Transaction>, c: Category): real
  {
    if txns == [] then 0.0
    else
      var last := txns[|txns| - 1];
      CategorySpend(txns[..|txns| - 1], c) + (if Categorize(last) == c then Outflow(last) else 0.0)
  }

  /** What the transactions `txns` spent altogether. */
  function TotalOutflow(txns: seq<Transaction>): real
  {
    if txns == [] then 0.0 else TotalOutflow(txns[..|txns| - 1]) + Outflow(txns[|txns| - 1])
  }

  /** `spend` holds every category with what `txns` spent in it. */
  predicate Tallied(spend: SpendMap, txns: seq<Transaction>) {
    forall c :: c in spend && spend[c] == CategorySpend(txns, c)
  }

  /** The spend map after the whole `forEach`: every category, with its spend. */
  function SpendOf(txns: seq<Transaction>): (m: SpendMap)
    ensures Tallied(m, txns)
  {
    var m := map c: Category | c in Categories :: CategorySpend(txns, c);
    assert forall c: Category :: c in Categories by {
      forall c: Category ensures c in Categories {
        EveryCategoryListed(c);
      }
    }
    m
  }

  /** A tallied map is the spend map: there is only one. */
  lemma TalliedIsSpendOf(spend: SpendMap, txns: seq<Transaction>)
    requires Tallied(spend, txns)
    ensures spend == SpendOf(txns)
  {
    assert spend.Keys == SpendOf(txns).Keys;
  }

  /** `spend[c] || 0`. */
  function Get(spend: SpendMap, c: Category): real {
    if c in spend then spend[c] else 0.0
  }

  /** `cats.reduce((sum, c) => sum + (spend[c] || 0), 0)`. */
  function SumOver(spend: SpendMap, cats: seq<Category>): real {
    if cats == [] then 0.0 else Get(spend, cats[0]) + SumOver(spend, cats[1..])
  }

  /** Adding one more category to the reduce adds its spend. */
  lemma {:induction false} SumOverSnoc(spend: SpendMap, cats: seq<Category>, c: Category)
    ensures SumOver(spend, cats + [c]) == SumOver(spend, cats) + Get(spend, c)
  {
    if cats != [] {
      assert (cats + [c])[1..] == cats[1..] + [c];
      SumOverSnoc(spend, cats[1..], c);
    }
  }

  /** The sum over the five categories, written out. */
  lemma SumOverCategories(spend: SpendMap)
    ensures SumOver(spend, Categories)
         == Get(spend, Food) + Get(spend, Rent) + Get(spend, Entertainment)
          + Get(spend, Transport) + Get(spend, Other)
    ensures SumOver(spend, RentFirst) == SumOver(spend, Categories)
  {
    assert SumOver(spend, [Other]) == Get(spend, Other);
    assert SumOver(spend, [Transport, Other]) == Get(spend, Transport) + Get(spend, Other);
    assert SumOver(spend, [Entertainment, Transport, Other])
        == Get(spend, Entertainment) + Get(spend, Transport) + Get(spend, Other);
    assert Categories[1..] == [Rent, Entertainment, Transport, Other];
    assert RentFirst[1..] == [Food, Entertainment, Transport, Other];
    assert [Rent, Entertainment, Transport, Other][1..] == [Entertainment, Transport, Other];
    assert [Food, Entertainment, Transport, Other][1..] == [Entertainment, Transport, Other];
  }

  /** No category ever holds a negative spend, and no single category exceeds the total. */
  lemma {:induction false} SpendBounds(txns: seq<Transaction>, c: Category)
    ensures 0.0 <= CategorySpend(txns, c) <= TotalOutflow(txns)
  {
    if txns != [] {
      SpendBounds(txns[..|txns| - 1], c);
    }
  }

  /**
   * One more transaction adds its outflow to its own category only: every
   * other category, and every category when it is not an outflow, keeps its
   * spend.
   */
  lemma OneMoreTransaction(txns: seq<Transaction>, t: Transaction, c: Category)
    ensures CategorySpend(txns + [t], c)
         == CategorySpend(txns, c) + (if IsOutflow(t) && Categorize(t) == c then -Amount(t) else 0.0)
    ensures TotalOutflow(txns + [t]) == TotalOutflow(txns) + (if IsOutflow(t) then -Amount(t) else 0.0)
  {
    assert (txns + [t])[..|txns|] == txns;
  }

  /** Adding an outflow's amount under its category keeps a map tallied with that outflow appended. */
  lemma TalliedSnoc(spend: SpendMap, txns: seq<Transaction>, t: Transaction, cat: Category, spent: real)
    requires Tallied(spend, txns) && IsOutflow(t) && cat == Categorize(t) && spent == Outflow(t)
    ensures Tallied(spend[cat := Get(spend, cat) + spent], txns + [t])
  {
    var m := spend[cat := Get(spend, cat) + spent];
    forall c ensures c in m && m[c] == CategorySpend(txns + [t], c) {
      OneMoreTransaction(txns, t, c);
    }
  }

  /** A transaction that is not an outflow leaves a tallied map tallied with it appended. */
  lemma TalliedSkip(spend: SpendMap, txns: seq<Transaction>, t: Transaction)
    requires Tallied(spend, txns) && !IsOutflow(t)
    ensures Tallied(spend, txns + [t])
  {
    forall c ensures c in spend && spend[c] == CategorySpend(txns + [t], c) {
      OneMoreTransaction(txns, t, c);
    }
  }

  /** The five category spends add up to the total outflow. */
  lemma {:induction false} CategoriesPartitionSpend(txns: seq<Transaction>)
    ensures SumOver(SpendOf(txns), Categories) == TotalOutflow(txns)
  {
    SumOverCategories(SpendOf(txns));
    if txns != [] {
      var prefix := txns[..|txns| - 1];
      CategoriesPartitionSpend(prefix);
      SumOverCategories(SpendOf(prefix));
    }
  }

  /**
   * The panels' `forEach` over the transactions: starting from every
   * category at 0, each outflow adds `Math.abs(amount)` to its category and
   * to `total`.
   */
  method Tally(txns: seq<Transaction>) returns (spend: SpendMap, total: real)
    ensures spend == SpendOf(txns)
    ensures total == TotalOutflow(txns)
    ensures total == SumOver(spend, Categories)
  {
    spend := map c | c in Categories :: 0.0;
    total := 0.0;
    forall c ensures c in spend {
      EveryCategoryListed(c);
    }
    var i := 0;
    while i < |txns|
      invariant 0 <= i <= |txns|
      invariant Tallied(spend, txns[..i])
      invariant total == TotalOutflow(txns[..i])
    {
      var t := txns[i];
      assert txns[..i + 1] == txns[..i] + [t];
      OneMoreTransaction(txns[..i], t, Food);
      var amount := Amount(t);
      if amount < 0.0 {
        var cat := Categorize(t);
        var pos := -amount;
        TalliedSnoc(spend, txns[..i], t, cat, pos);
        spend := spend[cat := Get(spend, cat) + pos];
        total := total + pos;
      } else {
        TalliedSkip(spend, txns[..i], t);
      }
      i := i + 1;
    }
    assert txns[..i] == txns;
    TalliedIsSpendOf(spend, txns);
    CategoriesPartitionSpend(txns);
  }
}
