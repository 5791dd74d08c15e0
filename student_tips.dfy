/**
 * The student "Saving Tips" card: which categories went over their own
 * budget, and advice for each, after a word on the overall picture.
 */
module StudentTips {
  import opened JsValues
  import opened JsObjects
  import opened Categorizer
  import opened Spending
  import opened StableSort
  import StudentSummary

  /** `{ category, overBy }`. */
  datatype Overspend = Overspend(category: Category, overBy: real)

  /** The fixed advice for an overspent category. */
  datatype Suggestion = PlanMeals | SplitRent | LimitOutings | UseTransitPasses | ReviewCategory

  datatype Tip =
    | NiceJob
    | UnderTotalBy(amount: real)
    | KeepTracking
    | GoodWorkUnderBy(amount: real)
    | AdjustOverspentCategories
    | WentOverTotal
    | OverspentIn(category: Category, overBy: real, suggestion: Suggestion)

  datatype View = Reminder | Tips(tips: seq<Tip>)

  /** The `switch (category)`: Other falls to the default advice. */
  function SuggestionFor(c: Category): Suggestion {
    match c
    case Food => PlanMeals
    case Rent => SplitRent
    case Entertainment => LimitOutings
    case Transport => UseTransitPasses
    case Other => ReviewCategory
  }

  /** `b > 0 && s > b + 0.01`. */
  predicate IsOverspent(stored: Entries<JsNum>, spend: SpendMap, c: Category) {
    StudentSummary.BudgetOf(stored, c) > 0.0 && Get(spend, c) > StudentSummary.BudgetOf(stored, c) + 0.01
  }

  /** The `overspent` list the `forEach` pushes onto, over the categories `cats`. */
  function OverspentList(stored: Entries<JsNum>, spend: SpendMap, cats: seq<Category>): seq<Overspend> {
    if cats == [] then []
    else
      var c := cats[|cats| - 1];
      OverspentList(stored, spend, cats[..|cats| - 1])
        + (if IsOverspent(stored, spend, c) then [Overspend(c, Get(spend, c) - StudentSummary.BudgetOf(stored, c))] else [])
  }

  /** One more category appends its entry when it is overspent. */
  lemma OverspentListSnoc(stored: Entries<JsNum>, spend: SpendMap, cats: seq<Category>, c: Category)
    ensures OverspentList(stored, spend, cats + [c])
         == OverspentList(stored, spend, cats)
            + (if IsOverspent(stored, spend, c) then [Overspend(c, Get(spend, c) - StudentSummary.BudgetOf(stored, c))] else [])
  {
    assert (cats + [c])[..|cats|] == cats;
  }

  /** What `overspent` holds: exactly the overspent categories, each with its excess. */
  lemma OverspentListContents(stored: Entries<JsNum>, spend: SpendMap, cats: seq<Category>)
    ensures forall o | o in OverspentList(stored, spend, cats) ::
              o.category in cats && IsOverspent(stored, spend, o.category)
              && o.overBy == Get(spend, o.category) - StudentSummary.BudgetOf(stored, o.category) && o.overBy > 0.01
    ensures forall c | c in cats && IsOverspent(stored, spend, c) ::
              exists o | o in OverspentList(stored, spend, cats) :: o.category == c
  {
    OverspentListSound(stored, spend, cats);
    OverspentListComplete(stored, spend, cats);
  }

  /** Every entry of `overspent` is an overspent category of `cats` with its excess. */
  lemma {:induction false} OverspentListSound(stored: Entries<JsNum>, spend: SpendMap, cats: seq<Category>)
    ensures forall o | o in OverspentList(stored, spend, cats) ::
              o.category in cats && IsOverspent(stored, spend, o.category)
              && o.overBy == Get(spend, o.category) - StudentSummary.BudgetOf(stored, o.category) && o.overBy > 0.01
  {
    if cats != [] {
      var init := cats[..|cats| - 1];
      OverspentListSound(stored, spend, init);
      assert cats == init + [cats[|cats| - 1]];
    }
  }

  /** Every overspent category of `cats` has an entry in `overspent`. */
  lemma {:induction false} OverspentListComplete(stored: Entries<JsNum>, spend: SpendMap, cats: seq<Category>)
    ensures forall c | c in cats && IsOverspent(stored, spend, c) ::
              exists o | o in OverspentList(stored, spend, cats) :: o.category == c
  {
    if cats != [] {
      var init := cats[..|cats| - 1];
      var c := cats[|cats| - 1];
      OverspentListComplete(stored, spend, init);
      assert cats == init + [c];
      forall d | d in cats && IsOverspent(stored, spend, d)
        ensures exists o | o in OverspentList(stored, spend, cats) :: o.category == d
      {
        if d != c {
          assert d in init;
          var o :| o in OverspentList(stored, spend, init) && o.category == d;
          assert o in OverspentList(stored, spend, cats);
        } else {
          assert Overspend(c, Get(spend, c) - StudentSummary.BudgetOf(stored, c)) in OverspentList(stored, spend, cats);
        }
      }
    }
  }

  /** `overspent` lists its categories in the order of `cats`. */
  lemma {:induction false} OverspentListInOrder(stored: Entries<JsNum>, spend: SpendMap, cats: seq<Category>)
    ensures forall i, j | 0 <= i < j < |OverspentList(stored, spend, cats)| ::
              Before(cats, OverspentList(stored, spend, cats)[i].category, OverspentList(stored, spend, cats)[j].category)
  {
    if cats != [] {
      var init := cats[..|cats| - 1];
      var c := cats[|cats| - 1];
      var prev := OverspentList(stored, spend, init);
      var list := OverspentList(stored, spend, cats);
      OverspentListInOrder(stored, spend, init);
      OverspentListContents(stored, spend, init);
      forall i, j | 0 <= i < j < |list| ensures Before(cats, list[i].category, list[j].category) {
        assert list[i] == prev[i] && list[i] in prev;
        var p :| 0 <= p < |init| && init[p] == list[i].category;
        if j < |prev| {
          assert list[j] == prev[j];
          var p', q' :| 0 <= p' < q' < |init| && init[p'] == list[i].category && init[q'] == list[j].category;
          assert cats[p'] == init[p'] && cats[q'] == init[q'];
        } else {
          assert list[j].category == c && cats[p] == init[p];
        }
      }
    }
  }

  /** `CATEGORIES.some((c) => Number(categoryBudget[c]) > 0)`. */
  predicate HasAnyBudget(stored: Entries<JsNum>) {
    exists c | c in Categories :: StudentSummary.BudgetOf(stored, c) > 0.0
  }

  /** `CATEGORIES.some((c) => (categorySpend[c] || 0) > 0.01)`. */
  predicate HasAnySpending(spend: SpendMap) {
    exists c | c in Categories :: Get(spend, c) > 0.01
  }

  /** `totalBudget > 0 && totalSpent <= totalBudget`. */
  predicate OverallUnderBudget(stored: Entries<JsNum>, spend: SpendMap) {
    StudentSummary.TotalBudget(stored) > 0.0 && SumOver(spend, Categories) <= StudentSummary.TotalBudget(stored)
  }

  /** One tip per overspent category, with its advice. */
  function OverspentTips(os: seq<Overspend>): (tips: seq<Tip>)
    ensures |tips| == |os|
    ensures forall i | 0 <= i < |os| ::
              tips[i] == OverspentIn(os[i].category, os[i].overBy, SuggestionFor(os[i].category))
  {
    if os == [] then []
    else [OverspentIn(os[0].category, os[0].overBy, SuggestionFor(os[0].category))] + OverspentTips(os[1..])
  }

  /** Pushing one more overspent category's tip extends the tips by that one tip. */
  lemma OverspentTipsSnoc(os: seq<Overspend>, o: Overspend)
    ensures OverspentTips(os + [o]) == OverspentTips(os) + [OverspentIn(o.category, o.overBy, SuggestionFor(o.category))]
  {
    var l, r := OverspentTips(os + [o]), OverspentTips(os) + [OverspentIn(o.category, o.overBy, SuggestionFor(o.category))];
    assert |l| == |r|;
    forall i | 0 <= i < |l| ensures l[i] == r[i] {
      if i < |os| {
        assert (os + [o])[i] == os[i];
      }
    }
  }

  /** What the scan has gathered so far. */
  datatype Scan = Scan(overspent: seq<Overspend>, totalBudget: real, totalSpent: real)

  /** One step of the scan: the category's budget and spend are added, and it is pushed when overspent. */
  function ScanStep(st: Scan, stored: Entries<JsNum>, spend: SpendMap, c: Category): Scan {
    var b := StudentSummary.BudgetOf(stored, c);
    var s := Get(spend, c);
    Scan(if b > 0.0 && s > b + 0.01 then st.overspent + [Overspend(c, s - b)] else st.overspent,
         st.totalBudget + b, st.totalSpent + s)
  }

  /** The scan over `cats`, step by step. */
  function Scanned(stored: Entries<JsNum>, spend: SpendMap, cats: seq<Category>): Scan {
    if cats == [] then Scan([], 0.0, 0.0)
    else ScanStep(Scanned(stored, spend, cats[..|cats| - 1]), stored, spend, cats[|cats| - 1])
  }

  /** Scanning one more category of `cats` takes one more step. */
  lemma ScannedNext(stored: Entries<JsNum>, spend: SpendMap, cats: seq<Category>, i: nat)
    requires i < |cats|
    ensures Scanned(stored, spend, cats[..i + 1]) == ScanStep(Scanned(stored, spend, cats[..i]), stored, spend, cats[i])
  {
    assert cats[..i + 1][..i] == cats[..i];
  }

  /** The scan gathers the overspent list, the budget total and the spend total of `cats`. */
  lemma {:induction false} ScannedIsTotals(stored: Entries<JsNum>, spend: SpendMap, cats: seq<Category>)
    ensures Scanned(stored, spend, cats)
         == Scan(OverspentList(stored, spend, cats), StudentSummary.SumBudgets(stored, cats), SumOver(spend, cats))
  {
    if cats != [] {
      var prefix, c := cats[..|cats| - 1], cats[|cats| - 1];
      assert cats == prefix + [c];
      ScannedIsTotals(stored, spend, prefix);
      StudentSummary.SumBudgetsSnoc(stored, prefix, c);
      SumOverSnoc(spend, prefix, c);
      OverspentListSnoc(stored, spend, prefix, c);
    }
  }

  /**
   * The `CATEGORIES.forEach`: the budget and spend totals over `cats`, and the
   * overspent categories in order.
   */
  method ScanCategories(stored: Entries<JsNum>, spend: SpendMap, cats: seq<Category>)
    returns (overspent: seq<Overspend>, totalBudget: real, totalSpent: real)
    ensures overspent == OverspentList(stored, spend, cats)
    ensures totalBudget == StudentSummary.SumBudgets(stored, cats)
    ensures totalSpent == SumOver(spend, cats)
  {
    overspent := [];
    totalBudget := 0.0;
    totalSpent := 0.0;
    ghost var scan := Scan([], 0.0, 0.0);
    for i := 0 to |cats|
      invariant scan == Scanned(stored, spend, cats[..i])
      invariant overspent == scan.overspent && totalBudget == scan.totalBudget && totalSpent == scan.totalSpent
    {
      var c := cats[i];
      var b := StudentSummary.BudgetOf(stored, c);
      var s := Get(spend, c);
      ScannedNext(stored, spend, cats, i);
      scan := ScanStep(scan, stored, spend, c);
      totalBudget := totalBudget + b;
      totalSpent := totalSpent + s;
      if b > 0.0 && s > b + 0.01 {
        overspent := overspent + [Overspend(c, s - b)];
      }
    }
    assert cats[..|cats|] == cats;
    ScannedIsTotals(stored, spend, cats);
  }

  /** The `overspent.forEach` that pushes one tip per overspent category. */
  method PushOverspentTips(head: seq<Tip>, overspent: seq<Overspend>) returns (tips: seq<Tip>)
    ensures tips == head + OverspentTips(overspent)
  {
    tips := head;
    for k := 0 to |overspent|
      invariant tips == head + OverspentTips(overspent[..k])
    {
      var o := overspent[k];
      tips := tips + [OverspentIn(o.category, o.overBy, SuggestionFor(o.category))];
      assert overspent[..k + 1] == overspent[..k] + [o];
      OverspentTipsSnoc(overspent[..k], o);
    }
    assert overspent[..|overspent|] == overspent;
  }

  /**
   * The tips pushed once the gate has passed, from the scan's results: the
   * overall picture, then one tip per overspent category.
   */
  method PushTips(overspent: seq<Overspend>, totalBudget: real, totalSpent: real) returns (tips: seq<Tip>)
    ensures overspent == [] ==>
              tips == [NiceJob, if totalBudget > 0.0 && totalSpent <= totalBudget
                                then UnderTotalBy(totalBudget - totalSpent) else KeepTracking]
    ensures overspent != [] ==>
              tips == (if totalBudget > 0.0 && totalSpent <= totalBudget
                       then [GoodWorkUnderBy(totalBudget - totalSpent), AdjustOverspentCategories]
                       else [WentOverTotal])
                      + OverspentTips(overspent)
  {
    tips := [];
    var overallUnderBudget := totalBudget > 0.0 && totalSpent <= totalBudget;
    var overallDiff := totalBudget - totalSpent;
    if |overspent| == 0 {
      tips := tips + [NiceJob];
      if overallUnderBudget {
        tips := tips + [UnderTotalBy(overallDiff)];
      } else {
        tips := tips + [KeepTracking];
      }
    } else {
      if overallUnderBudget {
        tips := tips + [GoodWorkUnderBy(overallDiff)];
        tips := tips + [AdjustOverspentCategories];
      } else {
        tips := tips + [WentOverTotal];
      }
      tips := PushOverspentTips(tips, overspent);
    }
  }

  /**
   * The card. Without some positive category budget and some category
   * spend above 0.01, only the reminder. Otherwise, when no category is
   * overspent, "Nice job" followed by the amount under the total budget
   * (or a reminder to keep tracking); when some are, the overall picture
   * followed by one tip per overspent category, in category order.
   */
  method BuildTips(stored: Entries<JsNum>, spend: SpendMap) returns (v: View)
    ensures v.Reminder? <==> !HasAnyBudget(stored) || !HasAnySpending(spend)
    ensures v.Tips? && OverspentList(stored, spend, Categories) == [] ==>
              v.tips == [NiceJob, if OverallUnderBudget(stored, spend)
                                  then UnderTotalBy(StudentSummary.TotalBudget(stored) - SumOver(spend, Categories))
                                  else KeepTracking]
    ensures v.Tips? && OverspentList(stored, spend, Categories) != [] ==>
              v.tips == (if OverallUnderBudget(stored, spend)
                         then [GoodWorkUnderBy(StudentSummary.TotalBudget(stored) - SumOver(spend, Categories)),
                               AdjustOverspentCategories]
                         else [WentOverTotal])
                        + OverspentTips(OverspentList(stored, spend, Categories))
    ensures v.Tips? ==>
              |v.tips| == if OverspentList(stored, spend, Categories) == [] then 2
                          else (if OverallUnderBudget(stored, spend) then 2 else 1)
                               + |OverspentList(stored, spend, Categories)|
  {
    if !HasAnyBudget(stored) || !HasAnySpending(spend) {
      return Reminder;
    }
    var overspent, totalBudget, totalSpent := ScanCategories(stored, spend, Categories);
    assert totalBudget == StudentSummary.TotalBudget(stored);
    assert OverallUnderBudget(stored, spend) <==> totalBudget > 0.0 && totalSpent <= totalBudget;
    var tips := PushTips(overspent, totalBudget, totalSpent);
    return Tips(tips);
  }
}
