/**
 * The dashboard page: which layout a `userType` gets, which panels it
 * renders in which order, whether the upload panel accepts files, whether a
 * tips panel appears, and the label shown in the top bar.
 */
module DashboardPage {
  import opened Wrappers
  import opened Gates
  import opened Roles
  import opened JsObjects

  /** The five layouts of the page's `isStudent ? ... : isFreeSpender ? ...` chain. */
  datatype Layout = StudentLayout | FreeSpenderLayout | SelfEmployedLayout | AnalyticsLayout | StandardLayout

  /** The role flags, tested in the page's order; anything else gets the standard layout. */
  function LayoutFor(userType: string): Layout {
    if userType == Student then StudentLayout
    else if userType == FreeSpender then FreeSpenderLayout
    else if userType == BusinessOwner then SelfEmployedLayout
    else if userType == FinanciallyInclined then AnalyticsLayout
    else StandardLayout
  }

  /** Each known type has a layout of its own, and only unknown types get the standard one. */
  lemma LayoutPerType(userType: string)
    ensures LayoutFor(userType) == StudentLayout <==> userType == Student
    ensures LayoutFor(userType) == FreeSpenderLayout <==> userType == FreeSpender
    ensures LayoutFor(userType) == SelfEmployedLayout <==> userType == BusinessOwner
    ensures LayoutFor(userType) == AnalyticsLayout <==> userType == FinanciallyInclined
    ensures LayoutFor(userType) == StandardLayout <==> !IsKnown(userType)
  {
  }

  /** A panel the page renders; the upload panel carries its `canUpload` prop. */
  datatype Panel =
    | CategoryBudget | Budget | Income
    | CsvUpload(canUpload: bool)
    | StudentSummary | FreeSpenderSummary | SelfEmployedSummary | Summary
    | StudentTips | FreeSpenderTips | SelfEmployedTips | Tips
    | Analytics

  /** The tips panels, one per layout that has one. */
  predicate IsTipsPanel(p: Panel) {
    p == StudentTips || p == FreeSpenderTips || p == SelfEmployedTips || p == Tips
  }

  /** `isFinancialLiterate || hasBudget`, the `canUpload` prop of the four budget layouts. */
  predicate CanUpload(userType: string, budget: Option<real>) {
    userType == FinanciallyInclined || HasBudget(budget)
  }

  /** A tips panel, present only when `canShowTips`. */
  function TipsIfShown(tips: Panel, budget: Option<real>, monthTotal: Option<real>): seq<Panel> {
    if CanShowTips(budget, monthTotal) then [tips] else []
  }

  /** The panels of the chosen layout, first row then second row. */
  function Panels(userType: string, budget: Option<real>, monthTotal: Option<real>): (ps: seq<Panel>)
    ensures |ps| >= 2
    ensures forall p | p in ps && p.CsvUpload? :: p.canUpload == CanUpload(userType, budget)
  {
    var upload := CsvUpload(CanUpload(userType, budget));
    match LayoutFor(userType)
    case StudentLayout =>
      [CategoryBudget, upload, StudentSummary] + TipsIfShown(StudentTips, budget, monthTotal)
    case FreeSpenderLayout =>
      [Budget, upload, FreeSpenderSummary] + TipsIfShown(FreeSpenderTips, budget, monthTotal)
    case SelfEmployedLayout =>
      [Income, upload, SelfEmployedSummary] + TipsIfShown(SelfEmployedTips, budget, monthTotal)
    case AnalyticsLayout =>
      [CsvUpload(true), Analytics]
    case StandardLayout =>
      [Budget, upload, Summary] + TipsIfShown(Tips, budget, monthTotal)
  }

  /** A tips panel is rendered exactly when `canShowTips`, in every layout but the analytics one, which has none. */
  lemma TipsGate(userType: string, budget: Option<real>, monthTotal: Option<real>)
    ensures var ps := Panels(userType, budget, monthTotal);
            (exists p | p in ps :: IsTipsPanel(p)) <==> LayoutFor(userType) != AnalyticsLayout && CanShowTips(budget, monthTotal)
  {
    var ps := Panels(userType, budget, monthTotal);
    if LayoutFor(userType) != AnalyticsLayout && CanShowTips(budget, monthTotal) {
      assert ps[3] in ps && IsTipsPanel(ps[3]);
    } else {
      assert forall i | 0 <= i < |ps| :: !IsTipsPanel(ps[i]);
    }
  }

  /**
   * There is exactly one upload panel, first after the budget editor; it
   * always accepts files for the analytics layout and otherwise exactly when
   * a budget above 0 is saved.
   */
  lemma UploadGate(userType: string, budget: Option<real>, monthTotal: Option<real>)
    ensures var ps := Panels(userType, budget, monthTotal);
            && (forall i, j | 0 <= i < j < |ps| :: !(ps[i].CsvUpload? && ps[j].CsvUpload?))
            && (LayoutFor(userType) == AnalyticsLayout ==> ps[0] == CsvUpload(true))
            && (LayoutFor(userType) != AnalyticsLayout ==> ps[1] == CsvUpload(HasBudget(budget)))
  {
    var ps := Panels(userType, budget, monthTotal);
    assert forall i | 2 <= i < |ps| :: !ps[i].CsvUpload?;
  }

  /** Exactly one summary panel is shown outside the analytics layout, and it is the layout's own. */
  lemma SummaryForLayout(userType: string, budget: Option<real>, monthTotal: Option<real>)
    ensures var ps := Panels(userType, budget, monthTotal);
            LayoutFor(userType) != AnalyticsLayout ==>
              ps[2] == (match LayoutFor(userType)
                        case StudentLayout => StudentSummary
                        case FreeSpenderLayout => FreeSpenderSummary
                        case SelfEmployedLayout => SelfEmployedSummary
                        case _ => Summary)
  {
  }

  /** `roleLabelMap`: the label of each known type. */
  const RoleLabels: Entries<string> := [
    (Student, "Student"),
    (FreeSpender, "Free Spender"),
    (BusinessOwner, "Self-Employed"),
    (FinanciallyInclined, "Financially Literate")
  ]

  /** `roleLabelMap[userType] || userType`: a missing or empty label falls back to the type itself. */
  function RoleLabel(userType: string): string {
    match Lookup(RoleLabels, userType)
    case Some(text) => if text != "" then text else userType
    case None => userType
  }

  /** The four known types get their labels; every other type is shown as it is. */
  lemma RoleLabelOf(userType: string)
    ensures userType == Student ==> RoleLabel(userType) == "Student"
    ensures userType == FreeSpender ==> RoleLabel(userType) == "Free Spender"
    ensures userType == BusinessOwner ==> RoleLabel(userType) == "Self-Employed"
    ensures userType == FinanciallyInclined ==> RoleLabel(userType) == "Financially Literate"
    ensures !IsKnown(userType) ==> RoleLabel(userType) == userType
    ensures RoleLabel(userType) != "" || userType == ""
  {
    assert |Student| == 7 && |FreeSpender| == 12 && |BusinessOwner| == 14 && |FinanciallyInclined| == 20;
    assert RoleLabels[1..][1..] == RoleLabels[2..] && RoleLabels[2..][1..] == RoleLabels[3..];
    assert RoleLabels[3..][1..] == [];
    if userType == Student {
    } else if userType == FreeSpender {
      assert Lookup(RoleLabels, userType) == Lookup(RoleLabels[1..], userType);
    } else if userType == BusinessOwner {
      assert Lookup(RoleLabels, userType) == Lookup(RoleLabels[2..], userType);
    } else {
      assert Lookup(RoleLabels, userType) == Lookup(RoleLabels[2..], userType);
      assert Lookup(RoleLabels[2..], userType) == Lookup(RoleLabels[3..], userType);
      if userType != FinanciallyInclined {
        assert Lookup(RoleLabels[3..], userType) == Lookup(RoleLabels[3..][1..], userType);
      }
    }
  }
}
