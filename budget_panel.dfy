/**
 * The flat "Monthly Budget" form: a text field kept in step with the saved
 * budget, that accepts only unsigned decimal text, and whose reading with
 * `parseFloat` is the budget it saves.
 */
module BudgetPanel {
  import opened Wrappers
  import opened JsValues
  import opened Gates

  predicate IsDigit(c: char) {
    '0' <= c <= '9'
  }

  predicate AllDigits(s: string) {
    forall i | 0 <= i < |s| :: IsDigit(s[i])
  }

  /** `/^\d*\.?\d*$/.test(v)`: some digits, at most one `.`, some digits. */
  predicate MatchesDecimal(s: string) {
    AllDigits(s) || exists i | 0 <= i < |s| :: s[i] == '.' && AllDigits(s[..i]) && AllDigits(s[i + 1..])
  }

  /** How many times `c` occurs in `s`. */
  function Occurrences(s: string, c: char): nat {
    if s == [] then 0 else (if s[0] == c then 1 else 0) + Occurrences(s[1..], c)
  }

  /** Text made only of digits and dots, with at most one dot. */
  predicate DigitsAndOneDot(s: string) {
    (forall i | 0 <= i < |s| :: IsDigit(s[i]) || s[i] == '.') && Occurrences(s, '.') <= 1
  }

  lemma {:induction false} NoDotInDigits(s: string)
    requires AllDigits(s)
    ensures Occurrences(s, '.') == 0
  {
    if s != [] {
      NoDotInDigits(s[1..]);
    }
  }

  lemma {:induction false} OccurrencesConcat(a: string, b: string, c: char)
    ensures Occurrences(a + b, c) == Occurrences(a, c) + Occurrences(b, c)
  {
    if a != [] {
      assert (a + b)[1..] == a[1..] + b;
      OccurrencesConcat(a[1..], b, c);
    } else {
      assert a + b == b;
    }
  }

  /** A text with no dot at all, when it holds only digits and dots, holds only digits. */
  lemma {:induction false} NoDotThenDigits(s: string)
    requires forall i | 0 <= i < |s| :: IsDigit(s[i]) || s[i] == '.'
    requires Occurrences(s, '.') == 0
    ensures AllDigits(s)
  {
    if s != [] {
      NoDotThenDigits(s[1..]);
      assert forall i | 1 <= i < |s| :: s[i] == s[1..][i - 1];
    }
  }

  /** A dot between two runs of digits: the text holds digits and that one dot. */
  lemma DotBetweenDigits(s: string, i: nat)
    requires i < |s| && s[i] == '.' && AllDigits(s[..i]) && AllDigits(s[i + 1..])
    ensures DigitsAndOneDot(s)
  {
    var a, b := s[..i], s[i + 1..];
    assert s == a + [s[i]] + b;
    NoDotInDigits(a);
    NoDotInDigits(b);
    OccurrencesConcat(a + [s[i]], b, '.');
    OccurrencesConcat(a, [s[i]], '.');
    forall j | 0 <= j < |s| ensures IsDigit(s[j]) || s[j] == '.' {
      if j < i {
        assert s[j] == a[j];
      } else if j > i {
        assert s[j] == b[j - i - 1];
      }
    }
  }

  /** A text of digits with one dot has only digits on either side of that dot. */
  lemma SplitAtDot(s: string, i: nat)
    requires DigitsAndOneDot(s) && i < |s| && s[i] == '.'
    ensures AllDigits(s[..i]) && AllDigits(s[i + 1..])
  {
    var a, b := s[..i], s[i + 1..];
    assert s == a + [s[i]] + b;
    OccurrencesConcat(a + [s[i]], b, '.');
    OccurrencesConcat(a, [s[i]], '.');
    assert Occurrences([s[i]], '.') == 1;
    forall j | 0 <= j < |a| ensures IsDigit(a[j]) || a[j] == '.' {
      assert a[j] == s[j];
    }
    forall j | 0 <= j < |b| ensures IsDigit(b[j]) || b[j] == '.' {
      assert b[j] == s[i + 1 + j];
    }
    NoDotThenDigits(a);
    NoDotThenDigits(b);
  }

  /** The pattern admits exactly the texts of digits with at most one dot. */
  lemma DecimalPattern(s: string)
    ensures MatchesDecimal(s) <==> DigitsAndOneDot(s)
  {
    if AllDigits(s) {
      NoDotInDigits(s);
    } else if exists i | 0 <= i < |s| :: s[i] == '.' && AllDigits(s[..i]) && AllDigits(s[i + 1..]) {
      var i :| 0 <= i < |s| && s[i] == '.' && AllDigits(s[..i]) && AllDigits(s[i + 1..]);
      DotBetweenDigits(s, i);
    } else if DigitsAndOneDot(s) {
      var i :| 0 <= i < |s| && !IsDigit(s[i]);
      SplitAtDot(s, i);
    }
  }

  /** The value of a digit character. */
  function DigitValue(c: char): nat
    requires IsDigit(c)
  {
    c as nat - '0' as nat
  }

  /** The length of the run of digits at the start of `s`. */
  function DigitRun(s: string): (n: nat)
    ensures n <= |s| && AllDigits(s[..n])
    ensures n < |s| ==> !IsDigit(s[n])
  {
    if s != [] && IsDigit(s[0]) then
      var n := 1 + DigitRun(s[1..]);
      assert forall i | 1 <= i < n :: s[..n][i] == s[1..][..n - 1][i - 1];
      n
    else 0
  }

  /** The number that a run of digits spells, most significant first. */
  function WholeValue(ds: string): real
    requires AllDigits(ds)
  {
    if ds == [] then 0.0 else WholeValue(ds[..|ds| - 1]) * 10.0 + DigitValue(ds[|ds| - 1]) as real
  }

  /** The fraction that a run of digits after a `.` spells. */
  function FractionValue(ds: string): real
    requires AllDigits(ds)
  {
    if ds == [] then 0.0 else (DigitValue(ds[0]) as real + FractionValue(ds[1..])) / 10.0
  }

  lemma {:induction false} DigitValuesNonNegative(ds: string)
    requires AllDigits(ds)
    ensures WholeValue(ds) >= 0.0 && 0.0 <= FractionValue(ds) < 1.0
  {
    if ds != [] {
      DigitValuesNonNegative(ds[..|ds| - 1]);
      DigitValuesNonNegative(ds[1..]);
    }
  }

  /**
   * `parseFloat(s)`: an optional sign, the digits before a `.`, the digits
   * after it; NaN when neither part has a digit. The reading stops at the
   * first character that does not fit.
   */
  function ParseFloat(s: string): JsNum {
    var negative := s != [] && s[0] == '-';
    var body := if s != [] && (s[0] == '-' || s[0] == '+') then s[1..] else s;
    var n := DigitRun(body);
    var rest := body[n..];
    var fraction := if rest != [] && rest[0] == '.' then rest[1..][..DigitRun(rest[1..])] else [];
    if n == 0 && fraction == [] then NaN
    else
      var magnitude := WholeValue(body[..n]) + FractionValue(fraction);
      Finite(if negative then -magnitude else magnitude)
  }

  /** `parseFloat(value || "0") || 0`: the amount `handleSave` sends. */
  function SaveAmount(value: string): real {
    OrZero(ParseFloat(if value == "" then "0" else value))
  }

  /** Text that does not start with `-` never reads as a negative amount. */
  lemma UnsignedNotNegative(s: string)
    requires s == [] || s[0] != '-'
    ensures SaveAmount(s) >= 0.0
  {
    var t := if s == "" then "0" else s;
    var body := if t[0] == '+' then t[1..] else t;
    var n := DigitRun(body);
    DigitValuesNonNegative(body[..n]);
    var rest := body[n..];
    if rest != [] && rest[0] == '.' {
      DigitValuesNonNegative(rest[1..][..DigitRun(rest[1..])]);
    }
  }

  /** What the field admits never reads as negative: the "cannot be negative" branch is unreachable from typing. */
  lemma AdmittedNotNegative(v: string)
    requires v == "" || MatchesDecimal(v)
    ensures SaveAmount(v) >= 0.0
  {
    if v != [] {
      if AllDigits(v) {
        assert IsDigit(v[0]);
      } else {
        var i :| 0 <= i < |v| && v[i] == '.' && AllDigits(v[..i]) && AllDigits(v[i + 1..]);
        if i > 0 {
          assert v[0] == v[..i][0];
        }
      }
    }
    UnsignedNotNegative(v);
  }

  /** The run of digits is the one that ends at the first character that is not a digit. */
  lemma DigitRunIs(s: string, k: nat)
    requires k <= |s| && AllDigits(s[..k]) && (k < |s| ==> !IsDigit(s[k]))
    ensures DigitRun(s) == k
  {
    var n := DigitRun(s);
    forall j | 0 <= j < k ensures IsDigit(s[j]) {
      assert s[..k][j] == s[j];
    }
    forall j | 0 <= j < n ensures IsDigit(s[j]) {
      assert s[..n][j] == s[j];
    }
  }

  /** Decimal text with a dot is saved as the number it spells; a lone dot saves 0. */
  lemma SavedIsTyped(v: string, i: nat)
    requires i < |v| && v[i] == '.' && AllDigits(v[..i]) && AllDigits(v[i + 1..])
    ensures SaveAmount(v) == WholeValue(v[..i]) + FractionValue(v[i + 1..])
  {
    if i > 0 {
      assert v[0] == v[..i][0];
    }
    DigitRunIs(v, i);
    assert v[i..][1..] == v[i + 1..];
    DigitRunIs(v[i + 1..], |v[i + 1..]|);
    assert v[i + 1..][..|v[i + 1..]|] == v[i + 1..];
  }

  /** A run of digits is saved as the whole number it spells. */
  lemma SavedDigits(v: string)
    requires v != [] && AllDigits(v)
    ensures SaveAmount(v) == WholeValue(v)
  {
    assert IsDigit(v[0]);
    DigitRunIs(v, |v|);
    assert v[..|v|] == v;
  }

  /** The digits of a whole number, most significant first (`String(n)`). */
  function WholeText(n: nat): (s: string)
    ensures s != [] && AllDigits(s)
  {
    var last := ((n % 10) + '0' as nat) as char;
    if n < 10 then [last]
    else
      var init := WholeText(n / 10);
      var s := init + [last];
      assert forall i | 0 <= i < |init| :: s[i] == init[i];
      s
  }

  /** Reading the digits of a whole number gives the number back. */
  lemma {:induction false} WholeTextValue(n: nat)
    ensures WholeValue(WholeText(n)) == n as real
  {
    if n >= 10 {
      WholeTextValue(n / 10);
      var s := WholeText(n);
      assert s[..|s| - 1] == WholeText(n / 10);
    }
  }

  /** A whole-number budget shown in the field is saved unchanged. */
  lemma WholeTextRoundTrip(n: nat)
    ensures MatchesDecimal(WholeText(n))
    ensures SaveAmount(WholeText(n)) == n as real
  {
    SavedDigits(WholeText(n));
    WholeTextValue(n);
  }

  /** What the form's status line says. */
  datatype Status = NoStatus | BudgetSaved | CannotBeNegative | SaveError(text: string)

  /** The outcome of the request that saves the budget. */
  datatype Outcome = Succeeded | Failed(message: string)

  /** The form's state: the field's text and the status line. */
  class BudgetForm {
    var value: string
    var status: Status

    constructor()
      ensures value == "" && status == NoStatus
    {
      value := "";
      status := NoStatus;
    }

    /**
     * The effect on a new `budget`: a budget above 0 is shown (as `shown`,
     * which is `String(budget)`) and reported saved; otherwise both are
     * cleared.
     */
    method SyncFromBudget(budget: Option<real>, shown: string)
      modifies this
      ensures HasBudget(budget) ==> value == shown && status == BudgetSaved
      ensures !HasBudget(budget) ==> value == "" && status == NoStatus
    {
      if budget.Some? && budget.value > 0.0 {
        value := shown;
        status := BudgetSaved;
      } else {
        value := "";
        status := NoStatus;
      }
    }

    /** `handleChange`: an emptied field or decimal text replaces the value; anything else is ignored. */
    method HandleChange(v: string)
      modifies this
      ensures v == "" ==> value == ""
      ensures v != "" && MatchesDecimal(v) ==> value == v
      ensures v != "" && !MatchesDecimal(v) ==> value == old(value)
      ensures status == old(status)
      ensures (old(value) == "" || MatchesDecimal(old(value))) ==> (value == "" || MatchesDecimal(value))
    {
      if v == "" {
        value := "";
        return;
      }
      if !MatchesDecimal(v) {
        return;
      }
      value := v;
    }

    /**
     * `handleSave`: a negative reading is refused with a status and not
     * sent; any other is sent, and the status reports the outcome (the
     * error's message, or a default text when it has none).
     */
    method HandleSave(outcome: Outcome) returns (sent: Option<real>, notified: bool)
      modifies this
      ensures value == old(value)
      ensures SaveAmount(value) < 0.0 ==> sent == None && !notified && status == CannotBeNegative
      ensures SaveAmount(value) >= 0.0 ==>
                && sent == Some(SaveAmount(value)) && (notified <==> outcome.Succeeded?)
                && status == (match outcome
                              case Succeeded => BudgetSaved
                              case Failed(m) => SaveError(if m != "" then m else "Failed to save budget."))
      ensures (value == "" || MatchesDecimal(value)) ==> sent == Some(SaveAmount(value))
    {
      var amount := SaveAmount(value);
      if value == "" || MatchesDecimal(value) {
        AdmittedNotNegative(value);
      }
      if amount < 0.0 {
        status := CannotBeNegative;
        return None, false;
      }
      sent := Some(amount);
      match outcome {
        case Succeeded =>
          status := BudgetSaved;
          notified := true;
        case Failed(m) =>
          status := SaveError(if m != "" then m else "Failed to save budget.");
          notified := false;
      }
    }
  }
}
