/**
 * The self-employed "Income & Adaptive Budget" panel: a list of income rows
 * (remembered per user), their total, and the budget of 70% of that total
 * that the panel saves for the user.
 */
module IncomePanel {
  import opened Wrappers
  import opened JsValues
  import opened StableSort

  /** A row's `amount`: `""`, or a value whose `Number(amount)` is `reading`. */
  datatype RowAmount = Empty | Num(reading: JsNum)

  /** `{ id, source, amount }`. */
  datatype Row = Row(id: int, source: string, amount: RowAmount)

  /** `{ id: 1, source: "", amount: "" }`. */
  const DefaultRow: Row := Row(1, "", Empty)

  /**
   * What `localStorage.getItem("incomeSources_<userId>")` yields once read:
   * nothing (no item, an empty item, or no window), text that is not JSON,
   * JSON that is not an array, or an array of rows.
   */
  datatype Stored = Missing | Unparsable | NotAnArray | RowArray(rows: seq<Row>)

  /** `makeInitialRows`: a stored non-empty array as it is, otherwise the single default row. */
  function InitialRows(stored: Stored): (rows: seq<Row>)
    ensures rows != []
    ensures stored.RowArray? && stored.rows != [] ==> rows == stored.rows
    ensures !(stored.RowArray? && stored.rows != []) ==> rows == [DefaultRow]
  {
    match stored
    case RowArray(rs) => if |rs| > 0 then rs else [DefaultRow]
    case _ => [DefaultRow]
  }

  /** `Number(r.amount) || 0`, with `Number("")` being 0. */
  function AmountOf(r: Row): real {
    match r.amount
    case Empty => 0.0
    case Num(n) => OrZero(n)
  }

  /** `rows.reduce((sum, r) => sum + (Number(r.amount) || 0), 0)`. */
  function TotalIncome(rows: seq<Row>): real {
    if rows == [] then 0.0 else TotalIncome(rows[..|rows| - 1]) + AmountOf(rows[|rows| - 1])
  }

  /** `BUDGET_PERCENT`. */
  const BudgetPercent: real := 0.7

  /** `totalIncome * BUDGET_PERCENT`. */
  function SuggestedBudget(rows: seq<Row>): real {
    TotalIncome(rows) * BudgetPercent
  }

  /** A positive income gives a positive budget below it; none gives none. */
  lemma SuggestedBudgetBounds(rows: seq<Row>)
    ensures TotalIncome(rows) > 0.0 ==> 0.0 < SuggestedBudget(rows) < TotalIncome(rows)
    ensures TotalIncome(rows) == 0.0 ==> SuggestedBudget(rows) == 0.0
  {
  }

  /** No row reads as a negative amount. */
  predicate NonNegative(rows: seq<Row>) {
    forall i | 0 <= i < |rows| :: AmountOf(rows[i]) >= 0.0
  }

  /** Rows that never read negative have a total of at least 0, and at least any one of their amounts. */
  lemma {:induction false} TotalOfNonNegative(rows: seq<Row>)
    requires NonNegative(rows)
    ensures TotalIncome(rows) >= 0.0
    ensures forall i | 0 <= i < |rows| :: AmountOf(rows[i]) <= TotalIncome(rows)
  {
    if rows != [] {
      var prefix := rows[..|rows| - 1];
      assert NonNegative(prefix);
      TotalOfNonNegative(prefix);
    }
  }

  /** The two kinds of edit `handleRowChange` receives: the source text or the amount input. */
  datatype Edit = SetSource(text: string) | SetAmount(input: TextInput)

  /** `""` for an emptied amount input, otherwise `Math.max(0, Number(value) || 0)`. */
  function EditedAmount(input: TextInput): (a: RowAmount)
    ensures a.Empty? <==> input.text == ""
    ensures a.Num? ==> a.reading.Finite? && a.reading.value >= 0.0
    ensures a.Num? && OrZero(input.reading) >= 0.0 ==> a.reading.value == OrZero(input.reading)
    ensures a.Num? && OrZero(input.reading) < 0.0 ==> a.reading.value == 0.0
  {
    if input.text == "" then Empty else Num(Finite(Max(0.0, OrZero(input.reading))))
  }

  /** `{ ...r, [field]: ... }`. */
  function ApplyEdit(r: Row, edit: Edit): Row {
    match edit
    case SetSource(text) => r.(source := text)
    case SetAmount(input) => r.(amount := EditedAmount(input))
  }

  /** `prev.map((r) => r.id === id ? { ...r, [field]: ... } : r)`. */
  function Edited(rows: seq<Row>, id: int, edit: Edit): (rs: seq<Row>)
    ensures |rs| == |rows|
    ensures forall i | 0 <= i < |rows| :: rs[i].id == rows[i].id
    ensures forall i | 0 <= i < |rows| && rows[i].id != id :: rs[i] == rows[i]
    ensures forall i | 0 <= i < |rows| && rows[i].id == id ::
              match edit
              case SetSource(text) => rs[i].source == text && rs[i].amount == rows[i].amount
              case SetAmount(input) => rs[i].amount == EditedAmount(input) && rs[i].source == rows[i].source
  {
    if rows == [] then []
    else [if rows[0].id == id then ApplyEdit(rows[0], edit) else rows[0]] + Edited(rows[1..], id, edit)
  }

  /** An edit never makes an amount negative. */
  lemma EditKeepsNonNegative(rows: seq<Row>, id: int, edit: Edit)
    requires NonNegative(rows)
    ensures NonNegative(Edited(rows, id, edit))
  {
    var rs := Edited(rows, id, edit);
    forall i | 0 <= i < |rs| ensures AmountOf(rs[i]) >= 0.0 {
      if rows[i].id == id && edit.SetAmount? {
        assert rs[i].amount == EditedAmount(edit.input);
      }
    }
  }

  /** Retyping a source leaves the total as it was. */
  lemma {:induction false} SourceEditKeepsTotal(rows: seq<Row>, id: int, text: string)
    ensures TotalIncome(Edited(rows, id, SetSource(text))) == TotalIncome(rows)
  {
    if rows != [] {
      var first := if rows[0].id == id then ApplyEdit(rows[0], SetSource(text)) else rows[0];
      var rest := Edited(rows[1..], id, SetSource(text));
      assert Edited(rows, id, SetSource(text)) == [first] + rest;
      assert AmountOf(first) == AmountOf(rows[0]);
      SourceEditKeepsTotal(rows[1..], id, text);
      FirstThenTotal(rest, first);
      FirstThenTotal(rows[1..], rows[0]);
      assert rows == [rows[0]] + rows[1..];
    }
  }

  /** `(r) => r.id !== id`. */
  function OtherId(id: int): Row -> bool {
    (r: Row) => r.id != id
  }

  /** `prev.filter((r) => r.id !== id)`. */
  function Without(rows: seq<Row>, id: int): (rs: seq<Row>)
    ensures forall r | r in rs :: r in rows && r.id != id
    ensures forall r | r in rows && r.id != id :: r in rs
    ensures |rs| <= |rows|
    ensures forall r :: multiset(rs)[r] == if r.id != id then multiset(rows)[r] else 0
  {
    forall r ensures multiset(Filter(rows, OtherId(id)))[r] == if r.id != id then multiset(rows)[r] else 0 {
      FilterCounts(rows, OtherId(id), r);
    }
    Filter(rows, OtherId(id))
  }

  /** Removing rows keeps the others in their order. */
  lemma RemoveKeepsOrder(rows: seq<Row>, id: int, a: Row, b: Row)
    requires Before(Without(rows, id), a, b)
    ensures Before(rows, a, b)
  {
    FilterKeepsOrder(rows, OtherId(id), a, b);
  }

  /** Removing rows takes exactly their amounts out of the total. */
  lemma {:induction false} RemoveTakesOutAmounts(rows: seq<Row>, id: int)
    ensures TotalIncome(Without(rows, id)) == TotalIncome(rows) - TotalIncome(Only(rows, id))
  {
    if rows != [] {
      RemoveTakesOutAmounts(rows[1..], id);
      FirstThenTotal(Without(rows[1..], id), rows[0]);
      FirstThenTotal(Only(rows[1..], id), rows[0]);
      FirstThenTotal(rows[1..], rows[0]);
      assert rows == [rows[0]] + rows[1..];
    }
  }

  /** `prev.filter((r) => r.id === id)`: the rows a removal takes out. */
  function Only(rows: seq<Row>, id: int): (rs: seq<Row>)
    ensures forall r | r in rs :: r in rows && r.id == id
  {
    if rows == [] then []
    else if rows[0].id == id then [rows[0]] + Only(rows[1..], id)
    else Only(rows[1..], id)
  }

  /** The reduce read from the front: the first row's amount plus the rest. */
  lemma {:induction false} FirstThenTotal(rows: seq<Row>, r: Row)
    ensures TotalIncome([r] + rows) == AmountOf(r) + TotalIncome(rows)
    decreases |rows|
  {
    if rows != [] {
      var prefix := rows[..|rows| - 1];
      assert ([r] + rows)[..|rows|] == [r] + prefix;
      FirstThenTotal(prefix, r);
    }
  }

  /** What the panel's message line says. */
  datatype Message = NoMessage | NeedPositiveIncome | BudgetSet(amount: real) | SaveFailed

  /** The panel's state: the rows and the message. */
  class IncomeForm {
    var rows: seq<Row>
    var message: Message

    /** `useState(() => makeInitialRows(user.userId))` and an empty message. */
    constructor(stored: Stored)
      ensures rows == InitialRows(stored) && message == NoMessage
    {
      rows := InitialRows(stored);
      message := NoMessage;
    }

    /** The effect on a new user or a reset: the rows are read again from storage, the message cleared. */
    method Reload(stored: Stored)
      modifies this
      ensures rows == InitialRows(stored) && rows != [] && message == NoMessage
    {
      rows := InitialRows(stored);
      message := NoMessage;
    }

    /** `handleRowChange`: the rows with that id take the edit, and the message is cleared. */
    method ChangeRow(id: int, edit: Edit)
      modifies this
      ensures rows == Edited(old(rows), id, edit) && message == NoMessage
      ensures NonNegative(old(rows)) ==> NonNegative(rows)
    {
      if NonNegative(rows) {
        EditKeepsNonNegative(rows, id, edit);
      }
      rows := Edited(rows, id, edit);
      message := NoMessage;
    }

    /** `addRow`: one empty row with the new id goes last, adding nothing to the total. */
    method AddRow(freshId: int)
      modifies this
      ensures rows == old(rows) + [Row(freshId, "", Empty)] && message == old(message)
      ensures TotalIncome(rows) == TotalIncome(old(rows))
      ensures NonNegative(old(rows)) ==> NonNegative(rows)
    {
      rows := rows + [Row(freshId, "", Empty)];
      assert rows[..|rows| - 1] == old(rows);
    }

    /** `removeRow`: the rows with that id go, taking their amounts out of the total. */
    method RemoveRow(id: int)
      modifies this
      ensures rows == Without(old(rows), id) && message == old(message)
      ensures TotalIncome(rows) == TotalIncome(old(rows)) - TotalIncome(Only(old(rows), id))
    {
      RemoveTakesOutAmounts(rows, id);
      rows := Without(rows, id);
    }

    /**
     * `applyBudget`. Without a total income above 0 it only asks for one and
     * sends nothing; otherwise it sends 70% of the total, and the message
     * reports that budget or the failure (`saveSucceeds` is the outcome of
     * the request). `notified` is whether `onBudgetUpdated` was called.
     */
    method ApplyBudget(saveSucceeds: bool) returns (sent: Option<real>, notified: bool)
      modifies this
      ensures rows == old(rows)
      ensures TotalIncome(rows) <= 0.0 ==> sent == None && !notified && message == NeedPositiveIncome
      ensures TotalIncome(rows) > 0.0 ==>
                && sent == Some(SuggestedBudget(rows)) && 0.0 < sent.value < TotalIncome(rows)
                && notified == saveSucceeds
                && message == (if saveSucceeds then BudgetSet(sent.value) else SaveFailed)
    {
      var totalIncome := TotalIncome(rows);
      if totalIncome <= 0.0 {
        message := NeedPositiveIncome;
        return None, false;
      }
      var suggested := totalIncome * BudgetPercent;
      sent := Some(suggested);
      if saveSucceeds {
        message := BudgetSet(suggested);
        notified := true;
      } else {
        message := SaveFailed;
        notified := false;
      }
    }
  }
}
