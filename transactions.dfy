/**
 * A transaction as the backend returns it, and the readings of its fields
 * that every panel shares: the amount (`Number(t.txnAmount) || 0`), the
 * outflow it represents, and its `YYYY-MM-DD` date string.
 */
module Transactions {
  import opened Wrappers
  import opened JsValues
  import opened Strings

  /** Fields the panels read; a missing field is `None`. */
  datatype Transaction = Transaction(
    txnDate: Option<string>,
    date: Option<string>,
    description: Option<string>,
    subDescription: Option<string>,
    txnAmount: JsNum)

  /** `s || ""`: a missing field reads as the empty string. */
  function OrEmpty(s: Option<string>): string {
    s.GetOr("")
  }

  /** `a || b` on optional strings: `a` unless it is missing or empty. */
  function OrElse(a: Option<string>, b: string): string {
    if a.Some? && a.value != "" then a.value else b
  }

  /** `Number(t.txnAmount) || 0`. */
  function Amount(t: Transaction): real {
    OrZero(t.txnAmount)
  }

  /** Money leaving the account is recorded with a negative amount. */
  predicate IsOutflow(t: Transaction) {
    Amount(t) < 0.0
  }

  /** `Math.abs(amount)` of an outflow, and nothing for any other transaction. */
  function Outflow(t: Transaction): (r: real)
    ensures r >= 0.0
    ensures r > 0.0 <==> IsOutflow(t)
    ensures IsOutflow(t) ==> r + Amount(t) == 0.0
  {
    if Amount(t) < 0.0 then -Amount(t) else 0.0
  }

  /** `(t.txnDate || t.date || "").slice(0, 10)`. */
  function DateStr(t: Transaction): (d: string)
    ensures |d| <= 10
    ensures t.txnDate.Some? && t.txnDate.value != "" ==> StartsWith(t.txnDate.value, d)
    ensures (t.txnDate.None? || t.txnDate.value == "") && t.date.Some? ==> StartsWith(t.date.value, d)
    ensures d == "" <==> (t.txnDate.None? || t.txnDate.value == "") && (t.date.None? || t.date.value == "")
  {
    Take(OrElse(t.txnDate, OrElse(t.date, "")), 10)
  }

  /** `dateStr.slice(0, 7)`: the `YYYY-MM` month of a date string. */
  function MonthKey(d: string): (k: string)
    ensures StartsWith(d, k) && |k| <= 7
    ensures |d| >= 7 ==> |k| == 7
  {
    Take(d, 7)
  }
}
