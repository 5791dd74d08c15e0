/**
 * JavaScript numbers as the panels read them. `Number(x)` of a form value,
 * a stored JSON value or a transaction amount is either a finite number or
 * NaN; money is modelled exactly, as `real`.
 */
module JsValues {

  /** The reading `Number(x)` of some JavaScript value. */
  datatype JsNum = Finite(value: real) | NaN

  /** `Number(x) || 0`: NaN reads as 0, every finite number as itself. */
  function OrZero(n: JsNum): real {
    match n
    case Finite(v) => v
    case NaN => 0.0
  }

  /** `Number.isFinite(n)`. */
  predicate IsFinite(n: JsNum) {
    n.Finite?
  }

  /**
   * What a text field holds: its raw string, and `Number(text)` as supplied
   * by the browser (`Number("")` is 0).
   */
  datatype TextInput = TextInput(text: string, reading: JsNum)

  /** An empty text field. */
  const Blank: TextInput := TextInput("", Finite(0.0))

  /** `Math.max(a, b)` on finite numbers. */
  function Max(a: real, b: real): (m: real)
    ensures m >= a && m >= b && (m == a || m == b)
  {
    if a >= b then a else b
  }

  /** `x > 0 ? part / x * 100 : 0`, the share shown in "% of Total" columns. */
  function Percent(part: real, whole: real): real {
    if whole > 0.0 then part / whole * 100.0 else 0.0
  }

  /** A share is `part` scaled against `whole`, and lies in 0..100 when `part` is a piece of `whole`. */
  lemma PercentOfWhole(part: real, whole: real)
    ensures whole <= 0.0 ==> Percent(part, whole) == 0.0
    ensures whole > 0.0 ==> Percent(part, whole) * whole == part * 100.0
    ensures whole > 0.0 && 0.0 <= part <= whole ==> 0.0 <= Percent(part, whole) <= 100.0
    ensures whole > 0.0 && part > 0.0 ==> Percent(part, whole) > 0.0
  {
    if whole > 0.0 && 0.0 <= part <= whole {
      assert part / whole <= 1.0;
    }
    if whole > 0.0 && part > 0.0 {
      assert part / whole > 0.0;
    }
  }
}
