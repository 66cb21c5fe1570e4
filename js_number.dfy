/** The JavaScript numbers the component handles. */
module JsNumber {

  /**
   * A JavaScript number: `NaN` (what the media element reports before it
   * knows a duration) or a finite value. Infinities, negative zero and
   * IEEE-754 rounding are not modelled; finite values are exact reals.
   */
  datatype Num = NaN | Finite(value: real)

  /** JavaScript `*`: NaN if either operand is NaN. */
  function Mul(a: Num, b: Num): (r: Num)
    ensures r.NaN? <==> a.NaN? || b.NaN?
  {
    if a.NaN? || b.NaN? then NaN else Finite(a.value * b.value)
  }
}
