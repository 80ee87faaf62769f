/**
 * Numbers of the trading runtime.
 *
 * A double is modelled by its exact real value plus the three values that the
 * code's `is_finite` tests and NaN-ignoring `min`/`max` can tell apart.
 * Arithmetic on finite values is exact.
 */
module Floats {

  datatype Float = Finite(value: real) | PosInf | NegInf | NaN

  /** The 1e-9 tolerance shared by ledger, inventory, lane position and sizing. */
  const TOLERANCE: real := 0.000000001

  /** `f64::EPSILON`, two to the power of minus fifty-two. */
  const EPSILON: real := 1.0 / 4503599627370496.0

  function RMin(a: real, b: real): real { if a <= b then a else b }

  function RMax(a: real, b: real): real { if a <= b then b else a }

  function RAbs(a: real): real { if a < 0.0 then -a else a }

  /** The IEEE `<=`: false as soon as one side is NaN. */
  predicate Le(a: Float, b: Float) {
    match (a, b)
    case (NaN, _) => false
    case (_, NaN) => false
    case (NegInf, _) => true
    case (_, PosInf) => true
    case (Finite(x), Finite(y)) => x <= y
    case _ => false
  }

  /** `f64::min`, which ignores a NaN operand. */
  function FMin(a: Float, b: Float): Float {
    if a.NaN? then b else if b.NaN? then a else if Le(a, b) then a else b
  }

  /** `f64::max`, which ignores a NaN operand. */
  function FMax(a: Float, b: Float): Float {
    if a.NaN? then b else if b.NaN? then a else if Le(a, b) then b else a
  }

  /** Non-finite and non-positive amounts count as zero. */
  function Sanitize(x: Float): (r: real)
    ensures r >= 0.0
    ensures r > 0.0 <==> x.Finite? && x.value > 0.0
  {
    if x.Finite? && x.value > 0.0 then x.value else 0.0
  }

  /** Notional value of a position; quantities within the tolerance are worth nothing. */
  function Notional(quantity: Float, price: Float): (r: real)
    ensures quantity.Finite? && quantity.value <= TOLERANCE ==> r == 0.0
  {
    if quantity.Finite? && quantity.value > TOLERANCE && price.Finite?
    then quantity.value * price.value
    else 0.0
  }
}
