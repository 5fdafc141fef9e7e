/**
 * The two pure steps of a POST: the positivity check on `height` and
 * `weight`, evaluated with Python's short-circuit and comparison rules, and
 * the body-mass index `round(weight / (height * height), 2)`.
 */
module Imc {

  import opened Wrappers
  import opened PyValues

  /** True when `x` has at most two decimal places. */
  predicate OnCentGrid(x: real) {
    (x * 100.0).Floor as real == x * 100.0
  }

  /** The integer nearest to `x`; a tie goes to the even neighbour, as Python's `round` does. */
  function RoundHalfEven(x: real): (n: int)
    ensures x - 0.5 <= n as real <= x + 0.5
    ensures x.Floor as real == x ==> n as real == x
    ensures x - x.Floor as real == 0.5 ==> n % 2 == 0
  {
    var f := x.Floor;
    var frac := x - f as real;
    if frac < 0.5 then f
    else if frac > 0.5 then f + 1
    else if f % 2 == 0 then f
    else f + 1
  }

  /** `round(x, 2)` on exact reals. */
  function Round2(x: real): (r: real)
    ensures OnCentGrid(r)
    ensures x - 0.005 <= r <= x + 0.005
    ensures OnCentGrid(x) ==> r == x
    ensures x * 100.0 - (x * 100.0).Floor as real == 0.5 ==> (r * 100.0).Floor % 2 == 0
  {
    var n := RoundHalfEven(x * 100.0);
    assert (n as real / 100.0) * 100.0 == n as real;
    n as real / 100.0
  }

  /**
   * `calculate_imc(height, weight)`; None when Python raises
   * ZeroDivisionError, which the handler never lets happen.
   */
  function CalculateImc(height: real, weight: real): (imc: Option<real>)
    ensures imc.None? <==> height == 0.0
    ensures imc.Some? ==> OnCentGrid(imc.value)
    ensures imc.Some? ==> weight / (height * height) - 0.005 <= imc.value <= weight / (height * height) + 0.005
  {
    if height == 0.0 then None else Some(Round2(weight / (height * height)))
  }

  /** A height of 1.75 m and a weight of 70 kg give an index of 22.86. */
  lemma CalculateImcExample()
    ensures CalculateImc(1.75, 70.0) == Some(22.86)
  {
  }

  /** The outcome of `if not height or not weight or height <= 0 or weight <= 0`. */
  datatype Verdict =
    | Accepted(height: real, weight: real)  // the test is False: both values go on to the computation
    | Rejected                              // the test is True: 400
    | Raises                                // a `<= 0` raised TypeError: 500

  /** The positivity check, evaluated left to right with short-circuit. */
  function Validate(height: Json, weight: Json): (r: Verdict)
    ensures r.Accepted? <==> IsPositive(height) && IsPositive(weight)
    ensures r.Accepted? ==> r.height == NumberValue(height) && r.weight == NumberValue(weight)
    ensures r.Raises? <==>
      Truthy(height) && Truthy(weight) && (!IsNumber(height) || (IsPositive(height) && !IsNumber(weight)))
    ensures r.Rejected? <==>
      || !Truthy(height)
      || !Truthy(weight)
      || (IsNumber(height) && NumberValue(height) <= 0.0)
      || (IsPositive(height) && IsNumber(weight) && NumberValue(weight) <= 0.0)
  {
    if !Truthy(height) || !Truthy(weight) then Rejected
    else
      match AtMostZero(height)
      case None => Raises
      case Some(true) => Rejected
      case Some(false) =>
        match AtMostZero(weight)
        case None => Raises
        case Some(true) => Rejected
        case Some(false) => Accepted(NumberValue(height), NumberValue(weight))
  }

}
