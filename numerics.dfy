/** The numeric vocabulary of the controller: JavaScript's Math.PI, the
    degree/radian conversions of THREE.Math, numbers that may be NaN, and the
    square root and trigonometric functions, which stay uninterpreted. */
module Numerics {

  /** Math.PI, written out as the decimal the double denotes. */
  const Pi: real := 3.141592653589793

  /** A full turn, the factor that maps a screen-sized drag to an angle. */
  const TwoPi: real := 2.0 * Pi

  /** Degrees to radians, degrees * Pi / 180 (Pi written out so that the
      product stays linear for the solver). */
  function DegToRad(degrees: real): real
  {
    degrees * (3.141592653589793 / 180.0)
  }

  /** Radians to degrees; it undoes DegToRad. */
  function RadToDeg(radians: real): (degrees: real)
    ensures DegToRad(degrees) == radians
  {
    radians * (180.0 / 3.141592653589793)
  }

  function Abs(x: real): real
  {
    if x < 0.0 then -x else x
  }

  function Min(a: real, b: real): real
  {
    if a <= b then a else b
  }

  function Max(a: real, b: real): real
  {
    if a >= b then a else b
  }

  /** A record of three reals ({x, y, z} in the source). */
  datatype Vec3 = Vec3(x: real, y: real, z: real)

  /** A JavaScript number that is either finite or NaN. */
  datatype Num = Fin(val: real) | NaN
  {
    /** Addition of a finite offset; NaN absorbs it. */
    function Plus(d: real): Num
    {
      match this
      case Fin(v) => Fin(v + d)
      case NaN => NaN
    }
  }

  /** Math.min on two numbers: NaN when either argument is NaN. */
  function NumMin(a: Num, b: Num): (r: Num)
    ensures r.NaN? <==> a.NaN? || b.NaN?
    ensures r.Fin? ==> r.val <= a.val && r.val <= b.val && (r == a || r == b)
  {
    if a.NaN? || b.NaN? then NaN else Fin(Min(a.val, b.val))
  }

  /** Math.max on two numbers: NaN when either argument is NaN. */
  function NumMax(a: Num, b: Num): (r: Num)
    ensures r.NaN? <==> a.NaN? || b.NaN?
    ensures r.Fin? ==> r.val >= a.val && r.val >= b.val && (r == a || r == b)
  {
    if a.NaN? || b.NaN? then NaN else Fin(Max(a.val, b.val))
  }

  /** Math.sqrt, Math.sin and Math.cos, supplied by the host and left
      uninterpreted; the only thing assumed of them is that a square root
      of a positive number is positive. */
  datatype MathLib = MathLib(sqrt: real -> real, sin: real -> real, cos: real -> real)
  {
    ghost predicate Valid()
    {
      forall x :: 0.0 < x ==> 0.0 < sqrt(x)
    }
  }
}
