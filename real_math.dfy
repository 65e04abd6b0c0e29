/** Small real-number helpers shared by the derived-metrics calculators and the
    renderer, and the laws assumed of the host's Math.log10 and Math.pow(10, ·).

    The host functions are transcendental and are not defined here: every
    operation that needs one takes it as a function-typed parameter, and the
    lemmas that need a property of it require the corresponding law below. */
module RealMath {

  datatype Option<T> = None | Some(value: T)

  function Abs(x: real): (r: real)
    ensures r >= 0.0 && (r == x || r == -x)
  {
    if x < 0.0 then -x else x
  }

  function Min(a: real, b: real): (r: real)
    ensures r <= a && r <= b && (r == a || r == b)
  {
    if a <= b then a else b
  }

  function Max(a: real, b: real): (r: real)
    ensures r >= a && r >= b && (r == a || r == b)
  {
    if a >= b then a else b
  }

  /** What the models rely on about Math.log10 on positive arguments:
      it maps 10^6 to 6 and is strictly increasing. */
  ghost predicate Log10Laws(log10: real -> real)
  {
    log10(1e6) == 6.0 &&
    forall a: real, b: real :: 0.0 < a < b ==> log10(a) < log10(b)
  }

  /** What the models rely on about x |-> Math.pow(10, x):
      it maps 0 to 1, is positive and is strictly increasing. */
  ghost predicate Pow10Laws(pow10: real -> real)
  {
    pow10(0.0) == 1.0 &&
    (forall a: real :: pow10(a) > 0.0) &&
    (forall a: real, b: real :: a < b ==> pow10(a) < pow10(b))
  }
}
