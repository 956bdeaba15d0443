/** Real-number stand-ins for the parts of Python's math module the viewer uses.

    The transcendental functions are not modelled numerically: they are carried in a
    `MathLib` record of function values that every geometric operation takes as a
    parameter, so each property proved holds for every choice of `tan`, `sqrt`, ...
    Only the few algebraic laws a proof needs are stated, as predicates on the record. */
module RealMath {

  /** The double-precision value of Python's `math.pi`. */
  const Pi: real := 3.141592653589793

  /** The library functions the source calls (`math.tan`, `math.atan2`, `math.sin`,
      `math.cos`, `math.sqrt`, `math.asin`), as uninterpreted real functions. */
  datatype MathLib = MathLib(
    sqrt: real -> real,
    tan: real -> real,
    atan2: (real, real) -> real,
    sin: real -> real,
    cos: real -> real,
    asin: real -> real)

  /** The laws of the square root used by the normalisation proofs. */
  ghost predicate SqrtLaws(m: MathLib)
  {
    && m.sqrt(0.0) == 0.0
    && forall x :: 0.0 <= x ==> 0.0 <= m.sqrt(x) && m.sqrt(x) * m.sqrt(x) == x
  }

  /** `math.radians`. */
  function Radians(deg: real): (rad: real)
    ensures rad * 180.0 == deg * Pi
  {
    deg * Pi / 180.0
  }

  /** `numpy.degrees`: the inverse of `Radians`. */
  function Degrees(rad: real): (deg: real)
    ensures Radians(deg) == rad
  {
    rad * 180.0 / Pi
  }

  /** `int(d)`: truncation toward zero. */
  function Trunc(d: real): (i: int)
    ensures 0.0 <= d ==> i as real <= d < i as real + 1.0
    ensures d < 0.0 ==> i as real - 1.0 < d <= i as real
  {
    if 0.0 <= d then d.Floor else -((-d).Floor)
  }
}
