/** The part of Python's `math` module the solvers use.  The transcendental
    functions are not defined here: a solver receives them as a `Math` value, so
    every property proved holds for any choice of them. */
module Numerics {
  import opened Outcomes

  datatype Math = Math(
    sin: real -> real,
    cos: real -> real,
    tan: real -> real,
    asin: real -> real,
    acos: real -> real,
    atan: real -> real,
    atan2: (real, real) -> real,
    sqrt: real -> real)

  /** `math.pi`, the nearest double to pi, written out in decimal. */
  const Pi: real := 3.141592653589793

  function Abs(x: real): (r: real)
    ensures r >= 0.0 && (r == x || r == -x)
  {
    if x < 0.0 then -x else x
  }

  /** `math.radians`: x times pi/180. */
  function Radians(x: real): real { x * (Pi / 180.0) }

  /** `math.degrees`: x times 180/pi. */
  function Degrees(x: real): real { x * (180.0 / Pi) }

  lemma RadiansDegrees(y: real)
    ensures Radians(Degrees(y)) == y && Degrees(Radians(y)) == y
  {
    calc {
      Radians(Degrees(y));
      y * (180.0 / Pi) * (Pi / 180.0);
      y * ((180.0 / Pi) * (Pi / 180.0));
      y;
    }
    calc {
      Degrees(Radians(y));
      y * (Pi / 180.0) * (180.0 / Pi);
      y * ((Pi / 180.0) * (180.0 / Pi));
      y;
    }
  }

  /** `math.sqrt`, which raises ValueError below zero. */
  function Sqrt(m: Math, x: real): (r: Result<real>)
    ensures r.Ok? <==> x >= 0.0
    ensures r.Ok? ==> r.value == m.sqrt(x)
    ensures r.Err? ==> r.error == MathDomainError
  {
    if x < 0.0 then Err(MathDomainError) else Ok(m.sqrt(x))
  }

  /** `math.asin`, which raises ValueError outside [-1, 1]. */
  function Asin(m: Math, x: real): (r: Result<real>)
    ensures r.Ok? <==> -1.0 <= x <= 1.0
    ensures r.Ok? ==> r.value == m.asin(x)
    ensures r.Err? ==> r.error == MathDomainError
  {
    if -1.0 <= x <= 1.0 then Ok(m.asin(x)) else Err(MathDomainError)
  }

  /** Python's `/` on floats: a zero divisor raises ZeroDivisionError. */
  function Div(x: real, y: real): (r: Result<real>)
    ensures r.Ok? <==> y != 0.0
    ensures r.Ok? ==> r.value * y == x && r.value == x / y
    ensures r.Err? ==> r.error == ZeroDivisionError
  {
    if y == 0.0 then Err(ZeroDivisionError) else Ok(x / y)
  }
}
