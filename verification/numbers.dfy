/** JavaScript numbers as the formulas see them: a finite real or NaN.

    Every arithmetic operation propagates NaN, as IEEE-754 does. The
    floating-point primitives the formulas call (`Math.PI`, `Math.sqrt`,
    `Math.tan`, `Math.sin`) are not given concrete values: a `MathLib`
    carries them as parameters, so every identity proved here holds for
    whatever values they take. */
module Numbers {

  datatype Num = Fin(v: real) | NaN

  /** The primitives of `Math` that the formula library calls. */
  datatype MathLib = MathLib(pi: real, sqrt: real -> real, tan: real -> real, sin: real -> real)

  /** The argument a call site leaves out: JavaScript passes `undefined`,
      and every arithmetic use of `undefined` yields NaN. */
  const Undefined: Num := NaN

  predicate IsNaN(x: Num) {
    x.NaN?
  }

  /** `x > 0` in JavaScript: false for NaN. */
  predicate Positive(x: Num) {
    x.Fin? && x.v > 0.0
  }

  /** `x <= 0` in JavaScript: false for NaN. */
  predicate AtMostZero(x: Num) {
    x.Fin? && x.v <= 0.0
  }

  function Add(a: Num, b: Num): Num {
    if a.Fin? && b.Fin? then Fin(a.v + b.v) else NaN
  }

  function Sub(a: Num, b: Num): Num {
    if a.Fin? && b.Fin? then Fin(a.v - b.v) else NaN
  }

  function Mul(a: Num, b: Num): Num {
    if a.Fin? && b.Fin? then Fin(a.v * b.v) else NaN
  }

  /** Division. A zero divisor yields NaN here; IEEE-754 gives NaN only for
      `0 / 0` and an infinity otherwise, which this two-valued model does
      not represent. */
  function Div(a: Num, b: Num): Num {
    if a.Fin? && b.Fin? && b.v != 0.0 then Fin(a.v / b.v) else NaN
  }

  /** `Math.PI` */
  function Pi(m: MathLib): Num {
    Fin(m.pi)
  }

  /** `Math.sqrt`: NaN for NaN and for every negative argument. */
  function Sqrt(m: MathLib, x: Num): Num {
    if x.Fin? && x.v >= 0.0 then Fin(m.sqrt(x.v)) else NaN
  }

  /** `Math.tan`: finite for every finite argument. */
  function Tan(m: MathLib, x: Num): Num {
    if x.Fin? then Fin(m.tan(x.v)) else NaN
  }

  /** `Math.sin`: finite for every finite argument. */
  function Sin(m: MathLib, x: Num): Num {
    if x.Fin? then Fin(m.sin(x.v)) else NaN
  }
}
