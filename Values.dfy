/** Values the calculator works with: numbers as the keypad logic sees them, a
    nullable wrapper for the state that starts out as `null`, and the floating-point
    library (parsing, printing, powers, roots, trigonometry, logarithms) that the
    keypad calls but whose numerics are not modelled. */
module Values {

  /** A nullable value, for the state fields that hold `null` until set. */
  datatype Option<T> = None | Some(value: T)

  /** A JavaScript number, abstracted to an exact real value or NaN.
      Arithmetic on two real values is exact; any NaN operand yields NaN. */
  datatype Num = Val(r: real) | NaN {

    function Add(that: Num): Num {
      if Val? && that.Val? then Val(r + that.r) else NaN
    }

    function Subtract(that: Num): Num {
      if Val? && that.Val? then Val(r - that.r) else NaN
    }

    function Multiply(that: Num): Num {
      if Val? && that.Val? then Val(r * that.r) else NaN
    }

    /** Division by a divisor that is not zero (a NaN divisor is not zero). */
    function Divide(that: Num): Num
      requires that != Val(0.0)
    {
      if Val? && that.Val? then Val(r / that.r) else NaN
    }
  }

  /** The floating-point services the keypad relies on, left uninterpreted:
      `parseFloat`, `Number.prototype.toString`, `Math.pow`, `Math.sqrt`, the
      sine, cosine and tangent of an angle in degrees, `Math.log10` and `Math.log`. */
  datatype Numerics = Numerics(
    parseFloat: string -> Num,
    toText: Num -> string,
    pow: (Num, Num) -> Num,
    sqrt: Num -> Num,
    sinDegrees: Num -> Num,
    cosDegrees: Num -> Num,
    tanDegrees: Num -> Num,
    log10: Num -> Num,
    ln: Num -> Num)
}
