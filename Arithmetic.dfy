/** The calculator's binary operation: a dispatch over the operator symbol shown
    on the key. Symbols it does not recognise, among them the parenthesis keys,
    yield the second operand unchanged. */
module Arithmetic {
  import opened Values

  const PLUS: string := "+"
  const MINUS: string := "-"
  /** The multiplication sign U+00D7. */
  const TIMES: string := "\U{D7}"
  /** The division sign U+00F7. */
  const DIVIDE: string := "\U{F7}"
  /** "x" followed by the superscript y U+02B8. */
  const POWER: string := "x\U{2B8}"
  /** "x" followed by the superscript two U+00B2. */
  const SQUARE: string := "x\U{B2}"
  const PERCENT: string := "%"

  /** The symbols `Calculate` gives a meaning to. */
  const OPERATORS: set<string> := {PLUS, MINUS, TIMES, DIVIDE, SQUARE, POWER, PERCENT}

  /** The operators whose result is computed by exact arithmetic on the operands,
      so that a NaN operand makes the result NaN. */
  const ARITHMETIC_OPERATORS: set<string> := {PLUS, MINUS, TIMES, DIVIDE, PERCENT}

  function Calculate(lib: Numerics, a: Num, b: Num, op: string): (r: Num)
    ensures op == DIVIDE && b == Val(0.0) ==> r == NaN
    ensures op in ARITHMETIC_OPERATORS && (a == NaN || b == NaN) ==> r == NaN
    ensures op == SQUARE ==> r == lib.pow(a, Val(2.0))
    ensures op == POWER ==> r == lib.pow(a, b)
    ensures op !in OPERATORS ==> r == b
    ensures op in ARITHMETIC_OPERATORS && a.Val? && b.Val? && !(op == DIVIDE && b == Val(0.0)) ==> r.Val?
  {
    if op == PLUS then a.Add(b)
    else if op == MINUS then a.Subtract(b)
    else if op == TIMES then a.Multiply(b)
    else if op == DIVIDE then (if b != Val(0.0) then a.Divide(b) else NaN)
    else if op == SQUARE then lib.pow(a, Val(2.0))
    else if op == POWER then lib.pow(a, b)
    else if op == PERCENT then a.Multiply(b).Divide(Val(100.0))
    else b
  }

  /** Squaring does not look at its second operand. */
  lemma SquareIgnoresSecondOperand(lib: Numerics, a: Num, b: Num, b': Num)
    ensures Calculate(lib, a, b, SQUARE) == Calculate(lib, a, b', SQUARE)
  {
  }

  /** Squaring is raising to the power two. */
  lemma SquareIsPowerTwo(lib: Numerics, a: Num, b: Num)
    ensures Calculate(lib, a, b, SQUARE) == Calculate(lib, a, Val(2.0), POWER)
  {
  }

  /** The parenthesis keys fall through to the default case and yield the
      second operand. */
  lemma ParenthesesYieldSecondOperand(lib: Numerics, a: Num, b: Num)
    ensures Calculate(lib, a, b, "(") == b
    ensures Calculate(lib, a, b, ")") == b
  {
  }

  /** Addition and multiplication do not depend on the order of the operands. */
  lemma AddAndMultiplyCommute(lib: Numerics, a: Num, b: Num)
    ensures Calculate(lib, a, b, PLUS) == Calculate(lib, b, a, PLUS)
    ensures Calculate(lib, a, b, TIMES) == Calculate(lib, b, a, TIMES)
  {
  }

  /** On two numbers the arithmetic keys compute the sum, the difference, the
      product, the quotient by a divisor that is not zero, and the product over
      one hundred. */
  lemma ArithmeticOnNumbers(lib: Numerics, x: real, y: real)
    ensures Calculate(lib, Val(x), Val(y), PLUS) == Val(x + y)
    ensures Calculate(lib, Val(x), Val(y), MINUS) == Val(x - y)
    ensures Calculate(lib, Val(x), Val(y), TIMES) == Val(x * y)
    ensures y != 0.0 ==> Calculate(lib, Val(x), Val(y), DIVIDE) == Val(x / y)
    ensures Calculate(lib, Val(x), Val(y), PERCENT) == Val(x * y / 100.0)
  {
  }

  /** Percent is the product of the operands divided by one hundred. */
  lemma PercentIsScaledProduct(lib: Numerics, a: Num, b: Num)
    ensures Calculate(lib, a, b, PERCENT)
         == Calculate(lib, Calculate(lib, a, b, TIMES), Val(100.0), DIVIDE)
  {
  }
}
