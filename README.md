# Calculator keypad model

A Dafny model of the logic behind a browser calculator widget that has a
standard/scientific mode and a function-plotting mode. The view is left out.
What remains is:

- **the keypad state machine** (`Calculator.dfy`, class `Calculator.Calculator`).
  The state is the displayed text, the stored first operand (`previousValue`),
  the pending operator (`operation`), whether the next digit starts a new number
  (`isNewNumber`), the plotted function's text (`expression`) and the mode flag
  (`isGraphMode`). The component's unused `memory` value is kept as a field that
  no handler touches. Each key handler is a method that goes in one atomic step
  from the state before the key press to the state after it. The state setters
  of the user-interface framework do not change the values a handler reads, so
  every handler reads the old state throughout.
- **the binary operation** `calculate` (`Arithmetic.dfy`). It is a dispatch on
  the key's symbol: `+`, `-`, `×`, `÷` (NaN for a zero divisor), `xʸ`, `x²`
  (ignores its second operand) and `%` (product over one hundred). Any other
  symbol, including the parenthesis keys, yields the second operand.
- **the variable substitution** that prepares a plotted function for evaluation
  at a sample point (`Substitution.dfy`). It is a textual replace-all of every
  `x` by the printed number.

Numbers are modelled abstractly as `Num = Val(real) | NaN` (`Values.dfy`).
Addition, subtraction, multiplication and division are exact on real values
and give NaN when either operand is NaN. The floating-point library is not
modelled. This covers `parseFloat`, number printing, `Math.pow`, `Math.sqrt`,
the trigonometric functions in degrees, `Math.log10` and `Math.log`. These are
uninterpreted total functions, bundled in the datatype `Values.Numerics`, and
the calculator holds one as the constant `lib`.

The keypad only ever sends single digits to the digit handler. This is why
`HandleNumber` requires a digit. Operator keys send non-empty symbols, but
`HandleOperator` accepts any string. A stored operation counts as pending only
when it is a non-empty string, as JavaScript's truthiness test on line 103 and
line 127 does.

Invariant (`Calculator.Calculator.Valid`): while a number is being typed
(`isNewNumber` is false), the display starts with a digit and holds only
digits and at most one `.`. A leading `0` is either the whole display or is
followed by the `.`. An operand is stored exactly when an operation is. Every
handler preserves this invariant.

## Model

| member | source | states |
|---|---|---|
| `Calculator.Calculator.constructor` | src/App.tsx:5-11 | initial state: display "0", memory 0, no operand, no operation, a new number expected, empty expression, calculator mode; the invariant holds |
| `Calculator.Calculator.ClearDisplay` | src/App.tsx:72-78 | display "0", operand and operation cleared, new number expected, expression emptied; memory and mode untouched; invariant kept |
| `Calculator.Calculator.HandleNumber` | src/App.tsx:80-87 | a new number becomes exactly the digit; a lone "0" is replaced by the digit; otherwise the digit is appended; afterwards a number is being typed and the display is a well-formed typed number, with no '.' after starting a new number and the old count of '.' otherwise; nothing else changes |
| `Calculator.AppendDigitKeepsNumeral` | src/App.tsx:85 | appending a digit to a typed number other than "0" keeps it well formed and keeps the count of '.' |
| `Calculator.Calculator.HandleDecimal` | src/App.tsx:89-96 | a new number becomes "0."; a display with a '.' is unchanged; otherwise one '.' is appended; afterwards the display holds exactly one '.'; nothing else changes |
| `Calculator.AppendPointKeepsNumeral` | src/App.tsx:93-94 | appending '.' to a typed number without one keeps it well formed, with exactly one '.' |
| `Calculator.Calculator.HandleOperator` | src/App.tsx:98-111 | with no operand stored, the parsed display is stored and the display is unchanged; with an operation pending, its result is stored and shown; the new operator is set and a new number is expected; invariant kept (operand and operation both set) |
| `Calculator.Calculator.HandleEquals` | src/App.tsx:126-135 | with an operand stored and an operation pending, the result is shown, both are cleared and a new number is expected; otherwise the whole state is unchanged; afterwards no operation is pending, and either no operand is stored or nothing changed |
| `Calculator.PressEqualsTwice` | src/App.tsx:126-135 | a second equals press in a row leaves the state exactly as the first press left it |
| `Calculator.ApplySpecialFunction` | src/App.tsx:141-162 | a result exists exactly for the names sqrt, sin, cos, tan, log and ln; each name applies its own library function: square root, sine, cosine and tangent of degrees, base-10 logarithm, natural logarithm |
| `Calculator.Calculator.HandleSpecialFunction` | src/App.tsx:137-166 | a recognised name shows the function of the parsed display and expects a new number, changing nothing else; any other name leaves the whole state unchanged |
| `Calculator.Calculator.HandleGraphMode` | src/App.tsx:168-173 | the mode flips; the expression becomes "x" exactly when entering graph mode, judged from the old flag; the calculator state is untouched |
| `Calculator.ToggleGraphModeTwice` | src/App.tsx:168-173 | two mode toggles restore the mode, set the expression to "x" and leave every other field unchanged |
| `Arithmetic.Calculate` | src/App.tsx:113-124 | ÷ by zero gives NaN; the exact arithmetic operators propagate NaN and give a number for two numbers otherwise; x² is pow(a, 2); xʸ is pow(a, b); any unknown symbol yields b |
| `Arithmetic.SquareIgnoresSecondOperand` | src/App.tsx:119 | x² gives the same result whatever the second operand |
| `Arithmetic.SquareIsPowerTwo` | src/App.tsx:119-120 | x² of a equals xʸ of a and 2 |
| `Arithmetic.ParenthesesYieldSecondOperand` | src/App.tsx:258-264 | the "(" and ")" keys fall through to the default and yield the second operand |
| `Arithmetic.AddAndMultiplyCommute` | src/App.tsx:115-117 | + and × are symmetric in their operands |
| `Arithmetic.ArithmeticOnNumbers` | src/App.tsx:115-121 | on two numbers x and y: + gives x + y, - gives x - y, × gives x * y, ÷ gives x / y for y not zero, % gives x * y / 100 |
| `Arithmetic.PercentIsScaledProduct` | src/App.tsx:121 | % equals the × of the operands, ÷ by 100 |
| `Substitution.ReplaceAll` | src/App.tsx:64 | when the replacement has no c, the result has no c; text without c is returned unchanged; every output character comes from the input or the replacement |
| `Substitution.ReplaceAllConcat` | src/App.tsx:64 | replacement distributes over concatenation |
| `Substitution.ReplaceAllKeepsOrder` | src/App.tsx:64 | the output for a shorter prefix of the input is a prefix of the output for a longer one |
| `Substitution.ReplaceAllStep` | src/App.tsx:64 | the output for the input up to and including character i is the output for the input before it followed by exactly the replacement text if that character is c, and by the character itself otherwise |
| `Substitution.ReplaceAllAt` | src/App.tsx:64 | the same exact step, and in the whole output character i's text (the replacement for c, the character itself otherwise) sits right after the output for the input before it |
| `Substitution.ReplaceAllBySelf` | src/App.tsx:64 | replacing c by c is the identity |
| `Substitution.SubstituteVariable` | src/App.tsx:62-64 | if the printed sample point contains no `x`, no `x` is left in the function's text; a text without `x` is unchanged |

## Left out

- Number representation: `Num` has no infinities, no negative zero and no rounding. Overflow to `Infinity` and division results such as `1/3` printing with rounding are not captured.
- `Arithmetic.ArithmeticOnNumbers` gives the exact real results. JavaScript rounds each result to a double, so laws of exact arithmetic (such as `-` undoing `+`) are not claimed for the source.
- `parseFloat`, number printing, `Math.pow`, `Math.sqrt`, sine, cosine, tangent (of degrees), `Math.log10` and `Math.log` are uninterpreted parameters (`Values.Numerics`). Nothing is proved about their values.
- `Arithmetic.Calculate`: the ÷ test `b !== 0` is modelled as `b != Val(0.0)`, which also covers negative zero because `Num` has no separate negative zero.
- The evaluation of the substituted text is left out. It runs the text as dynamic code, and a failure falls back to 0 (src/App.tsx:65-69). That evaluator has no grammar to model.
- The replacement string of the JavaScript `replace` call would interpret `$` patterns. Printed numbers contain no `$`, so the model uses plain text.
- The plotting routine is left out (src/App.tsx:20-60). It draws axes and the curve on a canvas, sampling x from -10 to 10 in floating-point steps of 0.1.
- The redraw effect that re-plots when the mode or expression changes is left out (src/App.tsx:14-18). It is framework wiring.
- Editing the plotted function in the text field (src/App.tsx:187) only assigns the typed text to `expression`, and it is left out with the rest of the view layer (src/App.tsx:175-321).
- `memory` is kept as a field that no handler reads or writes, as in the component.
