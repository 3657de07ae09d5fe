# Calculator CLI — a Dafny model

This project models the command-line calculator: an arithmetic library of six
operations (`add`, `subtract`, `multiply`, `divide`, `power`, `factorial`) and
the entry point that coerces the operand strings, dispatches onto the library,
decides which failures become usage errors, and prints the result.

- `calculator.dfy`, module `Calculator`: the library. A Python `int | float`
  is `Number = Int(i) | Float(r)`, with floats as exact reals. The library's two
  exceptions are `Error = DivisionByZero(message) | InvalidArgument(message)`,
  which stand for `ZeroDivisionError` and `ValueError`, and each operation
  returns a `Result`. `add`, `subtract` and `multiply` keep Python's type rule:
  int with int gives an int, anything else gives a float. `divide` always gives
  a float. `power` gives an int only for an int raised to a non-negative int.
  `factorial` is the method `Factorial`, which keeps the source's accumulator
  loop and is proved equal to `FactorialOf`, built on the recursive n! (`Fact`).
- `app.dfy`, module `App`: the entry point. The six operations form a closed
  datatype `Operation`. Python's `int()` and `float()` and the platform's
  `pow` for non-integral exponents are foreign code. They are the fields of a
  `Host` value passed in, and a parser returns `None` where Python raises
  `ValueError`. `Run` is one invocation of `main`. It ends as `Printed`,
  `UsageError` (`parser.error`), `Uncaught` (an exception escapes `main`) or
  `Rejected` (the argument parser refuses the name or an empty operand list).
  `Run`'s operands are the strings the argument parser passes through as
  positional operands.

`main` catches only `ValueError` (app.py:63). `divide` raises
`ZeroDivisionError` (src/calculator.py:74), which is not a `ValueError`, so a
division by zero escapes `main` instead of becoming a usage error. `App.Caught`
turns only `InvalidArgument` into a usage error, and
`App.OnlyDivisionByZeroEscapes` proves that, among the failures this model
represents, a division by zero is the one that escapes. Failures the model does
not represent are listed under "Left out".

## Model

| member | source | states |
|---|---|---|
| Calculator.Add | src/calculator.py:15-31 | the result's value is a+b; it is an int exactly when both operands are ints; it never fails |
| Calculator.Subtract | src/calculator.py:34-44 | the result's value is a−b; int exactly when both are ints; never fails |
| Calculator.Multiply | src/calculator.py:47-57 | the result's value is a·b; int exactly when both are ints; never fails |
| Calculator.Divide | src/calculator.py:60-75 | fails with the division-by-zero kind and its message if and only if the divisor's value is 0; otherwise returns a float q with q·b == a |
| Calculator.Power | src/calculator.py:78-93 | fails with the invalid-argument kind and its message if and only if base == 0 and exponent < 0; an int raised to a non-negative int is the exact int power and is the only int result; a non-integral exponent gives the platform pow's value |
| Calculator.Fact | src/calculator.py:113-116 | n! is at least 1 and at least n |
| Calculator.FactorialOf | src/calculator.py:108-116 | factorial fails with the invalid-argument kind and its message if and only if n < 0; otherwise the result is at least 1 |
| Calculator.Factorial | src/calculator.py:96-116 | the accumulator loop over 2..n returns exactly what FactorialOf says: n! for n ≥ 0, the negative-input error otherwise (loop invariant: accumulator == (i−1)!) |
| Calculator.AddCommutes | src/calculator.py:31 | add(a,b) == add(b,a), type included |
| Calculator.MultiplyCommutes | src/calculator.py:57 | multiply(a,b) == multiply(b,a), type included |
| Calculator.SubtractUndoesAdd | src/calculator.py:31-44 | subtract(add(a,b),b) has a's value, and is a itself for ints |
| Calculator.DivideUndoesMultiply | src/calculator.py:57-75 | for b ≠ 0, divide(multiply(a,b),b) is a as a float |
| Calculator.IntPowAsReal | src/calculator.py:93 | the int power and the real power of the same base and exponent are equal |
| Calculator.PowerOfWholeExponent | src/calculator.py:91-93 | for any whole exponent outside the failure case, power succeeds with value base^exponent (the reciprocal for a negative exponent), whatever the operand types |
| Calculator.PowerOfZeroExponent | tests/test_calculator.py:60-69 | any base to the power 0 succeeds with value 1, 0 ** 0 included |
| Calculator.PowerOfNegatedExponent | src/calculator.py:93 | for a non-zero base, b ** k and b ** −k multiply to 1 |
| Calculator.FactorialRecurrence | tests/test_calculator.py:80-89 | for n > 0, factorial(n) == n · factorial(n−1) |
| Calculator.LibraryExamples | tests/test_calculator.py:20-94 | the library's test values: add(2,3)==5, power(2,3)==8, power(−2,3)==−8, power(4,0.5)==2 (given pow), factorial 0,1,3,5,6 → 1,1,6,120,720, divide(5,0), power(0,−1) and factorial(−1) fail |
| App.OperationNamed | app.py:15 | a name selects an operation if and only if it is one of the six names, and then the operation with that name |
| App.CoerceOperands | app.py:18-35 | succeeds if and only if the count is 1 for factorial or 2 otherwise and every operand parses (as int for factorial, as float otherwise); the result has that length and holds the parsed operands in order; a wrong count fails with the count message; a parse failure fails with "factorial operand must be an integer" or "operands must be numeric"; every failure is the invalid-argument kind |
| App.Truncate | app.py:50 | Python's int(x): an int stays itself, a float is truncated toward zero |
| App.Perform | app.py:38-51 | calls the library function the operation names with the operands in order and returns its result or its error unchanged (factorial on int(operands[0]), so a negative input fails with the library's negative-factorial message); fails if and only if that call is outside its domain; the failure is a division by zero exactly for divide |
| App.Caught | app.py:60-65 | an invalid-argument failure becomes a usage error with its message; a division-by-zero failure is not caught |
| App.Displayed | app.py:67-71 | the printed number has the result's value and is a float only when the result is a float with a fractional part |
| App.Run | app.py:54-71 | for the operand strings the argument parser passes through, the command line is refused before dispatch if and only if the name is not one of the six or there are no operands |
| App.NameRoundTrip | app.py:15 | each operation is selected by its own name and by no other |
| App.OnlyDivisionByZeroEscapes | app.py:60-65 | within the modelled failures, an invocation ends with an uncaught exception if and only if it is `divide` with two numeric operands and a zero divisor; the exception is the division-by-zero error |
| App.UsageErrorIff | app.py:60-65 | for a valid command line, a usage error happens if and only if coercion fails or the library call fails on an operation other than divide |
| App.PrintedIsLibraryResult | app.py:60-71 | a printed value comes from a successful coercion and library call and has that result's value |
| App.WrongCountIsUsageError | app.py:20-29 | a non-empty operand list of the wrong length ends in a usage error carrying the count message |
| App.PrintedExamples | app.py:54-71 | `add 2 3` prints 5 and `power 4 0.5` prints 2 (given pow(4, 0.5) == 2): whole floats are shown as ints |
| App.FailureExamples | app.py:54-71 | `divide 5 0` escapes with the division-by-zero error; `power 0 -1` is a usage error with the library's message; `modulo 5 0` is refused |
| App.FactorialExamples | app.py:54-71 | `factorial 5` prints 120; `factorial -1` is a usage error with the library's message; `factorial 5 -1` is a usage error with the count message |

## Left out

- Argument parsing (`argparse`), `print`, `parser.error` and process exit are I/O and a foreign library. `Run` returns only the kind of ending. `Rejected` carries no message because the argument parser's wording is not modelled.
- App.Run: its operands are the strings the argument parser passes through. The parser also refuses an operand it reads as an option (for example `add 1 -inf` ends with "unrecognized arguments"); that refusal happens before `Run` and is not modelled.
- App.OnlyDivisionByZeroEscapes: two other failures also escape `main` and are not modelled. `print(result)` (app.py:71) runs outside the `try`, so converting an int of more than 4300 digits to text (for example `factorial 2000`) raises an uncaught `ValueError`. A float power too large for a double (for example `power 10 1000`, src/calculator.py:93) raises an uncaught `OverflowError`.
- Python's `int()` and `float()` string parsing (whitespace, `_`, `inf`, `nan`, exponents) is foreign. It is the abstract `Host.parseInt` and `Host.parseFloat`.
- IEEE-754 floating point is left out. Floats are exact reals, so there is no rounding (the `0.1 + 0.2` test), no infinities or NaN, no `-0.0`, and no `OverflowError` from a large float power.
- Calculator.Power: never raises `OverflowError`, because floats are unbounded reals here. Python raises it when a float power exceeds the double range.
- Calculator.Power: a non-integral exponent is computed by the platform's `pow`, which is the parameter `fractionalPow`. Python returns a complex number for a negative base with a fractional exponent, and this model cannot represent that.
- App.Perform: requires as many operands as the operation takes. With another count, Python raises `TypeError` for the five binary operations, while `factorial` reads only `operands[0]`, so it accepts extra operands and raises `IndexError` on an empty tuple. `main` only passes operands that `CoerceOperands` checked, so these cases do not arise there.
- The `Unsupported operation` branch (app.py:51) cannot be reached. `Operation` is closed, and a name outside the six is refused by `OperationNamed`, which makes `Run` return `Rejected`.
- How a non-whole float is printed (Python's `repr`) is left out. `Displayed` gives only the value and its type.
- The test file itself and the `__main__` guard (app.py:74-75) are not part of this model.
