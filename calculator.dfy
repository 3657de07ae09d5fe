/** The arithmetic library: six operations on Python numbers, each guarding
    its own domain. A Python number is an `int` (unbounded) or a `float`;
    floats are modelled as exact reals. */
module Calculator {

  /** A Python `int | float`. */
  datatype Number = Int(i: int) | Float(r: real) {

    /** The mathematical value, as Python compares it (`2 == 2.0`). */
    function Value(): real {
      match this
      case Int(i) => i as real
      case Float(r) => r
    }

    /** True when the value has no fractional part (`float.is_integer`). */
    predicate IsWhole() {
      Value() == Value().Floor as real
    }
  }

  /** The two exceptions the library raises: `ZeroDivisionError` and `ValueError`. */
  datatype Error = DivisionByZero(message: string) | InvalidArgument(message: string)

  datatype Result<T> = Ok(value: T) | Fail(error: Error)

  const DivisionByZeroMessage: string := "除数不能为 0"
  const ZeroToNegativePowerMessage: string := "0 的负数次幂未定义"
  const NegativeFactorialMessage: string := "阶乘只对非负整数定义"

  /** `a + b`: an int when both operands are ints, a float otherwise. */
  function Add(a: Number, b: Number): (r: Number)
    ensures r.Value() == a.Value() + b.Value()
    ensures r.Int? <==> a.Int? && b.Int?
  {
    if a.Int? && b.Int? then Int(a.i + b.i) else Float(a.Value() + b.Value())
  }

  /** `a - b` */
  function Subtract(a: Number, b: Number): (r: Number)
    ensures r.Value() == a.Value() - b.Value()
    ensures r.Int? <==> a.Int? && b.Int?
  {
    if a.Int? && b.Int? then Int(a.i - b.i) else Float(a.Value() - b.Value())
  }

  /** `a * b` */
  function Multiply(a: Number, b: Number): (r: Number)
    ensures r.Value() == a.Value() * b.Value()
    ensures r.Int? <==> a.Int? && b.Int?
  {
    if a.Int? && b.Int? then Int(a.i * b.i) else Float(a.Value() * b.Value())
  }

  /** `a / b`: true division, so the quotient is always a float; a zero
      divisor (of either type) raises `ZeroDivisionError`. */
  function Divide(a: Number, b: Number): (r: Result<Number>)
    ensures r.Fail? <==> b.Value() == 0.0
    ensures r.Fail? ==> r.error == DivisionByZero(DivisionByZeroMessage)
    ensures r.Ok? ==> r.value.Float? && r.value.Value() * b.Value() == a.Value()
  {
    if b.Value() == 0.0 then Fail(DivisionByZero(DivisionByZeroMessage))
    else Ok(Float(a.Value() / b.Value()))
  }

  /** `b ** k` on ints, for a non-negative exponent. */
  function IntPow(b: int, k: nat): int {
    if k == 0 then 1 else b * IntPow(b, k - 1)
  }

  /** `b ** k` on reals, for a non-negative whole exponent; never zero for a non-zero base. */
  function RealPow(b: real, k: nat): (r: real)
    ensures b != 0.0 ==> r != 0.0
  {
    if k == 0 then 1.0 else b * RealPow(b, k - 1)
  }

  /** `b ** k` for any whole exponent: a negative one is the reciprocal. */
  function WholePow(b: real, k: int): real
    requires b != 0.0 || k >= 0
  {
    if k >= 0 then RealPow(b, k) else 1.0 / RealPow(b, -k)
  }

  /** `base ** exponent`, guarded against zero to a negative power. An int to a
      non-negative int stays an int; every other whole exponent gives a float;
      a non-integral exponent is computed by the platform's `pow`, which is
      passed in as `fractionalPow`. */
  function Power(base: Number, exponent: Number, fractionalPow: (real, real) -> real): (r: Result<Number>)
    ensures r.Fail? <==> base.Value() == 0.0 && exponent.Value() < 0.0
    ensures r.Fail? ==> r.error == InvalidArgument(ZeroToNegativePowerMessage)
    ensures r.Ok? ==> (r.value.Int? <==> base.Int? && exponent.Int? && exponent.i >= 0)
    ensures base.Int? && exponent.Int? && exponent.i >= 0 ==> r == Ok(Int(IntPow(base.i, exponent.i)))
    ensures r.Ok? && !exponent.IsWhole() ==> r == Ok(Float(fractionalPow(base.Value(), exponent.Value())))
  {
    if base.Value() == 0.0 && exponent.Value() < 0.0 then
      Fail(InvalidArgument(ZeroToNegativePowerMessage))
    else if base.Int? && exponent.Int? && exponent.i >= 0 then
      Ok(Int(IntPow(base.i, exponent.i)))
    else if exponent.IsWhole() then
      Ok(Float(WholePow(base.Value(), exponent.Value().Floor)))
    else
      Ok(Float(fractionalPow(base.Value(), exponent.Value())))
  }

  /** n!, by its recursive definition. */
  function Fact(n: nat): (r: nat)
    ensures 1 <= r && n <= r
  {
    if n == 0 then 1 else n * Fact(n - 1)
  }

  /** What `factorial(n)` returns or raises. */
  function FactorialOf(n: int): (r: Result<int>)
    ensures r.Fail? <==> n < 0
    ensures r.Fail? ==> r.error == InvalidArgument(NegativeFactorialMessage)
    ensures r.Ok? ==> r.value >= 1
  {
    if n < 0 then Fail(InvalidArgument(NegativeFactorialMessage)) else Ok(Fact(n))
  }

  /** `factorial(n)`: rejects a negative n, answers 1 for 0 and 1, and otherwise
      multiplies an accumulator by 2, 3, ..., n. */
  method Factorial(n: int) returns (r: Result<int>)
    ensures r == FactorialOf(n)
  {
    if n < 0 {
      return Fail(InvalidArgument(NegativeFactorialMessage));
    }
    if n == 0 || n == 1 {
      return Ok(1);
    }
    var result := 1;
    var i := 2;
    while i <= n
      invariant 2 <= i <= n + 1
      invariant result == Fact(i - 1)
    {
      result := result * i;
      i := i + 1;
    }
    return Ok(result);
  }

  // ---------------------------------------------------------------------
  // Properties of the operations
  // ---------------------------------------------------------------------

  lemma AddCommutes(a: Number, b: Number)
    ensures Add(a, b) == Add(b, a)
  {
  }

  lemma MultiplyCommutes(a: Number, b: Number)
    ensures Multiply(a, b) == Multiply(b, a)
  {
  }

  /** Subtraction undoes addition, exactly on ints and in value on floats. */
  lemma SubtractUndoesAdd(a: Number, b: Number)
    ensures Subtract(Add(a, b), b).Value() == a.Value()
    ensures a.Int? && b.Int? ==> Subtract(Add(a, b), b) == a
  {
  }

  /** Division by a non-zero number undoes multiplication (over the reals). */
  lemma DivideUndoesMultiply(a: Number, b: Number)
    requires b.Value() != 0.0
    ensures Divide(Multiply(a, b), b) == Ok(Float(a.Value()))
  {
    var q := Divide(Multiply(a, b), b);
    assert q.value.Value() * b.Value() == a.Value() * b.Value();
  }

  /** The int and the float computation of a power agree. */
  lemma {:induction false} IntPowAsReal(b: int, k: nat)
    ensures IntPow(b, k) as real == RealPow(b as real, k)
  {
    if k > 0 {
      IntPowAsReal(b, k - 1);
    }
  }

  /** For every whole exponent the result of `power` has the value base^exponent,
      whichever types the operands have. */
  lemma PowerOfWholeExponent(base: Number, exponent: Number, fractionalPow: (real, real) -> real)
    requires exponent.IsWhole()
    requires base.Value() != 0.0 || exponent.Value() >= 0.0
    ensures Power(base, exponent, fractionalPow).Ok?
    ensures Power(base, exponent, fractionalPow).value.Value() == WholePow(base.Value(), exponent.Value().Floor)
  {
    if base.Int? && exponent.Int? && exponent.i >= 0 {
      IntPowAsReal(base.i, exponent.i);
    }
  }

  /** Any number to the power 0 is 1 (including `0 ** 0`). */
  lemma PowerOfZeroExponent(base: Number, exponent: Number, fractionalPow: (real, real) -> real)
    requires exponent.Value() == 0.0
    ensures Power(base, exponent, fractionalPow).Ok?
    ensures Power(base, exponent, fractionalPow).value.Value() == 1.0
  {
  }

  /** A power and the power with the negated exponent are reciprocal. */
  lemma PowerOfNegatedExponent(b: real, k: nat, fractionalPow: (real, real) -> real)
    requires b != 0.0
    ensures Power(Float(b), Float(k as real), fractionalPow).value.Value()
          * Power(Float(b), Float(-(k as real)), fractionalPow).value.Value() == 1.0
  {
    var p := RealPow(b, k);
    assert Power(Float(b), Float(k as real), fractionalPow).value.Value() == p;
    assert Power(Float(b), Float(-(k as real)), fractionalPow).value.Value() == 1.0 / p;
  }

  /** The recurrence n! = n * (n-1)! for positive n. */
  lemma FactorialRecurrence(n: int)
    requires n > 0
    ensures FactorialOf(n).value == n * FactorialOf(n - 1).value
  {
  }

  /** The examples of the library's own test suite. */
  lemma LibraryExamples(fractionalPow: (real, real) -> real)
    requires fractionalPow(4.0, 0.5) == 2.0
    ensures Add(Int(2), Int(3)) == Int(5) && Add(Int(-1), Int(1)) == Int(0)
    ensures Add(Float(1.5), Float(2.5)) == Float(4.0) && Add(Int(2), Float(3.5)) == Float(5.5)
    ensures Subtract(Int(5), Int(3)) == Int(2) && Subtract(Float(10.5), Float(5.5)) == Float(5.0)
    ensures Multiply(Int(-2), Int(3)) == Int(-6) && Multiply(Float(1.5), Int(2)) == Float(3.0)
    ensures Divide(Int(6), Int(2)) == Ok(Float(3.0)) && Divide(Int(5), Int(0)).Fail?
    ensures Power(Int(2), Int(3), fractionalPow) == Ok(Int(8))
    ensures Power(Int(-2), Int(3), fractionalPow) == Ok(Int(-8))
    ensures Power(Int(5), Int(0), fractionalPow) == Ok(Int(1))
    ensures Power(Int(10), Int(2), fractionalPow) == Ok(Int(100))
    ensures Power(Int(4), Float(0.5), fractionalPow) == Ok(Float(2.0))
    ensures Power(Int(0), Int(-1), fractionalPow) == Fail(InvalidArgument(ZeroToNegativePowerMessage))
    ensures FactorialOf(0) == Ok(1) && FactorialOf(1) == Ok(1) && FactorialOf(3) == Ok(6)
    ensures FactorialOf(5) == Ok(120) && FactorialOf(6) == Ok(720)
    ensures FactorialOf(-1) == Fail(InvalidArgument(NegativeFactorialMessage))
  {
  }
}
