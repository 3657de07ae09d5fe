/** The command-line entry point: operand coercion, dispatch onto the
    arithmetic library, the decision of which failures become usage errors,
    and the display rule for whole floats. Argument parsing, printing and
    process exit are I/O and are left to the caller; Python's `int()` and
    `float()` are the foreign parsers of a `Host`. */
module App {
  import opened Calculator

  datatype Option<T> = None | Some(value: T)

  /** The six operations of the command line. Their constructors share the
      library functions' names, so those functions are called qualified. */
  datatype Operation = Add | Subtract | Multiply | Divide | Power | Factorial

  /** The foreign pieces the program relies on: Python's `int(s)` and
      `float(s)` (None where they raise `ValueError`) and the platform's
      `pow` for a non-integral exponent. */
  datatype Host = Host(
    parseInt: string -> Option<int>,
    parseFloat: string -> Option<real>,
    fractionalPow: (real, real) -> real)

  /** The accepted operation names, in the order the parser lists them. */
  const Operations: seq<string> := ["add", "subtract", "multiply", "divide", "power", "factorial"]

  const FactorialCountMessage: string := "factorial requires exactly one operand"
  const FactorialOperandMessage: string := "factorial operand must be an integer"
  const NumericOperandsMessage: string := "operands must be numeric"

  function Name(op: Operation): string {
    match op
    case Add => "add"
    case Subtract => "subtract"
    case Multiply => "multiply"
    case Divide => "divide"
    case Power => "power"
    case Factorial => "factorial"
  }

  /** The operation a command-line name selects; any other name is refused. */
  function OperationNamed(name: string): (r: Option<Operation>)
    ensures r.Some? <==> name in Operations
    ensures r.Some? ==> Name(r.value) == name
  {
    if name == "add" then Some(Add)
    else if name == "subtract" then Some(Subtract)
    else if name == "multiply" then Some(Multiply)
    else if name == "divide" then Some(Divide)
    else if name == "power" then Some(Power)
    else if name == "factorial" then Some(Factorial)
    else None
  }

  /** The number of operands an operation takes. */
  function Arity(op: Operation): nat {
    if op == Factorial then 1 else 2
  }

  /** The message for a wrong number of operands. */
  function CountMessage(op: Operation): string {
    if op == Factorial then FactorialCountMessage else Name(op) + " requires exactly two operands"
  }

  /** Whether one operand string parses for `op`: as an int for factorial, as a float otherwise. */
  predicate Parses(op: Operation, s: string, host: Host) {
    if op == Factorial then host.parseInt(s).Some? else host.parseFloat(s).Some?
  }

  /** The number one operand string stands for, once it parses. */
  function ParsedOperand(op: Operation, s: string, host: Host): Number
    requires Parses(op, s, host)
  {
    if op == Factorial then Int(host.parseInt(s).value)
    else Float(host.parseFloat(s).value)
  }

  /** `_coerce_operands`: checks the operand count first, then parses every
      operand; any failure is a `ValueError` and no partial tuple is returned. */
  function CoerceOperands(op: Operation, values: seq<string>, host: Host): (r: Result<seq<Number>>)
    ensures r.Fail? ==> r.error.InvalidArgument?
    ensures r.Ok? <==> |values| == Arity(op) && forall k :: 0 <= k < |values| ==> Parses(op, values[k], host)
    ensures r.Ok? ==> |r.value| == |values|
    ensures r.Ok? ==> forall k :: 0 <= k < |values| ==> r.value[k] == ParsedOperand(op, values[k], host)
    ensures |values| != Arity(op) ==> r == Fail(InvalidArgument(CountMessage(op)))
    ensures |values| == Arity(op) && r.Fail? ==>
      r.error.message == if op == Factorial then FactorialOperandMessage else NumericOperandsMessage
  {
    if op == Factorial then
      if |values| != 1 then Fail(InvalidArgument(CountMessage(op)))
      else match host.parseInt(values[0])
        case None => Fail(InvalidArgument(FactorialOperandMessage))
        case Some(n) => Ok([Int(n)])
    else if |values| != 2 then Fail(InvalidArgument(CountMessage(op)))
    else match (host.parseFloat(values[0]), host.parseFloat(values[1]))
      case (Some(x), Some(y)) => Ok([Float(x), Float(y)])
      case _ => Fail(InvalidArgument(NumericOperandsMessage))
  }

  /** Python's `int(x)`: truncation toward zero. */
  function Truncate(x: Number): (k: int)
    ensures x.Int? ==> k == x.i
    ensures 0.0 <= x.Value() ==> k as real <= x.Value() < k as real + 1.0
    ensures x.Value() < 0.0 ==> k as real - 1.0 < x.Value() <= k as real
  {
    match x
    case Int(i) => i
    case Float(r) => if r >= 0.0 then r.Floor else -((-r).Floor)
  }

  /** Whether the library call for `op` fails on these operands. */
  predicate OutsideDomain(op: Operation, operands: seq<Number>)
    requires |operands| == Arity(op)
  {
    match op
    case Divide => operands[1].Value() == 0.0
    case Power => operands[0].Value() == 0.0 && operands[1].Value() < 0.0
    case Factorial => Truncate(operands[0]) < 0
    case _ => false
  }

  /** `_perform`: calls the library function the operation names, with the
      operands in order; factorial takes `int(operands[0])`. */
  function Perform(op: Operation, operands: seq<Number>, fractionalPow: (real, real) -> real): (r: Result<Number>)
    requires |operands| == Arity(op)
    ensures r.Fail? <==> OutsideDomain(op, operands)
    ensures r.Fail? ==> (r.error.DivisionByZero? <==> op == Divide)
    ensures op == Add ==> r == Ok(Calculator.Add(operands[0], operands[1]))
    ensures op == Subtract ==> r == Ok(Calculator.Subtract(operands[0], operands[1]))
    ensures op == Multiply ==> r == Ok(Calculator.Multiply(operands[0], operands[1]))
    ensures op == Divide ==> r == Calculator.Divide(operands[0], operands[1])
    ensures op == Power ==> r == Calculator.Power(operands[0], operands[1], fractionalPow)
    ensures op == Factorial ==> r == match FactorialOf(Truncate(operands[0]))
      case Ok(n) => Ok(Int(n))
      case Fail(e) => Fail(e)
  {
    match op
    case Add => Ok(Calculator.Add(operands[0], operands[1]))
    case Subtract => Ok(Calculator.Subtract(operands[0], operands[1]))
    case Multiply => Ok(Calculator.Multiply(operands[0], operands[1]))
    case Divide => Calculator.Divide(operands[0], operands[1])
    case Power => Calculator.Power(operands[0], operands[1], fractionalPow)
    case Factorial =>
      match FactorialOf(Truncate(operands[0]))
      case Ok(n) => Ok(Int(n))
      case Fail(e) => Fail(e)
  }

  /** How one invocation ends. */
  datatype Outcome =
    | Printed(shown: Number)    // one line on standard output, success status
    | UsageError(message: string) // `parser.error(message)`: usage on standard error, status 2
    | Uncaught(error: Error)    // an exception escapes `main`: traceback, status 1
    | Rejected                  // the argument parser refused the command line before dispatch

  /** The `except ValueError` clause of `main`: only a `ValueError` becomes a
      usage error; a `ZeroDivisionError` is not caught. */
  function Caught(e: Error): (o: Outcome)
    ensures o.UsageError? <==> e.InvalidArgument?
    ensures o.Uncaught? <==> e.DivisionByZero?
    ensures o.UsageError? ==> o.message == e.message
    ensures o.Uncaught? ==> o.error == e
  {
    match e
    case InvalidArgument(m) => UsageError(m)
    case DivisionByZero(_) => Uncaught(e)
  }

  /** The value `main` prints: a float with no fractional part is shown as an int. */
  function Displayed(v: Number): (d: Number)
    ensures d.Value() == v.Value()
    ensures d.Float? <==> v.Float? && !v.IsWhole()
  {
    if v.Float? && v.IsWhole() then Int(v.r.Floor) else v
  }

  /** One run of `main` on an operation name and the operand strings. */
  function Run(name: string, operands: seq<string>, host: Host): (o: Outcome)
    ensures o.Rejected? <==> name !in Operations || operands == []
  {
    match OperationNamed(name)
    case None => Rejected
    case Some(op) =>
      if operands == [] then Rejected
      else match CoerceOperands(op, operands, host)
        case Fail(e) => Caught(e)
        case Ok(values) =>
          match Perform(op, values, host.fractionalPow)
          case Fail(e) => Caught(e)
          case Ok(v) => Printed(Displayed(v))
  }

  // ---------------------------------------------------------------------
  // Properties of the command line
  // ---------------------------------------------------------------------

  /** Every operation is selected by its own name, and by no other. */
  lemma NameRoundTrip(op: Operation, name: string)
    ensures OperationNamed(Name(op)) == Some(op)
    ensures OperationNamed(name) == Some(op) <==> name == Name(op)
  {
  }

  /** Only a division by zero escapes `main`; every other failure of coercion
      or of the library is reported as a usage error. */
  lemma OnlyDivisionByZeroEscapes(name: string, operands: seq<string>, host: Host)
    ensures Run(name, operands, host).Uncaught? <==>
      name == "divide" && |operands| == 2
      && host.parseFloat(operands[0]).Some? && host.parseFloat(operands[1]).Some?
      && host.parseFloat(operands[1]).value == 0.0
    ensures Run(name, operands, host).Uncaught? ==>
      Run(name, operands, host).error == DivisionByZero(DivisionByZeroMessage)
  {
  }

  /** A usage error is exactly a valid command line whose coercion or library
      call fails with a `ValueError`; nothing is printed then. */
  lemma UsageErrorIff(name: string, operands: seq<string>, host: Host)
    requires name in Operations && operands != []
    ensures var op := OperationNamed(name).value;
      var c := CoerceOperands(op, operands, host);
      Run(name, operands, host).UsageError? <==>
        c.Fail? || (c.Ok? && Perform(op, c.value, host.fractionalPow).Fail? && op != Divide)
  {
  }

  /** A printed result is the library's result, shown by the display rule. */
  lemma PrintedIsLibraryResult(name: string, operands: seq<string>, host: Host)
    requires Run(name, operands, host).Printed?
    ensures var op := OperationNamed(name).value;
      var c := CoerceOperands(op, operands, host);
      c.Ok? && Perform(op, c.value, host.fractionalPow).Ok?
      && Run(name, operands, host).shown.Value() == Perform(op, c.value, host.fractionalPow).value.Value()
  {
  }

  /** A wrong number of operands is a usage error naming the count. */
  lemma WrongCountIsUsageError(op: Operation, operands: seq<string>, host: Host)
    requires operands != [] && |operands| != Arity(op)
    ensures Run(Name(op), operands, host) == UsageError(CountMessage(op))
  {
  }

  /** End-to-end examples that print a result, for a host whose parser reads
      these literals the usual way. */
  lemma PrintedExamples(host: Host)
    requires host.parseFloat("2") == Some(2.0) && host.parseFloat("3") == Some(3.0)
    requires host.parseFloat("4") == Some(4.0) && host.parseFloat("0.5") == Some(0.5)
    requires host.fractionalPow(4.0, 0.5) == 2.0
    ensures Run("add", ["2", "3"], host) == Printed(Int(5))
    ensures Run("power", ["4", "0.5"], host) == Printed(Int(2))
  {
  }

  /** End-to-end examples of the failing binary operations and of an unknown name. */
  lemma FailureExamples(host: Host)
    requires host.parseFloat("5") == Some(5.0) && host.parseFloat("0") == Some(0.0)
    requires host.parseFloat("-1") == Some(-1.0)
    ensures Run("divide", ["5", "0"], host) == Uncaught(DivisionByZero(DivisionByZeroMessage))
    ensures Run("power", ["0", "-1"], host) == UsageError(ZeroToNegativePowerMessage)
    ensures Run("modulo", ["5", "0"], host) == Rejected
  {
  }

  /** End-to-end examples of `factorial`. */
  lemma FactorialExamples(host: Host)
    requires host.parseInt("5") == Some(5) && host.parseInt("-1") == Some(-1)
    ensures Run("factorial", ["5"], host) == Printed(Int(120))
    ensures Run("factorial", ["-1"], host) == UsageError(NegativeFactorialMessage)
    ensures Run("factorial", ["5", "-1"], host) == UsageError(FactorialCountMessage)
  {
  }
}
