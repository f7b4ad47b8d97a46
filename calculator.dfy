/**
 * The calculator engine of calculator/main.py: the display, the pending
 * operator, the left operand and the "next digit starts a new number" flag,
 * changed one button press at a time.
 *
 * `Step` is the specification of one press; `CalculatorApp.ButtonClicked`
 * is the imperative handler, proved to change its fields exactly as `Step`
 * says.
 */
module Calculator {
  import opened Numbers

  /**
   * The floating-point routines the engine calls but the model does not
   * compute: `x ** y` for a positive base and a non-integral exponent,
   * `math.log10` on positive arguments, `math.radians`, `math.sin`,
   * `math.cos`, `math.tan` (`None` when it raises ValueError), `math.pi` and
   * `str` of a float.
   */
  datatype MathLib = MathLib(
    pow: (real, real) -> real,
    radians: real -> real,
    log10: real -> real,
    sin: real -> real,
    cos: real -> real,
    tan: real -> Option<real>,
    pi: real,
    repr: real -> string)

  /** The base the `e^x` button raises. */
  const E: real := 2.718281828459045

  type DigitNum = d: nat | d < 10

  /** The buttons of the calculator. */
  datatype Key =
    | Digit(d: DigitNum) | Point
    | Plus | Minus | Times | Divide | Equals
    | AllClear | PlusMinus | Percent
    | Square | Cube | PowerY | ExpE | SquareRoot | CubeRoot | Log10
    | Fact | Sin | Cos | Tan | Pi

  /** The text of a button, which is the data its click delivers. */
  function Label(k: Key): string {
    match k
    case Digit(d) => [DigitChar(d)]
    case Point => "."
    case Plus => "+"
    case Minus => "-"
    case Times => "*"
    case Divide => "/"
    case Equals => "="
    case AllClear => "AC"
    case PlusMinus => "+/-"
    case Percent => "%"
    case Square => "x^2"
    case Cube => "x^3"
    case PowerY => "x^y"
    case ExpE => "e^x"
    case SquareRoot => "\U{221A}"
    case CubeRoot => "\U{221B}"
    case Log10 => "log"
    case Fact => "x!"
    case Sin => "sin"
    case Cos => "cos"
    case Tan => "tan"
    case Pi => "\U{03C0}"
  }

  /** What the display holds: a string, or an int/float object. */
  datatype Display = Text(s: string) | Num(n: Number)

  const ZeroText: Display := Text("0")
  const ErrorText: Display := Text("Error")

  /** `float(display)`; `None` is the ValueError of an unreadable text. */
  function ParseDisplay(d: Display): Option<real> {
    match d
    case Text(s) => ParseFloat(s)
    case Num(n) => Some(n.Value())
  }

  /** `str(n)` for a Python number. */
  function Str(n: Number, lib: MathLib): string {
    match n
    case IntVal(i) => IntToString(i)
    case FloatVal(f) => lib.repr(f)
  }

  /** `str(display)` */
  function StrOf(d: Display, lib: MathLib): string {
    match d
    case Text(s) => s
    case Num(n) => Str(n, lib)
  }

  /** A Python evaluation that either finishes or raises an exception nothing catches. */
  datatype Eval<T> = Done(v: T) | Raised

  /** What `calculate` returns: a number, or the string "Error". */
  datatype Answer = Value(n: Number) | Error
  {
    function Shown(): Display {
      match this
      case Value(n) => Num(n)
      case Error => ErrorText
    }
  }

  /** The display shows the number `x`, formatted by `format_number`. */
  predicate Shows(d: Display, x: real) {
    d.Num? && d.n.Value() == x && (d.n.IntVal? <==> IsIntegral(x))
  }

  /**
   * `format_number(a ** b)` for floats, computed exactly where the exponent
   * is integral. `None` is an exception: 0 to a negative power raises
   * ZeroDivisionError, and a negative base to a non-integral power gives a
   * complex number on which `format_number` raises TypeError.
   */
  function Pow(a: real, b: real, lib: MathLib): (r: Option<real>)
    ensures r.None? <==> (a == 0.0 && b < 0.0) || (a < 0.0 && !IsIntegral(b))
    ensures IsIntegral(b) && b >= 0.0 ==> r == Some(IntPow(a, b.Floor))
    ensures IsIntegral(b) && b < 0.0 && a != 0.0 ==> r.Some? && r.value * IntPow(a, (-b).Floor) == 1.0
    ensures a == 0.0 && b > 0.0 ==> r == Some(0.0)
  {
    if IsIntegral(b) then
      if b >= 0.0 then Some(IntPow(a, b.Floor))
      else if a == 0.0 then None
      else Some(1.0 / IntPow(a, (-b).Floor))
    else if a > 0.0 then Some(lib.pow(a, b))
    else if a == 0.0 then (if b > 0.0 then Some(0.0) else None)
    else None
  }

  predicate IsOperator(op: string) {
    op == "+" || op == "-" || op == "*" || op == "/" || op == "^"
  }

  /** `calculate(operand1, operand2, operator)` */
  function Calculate(a: real, b: real, op: string, lib: MathLib): (r: Eval<Answer>)
    ensures r == Done(Error) <==> (op == "/" && b == 0.0) || !IsOperator(op)
    ensures r.Raised? <==> op == "^" && Pow(a, b, lib).None?
    ensures r.Done? && r.v.Value? ==> r.v.n == FormatNumber(r.v.n)
    ensures op == "+" ==> r.Done? && Shows(r.v.Shown(), a + b)
    ensures op == "-" ==> r.Done? && Shows(r.v.Shown(), a - b)
    ensures op == "*" ==> r.Done? && Shows(r.v.Shown(), a * b)
    ensures op == "/" && b != 0.0 ==> r.Done? && Shows(r.v.Shown(), a / b)
    ensures op == "^" && r.Done? ==> Shows(r.v.Shown(), Pow(a, b, lib).value)
  {
    if op == "+" then Done(Value(FormatNumber(FloatVal(a + b))))
    else if op == "-" then Done(Value(FormatNumber(FloatVal(a - b))))
    else if op == "*" then Done(Value(FormatNumber(FloatVal(a * b))))
    else if op == "/" then
      if b == 0.0 then Done(Error) else Done(Value(FormatNumber(FloatVal(a / b))))
    else if op == "^" then
      match Pow(a, b, lib)
      case Some(p) => Done(Value(FormatNumber(FloatVal(p))))
      case None => Raised
    else Done(Error)
  }

  /** The four fields of `CalculatorApp`. */
  datatype CalcState = CalcState(display: Display, operator: string, operand1: real, newOperand: bool)

  /** The state `__init__` sets up. */
  const Initial: CalcState := CalcState(ZeroText, "+", 0.0, true)

  /** The three fields `reset()` sets. */
  predicate IsReset(s: CalcState) {
    s.operator == "+" && s.operand1 == 0.0 && s.newOperand
  }

  /** `reset()`: the display is left alone, and the invariant holds afterwards. */
  function ResetState(s: CalcState): (r: CalcState)
    ensures IsReset(r) && r.display == s.display
    ensures Inv(r)
  {
    s.(operator := "+", operand1 := 0.0, newOperand := true)
  }

  /**
   * The C `LONG_MAX` of 64-bit POSIX, which is `sys.maxsize` there:
   * `math.factorial` raises OverflowError above it.
   */
  const MaxSize: int := 9223372036854775807

  /** The buttons that type into the display. */
  predicate IsEntryKey(k: Key) {
    k.Digit? || k.Point?
  }

  /** The binary operator buttons. */
  predicate IsOperatorKey(k: Key) {
    k.Plus? || k.Minus? || k.Times? || k.Divide?
  }

  /** A unary button's result is shown formatted, then the state is reset. */
  function ShowThenReset(s: CalcState, r: Option<real>): Eval<CalcState> {
    match r
    case Some(v) => Done(ResetState(s.(display := Num(FormatNumber(FloatVal(v))))))
    case None => Raised
  }

  /** The buttons that compute a number from the display value and then reset. */
  predicate IsFunctionKey(k: Key) {
    k.Square? || k.Cube? || k.ExpE? || k.SquareRoot? || k.CubeRoot? || k.Log10? || k.Sin? || k.Cos?
  }

  /**
   * What a function button computes from the display value `x`;
   * `None` is an exception (`math.log10` raises ValueError at or below 0).
   */
  function FunctionValue(k: Key, x: real, lib: MathLib): (r: Option<real>)
    requires IsFunctionKey(k)
    ensures r.None? <==> ((k.SquareRoot? || k.CubeRoot?) && x < 0.0) || (k.Log10? && x <= 0.0)
    ensures k.Square? ==> r.Some? && r.value >= 0.0
    ensures k.Cube? ==> r.Some? && (r.value < 0.0 <==> x < 0.0)
  {
    assert !IsIntegral(0.5) && !IsIntegral(1.0 / 3.0);
    match k
    case Square => Some(x * x)
    case Cube => Some(x * x * x)
    case ExpE => Pow(E, x, lib)
    case SquareRoot => Pow(x, 0.5, lib)
    case CubeRoot => Pow(x, 1.0 / 3.0, lib)
    case Log10 => if x > 0.0 then Some(lib.log10(x)) else None
    case Sin => Some(lib.sin(lib.radians(x)))
    case Cos => Some(lib.cos(lib.radians(x)))
  }

  /** A digit or '.': start a new number, or extend the text on the display. */
  function EnterText(s: CalcState, t: string): (r: Eval<CalcState>)
    ensures r.Raised? <==> s.display.Num? && !s.newOperand
    ensures Inv(s) ==> r.Done?
    ensures r.Done? ==> r.v.display.Text? && !r.v.newOperand && r.v.operator == s.operator && r.v.operand1 == s.operand1
    ensures r.Done? ==> r.v.display.s == t || (s.display.Text? && r.v.display.s == s.display.s + t)
  {
    if s.display == ZeroText || s.newOperand then
      Done(s.(display := Text(t), newOperand := false))
    else if s.display.Text? then
      Done(s.(display := Text(s.display.s + t)))
    else
      Raised  // an int or float plus a str raises TypeError
  }

  /** `+ - * /`: evaluate the pending operation and make `op` the pending one. */
  function PressOperator(s: CalcState, op: string, lib: MathLib): (r: Eval<CalcState>)
    ensures r.Raised? <==>
      ParseDisplay(s.display).None? || Calculate(s.operand1, ParseDisplay(s.display).value, s.operator, lib).Raised?
    ensures r.Done? ==> r.v.operator == op && r.v.newOperand
    ensures r.Done? ==>
      (r.v.display == ErrorText && r.v.operand1 == 0.0) || (r.v.display.Num? && r.v.operand1 == r.v.display.n.Value())
  {
    match ParseDisplay(s.display)
    case None => Raised
    case Some(b) =>
      match Calculate(s.operand1, b, s.operator, lib)
      case Raised => Raised
      case Done(a) => Done(CalcState(a.Shown(), op, if a.Value? then a.n.Value() else 0.0, true))
  }

  /** `=`: evaluate the pending operation and reset. */
  function PressEquals(s: CalcState, lib: MathLib): (r: Eval<CalcState>)
    ensures r.Done? <==> PressOperator(s, "+", lib).Done?
    ensures r.Done? ==> r.v == ResetState(s.(display := PressOperator(s, "+", lib).v.display))
  {
    match ParseDisplay(s.display)
    case None => Raised
    case Some(b) =>
      match Calculate(s.operand1, b, s.operator, lib)
      case Raised => Raised
      case Done(a) => Done(ResetState(s.(display := a.Shown())))
  }

  /** `+/-` on the display value `x`. */
  function ToggleSign(s: CalcState, x: real, lib: MathLib): (r: CalcState)
    ensures r == s.(display := r.display)
    ensures x == 0.0 ==> r == s
    ensures x > 0.0 ==> r.display.Text? && |r.display.s| > 0 && r.display.s[0] == '-' && r.display.s[1..] == StrOf(s.display, lib)
  {
    if x > 0.0 then s.(display := Text("-" + StrOf(s.display, lib)))
    else if x < 0.0 then s.(display := Text(Str(FormatNumber(FloatVal(-x)), lib)))
    else s
  }

  /** A value `math.factorial(int(x))` accepts. */
  predicate IsFactorialArg(x: real) {
    x >= 0.0 && IsIntegral(x) && x.Floor <= MaxSize
  }

  /**
   * `x!`: an unreadable, negative or non-integral display shows "Error", and
   * so does one above `sys.maxsize`, where `math.factorial` overflows.
   */
  function PressFactorial(s: CalcState): (r: CalcState)
    ensures IsReset(r)
    ensures r.display != ErrorText <==> ParseDisplay(s.display).Some? && IsFactorialArg(ParseDisplay(s.display).value)
    ensures r.display != ErrorText ==> r.display == Num(IntVal(Factorial(ParseDisplay(s.display).value.Floor)))
  {
    match ParseDisplay(s.display)
    case Some(x) =>
      if x < 0.0 || !IsIntegral(x) then ResetState(s.(display := ErrorText))
      else if x.Floor > MaxSize then ResetState(s.(display := ErrorText))
      else ResetState(s.(display := Num(FormatNumber(IntVal(Factorial(x.Floor))))))
    case None => ResetState(s.(display := ErrorText))
  }

  /** `tan` on the display value `x`, in degrees. */
  function PressTan(s: CalcState, x: real, lib: MathLib): (r: CalcState)
    ensures IsReset(r)
    ensures r.display == ErrorText <==> lib.tan(lib.radians(x)).None?
    ensures r.display != ErrorText ==> Shows(r.display, lib.tan(lib.radians(x)).value)
  {
    match lib.tan(lib.radians(x))
    case Some(t) => ResetState(s.(display := Num(FormatNumber(FloatVal(t)))))
    case None => ResetState(s.(display := ErrorText))
  }

  /** `%`, `+/-` and `x^y` on a display that reads as `x`. */
  lemma ReadThenPressOf(s: CalcState, k: Key, lib: MathLib, x: real)
    requires k.Percent? || k.PlusMinus? || k.PowerY?
    requires ParseDisplay(s.display) == Some(x)
    ensures ReadThenPress(s, k, lib) == Done(
      if k.Percent? then ResetState(s.(display := Num(FloatVal(x / 100.0))))
      else if k.PlusMinus? then ToggleSign(s, x, lib)
      else s.(operand1 := x, operator := "^", newOperand := true, display := ZeroText))
  {
    assert !IsFunctionKey(k);
  }

  /** The buttons that read the display as a number first, once it reads as `x`. */
  function NumericPress(s: CalcState, k: Key, x: real, lib: MathLib): Eval<CalcState> {
    if IsFunctionKey(k) then
      ShowThenReset(s, FunctionValue(k, x, lib))
    else
      match k
      case Percent => Done(ResetState(s.(display := Num(FloatVal(x / 100.0)))))
      case PlusMinus => Done(ToggleSign(s, x, lib))
      case PowerY => Done(s.(operand1 := x, operator := "^", newOperand := true, display := ZeroText))
      case Tan => Done(PressTan(s, x, lib))
      case _ => Done(s)  // every other key is handled before the display is read
  }

  /** Read the display, then press a button that needs its value. */
  function ReadThenPress(s: CalcState, k: Key, lib: MathLib): Eval<CalcState> {
    match ParseDisplay(s.display)
    case None => Raised
    case Some(x) => NumericPress(s, k, x, lib)
  }

  /** One press of `k`, as `button_clicked` handles it. */
  function Step(s: CalcState, k: Key, lib: MathLib): (r: Eval<CalcState>)
    ensures s.display == ErrorText || k.AllClear? ==> r == Done(Initial)
    ensures k.AllClear? || k.Fact? || k.Pi? ==> r.Done?
    ensures Inv(s) && IsEntryKey(k) ==> r.Done?
  {
    if s.display == ErrorText || k.AllClear? then
      Done(ResetState(s.(display := ZeroText)))
    else if IsEntryKey(k) then
      EnterText(s, Label(k))
    else if IsOperatorKey(k) then
      PressOperator(s, Label(k), lib)
    else if k.Equals? then
      PressEquals(s, lib)
    else if k.Fact? then
      Done(PressFactorial(s))
    else if k.Pi? then
      ShowThenReset(s, Some(lib.pi))
    else
      ReadThenPress(s, k, lib)
  }

  /** The state an evaluation leaves: one that raises leaves every field as it was. */
  function Outcome(s: CalcState, e: Eval<CalcState>): CalcState {
    match e
    case Done(t) => t
    case Raised => s
  }

  /** The state after one press. */
  function After(s: CalcState, k: Key, lib: MathLib): CalcState {
    Outcome(s, Step(s, k, lib))
  }

  /** The state after a sequence of presses. */
  function Run(s: CalcState, keys: seq<Key>, lib: MathLib): CalcState
    decreases |keys|
  {
    if keys == [] then s else Run(After(s, keys[0], lib), keys[1..], lib)
  }

  /**
   * What holds of every state the engine reaches: the pending operator is
   * one `calculate` knows, and a number object on the display always has the
   * next digit start a new number.
   */
  predicate Inv(s: CalcState) {
    IsOperator(s.operator) && (s.display.Num? ==> s.newOperand)
  }

  /** The app starts in a state satisfying the invariant. */
  lemma InitialInv()
    ensures Inv(Initial)
  {
  }

  lemma EntryKeepsInv(s: CalcState, k: Key, lib: MathLib)
    requires Inv(s) && IsEntryKey(k)
    ensures Inv(After(s, k, lib))
  {
  }

  lemma OperatorKeepsInv(s: CalcState, k: Key, lib: MathLib)
    requires Inv(s) && (IsOperatorKey(k) || k.Equals?)
    ensures Inv(After(s, k, lib))
  {
  }

  lemma NumericKeepsInv(s: CalcState, k: Key, lib: MathLib)
    requires Inv(s) && !IsEntryKey(k) && !IsOperatorKey(k) && !k.Equals?
    ensures Inv(After(s, k, lib))
  {
  }

  /** Every press keeps the invariant. */
  lemma StepKeepsInv(s: CalcState, k: Key, lib: MathLib)
    requires Inv(s)
    ensures Inv(After(s, k, lib))
  {
    if IsEntryKey(k) {
      EntryKeepsInv(s, k, lib);
    } else if IsOperatorKey(k) || k.Equals? {
      OperatorKeepsInv(s, k, lib);
    } else {
      NumericKeepsInv(s, k, lib);
    }
  }

  /** `CalculatorApp`: the engine's four fields, changed in place by each click. */
  class CalculatorApp {
    var display: Display
    var operator: string
    var operand1: real
    var newOperand: bool
    const lib: MathLib

    function State(): CalcState
      reads this
    {
      CalcState(display, operator, operand1, newOperand)
    }

    predicate Valid()
      reads this
    {
      Inv(State())
    }

    constructor (lib: MathLib)
      ensures State() == Initial && this.lib == lib
      ensures Valid()
    {
      this.lib := lib;
      new;
      Reset();
      display := ZeroText;
    }

    method Reset()
      modifies this
      ensures State() == ResetState(old(State()))
    {
      operator := "+";
      operand1 := 0.0;
      newOperand := true;
    }

    /** `button_clicked`: `raised` tells that the click raised an exception. */
    method ButtonClicked(key: Key) returns (raised: bool)
      modifies this
      ensures raised <==> Step(old(State()), key, lib).Raised?
      ensures State() == After(old(State()), key, lib)
      ensures old(Valid()) ==> Valid()
      ensures old(Valid()) && IsEntryKey(key) ==> !raised
    {
      raised := false;
      ghost var s := State();
      if display == ErrorText || key.AllClear? {
        display := ZeroText;
        Reset();
      } else if IsEntryKey(key) {
        raised := EnterKey(Label(key));
      } else if IsOperatorKey(key) {
        raised := Operate(Label(key));
      } else if key.Equals? {
        raised := Evaluate();
      } else if key.Fact? {
        TakeFactorial();
      } else if key.Pi? {
        raised := ShowValue(Some(lib.pi));
      } else if key.Tan? {
        raised := TangentKey();
      } else if IsFunctionKey(key) {
        raised := FunctionKey(key);
      } else {
        raised := ReadAndPress(key);
      }
      if Inv(s) {
        StepKeepsInv(s, key, lib);
      }
    }

    /** `%`, `+/-` and `x^y`, which read the display as a number before anything else. */
    method ReadAndPress(key: Key) returns (raised: bool)
      requires key.Percent? || key.PlusMinus? || key.PowerY?
      modifies this
      ensures raised <==> ReadThenPress(old(State()), key, lib).Raised?
      ensures State() == Outcome(old(State()), ReadThenPress(old(State()), key, lib))
    {
      raised := false;
      var x := ParseDisplay(display);
      if x.None? {
        return true;
      }
      ReadThenPressOf(old(State()), key, lib, x.value);
      match key
      case Percent =>
        display := Num(FloatVal(x.value / 100.0));
        Reset();
      case PlusMinus =>
        Negate(x.value);
      case PowerY =>
        operand1 := x.value;
        operator := "^";
        newOperand := true;
        display := ZeroText;
      case _ =>
    }

    /** A function button: read the display, show what the function gives, then reset. */
    method FunctionKey(key: Key) returns (raised: bool)
      requires IsFunctionKey(key)
      modifies this
      ensures raised <==> ReadThenPress(old(State()), key, lib).Raised?
      ensures State() == Outcome(old(State()), ReadThenPress(old(State()), key, lib))
    {
      var x := ParseDisplay(display);
      if x.None? {
        return true;
      }
      raised := ShowValue(FunctionValue(key, x.value, lib));
    }

    /** A digit or '.' with text `t`. */
    method EnterKey(t: string) returns (raised: bool)
      modifies this
      ensures raised <==> EnterText(old(State()), t).Raised?
      ensures State() == Outcome(old(State()), EnterText(old(State()), t))
    {
      raised := false;
      if display == ZeroText || newOperand {
        display := Text(t);
        newOperand := false;
      } else if display.Text? {
        display := Text(display.s + t);
      } else {
        raised := true;
      }
    }

    /** `+ - * /` with text `op`. */
    method Operate(op: string) returns (raised: bool)
      modifies this
      ensures raised <==> PressOperator(old(State()), op, lib).Raised?
      ensures State() == Outcome(old(State()), PressOperator(old(State()), op, lib))
    {
      var b := ParseDisplay(display);
      if b.None? { return true; }
      var a := Calculate(operand1, b.value, operator, lib);
      if a.Raised? { return true; }
      display := a.v.Shown();
      operator := op;
      if display == ErrorText {
        operand1 := 0.0;
      } else {
        operand1 := a.v.n.Value();
      }
      newOperand := true;
      raised := false;
    }

    /** `=` */
    method Evaluate() returns (raised: bool)
      modifies this
      ensures raised <==> PressEquals(old(State()), lib).Raised?
      ensures State() == Outcome(old(State()), PressEquals(old(State()), lib))
    {
      var b := ParseDisplay(display);
      if b.None? { return true; }
      var a := Calculate(operand1, b.value, operator, lib);
      if a.Raised? { return true; }
      display := a.v.Shown();
      Reset();
      raised := false;
    }

    /** `+/-` on the display value `x`. */
    method Negate(x: real)
      requires ParseDisplay(display) == Some(x)
      modifies this
      ensures State() == ToggleSign(old(State()), x, lib)
    {
      if x > 0.0 {
        display := Text("-" + StrOf(display, lib));
      } else if x < 0.0 {
        display := Text(Str(FormatNumber(FloatVal(-x)), lib));
      }
    }

    /** `x!` */
    method TakeFactorial()
      modifies this
      ensures State() == PressFactorial(old(State()))
    {
      var x := ParseDisplay(display);
      if x.None? || x.value < 0.0 || !IsIntegral(x.value) {
        display := ErrorText;
      } else if x.value.Floor > MaxSize {
        display := ErrorText;  // OverflowError, caught
      } else {
        display := Num(FormatNumber(IntVal(Factorial(x.value.Floor))));
      }
      Reset();
    }

    /** `tan`: an unreadable display raises. */
    method TangentKey() returns (raised: bool)
      modifies this
      ensures raised <==> ReadThenPress(old(State()), Tan, lib).Raised?
      ensures State() == Outcome(old(State()), ReadThenPress(old(State()), Tan, lib))
    {
      var x := ParseDisplay(display);
      if x.None? {
        return true;
      }
      TakeTangent(x.value);
      raised := false;
    }

    /** `tan` on the display value `x`. */
    method TakeTangent(x: real)
      modifies this
      ensures State() == PressTan(old(State()), x, lib)
    {
      var t := lib.tan(lib.radians(x));
      if t.None? {
        display := ErrorText;
      } else {
        display := Num(FormatNumber(FloatVal(t.value)));
      }
      Reset();
    }

    /** Show a function button's result `r` formatted, then reset. */
    method ShowValue(r: Option<real>) returns (raised: bool)
      modifies this
      ensures raised <==> ShowThenReset(old(State()), r).Raised?
      ensures State() == Outcome(old(State()), ShowThenReset(old(State()), r))
    {
      if r.None? { return true; }
      display := Num(FormatNumber(FloatVal(r.value)));
      Reset();
      raised := false;
    }
  }
}
