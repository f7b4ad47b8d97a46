/**
 * What the calculator engine promises, stated about `Step`, `After` and
 * `Run` of module Calculator and proved.
 */
module CalculatorProperties {
  import opened Numbers
  import opened Calculator

  // ---------------------------------------------------------------------------
  // Clearing
  // ---------------------------------------------------------------------------

  /** `AC` returns every state, "Error" included, to the initial one. */
  lemma ClearResets(s: CalcState, lib: MathLib)
    ensures Step(s, AllClear, lib).Done?
    ensures After(s, AllClear, lib) == Initial
  {
  }

  /** On "Error" every key only clears: the pressed key itself is not entered. */
  lemma ErrorDiscardsKey(s: CalcState, k: Key, lib: MathLib)
    requires s.display == ErrorText
    ensures After(s, k, lib) == Initial
    ensures After(s, k, lib).display == ZeroText && IsReset(After(s, k, lib))
  {
  }

  // ---------------------------------------------------------------------------
  // Entering digits
  // ---------------------------------------------------------------------------

  /** A digit or '.' starts a new number on "0" or after an operation, and is appended otherwise. */
  lemma EntryKey(s: CalcState, k: Key, lib: MathLib)
    requires s.display != ErrorText && IsEntryKey(k)
    ensures s.display == ZeroText || s.newOperand ==>
      Step(s, k, lib) == Done(s.(display := Text(Label(k)), newOperand := false))
    ensures s.display != ZeroText && !s.newOperand && s.display.Text? ==>
      Step(s, k, lib) == Done(s.(display := Text(s.display.s + Label(k))))
  {
    assert Step(s, k, lib) == EnterText(s, Label(k));
  }

  function Labels(keys: seq<Key>): string {
    if keys == [] then "" else Label(keys[0]) + Labels(keys[1..])
  }

  predicate AllEntryKeys(keys: seq<Key>) {
    forall i :: 0 <= i < |keys| ==> IsEntryKey(keys[i])
  }

  /** One entry key on typed text other than "0" and "Error" appends its one-character label. */
  lemma AppendOne(s: CalcState, k: Key, lib: MathLib)
    requires s.display.Text? && s.display != ZeroText && !s.newOperand && IsEntryKey(k)
    requires |s.display.s| > 0 && s.display.s[0] != 'E'
    ensures After(s, k, lib) == s.(display := Text(s.display.s + Label(k)))
    ensures |Label(k)| == 1
  {
    assert |Label(k)| == 1 by {
      if k.Digit? { assert Label(k) == [DigitChar(k.d)]; }
    }
    assert s.display != ErrorText by {
      assert ErrorText.s[0] == 'E';
    }
    EntryKey(s, k, lib);
  }

  /**
   * Once the display holds typed text other than "0" and "Error" (digits,
   * a point, or a '-' the sign toggle put in front), entry keys append
   * their labels.
   */
  lemma {:induction false} TypingAppends(s: CalcState, keys: seq<Key>, lib: MathLib)
    requires s.display.Text? && s.display != ZeroText && !s.newOperand
    requires |s.display.s| > 0 && s.display.s[0] != 'E'
    requires AllEntryKeys(keys)
    ensures Run(s, keys, lib) == s.(display := Text(s.display.s + Labels(keys)))
    decreases |keys|
  {
    if keys != [] {
      var t := s.display.s;
      var k := keys[0];
      AppendOne(s, k, lib);
      var t' := t + Label(k);
      var s' := s.(display := Text(t'));
      assert t'[0] == t[0] && |t'| >= 2;
      assert s'.display != ZeroText;
      RestEntryKeys(keys);
      TypingAppends(s', keys[1..], lib);
      RunFirst(s, keys, lib);
      assert Labels(keys) == Label(k) + Labels(keys[1..]);
      assert t' + Labels(keys[1..]) == t + Labels(keys);
    }
  }

  /** A sequence of presses is its first press, then the rest. */
  lemma RunFirst(s: CalcState, keys: seq<Key>, lib: MathLib)
    requires keys != []
    ensures Run(s, keys, lib) == Run(After(s, keys[0], lib), keys[1..], lib)
  {
  }

  lemma RestEntryKeys(keys: seq<Key>)
    requires keys != [] && AllEntryKeys(keys)
    ensures AllEntryKeys(keys[1..])
  {
    forall i | 0 <= i < |keys[1..]| ensures IsEntryKey(keys[1..][i]) {
      assert keys[1..][i] == keys[i + 1];
    }
  }

  /**
   * Typing a number that does not start with 0 (it may start with '.') on
   * "0" or into a display awaiting a new number shows exactly what was typed.
   */
  lemma TypingNumber(s: CalcState, keys: seq<Key>, lib: MathLib)
    requires s.display != ErrorText && (s.display == ZeroText || s.newOperand)
    requires |keys| > 0 && keys[0] != Digit(0) && AllEntryKeys(keys)
    ensures Run(s, keys, lib) == s.(display := Text(Labels(keys)), newOperand := false)
  {
    var k := keys[0];
    EntryKey(s, k, lib);
    var s' := After(s, k, lib);
    assert s' == s.(display := Text(Label(k)), newOperand := false);
    assert s'.display.s[0] != 'E' && s'.display != ZeroText by {
      if k.Digit? {
        assert s'.display.s == [DigitChar(k.d)];
      }
    }
    TypingAppends(s', keys[1..], lib);
  }

  // ---------------------------------------------------------------------------
  // Binary operators and '='
  // ---------------------------------------------------------------------------

  /**
   * `+ - * /` evaluates the pending operation on the left operand and the
   * display value, shows the result, keeps it as the new left operand (0
   * after "Error"), makes the pressed operator pending and waits for a new
   * number.
   */
  lemma OperatorChains(s: CalcState, k: Key, lib: MathLib, b: real)
    requires s.display != ErrorText && IsOperatorKey(k)
    requires ParseDisplay(s.display) == Some(b)
    requires Calculate(s.operand1, b, s.operator, lib).Done?
    ensures var a := Calculate(s.operand1, b, s.operator, lib).v;
      && Step(s, k, lib).Done?
      && After(s, k, lib).display == a.Shown()
      && After(s, k, lib).operator == Label(k)
      && After(s, k, lib).operand1 == (if a.Value? then a.n.Value() else 0.0)
      && After(s, k, lib).newOperand
  {
    assert Step(s, k, lib) == PressOperator(s, Label(k), lib);
  }

  /** `=` evaluates the pending operation, shows it and resets. */
  lemma EqualsEvaluates(s: CalcState, lib: MathLib, b: real)
    requires s.display != ErrorText
    requires ParseDisplay(s.display) == Some(b)
    requires Calculate(s.operand1, b, s.operator, lib).Done?
    ensures After(s, Equals, lib) ==
      ResetState(s.(display := Calculate(s.operand1, b, s.operator, lib).v.Shown()))
  {
    assert Step(s, Equals, lib) == PressEquals(s, lib);
  }

  /** An operator or '=' on a display `float` cannot read raises and changes nothing. */
  lemma UnreadableDisplayRaises(s: CalcState, k: Key, lib: MathLib)
    requires s.display != ErrorText && s.display.Text? && !IsDecimal(s.display.s)
    requires !IsEntryKey(k) && !k.AllClear? && !k.Fact? && !k.Pi?
    ensures Step(s, k, lib).Raised? && After(s, k, lib) == s
  {
    ParseFloatAccepts(s.display.s);
    assert ParseDisplay(s.display).None?;
    if IsOperatorKey(k) || k.Equals? {
      UnreadableOperator(s, k, lib);
    } else {
      assert Step(s, k, lib) == ReadThenPress(s, k, lib);
    }
  }

  /** An operator or '=' on a display that does not read as a number raises. */
  lemma UnreadableOperator(s: CalcState, k: Key, lib: MathLib)
    requires s.display != ErrorText && ParseDisplay(s.display).None?
    requires IsOperatorKey(k) || k.Equals?
    ensures Step(s, k, lib).Raised?
  {
    assert Step(s, k, lib) == if k.Equals? then PressEquals(s, lib) else PressOperator(s, Label(k), lib);
  }

  /** `x!` never raises: an unreadable display shows "Error" instead. */
  lemma UnreadableFactorial(s: CalcState, lib: MathLib)
    requires s.display != ErrorText && s.display.Text? && !IsDecimal(s.display.s)
    ensures Step(s, Fact, lib) == Done(ResetState(s.(display := ErrorText)))
  {
    ParseFloatAccepts(s.display.s);
  }

  /** Dividing by zero shows "Error"; the next key, whatever it is, only clears. */
  lemma DivisionByZeroRecovers(s: CalcState, k: Key, lib: MathLib)
    requires s.display != ErrorText && s.operator == "/" && ParseDisplay(s.display) == Some(0.0)
    requires IsOperatorKey(k) || k.Equals?
    ensures After(s, k, lib).display == ErrorText
    ensures forall k' :: After(After(s, k, lib), k', lib) == Initial
  {
    assert Calculate(s.operand1, 0.0, "/", lib) == Done(Error);
    assert Step(s, k, lib) == if k.Equals? then PressEquals(s, lib) else PressOperator(s, Label(k), lib);
    forall k' ensures After(After(s, k, lib), k', lib) == Initial {
      ErrorDiscardsKey(After(s, k, lib), k', lib);
    }
  }

  // ---------------------------------------------------------------------------
  // Unary buttons
  // ---------------------------------------------------------------------------

  /** `x!`: "Error" below zero, off the integers or above `sys.maxsize`, the factorial otherwise; then reset. */
  lemma FactorialPress(s: CalcState, lib: MathLib, x: real)
    requires s.display != ErrorText && ParseDisplay(s.display) == Some(x)
    ensures x < 0.0 || !IsIntegral(x) || x.Floor > MaxSize ==> After(s, Fact, lib) == ResetState(s.(display := ErrorText))
    ensures x >= 0.0 && IsIntegral(x) && x.Floor <= MaxSize ==>
      After(s, Fact, lib) == ResetState(s.(display := Num(IntVal(Factorial(x.Floor)))))
  {
    assert Step(s, Fact, lib) == Done(PressFactorial(s));
  }

  /** A function button runs on the display value and nothing else. */
  lemma StepFunctionKey(s: CalcState, k: Key, lib: MathLib, x: real)
    requires s.display != ErrorText && IsFunctionKey(k) && ParseDisplay(s.display) == Some(x)
    ensures Step(s, k, lib) == ShowThenReset(s, FunctionValue(k, x, lib))
  {
    ReadingKey(s, k, lib);
    assert ReadThenPress(s, k, lib) == NumericPress(s, k, x, lib);
  }

  /** A value shown by a unary button is formatted, and the state is reset. */
  lemma ShowThenResetShows(s: CalcState, r: Option<real>)
    ensures ShowThenReset(s, r).Raised? <==> r.None?
    ensures r.Some? ==>
      var d := Outcome(s, ShowThenReset(s, r)).display;
      && Shows(d, r.value)
      && Outcome(s, ShowThenReset(s, r)) == ResetState(s.(display := d))
  {
  }

  /** The function buttons show their value formatted and reset, or raise. */
  lemma FunctionPress(s: CalcState, k: Key, lib: MathLib, x: real)
    requires s.display != ErrorText && IsFunctionKey(k) && ParseDisplay(s.display) == Some(x)
    ensures Step(s, k, lib).Raised? <==> FunctionValue(k, x, lib).None?
    ensures FunctionValue(k, x, lib).Some? ==>
      var d := After(s, k, lib).display;
      && Shows(d, FunctionValue(k, x, lib).value)
      && After(s, k, lib) == ResetState(s.(display := d))
  {
    StepFunctionKey(s, k, lib, x);
    ShowThenResetShows(s, FunctionValue(k, x, lib));
  }

  /**
   * The roots and `e^x` where the library is not needed or is called on a
   * positive base: the roots of 0 are 0, the roots of a positive value are
   * the library's power, and `e` to a natural power is exact.
   */
  lemma FunctionValues(x: real, lib: MathLib)
    ensures x > 0.0 ==> FunctionValue(SquareRoot, x, lib) == Some(lib.pow(x, 0.5))
    ensures x > 0.0 ==> FunctionValue(CubeRoot, x, lib) == Some(lib.pow(x, 1.0 / 3.0))
    ensures FunctionValue(SquareRoot, 0.0, lib) == Some(0.0) && FunctionValue(CubeRoot, 0.0, lib) == Some(0.0)
    ensures IsIntegral(x) && x >= 0.0 ==> FunctionValue(ExpE, x, lib) == Some(IntPow(E, x.Floor))
  {
    assert !IsIntegral(0.5) && !IsIntegral(1.0 / 3.0);
  }

  /** `%` shows the display value divided by 100, not formatted, and resets. */
  lemma PercentPress(s: CalcState, lib: MathLib, x: real)
    requires s.display != ErrorText && ParseDisplay(s.display) == Some(x)
    ensures After(s, Percent, lib) == ResetState(s.(display := Num(FloatVal(x / 100.0))))
  {
    ReadingKey(s, Percent, lib);
    assert ReadThenPress(s, Percent, lib) == NumericPress(s, Percent, x, lib);
  }

  /** `x^y` stores the display value, makes `^` pending and shows "0", without resetting. */
  lemma PowerYPrimes(s: CalcState, lib: MathLib, x: real)
    requires s.display != ErrorText && ParseDisplay(s.display) == Some(x)
    ensures After(s, PowerY, lib) == CalcState(ZeroText, "^", x, true)
  {
    ReadingKey(s, PowerY, lib);
    assert ReadThenPress(s, PowerY, lib) == NumericPress(s, PowerY, x, lib);
  }

  /** `π` shows `math.pi` formatted, whatever the display held. */
  lemma PiPress(s: CalcState, lib: MathLib)
    requires s.display != ErrorText
    ensures Shows(After(s, Pi, lib).display, lib.pi)
    ensures After(s, Pi, lib) == ResetState(s.(display := After(s, Pi, lib).display))
  {
    assert Step(s, Pi, lib) == ShowThenReset(s, Some(lib.pi));
  }

  // ---------------------------------------------------------------------------
  // Sign toggle
  // ---------------------------------------------------------------------------

  /** `+/-` only touches the display: '-' is prefixed to a positive value, a negative one loses its sign. */
  lemma SignToggle(s: CalcState, lib: MathLib, x: real)
    requires s.display != ErrorText && ParseDisplay(s.display) == Some(x)
    ensures var t := After(s, PlusMinus, lib);
      && t.operator == s.operator && t.operand1 == s.operand1 && t.newOperand == s.newOperand
      && (x > 0.0 ==> t.display == Text("-" + StrOf(s.display, lib)))
      && (x < 0.0 ==> t.display == Text(Str(FormatNumber(FloatVal(-x)), lib)))
      && (x == 0.0 ==> t.display == s.display)
  {
    StepPlusMinus(s, lib, x);
  }

  /** `+/-` on a display that reads as `x`. */
  lemma StepPlusMinus(s: CalcState, lib: MathLib, x: real)
    requires s.display != ErrorText && ParseDisplay(s.display) == Some(x)
    ensures After(s, PlusMinus, lib) == ToggleSign(s, x, lib)
  {
    ReadingKey(s, PlusMinus, lib);
    assert ReadThenPress(s, PlusMinus, lib) == NumericPress(s, PlusMinus, x, lib);
    assert NumericPress(s, PlusMinus, x, lib) == Done(ToggleSign(s, x, lib));
  }

  /** `%`, `+/-`, `x^y`, `tan` and the function buttons read the display before anything else. */
  lemma ReadingKey(s: CalcState, k: Key, lib: MathLib)
    requires s.display != ErrorText
    requires !IsEntryKey(k) && !IsOperatorKey(k) && !k.Equals? && !k.AllClear? && !k.Fact? && !k.Pi?
    ensures Step(s, k, lib) == ReadThenPress(s, k, lib)
  {
  }

  /** The display holds the int `i`, as an int object or as its text `str(i)`. */
  predicate ShowsInt(d: Display, i: int) {
    d == Num(IntVal(i)) || d == Text(IntToString(i))
  }

  /** A display showing an int reads as that int and is not "Error". */
  lemma ShowsIntReads(d: Display, i: int)
    requires ShowsInt(d, i)
    ensures ParseDisplay(d) == Some(i as real) && d != ErrorText
  {
    ParseIntToString(i);
    if d.Text? {
      var n: nat := if i < 0 then -i else i;
      assert IsDigit(NatToString(n)[0]);
      assert d.s[0] != 'E';
    }
  }

  /** `+/-` on a positive int prefixes '-' to its text. */
  lemma ToggleIntPositive(s: CalcState, lib: MathLib, i: int)
    requires ShowsInt(s.display, i) && i > 0
    ensures ToggleSign(s, i as real, lib) == s.(display := Text(IntToString(-i)))
  {
    assert IntToString(i) == NatToString(i);
    assert StrOf(s.display, lib) == IntToString(i);
    assert IntToString(-i) == "-" + NatToString(i);
  }

  /** `+/-` on a negative int prints its negation. */
  lemma ToggleIntNegative(s: CalcState, lib: MathLib, i: int)
    requires i < 0
    ensures ToggleSign(s, i as real, lib) == s.(display := Text(IntToString(-i)))
  {
    var y := -(i as real);
    assert y == (-i) as real;
    assert IsIntegral(y);
    assert FormatNumber(FloatVal(y)) == IntVal(-i);
  }

  /** `+/-` on a nonzero int changes the display to the negated int and nothing else. */
  lemma ToggleInt(s: CalcState, lib: MathLib, i: int)
    requires ShowsInt(s.display, i) && i != 0
    ensures ToggleSign(s, i as real, lib) == s.(display := Text(IntToString(-i)))
  {
    if i > 0 {
      ToggleIntPositive(s, lib, i);
    } else {
      ToggleIntNegative(s, lib, i);
    }
  }

  /** On a nonzero int, `+/-` shows the negated int and leaves the other fields alone. */
  lemma SignToggleNegates(s: CalcState, lib: MathLib, i: int)
    requires ShowsInt(s.display, i) && i != 0
    ensures After(s, PlusMinus, lib) == s.(display := After(s, PlusMinus, lib).display)
    ensures ShowsInt(After(s, PlusMinus, lib).display, -i)
  {
    ShowsIntReads(s.display, i);
    StepPlusMinus(s, lib, i as real);
    ToggleInt(s, lib, i);
  }

  /** Pressing `+/-` twice on a nonzero int shows the same int again. */
  lemma SignToggleTwice(s: CalcState, lib: MathLib, i: int)
    requires ShowsInt(s.display, i) && i != 0
    ensures ShowsInt(Run(s, [PlusMinus, PlusMinus], lib).display, i)
    ensures ParseDisplay(Run(s, [PlusMinus, PlusMinus], lib).display) == Some(i as real)
  {
    TogglesInt(s, lib, i);
    RunTwo(s, PlusMinus, PlusMinus, lib);
  }

  /** Two `+/-` presses on a nonzero int, one after the other. */
  lemma TogglesInt(s: CalcState, lib: MathLib, i: int)
    requires ShowsInt(s.display, i) && i != 0
    ensures var d := After(After(s, PlusMinus, lib), PlusMinus, lib).display;
      ShowsInt(d, i) && ParseDisplay(d) == Some(i as real)
  {
    var s' := After(s, PlusMinus, lib);
    SignToggleNegates(s, lib, i);
    assert - -i == i;
    SignToggleNegates(s', lib, -i);
    ShowsIntReads(After(s', PlusMinus, lib).display, i);
  }

  /**
   * `str` of the positive float `y` is unsigned text that `float` reads back
   * as `y`, as Python's shortest round-tripping float repr is.
   */
  predicate ReadsBack(lib: MathLib, y: real) {
    var t := lib.repr(y);
    |t| > 0 && t[0] != '-' && t[0] != '+' && ParseFloat(t) == Some(y)
  }

  /** Display text does not start with '+' (no click writes one there). */
  predicate NoPlusSign(d: Display) {
    d.Text? && |d.s| > 0 ==> d.s[0] != '+'
  }

  /** A display that reads as a number is not "Error". */
  lemma ReadableNotError(d: Display)
    requires ParseDisplay(d).Some?
    ensures d != ErrorText
  {
    ErrorUnreadable();
  }

  /** The text a positive value's display prints as reads back as that value, unsigned. */
  lemma StrOfPositive(d: Display, lib: MathLib, x: real)
    requires ParseDisplay(d) == Some(x) && x > 0.0 && NoPlusSign(d) && ReadsBack(lib, x)
    ensures var u := StrOf(d, lib);
      |u| > 0 && u[0] != '-' && u[0] != '+' && ParseFloat(u) == Some(x)
  {
    match d
    case Text(t) =>
    case Num(n) =>
      match n
      case IntVal(i) =>
        ParseIntToString(i);
        assert IntToString(i) == NatToString(i);
        assert IsDigit(NatToString(i)[0]);
      case FloatVal(f) =>
  }

  /** The text `+/-` prints for the absolute value of a negative `x` reads back as `-x`, unsigned. */
  lemma StrOfAbsolute(lib: MathLib, x: real)
    requires x < 0.0 && ReadsBack(lib, -x)
    ensures var u := Str(FormatNumber(FloatVal(-x)), lib);
      |u| > 0 && u[0] != '-' && u[0] != '+' && ParseFloat(u) == Some(-x)
  {
    if IsIntegral(-x) {
      var n: nat := (-x).Floor;
      assert FormatNumber(FloatVal(-x)) == IntVal(n);
      ParseIntToString(n);
      assert IntToString(n) == NatToString(n);
      assert IsDigit(NatToString(n)[0]);
    }
  }

  /** One `+/-` on a nonzero value leaves unsigned-or-'-' text that reads as the negated value. */
  lemma ToggleReads(s: CalcState, lib: MathLib, x: real)
    requires ParseDisplay(s.display) == Some(x) && x != 0.0 && NoPlusSign(s.display)
    requires ReadsBack(lib, if x > 0.0 then x else -x)
    ensures var t := After(s, PlusMinus, lib);
      && t == s.(display := t.display)
      && ParseDisplay(t.display) == Some(-x)
      && NoPlusSign(t.display)
  {
    ReadableNotError(s.display);
    StepPlusMinus(s, lib, x);
    ToggleSignReads(s, lib, x);
  }

  /** `ToggleSign` on a nonzero value leaves text that reads as the negated value. */
  lemma ToggleSignReads(s: CalcState, lib: MathLib, x: real)
    requires ParseDisplay(s.display) == Some(x) && x != 0.0 && NoPlusSign(s.display)
    requires ReadsBack(lib, if x > 0.0 then x else -x)
    ensures var t := ToggleSign(s, x, lib);
      ParseDisplay(t.display) == Some(-x) && NoPlusSign(t.display)
  {
    if x > 0.0 {
      TogglePositiveReads(s, lib, x);
    } else {
      ToggleNegativeReads(s, lib, x);
    }
  }

  lemma TogglePositiveReads(s: CalcState, lib: MathLib, x: real)
    requires ParseDisplay(s.display) == Some(x) && x > 0.0 && NoPlusSign(s.display) && ReadsBack(lib, x)
    ensures var t := ToggleSign(s, x, lib);
      ParseDisplay(t.display) == Some(-x) && NoPlusSign(t.display)
  {
    var u := StrOf(s.display, lib);
    assert ToggleSign(s, x, lib).display == Text("-" + u);
    StrOfPositive(s.display, lib, x);
    NegatedReads(u, x);
  }

  /** '-' in front of unsigned text that reads as `x` gives text that reads as `-x`. */
  lemma NegatedReads(u: string, x: real)
    requires |u| > 0 && u[0] != '-' && u[0] != '+' && ParseFloat(u) == Some(x)
    ensures ParseDisplay(Text("-" + u)) == Some(-x) && NoPlusSign(Text("-" + u))
  {
    ParseNegated(u);
    assert ("-" + u)[0] == '-';
  }

  lemma ToggleNegativeReads(s: CalcState, lib: MathLib, x: real)
    requires x < 0.0 && ReadsBack(lib, -x)
    ensures var t := ToggleSign(s, x, lib);
      ParseDisplay(t.display) == Some(-x) && NoPlusSign(t.display)
  {
    assert ToggleSign(s, x, lib).display == Text(Str(FormatNumber(FloatVal(-x)), lib));
    StrOfAbsolute(lib, x);
  }

  /**
   * Pressing `+/-` twice on any nonzero value gives back a display that
   * reads as the same value, the other fields untouched, provided `str` of
   * the absolute value reads back (always so for an int).
   */
  lemma SignToggleRoundTrip(s: CalcState, lib: MathLib, x: real)
    requires ParseDisplay(s.display) == Some(x) && x != 0.0 && NoPlusSign(s.display)
    requires ReadsBack(lib, if x > 0.0 then x else -x)
    ensures ParseDisplay(After(s, PlusMinus, lib).display) == Some(-x)
    ensures var t := Run(s, [PlusMinus, PlusMinus], lib);
      t == s.(display := t.display) && ParseDisplay(t.display) == Some(x)
  {
    ToggleReads(s, lib, x);
    ToggleTwice(s, After(s, PlusMinus, lib), lib, x);
    RunTwo(s, PlusMinus, PlusMinus, lib);
  }

  /** The second `+/-`, from the state `s'` the first one left. */
  lemma ToggleTwice(s: CalcState, s': CalcState, lib: MathLib, x: real)
    requires s' == s.(display := s'.display)
    requires ParseDisplay(s'.display) == Some(-x) && x != 0.0 && NoPlusSign(s'.display)
    requires ReadsBack(lib, if x > 0.0 then x else -x)
    ensures var t := After(s', PlusMinus, lib);
      t == s.(display := t.display) && ParseDisplay(t.display) == Some(x)
  {
    assert (if -x > 0.0 then -x else - -x) == (if x > 0.0 then x else -x);
    ToggleReads(s', lib, -x);
  }

  /** Two presses in a row. */
  lemma RunTwo(s: CalcState, a: Key, b: Key, lib: MathLib)
    ensures Run(s, [a, b], lib) == After(After(s, a, lib), b, lib)
  {
    var s' := After(s, a, lib);
    assert [a, b][0] == a && [a, b][1..] == [b];
    assert Run(s, [a, b], lib) == Run(s', [b], lib);
    assert [b][0] == b && [b][1..] == [];
    assert Run(s', [b], lib) == Run(After(s', b, lib), [], lib);
  }

  /**
   * `+/-` on the float 0.000005: Python prints it as "5e-06", so the display
   * holds text with an exponent, which the second `+/-` reads back.
   */
  lemma SmallFloatToggle(s: CalcState, lib: MathLib)
    requires s.display == Num(FloatVal(0.000005)) && lib.repr(0.000005) == "5e-06"
    ensures After(s, PlusMinus, lib).display == Text("-5e-06")
    ensures Run(s, [PlusMinus, PlusMinus], lib).display == Text("5e-06")
  {
    ParseSmallFloat();
    StepPlusMinus(s, lib, 0.000005);
    var s' := ToggleSign(s, 0.000005, lib);
    assert s'.display == Text("-5e-06");
    ReadableNotError(s'.display);
    StepPlusMinus(s', lib, -0.000005);
    assert !IsIntegral(0.000005);
    assert ToggleSign(s', -0.000005, lib).display == Text("5e-06");
    RunTwo(s, PlusMinus, PlusMinus, lib);
  }

  // ---------------------------------------------------------------------------
  // The invariant
  // ---------------------------------------------------------------------------

  /** Every state reached from the initial one satisfies the invariant. */
  lemma {:induction false} RunKeepsInv(s: CalcState, keys: seq<Key>, lib: MathLib)
    requires Inv(s)
    ensures Inv(Run(s, keys, lib))
    decreases |keys|
  {
    if keys != [] {
      StepKeepsInv(s, keys[0], lib);
      RunKeepsInv(After(s, keys[0], lib), keys[1..], lib);
    }
  }

  /** In every state reached from the initial one, a digit or '.' never raises. */
  lemma EntryNeverRaises(keys: seq<Key>, k: Key, lib: MathLib)
    requires IsEntryKey(k)
    ensures Step(Run(Initial, keys, lib), k, lib).Done?
  {
    InitialInv();
    RunKeepsInv(Initial, keys, lib);
  }

  /** In a reachable state `calculate` shows "Error" only for a division by zero. */
  lemma ErrorOnlyFromDivision(s: CalcState, b: real, lib: MathLib)
    requires Inv(s)
    ensures Calculate(s.operand1, b, s.operator, lib) == Done(Error) <==> s.operator == "/" && b == 0.0
  {
  }

  // ---------------------------------------------------------------------------
  // Worked sequences
  // ---------------------------------------------------------------------------

  /** The text of a natural number reads as that number. */
  lemma ParseNat(n: nat, t: string)
    requires t == NatToString(n)
    ensures ParseFloat(t) == Some(n as real)
  {
    ParseIntToString(n);
  }

  /** A digit in a fresh display replaces it. */
  lemma FreshDigit(s: CalcState, d: DigitNum, lib: MathLib)
    requires s.display != ErrorText && s.newOperand
    ensures After(s, Digit(d), lib) == s.(display := Text([DigitChar(d)]), newOperand := false)
  {
    EntryKey(s, Digit(d), lib);
  }

  /** `3 + 4` then `*`: the sum 7 is shown and becomes the left operand. */
  lemma ThreePlusFour(lib: MathLib)
    ensures Run(Initial, [Digit(3), Plus, Digit(4), Times], lib) == CalcState(Num(IntVal(7)), "*", 7.0, true)
  {
    var keys := [Digit(3), Plus, Digit(4), Times];
    FreshDigit(Initial, 3, lib);
    var s1 := CalcState(Text("3"), "+", 0.0, false);
    ParseNat(3, "3");
    OperatorChains(s1, Plus, lib, 3.0);
    var s2 := CalcState(Num(IntVal(3)), "+", 3.0, true);
    assert After(s1, Plus, lib) == s2;
    FreshDigit(s2, 4, lib);
    var s3 := CalcState(Text("4"), "+", 3.0, false);
    ParseNat(4, "4");
    OperatorChains(s3, Times, lib, 4.0);
    var s4 := CalcState(Num(IntVal(7)), "*", 7.0, true);
    assert After(s3, Times, lib) == s4;
    assert Run(s3, keys[3..], lib) == s4;
    assert Run(s2, keys[2..], lib) == s4;
    assert Run(s1, keys[1..], lib) == s4;
  }

  /** `2 =` with `7 *` pending shows 14. */
  lemma SevenTimesTwo(lib: MathLib)
    ensures Run(CalcState(Num(IntVal(7)), "*", 7.0, true), [Digit(2), Equals], lib).display == Num(IntVal(14))
  {
    var s4 := CalcState(Num(IntVal(7)), "*", 7.0, true);
    FreshDigit(s4, 2, lib);
    var s5 := CalcState(Text("2"), "*", 7.0, false);
    ParseNat(2, "2");
    EqualsEvaluates(s5, lib, 2.0);
    var s6 := CalcState(Num(IntVal(14)), "+", 0.0, true);
    assert After(s5, Equals, lib) == s6;
    assert Run(s5, [Equals], lib) == s6;
  }

  /** `3 + 4 * 2 =` shows 14: operators apply left to right, without precedence. */
  lemma ChainingLeftToRight(lib: MathLib)
    ensures Run(Initial, [Digit(3), Plus, Digit(4), Times, Digit(2), Equals], lib).display == Num(IntVal(14))
  {
    var keys := [Digit(3), Plus, Digit(4), Times, Digit(2), Equals];
    ThreePlusFour(lib);
    SevenTimesTwo(lib);
    RunSplit(Initial, keys[..4], keys[4..], lib);
    assert keys[..4] == [Digit(3), Plus, Digit(4), Times] && keys[4..] == [Digit(2), Equals];
    assert keys == keys[..4] + keys[4..];
  }

  /** Two digits typed into a fresh display, the first not 0. */
  lemma TypingTwo(s: CalcState, a: DigitNum, b: DigitNum, lib: MathLib)
    requires s.display != ErrorText && s.newOperand && a != 0
    ensures Run(s, [Digit(a), Digit(b)], lib) == s.(display := Text([DigitChar(a), DigitChar(b)]), newOperand := false)
  {
    TypingNumber(s, [Digit(a), Digit(b)], lib);
    LabelsOfTwo(Digit(a), Digit(b));
    assert Label(Digit(a)) + Label(Digit(b)) == [DigitChar(a), DigitChar(b)];
  }

  /** `x^y` with 2 pending and 10 on the display: `=` shows 1024. */
  lemma TwoToTheTen(lib: MathLib)
    ensures After(CalcState(Text("10"), "^", 2.0, false), Equals, lib) == CalcState(Num(IntVal(1024)), "+", 0.0, true)
  {
    var s4 := CalcState(Text("10"), "^", 2.0, false);
    ParseNat(10, "10");
    assert IsIntegral(10.0) && 10.0.Floor == 10;
    assert IntPow(2.0, 10) == 1024.0;
    EqualsEvaluates(s4, lib, 10.0);
  }

  /** `2 x^y 1 0 =` shows 1024. */
  lemma PowerYExample(lib: MathLib)
    ensures Run(Initial, [Digit(2), PowerY, Digit(1), Digit(0), Equals], lib).display == Num(IntVal(1024))
  {
    var keys := [Digit(2), PowerY, Digit(1), Digit(0), Equals];
    FreshDigit(Initial, 2, lib);
    var s1 := CalcState(Text("2"), "+", 0.0, false);
    ParseNat(2, "2");
    PowerYPrimes(s1, lib, 2.0);
    var s2 := CalcState(ZeroText, "^", 2.0, true);
    TypingTwo(s2, 1, 0, lib);
    var s4 := CalcState(Text("10"), "^", 2.0, false);
    TwoToTheTen(lib);
    RunSplit(s2, keys[2..4], keys[4..], lib);
    assert keys[2..4] == [Digit(1), Digit(0)] && keys[2..] == keys[2..4] + keys[4..];
    assert Run(s4, keys[4..], lib) == After(s4, Equals, lib);
    assert Run(s1, keys[1..], lib) == Run(s2, keys[2..], lib);
  }

  /** Running two sequences of presses one after the other. */
  lemma {:induction false} RunSplit(s: CalcState, a: seq<Key>, b: seq<Key>, lib: MathLib)
    ensures Run(s, a + b, lib) == Run(Run(s, a, lib), b, lib)
    decreases |a|
  {
    if a == [] {
      assert a + b == b;
    } else {
      var s' := After(s, a[0], lib);
      assert (a + b)[0] == a[0] && (a + b)[1..] == a[1..] + b;
      assert Run(s, a + b, lib) == Run(s', a[1..] + b, lib);
      assert Run(s, a, lib) == Run(s', a[1..], lib);
      RunSplit(s', a[1..], b, lib);
    }
  }

  lemma LabelsOfTwo(a: Key, b: Key)
    ensures Labels([a, b]) == Label(a) + Label(b)
  {
    assert [a, b][1..] == [b];
    assert [b][1..] == [];
    assert Labels([b]) == Label(b) + "";
    assert Label(b) + "" == Label(b);
  }

  lemma LabelsOfThree(a: Key, b: Key, c: Key)
    ensures Labels([a, b, c]) == Label(a) + Label(b) + Label(c)
  {
    assert [a, b, c][1..] == [b, c];
    LabelsOfTwo(b, c);
  }

  /** `5 x!` shows 120; `1 +/- x!` and `2 . 5 x!` show "Error". */
  lemma FactorialExamples(lib: MathLib)
    ensures Run(Initial, [Digit(5), Fact], lib).display == Num(IntVal(120))
    ensures Run(Initial, [Digit(1), PlusMinus, Fact], lib).display == ErrorText
    ensures Run(Initial, [Digit(2), Point, Digit(5), Fact], lib).display == ErrorText
  {
    FactorialOfFive(lib);
    FactorialOfMinusOne(lib);
    FactorialOfFraction(lib);
  }

  lemma FactorialOfFive(lib: MathLib)
    ensures Run(Initial, [Digit(5), Fact], lib).display == Num(IntVal(120))
  {
    FreshDigit(Initial, 5, lib);
    var s1 := CalcState(Text("5"), "+", 0.0, false);
    ParseNat(5, "5");
    FactorialPress(s1, lib, 5.0);
    assert Factorial(5) == 120;
    assert Run(s1, [Fact], lib) == After(s1, Fact, lib);
  }

  lemma FactorialOfMinusOne(lib: MathLib)
    ensures Run(Initial, [Digit(1), PlusMinus, Fact], lib).display == ErrorText
  {
    FreshDigit(Initial, 1, lib);
    var s1 := CalcState(Text("1"), "+", 0.0, false);
    ParseNat(1, "1");
    SignToggle(s1, lib, 1.0);
    var s2 := CalcState(Text("-1"), "+", 0.0, false);
    assert After(s1, PlusMinus, lib) == s2;
    ParseNegated("1");
    FactorialPress(s2, lib, -1.0);
    assert Run(s2, [Fact], lib) == After(s2, Fact, lib);
    assert Run(s1, [PlusMinus, Fact], lib) == Run(s2, [Fact], lib);
  }

  lemma ParseTwoPointFive()
    ensures ParseFloat("2.5") == Some(2.5)
  {
    var t := "2.5";
    assert ExpIndex(t) == 3 by {
      assert !IsExpMark(t[0]) && !IsExpMark(t[1]) && !IsExpMark(t[2]);
    }
    assert t[..3] == t && Unsigned(t) == t;
    assert PointIndex("2.5") == 1 by {
      assert "2.5"[1..] == ".5";
    }
    assert "2.5"[..1] == "2" && "2.5"[2..] == "5";
    assert WholeValue("2") == 2 by {
      assert "2"[..0] == "";
    }
    assert FractionValue("5") == 0.5 by {
      assert "5"[1..] == "";
    }
  }

  lemma TypingTwoPointFive(lib: MathLib)
    ensures Run(Initial, [Digit(2), Point, Digit(5)], lib) == CalcState(Text("2.5"), "+", 0.0, false)
  {
    TypingNumber(Initial, [Digit(2), Point, Digit(5)], lib);
    LabelsOfThree(Digit(2), Point, Digit(5));
    assert DigitChar(2) == '2' && DigitChar(5) == '5';
    assert Label(Digit(2)) + Label(Point) + Label(Digit(5)) == "2.5";
  }

  lemma FactorialOfFraction(lib: MathLib)
    ensures Run(Initial, [Digit(2), Point, Digit(5), Fact], lib).display == ErrorText
  {
    var keys := [Digit(2), Point, Digit(5), Fact];
    TypingTwoPointFive(lib);
    var s3 := CalcState(Text("2.5"), "+", 0.0, false);
    ParseTwoPointFive();
    assert !IsIntegral(2.5);
    FactorialPress(s3, lib, 2.5);
    RunSplit(Initial, keys[..3], keys[3..], lib);
    assert keys[..3] == [Digit(2), Point, Digit(5)] && keys == keys[..3] + keys[3..];
    assert Run(s3, keys[3..], lib) == After(s3, Fact, lib);
  }

  /** `5 0 %` shows 0.5. */
  lemma PercentExample(lib: MathLib)
    ensures Run(Initial, [Digit(5), Digit(0), Percent], lib).display == Num(FloatVal(0.5))
  {
    var keys := [Digit(5), Digit(0), Percent];
    TypingTwo(Initial, 5, 0, lib);
    var s2 := CalcState(Text("50"), "+", 0.0, false);
    ParseNat(50, "50");
    PercentPress(s2, lib, 50.0);
    RunSplit(Initial, keys[..2], keys[2..], lib);
    assert keys[..2] == [Digit(5), Digit(0)] && keys == keys[..2] + keys[2..];
    assert Run(s2, keys[2..], lib) == After(s2, Percent, lib);
  }

  /** `1 6 √` shows the int 4 when the library's square root of 16 is 4. */
  lemma SquareRootExample(lib: MathLib)
    requires lib.pow(16.0, 0.5) == 4.0
    ensures Run(Initial, [Digit(1), Digit(6), SquareRoot], lib).display == Num(IntVal(4))
  {
    var keys := [Digit(1), Digit(6), SquareRoot];
    TypingTwo(Initial, 1, 6, lib);
    var s2 := CalcState(Text("16"), "+", 0.0, false);
    RootOfSixteen(s2, lib);
    RunSplit(Initial, keys[..2], keys[2..], lib);
    assert keys[..2] == [Digit(1), Digit(6)] && keys == keys[..2] + keys[2..];
    assert Run(s2, keys[2..], lib) == After(s2, SquareRoot, lib);
  }

  lemma RootOfSixteen(s: CalcState, lib: MathLib)
    requires lib.pow(16.0, 0.5) == 4.0 && s.display == Text("16")
    ensures After(s, SquareRoot, lib).display == Num(IntVal(4))
  {
    ParseNat(16, "16");
    assert !IsIntegral(0.5);
    FunctionPress(s, SquareRoot, lib, 16.0);
  }

}
