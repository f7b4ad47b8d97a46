# Calculator engine and screen history, modelled in Dafny

This project models two pieces of a small collection of Python/Flet apps.

**The calculator engine** is `CalculatorApp` in calculator/main.py: four fields changed by every button click. They are:
- the display (`result.value`): a string, or an int/float object once something was computed;
- the pending operator;
- the left operand;
- the `new_operand` flag, which says the next digit starts a new number.

`button_clicked` dispatches on the text of the pressed button, using `calculate`, `format_number` and `reset`.

The model has three files:
- `numbers.dfy` (module `Numbers`):
  - Python numbers: `Number` is an int, or a float held as an exact real;
  - `format_number`;
  - the conversions the display depends on: `float(text)`, which is a decimal parser, and `str(int)`.
- `calculator.dfy` (module `Calculator`):
  - `calculate`;
  - the pure function `Step`, the specification of one click as `button_clicked` handles it;
  - the class `CalculatorApp`, whose fields are changed in place by `ButtonClicked` and helper methods. Each method is proved to change the fields exactly as `Step` says.
- `calculator_props.dfy` (module `CalculatorProperties`): what the engine promises, proved about `Step` and about `Run`, a sequence of clicks. It covers:
  - clearing;
  - digit entry;
  - left-to-right chaining;
  - the error display;
  - each unary button;
  - the sign toggle;
  - the invariant every reachable state keeps;
  - worked sequences such as `3 + 4 * 2 =` showing 14.

**The screen history** of the weather app (jma2/main.py) is a stack of `(view, args)` entries. `navigate_to` pushes an entry and draws it. `go_back` pops and redraws the new top, but only when more than one entry exists.

`navigation.dfy` (module `Navigation`) models it with two pieces:
- a `Navigator` class whose `stack` and `rendered` fields are sequences. `rendered` records every view call, in order. Views and their arguments are opaque type parameters.
- a pure `Replay` of click sequences, with lemmas about it.

Exceptions that nothing catches are modelled as the outcome `Raised`:
- `float()` of an unreadable display;
- `math.log10` at or below 0;
- `0 ** negative`;
- the TypeError from formatting a complex power;
- adding text to a number object.

In every such branch the source raises before any field is assigned, so a raising click leaves the state unchanged. `ButtonClicked` returns whether the click raised.

The floating-point library is a parameter of type `MathLib`: `x ** y` with a positive base and a non-integral exponent, `log10`, `radians`, `sin`, `cos`, `tan`, `pi` and `str` of a float. The model says where each is used. It does not compute them.

Where the code behaves in ways a reader might not expect, the model follows the code:
- Any click on an "Error" display clears it, not only `AC` or a digit. The pressed key itself is discarded (calculator/main.py:127-129).
- `√` and `∛` of a negative value, `log` at or below 0, and `0 ** negative` raise. They do not show NaN. `√` and `∛` raise because the complex result of `**` makes `format_number` raise TypeError.
- `x^y` is a button of its own. It replaces the pending operation without evaluating it (calculator/main.py:178-183). `^` only ever becomes pending through that button.
- A display with two points (`1..2`) is accepted while typing. The next click that reads the display then raises and changes nothing, except `x!`, which reads it inside its `try` and shows "Error"; `π` does not read the display.
- `str` of a small or large float uses an exponent (`5e-06`), and `+/-` prefixes `-` to that text. `float` reads such text back, so the parser accepts an exponent after the digits.
- `x!` shows "Error" above the C `LONG_MAX`, where `math.factorial` raises OverflowError (calculator/main.py:215). The model uses the 64-bit POSIX value, 2^63 - 1, which is `sys.maxsize` there.

## Model

| member | source | states |
|---|---|---|
| Numbers.FormatNumber | calculator/main.py:248-252 | the result has the argument's value; it is an int exactly when the value is integral; a non-integral argument comes back unchanged |
| Numbers.FormatNumberIdempotent | calculator/main.py:248-252 | formatting twice is formatting once |
| Numbers.Factorial | calculator/main.py:214 | `math.factorial(n)` is at least 1 and at least n |
| Numbers.IntPow | calculator/main.py:267 | an integral power of a nonzero base is nonzero, of a positive base positive |
| Numbers.ParseFloat | calculator/main.py:140 | `float(text)`: text with a leading '-' reads as a value at most 0, other text as a value at least 0 |
| Numbers.ParseFloatAccepts | calculator/main.py:140 | `float(text)` succeeds exactly on an optional sign, then digits with at most one point and at least one digit, then optionally `e` or `E`, an optional sign and at least one digit |
| Numbers.ParseSmallFloat | calculator/main.py:163 | `float("-5e-06")` reads the exponent text `str` gives a small float |
| Numbers.IntToString | calculator/main.py:161 | `str(i)` is non-empty and starts with '-' exactly when `i` is negative |
| Numbers.ParseIntToString | calculator/main.py:161-166 | `float(str(i)) == i` for every int |
| Numbers.ParseNegated | calculator/main.py:161 | prefixing '-' to unsigned text negates what `float` reads |
| Numbers.ParseUnsignedNonNegative | calculator/main.py:160-163 | unsigned text reads as a value that is not negative |
| Calculator.Pow | calculator/main.py:267 | `a ** b` raises exactly for 0 to a negative power or a negative base to a non-integral power; it is exact for integral exponents (the reciprocal for negative ones), and 0 to a positive power is 0 |
| Calculator.Calculate | calculator/main.py:254-269 | "Error" exactly for division by 0 or an unknown operator; raises exactly when `^` raises; `+ - * /` and `^` show their exact results formatted |
| Calculator.ResetState | calculator/main.py:272-275 | `reset()`: operator "+", operand 0, flag set, display kept; the invariant holds after it |
| Calculator.FunctionValue | calculator/main.py:168-203 | a function button's value raises exactly for `√`/`∛` below 0 and `log` at or below 0; `x^2` is not negative; `x^3` has the sign of its argument |
| Calculator.EnterText | calculator/main.py:131-136 | a digit or point raises exactly on a number object typed into; it leaves text, clears the flag, keeps operator and operand, and the text is the label alone or the old text with the label appended |
| Calculator.PressOperator | calculator/main.py:138-147 | raises exactly when the display is unreadable or `calculate` raises; otherwise the pressed operator is pending, the flag is set, and the operand is the shown value, or 0 with "Error" shown |
| Calculator.PressEquals | calculator/main.py:149-153 | raises exactly when an operator press would; otherwise shows what the operator press would show, then resets |
| Calculator.ToggleSign | calculator/main.py:159-166 | only the display changes; zero leaves it alone; a positive value gets '-' prefixed to the display's text |
| Calculator.PressFactorial | calculator/main.py:205-217 | never raises; shows the factorial exactly when the display reads as a non-negative integral value up to `sys.maxsize` (64-bit POSIX), "Error" otherwise; resets |
| Calculator.PressTan | calculator/main.py:232-239 | "Error" exactly when `math.tan` fails, the formatted tangent otherwise; resets |
| Calculator.Step | calculator/main.py:124-246 | on "Error" or `AC` the state becomes the initial one; `AC`, `x!` and `π` never raise; in a state keeping the invariant digits and points never raise |
| Calculator.CalculatorApp.constructor | calculator/main.py:36-40 | display "0", operator "+", operand 0, awaiting a new number; the invariant holds |
| Calculator.CalculatorApp.Reset | calculator/main.py:272-275 | operator "+", operand 0, flag set, display untouched |
| Calculator.CalculatorApp.ButtonClicked | calculator/main.py:124-246 | the fields change exactly as `Step` says, and `raised` is true exactly when `Step` raises; the invariant is kept, and in a state keeping it a digit or point never raises |
| Calculator.CalculatorApp.EnterKey | calculator/main.py:131-136 | a digit or point changes the fields as `EnterText` says; appending to a number object raises |
| Calculator.CalculatorApp.Operate | calculator/main.py:138-147 | `+ - * /` changes the fields as `PressOperator` says |
| Calculator.CalculatorApp.Evaluate | calculator/main.py:149-153 | `=` changes the fields as `PressEquals` says |
| Calculator.CalculatorApp.ReadAndPress | calculator/main.py:155-183 | `%`, `+/-` and `x^y` read the display and change the fields as `ReadThenPress` says |
| Calculator.CalculatorApp.FunctionKey | calculator/main.py:168-230 | the function buttons read the display and change the fields as `ReadThenPress` says |
| Calculator.CalculatorApp.Negate | calculator/main.py:159-166 | the sign toggle changes the fields as `ToggleSign` says |
| Calculator.CalculatorApp.TakeFactorial | calculator/main.py:205-217 | `x!` changes the fields as `PressFactorial` says, an unreadable display included |
| Calculator.CalculatorApp.TangentKey | calculator/main.py:232-239 | `tan` raises exactly on an unreadable display, otherwise changes the fields as `PressTan` says |
| Calculator.CalculatorApp.TakeTangent | calculator/main.py:234-239 | a failing `math.tan` shows "Error"; either way the state is reset |
| Calculator.CalculatorApp.ShowValue | calculator/main.py:168-244 | a unary result is shown formatted and the state reset; a raising one changes nothing |
| CalculatorProperties.ClearResets | calculator/main.py:127-129 | `AC` returns every state to the initial one |
| CalculatorProperties.ErrorDiscardsKey | calculator/main.py:127-129 | on "Error" every key only clears to the initial state |
| CalculatorProperties.EntryKey | calculator/main.py:131-136 | a digit or point replaces "0" or a finished number, and is appended otherwise |
| CalculatorProperties.TypingAppends | calculator/main.py:135-136 | on any typed text other than "0" and "Error" (one starting with '-' from the sign toggle included), a run of digits and points appends its labels |
| CalculatorProperties.TypingNumber | calculator/main.py:131-136 | typing a number whose first key is not 0 (a leading '.' included) on "0" or into a display awaiting a new number shows exactly what was typed |
| CalculatorProperties.OperatorChains | calculator/main.py:138-147 | an operator shows the pending result, keeps it (0 after "Error") as left operand, makes itself pending and awaits a new number |
| CalculatorProperties.EqualsEvaluates | calculator/main.py:149-153 | `=` shows the pending result and resets |
| CalculatorProperties.UnreadableDisplayRaises | calculator/main.py:138-244 | every key that reads a display `float` rejects raises and changes nothing (not `x!` or `π`) |
| CalculatorProperties.UnreadableFactorial | calculator/main.py:207-217 | `x!` on an unreadable display shows "Error" |
| CalculatorProperties.DivisionByZeroRecovers | calculator/main.py:261-263 | dividing by 0 shows "Error", and the next key of any kind only clears it (lines 127-129) |
| CalculatorProperties.FactorialPress | calculator/main.py:205-217 | `x!`: "Error" for negative or non-integral values and above `sys.maxsize` (64-bit POSIX), the factorial otherwise, then reset |
| CalculatorProperties.FunctionPress | calculator/main.py:168-230 | a function button raises exactly when its function does, otherwise shows the value formatted and resets |
| CalculatorProperties.FunctionValues | calculator/main.py:185-198 | `√` and `∛` of 0 show 0 and of a positive value are the library's power with exponent 0.5 and 1/3; `e^x` at a natural `x` is exactly `e` to that power |
| CalculatorProperties.PercentPress | calculator/main.py:155-157 | `%` shows the value divided by 100, unformatted, and resets |
| CalculatorProperties.PowerYPrimes | calculator/main.py:178-183 | `x^y` stores the value, makes `^` pending, shows "0" and discards the earlier pending operation |
| CalculatorProperties.PiPress | calculator/main.py:241-244 | `π` shows `math.pi` formatted and resets |
| CalculatorProperties.SignToggle | calculator/main.py:159-166 | the sign toggle keeps operator, operand and flag: '-' prefixed to a positive value, the formatted absolute value for a negative one, zero unchanged |
| CalculatorProperties.ShowsIntReads | calculator/main.py:160-163 | an int shown as number or text reads as that int |
| CalculatorProperties.ToggleInt | calculator/main.py:159-166 | on a nonzero int the toggle shows the text of its negation |
| CalculatorProperties.SignToggleNegates | calculator/main.py:159-166 | on a nonzero int the display shows the negated int and nothing else changes |
| CalculatorProperties.SignToggleTwice | calculator/main.py:159-166 | on a nonzero int, toggling twice shows the same int again, as a number or as its text |
| CalculatorProperties.SignToggleRoundTrip | calculator/main.py:159-166 | on any nonzero value whose `str` reads back (every int, and every float with a finite decimal expansion), the first toggle leaves a display reading as its negation, and the second gives back a display reading as the value, with operator, operand and flag unchanged |
| CalculatorProperties.SmallFloatToggle | calculator/main.py:159-166 | on the float 0.000005, printed `5e-06`, the first toggle shows "-5e-06" and the second reads it back and shows "5e-06" |
| Calculator.InitialInv | calculator/main.py:36-40 | the initial state keeps the invariant |
| Calculator.StepKeepsInv | calculator/main.py:124-246 | every click keeps the invariant: a known pending operator, and a number object on the display only while awaiting a new number |
| CalculatorProperties.RunKeepsInv | calculator/main.py:124-246 | every reachable state keeps the invariant |
| CalculatorProperties.EntryNeverRaises | calculator/main.py:131-136 | in a reachable state digits and points never raise |
| CalculatorProperties.ErrorOnlyFromDivision | calculator/main.py:254-269 | in a reachable state `calculate` gives "Error" exactly for division by 0 |
| CalculatorProperties.RunSplit | calculator/main.py:124 | running two click sequences in turn is running their concatenation |
| CalculatorProperties.ChainingLeftToRight | calculator/main.py:138-153 | `3 + 4 * 2 =` shows 14 |
| CalculatorProperties.PowerYExample | calculator/main.py:178-183 | `2 x^y 1 0 =` shows 1024, through `=` and `calculate`'s `^` |
| CalculatorProperties.FactorialExamples | calculator/main.py:205-217 | `5 x!` shows 120; `1 +/- x!` and `2 . 5 x!` show "Error" |
| CalculatorProperties.PercentExample | calculator/main.py:155-157 | `5 0 %` shows the float 0.5 |
| CalculatorProperties.SquareRootExample | calculator/main.py:190-193 | `1 6 √` shows the int 4 when the library's square root of 16 is 4 |
| Navigation.Back | jma2/main.py:64-69 | with more than one entry, exactly the top entry is removed; otherwise the stack is unchanged; a non-empty stack stays non-empty |
| Navigation.BackAfterPush | jma2/main.py:59-69 | going back right after `navigate_to` restores a non-empty stack exactly |
| Navigation.BackAfterFirstPush | jma2/main.py:64-66 | on the first screen going back changes nothing |
| Navigation.Replay | jma2/main.py:59-69 | after a sequence of clicks the depth differs from the start by at most the number of clicks |
| Navigation.ReplayKeepsBottom | jma2/main.py:64-69 | after the first screen, no click sequence empties the stack or changes its bottom entry |
| Navigation.ReplayDepth | jma2/main.py:59-69 | the stack grows by at most the number of screens opened |
| Navigation.Navigator.constructor | jma2/main.py:137-138 | the empty stack (line 57) and the first `navigate_to(show_regions)` leave the home screen as the only entry, drawn |
| Navigation.Navigator.NavigateTo | jma2/main.py:59-62 | exactly one entry is pushed and that view is drawn with its args; the page shows the top |
| Navigation.Navigator.GoBack | jma2/main.py:64-69 | the stack becomes `Back` of the old one; the new top is redrawn exactly when more than one entry existed; the page still shows the top |
| Navigation.OpenThenBack | jma2/main.py:59-69 | opening a screen and going back restores the stack and redraws the screen below |

## Left out

- The Flet widgets, the layout, `self.update()`, `print`, `page.add` and `ft.app` (calculator/main.py:1-122, 126, 246, 278-287). They are user interface. A click is modelled by the button it comes from, as a `Key`.
- Floating-point rounding and overflow. Floats are exact reals: `0.1 + 0.2` shows the exact 0.3, and a result too large for a float is an ordinary number.
- The values of `x ** y` with a non-integral exponent, `math.log10`, `math.radians`, `sin`, `cos`, `tan`, `math.pi` and `str(float)`. The functions are fields of the `MathLib` parameter and are used but not computed.
- ParseFloatAccepts: the grammar leaves out what Python's `float` also reads but no click can put on the display, among others: surrounding whitespace, underscores between digits, non-ASCII decimal digits, `inf`, `infinity` and `nan` (the last three would need float overflow, which is not modelled).
- UnreadableDisplayRaises: its "unreadable" text includes the forms `float` reads that the grammar leaves out, among others whitespace, underscores, non-ASCII digits, `inf`, `infinity` and `nan`; no click puts such text on the display.
- SignToggleRoundTrip: for a non-integral value it assumes that `str` of the positive float is unsigned text that `float` reads back exactly, since `str(float)` is a library parameter. Floats are exact reals here and `float` of any text is a finite decimal fraction, so this holds only for values with a finite decimal expansion. A value such as the one `1 / 3 =` shows is not covered: there two toggles do not give back the value in the model, while in Python they do, because the float is already rounded and its repr reads back exactly. The lemma also assumes the display text does not start with '+', which no click writes.
- `operand1 = "0"`, the string stored after an operator shows "Error" (calculator/main.py:144). It is modelled as the number 0. The next click clears the error and resets the operand before anything reads it.
- `format_date` and the SQLite queries `get_regions`, `get_prefectures`, `get_areas` and `get_weather` in jma2/main.py, and the bodies of the four views. They are database I/O and page building; a view is an opaque value.
- jma2/exam.py and jma2/exam2.py, which load JSON and CSV files into SQLite.
- jma/main.py, which is HTTP requests and page building.
- Navigation.BackAfterPush: holds only when the stack already holds a screen. On an empty stack a push and a back leave one entry (`BackAfterFirstPush`). This does not arise in the app, because a back button is only drawn after the first screen was opened.
