# Eight Tk calculators, modelled in Dafny

The repository holds eight small desktop calculators written in Python with
Tkinter. They come in two kinds.

- **Expression calculators** keep an expression: text that grows as buttons
  are clicked or keys typed, and that Python's `eval` evaluates on `=`. These
  are calckenda.py, usingDuckType.py and calculator.py. In the first two an
  engine object owns the expression and the window shows it. In calculator.py
  the window owns the expression and writes the result back into it. All three
  rewrite the power alias `^` to Python's `**` when a button appends it. The
  `calculate` of each turns any exception into the text "Error"; calckenda.py's
  `percentage` and `sqrt` answer "Errror" instead.
- **Two-operand calculators** keep the display text, a first operand and an
  operation. The operator button parses the display as the first operand. The
  `=` button parses it as the second operand and shows the result or an error
  text. These are notationDuckCalc.py, catCalculator.py, typenotationclac.py
  and Claudecalc.py. calc.py has the same shape, but it keeps the first
  operand as unparsed text. Its `=` therefore applies Python's operators to two
  strings.

Each handler is modelled twice.

1. As a pure function from the state before to the state after:
   - `TwoOperand.State` for the two-operand calculators;
   - `Calc.AppState` for calc.py;
   - `Expression.Screen` for the expression calculators.
2. As a method of a class with the program's own fields. The method performs
   the program's statements in order, including the Tk entry's
   delete-then-insert. Its `ensures` proves it equal to that function.

The properties are proved about the functions. They are:

- where each key goes;
- which error text each failure shows;
- that an error text stays on the display until clear or backspace;
- that buttons build the expression from their spellings;
- that the display mirrors the expression.

Python's own machinery enters as parameters. These are `float()`
(`Python.Parser`), `str(eval(...))` (`Python.Evaluator`), the numeric value of
`eval` (`CalcKenda.NumberEvaluator`) and the formatting of a result
(`Python.Render`). Python's `in` on strings is substring containment
(`Python.In`). So the empty `char` of a modifier key is "in" every string,
and a text such as `+-` passes the test, while `9.` fails it
(`TwoOperand.RouteOfText`).

Behaviours of the code a reader may not expect:

- Division by zero in the expression calculators ends in the same "Error" as
  a malformed expression. `calculate` catches every exception alike
  (calckenda.py:56-60, usingDuckType.py:49-53, calculator.py:69-75).
- Backspace in calckenda.py clears the whole expression, because the handler
  calls the engine's `clear` (calckenda.py:136-138).
- calckenda.py's `sqrt` always answers "Errror". Its first test calls the
  expression string, which raises TypeError, and its `except` arm catches that
  (calckenda.py:43-54, `CalcKenda.SqrtOf`).
- Only a token that is exactly `^` is rewritten to `**` (calckenda.py:22-26,
  usingDuckType.py:40-44). So appending a whole text in one call leaves a `^`
  inside it (`Expression.AliasOnlyAsWholeToken`).
- In usingDuckType.py, Enter computes the result, but the handler then shows
  the expression again, since no `return` follows (usingDuckType.py:113-118).
- The two-operand calculators leave an error text on the display after a
  failure. Every later input other than clear and backspace keeps it there and
  leaves the operands alone (`NotationDuckCalc.ErrorIsSticky`).
- calc.py's clear empties only the entry and keeps the first operand and the
  operation (calc.py:52-53).
- calc.py's `=` concatenates the two texts for `+`, so `5 + 3` shows "53". It
  shows "Error" for `-`, `*` and `/`, because Python's operators on a str
  raise TypeError (calc.py:60-76).

## Model

| member | source | states |
|---|---|---|
| Python.CharIn | calckenda.py:119 | a one-character text is `in` a string exactly when the character occurs in it, so Python's substring test on a typed char is character membership |
| Python.EmptyIsIn | notationDuckCalc.py:161-162 | the empty text is `in` every string, so a key event with an empty `char` passes both `in` tests |
| Python.In | notationDuckCalc.py:160-166 | Python's `needle in hay` on two str values holds when the needle occurs at some index of the hay; a needle that is in the hay is no longer than it, and every text is in itself |
| Python.InTransitive | notationDuckCalc.py:160-166 | a text in a text that is in `hay` is in `hay` |
| Python.FirstIn | notationDuckCalc.py:160-166 | the first character of a non-empty text that is in `hay` occurs in `hay` |
| Python.DropLast | notationDuckCalc.py:172 | `text[:-1]` is the text without its last character, and the empty text for the empty text |
| TwoOperand.Clicked | notationDuckCalc.py:174-177 | `button_click` appends the number to the display and leaves operand and operation alone |
| TwoOperand.Backspaced | notationDuckCalc.py:169-172 | the backspace handler removes exactly the last character of the display, keeping operand and operation |
| TwoOperand.Cleared | notationDuckCalc.py:179-182 | `button_clear` empties the display and resets the operand to 0 and the operation to empty, whatever the state |
| TwoOperand.RouteOfChar | notationDuckCalc.py:160-167 | a typed character: digits and `.` click, `+ - * /` are operators, `=` evaluates, anything else is ignored |
| TwoOperand.RouteOf | notationDuckCalc.py:160-167 | where a typed text goes, for any text: only a text in `0123456789+-*/.=` is acted on; a run of digits goes to `button_click`, a non-empty run of operators to `button_operator`, and exactly the text "=" to `button_equal` |
| TwoOperand.RouteOfText | notationDuckCalc.py:160-167 | texts of two characters: "12" clicks and "+-" is an operator, but "9." is ignored: it is in `0123456789.`, but not in `valid_chars`, where `.` does not follow `9` |
| TwoOperand.DigitsRun | notationDuckCalc.py:160-162 | a text in the digits passes both `valid_chars` and the click range |
| TwoOperand.OperatorsRun | notationDuckCalc.py:160-165 | a non-empty text in `+-*/` passes `valid_chars` and fails the click range |
| TwoOperand.EqualInNoRange | notationDuckCalc.py:160-167 | `=` passes `valid_chars` and fails both ranges |
| TwoOperand.RouteOfEmpty | notationDuckCalc.py:161-163 | an empty `char` passes both `in` tests and reaches `button_click` |
| TwoOperand.ClickedEmpty | notationDuckCalc.py:174-177 | clicking the empty text changes nothing |
| TwoOperand.ClickedKeepsError | notationDuckCalc.py:174-177 | appending to a text that starts with an error keeps it an error text |
| NotationDuckCalc.ShowError | notationDuckCalc.py:232-235 | the display becomes "Error: " followed by the message, and operand and operation stay |
| NotationDuckCalc.InvalidInputText | notationDuckCalc.py:232-235 | `_show_error("Invalid input")` leaves "Error: Invalid input" on the display |
| NotationDuckCalc.InvalidOperationText | notationDuckCalc.py:232-235 | `_show_error("Invalid operation")` leaves "Error: Invalid operation" on the display |
| NotationDuckCalc.DivisionByZeroText | notationDuckCalc.py:232-235 | `_show_error("Division by zero")` leaves "Error: Division by zero" on the display |
| NotationDuckCalc.OperatorPressed | notationDuckCalc.py:184-190 | a parsable display becomes the first operand with the operation recorded and the display emptied; otherwise only the display changes, to "Error: Invalid input" |
| NotationDuckCalc.Calculation | notationDuckCalc.py:204-223 | the operator table gives the sum, difference, product or quotient; an unknown operation is "Invalid operation" and a zero divisor "Division by zero" |
| NotationDuckCalc.Operations | notationDuckCalc.py:206-211 | the `operations` dict has exactly the keys `+ - * /`; the first three give the sum, difference and product, and `/` gives None exactly for a zero divisor and the quotient otherwise |
| NotationDuckCalc.EqualPressed | notationDuckCalc.py:192-202 | `=` on an unparsable display shows "Error: Invalid input", on an unknown operation "Error: Invalid operation", on a zero divisor "Error: Division by zero", and otherwise the rendered result; operand and operation never change |
| NotationDuckCalc.KeyPressed | notationDuckCalc.py:156-167 | an event without `char`, or with a `char` outside the valid characters, changes nothing |
| NotationDuckCalc.OtherKeysChangeNothing | notationDuckCalc.py:156-167 | a single character outside `0123456789+-*/.=`, or the empty `char`, leaves the state exactly as it was |
| NotationDuckCalc.KeyRoutes | notationDuckCalc.py:160-167 | for every typed character: a digit or `.` does what `button_click` does, `+ - * /` what `button_operator` does, and `=` what `button_equal` does |
| NotationDuckCalc.StepKeepsError | notationDuckCalc.py:174-202 | while an error text is shown, any one handler other than clear and backspace keeps an error text and the operands |
| NotationDuckCalc.ErrorIsSticky | notationDuckCalc.py:174-202 | by induction over the inputs: once an error text is shown, no sequence of inputs without clear or backspace removes it or changes the operands |
| NotationDuckCalc.OperatorThenEqual | notationDuckCalc.py:184-223 | operator, second operand, `=`: the sum, difference, product or quotient of the two parsed numbers, or the division-by-zero or invalid-operation error |
| NotationDuckCalc.EqualAfterClear | notationDuckCalc.py:179-202 | right after clear, `=` shows "Error: Invalid input" on the empty display and "Error: Invalid operation" after a number |
| NotationDuckCalc.Calculator.constructor | notationDuckCalc.py:38-40 | a new window has an empty display, operand 0 and no operation |
| NotationDuckCalc.Calculator.HandleKeypress | notationDuckCalc.py:156-167 | the handler's statements leave the fields as `KeyPressed` says |
| NotationDuckCalc.Calculator.HandleBackspace | notationDuckCalc.py:169-172 | the handler's statements leave the fields as `Backspaced` says |
| NotationDuckCalc.Calculator.ButtonClick | notationDuckCalc.py:174-177 | the handler's statements leave the fields as `Clicked` says |
| NotationDuckCalc.Calculator.ButtonClear | notationDuckCalc.py:179-182 | the handler's statements leave the fields as `Cleared` says |
| NotationDuckCalc.Calculator.ButtonOperator | notationDuckCalc.py:184-190 | the handler's statements leave the fields as `OperatorPressed` says |
| NotationDuckCalc.Calculator.ButtonEqual | notationDuckCalc.py:192-202 | the handler's statements leave the fields as `EqualPressed` says |
| NotationDuckCalc.Calculator.Calculate | notationDuckCalc.py:204-223 | `_calculate` returns the value `Calculation` gives and changes nothing, or returns nothing and shows that error |
| NotationDuckCalc.Calculator.DisplayResult | notationDuckCalc.py:225-230 | the rendered result is inserted at the front of the display |
| NotationDuckCalc.Calculator.ShowMessage | notationDuckCalc.py:232-235 | the display is replaced by "Error: " and the message |
| CatCalculator.Calculator.constructor | catCalculator.py:35-37 | a new window has an empty display, operand 0 and no operation |
| CatCalculator.Calculator.HandleKeypress | catCalculator.py:146-158 | the handler's statements leave the fields as `NotationDuckCalc.KeyPressed` says |
| CatCalculator.Calculator.HandleBackspace | catCalculator.py:160-163 | the handler's statements leave the fields as `Backspaced` says |
| CatCalculator.Calculator.ButtonClick | catCalculator.py:165-168 | the handler's statements leave the fields as `Clicked` says |
| CatCalculator.Calculator.ButtonClear | catCalculator.py:170-173 | the handler's statements leave the fields as `Cleared` says |
| CatCalculator.Calculator.ButtonOperator | catCalculator.py:175-181 | the handler's statements leave the fields as `NotationDuckCalc.OperatorPressed` says |
| CatCalculator.Calculator.ButtonEqual | catCalculator.py:183-193 | the handler's statements leave the fields as `NotationDuckCalc.EqualPressed` says |
| CatCalculator.Calculator.Calculate | catCalculator.py:195-213 | returns the value `Calculation` gives and changes nothing, or returns nothing and shows that error |
| CatCalculator.Calculator.DisplayResult | catCalculator.py:215-220 | the rendered result is inserted at the front of the display |
| CatCalculator.Calculator.ShowMessage | catCalculator.py:222-225 | the display is replaced by "Error: " and the message |
| TypeNotationCalc.OperatorPressed | typenotationclac.py:152-159 | a parsable display becomes the first operand with the operation recorded; otherwise the display shows "Error" and nothing else changes |
| TypeNotationCalc.EqualPressed | typenotationclac.py:161-191 | `=` shows the sum, difference, product or quotient, "Error: Div by 0" for a zero divisor, "Error" for an unparsable display and nothing for an unknown operation; operand and operation never change |
| TypeNotationCalc.KeyPressed | typenotationclac.py:127-135 | a character outside the valid characters changes nothing |
| TypeNotationCalc.OtherKeysChangeNothing | typenotationclac.py:127-135 | a single character outside `0123456789+-*/.=`, or the empty `char`, leaves the state as it was |
| TypeNotationCalc.KeyRoutes | typenotationclac.py:128-135 | for every typed character: a digit or `.` does what `button_click` does, `+ - * /` what `button_operator` does, and `=` what `button_equal` does |
| TypeNotationCalc.StepKeepsError | typenotationclac.py:142-191 | while an error text is shown, any one handler other than clear and backspace keeps an error text and the operands |
| TypeNotationCalc.ErrorIsSticky | typenotationclac.py:142-191 | by induction: no sequence of inputs without clear or backspace removes an error text or changes the operands |
| TypeNotationCalc.OperatorThenEqual | typenotationclac.py:152-191 | operator, second operand, `=`: the arithmetic result, "Error: Div by 0", or an empty display for an unknown operation |
| TypeNotationCalc.Calculator.constructor | typenotationclac.py:20-22 | a new window has an empty display, operand 0 and no operation |
| TypeNotationCalc.Calculator.HandleKeypress | typenotationclac.py:127-135 | the handler's statements leave the fields as `KeyPressed` says |
| TypeNotationCalc.Calculator.HandleBackspace | typenotationclac.py:137-140 | the handler's statements leave the fields as `Backspaced` says |
| TypeNotationCalc.Calculator.ButtonClick | typenotationclac.py:142-145 | the handler's statements leave the fields as `Clicked` says |
| TypeNotationCalc.Calculator.ButtonClear | typenotationclac.py:147-150 | the handler's statements leave the fields as `Cleared` says |
| TypeNotationCalc.Calculator.ButtonOperator | typenotationclac.py:152-159 | the handler's statements leave the fields as `OperatorPressed` says |
| TypeNotationCalc.Calculator.ButtonEqual | typenotationclac.py:161-191 | the if/elif chain leaves the fields as `EqualPressed` says |
| ClaudeCalc.EqualPressed | Claudecalc.py:113-140 | as in typenotationclac.py, except that an unknown operation shows "0" where `int.is_integer` exists and nothing where it does not |
| ClaudeCalc.KeyPressed | Claudecalc.py:79-87 | a character outside the valid characters changes nothing |
| ClaudeCalc.OtherKeysChangeNothing | Claudecalc.py:79-87 | a single character outside `0123456789+-*/.=`, or the empty `char`, leaves the state as it was |
| ClaudeCalc.KeyRoutes | Claudecalc.py:80-87 | for every typed character: a digit or `.` does what `button_click` does, `+ - * /` what `button_operator` does, and `=` what `button_equal` does |
| ClaudeCalc.StepKeepsError | Claudecalc.py:94-140 | while an error text is shown, any one handler other than clear and backspace keeps an error text and the operands |
| ClaudeCalc.ErrorIsSticky | Claudecalc.py:94-140 | by induction: no sequence of inputs without clear or backspace removes an error text or changes the operands |
| ClaudeCalc.OperatorThenEqual | Claudecalc.py:104-140 | operator, second operand, `=`: the arithmetic result, "Error: Div by 0", or for an unknown operation "0" or nothing |
| ClaudeCalc.Calculator.constructor | Claudecalc.py:16-18 | a new window has an empty display, operand 0 and no operation |
| ClaudeCalc.Calculator.HandleKeypress | Claudecalc.py:79-87 | the handler's statements leave the fields as `KeyPressed` says |
| ClaudeCalc.Calculator.HandleBackspace | Claudecalc.py:89-92 | the handler's statements leave the fields as `Backspaced` says |
| ClaudeCalc.Calculator.ButtonClick | Claudecalc.py:94-97 | the handler's statements leave the fields as `Clicked` says |
| ClaudeCalc.Calculator.ButtonClear | Claudecalc.py:99-102 | the handler's statements leave the fields as `Cleared` says |
| ClaudeCalc.Calculator.ButtonOperator | Claudecalc.py:104-111 | the handler, the same statements as in typenotationclac.py, leaves the fields as `TypeNotationCalc.OperatorPressed` says |
| ClaudeCalc.Calculator.ButtonEqual | Claudecalc.py:113-140 | the handler's statements, starting from the int result 0, leave the fields as `EqualPressed` says |
| Expression.NotAKey | calckenda.py:119 | a character outside the range `(`..`9` is not `in` `0123456789+-*/().` |
| Expression.SpelledSplits | calckenda.py:22-26 | the text appended for two runs of tokens is the two texts one after the other |
| Expression.Spelling | calckenda.py:23-26 | the text `append` adds: `**` for exactly the text `^`, and any other text unchanged, so a text that merely contains `^` keeps it |
| Expression.SpelledWithoutAlias | calckenda.py:22-26 | without a `^` token, appending tokens one at a time gives the same text as appending them joined in one call, since the joined text is not `^` either |
| Expression.AliasOnlyAsWholeToken | calckenda.py:22-26 | `2`, `^`, `3` appended one at a time give `2**3`, but `2^3` appended in one call stays `2^3` |
| Expression.NoAliasReachesEvaluator | calckenda.py:22-26 | tokens of one character, as the buttons give, never leave a `^` in the expression |
| Expression.Evaluated | calckenda.py:56-60 | the evaluator's text, or "Error" when evaluation raises |
| Expression.ButtonClicked | calckenda.py:106-115 | "C" empties expression and display, "=" shows the result and keeps the expression, any other button is appended with its spelling and shown |
| Expression.ClicksBuildExpression | usingDuckType.py:97-107 | by induction: buttons other than "C" and "=" build the expression from their spellings, and the display shows it |
| Expression.EqualTwiceShowsSameResult | calckenda.py:106-111 | "=" leaves the expression alone, so clicking it twice shows the same text as once |
| CalcKenda.PercentageOf | calckenda.py:30-41 | a trailing `%` makes the number before it the operand, otherwise the evaluated expression is; the display gets it divided by 100, or "Errror" on failure |
| CalcKenda.CalculatorEngine.constructor | calckenda.py:19-20 | a new engine has the empty expression |
| CalcKenda.CalculatorEngine.Append | calckenda.py:22-26 | the expression gains the token's spelling: `**` for `^`, the token itself otherwise |
| CalcKenda.CalculatorEngine.Clear | calckenda.py:28-29 | the expression becomes empty |
| CalcKenda.CalculatorEngine.Calculate | calckenda.py:56-60 | the evaluated expression, or "Error" when evaluation raises |
| CalcKenda.CalculatorEngine.Percentage | calckenda.py:30-41 | reads the engine's expression and answers as `PercentageOf` |
| CalcKenda.SqrtOf | calckenda.py:43-54 | the first test calls the expression string, which raises, so the `except` arm answers "Errror" for every expression; the root branches after it are never reached |
| CalcKenda.CallStr | calckenda.py:45 | `self.expression('✓')` calls a str, which always raises TypeError |
| CalcKenda.RootText | calckenda.py:46-47 | the root branches' text: "Errror" when the `float` call or the square root fails, and otherwise the square root's text of the parsed value |
| CalcKenda.CalculatorEngine.Sqrt | calckenda.py:43-54 | reads the engine's expression and answers as `SqrtOf`, that is "Errror" |
| CalcKenda.KeyPressed | calckenda.py:117-139 | a character in `0123456789+-*/().` is appended verbatim and shown; an unhandled key only shows the expression again |
| CalcKenda.SpecialKeys | calckenda.py:117-139 | Enter shows the result, `%` the percentage and `✓` "Errror" (through `SqrtOf`), all keeping the expression; backspace empties expression and display; a typed `^` is not a key and only shows the expression again |
| CalcKenda.PercentButtonThenKey | calckenda.py:30-41 | the `%` button and then the `%` key show the number typed before them divided by 100, or "Errror" |
| CalcKenda.CalculatorUI.constructor | calckenda.py:63-65 | a new window owns a fresh engine with an empty expression and an empty display |
| CalcKenda.CalculatorUI.OnButtonClick | calckenda.py:106-115 | the handler's statements leave engine and display as `ButtonClicked` says |
| CalcKenda.CalculatorUI.HandleKeypress | calckenda.py:117-139 | the handler's statements leave engine and display as `KeyPressed` says |
| UsingDuckType.Display.constructor | usingDuckType.py:25-27 | a new entry is empty |
| UsingDuckType.Display.Update | usingDuckType.py:29-31 | `update` replaces the entry's whole text by the value |
| UsingDuckType.Display.Clear | usingDuckType.py:33-34 | `clear` empties the entry |
| UsingDuckType.CalculatorEngine.constructor | usingDuckType.py:37-38 | a new engine has the empty expression |
| UsingDuckType.CalculatorEngine.Append | usingDuckType.py:40-44 | the expression gains the token's spelling |
| UsingDuckType.CalculatorEngine.Clear | usingDuckType.py:46-47 | the expression becomes empty |
| UsingDuckType.CalculatorEngine.Calculate | usingDuckType.py:49-53 | the evaluated expression, or "Error" |
| UsingDuckType.KeyPressed | usingDuckType.py:109-118 | a character in `0123456789+-*/().` is appended, other keys keep the expression except backspace, and the display always ends showing the expression |
| UsingDuckType.SpecialKeys | usingDuckType.py:113-118 | Enter's result is overwritten at once, so it shows the unchanged expression; backspace removes exactly the last character |
| UsingDuckType.CalculatorUI.constructor | usingDuckType.py:56-58 | the window keeps the display and the engine it is given |
| UsingDuckType.CalculatorUI.OnButtonClick | usingDuckType.py:97-107 | the handler's statements leave engine and display as `ButtonClicked` says |
| UsingDuckType.CalculatorUI.HandleKeypress | usingDuckType.py:109-118 | the handler's statements leave engine and display as `KeyPressed` says |
| Calc.StrOperation | calc.py:63-74 | a Python operator on `f_num` and a str succeeds exactly for `+` on a str, and then concatenates |
| Calc.Clicked | calc.py:47-50 | the entry gains the button's text; operand and operator stay |
| Calc.Cleared | calc.py:52-53 | only the entry is emptied; operand and operator stay |
| Calc.OperatorPressed | calc.py:55-58 | the entry's text, unparsed, becomes the first operand, the operator is recorded and the entry emptied |
| Calc.EqualEntry | calc.py:60-76 | `+` after an operator shows the two texts concatenated; `-`, `*`, `/` and `+` without an operand show "Error"; no operator shows nothing |
| Calc.EqualPressed | calc.py:60-76 | the entry becomes `EqualEntry` of the operand, operator and entry; operand and operator stay |
| Calc.EqualNeverComputes | calc.py:60-76 | `=` shows the operands' concatenation, "Error" or nothing, never a computed number |
| Calc.OperatorThenEqual | calc.py:55-76 | operand, operator, second operand, `=`: the texts concatenated for `+`, "Error" for `-`, `*`, `/`, nothing for any other operator |
| Calc.FivePlusThree | calc.py:47-76 | `5 + 3 =` shows "53" |
| Calc.ClearKeepsOperation | calc.py:52-76 | clear, a new second operand and `=` still use the operand and operator from before the clear |
| Calc.CalculatorApp.constructor | calc.py:9-14 | a new window has an empty entry and neither operand nor operator |
| Calc.CalculatorApp.ButtonClick | calc.py:47-50 | the handler's statements leave the fields as `Clicked` says |
| Calc.CalculatorApp.ButtonClear | calc.py:52-53 | the handler's statements leave the fields as `Cleared` says |
| Calc.CalculatorApp.ButtonOperator | calc.py:55-58 | the handler's statements leave the fields as `OperatorPressed` says |
| Calc.CalculatorApp.ButtonEqual | calc.py:60-76 | the handler's statements, with each caught TypeError, leave the fields as `EqualPressed` says |
| Calculator.Calculated | calculator.py:69-75 | the expression becomes its evaluation, or "Error", and the display shows it |
| Calculator.Clicked | calculator.py:48-57 | "C" empties the expression, "=" evaluates it, any other button is appended with its spelling; the display shows the expression |
| Calculator.KeyPressed | calculator.py:59-67 | a character in `0123456789+-*/().` is appended verbatim, other unhandled keys keep the expression; the display shows the expression |
| Calculator.SpecialKeys | calculator.py:63-66 | Enter acts as "=" and backspace removes exactly the last character |
| Calculator.ClickedAgreesWithEngine | calculator.py:48-57 | every button but "=" acts as in the calculators with an engine |
| Calculator.ClickAfterEqualContinuesResult | calculator.py:69-75 | after "=", the next button is appended to the result, where the engine calculators append it to the old expression |
| Calculator.DisplayShowsExpression | calculator.py:78-80 | by induction: after any sequence of handlers the display shows exactly the expression |
| Calculator.Calculator.constructor | calculator.py:9-11 | a new window has the empty expression and an empty display |
| Calculator.Calculator.ButtonClick | calculator.py:48-57 | the handler's statements leave the fields as `Clicked` says |
| Calculator.Calculator.KeyPress | calculator.py:59-67 | the handler's statements leave the fields as `KeyPressed` says |
| Calculator.Calculator.Calculate | calculator.py:69-75 | the handler's statements leave the fields as `Calculated` says |
| Calculator.Calculator.UpdateDisplay | calculator.py:78-80 | the display is replaced by the expression, which stays |

## Left out

- The Tk widgets, layout, colours, fonts and window titles are not modelled. An entry widget is modelled as the text it holds. `delete(0, END)` empties it and `insert(0, x)` puts `x` in front.
- The key bindings are not modelled as wiring. Each bound handler is an `Input` case or a method, with the typed `char` as a string parameter.
- `float()` is the parameter `parse`. `FloatLike` assumes only that it rejects the empty text and any text starting with `E`. The error lemmas need that assumption: an error text stays unparsable.
- Floating point is modelled by reals without rounding, and infinities and NaN are not represented. So an infinite result, which the two-operand calculators would show by its float repr (`is_integer()` is false for it), is not modelled.
- Result formatting (`int(result)` for whole numbers, `f"{result:.8g}"` or `str` otherwise) is the parameter `render`.
- Python's `eval` is the parameters `eval` (its `str`) and `evalNumber` (its numeric value). Which expressions evaluate, and to what, is not modelled.
- Typing into the display entry while it has keyboard focus is not modelled. Tk's own Entry bindings would then edit the text before the window's key handler runs, so a typed digit would appear twice and an error text could be edited away by hand. The handler lemmas, `ErrorIsSticky` among them, are about the handlers alone.
- `math.sqrt` is the `squareRoot` parameter of `CalcKenda.SqrtOf`. The branches of calckenda.py's `sqrt` that would call it are never reached.
- The unused `current_number` field of the two-operand calculators is not modelled.
- The first operand starts as the int `0` in the source and as the real `0.0` in the model. No handler can tell the two apart.
- `button_click` of notationDuckCalc.py and catCalculator.py accepts an int and applies `str` to it. The model passes the text, which is what every button passes.
- Claudecalc.py inserts a float result unformatted when it is not whole. That is the same `render` parameter, and `render` is not tied to that format.
- ClaudeCalc.EqualPressed: the Python version decides whether an int has `is_integer`, so the version is the parameter `intHasIsInteger` rather than a fixed choice.
- The main blocks, `create_buttons`, `get_button_color` and the duck-typing protocol classes of usingDuckType.py are not modelled, because they only build the window. Display and engine are concrete classes here.
