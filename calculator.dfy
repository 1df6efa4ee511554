/**
  calculator.py: an expression calculator without a separate engine. Its
  `calculate` writes the result back into the expression, so later buttons
  continue from the result, and every handler ends by copying the expression
  to the display.
*/
module Calculator {
  import opened Python
  import opened Expression

  /** `calculate`: the expression becomes its evaluation, or "Error". */
  function Calculated(s: Screen, eval: Evaluator): (r: Screen)
    ensures r.expression == Evaluated(eval, s.expression) && r.display == r.expression
  {
    var e := Evaluated(eval, s.expression); Screen(e, e)
  }

  /**
    `button_click`: "C" empties the expression, "=" evaluates it, and any other
    button is appended with its spelling; the display then shows the expression.
  */
  function Clicked(s: Screen, button: string, eval: Evaluator): (r: Screen)
    ensures button == "C" ==> r.expression == ""
    ensures button == "=" ==> r.expression == Evaluated(eval, s.expression)
    ensures button != "C" && button != "=" ==> r.expression == s.expression + Spelling(button)
    ensures r.display == r.expression
  {
    if button == "C" then Screen("", "")
    else if button == "=" then Calculated(s, eval)
    else var e := s.expression + Spelling(button); Screen(e, e)
  }

  /**
    `key_press`: a character in `Keys` is appended verbatim, Enter evaluates and
    backspace drops the last character; the display then shows the expression.
  */
  function KeyPressed(s: Screen, c: string, eval: Evaluator): (r: Screen)
    ensures In(c, Keys) ==> r.expression == s.expression + c
    ensures !In(c, Keys) && c != "\r" && c != "\U{8}" ==> r.expression == s.expression
    ensures r.display == r.expression
  {
    if In(c, Keys) then var e := s.expression + c; Screen(e, e)
    else if c == "\r" then Calculated(s, eval)
    else if c == "\U{8}" then var e := DropLast(s.expression); Screen(e, e)
    else s.(display := s.expression)
  }

  /** Enter evaluates like "=", and backspace removes one character. */
  lemma SpecialKeys(s: Screen, eval: Evaluator)
    ensures KeyPressed(s, "\r", eval) == Clicked(s, "=", eval)
    ensures s.expression != [] ==>
              KeyPressed(s, "\U{8}", eval).expression + [s.expression[|s.expression| - 1]] == s.expression
    ensures s.expression == [] ==> KeyPressed(s, "\U{8}", eval) == Screen("", "")
  {
    NotAKey("\r");
    NotAKey("\U{8}");
  }

  /** Buttons other than "=" act exactly as in the calculators with an engine. */
  lemma ClickedAgreesWithEngine(s: Screen, button: string, eval: Evaluator)
    requires button != "="
    ensures Clicked(s, button, eval) == ButtonClicked(s, button, eval)
  {
  }

  /** After "=", the next button continues from the result, unlike with an engine, whose expression "=" leaves alone. */
  lemma ClickAfterEqualContinuesResult(s: Screen, button: string, eval: Evaluator)
    requires button != "C" && button != "="
    ensures Clicked(Clicked(s, "=", eval), button, eval).expression == Evaluated(eval, s.expression) + Spelling(button)
    ensures ButtonClicked(ButtonClicked(s, "=", eval), button, eval).expression == s.expression + Spelling(button)
  {
  }

  /** The handlers the window binds: the buttons and `<Key>`. */
  datatype Input = Button(text: string) | Key(typed: string)

  function Step(s: Screen, input: Input, eval: Evaluator): (r: Screen)
  {
    match input
    case Button(text) => Clicked(s, text, eval)
    case Key(c) => KeyPressed(s, c, eval)
  }

  function Run(s: Screen, inputs: seq<Input>, eval: Evaluator): (r: Screen)
    decreases |inputs|
  {
    if inputs == [] then s else Run(Step(s, inputs[0], eval), inputs[1..], eval)
  }

  /** After any handler, and so after any sequence of them, the display shows exactly the expression. */
  lemma {:induction false} DisplayShowsExpression(s: Screen, inputs: seq<Input>, eval: Evaluator)
    requires s.display == s.expression
    ensures Run(s, inputs, eval).display == Run(s, inputs, eval).expression
    decreases |inputs|
  {
    if inputs != [] {
      DisplayShowsExpression(Step(s, inputs[0], eval), inputs[1..], eval);
    }
  }

  /** The window's expression and display, updated in place by its handlers. */
  class Calculator {
    var expression: string
    var display: string

    function Snapshot(): Screen
      reads this
    {
      Screen(expression, display)
    }

    constructor ()
      ensures Snapshot() == Screen("", "")
    {
      expression := "";
      display := "";
    }

    method ButtonClick(button: string, eval: Evaluator)
      modifies this
      ensures Snapshot() == Clicked(old(Snapshot()), button, eval)
    {
      if button == "C" {
        expression := "";
      } else if button == "=" {
        Calculate(eval);
      } else if button == "^" {
        expression := expression + "**";
      } else {
        expression := expression + button;
      }
      UpdateDisplay();
    }

    method KeyPress(c: string, eval: Evaluator)
      modifies this
      ensures Snapshot() == KeyPressed(old(Snapshot()), c, eval)
    {
      if In(c, Keys) {
        expression := expression + c;
      } else if c == "\r" {
        Calculate(eval);
      } else if c == "\U{8}" {
        expression := DropLast(expression);
      }
      UpdateDisplay();
    }

    method Calculate(eval: Evaluator)
      modifies this
      ensures Snapshot() == Calculated(old(Snapshot()), eval)
    {
      var result := eval(expression);
      if result.Some? {
        expression := result.value;
      } else {
        expression := "Error";
      }
      UpdateDisplay();
    }

    method UpdateDisplay()
      modifies this
      ensures Snapshot() == Screen(old(expression), old(expression))
    {
      display := "";
      display := expression + display;
    }
  }
}
