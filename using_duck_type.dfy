/**
  usingDuckType.py: the window talks to a display and an engine it is handed,
  through their `update`/`clear` and `append`/`clear`/`calculate` methods.
*/
module UsingDuckType {
  import opened Python
  import opened Expression

  /** The entry widget: `update` replaces its whole text. */
  class Display {
    var text: string

    constructor ()
      ensures text == ""
    {
      text := "";
    }

    method Update(value: string)
      modifies this
      ensures text == value
    {
      text := "";
      text := value + text;
    }

    method Clear()
      modifies this
      ensures text == ""
    {
      Update("");
    }
  }

  class CalculatorEngine {
    var expression: string

    constructor ()
      ensures expression == ""
    {
      expression := "";
    }

    method Append(value: string)
      modifies this
      ensures expression == old(expression) + Spelling(value)
    {
      if value == "^" {
        expression := expression + "**";
      } else {
        expression := expression + value;
      }
    }

    method Clear()
      modifies this
      ensures expression == ""
    {
      expression := "";
    }

    function Calculate(eval: Evaluator): (r: string)
      reads this
      ensures r == Evaluated(eval, expression)
      ensures eval(expression).None? ==> r == "Error"
    {
      Evaluated(eval, expression)
    }
  }

  /**
    `handle_keypress`: a character in `Keys` is appended and backspace drops the
    last character; whatever the key, the handler ends by showing the
    expression, so the result that Enter computes is overwritten at once.
  */
  function KeyPressed(s: Screen, c: string): (r: Screen)
    ensures In(c, Keys) ==> r.expression == s.expression + c
    ensures !In(c, Keys) && c != "\U{8}" ==> r.expression == s.expression
    ensures r.display == r.expression
  {
    if In(c, Keys) then var e := s.expression + c; Screen(e, e)
    else if c == "\r" then s.(display := s.expression)
    else if c == "\U{8}" then var e := DropLast(s.expression); Screen(e, e)
    else s.(display := s.expression)
  }

  /** Enter evaluates but shows only the unchanged expression; backspace drops one character. */
  lemma SpecialKeys(s: Screen)
    ensures KeyPressed(s, "\r") == Screen(s.expression, s.expression)
    ensures s.expression != [] ==>
              KeyPressed(s, "\U{8}").expression + [s.expression[|s.expression| - 1]] == s.expression
    ensures s.expression == [] ==> KeyPressed(s, "\U{8}") == Screen("", "")
  {
    NotAKey("\r");
    NotAKey("\U{8}");
  }

  /** The window, with the display and the engine it was given. */
  class CalculatorUI {
    const engine: CalculatorEngine
    const display: Display

    function Snapshot(): Screen
      reads engine, display
    {
      Screen(engine.expression, display.text)
    }

    constructor (display: Display, engine: CalculatorEngine)
      ensures this.display == display && this.engine == engine
    {
      this.engine := engine;
      this.display := display;
    }

    method OnButtonClick(button: string, eval: Evaluator)
      modifies engine, display
      ensures Snapshot() == ButtonClicked(old(Snapshot()), button, eval)
    {
      if button == "C" {
        engine.Clear();
      } else if button == "=" {
        var result := engine.Calculate(eval);
        display.Update(result);
        return;
      } else {
        engine.Append(button);
      }
      display.Update(engine.expression);
    }

    method HandleKeypress(c: string, eval: Evaluator)
      modifies engine, display
      ensures Snapshot() == KeyPressed(old(Snapshot()), c)
    {
      NotAKey("^");
      if In(c, Keys) {
        engine.Append(c);
      } else if c == "\r" {
        var result := engine.Calculate(eval);
        display.Update(result);
      } else if c == "\U{8}" {
        engine.expression := DropLast(engine.expression);
      }
      display.Update(engine.expression);
    }
  }
}
