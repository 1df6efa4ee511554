/**
  calckenda.py: an expression buffer (`CalculatorEngine`) and the window that
  feeds it (`CalculatorUI`), whose display is modelled as the text it shows.
*/
module CalcKenda {
  import opened Python
  import opened Expression

  /**
    The number Python's `eval` gives for an expression, or None when it raises
    or gives something that cannot be divided by 100.
  */
  type NumberEvaluator = string -> Option<real>

  /** `str(math.sqrt(value))`, or None when `math.sqrt` raises. */
  type SquareRoot = real -> Option<string>

  /**
    `percentage`: an expression ending in `%` is the number before the `%`,
    and any other expression is evaluated; the result is that number divided
    by 100, and any failure on the way gives "Errror" (three r's).
  */
  function PercentageOf(expression: string, parse: Parser, evalNumber: NumberEvaluator, render: Render): (r: string)
    ensures expression != [] && expression[|expression| - 1] == '%' ==>
              r == match parse(DropLast(expression))
                   case Some(value) => render(Over(value, 100.0))
                   case None => "Errror"
    ensures (expression == [] || expression[|expression| - 1] != '%') ==>
              r == match evalNumber(expression)
                   case Some(value) => render(Over(value, 100.0))
                   case None => "Errror"
  {
    var operand := if expression != [] && expression[|expression| - 1] == '%'
                   then parse(DropLast(expression))
                   else evalNumber(expression);
    match operand
    case Some(value) => render(Over(value, 100.0))
    case None => "Errror"
  }

  /** The outcome of a Python call: it raised, or it returned a value. */
  datatype Call<T> = Raised | Returned(value: T)

  /** Calling a str object, as `self.expression('✓')` does: a str is not callable, so Python raises TypeError. */
  function CallStr(callee: string, argument: string): (r: Call<bool>)
    ensures r == Raised
  {
    Raised
  }

  /**
    `str(math.sqrt(value))` for the result of the `float` call before it: a
    failed parse or a failed square root is caught and gives "Errror".
  */
  function RootText(value: Option<real>, squareRoot: SquareRoot): (r: string)
    ensures value.None? ==> r == "Errror"
    ensures value.Some? && squareRoot(value.value).None? ==> r == "Errror"
    ensures r != "Errror" ==> value.Some? && squareRoot(value.value) == Some(r)
  {
    match value
    case None => "Errror"
    case Some(v) =>
      match squareRoot(v)
      case None => "Errror"
      case Some(text) => text
  }

  /**
    `sqrt`: the first test calls the expression string, so every expression
    lands in the `except` arm and the answer is "Errror" (three r's). The
    branches after that test, which take the root of the whole expression or
    of all but its last character, are never reached.
  */
  function SqrtOf(expression: string, parse: Parser, squareRoot: SquareRoot): (r: string)
    ensures r == "Errror"
  {
    match CallStr(expression, "✓")
    case Raised => "Errror"
    case Returned(truthy) =>
      if truthy then RootText(parse(expression), squareRoot)
      else if expression != "" then RootText(parse(DropLast(expression)), squareRoot)
      else "Error"
  }

  class CalculatorEngine {
    var expression: string

    constructor ()
      ensures expression == ""
    {
      expression := "";
    }

    /** `append`: the token's spelling goes at the end of the expression. */
    method Append(value: string)
      modifies this
      ensures expression == old(expression) + Spelling(value)
    {
      if value == "^" {
        expression := expression + "**";
      } else {
        expression := expression + value;
      }
    }

    method Clear()
      modifies this
      ensures expression == ""
    {
      expression := "";
    }

    /** `calculate`: the evaluated expression or "Error"; the expression is only read. */
    function Calculate(eval: Evaluator): (r: string)
      reads this
      ensures r == Evaluated(eval, expression)
      ensures eval(expression).None? ==> r == "Error"
    {
      Evaluated(eval, expression)
    }

    function Percentage(parse: Parser, evalNumber: NumberEvaluator, render: Render): (r: string)
      reads this
      ensures r == PercentageOf(expression, parse, evalNumber, render)
    {
      PercentageOf(expression, parse, evalNumber, render)
    }

    function Sqrt(parse: Parser, squareRoot: SquareRoot): (r: string)
      reads this
      ensures r == SqrtOf(expression, parse, squareRoot)
      ensures r == "Errror"
    {
      SqrtOf(expression, parse, squareRoot)
    }
  }

  /**
    `handle_keypress`: characters in `Keys` are appended verbatim; Enter, `%`
    and `✓` show a result and leave the expression alone; backspace clears the
    whole expression; any other key only shows the expression again.
  */
  function KeyPressed(s: Screen, c: string, eval: Evaluator, parse: Parser, evalNumber: NumberEvaluator, render: Render, squareRoot: SquareRoot): (r: Screen)
    ensures In(c, Keys) ==> r.expression == s.expression + c && r.display == r.expression
    ensures !In(c, Keys) && c != "\r" && c != "%" && c != "✓" && c != "\U{8}" ==>
              r == Screen(s.expression, s.expression)
  {
    if In(c, Keys) then var e := s.expression + c; Screen(e, e)
    else if c == "\r" then s.(display := Evaluated(eval, s.expression))
    else if c == "%" then s.(display := PercentageOf(s.expression, parse, evalNumber, render))
    else if c == "✓" then s.(display := SqrtOf(s.expression, parse, squareRoot))
    else if c == "\U{8}" then Screen("", "")
    else s.(display := s.expression)
  }

  /**
    The keys outside `Keys` that `handle_keypress` acts on: Enter, `%` and `✓`
    show a result and leave the expression alone, and backspace clears the
    whole expression. A typed `^` is not among the keys, so unlike the `^`
    button it adds nothing.
  */
  lemma SpecialKeys(s: Screen, eval: Evaluator, parse: Parser, evalNumber: NumberEvaluator, render: Render, squareRoot: SquareRoot)
    ensures KeyPressed(s, "\r", eval, parse, evalNumber, render, squareRoot) == Screen(s.expression, Evaluated(eval, s.expression))
    ensures KeyPressed(s, "%", eval, parse, evalNumber, render, squareRoot) == Screen(s.expression, PercentageOf(s.expression, parse, evalNumber, render))
    ensures KeyPressed(s, "✓", eval, parse, evalNumber, render, squareRoot) == Screen(s.expression, "Errror")
    ensures KeyPressed(s, "\U{8}", eval, parse, evalNumber, render, squareRoot) == Screen("", "")
    ensures KeyPressed(s, "^", eval, parse, evalNumber, render, squareRoot) == Screen(s.expression, s.expression)
  {
    NotAKey("\r");
    NotAKey("%");
    NotAKey("✓");
    NotAKey("\U{8}");
    NotAKey("^");
  }

  /**
    The `%` button appends a `%`, so pressing the `%` key after it shows the
    number typed before the button divided by 100.
  */
  lemma PercentButtonThenKey(s: Screen, eval: Evaluator, parse: Parser, evalNumber: NumberEvaluator, render: Render, squareRoot: SquareRoot)
    ensures KeyPressed(ButtonClicked(s, "%", eval), "%", eval, parse, evalNumber, render, squareRoot).display ==
              match parse(s.expression)
              case Some(value) => render(Over(value, 100.0))
              case None => "Errror"
  {
    var t := ButtonClicked(s, "%", eval);
    assert t.expression == s.expression + "%";
    assert DropLast(t.expression) == s.expression;
    SpecialKeys(t, eval, parse, evalNumber, render, squareRoot);
  }

  /** The window: the engine it owns and the text of its display. */
  class CalculatorUI {
    const engine: CalculatorEngine
    var display: string

    function Snapshot(): Screen
      reads this, engine
    {
      Screen(engine.expression, display)
    }

    constructor ()
      ensures fresh(engine) && Snapshot() == Screen("", "")
    {
      engine := new CalculatorEngine();
      display := "";
    }

    method OnButtonClick(button: string, eval: Evaluator)
      modifies this, engine
      ensures Snapshot() == ButtonClicked(old(Snapshot()), button, eval)
    {
      if button == "C" {
        engine.Clear();
      } else if button == "=" {
        var result := engine.Calculate(eval);
        display := result;
        return;
      } else {
        engine.Append(button);
      }
      display := engine.expression;
    }

    method HandleKeypress(c: string, eval: Evaluator, parse: Parser, evalNumber: NumberEvaluator, render: Render, squareRoot: SquareRoot)
      modifies this, engine
      ensures Snapshot() == KeyPressed(old(Snapshot()), c, eval, parse, evalNumber, render, squareRoot)
    {
      NotAKey("^");
      if In(c, Keys) {
        engine.Append(c);
      } else if c == "\r" {
        var result := engine.Calculate(eval);
        display := result;
        return;
      } else if c == "%" {
        var result := engine.Percentage(parse, evalNumber, render);
        display := result;
        return;
      } else if c == "✓" {
        var result := engine.Sqrt(parse, squareRoot);
        display := result;
        return;
      } else if c == "\U{8}" {
        engine.Clear();
      }
      display := engine.expression;
    }
  }
}
