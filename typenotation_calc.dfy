/**
  The two-operand calculator of typenotationclac.py: the same state as the
  other two-operand calculators, with the operators dispatched by an if/elif
  chain inside `button_equal` and shorter error texts.
*/
module TypeNotationCalc {
  import opened Python
  import opened TwoOperand

  /**
    `button_operator`: a display that parses becomes the first operand, the
    operation is recorded and the display emptied; otherwise only the display
    changes, to "Error".
  */
  function OperatorPressed(s: State, op: string, parse: Parser): (r: State)
    ensures parse(s.display).Some? ==>
              r.first == parse(s.display).value && r.operation == op && r.display == ""
    ensures parse(s.display).None? ==>
              r.first == s.first && r.operation == s.operation && r.display == "Error"
  {
    match parse(s.display)
    case Some(value) => State("", value, op)
    case None => s.(display := "Error")
  }

  /**
    `button_equal`: parse the display as the second operand, then show the
    result, "Error: Div by 0", or, for an operation it does not know, nothing at
    all; an unparsable display shows "Error". The operand and the operation
    never change.
  */
  function EqualPressed(s: State, parse: Parser, render: Render): (r: State)
    ensures r.first == s.first && r.operation == s.operation
    ensures parse(s.display).None? ==> r.display == "Error"
    ensures parse(s.display) == Some(0.0) && s.operation == "/" ==> r.display == "Error: Div by 0"
    ensures parse(s.display).Some? && s.operation !in Known ==> r.display == ""
    ensures parse(s.display).Some? && s.operation == "+" ==>
              r.display == render(s.first + parse(s.display).value)
    ensures parse(s.display).Some? && s.operation == "-" ==>
              r.display == render(s.first - parse(s.display).value)
    ensures parse(s.display).Some? && s.operation == "*" ==>
              r.display == render(Times(s.first, parse(s.display).value))
    ensures parse(s.display).Some? && parse(s.display) != Some(0.0) && s.operation == "/" ==>
              r.display == render(Over(s.first, parse(s.display).value))
  {
    match parse(s.display)
    case None => s.(display := "Error")
    case Some(second) =>
      if s.operation == "+" then s.(display := render(s.first + second))
      else if s.operation == "-" then s.(display := render(s.first - second))
      else if s.operation == "*" then s.(display := render(Times(s.first, second)))
      else if s.operation == "/" then
        if second != 0.0 then s.(display := render(Over(s.first, second)))
        else s.(display := "Error: Div by 0")
      else s.(display := "")
  }

  /** `handle_keypress`: the character goes where `RouteOf` sends it. */
  function KeyPressed(s: State, c: string, parse: Parser, render: Render): (r: State)
    ensures !In(c, KeyChars) ==> r == s
  {
    match RouteOf(c)
    case ToClick => Clicked(s, c)
    case ToOperator => OperatorPressed(s, c, parse)
    case ToEqual => EqualPressed(s, parse, render)
    case Ignored => s
  }

  /** A typed digit or `.` goes to the click handler, an operator to the operator handler and `=` to the equal handler. */
  lemma KeyRoutes(s: State, c: char, parse: Parser, render: Render)
    ensures c in ClickChars ==> KeyPressed(s, [c], parse, render) == Clicked(s, [c])
    ensures c in OperatorChars ==> KeyPressed(s, [c], parse, render) == OperatorPressed(s, [c], parse)
    ensures c == '=' ==> KeyPressed(s, [c], parse, render) == EqualPressed(s, parse, render)
  {
    RouteOfChar(c);
    RoutedKey(s, [c], RouteOf([c]), parse, render);
  }

  /** A key's text goes to the handler its route names. */
  lemma RoutedKey(s: State, c: string, route: Route, parse: Parser, render: Render)
    requires RouteOf(c) == route
    ensures route == ToClick ==> KeyPressed(s, c, parse, render) == Clicked(s, c)
    ensures route == ToOperator ==> KeyPressed(s, c, parse, render) == OperatorPressed(s, c, parse)
    ensures route == ToEqual ==> KeyPressed(s, c, parse, render) == EqualPressed(s, parse, render)
  {
  }

  /** A key outside `KeyChars`, or a modifier key with an empty `char`, changes nothing. */
  lemma OtherKeysChangeNothing(s: State, c: char, parse: Parser, render: Render)
    requires c !in KeyChars
    ensures KeyPressed(s, [c], parse, render) == s
    ensures KeyPressed(s, "", parse, render) == s
  {
    RouteOfChar(c);
    RouteOfEmpty();
    ClickedEmpty(s);
  }

  /** The handlers the window binds: the buttons, `<Key>`, Return, Escape and BackSpace. */
  datatype Input =
    | Click(number: string)
    | Operator(op: string)
    | Equal
    | Clear
    | Backspace
    | Key(typed: string)

  function Step(s: State, input: Input, parse: Parser, render: Render): (r: State)
  {
    match input
    case Click(number) => Clicked(s, number)
    case Operator(op) => OperatorPressed(s, op, parse)
    case Equal => EqualPressed(s, parse, render)
    case Clear => Cleared(s)
    case Backspace => Backspaced(s)
    case Key(c) => KeyPressed(s, c, parse, render)
  }

  /** The state after the handlers run one after another. */
  function Run(s: State, inputs: seq<Input>, parse: Parser, render: Render): (r: State)
    decreases |inputs|
  {
    if inputs == [] then s else Run(Step(s, inputs[0], parse, render), inputs[1..], parse, render)
  }

  /** One handler other than clear or backspace keeps an error on the display and the operands. */
  lemma StepKeepsError(s: State, input: Input, parse: Parser, render: Render)
    requires FloatLike(parse) && ShowsError(s)
    requires !input.Clear? && !input.Backspace?
    ensures var t := Step(s, input, parse, render);
      ShowsError(t) && t.first == s.first && t.operation == s.operation
  {
    assert parse(s.display) == None;
    match input
    case Click(number) => ClickedKeepsError(s, number);
    case Key(c) => ClickedKeepsError(s, c);
    case _ =>
  }

  /**
    Once "Error" or "Error: Div by 0" is shown, only clear or backspace gets out
    of it: any other sequence of inputs keeps an error on the display and leaves
    `first_number` and `operation` as they were.
  */
  lemma {:induction false} ErrorIsSticky(s: State, inputs: seq<Input>, parse: Parser, render: Render)
    requires FloatLike(parse) && ShowsError(s)
    requires forall k :: 0 <= k < |inputs| ==> !inputs[k].Clear? && !inputs[k].Backspace?
    ensures var t := Run(s, inputs, parse, render);
      ShowsError(t) && t.first == s.first && t.operation == s.operation
    decreases |inputs|
  {
    if inputs != [] {
      StepKeepsError(s, inputs[0], parse, render);
      ErrorIsSticky(Step(s, inputs[0], parse, render), inputs[1..], parse, render);
    }
  }

  /** An operator on a parsed display, a second operand and `=` compute the result, or one of the outcomes without one. */
  lemma OperatorThenEqual(s: State, op: string, x: real, text: string, y: real, parse: Parser, render: Render)
    requires parse(s.display) == Some(x) && parse(text) == Some(y)
    ensures var t := Run(s, [Operator(op), Click(text), Equal], parse, render);
      && t.first == x && t.operation == op
      && (op == "+" ==> t.display == render(x + y))
      && (op == "-" ==> t.display == render(x - y))
      && (op == "*" ==> t.display == render(Times(x, y)))
      && (op == "/" && y != 0.0 ==> t.display == render(Over(x, y)))
      && (op == "/" && y == 0.0 ==> t.display == "Error: Div by 0")
      && (op !in Known ==> t.display == "")
  {
    var inputs := [Operator(op), Click(text), Equal];
    var a := OperatorPressed(s, op, parse);
    var b := Clicked(a, text);
    assert b.display == text;
    assert Run(s, inputs, parse, render) == Run(a, inputs[1..], parse, render);
    assert Run(a, inputs[1..], parse, render) == Run(b, inputs[2..], parse, render);
    assert Run(b, inputs[2..], parse, render) == EqualPressed(b, parse, render);
  }

  /** The calculator window's state, updated in place by its handlers. */
  class Calculator {
    var display: string
    var firstNumber: real
    var operation: string

    function Snapshot(): State
      reads this
    {
      State(display, firstNumber, operation)
    }

    constructor ()
      ensures Snapshot() == Initial
    {
      display := "";
      firstNumber := 0.0;
      operation := "";
    }

    method HandleKeypress(c: string, parse: Parser, render: Render)
      modifies this
      ensures Snapshot() == KeyPressed(old(Snapshot()), c, parse, render)
    {
      if In(c, KeyChars) {
        if In(c, ClickChars) {
          ButtonClick(c);
        } else if In(c, OperatorChars) {
          ButtonOperator(c, parse);
        } else if c == "=" {
          ButtonEqual(parse, render);
        }
      }
    }

    method HandleBackspace()
      modifies this
      ensures Snapshot() == Backspaced(old(Snapshot()))
    {
      var current := display;
      display := "";
      display := DropLast(current);
    }

    method ButtonClick(number: string)
      modifies this
      ensures Snapshot() == Clicked(old(Snapshot()), number)
    {
      var current := display;
      display := "";
      display := current + number;
    }

    method ButtonClear()
      modifies this
      ensures Snapshot() == Cleared(old(Snapshot()))
    {
      display := "";
      firstNumber := 0.0;
      operation := "";
    }

    method ButtonOperator(op: string, parse: Parser)
      modifies this
      ensures Snapshot() == OperatorPressed(old(Snapshot()), op, parse)
    {
      match parse(display)
      case Some(value) =>
        firstNumber := value;
        operation := op;
        display := "";
      case None =>
        display := "";
        display := "Error";
    }

    method ButtonEqual(parse: Parser, render: Render)
      modifies this
      ensures Snapshot() == EqualPressed(old(Snapshot()), parse, render)
    {
      var parsed := parse(display);
      if parsed.None? {
        display := "";
        display := "Error";
        return;
      }
      var second := parsed.value;
      display := "";
      var result: Option<real> := None;
      if operation == "+" {
        result := Some(firstNumber + second);
      } else if operation == "-" {
        result := Some(firstNumber - second);
      } else if operation == "*" {
        result := Some(Times(firstNumber, second));
      } else if operation == "/" {
        if second != 0.0 {
          result := Some(Over(firstNumber, second));
        } else {
          display := "Error: Div by 0" + display;
          return;
        }
      }
      if result.Some? {
        display := render(result.value) + display;
      }
    }
  }
}
