/**
  The two-operand calculator of notationDuckCalc.py.

  Each handler is first described as a function from the state before to the
  state after; the `Calculator` class performs the handlers on its fields
  statement by statement and is proved to agree with those functions.
  catCalculator.py runs the same statements and reuses these functions.
*/
module NotationDuckCalc {
  import opened Python
  import opened TwoOperand

  /** `_show_error`: the display reads "Error: " followed by the message; nothing else changes. */
  function ShowError(s: State, message: string): (r: State)
    ensures r.display == "Error: " + message
    ensures r.first == s.first && r.operation == s.operation
  {
    s.(display := "Error: " + message)
  }

  /** The three texts `_show_error` is called with, as the display shows them. */
  lemma InvalidInputText(s: State)
    ensures ShowError(s, "Invalid input").display == "Error: Invalid input"
  {
  }

  lemma InvalidOperationText(s: State)
    ensures ShowError(s, "Invalid operation").display == "Error: Invalid operation"
  {
  }

  lemma DivisionByZeroText(s: State)
    ensures ShowError(s, "Division by zero").display == "Error: Division by zero"
  {
  }

  /**
    `button_operator`: a display that parses becomes the first operand, the
    operation is recorded and the display emptied; otherwise only the display
    changes, to the invalid-input error.
  */
  function OperatorPressed(s: State, op: string, parse: Parser): (r: State)
    ensures parse(s.display).Some? ==>
              r.first == parse(s.display).value && r.operation == op && r.display == ""
    ensures parse(s.display).None? ==>
              r.first == s.first && r.operation == s.operation && r.display == "Error: Invalid input"
  {
    InvalidInputText(s);
    match parse(s.display)
    case Some(value) => State("", value, op)
    case None => ShowError(s, "Invalid input")
  }

  /** The operator table of `_calculate`; `/` yields nothing for a zero divisor. */
  function Operations(): (r: map<string, (real, real) -> Option<real>>)
    ensures r.Keys == Known
    ensures forall x: real, y: real :: r["+"](x, y) == Some(x + y)
    ensures forall x: real, y: real :: r["-"](x, y) == Some(x - y)
    ensures forall x: real, y: real :: r["*"](x, y) == Some(Times(x, y))
    ensures forall x: real, y: real :: r["/"](x, y).None? <==> y == 0.0
    ensures forall x: real, y: real :: y != 0.0 ==> r["/"](x, y) == Some(Over(x, y))
  {
    map[
      "+" := (x: real, y: real) => Some(x + y),
      "-" := (x: real, y: real) => Some(x - y),
      "*" := (x: real, y: real) => Some(Times(x, y)),
      "/" := (x: real, y: real) => if y != 0.0 then Some(Over(x, y)) else None
    ]
  }

  /** What `_calculate` ends with: a value, or the message of the error it shows. */
  datatype Outcome = Value(value: real) | Failure(message: string)

  /** `_calculate` without its display side effect: look the operation up and apply it. */
  function Calculation(first: real, operation: string, second: real): (r: Outcome)
    ensures operation !in Known ==> r == Failure("Invalid operation")
    ensures operation == "/" && second == 0.0 ==> r == Failure("Division by zero")
    ensures operation == "+" ==> r == Value(first + second)
    ensures operation == "-" ==> r == Value(first - second)
    ensures operation == "*" ==> r == Value(Times(first, second))
    ensures operation == "/" && second != 0.0 ==> r == Value(Over(first, second))
  {
    if operation !in Operations() then Failure("Invalid operation")
    else match Operations()[operation](first, second)
      case Some(value) => Value(value)
      case None => Failure("Division by zero")
  }

  /**
    `button_equal`: parse the display as the second operand and show the result
    or one of three distinct errors; the operand and the operation never change.
  */
  function EqualPressed(s: State, parse: Parser, render: Render): (r: State)
    ensures r.first == s.first && r.operation == s.operation
    ensures parse(s.display).None? ==> r.display == "Error: Invalid input"
    ensures parse(s.display).Some? && s.operation !in Known ==>
              r.display == "Error: Invalid operation"
    ensures parse(s.display) == Some(0.0) && s.operation == "/" ==>
              r.display == "Error: Division by zero"
    ensures parse(s.display).Some? && Calculation(s.first, s.operation, parse(s.display).value).Value? ==>
              r.display == render(Calculation(s.first, s.operation, parse(s.display).value).value)
  {
    InvalidInputText(s);
    InvalidOperationText(s);
    DivisionByZeroText(s);
    match parse(s.display)
    case None => ShowError(s, "Invalid input")
    case Some(second) =>
      match Calculation(s.first, s.operation, second)
      case Failure(message) => ShowError(s, message)
      case Value(value) => s.(display := render(value))
  }

  /**
    `_handle_keypress`: an event without a `char` attribute does nothing;
    otherwise the character goes where `RouteOf` sends it.
  */
  function KeyPressed(s: State, event: Option<string>, parse: Parser, render: Render): (r: State)
    ensures event.None? ==> r == s
    ensures event.Some? && !In(event.value, KeyChars) ==> r == s
  {
    match event
    case None => s
    case Some(c) =>
      match RouteOf(c)
      case ToClick => Clicked(s, c)
      case ToOperator => OperatorPressed(s, c, parse)
      case ToEqual => EqualPressed(s, parse, render)
      case Ignored => s
  }

  /** A typed digit or `.` goes to the click handler, an operator to the operator handler and `=` to the equal handler. */
  lemma KeyRoutes(s: State, c: char, parse: Parser, render: Render)
    ensures c in ClickChars ==> KeyPressed(s, Some([c]), parse, render) == Clicked(s, [c])
    ensures c in OperatorChars ==> KeyPressed(s, Some([c]), parse, render) == OperatorPressed(s, [c], parse)
    ensures c == '=' ==> KeyPressed(s, Some([c]), parse, render) == EqualPressed(s, parse, render)
  {
    RouteOfChar(c);
    RoutedKey(s, [c], RouteOf([c]), parse, render);
  }

  /** A key's text goes to the handler its route names. */
  lemma RoutedKey(s: State, c: string, route: Route, parse: Parser, render: Render)
    requires RouteOf(c) == route
    ensures route == ToClick ==> KeyPressed(s, Some(c), parse, render) == Clicked(s, c)
    ensures route == ToOperator ==> KeyPressed(s, Some(c), parse, render) == OperatorPressed(s, c, parse)
    ensures route == ToEqual ==> KeyPressed(s, Some(c), parse, render) == EqualPressed(s, parse, render)
  {
  }

  /** A key outside `KeyChars`, or a modifier key with an empty `char`, changes nothing. */
  lemma OtherKeysChangeNothing(s: State, c: char, parse: Parser, render: Render)
    requires c !in KeyChars
    ensures KeyPressed(s, Some([c]), parse, render) == s
    ensures KeyPressed(s, Some(""), parse, render) == s
  {
    RouteOfChar(c);
    RouteOfEmpty();
    ClickedEmpty(s);
  }

  /** The handlers the window binds: the buttons, `<Key>`, Return, Escape and BackSpace. */
  datatype Input =
    | Click(number: string)
    | Operator(op: string)
    | Equal
    | Clear
    | Backspace
    | Key(event: Option<string>)

  function Step(s: State, input: Input, parse: Parser, render: Render): (r: State)
  {
    match input
    case Click(number) => Clicked(s, number)
    case Operator(op) => OperatorPressed(s, op, parse)
    case Equal => EqualPressed(s, parse, render)
    case Clear => Cleared(s)
    case Backspace => Backspaced(s)
    case Key(event) => KeyPressed(s, event, parse, render)
  }

  /** The state after the handlers run one after another. */
  function Run(s: State, inputs: seq<Input>, parse: Parser, render: Render): (r: State)
    decreases |inputs|
  {
    if inputs == [] then s else Run(Step(s, inputs[0], parse, render), inputs[1..], parse, render)
  }

  /** One handler other than clear or backspace keeps an error on the display and the operands. */
  lemma StepKeepsError(s: State, input: Input, parse: Parser, render: Render)
    requires FloatLike(parse) && ShowsError(s)
    requires !input.Clear? && !input.Backspace?
    ensures var t := Step(s, input, parse, render);
      ShowsError(t) && t.first == s.first && t.operation == s.operation
  {
    assert parse(s.display) == None;
    match input
    case Click(number) => ClickedKeepsError(s, number);
    case Key(Some(c)) => ClickedKeepsError(s, c);
    case _ =>
  }

  /**
    Once an error is shown, only clear or backspace gets out of it: any other
    sequence of inputs keeps an error on the display and leaves `first_number`
    and `operation` as they were.
  */
  lemma {:induction false} ErrorIsSticky(s: State, inputs: seq<Input>, parse: Parser, render: Render)
    requires FloatLike(parse) && ShowsError(s)
    requires forall k :: 0 <= k < |inputs| ==> !inputs[k].Clear? && !inputs[k].Backspace?
    ensures var t := Run(s, inputs, parse, render);
      ShowsError(t) && t.first == s.first && t.operation == s.operation
    decreases |inputs|
  {
    if inputs != [] {
      StepKeepsError(s, inputs[0], parse, render);
      ErrorIsSticky(Step(s, inputs[0], parse, render), inputs[1..], parse, render);
    }
  }

  /** An operator on a parsed display, a second operand and `=` compute the result or a distinct error. */
  lemma OperatorThenEqual(s: State, op: string, x: real, text: string, y: real, parse: Parser, render: Render)
    requires parse(s.display) == Some(x) && parse(text) == Some(y)
    ensures var t := Run(s, [Operator(op), Click(text), Equal], parse, render);
      && t.first == x && t.operation == op
      && (op == "+" ==> t.display == render(x + y))
      && (op == "-" ==> t.display == render(x - y))
      && (op == "*" ==> t.display == render(Times(x, y)))
      && (op == "/" && y != 0.0 ==> t.display == render(Over(x, y)))
      && (op == "/" && y == 0.0 ==> t.display == "Error: Division by zero")
      && (op !in Known ==> t.display == "Error: Invalid operation")
  {
    var inputs := [Operator(op), Click(text), Equal];
    var a := OperatorPressed(s, op, parse);
    var b := Clicked(a, text);
    assert b.display == text;
    assert Run(s, inputs, parse, render) == Run(a, inputs[1..], parse, render);
    assert Run(a, inputs[1..], parse, render) == Run(b, inputs[2..], parse, render);
    assert Run(b, inputs[2..], parse, render) == EqualPressed(b, parse, render);
  }

  /** Right after clear, `=` on the empty display is invalid input, and on a number an invalid operation. */
  lemma EqualAfterClear(s: State, text: string, y: real, parse: Parser, render: Render)
    requires FloatLike(parse) && parse(text) == Some(y)
    ensures Run(s, [Clear, Equal], parse, render).display == "Error: Invalid input"
    ensures Run(s, [Clear, Click(text), Equal], parse, render).display == "Error: Invalid operation"
  {
    var i1 := [Clear, Equal];
    assert Run(s, i1, parse, render) == Run(Initial, i1[1..], parse, render);
    assert Run(Initial, i1[1..], parse, render) == EqualPressed(Initial, parse, render);
    var i2 := [Clear, Click(text), Equal];
    var b := Clicked(Initial, text);
    assert b.display == text;
    assert Run(s, i2, parse, render) == Run(Initial, i2[1..], parse, render);
    assert Run(Initial, i2[1..], parse, render) == Run(b, i2[2..], parse, render);
    assert Run(b, i2[2..], parse, render) == EqualPressed(b, parse, render);
  }

  /** The calculator window's state, updated in place by its handlers. */
  class Calculator {
    var display: string
    var firstNumber: real
    var operation: string

    function Snapshot(): State
      reads this
    {
      State(display, firstNumber, operation)
    }

    constructor ()
      ensures Snapshot() == Initial
    {
      display := "";
      firstNumber := 0.0;
      operation := "";
    }

    method HandleKeypress(event: Option<string>, parse: Parser, render: Render)
      modifies this
      ensures Snapshot() == KeyPressed(old(Snapshot()), event, parse, render)
    {
      if event.None? {
        return;
      }
      var c := event.value;
      if In(c, KeyChars) {
        if In(c, ClickChars) {
          ButtonClick(c);
        } else if In(c, OperatorChars) {
          ButtonOperator(c, parse);
        } else if c == "=" {
          ButtonEqual(parse, render);
        }
      }
    }

    method HandleBackspace()
      modifies this
      ensures Snapshot() == Backspaced(old(Snapshot()))
    {
      var current := display;
      display := "";
      display := DropLast(current);
    }

    method ButtonClick(number: string)
      modifies this
      ensures Snapshot() == Clicked(old(Snapshot()), number)
    {
      var current := display;
      display := "";
      display := current + number;
    }

    method ButtonClear()
      modifies this
      ensures Snapshot() == Cleared(old(Snapshot()))
    {
      display := "";
      firstNumber := 0.0;
      operation := "";
    }

    method ButtonOperator(op: string, parse: Parser)
      modifies this
      ensures Snapshot() == OperatorPressed(old(Snapshot()), op, parse)
    {
      match parse(display)
      case Some(value) =>
        firstNumber := value;
        operation := op;
        display := "";
      case None =>
        ShowMessage("Invalid input");
    }

    method ButtonEqual(parse: Parser, render: Render)
      modifies this
      ensures Snapshot() == EqualPressed(old(Snapshot()), parse, render)
    {
      var second := parse(display);
      if second.None? {
        ShowMessage("Invalid input");
        return;
      }
      display := "";
      var result := Calculate(second.value);
      if result.Some? {
        DisplayResult(result.value, render);
      }
    }

    /** `_calculate`: apply the operation, or show its error and give nothing back. */
    method Calculate(second: real) returns (result: Option<real>)
      modifies this
      ensures match Calculation(old(firstNumber), old(operation), second)
        case Value(value) => result == Some(value) && Snapshot() == old(Snapshot())
        case Failure(message) => result == None && Snapshot() == ShowError(old(Snapshot()), message)
    {
      if operation !in Operations() {
        ShowMessage("Invalid operation");
        return None;
      }
      result := Operations()[operation](firstNumber, second);
      if result.None? {
        ShowMessage("Division by zero");
      }
    }

    /** `_display_result`: insert the rendered result at the front of the display. */
    method DisplayResult(result: real, render: Render)
      modifies this
      ensures Snapshot() == old(Snapshot()).(display := render(result) + old(display))
    {
      display := render(result) + display;
    }

    /** `_show_error`. */
    method ShowMessage(message: string)
      modifies this
      ensures Snapshot() == ShowError(old(Snapshot()), message)
    {
      display := "";
      display := "Error: " + message;
    }
  }
}
