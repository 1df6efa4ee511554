/**
  calc.py: a two-operand calculator that keeps the first operand as the text
  the entry showed, not as a number. Its `button_equal` therefore applies
  Python's operators to two strings: `+` concatenates them, and `-`, `*`, `/`
  (and `+` with no first operand) raise TypeError, which it shows as "Error".
*/
module Calc {
  import opened Python

  /** The entry's text, `f_num` and `math`; the last two are None until an operator is pressed. */
  datatype AppState = AppState(entry: string, fNum: Option<string>, math: Option<string>)

  const Initial := AppState("", None, None)

  /**
    A Python binary operator applied to `f_num` (None or a str) and a str, or
    None when Python raises TypeError: only str + str is defined.
  */
  function StrOperation(op: string, left: Option<string>, right: string): (r: Option<string>)
    ensures r.Some? <==> op == "+" && left.Some?
    ensures r.Some? ==> r.value == left.value + right
  {
    if op == "+" then
      match left
      case Some(text) => Some(text + right)
      case None => None
    else None
  }

  /** `button_click`: the entry gains the button's text at its end. */
  function Clicked(s: AppState, number: string): (r: AppState)
    ensures r.entry == s.entry + number && r.fNum == s.fNum && r.math == s.math
  {
    s.(entry := s.entry + number)
  }

  /** `button_clear`: only the entry is emptied; the operand and operator stay. */
  function Cleared(s: AppState): (r: AppState)
    ensures r.entry == "" && r.fNum == s.fNum && r.math == s.math
  {
    s.(entry := "")
  }

  /** `button_operator`: the entry's text becomes the first operand, unparsed. */
  function OperatorPressed(s: AppState, op: string): (r: AppState)
    ensures r == AppState("", Some(s.entry), Some(op))
  {
    AppState("", Some(s.entry), Some(op))
  }

  /**
    What `button_equal` leaves in the entry for the second operand `second`:
    the string concatenation for `+` after an operator, "Error" for every
    other operation it knows, and nothing when no operator was pressed.
  */
  function EqualEntry(fNum: Option<string>, math: Option<string>, second: string): (r: string)
    ensures math == Some("+") && fNum.Some? ==> r == fNum.value + second
    ensures math == Some("+") && fNum.None? ==> r == "Error"
    ensures math == Some("-") || math == Some("*") || math == Some("/") ==> r == "Error"
    ensures math.None? || math.value !in {"+", "-", "*", "/"} ==> r == ""
  {
    match math
    case None => ""
    case Some(op) =>
      if op in {"+", "-", "*", "/"} then
        match StrOperation(op, fNum, second)
        case Some(text) => text
        case None => "Error"
      else ""
  }

  /** `button_equal`: the entry is replaced by `EqualEntry`; the operand and operator stay. */
  function EqualPressed(s: AppState): (r: AppState)
    ensures r.entry == EqualEntry(s.fNum, s.math, s.entry)
    ensures r.fNum == s.fNum && r.math == s.math
  {
    s.(entry := EqualEntry(s.fNum, s.math, s.entry))
  }

  /** The buttons of the window. */
  datatype Input = Click(number: string) | Operator(op: string) | Equal | Clear

  function Step(s: AppState, input: Input): (r: AppState)
  {
    match input
    case Click(number) => Clicked(s, number)
    case Operator(op) => OperatorPressed(s, op)
    case Equal => EqualPressed(s)
    case Clear => Cleared(s)
  }

  function Run(s: AppState, inputs: seq<Input>): (r: AppState)
    decreases |inputs|
  {
    if inputs == [] then s else Run(Step(s, inputs[0]), inputs[1..])
  }

  /** Whatever was typed, `=` shows the two operands' concatenation, "Error" or nothing: never a computed number. */
  lemma EqualNeverComputes(s: AppState)
    ensures var e := EqualPressed(s).entry;
      e == "" || e == "Error" || (s.math == Some("+") && s.fNum.Some? && e == s.fNum.value + s.entry)
  {
  }

  /** An operand, an operator, a second operand and `=`: `+` joins the two texts, the others show "Error". */
  lemma OperatorThenEqual(s: AppState, first: string, op: string, second: string)
    requires s.entry == first
    ensures var t := Run(s, [Operator(op), Click(second), Equal]);
      && t.fNum == Some(first) && t.math == Some(op)
      && (op == "+" ==> t.entry == first + second)
      && (op in {"-", "*", "/"} ==> t.entry == "Error")
      && (op !in {"+", "-", "*", "/"} ==> t.entry == "")
  {
    var a := OperatorPressed(s, op);
    var b := Clicked(a, second);
    assert b.entry == second;
    assert Run(s, [Operator(op), Click(second), Equal]) == Run(a, [Click(second), Equal]);
    assert Run(a, [Click(second), Equal]) == Run(b, [Equal]);
    assert Run(b, [Equal]) == EqualPressed(b);
  }

  /** `5 + 3 =` shows "53". */
  lemma FivePlusThree()
    ensures Run(Initial, [Click("5"), Operator("+"), Click("3"), Equal]).entry == "53"
  {
    var inputs := [Click("5"), Operator("+"), Click("3"), Equal];
    assert Clicked(Initial, "5") == AppState("5", None, None) by {
      assert "" + "5" == "5";
    }
    assert Run(Initial, inputs) == Run(AppState("5", None, None), inputs[1..]);
    OperatorThenEqual(AppState("5", None, None), "5", "+", "3");
    assert inputs[1..] == [Operator("+"), Click("3"), Equal];
  }

  /** Clear after an operator keeps it: a new second operand and `=` still use the old first operand. */
  lemma ClearKeepsOperation(s: AppState, second: string)
    ensures var t := Run(s, [Clear, Click(second), Equal]);
      t.entry == EqualEntry(s.fNum, s.math, second) && t.fNum == s.fNum && t.math == s.math
  {
    var a := Cleared(s);
    var b := Clicked(a, second);
    assert b.entry == second;
    assert Run(s, [Clear, Click(second), Equal]) == Run(a, [Click(second), Equal]);
    assert Run(a, [Click(second), Equal]) == Run(b, [Equal]);
  }

  /** The window's state, updated in place by its button handlers. */
  class CalculatorApp {
    var entry: string
    var fNum: Option<string>
    var math: Option<string>

    function Snapshot(): AppState
      reads this
    {
      AppState(entry, fNum, math)
    }

    constructor ()
      ensures Snapshot() == Initial
    {
      entry := "";
      fNum := None;
      math := None;
    }

    method ButtonClick(number: string)
      modifies this
      ensures Snapshot() == Clicked(old(Snapshot()), number)
    {
      var current := entry;
      entry := "";
      entry := current + number + entry;
    }

    method ButtonClear()
      modifies this
      ensures Snapshot() == Cleared(old(Snapshot()))
    {
      entry := "";
    }

    method ButtonOperator(op: string)
      modifies this
      ensures Snapshot() == OperatorPressed(old(Snapshot()), op)
    {
      fNum := Some(entry);
      math := Some(op);
      entry := "";
    }

    method ButtonEqual()
      modifies this
      ensures Snapshot() == EqualPressed(old(Snapshot()))
    {
      var second := entry;
      entry := "";
      // Each operation is attempted in turn; None stands for the TypeError
      // the handler catches.
      var attempt: Option<string> := Some("");
      if math == Some("+") {
        attempt := StrOperation("+", fNum, second);
      } else if math == Some("-") {
        attempt := StrOperation("-", fNum, second);
      } else if math == Some("*") {
        attempt := StrOperation("*", fNum, second);
      } else if math == Some("/") {
        // A str is never equal to 0, so the division is always attempted.
        attempt := StrOperation("/", fNum, second);
      }
      match attempt
      case Some(text) =>
        entry := text + entry;
      case None =>
        entry := "Error" + entry;
    }
  }
}
