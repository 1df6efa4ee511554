/**
  The two-operand calculator of catCalculator.py. Its handlers are the same
  statements as those of notationDuckCalc.py (only colours and widget sizes
  differ), so its class is proved against the functions of `NotationDuckCalc`.
*/
module CatCalculator {
  import opened Python
  import opened TwoOperand
  import opened NotationDuckCalc

  /** The calculator window's state, updated in place by its handlers. */
  class Calculator {
    var display: string
    var firstNumber: real
    var operation: string

    function Snapshot(): State
      reads this
    {
      State(display, firstNumber, operation)
    }

    constructor ()
      ensures Snapshot() == Initial
    {
      display := "";
      firstNumber := 0.0;
      operation := "";
    }

    method HandleKeypress(event: Option<string>, parse: Parser, render: Render)
      modifies this
      ensures Snapshot() == KeyPressed(old(Snapshot()), event, parse, render)
    {
      if event.None? {
        return;
      }
      var c := event.value;
      if In(c, KeyChars) {
        if In(c, ClickChars) {
          ButtonClick(c);
        } else if In(c, OperatorChars) {
          ButtonOperator(c, parse);
        } else if c == "=" {
          ButtonEqual(parse, render);
        }
      }
    }

    method HandleBackspace()
      modifies this
      ensures Snapshot() == Backspaced(old(Snapshot()))
    {
      var current := display;
      display := "";
      display := DropLast(current);
    }

    method ButtonClick(number: string)
      modifies this
      ensures Snapshot() == Clicked(old(Snapshot()), number)
    {
      var current := display;
      display := "";
      display := current + number;
    }

    method ButtonClear()
      modifies this
      ensures Snapshot() == Cleared(old(Snapshot()))
    {
      display := "";
      firstNumber := 0.0;
      operation := "";
    }

    method ButtonOperator(op: string, parse: Parser)
      modifies this
      ensures Snapshot() == OperatorPressed(old(Snapshot()), op, parse)
    {
      match parse(display)
      case Some(value) =>
        firstNumber := value;
        operation := op;
        display := "";
      case None =>
        ShowMessage("Invalid input");
    }

    method ButtonEqual(parse: Parser, render: Render)
      modifies this
      ensures Snapshot() == EqualPressed(old(Snapshot()), parse, render)
    {
      var second := parse(display);
      if second.None? {
        ShowMessage("Invalid input");
        return;
      }
      display := "";
      var result := Calculate(second.value);
      if result.Some? {
        DisplayResult(result.value, render);
      }
    }

    /** `_calculate`: apply the operation, or show its error and give nothing back. */
    method Calculate(second: real) returns (result: Option<real>)
      modifies this
      ensures match Calculation(old(firstNumber), old(operation), second)
        case Value(value) => result == Some(value) && Snapshot() == old(Snapshot())
        case Failure(message) => result == None && Snapshot() == ShowError(old(Snapshot()), message)
    {
      if operation !in Operations() {
        ShowMessage("Invalid operation");
        return None;
      }
      result := Operations()[operation](firstNumber, second);
      if result.None? {
        ShowMessage("Division by zero");
      }
    }

    /** `_display_result`: insert the rendered result at the front of the display. */
    method DisplayResult(result: real, render: Render)
      modifies this
      ensures Snapshot() == old(Snapshot()).(display := render(result) + old(display))
    {
      display := render(result) + display;
    }

    /** `_show_error`. */
    method ShowMessage(message: string)
      modifies this
      ensures Snapshot() == ShowError(old(Snapshot()), message)
    {
      display := "";
      display := "Error: " + message;
    }
  }
}
