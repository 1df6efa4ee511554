/**
  What the four two-operand calculators (notationDuckCalc.py, catCalculator.py,
  typenotationclac.py, Claudecalc.py) have in common: the state, the handlers
  that act on the display alone, and the routing of a typed character.
*/
module TwoOperand {
  import opened Python

  /** The text of the display, `first_number` and `operation`. */
  datatype State = State(display: string, first: real, operation: string)

  /** The state every constructor sets up: an empty display, operand 0, no operation. */
  const Initial := State("", 0.0, "")

  /** `valid_chars` of the key handlers and the two ranges they test next. */
  const KeyChars := "0123456789+-*/.="
  const ClickChars := "0123456789."
  const OperatorChars := "+-*/"

  /** The operations `button_equal` computes with. */
  const Known: set<string> := {"+", "-", "*", "/"}

  /** `button_click`: the display gains `number` at its end. */
  function Clicked(s: State, number: string): (r: State)
    ensures r.display == s.display + number
    ensures r.first == s.first && r.operation == s.operation
  {
    s.(display := s.display + number)
  }

  /** The backspace handler: the display loses its last character, if any. */
  function Backspaced(s: State): (r: State)
    ensures s.display != [] ==> r.display + [s.display[|s.display| - 1]] == s.display
    ensures s.display == [] ==> r.display == []
    ensures r.first == s.first && r.operation == s.operation
  {
    s.(display := DropLast(s.display))
  }

  /** `button_clear`: back to the initial state, whatever the state was. */
  function Cleared(s: State): (r: State)
    ensures r.display == "" && r.first == 0.0 && r.operation == ""
  {
    Initial
  }

  /** The digits, a run at the start of both `KeyChars` and `ClickChars`. */
  const Digits := "0123456789"

  /** The digits are a run of both `KeyChars` and `ClickChars`, so a text in them is in both. */
  lemma DigitsRun(c: string)
    requires In(c, Digits)
    ensures In(c, KeyChars) && In(c, ClickChars)
  {
    assert OccursAt(Digits, KeyChars, 0);
    assert OccursAt(Digits, ClickChars, 0);
    InTransitive(c, Digits, KeyChars);
    InTransitive(c, Digits, ClickChars);
  }

  /** The operators are a run of `KeyChars`, and a non-empty text in them is not in `ClickChars`. */
  lemma OperatorsRun(c: string)
    requires c != "" && In(c, OperatorChars)
    ensures In(c, KeyChars) && !In(c, ClickChars)
  {
    assert OccursAt(OperatorChars, KeyChars, 10);
    InTransitive(c, OperatorChars, KeyChars);
    FirstIn(c, OperatorChars);
    if In(c, ClickChars) {
      FirstIn(c, ClickChars);
    }
  }

  /** `=` is in `KeyChars` and in neither range. */
  lemma EqualInNoRange()
    ensures In("=", KeyChars) && !In("=", ClickChars) && !In("=", OperatorChars)
  {
    CharIn('=', KeyChars);
    CharIn('=', ClickChars);
    CharIn('=', OperatorChars);
  }

  /** The three facts above, for any text. */
  lemma RangeFacts(c: string)
    ensures In(c, Digits) ==> In(c, KeyChars) && In(c, ClickChars)
    ensures c != "" && In(c, OperatorChars) ==> In(c, KeyChars) && !In(c, ClickChars)
    ensures In("=", KeyChars) && !In("=", ClickChars) && !In("=", OperatorChars)
  {
    if In(c, Digits) {
      DigitsRun(c);
    }
    if c != "" && In(c, OperatorChars) {
      OperatorsRun(c);
    }
    EqualInNoRange();
  }

  /** Where the key handler sends a typed character. */
  datatype Route = ToClick | ToOperator | ToEqual | Ignored

  /**
    The key handlers' tests, in order: `char in valid_chars`, then `char` in
    `ClickChars`, in `OperatorChars`, and equal to `=`; `in` is Python's
    substring test.
  */
  function RouteOf(c: string): (r: Route)
    ensures r != Ignored ==> In(c, KeyChars)
    ensures In(c, Digits) ==> r == ToClick
    ensures c != "" && In(c, OperatorChars) ==> r == ToOperator
    ensures r == ToEqual <==> c == "="
  {
    RangeFacts(c);
    if In(c, KeyChars) then
      if In(c, ClickChars) then ToClick
      else if In(c, OperatorChars) then ToOperator
      else if c == "=" then ToEqual
      else Ignored
    else Ignored
  }

  /** A single character: digits and `.` click, `+ - * /` are operators, `=` evaluates, all else is ignored. */
  lemma RouteOfChar(c: char)
    ensures RouteOf([c]) ==
      if c in ClickChars then ToClick
      else if c in OperatorChars then ToOperator
      else if c == '=' then ToEqual
      else Ignored
  {
    CharIn(c, KeyChars);
    CharIn(c, ClickChars);
    CharIn(c, OperatorChars);
  }

  /**
    Texts of more than one character: a run of digits clicks and a run of
    operators is an operator, but `9.` is ignored although both of its
    characters are click keys, since it is not a run of `KeyChars`.
  */
  lemma RouteOfText()
    ensures RouteOf("12") == ToClick
    ensures RouteOf("+-") == ToOperator
    ensures RouteOf("9.") == Ignored
  {
    assert OccursAt("12", Digits, 1);
    assert OccursAt("+-", OperatorChars, 0);
    forall i | 0 <= i <= |KeyChars|
      ensures !OccursAt("9.", KeyChars, i)
    {
      if i == 9 {
        assert KeyChars[i..i + 2][1] == '+';
      } else if i <= |KeyChars| - 2 {
        assert KeyChars[i..i + 2][0] == KeyChars[i];
      }
    }
  }

  /** The empty `char` of a modifier key is `in` both ranges, so it reaches `button_click` ... */
  lemma RouteOfEmpty()
    ensures RouteOf("") == ToClick
  {
    EmptyIsIn(KeyChars);
    EmptyIsIn(ClickChars);
  }

  /** ... where it appends nothing. */
  lemma ClickedEmpty(s: State)
    ensures Clicked(s, "") == s
  {
    assert s.display + "" == s.display;
  }

  /** The display shows one of the error texts; all of them start with `E`. */
  predicate ShowsError(s: State)
  {
    s.display != [] && s.display[0] == 'E'
  }

  /** Appending to an error text keeps it an error text. */
  lemma ClickedKeepsError(s: State, number: string)
    requires ShowsError(s)
    ensures ShowsError(Clicked(s, number))
  {
    assert (s.display + number)[0] == s.display[0];
  }
}
