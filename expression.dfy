/**
  What the expression-buffer calculators (calckenda.py, usingDuckType.py,
  calculator.py) have in common: the rewriting of the power alias `^` into
  Python's `**` when a token is appended, and the fail-soft evaluation that turns
  an exception into the text "Error".
*/
module Expression {
  import opened Python

  /** The characters the key handlers append. */
  const Keys := "0123456789+-*/()."

  /** Every character of `Keys` lies between `(` and `9`. */
  lemma KeysRange()
    ensures forall i :: 0 <= i < |Keys| ==> '(' <= Keys[i] <= '9'
  {
  }

  /** A single character outside that range is not `in` `Keys`. */
  lemma NotAKey(key: string)
    requires |key| == 1 && (key[0] < '(' || '9' < key[0])
    ensures !In(key, Keys)
  {
    KeysRange();
    assert key == [key[0]];
    CharIn(key[0], Keys);
  }

  /** The text appending a token adds: the power alias `^` as `**`, any other token verbatim. */
  function Spelling(token: string): (r: string)
    ensures r == token <==> token != "^"
    ensures token == "^" ==> r == "**"
    ensures '^' in r ==> r == token
  {
    if token == "^" then "**" else token
  }

  /** The engine's expression together with the text the window's display shows. */
  datatype Screen = Screen(expression: string, display: string)

  /** The text a whole sequence of tokens adds. */
  function Spelled(tokens: seq<string>): (r: string)
  {
    if tokens == [] then "" else Spelling(tokens[0]) + Spelled(tokens[1..])
  }

  /** Spelling a sequence in two parts gives the two spellings one after the other. */
  lemma {:induction false} SpelledSplits(front: seq<string>, back: seq<string>)
    ensures Spelled(front + back) == Spelled(front) + Spelled(back)
    decreases |front|
  {
    if front == [] {
      assert front + back == back;
    } else {
      assert (front + back)[1..] == front[1..] + back;
      SpelledSplits(front[1..], back);
      assert Spelling(front[0]) + (Spelled(front[1..]) + Spelled(back)) ==
             (Spelling(front[0]) + Spelled(front[1..])) + Spelled(back);
    }
  }

  /** The tokens' texts one after another, as if appended in one call. */
  function Joined(tokens: seq<string>): (r: string)
  {
    if tokens == [] then "" else tokens[0] + Joined(tokens[1..])
  }

  /**
    Without the alias among them, appending tokens one at a time or all at
    once gives the same text: the joined text is not the alias either.
  */
  lemma {:induction false} SpelledWithoutAlias(tokens: seq<string>)
    requires forall k :: 0 <= k < |tokens| ==> tokens[k] != "^"
    ensures Spelled(tokens) == Joined(tokens)
    ensures Joined(tokens) != "^"
    ensures Spelled(tokens) == Spelling(Joined(tokens))
    decreases |tokens|
  {
    if tokens != [] {
      SpelledWithoutAlias(tokens[1..]);
      if tokens[0] == "" {
        assert Joined(tokens) == Joined(tokens[1..]);
      }
    }
  }

  /** With the alias, they differ: `2`, `^`, `3` one at a time give `2**3`, but `2^3` in one call stays `2^3`. */
  lemma AliasOnlyAsWholeToken()
    ensures Spelled(["2", "^", "3"]) == "2**3"
    ensures Spelling(Joined(["2", "^", "3"])) == "2^3"
  {
    assert Spelled(["3"]) == "3";
    assert Spelled(["^", "3"]) == "**3";
    assert Joined(["3"]) == "3";
    assert Joined(["^", "3"]) == "^3";
  }

  /** Tokens of one character each (the buttons' labels) never leave a `^` for the evaluator. */
  lemma {:induction false} NoAliasReachesEvaluator(tokens: seq<string>)
    requires forall k :: 0 <= k < |tokens| ==> |tokens[k]| == 1
    ensures '^' !in Spelled(tokens)
    decreases |tokens|
  {
    if tokens != [] {
      var t := tokens[0];
      if t != "^" {
        assert t == [t[0]];
      }
      assert '^' !in Spelling(t);
      NoAliasReachesEvaluator(tokens[1..]);
    }
  }

  /** `str(eval(expression))`, or "Error" when evaluation raises: the caller always gets a text. */
  function Evaluated(eval: Evaluator, expression: string): (r: string)
    ensures eval(expression).None? ==> r == "Error"
    ensures eval(expression).Some? ==> r == eval(expression).value
  {
    match eval(expression)
    case Some(text) => text
    case None => "Error"
  }

  /**
    `on_button_click` of calckenda.py and usingDuckType.py, which is the same
    in both: "C" clears, "=" shows the result without touching the
    expression, and every other button, `%` and `✓` included, is appended
    with its spelling; except after "=", the display then shows the expression.
  */
  function ButtonClicked(s: Screen, button: string, eval: Evaluator): (r: Screen)
    ensures button == "C" ==> r == Screen("", "")
    ensures button == "=" ==> r == Screen(s.expression, Evaluated(eval, s.expression))
    ensures button != "C" && button != "=" ==>
              r.expression == s.expression + Spelling(button) && r.display == r.expression
  {
    if button == "C" then Screen("", "")
    else if button == "=" then s.(display := Evaluated(eval, s.expression))
    else var e := s.expression + Spelling(button); Screen(e, e)
  }

  /** The screen after the buttons are clicked one after another. */
  function Clicks(s: Screen, buttons: seq<string>, eval: Evaluator): (r: Screen)
    decreases |buttons|
  {
    if buttons == [] then s else Clicks(ButtonClicked(s, buttons[0], eval), buttons[1..], eval)
  }

  /**
    Clicking buttons other than "C" and "=" builds the expression from their
    spellings, and the display shows the expression built so far.
  */
  lemma {:induction false} ClicksBuildExpression(s: Screen, buttons: seq<string>, eval: Evaluator)
    requires forall k :: 0 <= k < |buttons| ==> buttons[k] != "C" && buttons[k] != "="
    ensures Clicks(s, buttons, eval).expression == s.expression + Spelled(buttons)
    ensures buttons != [] ==> Clicks(s, buttons, eval).display == Clicks(s, buttons, eval).expression
    decreases |buttons|
  {
    if buttons != [] {
      var head := Spelling(buttons[0]);
      var t := ButtonClicked(s, buttons[0], eval);
      assert t == Screen(s.expression + head, s.expression + head);
      ClicksBuildExpression(t, buttons[1..], eval);
      assert Spelled(buttons) == head + Spelled(buttons[1..]);
      assert (s.expression + head) + Spelled(buttons[1..]) == s.expression + (head + Spelled(buttons[1..]));
    }
  }

  /** "=" only shows the result: clicking it again shows the same text. */
  lemma EqualTwiceShowsSameResult(s: Screen, eval: Evaluator)
    ensures ButtonClicked(ButtonClicked(s, "=", eval), "=", eval) == ButtonClicked(s, "=", eval)
  {
  }
}
