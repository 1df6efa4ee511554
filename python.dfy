/**
  The pieces of Python semantics the calculators depend on: `needle in hay` on two
  str values, the slice `text[:-1]`, and the host services the model does not
  re-implement (`float()`, `eval`, number rendering), which appear as parameters.
*/
module Python {

  datatype Option<+T> = None | Some(value: T)

  /** `float(text)`: the parsed value, or None where Python raises ValueError. */
  type Parser = string -> Option<real>

  /** `str(eval(text))`, or None where evaluation raises any exception. */
  type Evaluator = string -> Option<string>

  /** How a numeric result is rendered into the display. */
  type Render = real -> string

  /**
    Facts about Python's `float()` the error-recovery lemmas need: it raises on the
    empty text and on every text whose first character is `E` (no float literal,
    `inf` or `nan` spelling starts with that letter).
  */
  ghost predicate FloatLike(parse: Parser)
  {
    && parse("") == None
    && forall text :: text != [] && text[0] == 'E' ==> parse(text) == None
  }

  /** Float multiplication, modelled on the reals without rounding. */
  function Times(x: real, y: real): (r: real)
  {
    x * y
  }

  /** Float division by a non-zero divisor, modelled on the reals without rounding. */
  function Over(x: real, y: real): (r: real)
    requires y != 0.0
  {
    x / y
  }

  /** `needle` occurs in `hay` starting at index `i`. */
  predicate OccursAt(needle: string, hay: string, i: int)
  {
    0 <= i <= |hay| - |needle| && hay[i..i + |needle|] == needle
  }

  /** Python's `needle in hay` for two str values: a substring test. */
  predicate In(needle: string, hay: string)
    ensures In(needle, hay) ==> |needle| <= |hay|
    ensures needle == hay ==> In(needle, hay)
  {
    assert needle == hay ==> OccursAt(needle, hay, 0);
    exists i :: 0 <= i <= |hay| && OccursAt(needle, hay, i)
  }

  /** A substring of a substring of `hay` is a substring of `hay`. */
  lemma InTransitive(needle: string, middle: string, hay: string)
    requires In(needle, middle) && In(middle, hay)
    ensures In(needle, hay)
  {
    var i :| 0 <= i <= |middle| && OccursAt(needle, middle, i);
    var j :| 0 <= j <= |hay| && OccursAt(middle, hay, j);
    forall k | 0 <= k < |needle|
      ensures hay[j + i + k] == needle[k]
    {
      assert hay[j..j + |middle|][i + k] == middle[i + k];
      assert middle[i..i + |needle|][k] == needle[k];
    }
    assert hay[j + i..j + i + |needle|] == needle;
    assert OccursAt(needle, hay, j + i);
  }

  /** The first character of a non-empty substring is a character of `hay`. */
  lemma FirstIn(needle: string, hay: string)
    requires In(needle, hay) && needle != []
    ensures needle[0] in hay
  {
    var i :| 0 <= i <= |hay| && OccursAt(needle, hay, i);
    assert hay[i..i + |needle|][0] == hay[i];
  }

  /** The empty str is `in` every str. */
  lemma EmptyIsIn(hay: string)
    ensures In("", hay)
  {
    assert OccursAt("", hay, 0);
  }

  /** For a one-character str, `in` is plain membership of that character. */
  lemma CharIn(c: char, hay: string)
    ensures In([c], hay) <==> c in hay
  {
    if c in hay {
      var i :| 0 <= i < |hay| && hay[i] == c;
      assert OccursAt([c], hay, i);
    }
    if In([c], hay) {
      var i :| 0 <= i <= |hay| && OccursAt([c], hay, i);
      assert hay[i] == hay[i..i + 1][0];
    }
  }

  /** `text[:-1]`: all but the last character; the empty str stays empty. */
  function DropLast(text: string): (r: string)
    ensures text == [] ==> r == []
    ensures text != [] ==> r + [text[|text| - 1]] == text
  {
    if text == [] then [] else text[..|text| - 1]
  }
}
