/** The multi-line part of the Python syntax highlighter: triple-quoted
    strings that span lines are tracked with a block state that each line
    hands to the next (0 outside a string, 1 inside `"""`, 2 inside `'''`),
    and the string parts of a line are reported as formatted ranges. */
module Highlighter {
  import opened Text

  const DoubleQuotes: string := "\"\"\""
  const SingleQuotes: string := "'''"

  /** One `setFormat` call with the multi-line string format. */
  datatype Range = Range(start: int, length: int)

  /** The block state a line ends in and the ranges formatted on it, in order. */
  datatype Highlighting = Highlighting(state: int, ranges: seq<Range>)

  /** A string opened by `quote` at `start`: it runs to its closing quote on
      the same line (state 0), or to the end of the line (state `inside`). */
  function Opened(text: string, quote: string, start: nat, inside: int): Highlighting {
    var stop := Find(text, quote, start + 3);
    if stop == -1 then Highlighting(inside, [Range(start, |text| - start)])
    else Highlighting(0, [Range(start, stop - start + 3)])
  }

  /** A line that continues a string: it is closed by the first `quote`
      (state 0), or the whole line is inside it (state `inside`). */
  function Continued(text: string, quote: string, inside: int): Highlighting {
    var stop := Find(text, quote, 0);
    if stop == -1 then Highlighting(inside, [Range(0, |text|)])
    else Highlighting(0, [Range(0, stop + 3)])
  }

  /** What a line opens when it does not continue a `"""` string: a `"""`
      if there is one, otherwise a `'''`. */
  function Opening(text: string): (r: Highlighting)
    ensures 0 <= r.state <= 2
  {
    var double := Find(text, DoubleQuotes, 0);
    if double != -1 then Opened(text, DoubleQuotes, double, 1)
    else
      var single := Find(text, SingleQuotes, 0);
      if single != -1 then Opened(text, SingleQuotes, single, 2) else Highlighting(0, [])
  }

  /** `highlightBlock` as written: the opener search runs for every previous
      state but 1, so after a line inside a `'''` string the opening ranges
      come first, and the closing step only ever sets state 2, never 0. */
  function Highlight(previous: int, text: string): (r: Highlighting)
    ensures 0 <= r.state <= 2
  {
    if previous == 1 then Continued(text, DoubleQuotes, 1)
    else if previous == 2 then
      var opening := Opening(text);
      var closing := Continued(text, SingleQuotes, 2);
      Highlighting(if closing.state == 2 then 2 else opening.state, opening.ranges + closing.ranges)
    else Opening(text)
  }

  /** `highlightBlock` as its comments describe it: a line inside a string
      only looks for that string's closing quote, as the `"""` case does. */
  function HighlightIntended(previous: int, text: string): (r: Highlighting)
    ensures 0 <= r.state <= 2
    ensures previous != 2 ==> r == Highlight(previous, text)
  {
    if previous == 1 then Continued(text, DoubleQuotes, 1)
    else if previous == 2 then Continued(text, SingleQuotes, 2)
    else Opening(text)
  }

  /** `first` is the first place `quote` occurs in `text`. */
  predicate FirstAt(text: string, quote: string, first: int) {
    0 <= first && OccursAt(text, quote, first) &&
    forall i :: 0 <= i < first ==> !OccursAt(text, quote, i)
  }

  lemma FirstIsFind(text: string, quote: string, first: int)
    requires FirstAt(text, quote, first)
    ensures Find(text, quote, 0) == first
  {
    var f := Find(text, quote, 0);
    assert f != -1;
  }

  lemma MissingIsFind(text: string, quote: string)
    requires !Contains(text, quote)
    ensures Find(text, quote, 0) == -1
  {
    FindContains(text, quote);
  }

  /** Every formatted range lies inside the line. */
  predicate WithinLine(text: string, ranges: seq<Range>) {
    forall i :: 0 <= i < |ranges| ==>
      0 <= ranges[i].start && 0 <= ranges[i].length && ranges[i].start + ranges[i].length <= |text|
  }

  lemma HighlightWithinLine(previous: int, text: string)
    ensures WithinLine(text, Highlight(previous, text).ranges)
    ensures WithinLine(text, HighlightIntended(previous, text).ranges)
  {
    var d := Find(text, DoubleQuotes, 0);
    var s := Find(text, SingleQuotes, 0);
    var d3 := if d == -1 then -1 else Find(text, DoubleQuotes, d + 3);
    var s3 := if s == -1 then -1 else Find(text, SingleQuotes, s + 3);
  }

  /** Outside a string, a line without triple quotes stays outside and has
      nothing formatted. */
  lemma PlainLine(previous: int, text: string)
    requires previous != 1 && previous != 2
    requires !Contains(text, DoubleQuotes) && !Contains(text, SingleQuotes)
    ensures Highlight(previous, text) == Highlighting(0, [])
  {
    MissingIsFind(text, DoubleQuotes);
    MissingIsFind(text, SingleQuotes);
  }

  /** Inside a `"""` string, a line without `"""` stays inside and is
      formatted whole. */
  lemma InsideDouble(text: string)
    requires !Contains(text, DoubleQuotes)
    ensures Highlight(1, text) == Highlighting(1, [Range(0, |text|)])
  {
    MissingIsFind(text, DoubleQuotes);
  }

  /** Inside a `"""` string, the first `"""` of a line closes it: the line up
      to and including it is formatted and the state is 0. */
  lemma ClosesDouble(text: string, stop: int)
    requires FirstAt(text, DoubleQuotes, stop)
    ensures Highlight(1, text) == Highlighting(0, [Range(0, stop + 3)])
    ensures stop + 3 <= |text|
  {
    FirstIsFind(text, DoubleQuotes, stop);
  }

  /** Outside a string, an opening `"""` at `start` that is not closed on the
      line leaves the line in state 1, formatted from `start` to its end. */
  lemma OpensDouble(previous: int, text: string, start: int)
    requires previous != 1 && previous != 2
    requires FirstAt(text, DoubleQuotes, start)
    requires !Contains(text[start + 3..], DoubleQuotes)
    ensures Highlight(previous, text) == Highlighting(1, [Range(start, |text| - start)])
  {
    FirstIsFind(text, DoubleQuotes, start);
    var stop := Find(text, DoubleQuotes, start + 3);
    if stop != -1 {
      assert OccursAt(text[start + 3..], DoubleQuotes, stop - (start + 3)) by {
        assert text[start + 3..][stop - (start + 3)..stop - start] == text[stop..stop + 3];
      }
    }
  }

  /** Unless it continues a `"""` string, a line without `"""` whose first
      `'''` is not closed on it ends in state 2; outside a string, the only
      formatted range runs from that `'''` to the end of the line. */
  lemma OpensSingle(previous: int, text: string, start: int)
    requires previous != 1
    requires !Contains(text, DoubleQuotes)
    requires FirstAt(text, SingleQuotes, start)
    requires !Contains(text[start + 3..], SingleQuotes)
    ensures Highlight(previous, text).state == 2
    ensures previous != 2 ==> Highlight(previous, text).ranges == [Range(start, |text| - start)]
  {
    MissingIsFind(text, DoubleQuotes);
    FirstIsFind(text, SingleQuotes, start);
    var stop := Find(text, SingleQuotes, start + 3);
    if stop != -1 {
      assert OccursAt(text[start + 3..], SingleQuotes, stop - (start + 3)) by {
        assert text[start + 3..][stop - (start + 3)..stop - start] == text[stop..stop + 3];
      }
    }
  }

  /** As written, inside a `'''` string a line whose only `'''` is the closing
      one still ends in state 2: the opener search takes that `'''` for an
      opening one, and the closing step cannot reset the state to 0. */
  lemma ClosingSingleStaysInside(text: string, stop: int)
    requires !Contains(text, DoubleQuotes)
    requires FirstAt(text, SingleQuotes, stop)
    requires !Contains(text[stop + 3..], SingleQuotes)
    ensures Highlight(2, text).state == 2
    ensures HighlightIntended(2, text) == Highlighting(0, [Range(0, stop + 3)])
  {
    OpensSingle(2, text, stop);
    FirstIsFind(text, SingleQuotes, stop);
  }

  /** The line `x'''` after a line inside a `'''` string. */
  lemma ClosingSingleExample()
    ensures Highlight(2, "x'''").state == 2
    ensures HighlightIntended(2, "x'''").state == 0
  {
    var text := "x'''";
    assert !Contains(text, DoubleQuotes) by {
      forall i | 0 <= i <= |text| ensures !OccursAt(text, DoubleQuotes, i) {
        assert i + 3 <= |text| ==> text[i..i + 3][0] == text[i] != '"';
      }
    }
    assert OccursAt(text, SingleQuotes, 1) by {
      assert text[1..4] == SingleQuotes;
    }
    assert !OccursAt(text, SingleQuotes, 0) by {
      assert text[0] != SingleQuotes[0];
    }
    assert !Contains(text[4..], SingleQuotes);
    ClosingSingleStaysInside(text, 1);
  }

  /** Inside a `'''` string, the intended highlighter closes the string at the
      line's first `'''`, and otherwise keeps the whole line inside it. */
  lemma IntendedClosesSingle(text: string)
    ensures Contains(text, SingleQuotes) ==> HighlightIntended(2, text).state == 0
    ensures !Contains(text, SingleQuotes) ==> HighlightIntended(2, text) == Highlighting(2, [Range(0, |text|)])
  {
    FindContains(text, SingleQuotes);
  }

  /** The states a run of lines ends in, each line starting from the state
      the line before it ended in. */
  function States(previous: int, lines: seq<string>): (r: seq<int>)
    ensures |r| == |lines|
    decreases |lines|
  {
    if lines == [] then []
    else
      var s := Highlight(previous, lines[0]).state;
      [s] + States(s, lines[1..])
  }

  /** Once inside a `"""` string, every following line without `"""` stays
      inside it. */
  lemma {:induction false} StaysInsideDouble(lines: seq<string>)
    requires forall i :: 0 <= i < |lines| ==> !Contains(lines[i], DoubleQuotes)
    ensures forall i :: 0 <= i < |lines| ==> States(1, lines)[i] == 1
    decreases |lines|
  {
    if lines != [] {
      InsideDouble(lines[0]);
      StaysInsideDouble(lines[1..]);
    }
  }

  /** The highlighter of an editor tab; `blockState` is the state of the
      line last highlighted and `formats` the string ranges set on it. */
  class PythonHighlighter {
    var blockState: int
    var formats: seq<Range>

    /** A block that was never highlighted has state -1. */
    constructor()
      ensures blockState == -1 && formats == []
    {
      blockState := -1;
      formats := [];
    }

    /** `highlightBlock` for the line `text`, `previous` being the state of
        the line before it. */
    method HighlightBlock(text: string, previous: int)
      modifies this
      ensures blockState == Highlight(previous, text).state
      ensures formats == Highlight(previous, text).ranges
    {
      formats := [];
      blockState := 0;
      if previous != 1 {
        var start := Find(text, DoubleQuotes, 0);
        if start == -1 {
          start := Find(text, SingleQuotes, 0);
          if start != -1 {
            var stop := Find(text, SingleQuotes, start + 3);
            var length := 0;
            if stop == -1 {
              blockState := 2;
              length := |text| - start;
            } else {
              length := stop - start + 3;
            }
            formats := formats + [Range(start, length)];
          }
        }
      }
      if previous == 1 {
        var stop := Find(text, DoubleQuotes, 0);
        var length := 0;
        if stop == -1 {
          blockState := 1;
          length := |text|;
        } else {
          length := stop + 3;
        }
        formats := formats + [Range(0, length)];
      } else if blockState != 2 {
        var start := Find(text, DoubleQuotes, 0);
        if start != -1 {
          var stop := Find(text, DoubleQuotes, start + 3);
          var length := 0;
          if stop == -1 {
            blockState := 1;
            length := |text| - start;
          } else {
            length := stop - start + 3;
          }
          formats := formats + [Range(start, length)];
        }
      }
      if previous == 2 {
        var stop := Find(text, SingleQuotes, 0);
        var length := 0;
        if stop == -1 {
          blockState := 2;
          length := |text|;
        } else {
          length := stop + 3;
        }
        formats := formats + [Range(0, length)];
      }
    }
  }
}
