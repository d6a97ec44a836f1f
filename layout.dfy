/** The height heuristic `_calc_height`: six rows of frame plus, for every
    line of the body text, one row and one more for each full widget width
    the line spans. Lines are split on `\n` only. */
module Layout {
  import opened Text

  /** Rows a widget needs besides the text. */
  const BaseHeight: int := 6

  /** Python's `text.find('\n')`, or `|text|` when there is none. */
  function LineEnd(text: string): (k: nat)
    ensures k <= |text|
    ensures k < |text| ==> text[k] == '\n'
  {
    if text == [] || text[0] == '\n' then 0 else LineEnd(text[1..]) + 1
  }

  /** No line break comes before the one `LineEnd` finds. */
  lemma {:induction false} LineEndIsFirst(text: string)
    ensures forall i | 0 <= i < LineEnd(text) :: text[i] != '\n'
  {
    if text != [] && text[0] != '\n' {
      LineEndIsFirst(text[1..]);
    }
  }

  /** `text.splitlines()` for `\n` line breaks: the text cut at each `\n`,
      where the empty text has no line and a final `\n` opens no new line. */
  function SplitLines(text: string): (lines: seq<string>)
    ensures |lines| <= |text|
    decreases |text|
  {
    if text == [] then []
    else
      var k := LineEnd(text);
      if k == |text| then [text] else [text[..k]] + SplitLines(text[k + 1..])
  }

  /** No line holds a line break. */
  lemma {:induction false} SplitLinesHaveNoBreak(text: string)
    ensures forall i | 0 <= i < |SplitLines(text)| :: '\n' !in SplitLines(text)[i]
    decreases |text|
  {
    LineEndIsFirst(text);
    if text != [] && LineEnd(text) < |text| {
      var k := LineEnd(text);
      SplitLinesHaveNoBreak(text[k + 1..]);
      assert '\n' !in text[..k];
    }
  }

  /** `'\n'.join(lines)` */
  function JoinLines(lines: seq<string>): string {
    Join("\n", lines)
  }

  /** Whether the text ends in a line break. */
  predicate EndsWithNewline(text: string) {
    text != [] && text[|text| - 1] == '\n'
  }

  /** `'\n'.join` of a first line followed by more lines. */
  lemma JoinLinesCons(line: string, more: seq<string>)
    requires more != []
    ensures JoinLines([line] + more) == line + "\n" + JoinLines(more)
  {
    assert ([line] + more)[1..] == more;
  }

  /** One step of the split: the first line, then the split of the rest. */
  lemma SplitLinesStep(text: string)
    requires LineEnd(text) < |text|
    ensures SplitLines(text) == [text[..LineEnd(text)]] + SplitLines(text[LineEnd(text) + 1..])
  {
  }

  /** Splitting loses nothing but a final line break: joining the lines back
      gives the text again. */
  lemma {:induction false} SplitThenJoin(text: string)
    ensures JoinLines(SplitLines(text)) + (if EndsWithNewline(text) then "\n" else "") == text
    decreases |text|
  {
    if text == [] {
    } else if LineEnd(text) == |text| {
      assert SplitLines(text) == [text];
      LineEndIsFirst(text);
      assert !EndsWithNewline(text);
    } else {
      var k := LineEnd(text);
      SplitThenJoin(text[k + 1..]);
      SplitThenJoinLater(text, k);
    }
  }

  /** The step of `SplitThenJoin` past the first line break. */
  lemma SplitThenJoinLater(text: string, k: nat)
    requires k == LineEnd(text) < |text|
    requires JoinLines(SplitLines(text[k + 1..])) + (if EndsWithNewline(text[k + 1..]) then "\n" else "") == text[k + 1..]
    ensures JoinLines(SplitLines(text)) + (if EndsWithNewline(text) then "\n" else "") == text
  {
    var line, rest := text[..k], text[k + 1..];
    TextAroundBreak(text, k);
    SplitLinesStep(text);
    if rest == [] {
      SplitThenJoinLast(line, rest);
    } else {
      SplitThenJoinMore(line, rest);
    }
  }

  lemma TextAroundBreak(text: string, k: nat)
    requires k < |text| && text[k] == '\n'
    ensures text == (text[..k] + "\n") + text[k + 1..]
  {
  }

  lemma SplitThenJoinLast(line: string, rest: string)
    requires rest == []
    ensures JoinLines([line] + SplitLines(rest)) + (if EndsWithNewline((line + "\n") + rest) then "\n" else "")
         == (line + "\n") + rest
  {
    assert [line] + SplitLines(rest) == [line];
    assert (line + "\n") + rest == line + "\n";
  }

  lemma SplitThenJoinMore(line: string, rest: string)
    requires rest != []
    requires JoinLines(SplitLines(rest)) + (if EndsWithNewline(rest) then "\n" else "") == rest
    ensures JoinLines([line] + SplitLines(rest)) + (if EndsWithNewline((line + "\n") + rest) then "\n" else "")
         == (line + "\n") + rest
  {
    var tail := SplitLines(rest);
    SplitLinesNonEmpty(rest);
    JoinLinesCons(line, tail);
    EndsWithNewlineAppend(line + "\n", rest);
    AppendAssoc(line + "\n", JoinLines(tail), if EndsWithNewline(rest) then "\n" else "");
  }

  /** A non-empty text has at least one line. */
  lemma SplitLinesNonEmpty(text: string)
    requires text != []
    ensures SplitLines(text) != []
  {
    if LineEnd(text) < |text| {
      SplitLinesStep(text);
    }
  }

  lemma EndsWithNewlineAppend(first: string, rest: string)
    requires rest != []
    ensures EndsWithNewline(first + rest) == EndsWithNewline(rest)
  {
    assert (first + rest)[|first + rest| - 1] == rest[|rest| - 1];
  }

  /** Lines without line breaks, the last one non-empty, split back to
      themselves. */
  lemma {:induction false} JoinThenSplit(lines: seq<string>)
    requires forall i | 0 <= i < |lines| :: '\n' !in lines[i]
    requires lines != [] ==> lines[|lines| - 1] != ""
    ensures SplitLines(JoinLines(lines)) == lines
  {
    if |lines| == 1 {
      LineEndOfLine(lines[0], "");
      assert lines[0] + "" == lines[0];
    } else if |lines| > 1 {
      var text := JoinLines(lines);
      var rest := JoinLines(lines[1..]);
      assert text == lines[0] + ("\n" + rest);
      LineEndOfLine(lines[0], "\n" + rest);
      assert text[|lines[0]| + 1..] == rest;
      assert text[..|lines[0]|] == lines[0];
      JoinThenSplit(lines[1..]);
    }
  }

  lemma {:induction false} LineEndOfLine(line: string, rest: string)
    requires '\n' !in line
    requires rest != [] ==> rest[0] == '\n'
    ensures LineEnd(line + rest) == |line|
  {
    if line != [] {
      assert (line + rest)[1..] == line[1..] + rest;
      LineEndOfLine(line[1..], rest);
    } else {
      assert line + rest == rest;
    }
  }

  /** Rows taken by the given lines: `len(line) // width + 1` each. */
  function LinesHeight(lines: seq<string>, width: int): (rows: int)
    requires width != 0
    ensures width > 0 ==> rows >= 0
  {
    if lines == [] then 0
    else FloorDiv(|lines[0]|, width) + 1 + LinesHeight(lines[1..], width)
  }

  /** The height `_calc_height` computes for a text. */
  function TextHeight(text: string, width: int): (height: int)
    requires width != 0
    ensures width > 0 ==> height >= BaseHeight
  {
    BaseHeight + LinesHeight(SplitLines(text), width)
  }

  /** `_calc_height`: starts at 6 and adds each line's rows in turn. */
  method CalcHeight(text: string, width: int) returns (height: int)
    requires width != 0
    ensures height == TextHeight(text, width)
  {
    var lines := SplitLines(text);
    height := 6;
    for i := 0 to |lines|
      invariant height + LinesHeight(lines[i..], width) == TextHeight(text, width)
    {
      assert lines[i..][1..] == lines[i + 1..];
      height := height + FloorDiv(|lines[i]|, width) + 1;
    }
    assert lines[|lines|..] == [];
  }

  /** For a positive width every line takes at least one row, so the
      height is at least 6 plus the number of lines, and at least 6. */
  lemma {:induction false} LinesHeightAtLeastCount(lines: seq<string>, width: int)
    requires width > 0
    ensures LinesHeight(lines, width) >= |lines|
  {
    if lines != [] {
      LinesHeightAtLeastCount(lines[1..], width);
    }
  }

  lemma HeightLowerBound(text: string, width: int)
    requires width > 0
    ensures TextHeight(text, width) >= BaseHeight + |SplitLines(text)|
    ensures TextHeight(text, width) >= 6
  {
    LinesHeightAtLeastCount(SplitLines(text), width);
  }

  /** A single non-empty line takes one row per started multiple of the
      width: one row, plus one for each full width it spans. */
  lemma SingleLineHeight(line: string, width: int)
    requires width > 0 && '\n' !in line && line != []
    ensures TextHeight(line, width) == BaseHeight + |line| / width + 1
  {
    LineEndOfLine(line, "");
    assert line + "" == line;
    assert SplitLines(line) == [line];
    assert LinesHeight([line], width) == FloorDiv(|line|, width) + 1 + LinesHeight([line][1..], width);
    assert [line][1..] == [];
  }

  /** The empty text takes the frame only. */
  lemma EmptyTextHeight(width: int)
    requires width != 0
    ensures TextHeight("", width) == 6
  {
  }

  /** Splitting `a + "\n" + b` gives the lines of `a` followed by those of
      `b`, as long as `a` is non-empty and does not end in a line break. */
  lemma {:induction false} SplitLinesAppend(a: string, b: string)
    requires a != [] && !EndsWithNewline(a)
    ensures SplitLines(a + "\n" + b) == SplitLines(a) + SplitLines(b)
    decreases |a|
  {
    var k := LineEnd(a);
    if k == |a| {
      SplitLinesAppendOneLine(a, b);
    } else {
      var a' := a[k + 1..];
      assert a' != [] && !EndsWithNewline(a') by {
        assert a'[|a'| - 1] == a[|a| - 1];
      }
      SplitLinesAppend(a', b);
      SplitLinesAppendLater(a, b, k);
    }
  }

  lemma SplitLinesAppendOneLine(a: string, b: string)
    requires a != [] && LineEnd(a) == |a|
    ensures SplitLines(a + "\n" + b) == SplitLines(a) + SplitLines(b)
  {
    LineEndAppend(a, b);
    SlicesAroundBreak(a, b, |a|);
    assert a[..|a|] == a;
    SplitLinesStep(a + "\n" + b);
  }

  lemma SplitLinesAppendLater(a: string, b: string, k: nat)
    requires k == LineEnd(a) < |a|
    requires SplitLines(a[k + 1..] + "\n" + b) == SplitLines(a[k + 1..]) + SplitLines(b)
    ensures SplitLines(a + "\n" + b) == SplitLines(a) + SplitLines(b)
  {
    SplitLinesAppendHead(a, b, k);
    SplitLinesStep(a);
    AppendAssoc([a[..k]], SplitLines(a[k + 1..]), SplitLines(b));
  }

  lemma SplitLinesAppendHead(a: string, b: string, k: nat)
    requires k == LineEnd(a) < |a|
    ensures SplitLines(a + "\n" + b) == [a[..k]] + SplitLines(a[k + 1..] + "\n" + b)
  {
    LineEndAppend(a, b);
    SlicesAroundBreak(a, b, k);
    SplitLinesStepAt(a + "\n" + b, k, a[..k], a[k + 1..] + "\n" + b);
  }

  /** `SplitLinesStep` with the first line and the rest named. */
  lemma SplitLinesStepAt(t: string, k: nat, first: string, rest: string)
    requires LineEnd(t) == k < |t| && t[..k] == first && t[k + 1..] == rest
    ensures SplitLines(t) == [first] + SplitLines(rest)
  {
    SplitLinesStep(t);
  }

  /** Appending a line break and more text leaves the first line break of
      `a`, or the appended one, first. */
  lemma {:induction false} LineEndAppend(a: string, b: string)
    ensures LineEnd(a + "\n" + b) == LineEnd(a)
  {
    if a != [] && a[0] != '\n' {
      assert (a + "\n" + b)[1..] == a[1..] + "\n" + b;
      LineEndAppend(a[1..], b);
    }
  }

  lemma SlicesAroundBreak(a: string, b: string, k: nat)
    requires k <= |a|
    ensures (a + "\n" + b)[..k] == a[..k]
    ensures k == |a| ==> (a + "\n" + b)[k + 1..] == b
    ensures k < |a| ==> (a + "\n" + b)[k + 1..] == a[k + 1..] + "\n" + b
  {
    if k < |a| {
      var t := a + "\n" + b;
      assert a == a[..k + 1] + a[k + 1..];
      AppendAssoc(a[..k + 1], a[k + 1..], "\n");
      AppendAssoc(a[..k + 1], a[k + 1..] + "\n", b);
    }
  }

  lemma {:induction false} LinesHeightAppend(xs: seq<string>, ys: seq<string>, width: int)
    requires width != 0
    ensures LinesHeight(xs + ys, width) == LinesHeight(xs, width) + LinesHeight(ys, width)
  {
    if xs != [] {
      assert (xs + ys)[1..] == xs[1..] + ys;
      LinesHeightAppend(xs[1..], ys, width);
    } else {
      assert xs + ys == ys;
    }
  }

  /** Heights add up line block by line block: the text `a + "\n" + b`
      takes the rows of `a` and of `b` under one frame. */
  lemma HeightOfJoinedTexts(a: string, b: string, width: int)
    requires width != 0
    requires a != [] && !EndsWithNewline(a)
    ensures TextHeight(a + "\n" + b, width) == TextHeight(a, width) + TextHeight(b, width) - BaseHeight
  {
    SplitLinesAppend(a, b);
    LinesHeightAppend(SplitLines(a), SplitLines(b), width);
  }

  /** A final line break adds no line and no row. */
  lemma TrailingNewlineHeight(text: string, width: int)
    requires width != 0
    requires text != [] && !EndsWithNewline(text)
    ensures TextHeight(text + "\n", width) == TextHeight(text, width)
  {
    HeightOfJoinedTexts(text, "", width);
    assert text + "\n" + "" == text + "\n";
  }
}
