/**
 * ATX headings (header.rs): up to three characters of indentation, a run of
 * `#` within the bounds of `Limits<_, 1, 7>`, the rest of the line as
 * content, an optional line ending, and the whitespace at the front of the
 * content split off as the separator.
 */
module Headings {
  import opened ErrorModel
  import opened Input
  import opened Spaces

  datatype ATXHeading = ATXHeading(
    identWhitespaces: Slice,
    leadingPounds: Slice,
    seperate: Slice,
    content: Slice,
    lineEnding: Option<LineEnding>)

  /** `to_span` of an optional line ending: no span when absent. */
  function OptionalSpan(le: Option<LineEnding>): Span
  {
    if le.Some? then LineEndingSpan(le.value) else NoSpan
  }

  /** `ATXHeading::to_span`: indentation, pounds, content and line ending united. */
  function ToSpan(h: ATXHeading): Span
  {
    h.identWhitespaces.ToSpan()
      .Union(h.leadingPounds.ToSpan())
      .Union(h.content.ToSpan())
      .Union(OptionalSpan(h.lineEnding))
  }

  /** Parts laid end to end unite into the span from the first part's start to the last
      part's end; the separator between pounds and content needs no span of its own. */
  lemma HeadingSpan(h: ATXHeading, p0: nat, i1: nat, i2: nat, i4: nat, i3: nat)
    requires p0 <= i1 <= i2 <= i4 <= i3
    requires h.identWhitespaces == Slice(p0, i1) && h.leadingPounds == Slice(i1, i2) && h.content == Slice(i4, i3)
    requires h.lineEnding.Some? ==> IntoInput(h.lineEnding.value).start == i3 && i3 <= IntoInput(h.lineEnding.value).end
    ensures ToSpan(h) == Range(p0, AfterLineEnding(h.lineEnding, i3))
  {
    UnionOfAdjacent(p0, i1, i2);
    if h.lineEnding.Some? {
      var le := h.lineEnding.value;
      assert LineEndingSpan(le) == IntoInput(le).ToSpan();
      UnionOfAdjacent(p0, i3, IntoInput(le).end);
    }
  }

  /** Between the content's start and its end there is no line break, so the whitespace at
      its front, read in the content alone, is the run of line spaces there. */
  lemma SeparatorRun(text: seq<char>, i2: nat)
    requires i2 <= |text|
    ensures var i3 := RunEnd(text, i2, NotLineBreak);
            RunEnd(text[..i3], i2, IsWhitespace) == RunEnd(text, i2, IsLineSpace)
            && RunEnd(text, i2, IsLineSpace) <= i3
  {
    var i3 := RunEnd(text, i2, NotLineBreak);
    var j := RunEnd(text, i2, IsLineSpace);
    RunEndUnique(text[..i3], i2, j, IsWhitespace);
  }

  /** `ATXHeading::parse`, with the upper bound of `Limits<_, 1, 7>` inclusive or not as
      `inclusive` says. With `p0` the start, the parts are read end to end: indentation
      `[p0, i1)`, pounds `[i1, i2)`, the rest of the line `[i2, i3)` whose leading line spaces
      `[i2, i4)` are the separator and the remainder `[i4, i3)` the content, and an optional
      line ending after `i3`.
      - Indentation over three characters, or a pound run outside the bounds, fails
        Recoverable, re-tagged `ATXHeading`, with that run's span.
      - Otherwise the heading is accepted iff the separator is non-empty or a line ending
        follows; the failure is Recoverable with the empty span at `i2`.
      - An accepted heading spans from `p0` to where the cursor stops. */
  method ParseATXHeading(c: Cursor, inclusive: bool) returns (r: Result<ATXHeading>)
    requires c.Valid()
    modifies c
    ensures c.Valid()
    ensures var p0 := old(c.pos); var i1 := RunEnd(c.text, p0, IsLineSpace);
            i1 - p0 > 3 ==> r == Err(Tagged(Kind.ATXHeading, Recoverable, Range(p0, i1))) && c.pos == i1
    ensures var p0 := old(c.pos); var i1 := RunEnd(c.text, p0, IsLineSpace);
            var i2 := RunEnd(c.text, i1, Is('#'));
            i1 - p0 <= 3 && !WithinBounds(i2 - i1, 1, 7, inclusive) ==>
              r == Err(Tagged(Kind.ATXHeading, Recoverable, Range(i1, i2))) && c.pos == i2
    ensures var p0 := old(c.pos); var i1 := RunEnd(c.text, p0, IsLineSpace);
            var i2 := RunEnd(c.text, i1, Is('#'));
            var i3 := RunEnd(c.text, i2, NotLineBreak);
            var i4 := RunEnd(c.text, i2, IsLineSpace);
            var le := LineEndingAt(c.text, i3);
            i1 - p0 <= 3 && WithinBounds(i2 - i1, 1, 7, inclusive) ==>
              && i4 <= i3
              && (r.Ok? <==> i2 < i4 || le.Some?)
              && (r.Ok? ==> r.value == ATXHeading.ATXHeading(Slice(p0, i1), Slice(i1, i2), Slice(i2, i4), Slice(i4, i3), le)
                            && c.pos == AfterLineEnding(le, i3)
                            && ToSpan(r.value) == Range(p0, c.pos))
              && (r.Err? ==> r.error == Tagged(Kind.ATXHeading, Recoverable, Range(i2, i2)) && c.pos == i3)
  {
    ghost var p0 := c.pos;
    var identWhitespaces := IndentationTo(c, 3);
    ghost var i1 := c.pos;
    assert i1 == RunEnd(c.text, p0, IsLineSpace);
    if identWhitespaces.Err? {
      return Err(Retag(Kind.ATXHeading, identWhitespaces.error));
    }
    var pounds := c.Token(Is('#'), "Pounds");
    ghost var i2 := RunEnd(c.text, i1, Is('#'));
    assert c.pos == i2;
    if pounds.Err? {
      assert i2 == i1;
      return Err(Retag(Kind.ATXHeading, pounds.error));
    }
    var leadingPounds := Between(pounds.value, 1, 7, inclusive);
    if leadingPounds.Err? {
      return Err(Retag(Kind.ATXHeading, leadingPounds.error));
    }
    assert leadingPounds.value == Slice(i1, i2);
    r := ParseHeadingRest(c, identWhitespaces.value, leadingPounds.value);
  }

  /** The part of `ATXHeading::parse` after the pounds `[i1, i2)`, the cursor at `i2`: the
      rest of the line, the optional line ending, and the separator split off the front of
      the rest of the line. */
  method ParseHeadingRest(c: Cursor, identWhitespaces: Slice, leadingPounds: Slice) returns (r: Result<ATXHeading>)
    requires c.Valid()
    requires identWhitespaces.end == leadingPounds.start && leadingPounds.end == c.pos
    requires identWhitespaces.start <= identWhitespaces.end <= leadingPounds.end
    modifies c
    ensures c.Valid()
    ensures var p0 := identWhitespaces.start; var i2 := old(c.pos);
            var i3 := RunEnd(c.text, i2, NotLineBreak);
            var i4 := RunEnd(c.text, i2, IsLineSpace);
            var le := LineEndingAt(c.text, i3);
            && i4 <= i3
            && (r.Ok? <==> i2 < i4 || le.Some?)
            && (r.Ok? ==> r.value == ATXHeading.ATXHeading(identWhitespaces, leadingPounds, Slice(i2, i4), Slice(i4, i3), le)
                          && c.pos == AfterLineEnding(le, i3)
                          && ToSpan(r.value) == Range(p0, c.pos))
            && (r.Err? ==> r.error == Tagged(Kind.ATXHeading, Recoverable, Range(i2, i2)) && c.pos == i3)
  {
    var content := c.TakeWhile(NotLineBreak);
    // `Option<LineEnding>` never fails, so the re-tag has nothing to act on.
    var lineEnding := OptionalLineEnding(c);
    SeparatorRun(c.text, content.start);
    var rest := new Cursor.At(c.text[..content.end], content.start);
    var seperate := rest.TakeWhile(IsWhitespace);
    content := Slice(rest.pos, content.end);
    if seperate.start == seperate.end && lineEnding.None? {
      return Err(Tagged(Kind.ATXHeading, Recoverable, seperate.ToSpan()));
    }
    if lineEnding.Some? {
      LineEndingSlice(c.text, content.end);
    }
    var heading := ATXHeading.ATXHeading(identWhitespaces, leadingPounds, seperate, content, lineEnding);
    HeadingSpan(heading, identWhitespaces.start, leadingPounds.start, seperate.start, content.start, content.end);
    return Ok(heading);
  }

  /** A line whose parts, read from its start, end at `i1`, `i2`, `i4` and `i3`, within the
      bounds and with a separator or a line ending, is read as the heading of those parts. */
  method HeadingOfParts(text: seq<char>, i1: nat, i2: nat, i4: nat, i3: nat, le: Option<LineEnding>) returns (r: Result<ATXHeading>)
    requires RunEnd(text, 0, IsLineSpace) == i1 <= 3
    requires RunEnd(text, i1, Is('#')) == i2 && 1 <= i2 - i1 < 7
    requires RunEnd(text, i2, NotLineBreak) == i3 && RunEnd(text, i2, IsLineSpace) == i4
    requires LineEndingAt(text, i3) == le && (i2 < i4 || le.Some?)
    ensures r == Ok(ATXHeading.ATXHeading(Slice(0, i1), Slice(i1, i2), Slice(i2, i4), Slice(i4, i3), le))
  {
    var c := new Cursor(text);
    r := ParseATXHeading(c, false);
  }

  const CrLfLine := " ###### hello world\r\n"

  /** The short runs of `CrLfLine`: one space, six pounds, and the separator's one space. */
  lemma CrLfLineRuns(text: seq<char>)
    requires text == CrLfLine
    ensures RunEnd(text, 0, IsLineSpace) == 1 && RunEnd(text, 1, Is('#')) == 7 && RunEnd(text, 7, IsLineSpace) == 8
  {
    CrLfLineIndentation(text);
    CrLfLinePounds(text);
    CrLfLineSeparator(text);
  }

  lemma CrLfLineIndentation(text: seq<char>)
    requires text == CrLfLine
    ensures RunEnd(text, 0, IsLineSpace) == 1
  {
    RunEndUnique(text, 0, 1, IsLineSpace);
  }

  lemma CrLfLinePounds(text: seq<char>)
    requires text == CrLfLine
    ensures RunEnd(text, 1, Is('#')) == 7
  {
    RunEndUnique(text, 1, 7, Is('#'));
  }

  lemma CrLfLineSeparator(text: seq<char>)
    requires text == CrLfLine
    ensures RunEnd(text, 7, IsLineSpace) == 8
  {
    RunEndUnique(text, 7, 8, IsLineSpace);
  }

  /** The rest of `CrLfLine` after the pounds runs to 19, where `"\r\n"` follows. */
  lemma CrLfLineContent(text: seq<char>)
    requires text == CrLfLine
    ensures RunEnd(text, 7, NotLineBreak) == 19
    ensures LineEndingAt(text, 19) == Some(CrLf(Slice(19, 21)))
  {
    CrLfLineRest(text);
    CrLfLineEnding(text);
  }

  lemma CrLfLineRest(text: seq<char>)
    requires text == CrLfLine
    ensures RunEnd(text, 7, NotLineBreak) == 19
  {
    RunEndUnique(text, 7, 19, NotLineBreak);
  }

  lemma CrLfLineEnding(text: seq<char>)
    requires text == CrLfLine
    ensures LineEndingAt(text, 19) == Some(CrLf(Slice(19, 21)))
  {
    assert !StartsWith(text, 19, "\n") by { assert text[19..20][0] == '\r'; }
  }

  /** `" ###### hello world\r\n"`: the parts lie at 0..1, 1..7, 7..8, 8..19 and 19..21. */
  method HeadingWithCrLf()
  {
    CrLfLineRuns(CrLfLine);
    CrLfLineContent(CrLfLine);
    var r := HeadingOfParts(CrLfLine, 1, 7, 8, 19, Some(CrLf(Slice(19, 21))));
    assert r == Ok(ATXHeading.ATXHeading(Slice(0, 1), Slice(1, 7), Slice(7, 8), Slice(8, 19), Some(CrLf(Slice(19, 21)))));
  }

  const SpaceLine := "###### hello world "

  /** The short runs of `SpaceLine`: no indentation, six pounds, and the separator's one space. */
  lemma SpaceLineRuns(text: seq<char>)
    requires text == SpaceLine
    ensures RunEnd(text, 0, IsLineSpace) == 0 && RunEnd(text, 0, Is('#')) == 6 && RunEnd(text, 6, IsLineSpace) == 7
  {
    SpaceLinePounds(text);
    SpaceLineSeparator(text);
  }

  lemma SpaceLinePounds(text: seq<char>)
    requires text == SpaceLine
    ensures RunEnd(text, 0, Is('#')) == 6
  {
    RunEndUnique(text, 0, 6, Is('#'));
  }

  lemma SpaceLineSeparator(text: seq<char>)
    requires text == SpaceLine
    ensures RunEnd(text, 6, IsLineSpace) == 7
  {
    RunEndUnique(text, 6, 7, IsLineSpace);
  }

  /** The rest of `SpaceLine` after the pounds runs to its end, with no line ending. */
  lemma SpaceLineContent(text: seq<char>)
    requires text == SpaceLine
    ensures RunEnd(text, 6, NotLineBreak) == 19 && LineEndingAt(text, 19) == None
  {
    RunEndUnique(text, 6, 19, NotLineBreak);
  }

  /** `"###### hello world "`: no indentation, and the trailing space stays in the content. */
  method HeadingWithTrailingSpace()
  {
    SpaceLineRuns(SpaceLine);
    SpaceLineContent(SpaceLine);
    var r := HeadingOfParts(SpaceLine, 0, 6, 7, 19, None);
    assert r == Ok(ATXHeading.ATXHeading(Slice(0, 0), Slice(0, 6), Slice(6, 7), Slice(7, 19), None));
  }

  /** `"   # "`: the separator takes the space and the content is empty. */
  method HeadingWithEmptyContent()
  {
    var text := "   # ";
    assert RunEnd(text, 0, IsLineSpace) == 3 by { RunEndUnique(text, 0, 3, IsLineSpace); }
    assert RunEnd(text, 3, Is('#')) == 4 by { RunEndUnique(text, 3, 4, Is('#')); }
    assert RunEnd(text, 4, NotLineBreak) == 5 by { RunEndUnique(text, 4, 5, NotLineBreak); }
    assert RunEnd(text, 4, IsLineSpace) == 5 by { RunEndUnique(text, 4, 5, IsLineSpace); }
    var r := HeadingOfParts(text, 3, 4, 5, 5, None);
    assert r == Ok(ATXHeading.ATXHeading(Slice(0, 3), Slice(3, 4), Slice(4, 5), Slice(5, 5), None));
  }

  /** `"   #"`: no separator and no line ending, a failure with the empty span at 4. */
  method HeadingWithoutSeparator()
  {
    var text := "   #";
    var c := new Cursor(text);
    assert RunEnd(text, 0, IsLineSpace) == 3 by { RunEndUnique(text, 0, 3, IsLineSpace); }
    assert RunEnd(text, 3, Is('#')) == 4 by { RunEndUnique(text, 3, 4, Is('#')); }
    var r := ParseATXHeading(c, false);
    assert r == Err(Tagged(Kind.ATXHeading, Recoverable, Range(4, 4)));
  }
}
