/**
 * Whitespace, indentation and line endings (s.rs): `S`, `S1`,
 * `IndentationTo<N>`, `IndentationFrom<N>`, `LineEnding` and `BlankLine`.
 * Here whitespace never includes `\r` or `\n`. Single-field wrapper structs
 * (`S(I)`, `S1(I)`, `IndentationTo(I)`, ...) are represented by their slice.
 */
module Spaces {
  import opened ErrorModel
  import opened Input

  /** A matched line ending: `"\n"` or `"\r\n"`. tokens.rs calls the same two variants `LR` and `CRLR`. */
  datatype LineEnding = LF(content: Slice) | CrLf(content: Slice)

  /** `into_input`: the slice the line ending matched. */
  function IntoInput(le: LineEnding): Slice
  {
    match le
    case LF(input) => input
    case CrLf(input) => input
  }

  /** `to_span` of a line ending. */
  function LineEndingSpan(le: LineEnding): Span
  {
    match le
    case LF(input) => input.ToSpan()
    case CrLf(input) => input.ToSpan()
  }

  /** The line ending at `i`, trying the keyword `"\n"` before `"\r\n"` (s.rs and escaped.rs). */
  function LineEndingAt(text: seq<char>, i: nat): (r: Option<LineEnding>)
    requires i <= |text|
    ensures r.Some? <==> StartsWith(text, i, "\n") || StartsWith(text, i, "\r\n")
    ensures r.Some? ==> IntoInput(r.value).start == i && IntoInput(r.value).Within(text)
    ensures r.Some? ==> (r.value.LF? <==> Chars(text, IntoInput(r.value)) == "\n")
    ensures r.Some? ==> (r.value.CrLf? <==> Chars(text, IntoInput(r.value)) == "\r\n")
  {
    match KeywordAt(text, i, "\n", "Lf")
    case Ok(lf) => Some(LF(lf))
    case Err(_) =>
      match KeywordAt(text, i, "\r\n", "CrLf")
      case Ok(crlf) => Some(CrLf(crlf))
      case Err(_) => None
  }

  /** Where a cursor stands after an optional line ending at `i`. */
  function AfterLineEnding(le: Option<LineEnding>, i: nat): nat
  {
    if le.Some? then IntoInput(le.value).end else i
  }

  /** `into_input` and `to_span` agree: the line ending's span is that of the slice it matched,
      and that slice is one or two characters ending in `\n`. */
  lemma LineEndingSlice(text: seq<char>, i: nat)
    requires i <= |text| && LineEndingAt(text, i).Some?
    ensures var s := IntoInput(LineEndingAt(text, i).value);
            LineEndingSpan(LineEndingAt(text, i).value) == s.ToSpan()
            && 1 <= s.Len() <= 2 && text[s.end - 1] == '\n'
            && (s.Len() == 2 ==> text[i] == '\r')
  {
  }

  /** `S`: the longest run of whitespace other than `\r` and `\n`, possibly empty. It never fails. */
  method ParseS(c: Cursor) returns (s: Slice)
    requires c.Valid()
    modifies c
    ensures c.Valid()
    ensures s == Slice(old(c.pos), RunEnd(c.text, old(c.pos), IsLineSpace)) && c.pos == s.end
  {
    s := c.TakeWhile(IsLineSpace);
  }

  /** `S1`: the same run, but an empty run fails Recoverable with kind `S`. */
  method ParseS1(c: Cursor) returns (r: Result<Slice>)
    requires c.Valid()
    modifies c
    ensures c.Valid()
    ensures var e := RunEnd(c.text, old(c.pos), IsLineSpace);
            c.pos == e
            && (r.Ok? <==> old(c.pos) < e)
            && (r.Ok? ==> r.value == Slice(old(c.pos), e))
            && (r.Err? ==> r.error == Tagged(Kind.S, Recoverable, Range(e, e)))
  {
    var content := c.TakeWhile(IsLineSpace);
    if content.start == content.end {
      return Err(Tagged(Kind.S, Recoverable, content.ToSpan()));
    }
    return Ok(content);
  }

  /** `IndentationTo<N>`: `S` holding at most `n` characters. A longer run fails Recoverable,
      re-tagged `LeadingWhiteSpace` with the run's span. */
  method IndentationTo(c: Cursor, n: nat) returns (r: Result<Slice>)
    requires c.Valid()
    modifies c
    ensures c.Valid()
    ensures var e := RunEnd(c.text, old(c.pos), IsLineSpace);
            c.pos == e
            && (r.Ok? <==> e - old(c.pos) <= n)
            && (r.Ok? ==> r.value == Slice(old(c.pos), e))
            && (r.Err? ==> r.error == Tagged(Kind.LeadingWhiteSpace, Recoverable, Range(old(c.pos), e)))
  {
    var s := ParseS(c);
    var limited := AtMost(s, n);
    if limited.Err? {
      return Err(Retag(Kind.LeadingWhiteSpace, limited.error));
    }
    return Ok(limited.value);
  }

  /** `IndentationFrom<N>`: `S` holding `n` or more characters. A shorter run fails Recoverable,
      re-tagged `LeadingWhiteSpace` with the run's span. */
  method IndentationFrom(c: Cursor, n: nat) returns (r: Result<Slice>)
    requires c.Valid()
    modifies c
    ensures c.Valid()
    ensures var e := RunEnd(c.text, old(c.pos), IsLineSpace);
            c.pos == e
            && (r.Ok? <==> n <= e - old(c.pos))
            && (r.Ok? ==> r.value == Slice(old(c.pos), e))
            && (r.Err? ==> r.error == Tagged(Kind.LeadingWhiteSpace, Recoverable, Range(old(c.pos), e)))
  {
    var s := ParseS(c);
    var limited := AtLeast(s, n);
    if limited.Err? {
      return Err(Retag(Kind.LeadingWhiteSpace, limited.error));
    }
    return Ok(limited.value);
  }

  /** `LineEnding`: `"\n"` as `LF`, else `"\r\n"` as `CrLf`. Anything else fails Recoverable,
      re-tagged `LineEnding`, spanning the rest of the input; the cursor does not move. */
  method ParseLineEnding(c: Cursor) returns (r: Result<LineEnding>)
    requires c.Valid()
    modifies c
    ensures c.Valid()
    ensures var le := LineEndingAt(c.text, old(c.pos));
            c.pos == AfterLineEnding(le, old(c.pos))
            && (r.Ok? <==> le.Some?)
            && (r.Ok? ==> r.value == le.value)
            && (r.Err? ==> r.error == Tagged(Kind.LineEnding, Recoverable, Range(old(c.pos), |c.text|)))
  {
    var lf := c.Keyword("\n", "Lf");
    if lf.Ok? {
      return Ok(LF(lf.value));
    }
    // `or`: the first keyword failed Recoverable without moving, so the second is tried here.
    var crlf := c.Keyword("\r\n", "CrLf");
    if crlf.Ok? {
      return Ok(CrLf(crlf.value));
    }
    return Err(Retag(Kind.LineEnding, crlf.error));
  }

  /** `Option<LineEnding>`: a line ending if one is at the cursor, else `None` with the cursor
      where it was. `LineEnding` only fails Recoverable, so there is no error to propagate. */
  method OptionalLineEnding(c: Cursor) returns (le: Option<LineEnding>)
    requires c.Valid()
    modifies c
    ensures c.Valid()
    ensures le == LineEndingAt(c.text, old(c.pos)) && c.pos == AfterLineEnding(le, old(c.pos))
  {
    var start := c.pos;
    var r := ParseLineEnding(c);
    if r.Ok? {
      return Some(r.value);
    }
    c.pos := start;
    return None;
  }

  /** `BlankLine`: succeeds exactly when a line ending is at the cursor, holding that line
      ending's slice; failures are re-tagged `BlankLine`. */
  method ParseBlankLine(c: Cursor) returns (r: Result<Slice>)
    requires c.Valid()
    modifies c
    ensures c.Valid()
    ensures var le := LineEndingAt(c.text, old(c.pos));
            c.pos == AfterLineEnding(le, old(c.pos))
            && (r.Ok? <==> le.Some?)
            && (r.Ok? ==> r.value == IntoInput(le.value) && Chars(c.text, r.value) in {"\n", "\r\n"})
            && (r.Err? ==> r.error == Tagged(Kind.BlankLine, Recoverable, Range(old(c.pos), |c.text|)))
  {
    var le := ParseLineEnding(c);
    if le.Err? {
      return Err(Retag(Kind.BlankLine, le.error));
    }
    return Ok(IntoInput(le.value));
  }

  /** `"\r\n"` is a `CrLf` line ending. */
  method CrLfExample()
  {
    var c := new Cursor("\r\n");
    var le := ParseLineEnding(c);
    assert !StartsWith("\r\n", 0, "\n") by { assert "\r\n"[0..1][0] == '\r'; }
    assert StartsWith("\r\n", 0, "\r\n");
    assert le == Ok(CrLf(Slice(0, 2))) && c.pos == 2;
  }

  /** `"\r \n"` is no line ending: the error spans the whole input and the cursor stays. */
  method NoLineEndingExample()
  {
    var c := new Cursor("\r \n");
    var le := ParseLineEnding(c);
    assert !StartsWith("\r \n", 0, "\n") by { assert "\r \n"[0..1][0] == '\r'; }
    assert !StartsWith("\r \n", 0, "\r\n") by { assert "\r \n"[0..2][1] == ' '; }
    assert le == Err(Tagged(Kind.LineEnding, Recoverable, Range(0, 3))) && c.pos == 0;
  }

  /** A blank line takes one line ending only. */
  method BlankLineExample()
  {
    var c := new Cursor("\n\n");
    var blank := ParseBlankLine(c);
    assert blank == Ok(Slice(0, 1)) && c.pos == 1;
  }

  /** `S1` takes spaces and a tab and stops at the letter. */
  method S1Example()
  {
    var c := new Cursor("  \tx");
    var s1 := ParseS1(c);
    assert RunEnd("  \tx", 3, IsLineSpace) == 3;
    assert s1 == Ok(Slice(0, 3));
  }
}
