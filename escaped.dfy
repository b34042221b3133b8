/**
 * Backslash escapes (escaped.rs): a backslash before one of the characters
 * `*`, `<`, `[`, `` ` ``, `.`, `#`, `&` or `\` escapes it; a backslash before
 * a line ending is a hard line break. This snapshot's `LineEnding` tries
 * `"\n"` first and reports the `LineEnding` error variant.
 */
module Escapes {
  import opened ErrorModel
  import opened Input
  import opened Spaces

  datatype Escaped =
    | Star(content: Slice)
    | Lt(content: Slice)
    | Square(content: Slice)
    | Backtick(content: Slice)
    | Dot(content: Slice)
    | Pound(content: Slice)
    | And(content: Slice)
    | Backslash(content: Slice)
    | HardlineBreak(content: Slice)

  /** `to_span`: the span of the slice a variant holds. */
  function EscapedSpan(e: Escaped): Span
  {
    e.content.ToSpan()
  }

  /** The characters a backslash escapes. */
  predicate IsEscapable(ch: char)
  {
    ch == '*' || ch == '<' || ch == '[' || ch == '`' || ch == '.' || ch == '#' || ch == '&' || ch == '\\'
  }

  /** The character an escape stands for; a hard line break stands for none. */
  function EscapedChar(e: Escaped): Option<char>
  {
    match e
    case Star(_) => Some('*')
    case Lt(_) => Some('<')
    case Square(_) => Some('[')
    case Backtick(_) => Some('`')
    case Dot(_) => Some('.')
    case Pound(_) => Some('#')
    case And(_) => Some('&')
    case Backslash(_) => Some('\\')
    case HardlineBreak(_) => None
  }

  /** The variant `Escaped::parse` builds for an escapable character: it holds `s`, and it
      stands for exactly that character. */
  function EscapedFor(ch: char, s: Slice): (e: Escaped)
    requires IsEscapable(ch)
    ensures EscapedChar(e) == Some(ch) && e.content == s
  {
    match ch
    case '*' => Star(s)
    case '<' => Lt(s)
    case '[' => Square(s)
    case '`' => Backtick(s)
    case '.' => Dot(s)
    case '#' => Pound(s)
    case '&' => And(s)
    case '\\' => Backslash(s)
  }

  /** Each escapable character has its own variant, and the variants of escapable
      characters are exactly the ones that stand for a character. */
  lemma EscapedForInjective(a: char, b: char, s: Slice, t: Slice)
    requires IsEscapable(a) && IsEscapable(b)
    ensures EscapedFor(a, s) == EscapedFor(b, t) <==> a == b && s == t
    ensures !EscapedFor(a, s).HardlineBreak?
  {
    if EscapedFor(a, s) == EscapedFor(b, t) {
      assert EscapedChar(EscapedFor(a, s)) == EscapedChar(EscapedFor(b, t));
    }
  }

  /** `LineEnding::parse`: `"\n"` as `LF`, else `"\r\n"` as `CrLf`; anything else fails
      Recoverable as `LineEnding`, spanning the rest of the input, the cursor unmoved. */
  method ParseLineEnding(c: Cursor) returns (r: Result<LineEnding>)
    requires c.Valid()
    modifies c
    ensures c.Valid()
    ensures var le := LineEndingAt(c.text, old(c.pos));
            c.pos == AfterLineEnding(le, old(c.pos))
            && (r.Ok? <==> le.Some?)
            && (r.Ok? ==> r.value == le.value)
            && (r.Err? ==> r.error == MarkDownError.LineEnding(Recoverable, Range(old(c.pos), |c.text|)))
  {
    var lf := c.Keyword("\n", "Lf");
    if lf.Ok? {
      return Ok(LF(lf.value));
    }
    var crlf := c.Keyword("\r\n", "CrLf");
    if crlf.Ok? {
      return Ok(CrLf(crlf.value));
    }
    return Err(MarkDownError.LineEnding(ControlFlowOf(crlf.error), SpanOf(crlf.error)));
  }

  /** `Escaped::parse`. Without a backslash at the cursor, `next`'s Recoverable failure with
      the cursor unmoved. After it:
      - an escapable character gives its variant holding the backslash and the character,
        the cursor two past the start;
      - otherwise a line ending gives `HardlineBreak` holding the backslash and the line
        ending, the cursor after the line ending;
      - otherwise (end of input included) a Recoverable `Escaped` failure spanning the input
        from the backslash on, the cursor just past the backslash. */
  method ParseEscaped(c: Cursor) returns (r: Result<Escaped>)
    requires c.Valid()
    modifies c
    ensures c.Valid()
    ensures var p0 := old(c.pos);
            !(p0 < |c.text| && c.text[p0] == '\\') ==>
              r == Err(Mismatch("next", Range(p0, if p0 < |c.text| then p0 + 1 else p0))) && c.pos == p0
    ensures var p0 := old(c.pos);
            p0 < |c.text| && c.text[p0] == '\\' ==>
              var le := LineEndingAt(c.text, p0 + 1);
              && (r.Ok? <==> (p0 + 1 < |c.text| && IsEscapable(c.text[p0 + 1])) || le.Some?)
              && (r.Ok? ==> r.value.content.start == p0 && c.pos == r.value.content.end
                            && r.value.content.Within(c.text))
              && (r.Ok? && !r.value.HardlineBreak? ==>
                    Chars(c.text, r.value.content) == ['\\', EscapedChar(r.value).value])
              && (r.Ok? && r.value.HardlineBreak? ==>
                    Chars(c.text, r.value.content) in {"\\\n", "\\\r\n"})
              && (r.Err? ==> r.error == Escaped(Recoverable, Range(p0, |c.text|)) && c.pos == p0 + 1)
  {
    var start := new Cursor.At(c.text, c.pos);
    var backslash := c.NextIf(Is('\\'), "next");
    if backslash.Err? {
      return Err(backslash.error);
    }
    if c.pos < |c.text| && IsEscapable(c.text[c.pos]) {
      var ch := c.text[c.pos];
      var _ := c.SplitTo(1);
      var content := start.SplitTo(2);
      assert Chars(c.text, content) == ['\\', ch];
      return Ok(EscapedFor(ch, content));
    }
    ghost var p1 := c.pos;
    var lineEnding := ParseLineEnding(c);
    if lineEnding.Ok? {
      var len := if lineEnding.value.LF? then 1 else 2;
      LineEndingSlice(c.text, p1);
      var content := start.SplitTo(len + 1);
      assert Chars(c.text, content) == ['\\'] + Chars(c.text, IntoInput(lineEnding.value));
      assert ['\\'] + "\n" == "\\\n" && ['\\'] + "\r\n" == "\\\r\n";
      return Ok(HardlineBreak(content));
    }
    // `.ok()` turns the Recoverable line-ending failure into `None`.
    return Err(Escaped(Recoverable, Range(start.pos, |start.text|)));
  }

  /** `\[` is the `Square` escape over both characters. */
  method SquareExample()
  {
    var c := new Cursor("\\[");
    var e := ParseEscaped(c);
    assert e.Ok? && e.value.content == Slice(0, 2) && EscapedChar(e.value) == Some('[');
    assert e == Ok(Square(Slice(0, 2)));
  }

  /** A backslash before `"\r\n"` is a hard line break of three characters. */
  method HardlineBreakExample()
  {
    var c := new Cursor("\\\r\n");
    var e := ParseEscaped(c);
    assert !StartsWith("\\\r\n", 1, "\n") by { assert "\\\r\n"[1..2][0] == '\r'; }
    assert StartsWith("\\\r\n", 1, "\r\n");
    assert e == Ok(HardlineBreak(Slice(0, 3))) && c.pos == 3;
  }

  /** A backslash before a letter is no escape: the failure spans from the backslash on. */
  method NotEscapableExample()
  {
    var c := new Cursor("\\a");
    var e := ParseEscaped(c);
    assert !StartsWith("\\a", 1, "\n") by { assert "\\a"[1..2][0] == 'a'; }
    assert e == Err(Escaped(Recoverable, Range(0, 2))) && c.pos == 1;
  }
}
