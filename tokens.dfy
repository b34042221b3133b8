/**
 * The token snapshot (tokens.rs): a `LineEnding` that tries `"\r\n"` first
 * and reports `NewLine`, a run-based thematic-break token whose failures are
 * `Horizon`, the `S` token, `LeadingWhiteSpace<N>` and `LeadingPounds`.
 * The line-ending variants `LR` and `CRLR` are `Spaces.LineEnding`'s `LF`
 * and `CrLf`; the run-based `ThematicBreaks` enum has the shape of
 * `Thematic.ThematicChars` and is represented by it.
 */
module Tokens {
  import opened ErrorModel
  import opened Input
  import opened Spaces
  import opened Thematic

  /** `LineEnding::parse` of tokens.rs: the keyword `"\r\n"` before `"\n"`. */
  function LineEndingCrLfFirst(text: seq<char>, i: nat): (r: Option<LineEnding>)
    requires i <= |text|
  {
    match KeywordAt(text, i, "\r\n", "Crlr")
    case Ok(crlf) => Some(CrLf(crlf))
    case Err(_) =>
      match KeywordAt(text, i, "\n", "Lr")
      case Ok(lf) => Some(LF(lf))
      case Err(_) => None
  }

  /** The order of the two keywords does not matter: `"\n"` and `"\r\n"` differ in their
      first character, so at most one matches. Both snapshots read the same line endings. */
  lemma LineEndingOrderIrrelevant(text: seq<char>, i: nat)
    requires i <= |text|
    ensures LineEndingCrLfFirst(text, i) == LineEndingAt(text, i)
  {
    if StartsWith(text, i, "\r\n") {
      assert text[i] == '\r' by { assert text[i..i + 2][0] == text[i]; }
    }
  }

  /** `LineEnding::parse`: a line ending, or a Recoverable `NewLine` error spanning the rest
      of the input with the cursor where it was. */
  method ParseLineEnding(c: Cursor) returns (r: Result<LineEnding>)
    requires c.Valid()
    modifies c
    ensures c.Valid()
    ensures var le := LineEndingCrLfFirst(c.text, old(c.pos));
            c.pos == AfterLineEnding(le, old(c.pos))
            && (r.Ok? <==> le.Some?)
            && (r.Ok? ==> r.value == le.value)
            && (r.Err? ==> r.error == NewLine(Recoverable, Range(old(c.pos), |c.text|)))
  {
    var crlf := c.Keyword("\r\n", "Crlr");
    if crlf.Ok? {
      return Ok(CrLf(crlf.value));
    }
    var lf := c.Keyword("\n", "Lr");
    if lf.Ok? {
      return Ok(LF(lf.value));
    }
    return Err(NewLine(ControlFlowOf(lf.error), SpanOf(lf.error)));
  }

  /** The run-based `ThematicBreaks::parse`: the first character must be `*`, `_` or `-`
      (otherwise `next_if`'s Recoverable failure, cursor unmoved); the token is the whole run
      of that character, exactly the run `ThematicChars` reads there, and it is accepted iff
      it holds at least three characters. A shorter run fails Recoverable as `Horizon` with
      the run's span, the cursor after the run. */
  method ParseHorizon(c: Cursor) returns (r: Result<ThematicChars>)
    requires c.Valid()
    modifies c
    ensures c.Valid()
    ensures var t := ThematicCharsAt(c.text, old(c.pos));
            && (r.Ok? <==> t.Ok? && Len(t.value) >= 3)
            && (r.Ok? ==> r.value == t.value)
            && (t.Ok? && r.Err? ==> r.error == Horizon(Recoverable, ThematicSpan(t.value)))
            && (t.Err? ==> r == Err(Mismatch("next_if", Range(old(c.pos), if old(c.pos) < |c.text| then old(c.pos) + 1 else old(c.pos)))))
            && c.pos == if t.Ok? then t.value.content.end else old(c.pos)
  {
    var start := c.pos;
    var next := c.NextIf(IsThematicChar, "next_if");
    if next.Err? {
      return Err(next.error);
    }
    var ch := c.text[start];
    var tails := c.TakeWhile(Is(ch));
    assert RunEnd(c.text, start, Is(ch)) == tails.end;
    var content := Slice(start, tails.end);
    if content.Len() < 3 {
      return Err(Horizon(Recoverable, content.ToSpan()));
    }
    if ch == '*' {
      return Ok(Stars(content));
    } else if ch == '_' {
      return Ok(Underscores(content));
    } else {
      return Ok(Minus(content));
    }
  }

  /** `S`, a `token!`: the longest run of whitespace other than `\r` and `\n`, which must be
      non-empty; an empty run fails Recoverable. */
  method ParseS(c: Cursor) returns (r: Result<Slice>)
    requires c.Valid()
    modifies c
    ensures c.Valid()
    ensures var e := RunEnd(c.text, old(c.pos), IsLineSpace);
            c.pos == e
            && (r.Ok? <==> old(c.pos) < e)
            && (r.Ok? ==> r.value == Slice(old(c.pos), e))
            && (r.Err? ==> r.error == Mismatch("S", Range(e, e)))
  {
    r := c.Token(IsLineSpace, "S");
  }

  /** `LeadingWhiteSpace<N>`: the `S` token holding at most `n` characters. Both an empty run
      and a longer one fail Recoverable as `LeadingWhiteSpace`, with the run's span. */
  method ParseLeadingWhiteSpace(c: Cursor, n: nat) returns (r: Result<Slice>)
    requires c.Valid()
    modifies c
    ensures c.Valid()
    ensures var e := RunEnd(c.text, old(c.pos), IsLineSpace);
            c.pos == e
            && (r.Ok? <==> old(c.pos) < e && e - old(c.pos) <= n)
            && (r.Ok? ==> r.value == Slice(old(c.pos), e))
            && (r.Err? ==> r.error == MarkDownError.LeadingWhiteSpace(Recoverable, Range(old(c.pos), e)))
  {
    var s := ParseS(c);
    if s.Err? {
      return Err(MarkDownError.LeadingWhiteSpace(ControlFlowOf(s.error), SpanOf(s.error)));
    }
    var limited := AtMost(s.value, n);
    if limited.Err? {
      return Err(MarkDownError.LeadingWhiteSpace(ControlFlowOf(limited.error), SpanOf(limited.error)));
    }
    return Ok(limited.value);
  }

  /** The bound `LeadingPounds` puts on a run of `len` pounds: `len < 1 || !(len < 6)` rejects. */
  predicate PoundsBoundAsWritten(len: nat)
  {
    !(len < 1 || !(len < 6))
  }

  /** The bound an ATX heading's opening sequence calls for: one to six pounds. */
  predicate PoundsBound(len: nat)
  {
    1 <= len <= 6
  }

  /** The written bound turns away a run of six pounds, which an ATX heading accepts. */
  lemma SixPoundsRejected()
    ensures !PoundsBoundAsWritten(6) && PoundsBound(6)
    ensures forall len: nat :: PoundsBoundAsWritten(len) <==> PoundsBound(len) && len != 6
  {
  }

  /** The intended bound is that of the heading rule's `Limits<_, 1, 7>` read with an
      exclusive upper bound. */
  lemma PoundsBoundIsHeadingBound(len: nat)
    ensures PoundsBound(len) <==> WithinBounds(len, 1, 7, false)
  {
  }

  /** `LeadingPounds::parse` as written: the run of `#` (possibly empty), accepted iff
      `PoundsBoundAsWritten` holds of its length; otherwise a Recoverable `LeadingPounds`
      error with the run's span. The cursor stays after the run either way. */
  method ParseLeadingPoundsAsWritten(c: Cursor) returns (r: Result<Slice>)
    requires c.Valid()
    modifies c
    ensures c.Valid()
    ensures var e := RunEnd(c.text, old(c.pos), Is('#'));
            c.pos == e
            && (r.Ok? <==> PoundsBoundAsWritten(e - old(c.pos)))
            && (r.Ok? ==> r.value == Slice(old(c.pos), e))
            && (r.Err? ==> r.error == LeadingPounds(Recoverable, Range(old(c.pos), e)))
  {
    var content := c.TakeWhile(Is('#'));
    // `to_span` of a slice is always a `Range`, so the other arms of the source's match on
    // the span do not arise.
    var len := content.Len();
    if len < 1 || !(len < 6) {
      return Err(LeadingPounds(Recoverable, content.ToSpan()));
    }
    return Ok(content);
  }

  /** `LeadingPounds::parse` with the bound corrected to one to six pounds. */
  method ParseLeadingPounds(c: Cursor) returns (r: Result<Slice>)
    requires c.Valid()
    modifies c
    ensures c.Valid()
    ensures var e := RunEnd(c.text, old(c.pos), Is('#'));
            c.pos == e
            && (r.Ok? <==> PoundsBound(e - old(c.pos)))
            && (r.Ok? ==> r.value == Slice(old(c.pos), e))
            && (r.Err? ==> r.error == LeadingPounds(Recoverable, Range(old(c.pos), e)))
  {
    var content := c.TakeWhile(Is('#'));
    var len := content.Len();
    if len < 1 || len > 6 {
      return Err(LeadingPounds(Recoverable, content.ToSpan()));
    }
    return Ok(content);
  }

  /** `"\n"` is `LR`, `"\r\n"` is `CRLR`, and `"\r \n"` is no line ending: the error spans the
      whole input. */
  method LineEndingExample()
  {
    var lr := new Cursor("\n");
    var r := ParseLineEnding(lr);
    assert !StartsWith("\n", 0, "\r\n");
    assert r == Ok(LF(Slice(0, 1)));

    var crlr := new Cursor("\r\n");
    r := ParseLineEnding(crlr);
    assert StartsWith("\r\n", 0, "\r\n");
    assert r == Ok(CrLf(Slice(0, 2)));

    var c := new Cursor("\r \n");
    var le := ParseLineEnding(c);
    assert !StartsWith("\r \n", 0, "\n") by { assert "\r \n"[0..1][0] == '\r'; }
    assert !StartsWith("\r \n", 0, "\r\n") by { assert "\r \n"[0..2][1] == ' '; }
    assert le == Err(NewLine(Recoverable, Range(0, 3)));
  }

  /** Three stars are a thematic-break token; two fail with their span. */
  method HorizonExamples()
  {
    var c := new Cursor("***");
    var h := ParseHorizon(c);
    assert RunEnd("***", 0, Is('*')) == 3 by { RunEndUnique("***", 0, 3, Is('*')); }
    assert h == Ok(Stars(Slice(0, 3)));

    c := new Cursor("**");
    h := ParseHorizon(c);
    assert RunEnd("**", 0, Is('*')) == 2 by { RunEndUnique("**", 0, 2, Is('*')); }
    assert h == Err(Horizon(Recoverable, Range(0, 2)));
  }

  /** `S` takes spaces and a tab alike. */
  method SExample()
  {
    var c := new Cursor("     \t");
    var s := ParseS(c);
    RunEndUnique("     \t", 0, 6, IsLineSpace);
    assert s == Ok(Slice(0, 6));
  }

  /** No pound is rejected with the empty span. */
  method NoPoundsExample()
  {
    var c := new Cursor("  ");
    var pounds := ParseLeadingPoundsAsWritten(c);
    assert pounds == Err(LeadingPounds(Recoverable, Range(0, 0)));
  }

  /** Seven pounds are rejected with their span. */
  method SevenPoundsExample()
  {
    var c := new Cursor("#######");
    var pounds := ParseLeadingPoundsAsWritten(c);
    assert RunEnd("#######", 0, Is('#')) == 7 by { RunEndUnique("#######", 0, 7, Is('#')); }
    assert pounds == Err(LeadingPounds(Recoverable, Range(0, 7)));
  }

  /** Six pounds are rejected by the written bound and accepted by the corrected one. */
  method SixPoundsExample()
  {
    var c := new Cursor("######");
    var pounds := ParseLeadingPoundsAsWritten(c);
    assert RunEnd("######", 0, Is('#')) == 6 by { RunEndUnique("######", 0, 6, Is('#')); }
    assert pounds.Err?;
    c := new Cursor("######");
    pounds := ParseLeadingPounds(c);
    assert pounds == Ok(Slice(0, 6));
  }
}
