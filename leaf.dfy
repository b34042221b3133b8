/**
 * The leaf-block snapshot (leaf.rs): its own `S`, which unlike s.rs counts
 * `\r` and `\n` as whitespace, and `IdentWhiteSpaces<N>`. Its private
 * `ThematicChars` is the one of thematic.rs (module `Thematic`); its
 * `ThematicBreaks` has no body.
 */
module Leaf {
  import opened ErrorModel
  import opened Input

  /** `S`: the longest run of whitespace, line breaks included, possibly empty. It never fails. */
  method ParseS(c: Cursor) returns (s: Slice)
    requires c.Valid()
    modifies c
    ensures c.Valid()
    ensures s == Slice(old(c.pos), RunEnd(c.text, old(c.pos), IsWhitespace)) && c.pos == s.end
  {
    s := c.TakeWhile(IsWhitespace);
  }

  /** `IdentWhiteSpaces<N>`: `S` holding at most `n` characters. A longer run fails
      Recoverable as `LeadingWhiteSpace` with the run's span; the cursor stays after the run. */
  method IdentWhiteSpaces(c: Cursor, n: nat) returns (r: Result<Slice>)
    requires c.Valid()
    modifies c
    ensures c.Valid()
    ensures var e := RunEnd(c.text, old(c.pos), IsWhitespace);
            c.pos == e
            && (r.Ok? <==> e - old(c.pos) <= n)
            && (r.Ok? ==> r.value == Slice(old(c.pos), e))
            && (r.Err? ==> r.error == MarkDownError.LeadingWhiteSpace(Recoverable, Range(old(c.pos), e)))
  {
    var s := ParseS(c);
    var limited := AtMost(s, n);
    if limited.Err? {
      return Err(MarkDownError.LeadingWhiteSpace(ControlFlowOf(limited.error), SpanOf(limited.error)));
    }
    return Ok(limited.value);
  }

  /** The two `S` rules compared: the s.rs run never passes the leaf.rs run, and where it
      stops short it stops at a `\r` or a `\n`. */
  lemma {:induction false} LineSpaceRunWithinWhitespaceRun(text: seq<char>, i: nat)
    requires i <= |text|
    ensures var a := RunEnd(text, i, IsLineSpace);
            var b := RunEnd(text, i, IsWhitespace);
            a <= b && (a < b ==> text[a] == '\r' || text[a] == '\n')
    decreases |text| - i
  {
    if i < |text| && IsLineSpace(text[i]) {
      LineSpaceRunWithinWhitespaceRun(text, i + 1);
    }
  }

  /** Hence the two rules agree on any text without line breaks, and `IdentWhiteSpaces<N>`
      accepting implies that s.rs `IndentationTo<N>` accepts. */
  lemma WhitespaceRunsAgree(text: seq<char>, i: nat, n: nat)
    requires i <= |text|
    ensures (forall k :: i <= k < |text| ==> NotLineBreak(text[k])) ==>
              RunEnd(text, i, IsLineSpace) == RunEnd(text, i, IsWhitespace)
    ensures RunEnd(text, i, IsWhitespace) - i <= n ==> RunEnd(text, i, IsLineSpace) - i <= n
  {
    LineSpaceRunWithinWhitespaceRun(text, i);
  }
}
