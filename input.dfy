/**
 * The input model: an immutable source text, slices of it held as absolute
 * offsets, and a cursor that only ever moves forward. The cursor also carries
 * the few primitives of the parser library that the grammar rules use
 * (`take_while`, `token!`, `keyword!`, `next`/`next_if`, `split_to`), and the
 * length checks of its `Limits*` wrappers.
 */
module Input {
  import opened ErrorModel

  /** A slice of the source, `[start, end)` in absolute offsets. */
  datatype Slice = Slice(start: nat, end: nat)
  {
    predicate Within(text: seq<char>)
    {
      start <= end <= |text|
    }

    function Len(): nat
    {
      if start <= end then end - start else 0
    }

    /** `to_span` of a slice. */
    function ToSpan(): Span
    {
      Range(start, end)
    }
  }

  /** The characters a slice stands for. */
  function Chars(text: seq<char>, s: Slice): seq<char>
    requires s.Within(text)
  {
    text[s.start..s.end]
  }

  /** `char::is_whitespace`, restricted to the ASCII whitespace characters. */
  predicate IsWhitespace(ch: char)
  {
    ch == ' ' || ch == '\t' || ch == '\n' || ch == '\U{000B}' || ch == '\U{000C}' || ch == '\r'
  }

  /** Whitespace that does not break a line: `c != '\n' && c != '\r' && c.is_whitespace()`. */
  predicate IsLineSpace(ch: char)
  {
    ch != '\n' && ch != '\r' && IsWhitespace(ch)
  }

  predicate NotLineBreak(ch: char)
  {
    ch != '\r' && ch != '\n'
  }

  /** `text` holds `lit` at offset `i`. */
  predicate StartsWith(text: seq<char>, i: nat, lit: seq<char>)
  {
    i + |lit| <= |text| && text[i..i + |lit|] == lit
  }

  /** The end of the longest run of characters satisfying `p` that starts at `i`. */
  function RunEnd(text: seq<char>, i: nat, p: char -> bool): (j: nat)
    requires i <= |text|
    ensures i <= j <= |text|
    ensures forall k :: i <= k < j ==> p(text[k])
    ensures j == |text| || !p(text[j])
    decreases |text| - i
  {
    if i == |text| || !p(text[i]) then i else RunEnd(text, i + 1, p)
  }

  /** The maximal run is the only run that is not extensible: its end is determined. */
  lemma {:induction false} RunEndUnique(text: seq<char>, i: nat, j: nat, p: char -> bool)
    requires i <= j <= |text|
    requires forall k :: i <= k < j ==> p(text[k])
    requires j == |text| || !p(text[j])
    ensures RunEnd(text, i, p) == j
    decreases j - i
  {
    if i < j {
      RunEndUnique(text, i + 1, j, p);
    }
  }

  /** `char == target`, as the predicate of a `token!` or `take_while`. */
  function Is(target: char): char -> bool
  {
    ch => ch == target
  }

  /** `token!`: the longest non-empty run satisfying `p`; an empty run is a Recoverable failure. */
  function TokenAt(text: seq<char>, i: nat, p: char -> bool, name: string): (r: Result<Slice>)
    requires i <= |text|
    ensures r.Ok? <==> i < |text| && p(text[i])
    ensures r.Ok? ==> r.value == Slice(i, RunEnd(text, i, p)) && i < r.value.end
    ensures r.Err? ==> r.error == Mismatch(name, Range(i, i))
  {
    var e := RunEnd(text, i, p);
    if e == i then Err(Mismatch(name, Range(i, i))) else Ok(Slice(i, e))
  }

  /** `keyword!`: the literal `lit`; otherwise a Recoverable failure spanning the rest of the input. */
  function KeywordAt(text: seq<char>, i: nat, lit: string, name: string): (r: Result<Slice>)
    requires i <= |text|
    ensures r.Ok? <==> StartsWith(text, i, lit)
    ensures r.Ok? ==> r.value == Slice(i, i + |lit|) && Chars(text, r.value) == lit
    ensures r.Err? ==> r.error == Mismatch(name, Range(i, |text|))
  {
    if StartsWith(text, i, lit) then Ok(Slice(i, i + |lit|)) else Err(Mismatch(name, Range(i, |text|)))
  }

  /** `next_if` (and `next(c)`): one character satisfying `p`; otherwise a Recoverable
      failure spanning the character looked at. */
  function NextIfAt(text: seq<char>, i: nat, p: char -> bool, name: string): (r: Result<Slice>)
    requires i <= |text|
    ensures r.Ok? <==> i < |text| && p(text[i])
    ensures r.Ok? ==> r.value == Slice(i, i + 1)
    ensures r.Err? ==> r.error == Mismatch(name, Range(i, if i < |text| then i + 1 else i))
  {
    if i < |text| && p(text[i]) then Ok(Slice(i, i + 1))
    else Err(Mismatch(name, Range(i, if i < |text| then i + 1 else i)))
  }

  /** Where the cursor stands after a primitive: past the match, or where it was. */
  function After(r: Result<Slice>, i: nat): nat
  {
    if r.Ok? then r.value.end else i
  }

  /** `LimitsTo`'s check on the run it wraps: at most `n` characters. */
  function AtMost(s: Slice, n: nat): (r: Result<Slice>)
    ensures r.Ok? <==> s.Len() <= n
    ensures r.Ok? ==> r.value == s
    ensures r.Err? ==> IsRecoverable(r.error) && SpanOf(r.error) == s.ToSpan()
  {
    if s.Len() <= n then Ok(s) else Err(Mismatch("LimitsTo", s.ToSpan()))
  }

  /** `LimitsFrom`'s check: at least `n` characters. */
  function AtLeast(s: Slice, n: nat): (r: Result<Slice>)
    ensures r.Ok? <==> n <= s.Len()
    ensures r.Ok? ==> r.value == s
    ensures r.Err? ==> IsRecoverable(r.error) && SpanOf(r.error) == s.ToSpan()
  {
    if n <= s.Len() then Ok(s) else Err(Mismatch("LimitsFrom", s.ToSpan()))
  }

  /** The upper bound of `Limits<_, lo, hi>`; whether `hi` itself is allowed is a parameter. */
  predicate WithinBounds(len: nat, lo: nat, hi: nat, inclusive: bool)
  {
    lo <= len && (if inclusive then len <= hi else len < hi)
  }

  /** `Limits`' check: between `lo` and `hi` characters. */
  function Between(s: Slice, lo: nat, hi: nat, inclusive: bool): (r: Result<Slice>)
    ensures r.Ok? <==> WithinBounds(s.Len(), lo, hi, inclusive)
    ensures r.Ok? ==> r.value == s
    ensures r.Err? ==> IsRecoverable(r.error) && SpanOf(r.error) == s.ToSpan()
  {
    if WithinBounds(s.Len(), lo, hi, inclusive) then Ok(s) else Err(Mismatch("Limits", s.ToSpan()))
  }

  /** A position in an immutable text. Parsing advances `pos`; a clone is a new cursor at the same place. */
  class Cursor {
    const text: seq<char>
    var pos: nat

    ghost predicate Valid()
      reads this
    {
      pos <= |text|
    }

    constructor (text: seq<char>)
      ensures this.text == text && pos == 0 && Valid()
    {
      this.text := text;
      pos := 0;
    }

    /** A cursor at `pos`: a clone of another cursor, or a view of the prefix `text`
        (offsets stay absolute, so spans taken in the view point into the whole text). */
    constructor At(text: seq<char>, pos: nat)
      requires pos <= |text|
      ensures this.text == text && this.pos == pos && Valid()
    {
      this.text := text;
      this.pos := pos;
    }

    /** `is_empty`: nothing is left. */
    predicate AtEnd()
      reads this
    {
      pos == |text|
    }

    /** `take_while`: consume the longest run satisfying `p`; never fails. */
    method TakeWhile(p: char -> bool) returns (s: Slice)
      requires Valid()
      modifies this
      ensures Valid()
      ensures s == Slice(old(pos), RunEnd(text, old(pos), p)) && pos == s.end
    {
      var i := pos;
      while i < |text| && p(text[i])
        invariant pos <= i <= |text|
        invariant RunEnd(text, pos, p) == RunEnd(text, i, p)
      {
        i := i + 1;
      }
      s := Slice(pos, i);
      pos := i;
    }

    /** `token!` on the cursor. */
    method Token(p: char -> bool, name: string) returns (r: Result<Slice>)
      requires Valid()
      modifies this
      ensures Valid()
      ensures r == TokenAt(text, old(pos), p, name) && pos == After(r, old(pos))
    {
      var s := TakeWhile(p);
      if s.start == s.end {
        r := Err(Mismatch(name, s.ToSpan()));
      } else {
        r := Ok(s);
      }
    }

    /** `keyword!` on the cursor. */
    method Keyword(lit: string, name: string) returns (r: Result<Slice>)
      requires Valid()
      modifies this
      ensures Valid()
      ensures r == KeywordAt(text, old(pos), lit, name) && pos == After(r, old(pos))
    {
      if pos + |lit| <= |text| && text[pos..pos + |lit|] == lit {
        r := Ok(Slice(pos, pos + |lit|));
        pos := pos + |lit|;
      } else {
        r := Err(Mismatch(name, Range(pos, |text|)));
      }
    }

    /** `next_if` and `next` on the cursor. */
    method NextIf(p: char -> bool, name: string) returns (r: Result<Slice>)
      requires Valid()
      modifies this
      ensures Valid()
      ensures r == NextIfAt(text, old(pos), p, name) && pos == After(r, old(pos))
    {
      if pos < |text| && p(text[pos]) {
        r := Ok(Slice(pos, pos + 1));
        pos := pos + 1;
      } else {
        r := Err(Mismatch(name, Range(pos, if pos < |text| then pos + 1 else pos)));
      }
    }

    /** `split_to(n)`: the next `n` characters; the source panics when fewer are left. */
    method SplitTo(n: nat) returns (s: Slice)
      requires Valid() && pos + n <= |text|
      modifies this
      ensures Valid()
      ensures s == Slice(old(pos), old(pos) + n) && pos == s.end
    {
      s := Slice(pos, pos + n);
      pos := pos + n;
    }
  }
}
