/**
 * Thematic breaks (thematic.rs): `ThematicChars` (a run of `*`, `_` or `-`),
 * the punctuated list of such runs separated by indentation, and the
 * `ThematicBreaks` rule that accepts a line of at least three characters of
 * one class. leaf.rs repeats `ThematicChars` (without `len`) as a private
 * type; the definitions here stand for both.
 */
module Thematic {
  import opened ErrorModel
  import opened Input
  import opened Spaces

  datatype ThematicChars = Stars(content: Slice) | Underscores(content: Slice) | Minus(content: Slice)

  /** `value`: the character class. */
  function Value(t: ThematicChars): nat
  {
    match t
    case Stars(_) => 1
    case Underscores(_) => 2
    case Minus(_) => 3
  }

  /** `len`: the length of the run. */
  function Len(t: ThematicChars): nat
  {
    match t
    case Stars(content) => content.Len()
    case Underscores(content) => content.Len()
    case Minus(content) => content.Len()
  }

  /** `to_span`. */
  function ThematicSpan(t: ThematicChars): Span
  {
    match t
    case Stars(content) => content.ToSpan()
    case Underscores(content) => content.ToSpan()
    case Minus(content) => content.ToSpan()
  }

  predicate IsThematicChar(ch: char)
  {
    ch == '*' || ch == '_' || ch == '-'
  }

  /** The character a run of this variant is made of. */
  function ClassChar(t: ThematicChars): char
  {
    match t
    case Stars(_) => '*'
    case Underscores(_) => '_'
    case Minus(_) => '-'
  }

  /** `value` maps `*`, `_` and `-` to 1, 2 and 3, so two runs have the same value exactly
      when they are made of the same character. */
  lemma ValueIsClass(a: ThematicChars, b: ThematicChars)
    ensures Value(a) == (if ClassChar(a) == '*' then 1 else if ClassChar(a) == '_' then 2 else 3)
    ensures Value(a) == Value(b) <==> ClassChar(a) == ClassChar(b)
  {
  }

  /** `ThematicChars::parse`: the token of `*`, else of `_`, else of `-`. Each token is the
      longest non-empty run of its character; when none matches, the last branch's
      Recoverable failure is returned. */
  function ThematicCharsAt(text: seq<char>, i: nat): (r: Result<ThematicChars>)
    requires i <= |text|
    ensures r.Ok? <==> i < |text| && IsThematicChar(text[i])
    ensures r.Ok? ==> ClassChar(r.value) == text[i]
                      && r.value.content == Slice(i, RunEnd(text, i, Is(text[i])))
                      && i < r.value.content.end
    ensures r.Err? ==> r.error == Mismatch("Minus", Range(i, i))
  {
    match TokenAt(text, i, Is('*'), "Stars")
    case Ok(stars) => Ok(Stars(stars))
    case Err(_) =>
      match TokenAt(text, i, Is('_'), "Underscores")
      case Ok(underscores) => Ok(Underscores(underscores))
      case Err(_) =>
        match TokenAt(text, i, Is('-'), "Minus")
        case Ok(minus) => Ok(Minus(minus))
        case Err(e) => Err(e)
  }

  /** `ThematicChars::parse` on the cursor: an ordered choice, each branch tried from the
      saved position. */
  method ParseThematicChars(c: Cursor) returns (r: Result<ThematicChars>)
    requires c.Valid()
    modifies c
    ensures c.Valid()
    ensures r == ThematicCharsAt(c.text, old(c.pos))
    ensures c.pos == if r.Ok? then r.value.content.end else old(c.pos)
  {
    var start := c.pos;
    var stars := c.Token(Is('*'), "Stars");
    if stars.Ok? {
      return Ok(Stars(stars.value));
    }
    c.pos := start;
    var underscores := c.Token(Is('_'), "Underscores");
    if underscores.Ok? {
      return Ok(Underscores(underscores.value));
    }
    c.pos := start;
    var minus := c.Token(Is('-'), "Minus");
    if minus.Ok? {
      return Ok(Minus(minus.value));
    }
    return Err(minus.error);
  }

  /** `Punctuated<ThematicChars, Identation>`: (item, delimiter) pairs and an optional
      last item that no delimiter follows. The delimiter is a non-empty run of whitespace
      other than `\r` and `\n`. */
  datatype Punctuated = Punctuated(pairs: seq<(ThematicChars, Slice)>, tail: Option<ThematicChars>)

  /** The items of a punctuated list, in order, the tail last. */
  function Items(b: Punctuated): seq<ThematicChars>
  {
    seq(|b.pairs|, k requires 0 <= k < |b.pairs| => b.pairs[k].0)
    + (if b.tail.Some? then [b.tail.value] else [])
  }

  /** Where a punctuated list that starts at `i` ends. */
  function PunctuatedEnd(b: Punctuated, i: nat): nat
  {
    if b.tail.Some? then b.tail.value.content.end
    else if b.pairs != [] then b.pairs[|b.pairs| - 1].1.end
    else i
  }

  /** `Punctuated::to_span`: from the first item to the last element; no span when empty. */
  function PunctuatedSpan(b: Punctuated): Span
  {
    if b.pairs != [] then Range(b.pairs[0].0.content.start, PunctuatedEnd(b, 0))
    else if b.tail.Some? then b.tail.value.content.ToSpan()
    else NoSpan
  }

  /** The pairs and the tail lie end to end from `i` to `j`: item, delimiter, item, ..., tail,
      every piece non-empty. */
  predicate Tiles(pairs: seq<(ThematicChars, Slice)>, tail: Option<ThematicChars>, i: nat, j: nat)
    decreases |pairs|
  {
    if pairs == [] then
      if tail.Some? then tail.value.content == Slice(i, j) && i < j else i == j
    else
      pairs[0].0.content.start == i && i < pairs[0].0.content.end == pairs[0].1.start < pairs[0].1.end
      && Tiles(pairs[1..], tail, pairs[0].1.end, j)
  }

  /** A run that `ThematicCharsAt` would read at its start: a maximal run of its class's character. */
  predicate RunAt(text: seq<char>, t: ThematicChars)
  {
    t.content.start < |text| && text[t.content.start] == ClassChar(t)
    && t.content.end == RunEnd(text, t.content.start, Is(ClassChar(t)))
  }

  /** Every item is a maximal run of one thematic character, every delimiter a maximal run of
      line spaces. */
  predicate MaximalRuns(text: seq<char>, b: Punctuated)
  {
    && (forall k :: 0 <= k < |b.pairs| ==>
          RunAt(text, b.pairs[k].0) && b.pairs[k].1.start <= |text|
          && b.pairs[k].1.end == RunEnd(text, b.pairs[k].1.start, IsLineSpace))
    && (b.tail.Some? ==> RunAt(text, b.tail.value))
  }

  /** `Punctuated::parse`: an item, then a delimiter; with both, record the pair and go on;
      an item without a delimiter becomes the tail; no item ends the list. So the list stops
      where no item follows, or where no delimiter follows its tail. */
  function PunctuatedAt(text: seq<char>, i: nat): (b: Punctuated)
    requires i <= |text|
    ensures i <= PunctuatedEnd(b, i) <= |text|
    ensures Tiles(b.pairs, b.tail, i, PunctuatedEnd(b, i))
    ensures MaximalRuns(text, b)
    ensures b.tail.None? ==> ThematicCharsAt(text, PunctuatedEnd(b, i)).Err?
    ensures b.tail.Some? ==> TokenAt(text, PunctuatedEnd(b, i), IsLineSpace, "Identation").Err?
    decreases |text| - i
  {
    match ThematicCharsAt(text, i)
    case Err(_) => Punctuated([], None)
    case Ok(item) =>
      match TokenAt(text, item.content.end, IsLineSpace, "Identation")
      case Err(_) => Punctuated([], Some(item))
      case Ok(delimiter) =>
        var rest := PunctuatedAt(text, delimiter.end);
        PairThenRest(text, i, item, delimiter, rest);
        Punctuated([(item, delimiter)] + rest.pairs, rest.tail)
  }

  /** A pair read at `i` in front of a list read after it tiles from `i` to the list's end,
      and its runs are maximal when the pair's and the list's are. */
  lemma PairThenRest(text: seq<char>, i: nat, item: ThematicChars, delimiter: Slice, rest: Punctuated)
    requires RunAt(text, item) && item.content.start == i && i < item.content.end
    requires delimiter.start == item.content.end < delimiter.end <= |text|
    requires delimiter.end == RunEnd(text, delimiter.start, IsLineSpace)
    requires delimiter.end <= PunctuatedEnd(rest, delimiter.end)
    requires Tiles(rest.pairs, rest.tail, delimiter.end, PunctuatedEnd(rest, delimiter.end))
    requires MaximalRuns(text, rest)
    ensures var b := Punctuated([(item, delimiter)] + rest.pairs, rest.tail);
            && PunctuatedEnd(b, i) == PunctuatedEnd(rest, delimiter.end)
            && Tiles(b.pairs, b.tail, i, PunctuatedEnd(b, i))
            && MaximalRuns(text, b)
  {
    var b := Punctuated([(item, delimiter)] + rest.pairs, rest.tail);
    assert b.pairs[1..] == rest.pairs;
    PairThenRestMaximal(text, item, delimiter, rest);
  }

  lemma PairThenRestMaximal(text: seq<char>, item: ThematicChars, delimiter: Slice, rest: Punctuated)
    requires RunAt(text, item)
    requires delimiter.start <= |text| && delimiter.end == RunEnd(text, delimiter.start, IsLineSpace)
    requires MaximalRuns(text, rest)
    ensures MaximalRuns(text, Punctuated([(item, delimiter)] + rest.pairs, rest.tail))
  {
    var pairs := [(item, delimiter)] + rest.pairs;
    forall k | 0 <= k < |pairs|
      ensures RunAt(text, pairs[k].0) && pairs[k].1.start <= |text|
              && pairs[k].1.end == RunEnd(text, pairs[k].1.start, IsLineSpace)
    {
      if k > 0 {
        assert pairs[k] == rest.pairs[k - 1];
      }
    }
  }

  /** The list parsed after `pairs` were already recorded. */
  function Prepend(pairs: seq<(ThematicChars, Slice)>, b: Punctuated): Punctuated
  {
    Punctuated(pairs + b.pairs, b.tail)
  }

  /** One step of `Punctuated::parse`, stated case by case. */
  lemma PunctuatedStep(text: seq<char>, i: nat)
    requires i <= |text|
    ensures var item := ThematicCharsAt(text, i);
            item.Err? ==> PunctuatedAt(text, i) == Punctuated([], None)
    ensures var item := ThematicCharsAt(text, i);
            item.Ok? ==>
              var d := TokenAt(text, item.value.content.end, IsLineSpace, "Identation");
              && (d.Err? ==> PunctuatedAt(text, i) == Punctuated([], Some(item.value)))
              && (d.Ok? ==> PunctuatedAt(text, i) == Prepend([(item.value, d.value)], PunctuatedAt(text, d.value.end)))
  {
  }

  lemma PrependPair(pairs: seq<(ThematicChars, Slice)>, pair: (ThematicChars, Slice), b: Punctuated)
    ensures Prepend(pairs, Prepend([pair], b)) == Prepend(pairs + [pair], b)
    ensures PunctuatedEnd(Punctuated(pairs + [pair], None), 0) == pair.1.end
  {
    assert pairs + ([pair] + b.pairs) == (pairs + [pair]) + b.pairs;
  }

  /** When the list from `pos` on has no pairs, the pairs pushed so far and its tail are the
      whole list, and it ends after the tail, or at `pos` without one. */
  lemma PunctuatedStops(text: seq<char>, p0: nat, pairs: seq<(ThematicChars, Slice)>, pos: nat, tail: Option<ThematicChars>)
    requires p0 <= pos <= |text|
    requires PunctuatedAt(text, p0) == Prepend(pairs, PunctuatedAt(text, pos))
    requires PunctuatedAt(text, pos) == Punctuated([], tail)
    requires pos == PunctuatedEnd(Punctuated(pairs, None), p0)
    ensures PunctuatedAt(text, p0) == Punctuated(pairs, tail)
    ensures PunctuatedEnd(Punctuated(pairs, tail), p0) == if tail.Some? then tail.value.content.end else pos
  {
    assert pairs + [] == pairs;
  }

  /** An item and a delimiter at `pos` are recorded as one more pair, and the list goes on
      after the delimiter. */
  lemma PunctuatedAdvance(text: seq<char>, p0: nat, pairs: seq<(ThematicChars, Slice)>, pos: nat, item: ThematicChars, d: Slice)
    requires p0 <= pos <= |text|
    requires PunctuatedAt(text, p0) == Prepend(pairs, PunctuatedAt(text, pos))
    requires ThematicCharsAt(text, pos) == Ok(item)
    requires TokenAt(text, item.content.end, IsLineSpace, "Identation") == Ok(d)
    ensures pos < d.end <= |text|
    ensures PunctuatedAt(text, p0) == Prepend(pairs + [(item, d)], PunctuatedAt(text, d.end))
    ensures d.end == PunctuatedEnd(Punctuated(pairs + [(item, d)], None), p0)
  {
    PunctuatedStep(text, pos);
    PrependPair(pairs, (item, d), PunctuatedAt(text, d.end));
  }

  /** `Punctuated::parse` on the cursor. */
  method ParsePunctuated(c: Cursor) returns (b: Punctuated)
    requires c.Valid()
    modifies c
    ensures c.Valid()
    ensures b == PunctuatedAt(c.text, old(c.pos)) && c.pos == PunctuatedEnd(b, old(c.pos))
  {
    ghost var p0 := c.pos;
    ghost var text := c.text;
    var pairs: seq<(ThematicChars, Slice)> := [];
    while true
      invariant c.Valid() && c.text == text && p0 <= c.pos
      invariant PunctuatedAt(text, p0) == Prepend(pairs, PunctuatedAt(text, c.pos))
      invariant c.pos == PunctuatedEnd(Punctuated(pairs, None), p0)
      decreases |text| - c.pos
    {
      var start := c.pos;
      PunctuatedStep(text, start);
      var item := ParseThematicChars(c);
      if item.Err? {
        // ThematicChars fails only Recoverable: the list ends before this position.
        c.pos := start;
        PunctuatedStops(text, p0, pairs, start, None);
        return Punctuated(pairs, None);
      }
      var afterItem := c.pos;
      var delimiter := c.Token(IsLineSpace, "Identation");
      if delimiter.Err? {
        c.pos := afterItem;
        PunctuatedStops(text, p0, pairs, start, Some(item.value));
        return Punctuated(pairs, Some(item.value));
      }
      PunctuatedAdvance(text, p0, pairs, start, item.value, delimiter.value);
      pairs := pairs + [(item.value, delimiter.value)];
    }
  }

  /** Total length of runs. */
  function SumLen(items: seq<ThematicChars>): nat
  {
    if items == [] then 0 else SumLen(items[..|items| - 1]) + Len(items[|items| - 1])
  }

  lemma {:induction false} SumLenAppend(a: seq<ThematicChars>, b: seq<ThematicChars>)
    ensures SumLen(a + b) == SumLen(a) + SumLen(b)
    decreases |b|
  {
    if b != [] {
      assert (a + b)[..|a + b| - 1] == a + b[..|b| - 1];
      SumLenAppend(a, b[..|b| - 1]);
    } else {
      assert a + b == a;
    }
  }

  /** The index of the first item whose class is not `id`, or the number of items. */
  function FirstMismatch(items: seq<ThematicChars>, id: nat): (k: nat)
    ensures k <= |items|
    ensures forall j :: 0 <= j < k ==> Value(items[j]) == id
    ensures k < |items| ==> Value(items[k]) != id
  {
    if items == [] then 0
    else if Value(items[0]) != id then 0
    else 1 + FirstMismatch(items[1..], id)
  }

  /** The first mismatch of a concatenation lies in the first part when the first part has one. */
  lemma {:induction false} FirstMismatchAppend(a: seq<ThematicChars>, b: seq<ThematicChars>, id: nat)
    ensures FirstMismatch(a + b, id) == if FirstMismatch(a, id) < |a| then FirstMismatch(a, id) else |a| + FirstMismatch(b, id)
    decreases |a|
  {
    if a != [] {
      assert (a + b)[1..] == a[1..] + b;
      FirstMismatchAppend(a[1..], b, id);
    } else {
      assert a + b == b;
    }
  }

  /** The item runs of the pairs, in order. */
  function PairItems(pairs: seq<(ThematicChars, Slice)>): seq<ThematicChars>
  {
    seq(|pairs|, k requires 0 <= k < |pairs| => pairs[k].0)
  }

  /** One more pair adds its item to the items, and its length to their total. */
  lemma PairItemsStep(pairs: seq<(ThematicChars, Slice)>, i: nat)
    requires i < |pairs|
    ensures PairItems(pairs[..i + 1]) == PairItems(pairs[..i]) + [pairs[i].0]
    ensures SumLen(PairItems(pairs[..i + 1])) == SumLen(PairItems(pairs[..i])) + Len(pairs[i].0)
  {
    var items := PairItems(pairs[..i + 1]);
    assert items == PairItems(pairs[..i]) + [pairs[i].0];
    assert items[..|items| - 1] == PairItems(pairs[..i]);
  }

  /** The first pair of another class than `id` is the first mismatch among the items. */
  lemma FirstMismatchAt(pairs: seq<(ThematicChars, Slice)>, i: nat, id: nat)
    requires i < |pairs| && Value(pairs[i].0) != id
    requires forall k :: 0 <= k < i ==> Value(pairs[k].0) == id
    ensures FirstMismatch(PairItems(pairs), id) == i
  {
    assert PairItems(pairs) == PairItems(pairs[..i]) + PairItems(pairs[i..]);
    FirstMismatchAppend(PairItems(pairs[..i]), PairItems(pairs[i..]), id);
  }

  /** The `for` loop of `ThematicBreaks::parse`: every pair's item must have class `id`,
      otherwise the first that does not fails Recoverable with its span; on success the
      loop has summed the lengths of all pair items. */
  method CheckPairs(pairs: seq<(ThematicChars, Slice)>, id: nat) returns (r: Result<nat>)
    ensures r.Ok? <==> forall k :: 0 <= k < |pairs| ==> Value(pairs[k].0) == id
    ensures r.Ok? ==> r.value == SumLen(PairItems(pairs))
    ensures r.Err? ==> var k := FirstMismatch(PairItems(pairs), id);
                       k < |pairs| && r.error == Tagged(Kind.Thematic, Recoverable, ThematicSpan(pairs[k].0))
  {
    var len := 0;
    for i := 0 to |pairs|
      invariant forall k :: 0 <= k < i ==> Value(pairs[k].0) == id
      invariant len == SumLen(PairItems(pairs[..i]))
    {
      var pair := pairs[i].0;
      if Value(pair) != id {
        FirstMismatchAt(pairs, i, id);
        return Err(Tagged(Kind.Thematic, Recoverable, ThematicSpan(pair)));
      }
      PairItemsStep(pairs, i);
      len := len + Len(pair);
    }
    assert pairs[..|pairs|] == pairs;
    return Ok(len);
  }

  /** A thematic break line: indentation of at most three, the punctuated runs, and a line
      ending unless the input ends there. */
  datatype ThematicBreaks = ThematicBreaks(identWhitespaces: Slice, breaks: Punctuated, lineEnding: Option<LineEnding>)

  /** `ThematicBreaks::to_span`: the indentation united with the runs (not the line ending). */
  function ToSpan(t: ThematicBreaks): Span
  {
    t.identWhitespaces.ToSpan().Union(PunctuatedSpan(t.breaks))
  }

  /** The rule the breaks must meet: at least one run, every run of the first run's class,
      and at least three characters in all. */
  predicate ValidBreaks(b: Punctuated)
  {
    var items := Items(b);
    |items| > 0 && (forall k :: 0 <= k < |items| ==> Value(items[k]) == Value(items[0])) && SumLen(items) >= 3
  }

  /** A non-empty tiled list spans from its start to its end. */
  lemma TiledSpan(b: Punctuated, i: nat, j: nat)
    requires Tiles(b.pairs, b.tail, i, j) && j == PunctuatedEnd(b, i) && Items(b) != []
    ensures PunctuatedSpan(b) == Range(i, j)
  {
  }

  /** The checks the rule makes on the runs alone, with the indentation `[p0, i1)` before
      them. They pass iff the runs satisfy `ValidBreaks`, giving their total length. Every
      rejection is Recoverable and tagged `Thematic`: with the indentation's span when there
      is no run, with the span of the first run of another class when there is one, and with
      the runs' span when they are too short. */
  function RunsCheck(p0: nat, i1: nat, b: Punctuated): (r: Result<nat>)
    ensures r.Ok? <==> ValidBreaks(b)
    ensures r.Ok? ==> r.value == SumLen(Items(b)) && r.value >= 3
    ensures r.Err? ==> r.error.Tagged? && r.error.tag == Kind.Thematic && IsRecoverable(r.error)
    ensures r.Err? && Items(b) == [] ==> SpanOf(r.error) == Range(p0, i1)
    ensures r.Err? && Items(b) != [] ==>
              var k := FirstMismatch(Items(b), Value(Items(b)[0]));
              SpanOf(r.error) == if k < |Items(b)| then ThematicSpan(Items(b)[k]) else Range(i1, PunctuatedEnd(b, i1))
  {
    var items := Items(b);
    if items == [] then Err(Tagged(Kind.Thematic, Recoverable, Range(p0, i1)))
    else
      var k := FirstMismatch(items, Value(items[0]));
      if k < |items| then Err(Tagged(Kind.Thematic, Recoverable, ThematicSpan(items[k])))
      else if SumLen(items) < 3 then Err(Tagged(Kind.Thematic, Recoverable, Range(i1, PunctuatedEnd(b, i1))))
      else Ok(SumLen(items))
  }

  /** What the thematic-break rule decides once the indentation `[p0, i1)` is accepted and the
      runs `b` are read from `i1`: it accepts iff the runs satisfy `ValidBreaks` and are
      followed by a line ending or by the end of the input, and the node then spans from `p0`
      to the end of the runs. Rejections are those of `RunsCheck`, or, when the runs are
      followed by something else, Recoverable with the runs' span. */
  function BreaksVerdict(text: seq<char>, p0: nat, i1: nat, b: Punctuated): (r: Result<ThematicBreaks>)
    requires p0 <= i1 <= PunctuatedEnd(b, i1) <= |text|
    requires Tiles(b.pairs, b.tail, i1, PunctuatedEnd(b, i1))
    ensures var e := PunctuatedEnd(b, i1);
            var le := LineEndingAt(text, e);
            && (r.Ok? <==> ValidBreaks(b) && (le.Some? || e == |text|))
            && (r.Ok? ==> r.value == ThematicBreaks(Slice(p0, i1), b, le) && ToSpan(r.value) == Range(p0, e))
    ensures r.Err? ==> r.error.Tagged? && r.error.tag == Kind.Thematic && IsRecoverable(r.error)
    ensures r.Err? && RunsCheck(p0, i1, b).Ok? ==> SpanOf(r.error) == Range(i1, PunctuatedEnd(b, i1))
    ensures r.Err? && RunsCheck(p0, i1, b).Err? ==> r.error == RunsCheck(p0, i1, b).error
  {
    var e := PunctuatedEnd(b, i1);
    match RunsCheck(p0, i1, b)
    case Err(err) => Err(err)
    case Ok(_) =>
      var le := LineEndingAt(text, e);
      if le.None? && e < |text| then Err(Tagged(Kind.Thematic, Recoverable, Range(i1, e)))
      else
        TiledSpan(b, i1, e);
        UnionOfAdjacent(p0, i1, e);
        Ok(ThematicBreaks(Slice(p0, i1), b, le))
  }

  /** `RunsCheck` on a list without pairs looks at the tail alone. */
  lemma RunsCheckNoPairs(p0: nat, i1: nat, b: Punctuated)
    requires b.pairs == [] && Tiles(b.pairs, b.tail, i1, PunctuatedEnd(b, i1))
    ensures RunsCheck(p0, i1, b)
            == if b.tail.None? then Err(Tagged(Kind.Thematic, Recoverable, Range(p0, i1)))
               else if Len(b.tail.value) < 3 then Err(Tagged(Kind.Thematic, Recoverable, ThematicSpan(b.tail.value)))
               else Ok(Len(b.tail.value))
  {
    if b.tail.Some? {
      var items := Items(b);
      assert items == [b.tail.value];
      assert SumLen(items) == Len(b.tail.value) by { assert items[..0] == []; }
      assert FirstMismatch(items, Value(b.tail.value)) == 1;
    } else {
      assert Items(b) == [];
    }
  }

  /** `RunsCheck` on a list with pairs: the first pair of another class than the first, else
      the tail if of another class, else the total length. */
  lemma RunsCheckWithPairs(p0: nat, i1: nat, b: Punctuated)
    requires b.pairs != [] && Tiles(b.pairs, b.tail, i1, PunctuatedEnd(b, i1))
    ensures var id := Value(b.pairs[0].0);
            var k := FirstMismatch(PairItems(b.pairs), id);
            var tailLen := if b.tail.Some? then Len(b.tail.value) else 0;
            RunsCheck(p0, i1, b)
            == if k < |b.pairs| then Err(Tagged(Kind.Thematic, Recoverable, ThematicSpan(b.pairs[k].0)))
               else if b.tail.Some? && Value(b.tail.value) != id then Err(Tagged(Kind.Thematic, Recoverable, ThematicSpan(b.tail.value)))
               else if SumLen(PairItems(b.pairs)) + tailLen < 3 then Err(Tagged(Kind.Thematic, Recoverable, PunctuatedSpan(b)))
               else Ok(SumLen(PairItems(b.pairs)) + tailLen)
  {
    var id := Value(b.pairs[0].0);
    var pairItems := PairItems(b.pairs);
    assert Items(b)[0] == b.pairs[0].0;
    TiledSpan(b, i1, PunctuatedEnd(b, i1));
    if b.tail.Some? {
      ItemsWithTail(b, id);
    } else {
      assert Items(b) == pairItems;
    }
  }

  /** With a tail, the items are the pair items and the tail: the first mismatch, the total
      length, and whether the tail is of class `id` follow from the two parts. */
  lemma ItemsWithTail(b: Punctuated, id: nat)
    requires b.tail.Some?
    ensures var pairItems := PairItems(b.pairs);
            var k := FirstMismatch(pairItems, id);
            && SumLen(Items(b)) == SumLen(pairItems) + Len(b.tail.value)
            && (k < |pairItems| ==> FirstMismatch(Items(b), id) == k)
            && (k == |pairItems| && Value(b.tail.value) != id ==> FirstMismatch(Items(b), id) == k)
            && (k == |pairItems| && Value(b.tail.value) == id ==> FirstMismatch(Items(b), id) == |Items(b)|)
  {
    var pairItems := PairItems(b.pairs);
    var tailItems := [b.tail.value];
    assert Items(b) == pairItems + tailItems;
    FirstMismatchAppend(pairItems, tailItems, id);
    SumLenAppend(pairItems, tailItems);
    assert SumLen(tailItems) == Len(b.tail.value) by { assert tailItems[..0] == []; }
  }

  /** The checks of `ThematicBreaks::parse` on the runs: without pairs, only the tail's length;
      otherwise the `for` loop over the pairs, then the tail's class, then the total length. */
  method CheckRuns(ident: Slice, b: Punctuated) returns (r: Result<nat>)
    requires ident.start <= ident.end
    requires Tiles(b.pairs, b.tail, ident.end, PunctuatedEnd(b, ident.end))
    ensures r == RunsCheck(ident.start, ident.end, b)
  {
    if b.pairs == [] {
      RunsCheckNoPairs(ident.start, ident.end, b);
      if b.tail.Some? {
        var tail := b.tail.value;
        if Len(tail) < 3 {
          return Err(Tagged(Kind.Thematic, Recoverable, ThematicSpan(tail)));
        }
        return Ok(Len(tail));
      }
      return Err(Tagged(Kind.Thematic, Recoverable, ident.ToSpan()));
    }
    RunsCheckWithPairs(ident.start, ident.end, b);
    var id := Value(b.pairs[0].0);
    var checked := CheckPairs(b.pairs, id);
    if checked.Err? {
      return Err(checked.error);
    }
    var len := checked.value;
    if b.tail.Some? {
      var tail := b.tail.value;
      if Value(tail) != id {
        return Err(Tagged(Kind.Thematic, Recoverable, ThematicSpan(tail)));
      }
      len := len + Len(tail);
    }
    if len < 3 {
      return Err(Tagged(Kind.Thematic, Recoverable, PunctuatedSpan(b)));
    }
    return Ok(len);
  }

  /** `ThematicBreaks::parse`: indentation of at most three characters (a longer run fails
      with `IndentationTo`'s error), the punctuated runs, their checks and the optional line
      ending, deciding as `BreaksVerdict` does. The source repeats the line-ending step in
      the branch without pairs; it is written once here. A failure leaves the cursor after
      the runs; success leaves it after the line ending. */
  method ParseThematicBreaks(c: Cursor) returns (r: Result<ThematicBreaks>)
    requires c.Valid()
    modifies c
    ensures c.Valid()
    ensures var p0 := old(c.pos); var i1 := RunEnd(c.text, p0, IsLineSpace);
            i1 - p0 > 3 ==> r == Err(Tagged(Kind.LeadingWhiteSpace, Recoverable, Range(p0, i1))) && c.pos == i1
    ensures var p0 := old(c.pos); var i1 := RunEnd(c.text, p0, IsLineSpace);
            i1 - p0 <= 3 ==>
              var b := PunctuatedAt(c.text, i1);
              var e := PunctuatedEnd(b, i1);
              r == BreaksVerdict(c.text, p0, i1, b)
              && c.pos == if r.Ok? then AfterLineEnding(r.value.lineEnding, e) else e
  {
    var identWhitespaces := IndentationTo(c, 3);
    if identWhitespaces.Err? {
      return Err(identWhitespaces.error);
    }
    var ident := identWhitespaces.value;
    // The items of the list fail only Recoverable, so `Punctuated` itself never fails and its
    // error re-tag to `Thematic` has nothing to act on.
    var breaks := ParsePunctuated(c);
    var checked := CheckRuns(ident, breaks);
    if checked.Err? {
      return Err(checked.error);
    }
    ghost var e := c.pos;
    var lineEnding := OptionalLineEnding(c);
    if lineEnding.None? && !c.AtEnd() {
      TiledSpan(breaks, ident.end, e);
      return Err(Tagged(Kind.Thematic, Recoverable, PunctuatedSpan(breaks)));
    }
    return Ok(ThematicBreaks(ident, breaks, lineEnding));
  }
}

module ThematicExamples {
  import opened ErrorModel
  import opened Input
  import opened Spaces
  import opened Thematic

  /** A run of `-` from `i` to `j` is read as `Minus` there. */
  lemma MinusRunAt(text: seq<char>, i: nat, j: nat)
    requires i < j <= |text| && (j == |text| || text[j] != '-')
    requires forall k :: i <= k < j ==> text[k] == '-'
    ensures ThematicCharsAt(text, i) == Ok(Minus(Slice(i, j)))
  {
    RunEndUnique(text, i, j, Is('-'));
  }

  /** A run of spaces from `i` to `j`, followed by no other line space, is a delimiter. */
  lemma SpaceRunAt(text: seq<char>, i: nat, j: nat)
    requires i < j <= |text| && (j == |text| || !IsLineSpace(text[j]))
    requires forall k :: i <= k < j ==> text[k] == ' '
    ensures TokenAt(text, i, IsLineSpace, "Identation") == Ok(Slice(i, j))
  {
    RunEndUnique(text, i, j, IsLineSpace);
  }

  /** Two pairs in front of a list, one at a time, are the two pairs in front of it. */
  lemma PrependTwo(a: Punctuated, b: Punctuated, c: Punctuated, p: (ThematicChars, Slice), q: (ThematicChars, Slice))
    requires a == Prepend([p], b) && b == Prepend([q], c)
    ensures a == Punctuated([p, q] + c.pairs, c.tail)
  {
    assert [p] + ([q] + c.pairs) == [p, q] + c.pairs;
  }

  /** The runs the rule reads in `"   -   -  -\n"`. */
  const Line := "   -   -  -\n"
  const LineBreaks := Punctuated([(Minus(Slice(3, 4)), Slice(4, 7)), (Minus(Slice(7, 8)), Slice(8, 10))], Some(Minus(Slice(10, 11))))

  lemma LineTail(text: seq<char>)
    requires text == Line
    ensures PunctuatedAt(text, 10) == Punctuated([], Some(Minus(Slice(10, 11))))
  {
    MinusRunAt(text, 10, 11);
    PunctuatedStep(text, 10);
  }

  lemma LineSecondPair(text: seq<char>)
    requires text == Line
    ensures PunctuatedAt(text, 7) == Prepend([(Minus(Slice(7, 8)), Slice(8, 10))], PunctuatedAt(text, 10))
  {
    MinusRunAt(text, 7, 8);
    SpaceRunAt(text, 8, 10);
    PunctuatedStep(text, 7);
  }

  lemma LineFirstPair(text: seq<char>)
    requires text == Line
    ensures PunctuatedAt(text, 3) == Prepend([(Minus(Slice(3, 4)), Slice(4, 7))], PunctuatedAt(text, 7))
  {
    MinusRunAt(text, 3, 4);
    SpaceRunAt(text, 4, 7);
    PunctuatedStep(text, 3);
  }

  /** After the indentation of `Line`: two pairs and the tail `-` at 10. */
  lemma LineRuns(text: seq<char>)
    requires text == Line
    ensures PunctuatedAt(text, 3) == LineBreaks
  {
    LineTail(text);
    LineSecondPair(text);
    LineFirstPair(text);
    PrependTwo(PunctuatedAt(text, 3), PunctuatedAt(text, 7), PunctuatedAt(text, 10),
               (Minus(Slice(3, 4)), Slice(4, 7)), (Minus(Slice(7, 8)), Slice(8, 10)));
  }

  /** Three `-` of one class: the runs pass the checks with a total of 3. */
  lemma LineRunsCheck()
    ensures RunsCheck(0, 3, LineBreaks) == Ok(3)
  {
    var items := [Minus(Slice(3, 4)), Minus(Slice(7, 8)), Minus(Slice(10, 11))];
    assert Items(LineBreaks) == items;
    assert SumLen(items[..1]) == 1 by { assert items[..1][..0] == []; }
    assert SumLen(items[..2]) == 2 by { assert items[..2][..1] == items[..1]; }
    assert SumLen(items) == 3 by { assert items[..3 - 1] == items[..2]; }
  }

  /** `Line` is accepted with the indentation 0..3, its runs and `LF` at 11. */
  lemma LineVerdict(text: seq<char>)
    requires text == Line
    ensures PunctuatedEnd(LineBreaks, 3) == 11
    ensures BreaksVerdict(text, 0, 3, LineBreaks) == Ok(ThematicBreaks(Slice(0, 3), LineBreaks, Some(LF(Slice(11, 12)))))
  {
    LineRunsCheck();
    assert StartsWith(text, 11, "\n");
  }

  /** The thematic-break line with a trailing line ending is accepted, the line ending kept. */
  method LineWithLineEnding()
  {
    var c := new Cursor(Line);
    RunEndUnique(Line, 0, 3, IsLineSpace);
    LineRuns(Line);
    LineVerdict(Line);
    var r := ParseThematicBreaks(c);
    assert r == Ok(ThematicBreaks(Slice(0, 3), LineBreaks, Some(LF(Slice(11, 12)))));
    assert c.pos == 12;
  }

  /** The same runs with nothing after them: accepted at the end of input. */
  const EndLine := "   -   -  -"

  lemma EndLineTail(text: seq<char>)
    requires text == EndLine
    ensures PunctuatedAt(text, 10) == Punctuated([], Some(Minus(Slice(10, 11))))
  {
    MinusRunAt(text, 10, 11);
    PunctuatedStep(text, 10);
  }

  lemma EndLineSecondPair(text: seq<char>)
    requires text == EndLine
    ensures PunctuatedAt(text, 7) == Prepend([(Minus(Slice(7, 8)), Slice(8, 10))], PunctuatedAt(text, 10))
  {
    MinusRunAt(text, 7, 8);
    SpaceRunAt(text, 8, 10);
    PunctuatedStep(text, 7);
  }

  lemma EndLineFirstPair(text: seq<char>)
    requires text == EndLine
    ensures PunctuatedAt(text, 3) == Prepend([(Minus(Slice(3, 4)), Slice(4, 7))], PunctuatedAt(text, 7))
  {
    MinusRunAt(text, 3, 4);
    SpaceRunAt(text, 4, 7);
    PunctuatedStep(text, 3);
  }

  /** After the indentation of `EndLine`: the runs of `Line`, two pairs and the tail at 10. */
  lemma EndLineRuns(text: seq<char>)
    requires text == EndLine
    ensures PunctuatedAt(text, 3) == LineBreaks
  {
    EndLineTail(text);
    EndLineSecondPair(text);
    EndLineFirstPair(text);
    PrependTwo(PunctuatedAt(text, 3), PunctuatedAt(text, 7), PunctuatedAt(text, 10),
               (Minus(Slice(3, 4)), Slice(4, 7)), (Minus(Slice(7, 8)), Slice(8, 10)));
  }

  /** `EndLine` is accepted with no line ending, as its runs reach the end of input. */
  lemma EndLineVerdict(text: seq<char>)
    requires text == EndLine
    ensures PunctuatedEnd(LineBreaks, 3) == |text|
    ensures BreaksVerdict(text, 0, 3, LineBreaks) == Ok(ThematicBreaks(Slice(0, 3), LineBreaks, None))
  {
    LineRunsCheck();
  }

  /** The thematic-break line is accepted at the end of input, with no line ending. */
  method LineAtEndOfInput()
  {
    var c := new Cursor(EndLine);
    RunEndUnique(EndLine, 0, 3, IsLineSpace);
    EndLineRuns(EndLine);
    EndLineVerdict(EndLine);
    var r := ParseThematicBreaks(c);
    assert r == Ok(ThematicBreaks(Slice(0, 3), LineBreaks, None));
    assert c.pos == 11;
  }

  /** With trailing spaces instead of a line ending, the spaces are the last delimiter. */
  const Trailing := "   -   -  -   "
  const TrailingBreaks := Punctuated([(Minus(Slice(3, 4)), Slice(4, 7)), (Minus(Slice(7, 8)), Slice(8, 10)), (Minus(Slice(10, 11)), Slice(11, 14))], None)

  lemma TrailingLastPair(text: seq<char>)
    requires text == Trailing
    ensures PunctuatedAt(text, 10) == Punctuated([(Minus(Slice(10, 11)), Slice(11, 14))], None)
  {
    MinusRunAt(text, 10, 11);
    SpaceRunAt(text, 11, 14);
    PunctuatedStep(text, 14);
    PunctuatedStep(text, 10);
  }

  lemma TrailingSecondPair(text: seq<char>)
    requires text == Trailing
    ensures PunctuatedAt(text, 7) == Prepend([(Minus(Slice(7, 8)), Slice(8, 10))], PunctuatedAt(text, 10))
  {
    MinusRunAt(text, 7, 8);
    SpaceRunAt(text, 8, 10);
    PunctuatedStep(text, 7);
  }

  lemma TrailingFirstPair(text: seq<char>)
    requires text == Trailing
    ensures PunctuatedAt(text, 3) == Prepend([(Minus(Slice(3, 4)), Slice(4, 7))], PunctuatedAt(text, 7))
  {
    MinusRunAt(text, 3, 4);
    SpaceRunAt(text, 4, 7);
    PunctuatedStep(text, 3);
  }

  /** After the indentation of `Trailing`: three pairs and no tail. */
  lemma TrailingRuns(text: seq<char>)
    requires text == Trailing
    ensures PunctuatedAt(text, 3) == TrailingBreaks
  {
    TrailingLastPair(text);
    TrailingSecondPair(text);
    TrailingFirstPair(text);
    PrependTwo(PunctuatedAt(text, 3), PunctuatedAt(text, 7), PunctuatedAt(text, 10),
               (Minus(Slice(3, 4)), Slice(4, 7)), (Minus(Slice(7, 8)), Slice(8, 10)));
  }

  /** Three `-` of one class: the runs pass the checks with a total of 3. */
  lemma TrailingRunsCheck()
    ensures RunsCheck(0, 3, TrailingBreaks) == Ok(3)
  {
    var items := [Minus(Slice(3, 4)), Minus(Slice(7, 8)), Minus(Slice(10, 11))];
    assert Items(TrailingBreaks) == items;
    assert SumLen(items[..1]) == 1 by { assert items[..1][..0] == []; }
    assert SumLen(items[..2]) == 2 by { assert items[..2][..1] == items[..1]; }
    assert SumLen(items) == 3 by { assert items[..3 - 1] == items[..2]; }
  }

  /** The thematic-break line with trailing spaces is accepted at the end of input, with no
      line ending. */
  method LineWithTrailingSpaces()
  {
    var c := new Cursor(Trailing);
    RunEndUnique(Trailing, 0, 3, IsLineSpace);
    TrailingRuns(Trailing);
    TrailingRunsCheck();
    var r := ParseThematicBreaks(c);
    assert PunctuatedEnd(TrailingBreaks, 3) == 14;
    assert r == Ok(ThematicBreaks(Slice(0, 3), TrailingBreaks, None));
    assert c.pos == 14;
  }
}
