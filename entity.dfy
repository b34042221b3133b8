/**
 * Named entity references (entity.rs): `&`, then a name ending at the first
 * `;` found within a bounded distance, looked up in the HTML5 entity table.
 * The table is a parameter `names` holding the full references (`"&amp;"`).
 */
module Entities {
  import opened ErrorModel
  import opened Input

  /** `MAX_ENTITY_LEN`: the largest index, counted from the `&`, at which the `;` is looked for. */
  const MAX_ENTITY_LEN: nat := 100

  datatype Entity = Entity(content: Slice)

  /** `to_span`. */
  function EntitySpan(e: Entity): Span
  {
    e.content.ToSpan()
  }

  /** No `;` at an offset in `[lo, hi)` of the text. */
  predicate NoSemicolon(text: seq<char>, lo: nat, hi: nat)
  {
    forall j :: lo <= j < hi && j < |text| ==> text[j] != ';'
  }

  /** The scan for the `;` from index `i` on, indices counted from `start`: one past the
      first `;` at an index of at most `MAX_ENTITY_LEN`, or `None` when there is none. */
  function FirstSemicolon(text: seq<char>, start: nat, i: nat): (r: Option<nat>)
    requires start <= |text|
    ensures r.Some? ==> i < r.value <= MAX_ENTITY_LEN + 1 && start + r.value <= |text|
                        && text[start + r.value - 1] == ';'
                        && NoSemicolon(text, start + i, start + r.value - 1)
    ensures r.None? <==> NoSemicolon(text, start + i, start + MAX_ENTITY_LEN + 1)
    decreases |text| - (start + i)
  {
    if i > MAX_ENTITY_LEN || start + i >= |text| then None
    else if text[start + i] == ';' then Some(i + 1)
    else FirstSemicolon(text, start, i + 1)
  }

  /** The `for` loop of `Entity::parse` over the input's indexed characters: past index
      `MAX_ENTITY_LEN` it stops; at a `;` it records one past its index and stops. */
  method FindSemicolon(text: seq<char>, start: nat) returns (last: Option<nat>)
    requires start <= |text|
    ensures last == FirstSemicolon(text, start, 0)
  {
    last := None;
    var index := 0;
    while start + index < |text|
      invariant start + index <= |text|
      invariant FirstSemicolon(text, start, 0) == FirstSemicolon(text, start, index)
      decreases |text| - (start + index)
    {
      if index > MAX_ENTITY_LEN {
        break;
      }
      if text[start + index] == ';' {
        last := Some(index + 1);
        break;
      }
      index := index + 1;
    }
  }

  /** `Entity::parse`.
      - No `&` at the cursor: `next`'s failure, re-tagged `Entity`, Recoverable, spanning the
        character looked at; the cursor does not move (the test runs on a clone).
      - No `;` within the bound: a Fatal `Entity` failure spanning at most `MAX_ENTITY_LEN`
        characters from the `&`; the cursor does not move.
      - Otherwise the candidate runs from the `&` to the first `;` inclusive and the cursor
        moves past it; a candidate the table lacks is a Fatal `Entity` failure with its span. */
  method ParseEntity(c: Cursor, names: set<string>) returns (r: Result<Entity>)
    requires c.Valid()
    modifies c
    ensures c.Valid()
    ensures var p0 := old(c.pos);
            !(p0 < |c.text| && c.text[p0] == '&') ==>
              r == Err(Tagged(Kind.Entity, Recoverable, Range(p0, if p0 < |c.text| then p0 + 1 else p0))) && c.pos == p0
    ensures var p0 := old(c.pos);
            p0 < |c.text| && c.text[p0] == '&' && FirstSemicolon(c.text, p0, 0).None? ==>
              var n := if |c.text| - p0 < MAX_ENTITY_LEN then |c.text| - p0 else MAX_ENTITY_LEN;
              r == Err(Tagged(Kind.Entity, Fatal, Range(p0, p0 + n))) && c.pos == p0
    ensures var p0 := old(c.pos);
            p0 < |c.text| && c.text[p0] == '&' && FirstSemicolon(c.text, p0, 0).Some? ==>
              var candidate := Slice(p0, p0 + FirstSemicolon(c.text, p0, 0).value);
              && candidate.Within(c.text) && candidate.Len() <= MAX_ENTITY_LEN + 1
              && c.pos == candidate.end
              && (r.Ok? <==> Chars(c.text, candidate) in names)
              && (r.Ok? ==> r.value == Entity.Entity(candidate))
              && (r.Err? ==> r.error == Tagged(Kind.Entity, Fatal, candidate.ToSpan()))
  {
    var probe := new Cursor.At(c.text, c.pos);
    var amp := probe.NextIf(Is('&'), "next");
    if amp.Err? {
      return Err(Retag(Kind.Entity, amp.error));
    }
    var last := FindSemicolon(c.text, c.pos);
    if last.None? {
      var start := c.pos;
      var n := if |c.text| - c.pos < 100 then |c.text| - c.pos else 100;
      return Err(Tagged(Kind.Entity, Fatal, Range(start, start + n)));
    }
    var content := c.SplitTo(last.value);
    if Chars(c.text, content) !in names {
      return Err(Tagged(Kind.Entity, Fatal, content.ToSpan()));
    }
    return Ok(Entity.Entity(content));
  }

  /** A `;` right after `MAX_ENTITY_LEN` name characters lies past the bound: the reference is
      a Fatal failure spanning `MAX_ENTITY_LEN` characters, whatever the table holds. */
  lemma LongNameNotFound(text: seq<char>)
    requires |text| == MAX_ENTITY_LEN + 2 && text[0] == '&' && text[MAX_ENTITY_LEN + 1] == ';'
    requires forall k :: 1 <= k <= MAX_ENTITY_LEN ==> text[k] == 'a'
    ensures FirstSemicolon(text, 0, 0).None?
  {
  }

  /** `"&amp;"` is a known reference: accepted, the cursor past the `;`. */
  method KnownNameExample()
  {
    var c := new Cursor("&amp;");
    var r := ParseEntity(c, {"&amp;"});
    assert FirstSemicolon("&amp;", 0, 0) == Some(5);
    assert Chars("&amp;", Slice(0, 5)) == "&amp;";
    assert r == Ok(Entity.Entity(Slice(0, 5))) && c.pos == 5;
  }

  /** `"&amp"` has no `;`: a Fatal failure over the whole input, the cursor unmoved. */
  method UnterminatedExample()
  {
    var c := new Cursor("&amp");
    var r := ParseEntity(c, {"&amp;"});
    assert FirstSemicolon("&amp", 0, 0).None?;
    assert r == Err(Tagged(Kind.Entity, Fatal, Range(0, 4))) && c.pos == 0;
  }

  /** `"amp"` does not start with `&`: a Recoverable failure over the first character. */
  method NoAmpersandExample()
  {
    var c := new Cursor("amp");
    var r := ParseEntity(c, {"&amp;"});
    assert r == Err(Tagged(Kind.Entity, Recoverable, Range(0, 1))) && c.pos == 0;
  }

  /** `"&abc;"` is not in the table: a Fatal failure with the candidate's span. */
  method UnknownNameExample()
  {
    var c := new Cursor("&abc;");
    var r := ParseEntity(c, {"&amp;"});
    assert FirstSemicolon("&abc;", 0, 0) == Some(5);
    assert Chars("&abc;", Slice(0, 5)) == "&abc;";
    assert "&abc;" != "&amp;" by { assert "&abc;"[2] != "&amp;"[2]; }
    assert r == Err(Tagged(Kind.Entity, Fatal, Range(0, 5))) && c.pos == 5;
  }

  /** `&`, `MAX_ENTITY_LEN` letters and `;`: a Fatal failure spanning `MAX_ENTITY_LEN` characters. */
  method LongNameExample()
  {
    var long := "&" + seq(MAX_ENTITY_LEN, _ => 'a') + ";";
    var c := new Cursor(long);
    var r := ParseEntity(c, {"&amp;"});
    LongNameNotFound(long);
    assert r == Err(Tagged(Kind.Entity, Fatal, Range(0, 100)));
  }
}
