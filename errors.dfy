/**
 * The error model of the markdown compiler: a two-valued control-flow tag,
 * source spans, and the `MarkDownError` enum with its `ParseError` methods
 * (`control_flow`, `into_fatal`, `span`) and the `From<Kind>` conversion.
 *
 * The crate holds several snapshots of this enum. errors.rs declares
 * `Kind(Kind)`, `Horizon`, `NewLine`, `LeadingWhiteSpace` and `LeadingPounds`;
 * escaped.rs raises `LineEnding(cf, span)` and `Escaped(cf, span)`; s.rs,
 * thematic.rs, header.rs and entity.rs raise `Kind(Kind::X, cf, span)`,
 * modelled here as `Tagged(X, cf, span)`. One datatype holds them all.
 */
module ErrorModel {

  /** `Recoverable`: try the next alternative; `Fatal`: stop and propagate. */
  datatype ControlFlow = Recoverable | Fatal

  /** An absolute half-open range of source offsets, or no span at all. */
  datatype Span = NoSpan | Range(start: nat, end: nat)
  {
    /** The smallest span covering both; `NoSpan` is the unit. */
    function Union(other: Span): (u: Span)
      ensures this.NoSpan? ==> u == other
      ensures other.NoSpan? ==> u == this
      ensures this.Range? && other.Range? ==>
                u.Range? && u.start <= this.start && u.start <= other.start
                && this.end <= u.end && other.end <= u.end
                && (u.start == this.start || u.start == other.start)
                && (u.end == this.end || u.end == other.end)
    {
      match (this, other)
      case (NoSpan, _) => other
      case (_, NoSpan) => this
      case (Range(s1, e1), Range(s2, e2)) =>
        Range(if s1 <= s2 then s1 else s2, if e1 <= e2 then e2 else e1)
    }
  }

  /** Two ranges that meet end to start unite into the range spanning both. */
  lemma UnionOfAdjacent(a: nat, b: nat, c: nat)
    requires a <= b <= c
    ensures Range(a, b).Union(Range(b, c)) == Range(a, c)
  {
  }

  /** The error raised by the parser library's own combinators (`parserc::Kind`). */
  datatype ParserKind = Syntax(name: string, flow: ControlFlow, span: Span)

  /** The crate's rule names, as used in `MarkDownError::Kind(Kind::X, cf, span)`. */
  datatype Kind = S | LeadingWhiteSpace | LineEnding | BlankLine | ATXHeading | Thematic | Entity

  datatype MarkDownError =
    | Library(kind: ParserKind)
    | Horizon(flow: ControlFlow, span: Span)
    | NewLine(flow: ControlFlow, span: Span)
    | LeadingWhiteSpace(flow: ControlFlow, span: Span)
    | LeadingPounds(flow: ControlFlow, span: Span)
    | LineEnding(flow: ControlFlow, span: Span)
    | Escaped(flow: ControlFlow, span: Span)
    | Tagged(tag: Kind, flow: ControlFlow, span: Span)

  datatype Option<+T> = None | Some(value: T)

  /** Every parse returns either a node or an error carrying (kind, control flow, span). */
  datatype Result<+T> = Ok(value: T) | Err(error: MarkDownError)

  /** `ParseError::control_flow`: the stored flag; `Kind` delegates to the library value. */
  function ControlFlowOf(e: MarkDownError): ControlFlow
  {
    match e
    case Library(kind) => kind.flow
    case Horizon(cf, _) => cf
    case NewLine(cf, _) => cf
    case LeadingWhiteSpace(cf, _) => cf
    case LeadingPounds(cf, _) => cf
    case LineEnding(cf, _) => cf
    case Escaped(cf, _) => cf
    case Tagged(_, cf, _) => cf
  }

  /** `ParseError::span`. */
  function SpanOf(e: MarkDownError): Span
  {
    match e
    case Library(kind) => kind.span
    case Horizon(_, span) => span
    case NewLine(_, span) => span
    case LeadingWhiteSpace(_, span) => span
    case LeadingPounds(_, span) => span
    case LineEnding(_, span) => span
    case Escaped(_, span) => span
    case Tagged(_, _, span) => span
  }

  predicate IsRecoverable(e: MarkDownError)
  {
    ControlFlowOf(e) == Recoverable
  }

  /** Both errors are built by the same variant (and, for `Kind`, the same library name and tag). */
  predicate SameVariant(a: MarkDownError, b: MarkDownError)
  {
    match (a, b)
    case (Library(k1), Library(k2)) => k1.name == k2.name
    case (Horizon(_, _), Horizon(_, _)) => true
    case (NewLine(_, _), NewLine(_, _)) => true
    case (LeadingWhiteSpace(_, _), LeadingWhiteSpace(_, _)) => true
    case (LeadingPounds(_, _), LeadingPounds(_, _)) => true
    case (LineEnding(_, _), LineEnding(_, _)) => true
    case (Escaped(_, _), Escaped(_, _)) => true
    case (Tagged(t1, _, _), Tagged(t2, _, _)) => t1 == t2
    case _ => false
  }

  /** `ParseError::into_fatal`: keep the variant and the span, set the flag to `Fatal`. */
  function IntoFatal(e: MarkDownError): (r: MarkDownError)
    ensures ControlFlowOf(r) == Fatal
    ensures SpanOf(r) == SpanOf(e)
    ensures SameVariant(r, e)
    ensures ControlFlowOf(e) == Fatal ==> r == e
  {
    match e
    case Library(kind) => Library(kind.(flow := Fatal))
    case Horizon(_, span) => Horizon(Fatal, span)
    case NewLine(_, span) => NewLine(Fatal, span)
    case LeadingWhiteSpace(_, span) => MarkDownError.LeadingWhiteSpace(Fatal, span)
    case LeadingPounds(_, span) => LeadingPounds(Fatal, span)
    case LineEnding(_, span) => MarkDownError.LineEnding(Fatal, span)
    case Escaped(_, span) => Escaped(Fatal, span)
    case Tagged(tag, _, span) => Tagged(tag, Fatal, span)
  }

  /** Making an error fatal twice is the same as making it fatal once. */
  lemma IntoFatalIdempotent(e: MarkDownError)
    ensures IntoFatal(IntoFatal(e)) == IntoFatal(e)
  {
  }

  /** Two errors that agree on variant and span become the same fatal error. */
  lemma {:induction false} IntoFatalForgetsOnlyTheFlag(a: MarkDownError, b: MarkDownError)
    requires SameVariant(a, b) && SpanOf(a) == SpanOf(b)
    ensures IntoFatal(a) == IntoFatal(b)
  {
    match a
    case Library(k) => assert b.Library? && b.kind.span == k.span;
    case Horizon(_, _) =>
    case NewLine(_, _) =>
    case LeadingWhiteSpace(_, _) =>
    case LeadingPounds(_, _) =>
    case LineEnding(_, _) =>
    case Escaped(_, _) =>
    case Tagged(_, _, _) =>
  }

  /** `From<Kind>`: a library error named "NewLine" becomes `NewLine`, anything else is wrapped. */
  function FromKind(k: ParserKind): (r: MarkDownError)
    ensures ControlFlowOf(r) == k.flow && SpanOf(r) == k.span
    ensures r.NewLine? <==> k.name == "NewLine"
    ensures !r.NewLine? ==> r == Library(k)
  {
    if k.name == "NewLine" then NewLine(k.flow, k.span) else Library(k)
  }

  /** The error a library combinator named `name` raises when it does not match. */
  function Mismatch(name: string, span: Span): (r: MarkDownError)
    ensures IsRecoverable(r) && SpanOf(r) == span
  {
    FromKind(Syntax(name, Recoverable, span))
  }

  /** `Kind::X.map()` and every `map_err(|err| ...Kind(X, err.control_flow(), err.span()))`:
      re-tag an error, keeping its control flow and span. */
  function Retag(tag: Kind, e: MarkDownError): (r: MarkDownError)
    ensures r.Tagged? && r.tag == tag
    ensures ControlFlowOf(r) == ControlFlowOf(e) && SpanOf(r) == SpanOf(e)
  {
    Tagged(tag, ControlFlowOf(e), SpanOf(e))
  }

  /** Re-tagging twice keeps only the outer tag (header.rs re-tags `IndentationTo`'s error). */
  lemma RetagTwice(outer: Kind, inner: Kind, e: MarkDownError)
    ensures Retag(outer, Retag(inner, e)) == Retag(outer, e)
  {
  }
}
