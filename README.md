# mdc block and inline lexer, modelled in Dafny

This project models the lexer rules of the `mdc` markdown compiler (crate
`crates/compiler`). Every rule reads from a text cursor. It either returns a
node whose parts are absolute-offset slices of the source, or returns an error
made of a kind, a control-flow flag (`Recoverable` or `Fatal`) and a span. The
rules covered are these:

- thematic breaks (`thematic.rs`, and the run-based token of `tokens.rs`);
- ATX headings (`header.rs`, and the `LeadingPounds` token of `tokens.rs`);
- whitespace, indentation, line endings and blank lines (`s.rs`, `leaf.rs`, `tokens.rs`);
- backslash escapes (`escaped.rs`);
- named entity references (`entity.rs`);
- the error type with `control_flow`, `into_fatal`, `span` and `From<Kind>` (`errors.rs`).

Several source files are snapshots with differing behaviour, and each is modelled as written:

- The line ending of `s.rs` and `escaped.rs` tries `"\n"` first. The one in `tokens.rs` tries `"\r\n"` first.
- The `S` of `s.rs` and `tokens.rs` excludes `\r` and `\n`. The `S` of `leaf.rs` includes them.
- Pound runs are bounded twice: by `Limits<_, 1, 7>` in `header.rs`, and by an explicit test in `tokens.rs`.

`lib.rs` declares no `mod tokens` and no `mod leaf`, so `tokens.rs` and `leaf.rs` are not compiled into the crate. They are modelled as written, beside the compiled rules.

Module layout:

- `errors.dfy` (`ErrorModel`): control flow, spans and the error datatype.
- `input.dfy` (`Input`): slices, runs, and the `Cursor` class. The cursor has a constant `text` and a mutable `pos`. Its methods stand in for the parser library's `take_while`, `token!`, `keyword!`, `next`/`next_if`, `split_to` and `Limits*`.
- `s.dfy` (`Spaces`), `leaf.dfy` (`Leaf`), `tokens.dfy` (`Tokens`), `thematic.dfy` (`Thematic`, with examples in `ThematicExamples`), `header.dfy` (`Headings`), `escaped.dfy` (`Escapes`), `entity.dfy` (`Entities`).

Each `parse` is a module-level method that takes a `Cursor`; only the library stand-ins `TakeWhile`, `Token`, `Keyword`, `NextIf` and `SplitTo` are methods of the class. A parse's postcondition ties the result and
the new position to pure functions of the text, such as `RunEnd`,
`LineEndingAt`, `ThematicCharsAt`, `PunctuatedAt`, `RunsCheck`, `BreaksVerdict`
and `FirstSemicolon`. The properties the source promises are proved about those
functions. The source's unit tests appear as example methods and lemmas.

## Model

| member | source | states |
|---|---|---|
| ErrorModel.Span.Union | crates/compiler/src/header.rs:68-73 | the union of two spans covers both and starts and ends at one of theirs; no span is the unit |
| ErrorModel.UnionOfAdjacent | crates/compiler/src/thematic.rs:183-187 | ranges meeting end to start unite into the range spanning both |
| ErrorModel.IntoFatal | crates/compiler/src/errors.rs:40-62 | `into_fatal` yields a Fatal error of the same variant with the same span, and leaves a Fatal error unchanged |
| ErrorModel.IntoFatalIdempotent | crates/compiler/src/errors.rs:40-52 | `into_fatal` applied twice equals `into_fatal` applied once |
| ErrorModel.IntoFatalForgetsOnlyTheFlag | crates/compiler/src/errors.rs:40-52 | two errors agreeing on variant and span become the same fatal error |
| ErrorModel.FromKind | crates/compiler/src/errors.rs:18-27 | a library error named "NewLine" becomes `NewLine` and every other one is wrapped unchanged; control flow and span are kept |
| ErrorModel.ControlFlowOf | crates/compiler/src/errors.rs:30-38 | no contract of its own: `control_flow` reads the flag of every variant; `IntoFatal`, `Retag` and `Mismatch` state the flag they produce through it |
| ErrorModel.SpanOf | crates/compiler/src/errors.rs:54-62 | no contract of its own: `span` reads the span of every variant; `IntoFatal`, `Retag` and `Mismatch` state the span they keep through it |
| ErrorModel.Mismatch | crates/compiler/src/errors.rs:18-27 | a library combinator's failure is Recoverable and carries the given span |
| ErrorModel.Retag | crates/compiler/src/s.rs:76-78 | re-tagging an error sets its kind and keeps its control flow and span |
| ErrorModel.RetagTwice | crates/compiler/src/header.rs:36-37 | re-tagging an already re-tagged error keeps only the outer kind |
| Input.RunEnd | crates/compiler/src/s.rs:21 | `take_while` stops at the first character failing the predicate, or at the end |
| Input.RunEndUnique | crates/compiler/src/s.rs:21 | any position meeting those two conditions is the end of the run |
| Input.TokenAt | crates/compiler/src/tokens.rs:102 | a `token!` matches iff its first character qualifies, takes the maximal run, and otherwise fails Recoverable with an empty span |
| Input.KeywordAt | crates/compiler/src/s.rs:145-146 | a `keyword!` matches iff the text starts with it, takes exactly it, and otherwise fails Recoverable spanning the rest of the input |
| Input.NextIfAt | crates/compiler/src/tokens.rs:70 | `next_if` takes exactly one qualifying character, and otherwise fails Recoverable spanning the character looked at |
| Input.AtMost | crates/compiler/src/s.rs:75 | `LimitsTo` accepts iff the run holds at most N characters; its failure is Recoverable with the run's span |
| Input.AtLeast | crates/compiler/src/s.rs:101 | `LimitsFrom` accepts iff the run holds N or more characters; its failure is Recoverable with the run's span |
| Input.Between | crates/compiler/src/header.rs:42 | `Limits` accepts iff the run's length lies within the bounds; its failure is Recoverable with the run's span |
| Input.Cursor.TakeWhile | crates/compiler/src/s.rs:21-23 | the cursor advances over the maximal run and returns it |
| Input.Cursor.Token | crates/compiler/src/thematic.rs:47-49 | the cursor's token agrees with `TokenAt` and advances only on success |
| Input.Cursor.Keyword | crates/compiler/src/s.rs:145-151 | the cursor's keyword agrees with `KeywordAt` and advances only on success |
| Input.Cursor.NextIf | crates/compiler/src/tokens.rs:70 | the cursor's `next_if` agrees with `NextIfAt` and advances only on success |
| Input.Cursor.SplitTo | crates/compiler/src/entity.rs:51 | `split_to(n)` returns the next n characters and advances past them |
| Input.Cursor.AtEnd | crates/compiler/src/thematic.rs:109 | no contract of its own: `is_empty`, true iff the cursor is at the end of the text; `BreaksVerdict` states the end-of-input acceptance it decides in `ParseThematicBreaks` |
| Spaces.LineEndingAt | crates/compiler/src/s.rs:144-153 | a line ending is present iff the text starts with `"\n"` or `"\r\n"`; it is `LF` exactly for `"\n"` and `CrLf` exactly for `"\r\n"`, and its slice starts at the cursor |
| Spaces.IntoInput | crates/compiler/src/s.rs:131 | no contract of its own; `LineEndingSlice` states that it is the matched slice of one or two characters ending in `\n` |
| Spaces.LineEndingSpan | crates/compiler/src/s.rs:155-161 | no contract of its own: `LineEnding::to_span`, the span of the held slice; `LineEndingSlice` states that it is the span of the matched line ending |
| Spaces.LineEndingSlice | crates/compiler/src/s.rs:131-136 | `into_input` is the matched slice, its span is the line ending's span, and it is one or two characters ending in `\n` |
| Spaces.ParseS | crates/compiler/src/s.rs:20-24 | `S` never fails and takes the maximal, possibly empty, run of whitespace other than `\r` and `\n` |
| Spaces.ParseS1 | crates/compiler/src/s.rs:42-55 | `S1` takes the same run; it succeeds iff the run is non-empty, and otherwise fails Recoverable with kind `S` and the empty span |
| Spaces.IndentationTo | crates/compiler/src/s.rs:74-80 | accepts iff the run holds at most N characters; otherwise fails Recoverable, re-tagged `LeadingWhiteSpace`, with the run's span |
| Spaces.IndentationFrom | crates/compiler/src/s.rs:100-106 | accepts iff the run holds N or more characters; otherwise fails Recoverable, re-tagged `LeadingWhiteSpace`, with the run's span |
| Spaces.ParseLineEnding | crates/compiler/src/s.rs:144-153 | succeeds iff a line ending is at the cursor, returning it and moving past it; otherwise fails Recoverable, re-tagged `LineEnding`, spanning the rest of the input, and does not move |
| Spaces.OptionalLineEnding | crates/compiler/src/thematic.rs:165 | the optional line ending is the one at the cursor, or none with the cursor unmoved |
| Spaces.ParseBlankLine | crates/compiler/src/s.rs:178-182 | succeeds iff a line ending is at the cursor, holding exactly its `"\n"` or `"\r\n"` slice; failures are re-tagged `BlankLine` |
| Thematic.Value | crates/compiler/src/thematic.rs:23-29 | no contract of its own; `ValueIsClass` states its three values and that equal values mean the same character |
| Thematic.Len | crates/compiler/src/thematic.rs:32-38 | no contract of its own: the length of the run a variant holds; `SumLen`, `RunsCheck` and the examples use it |
| Thematic.ValueIsClass | crates/compiler/src/thematic.rs:23-29 | `value` maps `*`, `_` and `-` to 1, 2 and 3, so two runs have equal values iff they are made of the same character |
| Thematic.ThematicCharsAt | crates/compiler/src/thematic.rs:46-56 | succeeds iff the character at the cursor is `*`, `_` or `-`; the variant follows that character and holds its maximal run; otherwise the last branch's Recoverable failure |
| Thematic.ThematicSpan | crates/compiler/src/thematic.rs:58-65 | no contract of its own: the span of the run a variant holds; `RunsCheck` states the spans of its failures through it |
| Thematic.ParseThematicChars | crates/compiler/src/thematic.rs:51-55 | the ordered choice of the three tokens, each retried from the saved position, yields `ThematicCharsAt` and moves past the run only on success |
| Thematic.PunctuatedAt | crates/compiler/src/thematic.rs:92 | the punctuated list tiles the text from the cursor with no gaps; every item is a maximal run of one thematic character and every delimiter a maximal run of line spaces; a list without a tail stops where no item can be read, and a list with a tail stops where no delimiter follows it |
| Thematic.PunctuatedSpan | crates/compiler/src/thematic.rs:113 | no contract of its own: `Punctuated::to_span`, as used at thematic.rs:113, 161, 171 and 186; `TiledSpan` states that a non-empty tiled list spans from its start to its end |
| Thematic.PairThenRest | crates/compiler/src/thematic.rs:92 | a pair read at the cursor followed by the rest of the list tiles from the cursor to the rest's end, and the whole list ends where the rest ends |
| Thematic.PairThenRestMaximal | crates/compiler/src/thematic.rs:92 | putting a maximal item run and a maximal delimiter run in front of a list of maximal runs keeps every run maximal |
| Thematic.PunctuatedStep | crates/compiler/src/thematic.rs:92 | one step of the list: no item ends it, an item without a delimiter becomes the tail, and an item with a delimiter is prepended to the rest |
| Thematic.PrependPair | crates/compiler/src/thematic.rs:92 | pushing pairs one at a time builds the same list as prepending them together, and the list ends at the last delimiter's end |
| Thematic.PunctuatedStops | crates/compiler/src/thematic.rs:92 | when no pair follows, the list is the pairs pushed so far with the tail found there, and it ends after that tail or where the search stopped |
| Thematic.PunctuatedAdvance | crates/compiler/src/thematic.rs:92 | an item and a delimiter at the cursor are one more pair, after which the list goes on from the delimiter's end, strictly further on |
| Thematic.ParsePunctuated | crates/compiler/src/thematic.rs:92 | the loop that pushes pairs returns `PunctuatedAt` and leaves the cursor at the list's end |
| Thematic.SumLenAppend | crates/compiler/src/thematic.rs:142-154 | the summed length of two runs of items is the sum of their summed lengths |
| Thematic.FirstMismatch | crates/compiler/src/thematic.rs:133-141 | every item before the index has the given value, and the item at the index does not |
| Thematic.FirstMismatchAppend | crates/compiler/src/thematic.rs:133-152 | the first mismatch of pairs followed by the tail is found among the pairs first, then in the tail |
| Thematic.PairItemsStep | crates/compiler/src/thematic.rs:131-143 | one more pair appends its item to the pair items and adds its length to their total |
| Thematic.FirstMismatchAt | crates/compiler/src/thematic.rs:133-141 | when all earlier pairs have the value and pair i does not, pair i is the first mismatch |
| Thematic.CheckPairs | crates/compiler/src/thematic.rs:131-143 | the `for` loop succeeds iff every pair has the first pair's value, summing their lengths; otherwise it fails with the span of the first pair of another value |
| Thematic.TiledSpan | crates/compiler/src/thematic.rs:113 | a non-empty tiled list spans from its start to its end |
| Thematic.RunsCheck | crates/compiler/src/thematic.rs:95-163 | the checks on the runs pass iff there is an item, all items have one value, and their lengths total at least 3; every failure is Recoverable and tagged `Thematic`, spanning the indentation, the first mismatching run, or the whole list |
| Thematic.RunsCheckNoPairs | crates/compiler/src/thematic.rs:97-128 | with no pairs, the result depends on the tail alone: no tail fails with the indentation's span, a tail shorter than 3 fails with its own span, and a longer one is accepted |
| Thematic.RunsCheckWithPairs | crates/compiler/src/thematic.rs:131-163 | with pairs, the checks fail at the first mismatching pair, then at a mismatching tail, then on a total below 3 with the list's span; otherwise they give the total |
| Thematic.ItemsWithTail | crates/compiler/src/thematic.rs:131-163 | with a tail, the total length adds the tail's length, and the first mismatch is among the pairs, else the tail when it has another value, else there is none |
| Thematic.CheckRuns | crates/compiler/src/thematic.rs:97-163 | the imperative checks, with their loop, compute exactly `RunsCheck` |
| Thematic.ToSpan | crates/compiler/src/thematic.rs:182-187 | no contract of its own; `BreaksVerdict` states that an accepted node spans from the indentation to the end of the list |
| Thematic.BreaksVerdict | crates/compiler/src/thematic.rs:97-187 | a thematic break is accepted iff the runs pass and a line ending or the end of input follows; the node's span runs from the indentation to the end of the list (a trailing delimiter included, the line ending excluded); failures are Recoverable `Thematic` errors |
| Thematic.ParseThematicBreaks | crates/compiler/src/thematic.rs:89-180 | indentation over three fails `LeadingWhiteSpace`; otherwise the result is `BreaksVerdict` on the parsed list, with the cursor after the line ending on success |
| ThematicExamples.PrependTwo | crates/compiler/src/thematic.rs:92 | two pairs put in front of a list one at a time are the two pairs in front of it |
| ThematicExamples.MinusRunAt | crates/compiler/src/thematic.rs:46-56 | a maximal run of `-` is read as a `Minus` item holding that run |
| ThematicExamples.SpaceRunAt | crates/compiler/src/thematic.rs:92 | a maximal run of spaces is read as a delimiter holding that run |
| ThematicExamples.LineTail | crates/compiler/src/thematic.rs:246-265 | in `"   -   -  -"` followed by a line break, the run at 10 is the tail, as no delimiter follows it |
| ThematicExamples.LineSecondPair | crates/compiler/src/thematic.rs:246-265 | from 7 on, the pair (7..8, 8..10) comes before the list from 10 |
| ThematicExamples.LineFirstPair | crates/compiler/src/thematic.rs:246-265 | from 3 on, the pair (3..4, 4..7) comes before the list from 7 |
| ThematicExamples.LineRuns | crates/compiler/src/thematic.rs:246-265 | the list after the indentation is two pairs and the tail `-` at 10 |
| ThematicExamples.LineRunsCheck | crates/compiler/src/thematic.rs:246-265 | that line's runs pass the checks with three `-` in all |
| ThematicExamples.LineVerdict | crates/compiler/src/thematic.rs:246-265 | that line is accepted with the indentation 0..3 and `LF` at 11 |
| ThematicExamples.EndLineTail | crates/compiler/src/thematic.rs:225-244 | in `"   -   -  -"` with nothing after it, the run at 10 is the tail, as the input ends there |
| ThematicExamples.EndLineSecondPair | crates/compiler/src/thematic.rs:225-244 | from 7 on, the pair (7..8, 8..10) comes before the list from 10 |
| ThematicExamples.EndLineFirstPair | crates/compiler/src/thematic.rs:225-244 | from 3 on, the pair (3..4, 4..7) comes before the list from 7 |
| ThematicExamples.EndLineRuns | crates/compiler/src/thematic.rs:225-244 | the list after the indentation is two pairs and the tail `-` at 10, ending at the end of input |
| ThematicExamples.EndLineVerdict | crates/compiler/src/thematic.rs:225-244 | that line is accepted with the indentation 0..3 and no line ending |
| ThematicExamples.TrailingLastPair | crates/compiler/src/thematic.rs:200-223 | with trailing spaces, the run at 10 and the spaces 11..14 form the last pair, and no tail follows |
| ThematicExamples.TrailingSecondPair | crates/compiler/src/thematic.rs:200-223 | from 7 on, the pair (7..8, 8..10) comes before the list from 10 |
| ThematicExamples.TrailingFirstPair | crates/compiler/src/thematic.rs:200-223 | from 3 on, the pair (3..4, 4..7) comes before the list from 7 |
| ThematicExamples.TrailingRuns | crates/compiler/src/thematic.rs:200-223 | the list after the indentation is three pairs and no tail |
| ThematicExamples.TrailingRunsCheck | crates/compiler/src/thematic.rs:200-223 | those runs pass the checks with three `-` in all |
| Leaf.ParseS | crates/compiler/src/leaf.rs:20-24 | the leaf `S` never fails and takes the maximal run of any whitespace, `\r` and `\n` included |
| Leaf.IdentWhiteSpaces | crates/compiler/src/leaf.rs:43-47 | accepts iff that run holds at most N characters; otherwise fails Recoverable as `LeadingWhiteSpace` with the run's span |
| Leaf.LineSpaceRunWithinWhitespaceRun | crates/compiler/src/leaf.rs:20-24 | the run of `s.rs`'s `S` never passes the run of the leaf `S`, and where it stops short it stops at `\r` or `\n` |
| Leaf.WhitespaceRunsAgree | crates/compiler/src/leaf.rs:43-47 | on text without line breaks the two runs coincide, and a run accepted by `IdentWhiteSpaces<N>` bounds the `s.rs` run too |
| Tokens.LineEndingCrLfFirst | crates/compiler/src/tokens.rs:34-40 | no contract of its own; `LineEndingOrderIrrelevant` states that it reads the same line ending as `Spaces.LineEndingAt` |
| Tokens.LineEndingOrderIrrelevant | crates/compiler/src/tokens.rs:34-40 | trying `"\r\n"` before `"\n"` reads the same line ending as trying `"\n"` first |
| Tokens.ParseLineEnding | crates/compiler/src/tokens.rs:34-40 | succeeds iff a line ending is at the cursor; otherwise fails Recoverable as `NewLine` spanning the rest of the input, with the cursor unmoved |
| Tokens.ParseHorizon | crates/compiler/src/tokens.rs:67-91 | the token is the run `ThematicChars` reads and is accepted iff it holds at least 3 characters; a shorter run fails Recoverable as `Horizon` with its span; a non-thematic first character fails `next_if` |
| Tokens.ParseS | crates/compiler/src/tokens.rs:102 | the `S` token is the maximal run of whitespace other than `\r` and `\n`, and it must be non-empty |
| Tokens.ParseLeadingWhiteSpace | crates/compiler/src/tokens.rs:116-121 | accepts iff that run is non-empty and holds at most N characters; otherwise fails Recoverable as `LeadingWhiteSpace` with the run's span |
| Tokens.SixPoundsRejected | crates/compiler/src/tokens.rs:154 | the written bound turns away six pounds, which the heading bound accepts, and otherwise accepts exactly the lengths the heading bound accepts |
| Tokens.PoundsBoundIsHeadingBound | crates/compiler/src/header.rs:41-42 | the corrected bound of one to six pounds is `Limits<_, 1, 7>` with an exclusive upper bound |
| Tokens.ParseLeadingPoundsAsWritten | crates/compiler/src/tokens.rs:139-162 | the `#` run, accepted iff `len < 1 \|\| !(len < 6)` is false; otherwise Recoverable `LeadingPounds` with the run's span |
| Tokens.ParseLeadingPounds | crates/compiler/src/tokens.rs:139-162 | the same rule accepting a run of one to six pounds |
| Escapes.EscapedSpan | crates/compiler/src/escaped.rs:128-141 | no contract of its own: the span of the slice a variant holds; `ParseEscaped` states that slice |
| Escapes.EscapedFor | crates/compiler/src/escaped.rs:78-110 | the variant built for an escapable character stands for exactly that character and holds the given slice |
| Escapes.EscapedForInjective | crates/compiler/src/escaped.rs:151-190 | distinct escapable characters give distinct variants, and none of them is `HardlineBreak` |
| Escapes.ParseLineEnding | crates/compiler/src/escaped.rs:23-32 | succeeds iff `"\n"` or `"\r\n"` is at the cursor; otherwise fails Recoverable as `LineEnding` spanning the rest of the input, with the cursor unmoved |
| Escapes.ParseEscaped | crates/compiler/src/escaped.rs:73-126 | a backslash is required; an escapable follower gives its two-character variant, a line ending gives `HardlineBreak` of the backslash and the line ending, and anything else fails Recoverable as `Escaped` from the backslash on |
| Entities.EntitySpan | crates/compiler/src/entity.rs:64 | no contract of its own: the span of the candidate; `ParseEntity` states the candidate |
| Entities.FirstSemicolon | crates/compiler/src/entity.rs:33-42 | the scan finds the first `;` at an index of at most 100, returning one past it, or none iff there is no `;` within the bound |
| Entities.FindSemicolon | crates/compiler/src/entity.rs:31-42 | the `for` loop with its two breaks computes `FirstSemicolon` |
| Entities.ParseEntity | crates/compiler/src/entity.rs:26-62 | no `&` fails Recoverable and does not move the cursor; no `;` within the bound fails Fatal spanning at most 100 characters; otherwise the candidate up to the `;` is accepted iff the table holds it, and a missing name fails Fatal with its span |
| Entities.LongNameNotFound | crates/compiler/src/entity.rs:82-91 | with 100 name characters, the `;` lies past the bound |
| Headings.ToSpan | crates/compiler/src/header.rs:67-74 | no contract of its own; `HeadingSpan` states the span of every heading whose parts lie end to end |
| Headings.OptionalSpan | crates/compiler/src/header.rs:73 | no contract of its own: the span of a present line ending, and no span when absent; `HeadingSpan` states the heading span it yields |
| Headings.HeadingSpan | crates/compiler/src/header.rs:67-74 | the span of a heading whose parts lie end to end runs from its start to the end of its line ending, or of its content |
| Headings.SeparatorRun | crates/compiler/src/header.rs:44-48 | the whitespace split off the front of the content is the run of line spaces after the pounds, and it lies within the content |
| Headings.ParseATXHeading | crates/compiler/src/header.rs:35-65 | indentation over three, or a pound run outside `Limits<_, 1, 7>`, fails Recoverable re-tagged `ATXHeading` with that run's span; otherwise the parts are contiguous and in order, the heading is accepted iff the separator is non-empty or a line ending follows, and its span runs from its start to where the cursor stops |
| Headings.ParseHeadingRest | crates/compiler/src/header.rs:44-64 | after the pounds: content to the line break, an optional line ending, and the separator split off the content; rejected with the empty span after the pounds iff both separator and line ending are missing |
| Headings.HeadingOfParts | crates/compiler/src/header.rs:35-65 | a line whose indentation, pounds, rest of line and separator end at the given offsets, within the bounds and with a separator or a line ending, is read as the heading of exactly those parts |
| Headings.CrLfLineRuns | crates/compiler/src/header.rs:80-94 | in `" ###### hello world\r\n"` the indentation ends at 1, the pounds at 7 and the separator at 8 |
| Headings.CrLfLineIndentation | crates/compiler/src/header.rs:80-94 | in `" ###### hello world\r\n"` the indentation run ends at 1 |
| Headings.CrLfLinePounds | crates/compiler/src/header.rs:80-94 | in that line the pound run from 1 ends at 7 |
| Headings.CrLfLineSeparator | crates/compiler/src/header.rs:80-94 | in that line the separator run from 7 ends at 8 |
| Headings.CrLfLineContent | crates/compiler/src/header.rs:80-94 | in that line the rest of the line runs to 19, where the line ending `"\r\n"` lies |
| Headings.CrLfLineRest | crates/compiler/src/header.rs:80-94 | in that line the rest of the line from 7 runs to 19 |
| Headings.CrLfLineEnding | crates/compiler/src/header.rs:80-94 | in that line the line ending at 19 is `CrLf` over 19..21, `"\n"` not matching first |
| Headings.SpaceLineRuns | crates/compiler/src/header.rs:96-105 | in `"###### hello world "` there is no indentation, the pounds end at 6 and the separator at 7 |
| Headings.SpaceLinePounds | crates/compiler/src/header.rs:96-105 | in `"###### hello world "` the pound run from 0 ends at 6 |
| Headings.SpaceLineSeparator | crates/compiler/src/header.rs:96-105 | in that line the separator run from 6 ends at 7 |
| Headings.SpaceLineContent | crates/compiler/src/header.rs:96-105 | in that line the rest of the line runs to the end of input, with no line ending |

## Left out

- The parser library `parserc` is not part of this model. Its combinators are stand-ins, with behaviour inferred from their uses and from the unit tests:
  - A `token!` is a non-empty maximal run. On failure it spans nothing at the cursor.
  - A `keyword!` failure spans the rest of the input.
  - A `next`/`next_if` failure spans the character looked at.
  - A `Limits*` failure carries the inner run's span.
  - Library failures are Recoverable.
  - `to_span` of an absent optional node (`Option::to_span` of `None`) is no span.
  - `Kind::X.map()` re-tags an error with kind `X` and keeps its control flow and span, as the explicit `map_err` at entity.rs:28 does.
  - A `LimitsTo`, `LimitsFrom` or `Limits` failure leaves the cursor after the run it rejected. The contracts of `Spaces.IndentationTo`, `Leaf.IdentWhiteSpaces`, `Headings.ParseATXHeading` and `Thematic.ParseThematicBreaks` state that position.
  - `Span::union` gives the smallest range covering both spans, and "no span" is its unit.
- The list delimiter `Identation` is defined in `input.rs`, which is not part of this model. It is taken to be a non-empty maximal run of whitespace other than `\r` and `\n`, as the tests at thematic.rs:199-265 show (delimiters of three and two spaces, the trailing spaces kept as the last delimiter, and no delimiter at the end of input). This choice decides where every punctuated list ends.
- Input.Between: whether the upper bound of `Limits<_, 1, 7>` is inclusive is unknown, so it is the parameter `inclusive`.
- Unicode whitespace (`char::is_whitespace`) is approximated by ASCII space, tab, vertical tab, form feed, `\r` and `\n`.
- Offsets count characters, not bytes. Every character is taken as one byte.
- Entities.ParseEntity: the HTML5 entity table and its lazy, thread-safe initialisation are not modelled. The table is the parameter `names`, holding full references such as `"&amp;"`.
- `block.rs` is generated by a derive macro of the library. `code.rs` has no parsing logic. `lib.rs` only wires modules. None of them is part of this model.
- The `ThematicBreaks` of `leaf.rs` has no body (`todo!()`), so it is not part of this model. The private `ThematicChars` of `leaf.rs` (leaf.rs:57-104) has the same `parse`, `value` and `to_span` as that of `thematic.rs`, and no `len`. It is modelled once, as `Thematic.ThematicCharsAt`, `Thematic.Value` and `Thematic.ThematicSpan`.
- The wrapper structs (`S(I)`, `IndentationTo(I)`, `BlankLine(I)`, ...) are represented by the slice they hold. Derives, serde support and error message strings are not modelled.
- Tokens.ParseLeadingPoundsAsWritten: only the `Range` arm of the match on the span is modelled. A slice's span is always a range, so the other arms are not reached.
- Thematic.ParseThematicBreaks: the re-tag of the punctuated list's error is not modelled. The list never fails in this model, since an item that does not parse ends it.
- Thematic.ParseThematicBreaks: the line-ending step is written once, after the run checks. The source writes it once for the tail-only branch (thematic.rs:107-115) and again for the pairs branch (thematic.rs:165-173), and the two are identical.
- Headings.ParseATXHeading: the re-tag of the optional line ending's error is not modelled, because an optional parse does not fail.

## Findings

| source | as written | input that shows it | evidently intended | confidence | as-written member | corrected member |
|---|---|---|---|---|---|---|
| crates/compiler/src/tokens.rs:154 | `len < 1 \|\| !(len < 6)` rejects runs of six pounds | `"######"` (six pounds) | an ATX heading opens with one to six pounds, as section 4.2 of CommonMark 0.31.2 and the `" ###### hello world\r\n"` test of header.rs accept | medium, not executed (the test loop `1..6` at tokens.rs:233 stops at five; `lib.rs` does not declare `mod tokens`, so the rejection never reaches the crate's headings, which use header.rs's `Limits<_, 1, 7>`) | Tokens.ParseLeadingPoundsAsWritten, Tokens.SixPoundsRejected | Tokens.ParseLeadingPounds, Tokens.PoundsBoundIsHeadingBound |
