# bezier-parser in Dafny

A model of the core of `bezier-parser`, a small TypeScript tool that reads
SVG-style path data (`M`, `L`, `H`, `V`, `C`, `S`, `Q`, `T`, `Z` and their
lower-case relative forms) and produces an ordered list of drawing commands
with absolute coordinates.

The model has three parts, one per source file:

- **Commands** (`commands.dfy`, from `model/bezier-commands.ts`). `Point` is a
  pair of exact reals. `Command` is a datatype with the five variants Move,
  Line, QuadraticCurve, CubicCurve and ClosePath. The three uniform accessors
  return an `Option<Point>`. Each static factory is a pure function of the
  current point, the numbers and the relative flag. The "smooth" factories
  take the old control point as an `Option`.
- **The builder** (`parser.dfy`, from `bezier-parser.ts`).
  - `numbersForCommand` becomes `NumbersForCommand` and `Arity`.
  - The `switch` of `makeBezierCommand` becomes `CommandFor`.
  - The state update of lines 62-64 becomes `After`.
  - `BezierParser` is a class with the three fields `currentPoint`,
    `oldCubicControlPoint` and `oldQuadraticControlPoint`.
  - `MakeBezierCommand` overwrites the three fields.
  - `ParseTokens` is the `forEach` loop. It reassigns the active letter,
    appends to and clears the pending numbers, and calls `Add` on a fresh
    `BezierPath`.
  - `MakeBezierCommand` is proved against `CommandFor` and `After`.
    `ParseTokens` and `ParseBezierPath` are proved against the
    specification fold `Run` (built from `Consume`, one token at a time).
    `parser_lemmas.dfy` proves the properties of that fold.
- **The path** (`path.dfy`, from `model/bezier-path.ts`). `BezierPath` is a
  class whose `path` field is a `seq<Command>`. `Add` appends to it.

`tokenizer.dfy` is a simplified model of the regular-expression match of
`bezier-parser.ts:74`:

- A token is one command letter, or a number `-?digits(.digits)?` read as an
  exact real.
- Every other character is skipped.
- The match is absent (JavaScript's `null`) when nothing matches.

`examples.dfy` works through concrete token lists: implicit repetition,
numbers read before any letter, a lone `Z`, two parses on one parser, an `S`
with and without a cubic curve before it.

Where the code departs from usual SVG path semantics, the model follows the code:

- Parser state is set only in the constructor (`bezier-parser.ts:23-27`). A
  second parse on the same `BezierParser` starts from where the first one
  ended (`ParseTwiceOnOneParser`). It does not start from the origin.
- An input with no letter and no number does not give an empty path. The
  match returns `null` and `forEach` throws (`bezier-parser.ts:74`, `79`).
  `ParseBezierPath` returns `Crashed` in that case.
- The pending numbers are not cleared when the letter changes, and numbers
  read before the first letter accumulate. `Z` therefore emits only when
  nothing is pending (`LetterStep`). Once more than six numbers are pending,
  nothing is ever emitted again (`OverfullBufferNeverEmits`).
- Extra pairs after `M` are more Moves, not implicit line-tos.
- `Z` does not change the current point.

## Model

| member | source | states |
|---|---|---|
| `Commands.Reflect` | model/bezier-commands.ts:137-139 | the current point lies halfway between the old control point and the reflected one |
| `Commands.Command.GetEndPoint` | model/bezier-commands.ts:11-15 | the end point is absent exactly for ClosePath; otherwise it is the destination or end point (implementations at 24-26, 55-57, 104-106, 172-174, 233-235) |
| `Commands.Command.GetControlPoint` | model/bezier-commands.ts:11-15 | the control point is present exactly for QuadraticCurve and is its control point |
| `Commands.Command.GetControlPoint2` | model/bezier-commands.ts:11-15 | the second control point is present exactly for CubicCurve and is its second control point |
| `Commands.MoveFromNumbers` | model/bezier-commands.ts:36-42 | relative: the destination minus the current point is `(n0, n1)`; absolute: the destination is `(n0, n1)` |
| `Commands.LineFromNumbers` | model/bezier-commands.ts:67-73 | the start is the current point; the end is offset by `(n0, n1)` or equal to it |
| `Commands.LineVertical` | model/bezier-commands.ts:75-81 | the start is the current point; the end keeps the current x; its y is the value or current y plus the value |
| `Commands.LineHorizontal` | model/bezier-commands.ts:83-89 | the start is the current point; the end keeps the current y; its x is the value or current x plus the value |
| `Commands.QuadraticFromNumbers` | model/bezier-commands.ts:116-130 | the start is the current point; control and end come from the four numbers, offset or taken as they are |
| `Commands.QuadraticFromNumbersAndOldControlPoint` | model/bezier-commands.ts:132-155 | the start is the current point; the control point is the current point when there is no old one, else the current point is the midpoint of old and new; the end comes from the two numbers |
| `Commands.CubicFromNumbers` | model/bezier-commands.ts:184-200 | the start is the current point; both control points and the end come from the six numbers, offset or taken as they are |
| `Commands.CubicFromNumbersAndOldControlPoint2` | model/bezier-commands.ts:202-227 | the start is the current point; control point 1 is the current point when there is no old one, else the current point is the midpoint of old and new; control point 2 and the end come from the four numbers |
| `Commands.ReflectUndoesItself` | model/bezier-commands.ts:207-209 | reflecting the reflection through the same point gives back the old control point |
| `Commands.SmoothControlPointIsReflection` | model/bezier-commands.ts:132-140 | both smooth factories, given an old control point, compute their implied control point as its reflection through the current point (the quadratic one from the two numbers `t` passes, the cubic one from four) |
| `Commands.RelativeIsShiftedAbsolute` | model/bezier-commands.ts:36-227 | for every pair-reading factory, the relative call equals the absolute call whose numbers have the current point added |
| `Commands.RelativeAxisIsShiftedAbsolute` | model/bezier-commands.ts:75-89 | relative `h`/`v` with value d equal absolute `H`/`V` with the current coordinate plus d |
| `Commands.SmoothRelativeFlagOnlyMovesReadPoints` | model/bezier-commands.ts:202-227 | in both smooth factories the relative flag changes neither the start point nor the implied control point (quadratic from two numbers, cubic from four) |
| `Paths.BezierPath.constructor` | model/bezier-path.ts:6-8 | a new path is empty |
| `Paths.BezierPath.Add` | model/bezier-path.ts:10-12 | the path grows by exactly one, its last element is the argument, and every earlier element is unchanged |
| `Paths.AddAll` | model/bezier-path.ts:10-12 | a sequence of `Add` calls on a fresh path yields exactly the arguments, in call order |
| `Tokenizer.UnsignedLength` | bezier-parser.ts:74 | the match of `\d+(\.\d+)?` is non-empty exactly when the input starts with a digit |
| `Tokenizer.NumberLength` | bezier-parser.ts:74 | a number matches exactly where a digit, or a minus sign followed by a digit, starts |
| `Tokenizer.UnsignedLengthIsLongestMatch` | bezier-parser.ts:74 | the unsigned match is a literal of digits with at most one inner point, and no longer prefix is one |
| `Tokenizer.NumberLengthIsLongestMatch` | bezier-parser.ts:74 | the number match is a literal `-?\d+(\.\d+)?` (defined independently by its characters), and no longer prefix is one |
| `Tokenizer.FractionPart` | bezier-parser.ts:84 | the value of a point and fraction digits is never negative |
| `Tokenizer.UnsignedValue` | bezier-parser.ts:84 | the value of an unsigned literal is never negative |
| `Tokenizer.NumberValue` | bezier-parser.ts:84 | a literal with a leading minus is worth at most 0, any other at least 0 |
| `Tokenizer.IntegerValue` | bezier-parser.ts:84 | a literal of digits only is worth its decimal value |
| `Tokenizer.FractionValue` | bezier-parser.ts:84 | `i.f` is worth the value of `i` plus the value of `f` divided by 10 to the number of digits of `f` |
| `Tokenizer.NegativeValue` | bezier-parser.ts:84 | a leading minus negates the value of the rest |
| `Tokenizer.Scan` | bezier-parser.ts:74 | the global match yields at most one token per character of the input |
| `Tokenizer.ScanLetter` | bezier-parser.ts:74 | a command letter alone is matched as one letter token |
| `Tokenizer.ScanLiteral` | bezier-parser.ts:74-84 | a number literal alone is matched as one number token carrying its value |
| `Tokenizer.ScanSeparated` | bezier-parser.ts:74 | no match spans a separator (a character that is no command letter, digit, point or minus): the tokens of `a`, a separator and `b` are the tokens of `a` followed by those of `b`, in order |
| `Tokenizer.ScanBeforeSeparator` | bezier-parser.ts:74 | the tokens of a text followed by a separator and more text are the tokens of the text, then the tokens after the separator |
| `Tokenizer.Match` | bezier-parser.ts:74 | the match is absent (so the parse crashes) exactly when the input holds no command letter and no digit; when present it is the non-empty token list |
| `Tokenizer.ScanEmptyIff` | bezier-parser.ts:74 | there is no token exactly when the input holds no command letter and no digit |
| `Parser.ToLower` | bezier-parser.ts:32-33 | an upper-case ASCII letter maps to the letter 32 code points above it, every other character to itself; the result is never upper case |
| `Parser.NumbersForCommand` | bezier-parser.ts:6-16 | the table has an entry exactly for the nine lower-case command letters |
| `Parser.Arity` | bezier-parser.ts:87 | the arity of a letter is the table entry of its lower-cased letter, and at most 6 |
| `Parser.IsRelative` | bezier-parser.ts:32 | a letter is relative exactly when it is lower case |
| `Parser.CommandFor` | bezier-parser.ts:29-60 | the variant built depends only on the lower-cased letter (m Move; l, h, v Line; q, t QuadraticCurve; c, s CubicCurve; z ClosePath), and the result starts at the current point |
| `ParserProperties.DispatchTable` | bezier-parser.ts:32-57 | for each lower-cased key, the points the dispatch builds: read from the numbers at the key's positions, offset by the current point exactly when the letter is relative; `s` and `t` take their implied control point from the old cubic and quadratic control point |
| `Parser.Ready` | bezier-parser.ts:87 | with no active letter nothing is ever ready; a ready buffer holds at most 6 numbers |
| `Parser.Consume` | bezier-parser.ts:80-85 | after a token the active letter is that token if it is a letter, else unchanged |
| `Parser.After` | bezier-parser.ts:62-64 | the current point becomes the command's end point, or stays for ClosePath; the old cubic and quadratic control points are present exactly after a cubic and a quadratic curve |
| `Parser.BezierParser.constructor` | bezier-parser.ts:23-27 | a new parser is at (0,0) with both old control points absent |
| `Parser.BezierParser.MakeBezierCommand` | bezier-parser.ts:29-67 | returns the command the dispatch builds from the old state and sets the three fields to the state after it |
| `Parser.BezierParser.ParseTokens` | bezier-parser.ts:76-93 | returns a fresh path holding the commands of the fold over the tokens, started from the parser's current state, and leaves the parser in the fold's final state |
| `Parser.BezierParser.ParseBezierPath` | bezier-parser.ts:69-94 | crashes exactly when the match is absent, without changing the state; otherwise it behaves as `ParseTokens` on the matched tokens |
| `ParserProperties.ArityTable` | bezier-parser.ts:6-16 | arity m/l 2, h/v 1, c 6, s/q 4, t 2, z 0 |
| `ParserProperties.UpperArityTable` | bezier-parser.ts:6-16 | the upper-case letters have the same arities as their lower-case letters |
| `ParserProperties.DispatchIgnoresCase` | bezier-parser.ts:32-33 | lower-casing keeps a command letter, keeps its arity, and a letter is relative exactly when it is lower case |
| `ParserProperties.RelativeLetterIsShiftedAbsolute` | bezier-parser.ts:32-57 | a lower-case letter builds the same command as its upper-case letter given the numbers with the current point added |
| `ParserProperties.StepState` | bezier-parser.ts:62-64 | after one command the current point is its end point (unchanged for z); the old cubic control point is present iff the letter was c/s and equals the command's second control point; the old quadratic one is present iff the letter was q/t and equals its control point |
| `ParserProperties.SmoothCubicFollows` | bezier-parser.ts:52-64 | an `s` right after a cubic curve reflects that curve's second control point through its end point; after anything else its first control point is the current point |
| `ParserProperties.SmoothQuadraticFollows` | bezier-parser.ts:55-64 | a `t` right after a quadratic curve reflects its control point through its end point; after anything else its control point is the current point |
| `ParserProperties.LetterStep` | bezier-parser.ts:80-90 | a letter token replaces the active letter and keeps the pending numbers; it emits exactly when their count is the letter's arity, and the buffer is then empty |
| `ParserProperties.NumberStep` | bezier-parser.ts:83-90 | a number token appends one element; it emits exactly when the new count is the active letter's arity, and the buffer is then empty |
| `ParserProperties.NoLetterNoCommand` | bezier-parser.ts:76-87 | before any letter, numbers only accumulate |
| `ParserProperties.RunExtends` | bezier-parser.ts:79-91 | a run keeps what was emitted before and adds at most one command per token |
| `ParserProperties.RunAppend` | bezier-parser.ts:79-91 | a run over two token lists is the run over the second from where the first left off |
| `ParserProperties.ReplayState` | bezier-parser.ts:62-64 | after a list of commands the current point is the end point of the latest non-ClosePath command, or the starting point if there is none; the old control points are the last command's |
| `ParserProperties.Continuity` | bezier-parser.ts:35-62 | the state after a parse is the replay of its output, and every emitted Line, QuadraticCurve and CubicCurve starts at the current point before it |
| `ParserProperties.OverfullBufferNeverEmits` | bezier-parser.ts:87-90 | once more than six numbers are pending, no command is emitted again and the buffer only grows |
| `ParserProperties.PartialGroup` | bezier-parser.ts:83-87 | numbers that leave the pending count below the arity only accumulate |
| `ParserProperties.EmitStep` | bezier-parser.ts:83-90 | a number that completes the pending group emits the command built from the whole group, updates the state, keeps the letter and empties the buffer |
| `ParserProperties.GroupEmitsOne` | bezier-parser.ts:87-90 | numbers that bring the pending count to the arity emit exactly one command built from all pending numbers, keep the letter, and empty the buffer |
| `ParserProperties.LetterThenGroup` | bezier-parser.ts:79-90 | a letter with nothing pending, then exactly its arity of numbers, emits one command of that letter |
| `ParserExamples.ImplicitRepetition` | bezier-parser.ts:87-90 | `M0,0 L10,10 20,20` gives a Move and two Lines, the second starting where the first ended |
| `ParserExamples.NumbersBeforeLetterCarryOver` | bezier-parser.ts:76-87 | `1 2 M` gives a Move to (1,2) |
| `ParserExamples.CloseAlone` | bezier-parser.ts:58-62 | a lone `Z` gives one ClosePath and leaves the current point unchanged |
| `ParserExamples.ParseTwiceOnOneParser` | bezier-parser.ts:23-27 | parsing `m1,2` twice on one parser gives Move(1,2) and then Move(2,4) |
| `ParserExamples.SmoothWithoutCubic` | model/bezier-commands.ts:202-206 | `M0,0 S10,10 20,20` gives a Move and a cubic curve whose first control point is the current point (0,0) |
| `ParserExamples.SmoothAfterCubic` | model/bezier-commands.ts:202-210 | `C0,0 8,2 10,10 S20,20 30,30` gives two cubic curves; the second's first control point is (12,18), the reflection of (8,2) through (10,10) |

## Left out

- `bezier-to-ui-bezier.ts`, the Swift/UIKit code emitter, is not part of this model. It is an external consumer of the path, and its output depends on JavaScript's number-to-string formatting.
- `main.ts`, the entry point with a hard-coded input and console output, is not part of this model.
- Floating point: coordinates are exact reals. Rounding of additions and of `2p - q` is not modelled, and neither is the rounding done by `parseFloat`.
- Tokenizer: the regular expressions are modelled by a hand-written scan with the same alternatives, not by JavaScript regex semantics. The replacement of newlines by spaces (`bezier-parser.ts:72`) is left out: neither character can be part of a match.
- Tokenizer.Scan: the lemmas give the tokens of a lone letter, of a lone literal and of texts joined by a separator. Tokens that touch without a separator (`M10`, `1-2`) are stated only by the definition of `Scan`.
- Tokenizer: the per-token re-tests at `bezier-parser.ts:80` and `83` become the `Letter`/`Num` split of the token type.
- Elliptical arcs are not implemented in the source (`model/bezier-commands.ts:230`).
- `makeBezierCommand` given a letter outside the table leaves `result` undefined and crashes. The letter type `CommandLetter` excludes this, since the match never yields such a letter.
- The factories require at least as many numbers as they read. In JavaScript, a shorter array would give `undefined` coordinates in the absolute branches and `NaN` coordinates in the relative ones. The parser passes exactly the arity.
- `Parser.BezierParser.ParseTokens`: requires a non-empty token list. The only caller is the match, whose `null` result is the crash that `ParseBezierPath` models.
- Object identity of commands and points is not modelled. The source shares `Point` objects between commands (a start point is the previous end point object); the model uses values, and nothing in the source mutates them.
