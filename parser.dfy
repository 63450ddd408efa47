/**
 * The stateful command builder: the arity table, the dispatch on the
 * lower-cased letter, the state update after every command, the fold over the
 * tokens that groups numbers by arity, and the parser object.
 */
module Parser {
  import opened Options
  import opened Commands
  import opened Paths
  import opened Tokenizer

  /** ASCII lower-casing, which is all the command letters need. */
  function ToLower(c: char): (r: char)
    ensures !('A' <= r <= 'Z')
    ensures 'A' <= c <= 'Z' ==> 'a' <= r <= 'z' && r as int - c as int == 32
    ensures !('A' <= c <= 'Z') ==> r == c
  {
    if 'A' <= c <= 'Z' then (c as int + 32) as char else c
  }

  /** The `numbersForCommand` table, keyed by lower-case letter; absent for
      every other key (the source's `undefined`). */
  function NumbersForCommand(key: char): (r: Option<nat>)
    ensures r.Some? <==> key in "mlhvcsqtz"
  {
    if key == 'm' || key == 'l' then Some(2)
    else if key == 'h' || key == 'v' then Some(1)
    else if key == 'c' then Some(6)
    else if key == 's' || key == 'q' then Some(4)
    else if key == 't' then Some(2)
    else if key == 'z' then Some(0)
    else None
  }

  /** The number of numbers a command letter needs, whatever its case. */
  function Arity(command: CommandLetter): (r: nat)
    ensures NumbersForCommand(ToLower(command)) == Some(r)
    ensures r <= 6
  {
    assert ToLower(command) in "mlhvcsqtz";
    NumbersForCommand(ToLower(command)).value
  }

  /** Lower-case letters are the relative ones. */
  predicate IsRelative(command: CommandLetter)
    ensures IsRelative(command) <==> 'a' <= command <= 'z'
  {
    command == ToLower(command)
  }

  /** The three fields of the parser. */
  datatype ParserState = ParserState(currentPoint: Point,
                                     oldCubicControlPoint: Option<Point>,
                                     oldQuadraticControlPoint: Option<Point>)

  /** The state of a new parser: at the origin, with no old control point. */
  const Initial := ParserState(Point(0.0, 0.0), None, None)

  /** The command `makeBezierCommand` builds from `command` and `numbers` in
      state `s`: the switch on the lower-cased letter. */
  function CommandFor(s: ParserState, command: CommandLetter, numbers: seq<real>): (r: Command)
    requires |numbers| >= Arity(command)
    ensures r.Move? <==> ToLower(command) == 'm'
    ensures r.Line? <==> ToLower(command) in "lhv"
    ensures r.QuadraticCurve? <==> ToLower(command) in "qt"
    ensures r.CubicCurve? <==> ToLower(command) in "cs"
    ensures r.ClosePath? <==> ToLower(command) == 'z'
    ensures StartsAt(r, s.currentPoint)
  {
    var isRelative := IsRelative(command);
    var key := ToLower(command);
    if key == 'm' then MoveFromNumbers(s.currentPoint, numbers, isRelative)
    else if key == 'l' then LineFromNumbers(s.currentPoint, numbers, isRelative)
    else if key == 'v' then LineVertical(s.currentPoint, numbers[0], isRelative)
    else if key == 'h' then LineHorizontal(s.currentPoint, numbers[0], isRelative)
    else if key == 'c' then CubicFromNumbers(s.currentPoint, numbers, isRelative)
    else if key == 'q' then QuadraticFromNumbers(s.currentPoint, numbers, isRelative)
    else if key == 's' then
      CubicFromNumbersAndOldControlPoint2(s.currentPoint, s.oldCubicControlPoint, numbers, isRelative)
    else if key == 't' then
      QuadraticFromNumbersAndOldControlPoint(s.currentPoint, s.oldQuadraticControlPoint, numbers, isRelative)
    else ClosePath
  }

  /** The state after a command: its end point if it has one, and its control
      points as the old control points. */
  function After(s: ParserState, r: Command): (t: ParserState)
    ensures r.ClosePath? ==> t.currentPoint == s.currentPoint
    ensures !r.ClosePath? ==> Some(t.currentPoint) == r.GetEndPoint()
    ensures t.oldCubicControlPoint.Some? <==> r.CubicCurve?
    ensures t.oldQuadraticControlPoint.Some? <==> r.QuadraticCurve?
  {
    ParserState(r.GetEndPoint().GetOr(s.currentPoint), r.GetControlPoint2(), r.GetControlPoint())
  }

  /** What the fold over the tokens carries: the parser state, the active
      letter (None before the first letter, the source's ""), the pending
      numbers and the commands emitted so far. */
  datatype Acc = Acc(state: ParserState, active: Option<CommandLetter>, buffer: seq<real>, out: seq<Command>)

  function Start(s: ParserState): Acc
  {
    Acc(s, None, [], [])
  }

  /** Whether the pending numbers complete a command: their count equals the
      arity of the active letter. With no active letter the table lookup is
      undefined and the comparison is false. */
  predicate Ready(active: Option<CommandLetter>, buffer: seq<real>)
    ensures active.None? ==> !Ready(active, buffer)
    ensures Ready(active, buffer) ==> |buffer| <= 6
  {
    active.Some? && |buffer| == Arity(active.value)
  }

  /** One step of the fold: a letter replaces the active letter, a number is
      appended; then a command is emitted and the buffer cleared when ready. */
  function Consume(acc: Acc, t: Token): (r: Acc)
    ensures r.active == (if t.Letter? then Some(t.c) else acc.active)
  {
    var active := if t.Letter? then Some(t.c) else acc.active;
    var buffer := if t.Num? then acc.buffer + [t.value] else acc.buffer;
    if Ready(active, buffer) then
      var cmd := CommandFor(acc.state, active.value, buffer);
      Acc(After(acc.state, cmd), active, [], acc.out + [cmd])
    else
      Acc(acc.state, active, buffer, acc.out)
  }

  /** The fold over a list of tokens. */
  function Run(acc: Acc, tokens: seq<Token>): (r: Acc)
    decreases |tokens|
  {
    if tokens == [] then acc
    else
      Consume(Run(acc, tokens[..|tokens| - 1]), tokens[|tokens| - 1])
  }

  /** The result of parsing a string: the path, or the crash on an input
      that holds no token. */
  datatype ParseResult = Parsed(path: BezierPath) | Crashed

  class BezierParser {
    var currentPoint: Point
    var oldCubicControlPoint: Option<Point>
    var oldQuadraticControlPoint: Option<Point>

    function Current(): ParserState
      reads this
    {
      ParserState(currentPoint, oldCubicControlPoint, oldQuadraticControlPoint)
    }

    constructor ()
      ensures Current() == Initial
    {
      currentPoint := Point(0.0, 0.0);
      oldCubicControlPoint := None;
      oldQuadraticControlPoint := None;
    }

    /** Builds the command for `command` from `numbers` and moves the state
        past it. */
    method MakeBezierCommand(command: CommandLetter, numbers: seq<real>) returns (result: Command)
      requires |numbers| >= Arity(command)
      modifies this
      ensures result == CommandFor(old(Current()), command, numbers)
      ensures Current() == After(old(Current()), result)
    {
      result := CommandFor(Current(), command, numbers);
      currentPoint := result.GetEndPoint().GetOr(currentPoint);
      oldCubicControlPoint := result.GetControlPoint2();
      oldQuadraticControlPoint := result.GetControlPoint();
    }

    /** The fold of `parseBezierPath` over a token list the match produced
        (which is never empty). The state is not reset first: the parse goes
        on from wherever the previous one left this parser. */
    method ParseTokens(tokens: seq<Token>) returns (result: BezierPath)
      requires tokens != []
      modifies this
      ensures fresh(result)
      ensures result.path == Run(Start(old(Current())), tokens).out
      ensures Current() == Run(Start(old(Current())), tokens).state
    {
      ghost var s0 := Current();
      result := new BezierPath();
      var currentCommand: Option<CommandLetter> := None;
      var currentNumbers: seq<real> := [];
      var i := 0;
      while i < |tokens|
        invariant 0 <= i <= |tokens|
        invariant Run(Start(s0), tokens[..i]) == Acc(Current(), currentCommand, currentNumbers, result.path)
      {
        assert tokens[..i + 1][..i] == tokens[..i];
        var token := tokens[i];
        match token {
          case Letter(c) => currentCommand := Some(c);
          case Num(v) => currentNumbers := currentNumbers + [v];
        }
        if currentCommand.Some? && |currentNumbers| == Arity(currentCommand.value) {
          var cmd := MakeBezierCommand(currentCommand.value, currentNumbers);
          result.Add(cmd);
          currentNumbers := [];
        }
        i := i + 1;
      }
      assert tokens[..|tokens|] == tokens;
    }

    /** `parseBezierPath`: tokenize, crash when nothing matched, else fold. */
    method ParseBezierPath(bezierString: string) returns (result: ParseResult)
      modifies this
      ensures result.Crashed? <==> Match(bezierString).None?
      ensures result.Crashed? ==> Current() == old(Current())
      ensures result.Parsed? ==>
                fresh(result.path)
                && result.path.path == Run(Start(old(Current())), Match(bezierString).value).out
                && Current() == Run(Start(old(Current())), Match(bezierString).value).state
    {
      var tokens := Match(bezierString);
      if tokens.None? {
        return Crashed;
      }
      var path := ParseTokens(tokens.value);
      result := Parsed(path);
    }
  }
}
