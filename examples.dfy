/**
 * Worked inputs, at the level of tokens, that pin down the parser's
 * behaviour on its quirks and edge cases.
 */
module ParserExamples {
  import opened Options
  import opened Commands
  import opened Paths
  import opened Tokenizer
  import opened Parser
  import opened ParserProperties

  const MoveTokens: seq<Token> := [Letter('M'), Num(0.0), Num(0.0)]
  const LineTokens: seq<Token> := [Letter('L'), Num(10.0), Num(10.0)]
  const AgainTokens: seq<Token> := [Num(20.0), Num(20.0)]

  lemma MoveStage()
    ensures Run(Start(Initial), MoveTokens)
            == Acc(ParserState(Point(0.0, 0.0), None, None), Some('M'), [], [Move(Point(0.0, 0.0))])
  {
    assert [Letter('M')] + Nums([0.0, 0.0]) == MoveTokens;
    LetterThenGroup(Start(Initial), 'M', [0.0, 0.0]);
  }

  lemma LineStage(a: Acc)
    requires a.state.currentPoint == Point(0.0, 0.0) && a.buffer == []
    ensures Run(a, LineTokens)
            == Acc(ParserState(Point(10.0, 10.0), None, None), Some('L'), [],
                   a.out + [Line(Point(0.0, 0.0), Point(10.0, 10.0))])
  {
    assert [Letter('L')] + Nums([10.0, 10.0]) == LineTokens;
    LetterThenGroup(a, 'L', [10.0, 10.0]);
  }

  lemma AgainStage(a: Acc)
    requires a.state.currentPoint == Point(10.0, 10.0) && a.buffer == [] && a.active == Some('L')
    ensures Run(a, AgainTokens).out == a.out + [Line(Point(10.0, 10.0), Point(20.0, 20.0))]
  {
    assert Nums([20.0, 20.0]) == AgainTokens;
    GroupEmitsOne(a, [20.0, 20.0]);
    assert [] + [20.0, 20.0] == [20.0, 20.0];
  }

  /** "M0,0 L10,10 20,20": the repeated pair is a second Line, starting
      where the first one ended. */
  lemma ImplicitRepetition()
    ensures Run(Start(Initial), MoveTokens + LineTokens + AgainTokens).out
            == [Move(Point(0.0, 0.0)),
                Line(Point(0.0, 0.0), Point(10.0, 10.0)),
                Line(Point(10.0, 10.0), Point(20.0, 20.0))]
  {
    var a0 := Start(Initial);
    RunAppend(a0, MoveTokens + LineTokens, AgainTokens);
    RunAppend(a0, MoveTokens, LineTokens);
    MoveStage();
    LineStage(Run(a0, MoveTokens));
    AgainStage(Run(a0, MoveTokens + LineTokens));
  }
  /** Numbers read before any letter are not lost: "1 2 M" is a Move to (1,2). */
  lemma NumbersBeforeLetterCarryOver()
    ensures Run(Start(Initial), [Num(1.0), Num(2.0), Letter('M')]).out == [Move(Point(1.0, 2.0))]
  {
    var a0 := Start(Initial);
    RunSnoc(a0, [], Num(1.0));
    assert [] + [Num(1.0)] == [Num(1.0)];
    NoLetterNoCommand(a0, 1.0);
    var a1 := Run(a0, [Num(1.0)]);
    RunSnoc(a0, [Num(1.0)], Num(2.0));
    NoLetterNoCommand(a1, 2.0);
    var a2 := Run(a0, [Num(1.0), Num(2.0)]);
    assert a2.buffer == [1.0, 2.0];
    RunSnoc(a0, [Num(1.0), Num(2.0)], Letter('M'));
    LetterStep(a2, 'M');
  }

  /** "Z" alone is one ClosePath, and it leaves the current point where it was. */
  lemma CloseAlone(s: ParserState)
    ensures Run(Start(s), [Letter('Z')]).out == [ClosePath]
    ensures Run(Start(s), [Letter('Z')]).state.currentPoint == s.currentPoint
  {
    RunSnoc(Start(s), [], Letter('Z'));
    assert [] + [Letter('Z')] == [Letter('Z')];
    LetterStep(Start(s), 'Z');
  }

  /** "m x y" from state `s` is one Move to the current point plus (x, y). */
  lemma RelativeMoveStage(s: ParserState, x: real, y: real)
    ensures Run(Start(s), [Letter('m'), Num(x), Num(y)])
            == Acc(ParserState(Point(s.currentPoint.x + x, s.currentPoint.y + y), None, None), Some('m'), [],
                   [Move(Point(s.currentPoint.x + x, s.currentPoint.y + y))])
  {
    assert [Letter('m')] + Nums([x, y]) == [Letter('m'), Num(x), Num(y)];
    LetterThenGroup(Start(s), 'm', [x, y]);
  }

  /** The parser state is set only by the constructor: parsing "m1,2" twice
      on one parser gives Move(1,2) and then Move(2,4). */
  method ParseTwiceOnOneParser() returns (first: seq<Command>, second: seq<Command>)
    ensures first == [Move(Point(1.0, 2.0))]
    ensures second == [Move(Point(2.0, 4.0))]
  {
    var parser := new BezierParser();
    var tokens := [Letter('m'), Num(1.0), Num(2.0)];
    RelativeMoveStage(Initial, 1.0, 2.0);
    var p1 := parser.ParseTokens(tokens);
    first := p1.path;
    RelativeMoveStage(parser.Current(), 1.0, 2.0);
    var p2 := parser.ParseTokens(tokens);
    second := p2.path;
  }

  const SmoothTokens: seq<Token> := [Letter('S'), Num(10.0), Num(10.0), Num(20.0), Num(20.0)]
  const CubicTokens: seq<Token> := [Letter('C'), Num(0.0), Num(0.0), Num(8.0), Num(2.0), Num(10.0), Num(10.0)]
  const FollowTokens: seq<Token> := [Letter('S'), Num(20.0), Num(20.0), Num(30.0), Num(30.0)]

  lemma SmoothStage(a: Acc)
    requires a.state == ParserState(Point(0.0, 0.0), None, None) && a.buffer == []
    ensures Run(a, SmoothTokens).out
            == a.out + [CubicCurve(Point(0.0, 0.0), Point(0.0, 0.0), Point(10.0, 10.0), Point(20.0, 20.0))]
  {
    var numbers := [10.0, 10.0, 20.0, 20.0];
    assert [Letter('S')] + Nums(numbers) == SmoothTokens;
    LetterThenGroup(a, 'S', numbers);
    DispatchTable(a.state, 'S', numbers);
  }

  /** "M0,0 S10,10 20,20": with no cubic curve before it, the first control
      point of the `S` is the current point. */
  lemma SmoothWithoutCubic()
    ensures Run(Start(Initial), MoveTokens + SmoothTokens).out
            == [Move(Point(0.0, 0.0)),
                CubicCurve(Point(0.0, 0.0), Point(0.0, 0.0), Point(10.0, 10.0), Point(20.0, 20.0))]
  {
    var a0 := Start(Initial);
    RunAppend(a0, MoveTokens, SmoothTokens);
    MoveStage();
    SmoothStage(Run(a0, MoveTokens));
  }

  lemma CubicStage()
    ensures Run(Start(Initial), CubicTokens)
            == Acc(ParserState(Point(10.0, 10.0), Some(Point(8.0, 2.0)), None), Some('C'), [],
                   [CubicCurve(Point(0.0, 0.0), Point(0.0, 0.0), Point(8.0, 2.0), Point(10.0, 10.0))])
  {
    var numbers := [0.0, 0.0, 8.0, 2.0, 10.0, 10.0];
    assert [Letter('C')] + Nums(numbers) == CubicTokens;
    LetterThenGroup(Start(Initial), 'C', numbers);
    DispatchTable(Initial, 'C', numbers);
  }

  lemma FollowStage(a: Acc)
    requires a.state == ParserState(Point(10.0, 10.0), Some(Point(8.0, 2.0)), None) && a.buffer == []
    ensures Run(a, FollowTokens).out
            == a.out + [CubicCurve(Point(10.0, 10.0), Point(12.0, 18.0), Point(20.0, 20.0), Point(30.0, 30.0))]
  {
    var numbers := [20.0, 20.0, 30.0, 30.0];
    assert [Letter('S')] + Nums(numbers) == FollowTokens;
    LetterThenGroup(a, 'S', numbers);
    DispatchTable(a.state, 'S', numbers);
  }

  /** "C0,0 8,2 10,10 S20,20 30,30": the `S` reflects the second control
      point (8,2) of the cubic curve through its end point (10,10), which
      gives the first control point (12,18). */
  lemma SmoothAfterCubic()
    ensures Run(Start(Initial), CubicTokens + FollowTokens).out
            == [CubicCurve(Point(0.0, 0.0), Point(0.0, 0.0), Point(8.0, 2.0), Point(10.0, 10.0)),
                CubicCurve(Point(10.0, 10.0), Point(12.0, 18.0), Point(20.0, 20.0), Point(30.0, 30.0))]
  {
    var a0 := Start(Initial);
    RunAppend(a0, CubicTokens, FollowTokens);
    CubicStage();
    FollowStage(Run(a0, CubicTokens));
  }
}
