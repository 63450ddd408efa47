/**
 * Properties of the command builder: the arity table and the dispatch, the
 * state after one command, the emission rule of the fold, and what holds of
 * a whole run (continuity, order, the carried-over numbers).
 */
module ParserProperties {
  import opened Options
  import opened Commands
  import opened Tokenizer
  import opened Parser

  // ---------------------------------------------------------------- table and dispatch

  /** The arity of every lower-case command letter. */
  lemma ArityTable()
    ensures Arity('m') == 2 && Arity('l') == 2 && Arity('h') == 1 && Arity('v') == 1
    ensures Arity('c') == 6 && Arity('s') == 4 && Arity('q') == 4 && Arity('t') == 2
    ensures Arity('z') == 0
  {
  }

  /** An upper-case letter has the arity of its lower-case letter. */
  lemma UpperArityTable()
    ensures Arity('M') == 2 && Arity('L') == 2 && Arity('H') == 1 && Arity('V') == 1
    ensures Arity('C') == 6 && Arity('S') == 4 && Arity('Q') == 4 && Arity('T') == 2
    ensures Arity('Z') == 0
  {
  }

  /** Lower-casing keeps a command letter a command letter, and the arity
      and the kind of command built depend on the lower-cased letter only;
      a letter is relative exactly when it is lower case. */
  lemma DispatchIgnoresCase(c: CommandLetter)
    ensures IsCommandLetter(ToLower(c))
    ensures Arity(ToLower(c)) == Arity(c)
    ensures IsRelative(c) <==> 'a' <= c <= 'z'
  {
  }

  /** The switch of the dispatch, key by key: which factory each lower-cased
      letter calls, and that it is given the letter's relative flag. */
  lemma DispatchTable(s: ParserState, command: CommandLetter, numbers: seq<real>)
    requires |numbers| >= Arity(command)
    ensures ToLower(command) == 'm' ==>
              CommandFor(s, command, numbers).destinationPoint
              == ReadPoint(s.currentPoint, numbers, 0, IsRelative(command))
    ensures ToLower(command) == 'l' ==>
              CommandFor(s, command, numbers).endPoint
              == ReadPoint(s.currentPoint, numbers, 0, IsRelative(command))
    ensures ToLower(command) == 'h' ==>
              CommandFor(s, command, numbers).endPoint
              == Point(if IsRelative(command) then s.currentPoint.x + numbers[0] else numbers[0], s.currentPoint.y)
    ensures ToLower(command) == 'v' ==>
              CommandFor(s, command, numbers).endPoint
              == Point(s.currentPoint.x, if IsRelative(command) then s.currentPoint.y + numbers[0] else numbers[0])
    ensures ToLower(command) == 'c' ==>
              var r := CommandFor(s, command, numbers);
              r.controlPoint1 == ReadPoint(s.currentPoint, numbers, 0, IsRelative(command))
              && r.controlPoint2 == ReadPoint(s.currentPoint, numbers, 2, IsRelative(command))
              && r.endPoint == ReadPoint(s.currentPoint, numbers, 4, IsRelative(command))
    ensures ToLower(command) == 'q' ==>
              var r := CommandFor(s, command, numbers);
              r.controlPoint == ReadPoint(s.currentPoint, numbers, 0, IsRelative(command))
              && r.endPoint == ReadPoint(s.currentPoint, numbers, 2, IsRelative(command))
    ensures ToLower(command) == 's' ==>
              var r := CommandFor(s, command, numbers);
              r.controlPoint1 == ImpliedControl(s.currentPoint, s.oldCubicControlPoint)
              && r.controlPoint2 == ReadPoint(s.currentPoint, numbers, 0, IsRelative(command))
              && r.endPoint == ReadPoint(s.currentPoint, numbers, 2, IsRelative(command))
    ensures ToLower(command) == 't' ==>
              var r := CommandFor(s, command, numbers);
              r.controlPoint == ImpliedControl(s.currentPoint, s.oldQuadraticControlPoint)
              && r.endPoint == ReadPoint(s.currentPoint, numbers, 0, IsRelative(command))
  {
  }

  /** The numbers an upper-case (absolute) letter must be given to build the
      same command as lower-case `key` with `numbers`. */
  function AbsoluteNumbers(key: char, p: Point, numbers: seq<real>): seq<real>
  {
    if key == 'h' && numbers != [] then [numbers[0] + p.x] + numbers[1..]
    else if key == 'v' && numbers != [] then [numbers[0] + p.y] + numbers[1..]
    else Absolute(p, numbers)
  }

  /** A relative letter builds the same command as its upper-case letter fed
      the offsets already added to the current point. */
  lemma RelativeLetterIsShiftedAbsolute(s: ParserState, upper: CommandLetter, numbers: seq<real>)
    requires 'A' <= upper <= 'Z'
    requires |numbers| >= Arity(upper)
    ensures IsCommandLetter(ToLower(upper))
    ensures CommandFor(s, ToLower(upper), numbers)
            == CommandFor(s, upper, AbsoluteNumbers(ToLower(upper), s.currentPoint, numbers))
  {
    var key := ToLower(upper);
    var p := s.currentPoint;
    RelativeIsShiftedAbsolute(p, numbers, s.oldCubicControlPoint);
    RelativeIsShiftedAbsolute(p, numbers, s.oldQuadraticControlPoint);
    if key == 'h' {
      RelativeAxisIsShiftedAbsolute(p, numbers[0]);
    } else if key == 'v' {
      RelativeAxisIsShiftedAbsolute(p, numbers[0]);
    }
  }

  // ---------------------------------------------------------------- one command

  /** After `makeBezierCommand` the current point is the command's end point,
      or is unchanged for `z`; the old cubic control point is present exactly
      after `c`/`s` and is the command's second control point; the old
      quadratic one is present exactly after `q`/`t` and is its control point. */
  lemma StepState(s: ParserState, command: CommandLetter, numbers: seq<real>)
    requires |numbers| >= Arity(command)
    ensures var r := CommandFor(s, command, numbers);
            var t := After(s, r);
            (ToLower(command) == 'z' ==> t.currentPoint == s.currentPoint)
            && (ToLower(command) != 'z' ==> r.GetEndPoint() == Some(t.currentPoint))
            && (t.oldCubicControlPoint.Some? <==> ToLower(command) in "cs")
            && (t.oldCubicControlPoint.Some? ==> t.oldCubicControlPoint.value == r.controlPoint2)
            && (t.oldQuadraticControlPoint.Some? <==> ToLower(command) in "qt")
            && (t.oldQuadraticControlPoint.Some? ==> t.oldQuadraticControlPoint.value == r.controlPoint)
  {
  }

  /** An `s` right after a cubic curve reflects that curve's second control
      point through its end point; after any other command it starts its
      first control point at the current point. */
  lemma SmoothCubicFollows(s: ParserState, previous: Command, command: CommandLetter, numbers: seq<real>)
    requires ToLower(command) == 's' && |numbers| >= 4
    ensures var t := After(s, previous);
            var r := CommandFor(t, command, numbers);
            r.CubicCurve?
            && r.controlPoint1 == (if previous.CubicCurve? then Reflect(previous.endPoint, previous.controlPoint2)
                                   else t.currentPoint)
  {
    var t := After(s, previous);
    if previous.CubicCurve? {
      SmoothControlPointIsReflection(t.currentPoint, previous.controlPoint2, numbers, IsRelative(command));
    }
  }

  /** The same rule for `t` and the quadratic control point. */
  lemma SmoothQuadraticFollows(s: ParserState, previous: Command, command: CommandLetter, numbers: seq<real>)
    requires ToLower(command) == 't' && |numbers| >= 2
    ensures var t := After(s, previous);
            var r := CommandFor(t, command, numbers);
            r.QuadraticCurve?
            && r.controlPoint == (if previous.QuadraticCurve? then Reflect(previous.endPoint, previous.controlPoint)
                                  else t.currentPoint)
  {
    var t := After(s, previous);
    if previous.QuadraticCurve? {
      SmoothControlPointIsReflection(t.currentPoint, previous.controlPoint, numbers, IsRelative(command));
    }
  }

  // ---------------------------------------------------------------- one token

  /** A letter token replaces the active letter and keeps the pending numbers;
      a command is emitted (and the buffer emptied) exactly when their count
      is the new letter's arity. */
  lemma LetterStep(acc: Acc, c: CommandLetter)
    ensures var a := Consume(acc, Letter(c));
            a.active == Some(c)
            && (|acc.buffer| == Arity(c) ==>
                  a.buffer == []
                  && a.out == acc.out + [CommandFor(acc.state, c, acc.buffer)]
                  && a.state == After(acc.state, a.out[|a.out| - 1]))
            && (|acc.buffer| != Arity(c) ==>
                  a.buffer == acc.buffer && a.out == acc.out && a.state == acc.state)
  {
  }

  /** A number token appends to the pending numbers and keeps the active
      letter; a command is emitted (and the buffer emptied) exactly when the
      new count is the active letter's arity. */
  lemma NumberStep(acc: Acc, v: real)
    ensures var a := Consume(acc, Num(v));
            var pending := acc.buffer + [v];
            a.active == acc.active
            && (Ready(acc.active, pending) ==>
                  a.buffer == []
                  && a.out == acc.out + [CommandFor(acc.state, acc.active.value, pending)]
                  && a.state == After(acc.state, a.out[|a.out| - 1]))
            && (!Ready(acc.active, pending) ==>
                  a.buffer == pending && a.out == acc.out && a.state == acc.state)
  {
  }

  /** Numbers read before any letter only accumulate. */
  lemma NoLetterNoCommand(acc: Acc, v: real)
    requires acc.active.None?
    ensures Consume(acc, Num(v)) == acc.(buffer := acc.buffer + [v])
  {
  }

  // ---------------------------------------------------------------- whole runs

  lemma RunSnoc(acc: Acc, tokens: seq<Token>, t: Token)
    ensures Run(acc, tokens + [t]) == Consume(Run(acc, tokens), t)
  {
    assert (tokens + [t])[..|tokens|] == tokens;
  }

  /** The output only grows, by at most one command per token, and keeps what
      was emitted before. */
  lemma {:induction false} RunExtends(acc: Acc, tokens: seq<Token>)
    ensures var a := Run(acc, tokens);
            |acc.out| <= |a.out| <= |acc.out| + |tokens| && a.out[..|acc.out|] == acc.out
    decreases |tokens|
  {
    if tokens != [] {
      var prefix := tokens[..|tokens| - 1];
      RunExtends(acc, prefix);
      var b := Run(acc, prefix);
      assert Run(acc, tokens) == Consume(b, tokens[|tokens| - 1]);
      assert b.out[..|acc.out|] == acc.out;
      assert Consume(b, tokens[|tokens| - 1]).out[..|b.out|] == b.out;
    }
  }

  /** The parser state after a list of commands, replaying `After`. */
  function Replay(s0: ParserState, cmds: seq<Command>): ParserState
    decreases |cmds|
  {
    if cmds == [] then s0 else After(Replay(s0, cmds[..|cmds| - 1]), cmds[|cmds| - 1])
  }

  /** The current point after a list of commands is the end point of the
      latest command that is not a ClosePath, or the starting one when every
      command is a ClosePath; the old control points are those of the last
      command. */
  lemma {:induction false} ReplayState(s0: ParserState, cmds: seq<Command>)
    ensures (forall k | 0 <= k < |cmds| :: cmds[k].ClosePath?) ==> Replay(s0, cmds).currentPoint == s0.currentPoint
    ensures forall j | 0 <= j < |cmds| && !cmds[j].ClosePath? && (forall k | j < k < |cmds| :: cmds[k].ClosePath?) ::
              cmds[j].GetEndPoint() == Some(Replay(s0, cmds).currentPoint)
    ensures cmds != [] ==> Replay(s0, cmds).oldCubicControlPoint == cmds[|cmds| - 1].GetControlPoint2()
                           && Replay(s0, cmds).oldQuadraticControlPoint == cmds[|cmds| - 1].GetControlPoint()
    decreases |cmds|
  {
    if cmds != [] {
      var n := |cmds| - 1;
      var prefix := cmds[..n];
      ReplayState(s0, prefix);
      assert forall k | 0 <= k < n :: prefix[k] == cmds[k];
      forall j | 0 <= j < |cmds| && !cmds[j].ClosePath? && (forall k | j < k < |cmds| :: cmds[k].ClosePath?)
        ensures cmds[j].GetEndPoint() == Some(Replay(s0, cmds).currentPoint)
      {
        if j < n {
          assert cmds[n].ClosePath?;
          assert prefix[j] == cmds[j];
          assert forall k | j < k < n :: prefix[k].ClosePath?;
        }
      }
    }
  }

  /** The fold keeps its state equal to the replay of what it emitted, and
      every emitted command starts at the current point before it. */
  ghost predicate Coherent(s0: ParserState, acc: Acc)
  {
    acc.state == Replay(s0, acc.out)
    && forall k | 0 <= k < |acc.out| :: StartsAt(acc.out[k], Replay(s0, acc.out[..k]).currentPoint)
  }

  lemma ConsumeCoherent(s0: ParserState, acc: Acc, t: Token)
    requires Coherent(s0, acc)
    ensures Coherent(s0, Consume(acc, t))
  {
    var a := Consume(acc, t);
    if a.out != acc.out {
      assert a.out[..|a.out| - 1] == acc.out;
      forall k | 0 <= k < |a.out|
        ensures StartsAt(a.out[k], Replay(s0, a.out[..k]).currentPoint)
      {
        if k < |acc.out| {
          assert a.out[..k] == acc.out[..k];
        }
      }
    }
  }

  lemma {:induction false} RunCoherent(s0: ParserState, acc: Acc, tokens: seq<Token>)
    requires Coherent(s0, acc)
    ensures Coherent(s0, Run(acc, tokens))
    decreases |tokens|
  {
    if tokens != [] {
      RunCoherent(s0, acc, tokens[..|tokens| - 1]);
      ConsumeCoherent(s0, Run(acc, tokens[..|tokens| - 1]), tokens[|tokens| - 1]);
    }
  }

  /** Continuity of a parse: the final state is the replay of the emitted
      commands, and each emitted Line, QuadraticCurve and CubicCurve starts
      where the commands before it left the current point. */
  lemma Continuity(s0: ParserState, tokens: seq<Token>)
    ensures var a := Run(Start(s0), tokens);
            a.state == Replay(s0, a.out)
            && forall k | 0 <= k < |a.out| :: StartsAt(a.out[k], Replay(s0, a.out[..k]).currentPoint)
  {
    RunCoherent(s0, Start(s0), tokens);
  }

  /** Once more numbers are pending than any letter needs, nothing is ever
      emitted again: the buffer is never cleared and only grows. */
  lemma {:induction false} OverfullBufferNeverEmits(acc: Acc, tokens: seq<Token>)
    requires |acc.buffer| > 6
    ensures var a := Run(acc, tokens);
            a.out == acc.out && a.state == acc.state && |a.buffer| >= |acc.buffer|
    decreases |tokens|
  {
    if tokens != [] {
      OverfullBufferNeverEmits(acc, tokens[..|tokens| - 1]);
    }
  }
  /** A run over two lists of tokens is the run over the second from where
      the first left off. */
  lemma {:induction false} RunAppend(acc: Acc, first: seq<Token>, second: seq<Token>)
    ensures Run(acc, first + second) == Run(Run(acc, first), second)
    decreases |second|
  {
    if second == [] {
      assert first + second == first;
    } else {
      var n := |second| - 1;
      RunAppend(acc, first, second[..n]);
      assert (first + second)[..|first + second| - 1] == first + second[..n];
    }
  }

  /** Number tokens carrying `values`. */
  function Nums(values: seq<real>): (r: seq<Token>)
    ensures |r| == |values|
    ensures forall i | 0 <= i < |r| :: r[i] == Num(values[i])
  {
    seq(|values|, i requires 0 <= i < |values| => Num(values[i]))
  }

  lemma AppendLast(pending: seq<real>, values: seq<real>)
    requires values != []
    ensures pending + values[..|values| - 1] + [values[|values| - 1]] == pending + values
  {
    assert values[..|values| - 1] + [values[|values| - 1]] == values;
  }

  /** Numbers that leave the pending count below the arity only accumulate. */
  lemma {:induction false} PartialGroup(acc: Acc, values: seq<real>)
    requires acc.active.Some? && |acc.buffer| + |values| < Arity(acc.active.value)
    ensures Run(acc, Nums(values)) == acc.(buffer := acc.buffer + values)
    decreases |values|
  {
    if values == [] {
      assert acc.buffer + values == acc.buffer;
    } else {
      var n := |values| - 1;
      PartialGroup(acc, values[..n]);
      assert Nums(values)[..n] == Nums(values[..n]);
      var a := acc.(buffer := acc.buffer + values[..n]);
      AppendLast(acc.buffer, values);
      NumberStep(a, values[n]);
      assert Run(acc, Nums(values)) == Consume(a, Num(values[n]));
    }
  }

  /** A number that completes the pending group emits its command. */
  lemma EmitStep(a: Acc, v: real)
    requires Ready(a.active, a.buffer + [v])
    ensures var cmd := CommandFor(a.state, a.active.value, a.buffer + [v]);
            Consume(a, Num(v)) == Acc(After(a.state, cmd), a.active, [], a.out + [cmd])
  {
  }

  /** Numbers that bring the pending count up to the active letter's arity
      emit exactly one command, built from all the pending numbers, and leave
      the buffer empty with the letter still active: the rule that turns a
      repeated group into another command of the same letter. */
  lemma GroupEmitsOne(acc: Acc, values: seq<real>)
    requires acc.active.Some? && values != [] && |acc.buffer| + |values| == Arity(acc.active.value)
    ensures var cmd := CommandFor(acc.state, acc.active.value, acc.buffer + values);
            Run(acc, Nums(values)) == Acc(After(acc.state, cmd), acc.active, [], acc.out + [cmd])
  {
    var n := |values| - 1;
    var front := values[..n];
    PartialGroup(acc, front);
    assert Nums(values)[..n] == Nums(front);
    var a := acc.(buffer := acc.buffer + front);
    AppendLast(acc.buffer, values);
    EmitStep(a, values[n]);
    assert Run(acc, Nums(values)) == Consume(a, Num(values[n]));
  }
  /** A letter read with nothing pending, followed by exactly its arity of
      numbers, emits one command of that letter built from those numbers. */
  lemma LetterThenGroup(acc: Acc, c: CommandLetter, values: seq<real>)
    requires acc.buffer == [] && values != [] && |values| == Arity(c)
    ensures var cmd := CommandFor(acc.state, c, values);
            Run(acc, [Letter(c)] + Nums(values)) == Acc(After(acc.state, cmd), Some(c), [], acc.out + [cmd])
  {
    RunAppend(acc, [Letter(c)], Nums(values));
    RunSnoc(acc, [], Letter(c));
    assert [] + [Letter(c)] == [Letter(c)];
    LetterStep(acc, c);
    GroupEmitsOne(acc.(active := Some(c)), values);
    assert [] + values == values;
  }
}
