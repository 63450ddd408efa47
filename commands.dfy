/**
 * The drawing commands of a path (Move, Line, QuadraticCurve, CubicCurve,
 * ClosePath), their uniform accessors and the static factories that resolve a
 * list of numbers against the current point.
 */
module Commands {
  import opened Options

  /** A point with exact real coordinates (the source uses doubles). */
  datatype Point = Point(x: real, y: real)

  /** The point `p` moved by `(dx, dy)`. */
  function Offset(p: Point, dx: real, dy: real): Point
  {
    Point(p.x + dx, p.y + dy)
  }

  /** The reflection `2p - q` of `q` through `p`. */
  function Reflect(p: Point, q: Point): (r: Point)
    ensures p.x - q.x == r.x - p.x && p.y - q.y == r.y - p.y
  {
    Point(2.0 * p.x - q.x, 2.0 * p.y - q.y)
  }

  /** The point a factory reads from `numbers[i]` and `numbers[i + 1]`: an
      offset from the current point `p` when relative, the numbers themselves
      otherwise. */
  function ReadPoint(p: Point, numbers: seq<real>, i: nat, isRelative: bool): Point
    requires i + 1 < |numbers|
  {
    if isRelative then Offset(p, numbers[i], numbers[i + 1]) else Point(numbers[i], numbers[i + 1])
  }

  /** The control point a smooth curve implies at `p`: the reflection of the
      previous one, or `p` itself when there is none. */
  function ImpliedControl(p: Point, previous: Option<Point>): Point
  {
    if previous.None? then p else Reflect(p, previous.value)
  }

  /** The closed family of commands; every variant keeps only its own points. */
  datatype Command =
    | Move(destinationPoint: Point)
    | Line(startPoint: Point, endPoint: Point)
    | QuadraticCurve(startPoint: Point, controlPoint: Point, endPoint: Point)
    | CubicCurve(startPoint: Point, controlPoint1: Point, controlPoint2: Point, endPoint: Point)
    | ClosePath
  {
    /** Where the command leaves the pen; absent for ClosePath only. */
    function GetEndPoint(): (r: Option<Point>)
      ensures r.None? <==> ClosePath?
      ensures Move? ==> r == Some(destinationPoint)
      ensures (Line? || QuadraticCurve? || CubicCurve?) ==> r == Some(endPoint)
    {
      match this
      case Move(d) => Some(d)
      case Line(_, e) => Some(e)
      case QuadraticCurve(_, _, e) => Some(e)
      case CubicCurve(_, _, _, e) => Some(e)
      case ClosePath => None
    }

    /** The single control point; present for QuadraticCurve only. */
    function GetControlPoint(): (r: Option<Point>)
      ensures r.Some? <==> QuadraticCurve?
      ensures QuadraticCurve? ==> r == Some(controlPoint)
    {
      if QuadraticCurve? then Some(controlPoint) else None
    }

    /** The second control point; present for CubicCurve only. */
    function GetControlPoint2(): (r: Option<Point>)
      ensures r.Some? <==> CubicCurve?
      ensures CubicCurve? ==> r == Some(controlPoint2)
    {
      if CubicCurve? then Some(controlPoint2) else None
    }
  }

  /** The command starts at `p`, when it is a variant that records a start point. */
  predicate StartsAt(c: Command, p: Point)
  {
    (c.Line? || c.QuadraticCurve? || c.CubicCurve?) ==> c.startPoint == p
  }

  /** The numbers a relative call adds to the current point: `p.x` to the
      even positions and `p.y` to the odd ones. */
  function Absolute(p: Point, numbers: seq<real>): (r: seq<real>)
  {
    seq(|numbers|, i requires 0 <= i < |numbers| => numbers[i] + (if i % 2 == 0 then p.x else p.y))
  }

  // ---------------------------------------------------------------- Move

  function MoveFromNumbers(currentPoint: Point, numbers: seq<real>, isRelative: bool): (r: Command)
    requires |numbers| >= 2
    ensures r.Move?
    ensures isRelative ==>
              r.destinationPoint.x - currentPoint.x == numbers[0]
              && r.destinationPoint.y - currentPoint.y == numbers[1]
    ensures !isRelative ==> r.destinationPoint.x == numbers[0] && r.destinationPoint.y == numbers[1]
  {
    if isRelative then
      Move(Point(currentPoint.x + numbers[0], currentPoint.y + numbers[1]))
    else
      Move(Point(numbers[0], numbers[1]))
  }

  // ---------------------------------------------------------------- Line

  function LineFromNumbers(currentPoint: Point, numbers: seq<real>, isRelative: bool): (r: Command)
    requires |numbers| >= 2
    ensures r.Line? && r.startPoint == currentPoint
    ensures isRelative ==>
              r.endPoint.x - currentPoint.x == numbers[0]
              && r.endPoint.y - currentPoint.y == numbers[1]
    ensures !isRelative ==> r.endPoint.x == numbers[0] && r.endPoint.y == numbers[1]
  {
    if isRelative then
      Line(currentPoint, Point(currentPoint.x + numbers[0], currentPoint.y + numbers[1]))
    else
      Line(currentPoint, Point(numbers[0], numbers[1]))
  }

  function LineVertical(currentPoint: Point, verticalValue: real, isRelative: bool): (r: Command)
    ensures r.Line? && r.startPoint == currentPoint
    ensures r.endPoint.x == currentPoint.x
    ensures isRelative ==> r.endPoint.y - currentPoint.y == verticalValue
    ensures !isRelative ==> r.endPoint.y == verticalValue
  {
    if isRelative then
      Line(currentPoint, Point(currentPoint.x, currentPoint.y + verticalValue))
    else
      Line(currentPoint, Point(currentPoint.x, verticalValue))
  }

  function LineHorizontal(currentPoint: Point, horizontalValue: real, isRelative: bool): (r: Command)
    ensures r.Line? && r.startPoint == currentPoint
    ensures r.endPoint.y == currentPoint.y
    ensures isRelative ==> r.endPoint.x - currentPoint.x == horizontalValue
    ensures !isRelative ==> r.endPoint.x == horizontalValue
  {
    if isRelative then
      Line(currentPoint, Point(currentPoint.x + horizontalValue, currentPoint.y))
    else
      Line(currentPoint, Point(horizontalValue, currentPoint.y))
  }

  // ---------------------------------------------------------------- QuadraticCurve

  function QuadraticFromNumbers(currentPoint: Point, numbers: seq<real>, isRelative: bool): (r: Command)
    requires |numbers| >= 4
    ensures r.QuadraticCurve? && r.startPoint == currentPoint
    ensures isRelative ==>
              r.controlPoint.x - currentPoint.x == numbers[0]
              && r.controlPoint.y - currentPoint.y == numbers[1]
              && r.endPoint.x - currentPoint.x == numbers[2]
              && r.endPoint.y - currentPoint.y == numbers[3]
    ensures !isRelative ==>
              r.controlPoint == Point(numbers[0], numbers[1])
              && r.endPoint == Point(numbers[2], numbers[3])
  {
    if isRelative then
      QuadraticCurve(
        currentPoint,
        Point(currentPoint.x + numbers[0], currentPoint.y + numbers[1]),
        Point(currentPoint.x + numbers[2], currentPoint.y + numbers[3]))
    else
      QuadraticCurve(
        currentPoint,
        Point(numbers[0], numbers[1]),
        Point(numbers[2], numbers[3]))
  }

  /** The smooth quadratic (`T`): the control point is the old one reflected
      through the current point, or the current point when there is none. */
  function QuadraticFromNumbersAndOldControlPoint(currentPoint: Point, oldControlPoint: Option<Point>,
                                                  numbers: seq<real>, isRelative: bool): (r: Command)
    requires |numbers| >= 2
    ensures r.QuadraticCurve? && r.startPoint == currentPoint
    ensures oldControlPoint.None? ==> r.controlPoint == currentPoint
    ensures oldControlPoint.Some? ==>
              r.controlPoint.x + oldControlPoint.value.x == 2.0 * currentPoint.x
              && r.controlPoint.y + oldControlPoint.value.y == 2.0 * currentPoint.y
    ensures isRelative ==>
              r.endPoint.x - currentPoint.x == numbers[0]
              && r.endPoint.y - currentPoint.y == numbers[1]
    ensures !isRelative ==> r.endPoint == Point(numbers[0], numbers[1])
  {
    var controlPoint :=
      if oldControlPoint.None? then currentPoint
      else Point(2.0 * currentPoint.x - oldControlPoint.value.x, 2.0 * currentPoint.y - oldControlPoint.value.y);
    if isRelative then
      QuadraticCurve(currentPoint, controlPoint, Point(currentPoint.x + numbers[0], currentPoint.y + numbers[1]))
    else
      QuadraticCurve(currentPoint, controlPoint, Point(numbers[0], numbers[1]))
  }

  // ---------------------------------------------------------------- CubicCurve

  function CubicFromNumbers(currentPoint: Point, numbers: seq<real>, isRelative: bool): (r: Command)
    requires |numbers| >= 6
    ensures r.CubicCurve? && r.startPoint == currentPoint
    ensures isRelative ==>
              r.controlPoint1.x - currentPoint.x == numbers[0]
              && r.controlPoint1.y - currentPoint.y == numbers[1]
              && r.controlPoint2.x - currentPoint.x == numbers[2]
              && r.controlPoint2.y - currentPoint.y == numbers[3]
              && r.endPoint.x - currentPoint.x == numbers[4]
              && r.endPoint.y - currentPoint.y == numbers[5]
    ensures !isRelative ==>
              r.controlPoint1 == Point(numbers[0], numbers[1])
              && r.controlPoint2 == Point(numbers[2], numbers[3])
              && r.endPoint == Point(numbers[4], numbers[5])
  {
    if isRelative then
      CubicCurve(
        currentPoint,
        Point(currentPoint.x + numbers[0], currentPoint.y + numbers[1]),
        Point(currentPoint.x + numbers[2], currentPoint.y + numbers[3]),
        Point(currentPoint.x + numbers[4], currentPoint.y + numbers[5]))
    else
      CubicCurve(
        currentPoint,
        Point(numbers[0], numbers[1]),
        Point(numbers[2], numbers[3]),
        Point(numbers[4], numbers[5]))
  }

  /** The smooth cubic (`S`): the first control point is the old second
      control point reflected through the current point, or the current point
      when there is none. */
  function CubicFromNumbersAndOldControlPoint2(currentPoint: Point, oldControlPoint2: Option<Point>,
                                               numbers: seq<real>, isRelative: bool): (r: Command)
    requires |numbers| >= 4
    ensures r.CubicCurve? && r.startPoint == currentPoint
    ensures oldControlPoint2.None? ==> r.controlPoint1 == currentPoint
    ensures oldControlPoint2.Some? ==>
              r.controlPoint1.x + oldControlPoint2.value.x == 2.0 * currentPoint.x
              && r.controlPoint1.y + oldControlPoint2.value.y == 2.0 * currentPoint.y
    ensures isRelative ==>
              r.controlPoint2.x - currentPoint.x == numbers[0]
              && r.controlPoint2.y - currentPoint.y == numbers[1]
              && r.endPoint.x - currentPoint.x == numbers[2]
              && r.endPoint.y - currentPoint.y == numbers[3]
    ensures !isRelative ==>
              r.controlPoint2 == Point(numbers[0], numbers[1])
              && r.endPoint == Point(numbers[2], numbers[3])
  {
    var controlPoint1 :=
      if oldControlPoint2.None? then currentPoint
      else Point(2.0 * currentPoint.x - oldControlPoint2.value.x, 2.0 * currentPoint.y - oldControlPoint2.value.y);
    if isRelative then
      CubicCurve(
        currentPoint,
        controlPoint1,
        Point(currentPoint.x + numbers[0], currentPoint.y + numbers[1]),
        Point(currentPoint.x + numbers[2], currentPoint.y + numbers[3]))
    else
      CubicCurve(
        currentPoint,
        controlPoint1,
        Point(numbers[0], numbers[1]),
        Point(numbers[2], numbers[3]))
  }

  // ---------------------------------------------------------------- properties

  /** Reflecting twice through the same point gives back the original point. */
  lemma ReflectUndoesItself(p: Point, q: Point)
    ensures Reflect(p, Reflect(p, q)) == q
  {
  }

  /** The smooth factories compute their implied control point as `Reflect`. */
  lemma SmoothControlPointIsReflection(currentPoint: Point, previous: Point, numbers: seq<real>, isRelative: bool)
    requires |numbers| >= 2
    ensures QuadraticFromNumbersAndOldControlPoint(currentPoint, Some(previous), numbers, isRelative).controlPoint
            == Reflect(currentPoint, previous)
    ensures |numbers| >= 4 ==>
              CubicFromNumbersAndOldControlPoint2(currentPoint, Some(previous), numbers, isRelative).controlPoint1
              == Reflect(currentPoint, previous)
  {
  }

  /** A relative call gives the same command as an absolute call whose
      numbers are the offsets added to the current point. */
  lemma RelativeIsShiftedAbsolute(p: Point, numbers: seq<real>, previous: Option<Point>)
    ensures |numbers| >= 2 ==>
              MoveFromNumbers(p, numbers, true) == MoveFromNumbers(p, Absolute(p, numbers), false)
              && LineFromNumbers(p, numbers, true) == LineFromNumbers(p, Absolute(p, numbers), false)
              && QuadraticFromNumbersAndOldControlPoint(p, previous, numbers, true)
                 == QuadraticFromNumbersAndOldControlPoint(p, previous, Absolute(p, numbers), false)
    ensures |numbers| >= 4 ==>
              QuadraticFromNumbers(p, numbers, true) == QuadraticFromNumbers(p, Absolute(p, numbers), false)
              && CubicFromNumbersAndOldControlPoint2(p, previous, numbers, true)
                 == CubicFromNumbersAndOldControlPoint2(p, previous, Absolute(p, numbers), false)
    ensures |numbers| >= 6 ==>
              CubicFromNumbers(p, numbers, true) == CubicFromNumbers(p, Absolute(p, numbers), false)
  {
  }

  /** `h` and `v` are `H` and `V` with the one offset added to the kept axis. */
  lemma RelativeAxisIsShiftedAbsolute(p: Point, value: real)
    ensures LineHorizontal(p, value, true) == LineHorizontal(p, p.x + value, false)
    ensures LineVertical(p, value, true) == LineVertical(p, p.y + value, false)
  {
  }

  /** The relative flag changes only what is read from the numbers: start
      point and implied control point do not depend on it. */
  lemma SmoothRelativeFlagOnlyMovesReadPoints(p: Point, previous: Option<Point>, numbers: seq<real>)
    requires |numbers| >= 2
    ensures |numbers| >= 4 ==>
              var a := CubicFromNumbersAndOldControlPoint2(p, previous, numbers, true);
              var b := CubicFromNumbersAndOldControlPoint2(p, previous, numbers, false);
              a.startPoint == b.startPoint && a.controlPoint1 == b.controlPoint1
    ensures var a := QuadraticFromNumbersAndOldControlPoint(p, previous, numbers, true);
            var b := QuadraticFromNumbersAndOldControlPoint(p, previous, numbers, false);
            a.startPoint == b.startPoint && a.controlPoint == b.controlPoint
  {
  }
}
