/** The parser's output: an append-only, ordered list of commands. */
module Paths {
  import opened Commands

  class BezierPath {
    var path: seq<Command>

    /** A new path holds no command. */
    constructor ()
      ensures path == []
    {
      path := [];
    }

    /** Appends one command at the end; the earlier commands stay as they were. */
    method Add(bezierElement: Command)
      modifies this
      ensures path == old(path) + [bezierElement]
      ensures |path| == |old(path)| + 1 && path[|path| - 1] == bezierElement
      ensures forall i | 0 <= i < |old(path)| :: path[i] == old(path)[i]
    {
      path := path + [bezierElement];
    }
  }

  /** A fresh path that receives `elements` one `Add` at a time holds exactly
      those elements, in call order. */
  method AddAll(elements: seq<Command>) returns (p: BezierPath)
    ensures fresh(p) && p.path == elements
  {
    p := new BezierPath();
    for i := 0 to |elements|
      invariant p.path == elements[..i]
    {
      p.Add(elements[i]);
      assert elements[..i + 1] == elements[..i] + [elements[i]];
    }
    assert elements[..|elements|] == elements;
  }
}
