/**
 * Path emission (src/path.rs): `add_cubics` drives a path builder through
 * a sequence of drawing commands. The builder is modelled as a log of the
 * commands it has received; what a renderer makes of them is `Drawn`.
 */
module Paths {
  import opened Geometry
  import opened Cubics
  import RoundedPolygons

  /** The calls of the `PathBuilder` interface, `build` aside. */
  datatype Command =
    | Rewind
    | MoveTo(point: Point)
    | LineTo(point: Point)
    | CubicTo(ctrl1: Point, ctrl2: Point, to: Point)
    | Close

  /** A path builder that records every command it is given. */
  class PathLog {
    var commands: seq<Command>

    constructor()
      ensures commands == []
    {
      commands := [];
    }

    method Rewind()
      modifies this
      ensures commands == old(commands) + [Command.Rewind]
    {
      commands := commands + [Command.Rewind];
    }

    method MoveTo(p: Point)
      modifies this
      ensures commands == old(commands) + [Command.MoveTo(p)]
    {
      commands := commands + [Command.MoveTo(p)];
    }

    method LineTo(p: Point)
      modifies this
      ensures commands == old(commands) + [Command.LineTo(p)]
    {
      commands := commands + [Command.LineTo(p)];
    }

    method CubicTo(ctrl1: Point, ctrl2: Point, to: Point)
      modifies this
      ensures commands == old(commands) + [Command.CubicTo(ctrl1, ctrl2, to)]
    {
      commands := commands + [Command.CubicTo(ctrl1, ctrl2, to)];
    }

    method Close()
      modifies this
      ensures commands == old(commands) + [Command.Close]
    {
      commands := commands + [Command.Close];
    }
  }

  // ---------------------------------------------------------------------
  // The command trace of add_cubics
  // ---------------------------------------------------------------------

  /** The command that draws c from wherever the pen is. */
  function Draw(c: Cubic): Command
  {
    CubicTo(c.control0, c.control1, c.anchor1)
  }

  /** One `cubic_to` per cubic, in order. */
  function CubicTos(cs: seq<Cubic>): (cmds: seq<Command>)
    ensures |cmds| == |cs|
    ensures forall k :: 0 <= k < |cs| ==> cmds[k] == Draw(cs[k])
  {
    if |cs| == 0 then []
    else CubicTos(cs[..|cs| - 1]) + [Draw(cs[|cs| - 1])]
  }

  /** The command that starts a pass: `move_to` on the first pass, `line_to` on the repeat. */
  function Opening(p: Point, again: bool): Command
  {
    if again then LineTo(p) else MoveTo(p)
  }

  /** One pass over the cubics: the opening command at the first anchor, then the cubics. */
  function Pass(cs: seq<Cubic>, again: bool): (cmds: seq<Command>)
  {
    if |cs| == 0 then [] else [Opening(cs[0].anchor0, again)] + CubicTos(cs)
  }

  /** What `add_cubics` issues, in order. */
  function Trace(cs: seq<Cubic>, repeatPath: bool, closePath: bool): (cmds: seq<Command>)
  {
    [Command.Rewind] + Pass(cs, false) + (if repeatPath then Pass(cs, true) else []) + (if closePath then [Command.Close] else [])
  }

  /** `add_cubics`. */
  method AddCubics(builder: PathLog, repeatPath: bool, closePath: bool, cubics: seq<Cubic>)
    modifies builder
    ensures builder.commands == old(builder.commands) + Trace(cubics, repeatPath, closePath)
  {
    ghost var before := builder.commands;
    ghost var head := [Command.Rewind] + Pass(cubics, false);
    ghost var second := if repeatPath then Pass(cubics, true) else [];
    ghost var closing := if closePath then [Command.Close] else [];
    builder.Rewind();
    DrawPass(builder, cubics, false);
    AppendAssociates(before, [Command.Rewind], Pass(cubics, false));
    ghost var drawn := builder.commands;
    if repeatPath {
      DrawPass(builder, cubics, true);
    }
    assert builder.commands == drawn + second;
    ghost var repeated := builder.commands;
    if closePath {
      builder.Close();
    }
    assert builder.commands == repeated + closing;
    AppendAssociates(before, head, second);
    AppendAssociates(before, head + second, closing);
  }

  lemma AppendAssociates(a: seq<Command>, b: seq<Command>, c: seq<Command>)
    ensures a + b + c == a + (b + c)
  {
  }

  /** One of the two loops of `add_cubics`, with its `first` flag. */
  method DrawPass(builder: PathLog, cubics: seq<Cubic>, again: bool)
    modifies builder
    ensures builder.commands == old(builder.commands) + Pass(cubics, again)
  {
    var first := true;
    for i := 0 to |cubics|
      invariant first <==> i == 0
      invariant builder.commands == old(builder.commands) + Pass(cubics[..i], again)
    {
      var it := cubics[i];
      if first {
        if again {
          builder.LineTo(it.anchor0);
        } else {
          builder.MoveTo(it.anchor0);
        }
        first := false;
      }
      builder.CubicTo(it.control0, it.control1, it.anchor1);
      assert cubics[..i + 1][..i] == cubics[..i];
    }
    assert cubics[..|cubics|] == cubics;
  }

  // ---------------------------------------------------------------------
  // Properties of the trace
  // ---------------------------------------------------------------------

  predicate IsDrawing(c: Command)
  {
    c.MoveTo? || c.LineTo? || c.CubicTo?
  }

  /**
   * The trace opens with `rewind`; an empty list draws nothing; a non-empty
   * one gets a `move_to` at the first anchor followed by one `cubic_to` per
   * cubic in order.
   */
  lemma TraceLayout(cs: seq<Cubic>, repeatPath: bool, closePath: bool)
    ensures var t := Trace(cs, repeatPath, closePath);
      && t[0] == Command.Rewind
      && (|cs| == 0 ==> forall k :: 0 <= k < |t| ==> !IsDrawing(t[k]))
      && (|cs| > 0 ==>
            && t[1] == MoveTo(cs[0].anchor0)
            && (forall k :: 0 <= k < |cs| ==> t[2 + k] == Draw(cs[k])))
  {
    var t := Trace(cs, repeatPath, closePath);
    var head := [Command.Rewind] + Pass(cs, false);
    var second := if repeatPath then Pass(cs, true) else [];
    var closing := if closePath then [Command.Close] else [];
    assert t == head + second + closing;
    assert t[0] == head[0];
    if |cs| == 0 {
      assert second == [] && head == [Command.Rewind];
      forall k | 0 <= k < |t|
        ensures !IsDrawing(t[k])
      {
        assert t[k] == Command.Rewind || t[k] == Command.Close;
      }
    } else {
      assert t[1] == head[1];
      forall k | 0 <= k < |cs|
        ensures t[2 + k] == Draw(cs[k])
      {
        assert t[2 + k] == head[2 + k] == Pass(cs, false)[1 + k] == CubicTos(cs)[k];
      }
    }
  }

  /** With `repeat_path`, the first pass is followed by a `line_to` back to the first anchor and a second round of `cubic_to`s. */
  lemma TraceRepeats(cs: seq<Cubic>, closePath: bool)
    requires |cs| > 0
    ensures var t := Trace(cs, true, closePath);
      && t[|cs| + 2] == LineTo(cs[0].anchor0)
      && (forall k :: 0 <= k < |cs| ==> t[|cs| + 3 + k] == Draw(cs[k]))
  {
    var t := Trace(cs, true, closePath);
    var second := Pass(cs, true);
    assert t == [Command.Rewind] + Pass(cs, false) + second + (if closePath then [Command.Close] else []);
    assert forall k :: 0 <= k < |second| ==> t[|cs| + 2 + k] == second[k];
  }

  /** There is at most one `move_to`, right after `rewind`, and the length of the trace is fixed by the flags. */
  lemma TraceCounts(cs: seq<Cubic>, repeatPath: bool, closePath: bool)
    ensures var t := Trace(cs, repeatPath, closePath);
      && (forall k :: 0 <= k < |t| && t[k].MoveTo? ==> k == 1)
      && |t| == 1 + (if |cs| == 0 then 0 else if repeatPath then 2 * (|cs| + 1) else |cs| + 1) + (if closePath then 1 else 0)
  {
  }

  /** With `close_path` the trace ends with its one `close`; without it there is none. */
  lemma TraceCloses(cs: seq<Cubic>, repeatPath: bool, closePath: bool)
    ensures var t := Trace(cs, repeatPath, closePath);
      && (closePath <==> t[|t| - 1] == Command.Close)
      && (forall k :: 0 <= k < |t| - 1 ==> t[k] != Command.Close)
  {
  }

  // ---------------------------------------------------------------------
  // What a renderer draws
  // ---------------------------------------------------------------------

  /**
   * The cubics a renderer strokes for a command list, starting with the pen
   * at `pen`: `move_to` and `line_to` move the pen, `cubic_to` draws from the
   * pen and leaves it at the curve's end. Straight lines and the closing
   * segment are not cubics and do not appear.
   */
  function Drawn(cmds: seq<Command>, pen: Point): seq<Cubic>
  {
    if |cmds| == 0 then []
    else match cmds[0]
      case MoveTo(p) => Drawn(cmds[1..], p)
      case LineTo(p) => Drawn(cmds[1..], p)
      case CubicTo(c1, c2, to) => [Cubic(pen, c1, c2, to)] + Drawn(cmds[1..], to)
      case _ => Drawn(cmds[1..], pen)
  }

  /** Where the pen rests after the commands. */
  function PenAfter(cmds: seq<Command>, pen: Point): Point
  {
    if |cmds| == 0 then pen
    else match cmds[0]
      case MoveTo(p) => PenAfter(cmds[1..], p)
      case LineTo(p) => PenAfter(cmds[1..], p)
      case CubicTo(_, _, to) => PenAfter(cmds[1..], to)
      case _ => PenAfter(cmds[1..], pen)
  }

  lemma {:induction false} DrawnConcat(a: seq<Command>, b: seq<Command>, pen: Point)
    ensures Drawn(a + b, pen) == Drawn(a, pen) + Drawn(b, PenAfter(a, pen))
    ensures PenAfter(a + b, pen) == PenAfter(b, PenAfter(a, pen))
    decreases |a|
  {
    if |a| > 0 {
      assert (a + b)[1..] == a[1..] + b;
      var next := match a[0]
        case MoveTo(p) => p
        case LineTo(p) => p
        case CubicTo(_, _, to) => to
        case _ => pen;
      DrawnConcat(a[1..], b, next);
    } else {
      assert a + b == b;
    }
  }

  /** Drawing a chained list from its first anchor strokes exactly that list. */
  lemma {:induction false} DrawnCubicTos(cs: seq<Cubic>, pen: Point)
    requires RoundedPolygons.Chained(cs)
    requires |cs| > 0 ==> pen == cs[0].anchor0
    ensures Drawn(CubicTos(cs), pen) == cs
    ensures |cs| > 0 ==> PenAfter(CubicTos(cs), pen) == cs[|cs| - 1].anchor1
    decreases |cs|
  {
    if |cs| > 0 {
      var init := cs[..|cs| - 1];
      var c := cs[|cs| - 1];
      assert RoundedPolygons.Chained(init) by {
        forall i | 0 <= i < |init| - 1
          ensures init[i].anchor1 == init[i + 1].anchor0
        {
          assert init[i] == cs[i] && init[i + 1] == cs[i + 1];
        }
      }
      DrawnCubicTos(init, pen);
      DrawnConcat(CubicTos(init), [Draw(c)], pen);
      var mid := PenAfter(CubicTos(init), pen);
      assert mid == c.anchor0 by {
        if |init| > 0 {
          assert cs[|cs| - 2] == init[|init| - 1];
        }
      }
      assert Drawn([Draw(c)], mid) == [Cubic(c.anchor0, c.control0, c.control1, c.anchor1)] + Drawn([], c.anchor1);
      assert init + [c] == cs;
    }
  }

  lemma PassDraws(cs: seq<Cubic>, again: bool, pen: Point)
    requires RoundedPolygons.Chained(cs) && |cs| > 0
    ensures Drawn(Pass(cs, again), pen) == cs
    ensures PenAfter(Pass(cs, again), pen) == cs[|cs| - 1].anchor1
  {
    var open := [Opening(cs[0].anchor0, again)];
    DrawnConcat(open, CubicTos(cs), pen);
    DrawnCubicTos(cs, cs[0].anchor0);
  }

  /**
   * What `add_cubics` makes a renderer stroke: the cubics themselves, twice
   * with `repeat_path`, provided each cubic starts where the previous one
   * ends; nothing for an empty list.
   */
  lemma TraceDrawsCubics(cs: seq<Cubic>, repeatPath: bool, closePath: bool, pen: Point)
    requires RoundedPolygons.Chained(cs)
    ensures Drawn(Trace(cs, repeatPath, closePath), pen) == cs + (if repeatPath then cs else [])
  {
    var first := [Command.Rewind] + Pass(cs, false);
    var second := if repeatPath then Pass(cs, true) else [];
    var closing := if closePath then [Command.Close] else [];
    assert Trace(cs, repeatPath, closePath) == first + second + closing;
    DrawnConcat(first + second, closing, pen);
    assert Drawn(closing, PenAfter(first + second, pen)) == [];
    PassesDraw(cs, repeatPath, pen);
  }

  /** The two passes, without the closing command, stroke the cubics once or twice. */
  lemma PassesDraw(cs: seq<Cubic>, repeatPath: bool, pen: Point)
    requires RoundedPolygons.Chained(cs)
    ensures var first := [Command.Rewind] + Pass(cs, false);
      var second := if repeatPath then Pass(cs, true) else [];
      Drawn(first + second, pen) == cs + (if repeatPath then cs else [])
  {
    var first := [Command.Rewind] + Pass(cs, false);
    var second := if repeatPath then Pass(cs, true) else [];
    DrawnConcat(first, second, pen);
    DrawnConcat([Command.Rewind], Pass(cs, false), pen);
    if |cs| > 0 {
      PassDraws(cs, false, pen);
      if repeatPath {
        PassDraws(cs, true, PenAfter(first, pen));
      }
    }
  }
}
