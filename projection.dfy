/**
 The projection set-up the camera issues before each draw pass, recorded as the
 list of matrix commands it sends to the graphics API, in the order it sends
 them. `Transform` gives those commands their usual meaning on a point of the
 z = 0 plane (column-vector convention: the command issued last is applied to
 the point first), so that the input conversions can be checked against what
 is drawn: a pointer at the pixel where a world point is drawn is converted
 back to exactly that point.
 */
module Projection {
  import opened Viewport

  datatype Command =
    | LoadIdentity                                             // reset the projection matrix
    | Ortho2D(left: real, right: real, bottom: real, top: real) // 2D orthographic projection
    | Translate(dx: real, dy: real)                            // translation with dz = 0
    | RotateHalf                                               // 180 degrees about the z axis

  /** The three commands that rotate the picture half a turn about (cx, cy). */
  function RotateHalfAround(cx: real, cy: real): seq<Command> {
    [Translate(cx, cy), RotateHalf, Translate(-cx, -cy)]
  }

  /** The commands that start a set-up, followed by the half-turn about (cx, cy) when the camera is flipped. */
  function Flippable(setUp: seq<Command>, flipped: bool, cx: real, cy: real): seq<Command> {
    if flipped then setUp + RotateHalfAround(cx, cy) else setUp
  }

  /** The world-relative orthographic set-up: the viewport's bounds, y pointing down. */
  function WorldSetUp(r: Rect): seq<Command> {
    [LoadIdentity, Ortho2D(r.minX, r.maxX, r.maxY, r.minY)]
  }

  /** World-relative projection, rotated about the viewport's centre when flipped. */
  function WorldProjection(r: Rect, flipped: bool): seq<Command> {
    Flippable(WorldSetUp(r), flipped, CenterX(r), CenterY(r))
  }

  /** The viewport-relative orthographic set-up over [0, width] x [0, height]. */
  function PositionIndependentSetUp(r: Rect): seq<Command> {
    [LoadIdentity, Ortho2D(0.0, Width(r), Height(r), 0.0)]
  }

  /** Viewport-relative projection, rotated about (width/2, height/2) when flipped. */
  function PositionIndependentProjection(r: Rect, flipped: bool): seq<Command> {
    Flippable(PositionIndependentSetUp(r), flipped, Width(r) * 0.5, Height(r) * 0.5)
  }

  /**
   One command applied to a point. An orthographic projection with an empty
   range is rejected by the graphics API and leaves the matrix unchanged.
   */
  function Apply(c: Command, p: Point): Point {
    match c
    case LoadIdentity => p
    case Ortho2D(l, rt, b, t) =>
      if l == rt || b == t then p else Point(OrthoAxis(p.x, l, rt), OrthoAxis(p.y, b, t))
    case Translate(dx, dy) => Point(p.x + dx, p.y + dy)
    case RotateHalf => Point(-p.x, -p.y)
  }

  /** The orthographic map of one axis: `from` goes to -1 and `to` goes to +1. */
  function OrthoAxis(v: real, from: real, to: real): real
    requires from != to
  {
    2.0 * ((v - from) / (to - from)) - 1.0
  }

  /** Where the matrix built by `cmds` sends `p`: everything before the last reset is discarded. */
  function Transform(cmds: seq<Command>, p: Point): Point
    decreases |cmds|
  {
    if cmds == [] then p
    else
      var c := cmds[|cmds| - 1];
      if c.LoadIdentity? then p else Transform(cmds[..|cmds| - 1], Apply(c, p))
  }

  /** The pixel of a surface of size w x h at which a point in device coordinates appears (y grows downward). */
  function SurfacePixel(ndc: Point, w: int, h: int): Point {
    Point((ndc.x + 1.0) * 0.5 * w as real, (1.0 - ndc.y) * 0.5 * h as real)
  }

  lemma {:induction false} TransformLast(cmds: seq<Command>, c: Command, p: Point)
    ensures Transform(cmds + [c], p) == if c.LoadIdentity? then p else Transform(cmds, Apply(c, p))
  {
    assert (cmds + [c])[..|cmds|] == cmds;
  }

  /** Whatever was issued before a reset has no effect. */
  lemma {:induction false} ResetDiscardsPrefix(prefix: seq<Command>, cmds: seq<Command>, p: Point)
    requires |cmds| > 0 && cmds[0].LoadIdentity?
    ensures Transform(prefix + cmds, p) == Transform(cmds, p)
    decreases |cmds|
  {
    var init, c := cmds[..|cmds| - 1], cmds[|cmds| - 1];
    assert cmds == init + [c];
    assert prefix + cmds == (prefix + init) + [c];
    TransformLast(prefix + init, c, p);
    TransformLast(init, c, p);
    if !c.LoadIdentity? {
      ResetDiscardsPrefix(prefix, init, Apply(c, p));
    }
  }

  /**
   Both projection set-ups start from the identity, so issuing one after any
   earlier commands (including itself, frame after frame) gives the same projection.
   */
  lemma {:induction false} ProjectionDoesNotAccumulate(earlier: seq<Command>, r: Rect, flipped: bool, p: Point)
    ensures Transform(earlier + WorldProjection(r, flipped), p) == Transform(WorldProjection(r, flipped), p)
    ensures Transform(earlier + PositionIndependentProjection(r, flipped), p)
         == Transform(PositionIndependentProjection(r, flipped), p)
  {
    ResetDiscardsPrefix(earlier, WorldProjection(r, flipped), p);
    ResetDiscardsPrefix(earlier, PositionIndependentProjection(r, flipped), p);
  }

  predicate NoReset(cmds: seq<Command>) {
    forall i :: 0 <= i < |cmds| ==> !cmds[i].LoadIdentity?
  }

  /** Commands issued without a reset compose with those issued before them. */
  lemma {:induction false} TransformAppend(a: seq<Command>, b: seq<Command>, p: Point)
    requires NoReset(b)
    ensures Transform(a + b, p) == Transform(a, Transform(b, p))
    decreases |b|
  {
    if b == [] {
      assert a + b == a;
    } else {
      var init, c := b[..|b| - 1], b[|b| - 1];
      assert b == init + [c];
      assert a + b == (a + init) + [c];
      TransformLast(a + init, c, p);
      TransformLast(init, c, p);
      assert NoReset(init);
      TransformAppend(a, init, Apply(c, p));
    }
  }

  /** The rotation commands reflect every point through the pivot (cx, cy). */
  lemma {:induction false} RotateHalfAroundReflects(cx: real, cy: real, p: Point)
    ensures NoReset(RotateHalfAround(cx, cy))
    ensures Transform(RotateHalfAround(cx, cy), p) == Point(2.0 * cx - p.x, 2.0 * cy - p.y)
  {
    var cmds := RotateHalfAround(cx, cy);
    var q1, q2 := Point(p.x - cx, p.y - cy), Point(cx - p.x, cy - p.y);
    assert cmds == [Translate(cx, cy)] + [RotateHalf] + [Translate(-cx, -cy)];
    TransformLast([Translate(cx, cy)] + [RotateHalf], Translate(-cx, -cy), p);
    TransformLast([Translate(cx, cy)], RotateHalf, q1);
    TransformLast([], Translate(cx, cy), q2);
  }

  /**
   Flipping rotates the world-relative picture about the viewport's centre, and
   the viewport-relative picture about (width/2, height/2).
   */
  lemma {:induction false} FlipPivots(r: Rect, p: Point)
    ensures Transform(WorldProjection(r, true), p) ==
            Transform(WorldProjection(r, false), Point(2.0 * CenterX(r) - p.x, 2.0 * CenterY(r) - p.y))
    ensures Transform(PositionIndependentProjection(r, true), p) ==
            Transform(PositionIndependentProjection(r, false), Point(Width(r) - p.x, Height(r) - p.y))
  {
    WorldFlipPivot(r, p);
    PositionIndependentFlipPivot(r, p);
  }

  /** Rotation commands appended to any set-up without a reset reflect the point before it. */
  lemma {:induction false} FlippedReflects(setUp: seq<Command>, cx: real, cy: real, p: Point)
    ensures Transform(Flippable(setUp, true, cx, cy), p)
         == Transform(Flippable(setUp, false, cx, cy), Point(2.0 * cx - p.x, 2.0 * cy - p.y))
  {
    RotateHalfAroundReflects(cx, cy, p);
    TransformAppend(setUp, RotateHalfAround(cx, cy), p);
  }

  lemma {:induction false} FlippedReflectsAboutHalf(setUp: seq<Command>, w: real, h: real, p: Point)
    ensures Transform(Flippable(setUp, true, w * 0.5, h * 0.5), p)
         == Transform(Flippable(setUp, false, w * 0.5, h * 0.5), Point(w - p.x, h - p.y))
  {
    FlippedReflects(setUp, w * 0.5, h * 0.5, p);
    HalfwayReflection(w, h, p);
  }

  lemma {:induction false} HalfwayReflection(w: real, h: real, p: Point)
    ensures Point(2.0 * (w * 0.5) - p.x, 2.0 * (h * 0.5) - p.y) == Point(w - p.x, h - p.y)
  {
  }

  lemma {:induction false} WorldFlipPivot(r: Rect, p: Point)
    ensures Transform(WorldProjection(r, true), p) ==
            Transform(WorldProjection(r, false), Point(2.0 * CenterX(r) - p.x, 2.0 * CenterY(r) - p.y))
  {
    FlippedReflects(WorldSetUp(r), CenterX(r), CenterY(r), p);
  }

  lemma {:induction false} PositionIndependentFlipPivot(r: Rect, p: Point)
    ensures Transform(PositionIndependentProjection(r, true), p) ==
            Transform(PositionIndependentProjection(r, false), Point(Width(r) - p.x, Height(r) - p.y))
  {
    FlippedReflectsAboutHalf(PositionIndependentSetUp(r), Width(r), Height(r), p);
  }

  /** Without a flip, each set-up is the orthographic map alone. */
  lemma {:induction false} UnflippedIsOrtho(r: Rect, p: Point)
    ensures Transform(WorldProjection(r, false), p) == Apply(Ortho2D(r.minX, r.maxX, r.maxY, r.minY), p)
    ensures Transform(PositionIndependentProjection(r, false), p) == Apply(Ortho2D(0.0, Width(r), Height(r), 0.0), p)
  {
    ResetThen(Ortho2D(r.minX, r.maxX, r.maxY, r.minY), p);
    ResetThen(Ortho2D(0.0, Width(r), Height(r), 0.0), p);
  }

  /** A reset followed by one other command is that command alone. */
  lemma {:induction false} ResetThen(c: Command, p: Point)
    requires !c.LoadIdentity?
    ensures Transform([LoadIdentity, c], p) == Apply(c, p)
  {
    assert [LoadIdentity, c] == [LoadIdentity] + [c];
    TransformLast([LoadIdentity], c, p);
    TransformLast([], LoadIdentity, Apply(c, p));
  }

  /** An axis drawn from `lo` (left) to `hi` (right) puts `v` at its fraction of [lo, hi] of the surface. */
  lemma SurfaceFractionLeftToRight(lo: real, hi: real, v: real, size: real)
    requires lo != hi && size != 0.0
    ensures ((OrthoAxis(v, lo, hi) + 1.0) * 0.5 * size) / size == (v - lo) / (hi - lo)
  {
    var f := (v - lo) / (hi - lo);
    assert (OrthoAxis(v, lo, hi) + 1.0) * 0.5 == f;
    ScaleUnscale(f, size);
  }

  /** An axis drawn from `hi` (bottom) to `lo` (top), on a surface whose y grows downward, does the same. */
  lemma SurfaceFractionTopToBottom(lo: real, hi: real, v: real, size: real)
    requires lo != hi && size != 0.0
    ensures ((1.0 - OrthoAxis(v, hi, lo)) * 0.5 * size) / size == (v - lo) / (hi - lo)
  {
    var f := (v - lo) / (hi - lo);
    var g := (v - hi) / (lo - hi);
    assert (1.0 - OrthoAxis(v, hi, lo)) * 0.5 == 1.0 - g;
    ScaleUnscale(1.0 - g, size);
    ScaleUnscale(v - lo, hi - lo);
    ScaleUnscale(v - hi, lo - hi);
    assert (1.0 - g) * (hi - lo) == f * (hi - lo);
    Cancel(1.0 - g, f, hi - lo);
  }

  /** A fraction of [lo, hi] mapped back into [lo, hi], directly or mirrored. */
  lemma FromFraction(lo: real, hi: real, v: real)
    requires lo != hi
    ensures Interpolate(lo, hi, (v - lo) / (hi - lo)) == v
    ensures var reflected := 2.0 * (lo + (hi - lo) * 0.5) - v;
      Interpolate(lo, hi, 1.0 - (reflected - lo) / (hi - lo)) == v
  {
    var reflected := 2.0 * (lo + (hi - lo) * 0.5) - v;
    ScaleUnscale(v - lo, hi - lo);
    ScaleUnscale(reflected - lo, hi - lo);
    var f := (reflected - lo) / (hi - lo);
    assert (1.0 - f) * (hi - lo) == (hi - lo) - f * (hi - lo);
  }

  lemma ScaleUnscale(a: real, b: real)
    requires b != 0.0
    ensures (a * b) / b == a && a / b * b == a
  {
  }

  lemma Cancel(x: real, y: real, d: real)
    requires d != 0.0 && x * d == y * d
    ensures x == y
  {
    assert (x - y) * d == 0.0;
  }

  /** The surface fractions at which the world-relative projection draws `p`, before any mirroring. */
  lemma {:induction false} DrawnFraction(r: Rect, flipped: bool, p: Point, w: int, h: int)
    requires r.minX != r.maxX && r.minY != r.maxY && w != 0 && h != 0
    ensures var q := if flipped then Point(2.0 * CenterX(r) - p.x, 2.0 * CenterY(r) - p.y) else p;
      var pixel := SurfacePixel(Transform(WorldProjection(r, flipped), p), w, h);
      pixel.x / w as real == (q.x - r.minX) / (r.maxX - r.minX) &&
      pixel.y / h as real == (q.y - r.minY) / (r.maxY - r.minY)
  {
    var q := if flipped then Point(2.0 * CenterX(r) - p.x, 2.0 * CenterY(r) - p.y) else p;
    WorldProjectionAt(r, flipped, p);
    SurfaceFractionLeftToRight(r.minX, r.maxX, q.x, w as real);
    SurfaceFractionTopToBottom(r.minY, r.maxY, q.y, h as real);
  }

  /** The device coordinates of `p` under the world-relative projection. */
  lemma {:induction false} WorldProjectionAt(r: Rect, flipped: bool, p: Point)
    requires r.minX != r.maxX && r.minY != r.maxY
    ensures var q := if flipped then Point(2.0 * CenterX(r) - p.x, 2.0 * CenterY(r) - p.y) else p;
      Transform(WorldProjection(r, flipped), p) == Point(OrthoAxis(q.x, r.minX, r.maxX), OrthoAxis(q.y, r.maxY, r.minY))
  {
    var q := if flipped then Point(2.0 * CenterX(r) - p.x, 2.0 * CenterY(r) - p.y) else p;
    if flipped {
      WorldFlipPivot(r, p);
    }
    UnflippedIsOrtho(r, q);
  }

  /**
   Input agrees with rendering in world-relative mode: a pointer at the pixel
   where a world point is drawn converts back to that point, flipped or not.
   */
  lemma {:induction false} DrawnPointConvertsBack(r: Rect, flipped: bool, p: Point, w: int, h: int)
    requires r.minX != r.maxX && r.minY != r.maxY && w != 0 && h != 0
    ensures SurfaceToScene(r, flipped, SurfacePixel(Transform(WorldProjection(r, flipped), p), w, h), w, h) == p
  {
    var q := if flipped then Point(2.0 * CenterX(r) - p.x, 2.0 * CenterY(r) - p.y) else p;
    var pixel := SurfacePixel(Transform(WorldProjection(r, flipped), p), w, h);
    var fx := (q.x - r.minX) / (r.maxX - r.minX);
    var fy := (q.y - r.minY) / (r.maxY - r.minY);
    DrawnFraction(r, flipped, p, w, h);
    assert RelativePosition(pixel, w, h, flipped) == if flipped then Point(1.0 - fx, 1.0 - fy) else Point(fx, fy);
    FromFraction(r.minX, r.maxX, p.x);
    FromFraction(r.minY, r.maxY, p.y);
  }

  /**
   Viewport-relative drawing of a HUD point is world-relative drawing of that
   point placed in the scene, flipped or not.
   */
  lemma {:induction false} PositionIndependentIsShiftedWorld(r: Rect, flipped: bool, p: Point)
    requires r.minX != r.maxX && r.minY != r.maxY
    ensures Transform(PositionIndependentProjection(r, flipped), p)
         == Transform(WorldProjection(r, flipped), HUDToScene(r, p))
  {
    var q := if flipped then Point(Width(r) - p.x, Height(r) - p.y) else p;
    if flipped {
      FlipPivots(r, p);
      FlipPivots(r, HUDToScene(r, p));
      assert HUDToScene(r, q) == Point(2.0 * CenterX(r) - HUDToScene(r, p).x, 2.0 * CenterY(r) - HUDToScene(r, p).y);
    }
    UnflippedIsOrtho(r, q);
    UnflippedIsOrtho(r, HUDToScene(r, q));
    OrthoOfShiftedPoint(r, q);
  }

  lemma {:induction false} OrthoOfShiftedPoint(r: Rect, q: Point)
    requires r.minX != r.maxX && r.minY != r.maxY
    ensures Apply(Ortho2D(0.0, Width(r), Height(r), 0.0), q)
         == Apply(Ortho2D(r.minX, r.maxX, r.maxY, r.minY), HUDToScene(r, q))
  {
    var s := HUDToScene(r, q);
    assert s.x - r.minX == q.x - 0.0 && r.maxX - r.minX == Width(r) - 0.0;
    assert s.y - r.maxY == q.y - Height(r) && r.minY - r.maxY == 0.0 - Height(r);
    assert OrthoAxis(q.x, 0.0, Width(r)) == OrthoAxis(s.x, r.minX, r.maxX);
    assert OrthoAxis(q.y, Height(r), 0.0) == OrthoAxis(s.y, r.maxY, r.minY);
  }

  /**
   Input agrees with rendering along the whole HUD pipeline: a pointer at the
   pixel where a HUD point is drawn, converted from surface to scene and then
   from scene to HUD space, gives back that HUD point.
   */
  lemma {:induction false} DrawnHUDPointConvertsBack(r: Rect, flipped: bool, p: Point, w: int, h: int)
    requires r.minX != r.maxX && r.minY != r.maxY && w != 0 && h != 0
    ensures SceneToHUD(r, SurfaceToScene(r, flipped,
              SurfacePixel(Transform(PositionIndependentProjection(r, flipped), p), w, h), w, h)) == p
  {
    PositionIndependentIsShiftedWorld(r, flipped, p);
    DrawnPointConvertsBack(r, flipped, HUDToScene(r, p), w, h);
    SceneHUDRoundTrip(r, p);
  }
}
