/**
 The value-level geometry of the camera: its world viewport rectangle, the
 read-outs derived from it, re-centering, the visibility forwarding and the
 pointer-coordinate conversions between surface, scene and HUD space.

 Coordinates are `real`, so every equation below is exact; the Java class works
 in 32-bit floats, where the centre after re-centering and the scene/HUD round
 trip hold only up to rounding.
 */
module Viewport {

  /** The viewport rectangle in world units, as the camera's four bound fields. */
  datatype Rect = Rect(minX: real, minY: real, maxX: real, maxY: real)

  /** A pointer position (the x/y pair of a motion event) in some coordinate space. */
  datatype Point = Point(x: real, y: real)

  /** What the visibility test reads from a shape: its position and its already-scaled extents. */
  datatype RectangularShape = RectangularShape(x: real, y: real, widthScaled: real, heightScaled: real)

  /**
   The axis-aligned box collision primitive, taking two boxes as
   (left, top, right, bottom) each. Its edge semantics are not part of this model.
   */
  type BoxCollision = (real, real, real, real, real, real, real, real) -> bool

  predicate WellFormed(r: Rect) {
    r.minX <= r.maxX && r.minY <= r.maxY
  }

  /** The rectangle the camera constructor builds from an origin and a size. */
  function OfOriginAndSize(x: real, y: real, width: real, height: real): (r: Rect)
    ensures r.minX == x && r.minY == y
    ensures Width(r) == width && Height(r) == height
    ensures WellFormed(r) <==> 0.0 <= width && 0.0 <= height
  {
    Rect(x, y, x + width, y + height)
  }

  function Width(r: Rect): real {
    r.maxX - r.minX
  }

  function Height(r: Rect): real {
    r.maxY - r.minY
  }

  function CenterX(r: Rect): real {
    r.minX + (r.maxX - r.minX) * 0.5
  }

  function CenterY(r: Rect): real {
    r.minY + (r.maxY - r.minY) * 0.5
  }

  /** The centre read-outs are the midpoint of the rectangle and lie inside a well-formed one. */
  lemma {:induction false} CenterIsMidpoint(r: Rect)
    ensures CenterX(r) == (r.minX + r.maxX) / 2.0 && CenterY(r) == (r.minY + r.maxY) / 2.0
    ensures WellFormed(r) ==> r.minX <= CenterX(r) <= r.maxX && r.minY <= CenterY(r) <= r.maxY
    ensures WellFormed(r) <==> 0.0 <= Width(r) && 0.0 <= Height(r)
  {
  }

  /**
   The rectangle moved by the difference between the requested and the
   current centre. Size and requested centre determine the result completely.
   */
  function Recentered(r: Rect, cx: real, cy: real): (s: Rect)
    ensures Width(s) == Width(r) && Height(s) == Height(r)
    ensures CenterX(s) == cx && CenterY(s) == cy
  {
    var dX := cx - CenterX(r);
    var dY := cy - CenterY(r);
    Rect(r.minX + dX, r.minY + dY, r.maxX + dX, r.maxY + dY)
  }

  /** Re-centering is a translation: all four bounds move by the same offset per axis. */
  lemma {:induction false} RecenteredIsTranslation(r: Rect, cx: real, cy: real)
    ensures var s := Recentered(r, cx, cy);
      s.minX - r.minX == s.maxX - r.maxX == cx - CenterX(r) &&
      s.minY - r.minY == s.maxY - r.maxY == cy - CenterY(r)
    ensures WellFormed(Recentered(r, cx, cy)) <==> WellFormed(r)
  {
  }

  /** Re-centering on the current centre changes nothing; of two re-centerings only the last counts. */
  lemma {:induction false} RecenterIdentityAndLastWins(r: Rect, cx: real, cy: real, cx': real, cy': real)
    ensures Recentered(r, CenterX(r), CenterY(r)) == r
    ensures Recentered(Recentered(r, cx, cy), cx', cy') == Recentered(r, cx', cy')
  {
  }

  // ---------------------------------------------------------------
  // Visibility
  // ---------------------------------------------------------------

  /** The box the visibility test forwards for a shape: its position plus its scaled extents. */
  function ShapeBox(s: RectangularShape): (b: Rect)
    ensures b.minX == s.x && b.minY == s.y
    ensures Width(b) == s.widthScaled && Height(b) == s.heightScaled
  {
    Rect(s.x, s.y, s.widthScaled + s.x, s.heightScaled + s.y)
  }

  /** The collision primitive applied to box `a` and then box `b`, each as (left, top, right, bottom). */
  function BoxesCollide(collision: BoxCollision, a: Rect, b: Rect): bool {
    collision(a.minX, a.minY, a.maxX, a.maxY, b.minX, b.minY, b.maxX, b.maxY)
  }

  // ---------------------------------------------------------------
  // Scene <-> HUD
  // ---------------------------------------------------------------

  /** Scene to HUD space: the viewport's origin is subtracted. */
  function SceneToHUD(r: Rect, p: Point): Point {
    Point(p.x - r.minX, p.y - r.minY)
  }

  /** HUD to scene space: the viewport's origin is added back. */
  function HUDToScene(r: Rect, p: Point): Point {
    Point(p.x + r.minX, p.y + r.minY)
  }

  /** The two conversions are inverse to each other in both orders, for every viewport. */
  lemma {:induction false} SceneHUDRoundTrip(r: Rect, p: Point)
    ensures HUDToScene(r, SceneToHUD(r, p)) == p
    ensures SceneToHUD(r, HUDToScene(r, p)) == p
  {
  }

  /** HUD space is the scene seen from the viewport's corner: that corner becomes the HUD origin. */
  lemma {:induction false} HUDOriginIsViewportCorner(r: Rect, p: Point)
    ensures SceneToHUD(r, Point(r.minX, r.minY)) == Point(0.0, 0.0)
    ensures SceneToHUD(r, p) == Point(0.0, 0.0) <==> p == Point(r.minX, r.minY)
  {
  }

  // ---------------------------------------------------------------
  // Surface -> Scene
  // ---------------------------------------------------------------

  /**
   The pointer's position relative to a surface of the given pixel size,
   mirrored on both axes when the camera is flipped.
   */
  function RelativePosition(p: Point, surfaceWidth: int, surfaceHeight: int, flipped: bool): Point
    requires surfaceWidth != 0 && surfaceHeight != 0
  {
    if flipped then
      Point(1.0 - p.x / surfaceWidth as real, 1.0 - p.y / surfaceHeight as real)
    else
      Point(p.x / surfaceWidth as real, p.y / surfaceHeight as real)
  }

  /** A relative position mapped affinely into the viewport rectangle. */
  function FromRelative(r: Rect, rel: Point): Point {
    Point(Interpolate(r.minX, r.maxX, rel.x), Interpolate(r.minY, r.maxY, rel.y))
  }

  /** The point at fraction `f` of the way from `lo` to `hi`. */
  function Interpolate(lo: real, hi: real, f: real): real {
    lo + f * (hi - lo)
  }

  function SurfaceToScene(r: Rect, flipped: bool, p: Point, surfaceWidth: int, surfaceHeight: int): Point
    requires surfaceWidth != 0 && surfaceHeight != 0
  {
    FromRelative(r, RelativePosition(p, surfaceWidth, surfaceHeight, flipped))
  }

  /** The closed form of the surface-to-scene conversion, without and with flip. */
  lemma {:induction false} SurfaceToSceneFormula(r: Rect, flipped: bool, p: Point, w: int, h: int)
    requires w != 0 && h != 0
    ensures !flipped ==>
      SurfaceToScene(r, flipped, p, w, h) ==
      Point(r.minX + (p.x / w as real) * Width(r), r.minY + (p.y / h as real) * Height(r))
    ensures flipped ==>
      SurfaceToScene(r, flipped, p, w, h) ==
      Point(r.minX + (1.0 - p.x / w as real) * Width(r), r.minY + (1.0 - p.y / h as real) * Height(r))
  {
    if flipped {
      assert SurfaceToScene(r, flipped, p, w, h) ==
        Point(Interpolate(r.minX, r.maxX, 1.0 - p.x / w as real), Interpolate(r.minY, r.maxY, 1.0 - p.y / h as real));
    } else {
      assert SurfaceToScene(r, flipped, p, w, h) ==
        Point(Interpolate(r.minX, r.maxX, p.x / w as real), Interpolate(r.minY, r.maxY, p.y / h as real));
    }
  }

  /**
   Flipping is the same as mirroring the pointer inside the surface before an
   unflipped conversion: pixel (px, py) is read as pixel (w - px, h - py).
   */
  lemma {:induction false} FlippedIsMirroredPixel(r: Rect, p: Point, w: int, h: int)
    requires w != 0 && h != 0
    ensures SurfaceToScene(r, true, p, w, h) ==
      SurfaceToScene(r, false, Point(w as real - p.x, h as real - p.y), w, h)
  {
    MirroredFraction(p.x, w as real);
    MirroredFraction(p.y, h as real);
  }

  lemma MirroredFraction(a: real, b: real)
    requires b != 0.0
    ensures 1.0 - a / b == (b - a) / b
  {
    calc {
      (b - a) / b;
      b / b - a / b;
      1.0 - a / b;
    }
  }

  /** A pointer on the surface lands inside the viewport, flipped or not. */
  lemma {:induction false} SurfaceToSceneInViewport(r: Rect, flipped: bool, p: Point, w: int, h: int)
    requires WellFormed(r) && 0 < w && 0 < h
    requires 0.0 <= p.x <= w as real && 0.0 <= p.y <= h as real
    ensures var q := SurfaceToScene(r, flipped, p, w, h);
      r.minX <= q.x <= r.maxX && r.minY <= q.y <= r.maxY
  {
    FractionInUnit(p.x, w as real);
    FractionInUnit(p.y, h as real);
    FromRelativeInViewport(r, RelativePosition(p, w, h, flipped));
  }

  /** A relative position inside the unit square is mapped into a well-formed viewport. */
  lemma {:induction false} FromRelativeInViewport(r: Rect, rel: Point)
    requires WellFormed(r) && 0.0 <= rel.x <= 1.0 && 0.0 <= rel.y <= 1.0
    ensures var q := FromRelative(r, rel);
      r.minX <= q.x <= r.maxX && r.minY <= q.y <= r.maxY
  {
    AffineInInterval(r.minX, r.maxX, rel.x);
    AffineInInterval(r.minY, r.maxY, rel.y);
  }

  /**
   The surface's top-left pixel lands on the viewport's minimum corner, or on
   its maximum corner when flipped.
   */
  lemma {:induction false} SurfaceOriginCorner(r: Rect, flipped: bool, w: int, h: int)
    requires w != 0 && h != 0
    ensures SurfaceToScene(r, flipped, Point(0.0, 0.0), w, h) ==
      if flipped then Point(r.maxX, r.maxY) else Point(r.minX, r.minY)
  {
  }

  lemma FractionInUnit(a: real, b: real)
    requires 0.0 < b && 0.0 <= a <= b
    ensures 0.0 <= a / b <= 1.0 && 0.0 <= 1.0 - a / b <= 1.0
  {
    var q := a / b;
    assert q * b == a;
    if q < 0.0 {
      ProductNonNegative(-q, b);
    }
    if 1.0 < q {
      ProductNonNegative(q - 1.0, b);
    }
  }

  lemma AffineInInterval(lo: real, hi: real, f: real)
    requires lo <= hi && 0.0 <= f <= 1.0
    ensures lo <= Interpolate(lo, hi, f) <= hi
  {
    ProductNonNegative(f, hi - lo);
    ProductNonNegative(1.0 - f, hi - lo);
  }

  lemma ProductNonNegative(x: real, y: real)
    requires 0.0 <= x && 0.0 <= y
    ensures 0.0 <= x * y
  {
  }
}
