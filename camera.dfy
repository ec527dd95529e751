/**
 The camera object and the collaborators it updates in place: the pointer
 event whose location it rewrites, the HUD it attaches and forwards to, and the
 graphics context that receives its projection commands. Each camera method is
 specified against the value-level definitions of the modules Viewport,
 Projection and Lifecycle, and says what it leaves unchanged.
 */
module EngineCamera {
  import opened Viewport
  import opened Projection
  import opened Lifecycle

  /** A pointer event, reduced to the location the camera reads and rewrites. */
  class MotionEvent {
    var x: real
    var y: real

    constructor (x: real, y: real)
      ensures this.x == x && this.y == y
    {
      this.x := x;
      this.y := y;
    }

    function Location(): Point
      reads this
    {
      Point(x, y)
    }

    method SetLocation(x: real, y: real)
      modifies this
      ensures Location() == Point(x, y)
    {
      this.x := x;
      this.y := y;
    }
  }

  /**
   The HUD as the camera sees it: a link back to its camera, and a record of
   the update ticks and draw requests the camera forwards to it.
   */
  class HUD {
    var camera: Camera?
    ghost var updates: seq<real>
    ghost var draws: nat

    constructor ()
      ensures camera == null && updates == [] && draws == 0
    {
      camera := null;
      updates := [];
      draws := 0;
    }

    method SetCamera(camera: Camera)
      modifies this`camera
      ensures this.camera == camera
    {
      this.camera := camera;
    }

    method OnUpdate(secondsElapsed: real)
      modifies this`updates
      ensures updates == old(updates) + [secondsElapsed]
    {
      updates := updates + [secondsElapsed];
    }

    method OnDraw()
      modifies this`draws
      ensures draws == old(draws) + 1
    {
      draws := draws + 1;
    }
  }

  /** The graphics context, reduced to the log of projection commands sent to it. */
  class GL {
    var issued: seq<Command>

    constructor ()
      ensures issued == []
    {
      issued := [];
    }

    method Send(c: Command)
      modifies this
      ensures issued == old(issued) + [c]
    {
      issued := issued + [c];
    }
  }

  class Camera {
    var minX: real
    var maxX: real
    var minY: real
    var maxY: real
    var hud: HUD?
    var flipped: bool

    /** The viewport rectangle; its fields are what getMinX, getMaxX, getMinY and getMaxY return. */
    function Bounds(): Rect
      reads this
    {
      Rect(minX, minY, maxX, maxY)
    }

    function State(): CameraState
      reads this
    {
      CameraState(Bounds(), flipped)
    }

    constructor (x: real, y: real, width: real, height: real)
      ensures minX == x && maxX == x + width && minY == y && maxY == y + height
      ensures hud == null && !flipped
    {
      minX := x;
      maxX := x + width;
      minY := y;
      maxY := y + height;
      hud := null;
      flipped := false;
    }

    /** Moves the rectangle so that its centre is (cx, cy); its size, the flag and the HUD stay. */
    method SetCenter(cx: real, cy: real)
      modifies this`minX, this`maxX, this`minY, this`maxY
      ensures State() == Step(old(State()), Op.SetCenter(cx, cy))
      ensures Width(Bounds()) == old(Width(Bounds())) && Height(Bounds()) == old(Height(Bounds()))
      ensures CenterX(Bounds()) == cx && CenterY(Bounds()) == cy
      ensures flipped == old(flipped) && hud == old(hud)
    {
      var dX := cx - CenterX(Bounds());
      var dY := cy - CenterY(Bounds());
      minX := minX + dX;
      maxX := maxX + dX;
      minY := minY + dY;
      maxY := maxY + dY;
    }

    /** Attaches `h` and links it back to this camera; a previously attached HUD keeps its link. */
    method SetHUD(h: HUD)
      modifies this`hud, h`camera
      ensures hud == h && h.camera == this
      ensures State() == old(State())
      ensures h.updates == old(h.updates) && h.draws == old(h.draws)
    {
      hud := h;
      h.SetCamera(this);
    }

    method HasHUD() returns (attached: bool)
      ensures attached <==> hud != null
    {
      attached := hud != null;
    }

    /** Forwards one update tick to the attached HUD, if there is one. */
    method OnUpdate(secondsElapsed: real)
      modifies hud
      ensures State() == Step(old(State()), Op.Update(secondsElapsed)) && hud == old(hud)
      ensures hud != null ==> hud.updates == old(hud.updates) + [secondsElapsed]
      ensures hud != null ==> hud.draws == old(hud.draws) && hud.camera == old(hud.camera)
    {
      if hud != null {
        hud.OnUpdate(secondsElapsed);
      }
    }

    /** The camera's reset does nothing: neither the bounds nor the flag are restored. */
    method Reset()
      ensures State() == Step(old(State()), Op.Reset)
    {
    }

    method Flip()
      modifies this`flipped
      ensures State() == Step(old(State()), Op.Flip)
      ensures flipped == !old(flipped) && Bounds() == old(Bounds()) && hud == old(hud)
    {
      flipped := !flipped;
    }

    /** Forwards one draw request to the attached HUD, if there is one. */
    method OnDrawHUD()
      modifies hud
      ensures hud == old(hud)
      ensures hud != null ==> hud.draws == old(hud.draws) + 1
      ensures hud != null ==> hud.updates == old(hud.updates) && hud.camera == old(hud.camera)
    {
      if hud != null {
        hud.OnDraw();
      }
    }

    /**
     Asks the collision primitive whether the viewport box and the shape's box,
     in that order, collide.
     */
    method IsRectangularShapeVisible(shape: RectangularShape, collision: BoxCollision) returns (visible: bool)
      ensures visible == BoxesCollide(collision, Bounds(), ShapeBox(shape))
    {
      var otherLeft := shape.x;
      var otherTop := shape.y;
      var otherRight := shape.widthScaled + otherLeft;
      var otherBottom := shape.heightScaled + otherTop;
      visible := collision(minX, minY, maxX, maxY, otherLeft, otherTop, otherRight, otherBottom);
    }

    /** Sends the world-relative projection. */
    method OnApplyMatrix(gl: GL)
      modifies gl
      ensures gl.issued == old(gl.issued) + WorldProjection(Bounds(), flipped)
    {
      gl.Send(LoadIdentity);
      gl.Send(Ortho2D(minX, maxX, maxY, minY));
      if flipped {
        RotateHalfAround(gl, CenterX(Bounds()), CenterY(Bounds()));
      }
    }

    /** Sends the viewport-relative projection used for the HUD. */
    method OnApplyPositionIndependentMatrix(gl: GL)
      modifies gl
      ensures gl.issued == old(gl.issued) + PositionIndependentProjection(Bounds(), flipped)
    {
      gl.Send(LoadIdentity);
      var width := Width(Bounds());
      var height := Height(Bounds());
      gl.Send(Ortho2D(0.0, width, height, 0.0));
      if flipped {
        RotateHalfAround(gl, width * 0.5, height * 0.5);
      }
    }

    method RotateHalfAround(gl: GL, cx: real, cy: real)
      modifies gl
      ensures gl.issued == old(gl.issued) + Projection.RotateHalfAround(cx, cy)
    {
      gl.Send(Translate(cx, cy));
      gl.Send(RotateHalf);
      gl.Send(Translate(-cx, -cy));
    }

    method ConvertSceneToHUDMotionEvent(e: MotionEvent)
      modifies e
      ensures e.Location() == SceneToHUD(Bounds(), old(e.Location()))
    {
      var x := e.x - minX;
      var y := e.y - minY;
      e.SetLocation(x, y);
    }

    method ConvertHUDToSceneMotionEvent(e: MotionEvent)
      modifies e
      ensures e.Location() == HUDToScene(Bounds(), old(e.Location()))
    {
      var x := e.x + minX;
      var y := e.y + minY;
      e.SetLocation(x, y);
    }

    /** Rewrites a surface-pixel event into scene coordinates for a surface of the given size. */
    method ConvertSurfaceToSceneMotionEvent(e: MotionEvent, surfaceWidth: int, surfaceHeight: int)
      requires surfaceWidth != 0 && surfaceHeight != 0
      modifies e
      ensures e.Location() == SurfaceToScene(Bounds(), flipped, old(e.Location()), surfaceWidth, surfaceHeight)
    {
      var relativeX: real;
      var relativeY: real;
      if flipped {
        relativeX := 1.0 - e.x / surfaceWidth as real;
        relativeY := 1.0 - e.y / surfaceHeight as real;
      } else {
        relativeX := e.x / surfaceWidth as real;
        relativeY := e.y / surfaceHeight as real;
      }
      ConvertRelativeToSceneMotionEvent(e, relativeX, relativeY);
    }

    method ConvertRelativeToSceneMotionEvent(e: MotionEvent, relativeX: real, relativeY: real)
      modifies e
      ensures e.Location() == FromRelative(Bounds(), Point(relativeX, relativeY))
    {
      var x := minX + relativeX * (maxX - minX);
      var y := minY + relativeY * (maxY - minY);
      e.SetLocation(x, y);
    }
  }

  /**
   A scene event routed to the HUD and back, as an event dispatch may do,
   ends where it started, and the camera is not touched.
   */
  method RouteThroughHUD(camera: Camera, e: MotionEvent)
    modifies e
    ensures e.Location() == old(e.Location())
  {
    camera.ConvertSceneToHUDMotionEvent(e);
    camera.ConvertHUDToSceneMotionEvent(e);
    SceneHUDRoundTrip(camera.Bounds(), old(e.Location()));
  }

  /** After the projection set-up, what was sent before it no longer matters. */
  method ApplyProjection(camera: Camera, gl: GL, relative: bool)
    modifies gl
    ensures var expected := if relative then PositionIndependentProjection(camera.Bounds(), camera.flipped)
                            else WorldProjection(camera.Bounds(), camera.flipped);
      forall p :: Transform(gl.issued, p) == Transform(expected, p)
  {
    ghost var earlier := gl.issued;
    if relative {
      camera.OnApplyPositionIndependentMatrix(gl);
    } else {
      camera.OnApplyMatrix(gl);
    }
    forall p {
      ProjectionDoesNotAccumulate(earlier, camera.Bounds(), camera.flipped, p);
    }
  }
}
