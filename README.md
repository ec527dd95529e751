# Camera of a 2D rendering engine, in Dafny

This project models the `Camera` class of a 2D Android game engine. The camera holds:

- a viewport rectangle in world units (`minX`, `maxX`, `minY`, `maxY`);
- an orientation flag that a `flip` toggles (a half-turn of the picture);
- an optional HUD, an overlay drawn on top of the scene in a frame that does not scroll with the viewport.

The camera re-centres the viewport, forwards update ticks and draw requests to the HUD, and issues the projection commands for the two draw modes: world-relative and viewport-relative. It also forwards a shape's box to a collision primitive for culling. Finally, it rewrites pointer events between surface pixels, scene coordinates and HUD coordinates.

Files:

- `viewport.dfy` (module `Viewport`): the rectangle as a value and its read-outs, re-centering, the box forwarded for visibility, and the three pointer conversions as functions. Lemmas cover their round trips, closed forms and bounds.
- `projection.dfy` (module `Projection`): the projection set-up of each mode as the list of commands it sends. `Transform` gives those commands their usual meaning on a point, which is the OpenGL meaning of a projection reset, `gluOrtho2D`, `glTranslatef` with z = 0 and `glRotatef(180, 0, 0, 1)`. Against it the lemmas prove three things. Issuing a set-up discards everything issued before it. The flip pivots differ between the two modes. Input agrees with drawing: a pointer at the pixel where a world point (or a HUD point) is drawn converts back to that point, flipped or not.
- `lifecycle.dfy` (module `Lifecycle`): the camera's own state (bounds and flag) as a value, and `Step`, the effect of each operation on it. Inductive lemmas follow any sequence of operations. The size never changes, the flag is the parity of the flips, and the centre is the one last requested.
- `camera.dfy` (module `EngineCamera`): the classes. `Camera` has the Java class's fields and one method per state-changing or forwarding method; the getters are the fields themselves and the `Viewport` read-outs of `Bounds()` (see Left out), and the private overload of `convertSurfaceToSceneMotionEvent` that takes a relative position is `ConvertRelativeToSceneMotionEvent`. `MotionEvent` holds the x/y pair that `SetLocation` rewrites. `HUD` holds its camera link plus ghost logs of the update ticks and draw requests it receives. `GL` holds the log of commands sent to it. Each camera method's `ensures` ties the new state to the functions above and says what stays unchanged.

Coordinates are `real`, so the equalities are exact. In the Java class they are 32-bit floats, so the centre after `setCenter` and the scene/HUD round trip hold there only up to rounding.

Two behaviours of the Java class that the model keeps as written:

- The constructor does not check that the width and height are non-negative. The model has no `minX <= maxX` invariant; lemmas that need one say so.
- Converting with a surface width or height of zero does not throw in the Java class. Float division yields an infinity or NaN. The model requires a non-zero size.

## Model

| member | source | states |
|---|---|---|
| `Viewport.OfOriginAndSize` | src/org/anddev/andengine/engine/camera/Camera.java:40-45 | the constructed rectangle starts at (x, y) and has exactly the given width and height; it is well-formed iff both sizes are non-negative |
| `EngineCamera.Camera.constructor` | src/org/anddev/andengine/engine/camera/Camera.java:40-45 | after construction minX = x, maxX = x + width, minY = y, maxY = y + height, no HUD, not flipped; getWidth/getHeight return the given size |
| `Lifecycle.Initial` | src/org/anddev/andengine/engine/camera/Camera.java:40-45 | the initial camera state has the given origin and size and is not flipped |
| `Viewport.CenterIsMidpoint` | src/org/anddev/andengine/engine/camera/Camera.java:67-81 | getCenterX/getCenterY are the midpoints of the bounds and lie inside a well-formed rectangle, whose getWidth/getHeight are non-negative |
| `Viewport.Recentered` | src/org/anddev/andengine/engine/camera/Camera.java:83-91 | re-centering keeps width and height and puts the centre exactly at (cx, cy), which determines the new rectangle |
| `Viewport.RecenteredIsTranslation` | src/org/anddev/andengine/engine/camera/Camera.java:83-91 | all four bounds move by the same per-axis offset, the difference between the requested and the old centre; well-formedness is kept both ways |
| `Viewport.RecenterIdentityAndLastWins` | src/org/anddev/andengine/engine/camera/Camera.java:83-91 | re-centering on the current centre changes nothing; two re-centerings in a row equal the last one alone |
| `EngineCamera.Camera.SetCenter` | src/org/anddev/andengine/engine/camera/Camera.java:83-91 | the new bounds are the old ones re-centred on (cx, cy): same width and height, centre (cx, cy); flag and HUD untouched |
| `Lifecycle.RunKeepsSize` | src/org/anddev/andengine/engine/camera/Camera.java:83-128 | after any sequence of re-centerings, flips, resets and updates the width and height are those the camera started with |
| `Lifecycle.RunCenterIsLastRequested` | src/org/anddev/andengine/engine/camera/Camera.java:83-128 | after any sequence of operations the centre is the one requested by the last setCenter in it |
| `Lifecycle.RunWithoutSetCenterKeepsBounds` | src/org/anddev/andengine/engine/camera/Camera.java:110-128 | a sequence of operations without setCenter leaves the bounds exactly as they were |
| `EngineCamera.Camera.SetHUD` | src/org/anddev/andengine/engine/camera/Camera.java:97-100 | the given (non-null) HUD is attached and its camera link is this camera; bounds, flag and the HUD's logs are unchanged |
| `EngineCamera.Camera.HasHUD` | src/org/anddev/andengine/engine/camera/Camera.java:102-104 | true exactly when a HUD is attached |
| `EngineCamera.Camera.OnUpdate` | src/org/anddev/andengine/engine/camera/Camera.java:110-115 | with a HUD attached, exactly one tick with the given elapsed time is appended to the HUD's update log and nothing else changes; without one nothing changes |
| `EngineCamera.Camera.Reset` | src/org/anddev/andengine/engine/camera/Camera.java:117-120 | reset leaves bounds and flag as they were |
| `Lifecycle.ResetAndUpdateKeepState` | src/org/anddev/andengine/engine/camera/Camera.java:110-120 | neither reset nor an update tick changes the camera's own bounds or flag |
| `EngineCamera.Camera.Flip` | src/org/anddev/andengine/engine/camera/Camera.java:126-128 | the flag is negated; bounds and HUD untouched |
| `Lifecycle.FlipIsInvolution` | src/org/anddev/andengine/engine/camera/Camera.java:126-128 | a flip always changes the state, only in its flag, and two flips restore it |
| `Lifecycle.RunFlipParity` | src/org/anddev/andengine/engine/camera/Camera.java:126-128 | after any sequence of operations the camera is flipped iff it started flipped xor an odd number of flips happened |
| `EngineCamera.Camera.OnDrawHUD` | src/org/anddev/andengine/engine/camera/Camera.java:130-134 | with a HUD attached exactly one draw request reaches it; without one nothing changes |
| `Viewport.ShapeBox` | src/org/anddev/andengine/engine/camera/Camera.java:136-140 | the shape's box starts at the shape's position and spans its scaled width and height |
| `EngineCamera.Camera.IsRectangularShapeVisible` | src/org/anddev/andengine/engine/camera/Camera.java:136-143 | reads only; the answer is the collision primitive applied to the viewport box and then the shape's box, each as (left, top, right, bottom) |
| `EngineCamera.Camera.OnApplyMatrix` | src/org/anddev/andengine/engine/camera/Camera.java:145-153 | sends exactly the world-relative set-up: reset, ortho over the bounds with y pointing down, and when flipped the half-turn about the viewport centre |
| `EngineCamera.Camera.OnApplyPositionIndependentMatrix` | src/org/anddev/andengine/engine/camera/Camera.java:155-166 | sends exactly the viewport-relative set-up: reset, ortho over [0, width] x [0, height], and when flipped the half-turn about (width/2, height/2) |
| `EngineCamera.Camera.RotateHalfAround` | src/org/anddev/andengine/engine/camera/Camera.java:168-172 | sends translate(+c), rotate 180 about z, translate(-c), in that order |
| `Projection.RotateHalfAroundReflects` | src/org/anddev/andengine/engine/camera/Camera.java:168-172 | those three commands reflect every point through the pivot c |
| `Projection.FlipPivots` | src/org/anddev/andengine/engine/camera/Camera.java:145-166 | flipped world drawing is unflipped drawing of the point reflected through the viewport centre; flipped HUD drawing reflects through (width/2, height/2) |
| `Projection.UnflippedIsOrtho` | src/org/anddev/andengine/engine/camera/Camera.java:145-166 | without a flip, each set-up maps a point by its orthographic projection alone: the bounds with y pointing down, or [0, width] x [0, height] |
| `Projection.ProjectionDoesNotAccumulate` | src/org/anddev/andengine/engine/camera/Camera.java:145-166 | each set-up starts with a reset, so whatever was issued before it (an earlier frame's set-up included) has no effect |
| `EngineCamera.ApplyProjection` | src/org/anddev/andengine/engine/camera/Camera.java:145-166 | after either set-up the context's projection is that set-up's projection, whatever it held before |
| `Projection.PositionIndependentIsShiftedWorld` | src/org/anddev/andengine/engine/camera/Camera.java:145-166 | for a non-empty viewport, drawing a HUD point viewport-relatively puts it where world-relative drawing puts that point moved by the viewport origin, flipped or not |
| `EngineCamera.Camera.ConvertSceneToHUDMotionEvent` | src/org/anddev/andengine/engine/camera/Camera.java:174-178 | the event's location becomes its old location minus (minX, minY); the camera is not modified |
| `EngineCamera.Camera.ConvertHUDToSceneMotionEvent` | src/org/anddev/andengine/engine/camera/Camera.java:180-184 | the event's location becomes its old location plus (minX, minY); the camera is not modified |
| `Viewport.SceneHUDRoundTrip` | src/org/anddev/andengine/engine/camera/Camera.java:174-184 | scene to HUD then HUD to scene, and the reverse order, both give back the original point |
| `Viewport.HUDOriginIsViewportCorner` | src/org/anddev/andengine/engine/camera/Camera.java:174-178 | a scene point maps to the HUD origin iff it is the viewport's (minX, minY) corner |
| `EngineCamera.RouteThroughHUD` | src/org/anddev/andengine/engine/camera/Camera.java:174-184 | an event converted to HUD space and back ends at its original location |
| `EngineCamera.Camera.ConvertSurfaceToSceneMotionEvent` | src/org/anddev/andengine/engine/camera/Camera.java:186-199 | for a non-zero surface size the event's new location is the surface-to-scene image of its old one under the current bounds and flag |
| `EngineCamera.Camera.ConvertRelativeToSceneMotionEvent` | src/org/anddev/andengine/engine/camera/Camera.java:201-211 | the event's new location is the relative position mapped affinely into the viewport |
| `Viewport.SurfaceToSceneFormula` | src/org/anddev/andengine/engine/camera/Camera.java:186-211 | the result is minX + (px/W)(maxX-minX), minY + (py/H)(maxY-minY) unflipped, and the same with 1 - px/W and 1 - py/H when flipped |
| `Viewport.FlippedIsMirroredPixel` | src/org/anddev/andengine/engine/camera/Camera.java:190-198 | a flipped conversion of pixel (px, py) equals the unflipped conversion of pixel (W - px, H - py) |
| `Viewport.SurfaceToSceneInViewport` | src/org/anddev/andengine/engine/camera/Camera.java:186-211 | a pointer on a surface of positive size lands inside a well-formed viewport, flipped or not |
| `Viewport.SurfaceOriginCorner` | src/org/anddev/andengine/engine/camera/Camera.java:186-211 | the surface's top-left pixel lands on (minX, minY), or on (maxX, maxY) when flipped |
| `Projection.DrawnPointConvertsBack` | src/org/anddev/andengine/engine/camera/Camera.java:186-211 | for a non-empty viewport and non-zero surface, the pointer at the pixel where the world-relative projection draws a point converts back to exactly that point, flipped or not |
| `Projection.DrawnHUDPointConvertsBack` | src/org/anddev/andengine/engine/camera/Camera.java:155-211 | the pointer at the pixel where the viewport-relative projection draws a HUD point, converted surface to scene and then scene to HUD, gives back exactly that HUD point, flipped or not |

## Left out

- Graphics API: the matrix arithmetic of `GLHelper`, `GLU` and `GL10` is not modelled. The camera's calls are recorded as commands, and `Projection.Transform` is a reference meaning of them on points of the z = 0 plane. A `gluOrtho2D` over an empty range is taken as ignored, as OpenGL ignores it with an error.
- Surface pixels: the two consistency lemmas assume that the drawing surface's viewport covers the whole surface and that pixel y grows downward. The viewport set-up is not part of this model.
- Collision: `CollisionChecker.checkAxisAlignedBoxCollision` is a function-typed parameter. Its treatment of touching edges is not part of this model, so neither is a property that a shape touching the viewport edge is visible.
- HUD internals: the HUD's drawing, its update handlers and its layout are not modelled. Its `onUpdate` and `onDraw` are recorded as ghost logs. The model assumes they do not touch the camera, although a real HUD's handlers could call `setCenter`.
- `getHUD` and `getMinX`/`getMaxX`/`getMinY`/`getMaxY` are the fields `hud`, `minX`, `maxX`, `minY` and `maxY` themselves. `getWidth`, `getHeight`, `getCenterX` and `getCenterY` are `Viewport.Width`, `Height`, `CenterX` and `CenterY` of `Bounds()`.
- `EngineCamera.Camera.SetHUD`: takes a non-null HUD. In the Java class, `setHUD(null)` stores null and then throws a NullPointerException; that path is not modelled.
- `EngineCamera.Camera.ConvertSurfaceToSceneMotionEvent`: requires a non-zero surface width and height. With zero, the Java class's float division yields an infinity or NaN, which `real` cannot represent.
- Floating point: 32-bit rounding and the int-to-float conversion of the surface size are abstracted by `real`.
- `MotionEvent` beyond its x/y location and `RectangularShape` beyond its position and scaled size are not modelled.
- Threading: the Java class has none, so none is modelled.
