/**
 The camera's own state (its bounds and its flip flag) as a value, and the
 effect of each camera operation on it. The methods of the camera class are
 specified by `Step`; the lemmas here follow the state through any sequence of
 operations: the rectangle is only ever moved, never resized, the flag is the
 parity of the flips, and the centre is the one last requested.
 */
module Lifecycle {
  import opened Viewport

  datatype CameraState = CameraState(bounds: Rect, flipped: bool)

  /**
   The operations of the camera that could touch its own state. Attaching a
   HUD, drawing it, the visibility test, the projection set-up and the event
   conversions leave it alone as well; their frames in the camera class say so.
   */
  datatype Op =
    | SetCenter(cx: real, cy: real)
    | Flip
    | Reset
    | Update(secondsElapsed: real)

  /** The state right after construction: the given rectangle, not flipped. */
  function Initial(x: real, y: real, width: real, height: real): (s: CameraState)
    ensures s.bounds.minX == x && s.bounds.minY == y
    ensures Width(s.bounds) == width && Height(s.bounds) == height
    ensures !s.flipped
  {
    CameraState(OfOriginAndSize(x, y, width, height), false)
  }

  function Step(s: CameraState, op: Op): CameraState {
    match op
    case SetCenter(cx, cy) => s.(bounds := Recentered(s.bounds, cx, cy))
    case Flip => s.(flipped := !s.flipped)
    case Reset => s
    case Update(_) => s
  }

  function Run(s: CameraState, ops: seq<Op>): CameraState
    decreases |ops|
  {
    if ops == [] then s else Run(Step(s, ops[0]), ops[1..])
  }

  function FlipCount(ops: seq<Op>): nat
    decreases |ops|
  {
    if ops == [] then 0 else (if ops[0].Flip? then 1 else 0) + FlipCount(ops[1..])
  }

  /** Flip always changes the flag, and flipping twice restores the state. */
  lemma {:induction false} FlipIsInvolution(s: CameraState)
    ensures Step(s, Flip) != s && Step(s, Flip).bounds == s.bounds
    ensures Step(Step(s, Flip), Flip) == s
  {
  }

  /** Reset and the per-frame update leave the camera's own state as it is. */
  lemma {:induction false} ResetAndUpdateKeepState(s: CameraState, secondsElapsed: real)
    ensures Step(s, Reset) == s && Step(s, Update(secondsElapsed)) == s
  {
  }

  /** Whatever the camera goes through, its width and height stay those it was built with. */
  lemma {:induction false} RunKeepsSize(s: CameraState, ops: seq<Op>)
    ensures Width(Run(s, ops).bounds) == Width(s.bounds)
    ensures Height(Run(s, ops).bounds) == Height(s.bounds)
    decreases |ops|
  {
    if ops != [] {
      RunKeepsSize(Step(s, ops[0]), ops[1..]);
    }
  }

  /** The flag ends up flipped exactly when an odd number of flips happened. */
  lemma {:induction false} RunFlipParity(s: CameraState, ops: seq<Op>)
    ensures Run(s, ops).flipped == (s.flipped != (FlipCount(ops) % 2 == 1))
    decreases |ops|
  {
    if ops != [] {
      RunFlipParity(Step(s, ops[0]), ops[1..]);
    }
  }

  /** Without a re-centering the bounds never change. */
  lemma {:induction false} RunWithoutSetCenterKeepsBounds(s: CameraState, ops: seq<Op>)
    requires forall j :: 0 <= j < |ops| ==> !ops[j].SetCenter?
    ensures Run(s, ops).bounds == s.bounds
    decreases |ops|
  {
    if ops != [] {
      RunWithoutSetCenterKeepsBounds(Step(s, ops[0]), ops[1..]);
    }
  }

  /** After a sequence of operations the centre is the one the last re-centering asked for. */
  lemma {:induction false} RunCenterIsLastRequested(s: CameraState, ops: seq<Op>, i: nat)
    requires i < |ops| && ops[i].SetCenter?
    requires forall j :: i < j < |ops| ==> !ops[j].SetCenter?
    ensures CenterX(Run(s, ops).bounds) == ops[i].cx
    ensures CenterY(Run(s, ops).bounds) == ops[i].cy
    decreases |ops|
  {
    if i == 0 {
      RunWithoutSetCenterKeepsBounds(Step(s, ops[0]), ops[1..]);
    } else {
      RunCenterIsLastRequested(Step(s, ops[0]), ops[1..], i - 1);
    }
  }
}
