/** The touch handlers `onTouchStart`, `onTouchMove` and `onTouchEnd` as
    transitions of the gesture state they update: the anchor `touchStart`,
    the `touchStarted` flag, the yaw and pitch angles (radians) and the dolly
    accumulator. The controller class applies these in place. */
module Gesture {
  import opened Wrappers
  import opened Numerics

  /** One touch point of a touch event. */
  datatype Touch = Touch(pageX: real, pageY: real)

  /** The anchor `touchStart`: the last touch (or two-finger midpoint) and
      the last pinch distance; `dist` is None while it is undefined or NaN,
      which is what the source's `isFinite` test rejects. */
  datatype Anchor = Anchor(x: real, y: real, dist: Option<real>)

  /** The render canvas, by its client size in pixels. */
  datatype Canvas = Canvas(clientWidth: real, clientHeight: real)
  {
    predicate Valid()
    {
      clientWidth > 0.0 && clientHeight > 0.0
    }
  }

  /** The state the touch handlers read and write. `touchStart` is None
      until the first anchoring event. */
  datatype Tracker = Tracker(touchStart: Option<Anchor>, touchStarted: bool,
                             yaw: real, pitch: real, dolly: Vec3)

  /** Touch-count classes the handlers act on. */
  predicate Handled(touches: seq<Touch>)
  {
    |touches| == 1 || |touches| == 2
  }

  function AnchorAt(t: Touch): Anchor
  {
    Anchor(t.pageX, t.pageY, None)
  }

  /** The pitch constraint `min(maxPitchRad, max(minPitchRad, pitch))`. */
  function ClampPitch(minPitchRad: real, maxPitchRad: real, pitch: real): (r: real)
    ensures minPitchRad <= maxPitchRad ==> minPitchRad <= r <= maxPitchRad
    ensures minPitchRad <= pitch <= maxPitchRad ==> r == pitch
    ensures maxPitchRad < minPitchRad ==> r == maxPitchRad
    ensures minPitchRad <= maxPitchRad && pitch > maxPitchRad ==> r == maxPitchRad
    ensures minPitchRad <= maxPitchRad && pitch < minPitchRad ==> r == minPitchRad
  {
    Min(maxPitchRad, Max(minPitchRad, pitch))
  }

  /** A drag from `from` to `to` across a screen extent, as an angle: a drag
      the size of the extent is a full turn. */
  function DragAngle(from: real, to: real, extent: real): real
    requires extent > 0.0
  {
    TwoPi * (to - from) / extent
  }

  /** A sample that moved more than 1.5 is treated as a tracking glitch. */
  predicate IsGlitch(delta: real)
  {
    Abs(delta) > 1.5
  }

  function Distance(math: MathLib, a: Touch, b: Touch): real
  {
    math.sqrt((a.pageX - b.pageX) * (a.pageX - b.pageX) + (a.pageY - b.pageY) * (a.pageY - b.pageY))
  }

  /** The diagonal of a square on the canvas's shorter side: a pinch that
      long is a full turn. */
  function MaxDist(math: MathLib, canvas: Canvas): (d: real)
    requires math.Valid() && canvas.Valid()
    ensures d > 0.0
  {
    var minScreenDim := Min(canvas.clientWidth, canvas.clientHeight);
    assert minScreenDim * minScreenDim > 0.0;
    math.sqrt(minScreenDim * minScreenDim + minScreenDim * minScreenDim)
  }

  /** onTouchStart: one touch anchors to it and starts the gesture; two
      touches anchor to the FIRST touch (not the midpoint) with no pinch
      distance and leave the flag alone; any other count changes nothing. */
  function TouchStart(s: Tracker, touches: seq<Touch>): (r: Tracker)
    ensures r.yaw == s.yaw && r.pitch == s.pitch && r.dolly == s.dolly
    ensures Handled(touches) ==> r.touchStart == Some(AnchorAt(touches[0]))
    ensures r.touchStarted == (s.touchStarted || |touches| == 1)
    ensures !Handled(touches) ==> r == s
  {
    if |touches| == 1 then s.(touchStart := Some(AnchorAt(touches[0])), touchStarted := true)
    else if |touches| == 2 then s.(touchStart := Some(AnchorAt(touches[0])))
    else s
  }

  /** onTouchMove. None when the handler throws: with one or two touches
      it reads `touchStart`, which is undefined before the first anchoring
      event. One touch turns (yaw from the horizontal drag, pitch from the
      vertical drag, then the pitch clamp) and re-anchors unless the
      vertical drag is a glitch: the guard compares that same delta twice
      and never the horizontal one. Two touches first give the anchor a
      pinch distance if it has none; unless the horizontal midpoint drag is
      a glitch (again one delta compared twice) they pan and pinch the
      dolly, re-clamp the pitch and re-anchor to the midpoint. Other counts change nothing. */
  function TouchMove(s: Tracker, touches: seq<Touch>, canvas: Canvas, math: MathLib,
                     minPitchRad: real, maxPitchRad: real): (r: Option<Tracker>)
    requires canvas.Valid() && math.Valid()
    ensures r.None? <==> Handled(touches) && s.touchStart.None?
    ensures !Handled(touches) ==> r == Some(s)
    ensures r.Some? ==> r.value.touchStarted == s.touchStarted
    ensures r.Some? && |touches| == 1 ==> r.value.dolly == s.dolly
    ensures r.Some? && |touches| == 1 && minPitchRad <= maxPitchRad ==>
      minPitchRad <= r.value.pitch <= maxPitchRad
    ensures r.Some? && |touches| == 2 ==> r.value.yaw == s.yaw
    ensures r.Some? && minPitchRad <= s.pitch <= maxPitchRad ==>
      minPitchRad <= r.value.pitch <= maxPitchRad
  {
    if |touches| == 1 then
      if s.touchStart.None? then None
      else Some(OneFingerMove(s, s.touchStart.value, touches[0], canvas, minPitchRad, maxPitchRad))
    else if |touches| == 2 then
      if s.touchStart.None? then None
      else Some(TwoFingerMove(s, s.touchStart.value, touches[0], touches[1], canvas, math, minPitchRad, maxPitchRad))
    else Some(s)
  }

  /** The one-finger branch of onTouchMove, from the anchor `start`. */
  function OneFingerMove(s: Tracker, start: Anchor, u: Touch, canvas: Canvas,
                         minPitchRad: real, maxPitchRad: real): (r: Tracker)
    requires canvas.Valid()
    ensures r.touchStarted == s.touchStarted && r.dolly == s.dolly
    ensures minPitchRad <= maxPitchRad ==> minPitchRad <= r.pitch <= maxPitchRad
    ensures minPitchRad <= s.pitch <= maxPitchRad ==> minPitchRad <= r.pitch <= maxPitchRad
  {
    // The source names the horizontal angle deltaY (it turns the yaw) and
    // the vertical one deltaX (it turns the pitch).
    var deltaY := DragAngle(start.x, u.pageX, canvas.clientWidth);
    var deltaX := DragAngle(start.y, u.pageY, canvas.clientHeight);
    var turned := s.(yaw := s.yaw - deltaY * 0.2,
                     pitch := ClampPitch(minPitchRad, maxPitchRad, s.pitch - deltaX * 0.25));
    if IsGlitch(deltaX) || IsGlitch(deltaX) then turned
    else turned.(touchStart := Some(AnchorAt(u)))
  }

  /** The midpoint of two touches, which a two-finger gesture tracks. */
  function Midpoint(u: Touch, v: Touch): Touch
  {
    Touch((u.pageX + v.pageX) / 2.0, (u.pageY + v.pageY) / 2.0)
  }

  /** The anchor a two-finger move measures from: `start`, given the pinch
      distance `dist` if it has none yet. */
  function Pinched(start: Anchor, dist: real): (a: Anchor)
    ensures a.x == start.x && a.y == start.y && a.dist.Some?
    ensures start.dist.None? ==> a.dist == Some(dist)
    ensures start.dist.Some? ==> a == start
  {
    if start.dist.Some? then start else start.(dist := Some(dist))
  }

  /** The two-finger branch of onTouchMove, from the anchor `start`. The
      pinch delta is an angle like the drags: a pinch as long as MaxDist is
      a full turn. */
  function TwoFingerMove(s: Tracker, start: Anchor, u: Touch, v: Touch, canvas: Canvas, math: MathLib,
                         minPitchRad: real, maxPitchRad: real): (r: Tracker)
    requires canvas.Valid() && math.Valid()
    ensures r.touchStarted == s.touchStarted && r.yaw == s.yaw
    ensures minPitchRad <= s.pitch <= maxPitchRad ==> minPitchRad <= r.pitch <= maxPitchRad
  {
    var m := Midpoint(u, v);
    var dist := Distance(math, u, v);
    var pinched := Pinched(start, dist);
    var deltaX := DragAngle(pinched.x, m.pageX, canvas.clientWidth);
    var deltaY := DragAngle(pinched.y, m.pageY, canvas.clientHeight);
    var deltaDist := DragAngle(pinched.dist.value, dist, MaxDist(math, canvas));
    if IsGlitch(deltaX) || IsGlitch(deltaX) then s.(touchStart := Some(pinched))
    else
      s.(dolly := Vec3(s.dolly.x + deltaX * 0.5, s.dolly.y + deltaY * 0.5, s.dolly.z + deltaDist * 0.5),
         pitch := ClampPitch(minPitchRad, maxPitchRad, s.pitch),
         touchStart := Some(Anchor(m.pageX, m.pageY, Some(dist))))
  }

  /** onTouchEnd: the gesture stops, unless exactly one finger remains, in
      which case the anchor moves to that finger and the gesture goes on. */
  function TouchEnd(s: Tracker, touches: seq<Touch>): (r: Tracker)
    ensures r.yaw == s.yaw && r.pitch == s.pitch && r.dolly == s.dolly
    ensures r.touchStarted <==> |touches| == 1
    ensures |touches| == 1 ==> r.touchStart == Some(AnchorAt(touches[0]))
    ensures |touches| != 1 ==> r.touchStart == s.touchStart
  {
    if |touches| == 1 then s.(touchStart := Some(AnchorAt(touches[0])), touchStarted := true)
    else s.(touchStarted := false)
  }

  // ---------------------------------------------------------------------
  // Single moves

  /** The one-finger guard ignores the horizontal drag: with no vertical
      motion, any horizontal jump is applied in full to the yaw and
      re-anchors. */
  lemma OneFingerGuardIgnoresHorizontal(s: Tracker, u: Touch, canvas: Canvas, math: MathLib,
                                        minPitchRad: real, maxPitchRad: real)
    requires canvas.Valid() && math.Valid()
    requires s.touchStart.Some? && u.pageY == s.touchStart.value.y
    ensures var r := TouchMove(s, [u], canvas, math, minPitchRad, maxPitchRad);
      r.Some? && r.value.touchStart == Some(AnchorAt(u)) &&
      r.value.yaw == s.yaw - DragAngle(s.touchStart.value.x, u.pageX, canvas.clientWidth) * 0.2 &&
      r.value.pitch == ClampPitch(minPitchRad, maxPitchRad, s.pitch)
  {
    assert DragAngle(s.touchStart.value.y, u.pageY, canvas.clientHeight) == 0.0;
  }

  /** An unglitched one-finger move turns the yaw by 0.2 of the horizontal
      drag angle and the pitch by 0.25 of the vertical one, clamps the
      pitch, and re-anchors to the finger; nothing else changes. */
  lemma OneFingerSteadyMove(s: Tracker, u: Touch, canvas: Canvas, math: MathLib,
                            minPitchRad: real, maxPitchRad: real)
    requires canvas.Valid() && math.Valid()
    requires s.touchStart.Some?
    requires !IsGlitch(DragAngle(s.touchStart.value.y, u.pageY, canvas.clientHeight))
    ensures var a := s.touchStart.value;
      TouchMove(s, [u], canvas, math, minPitchRad, maxPitchRad)
      == Some(s.(yaw := s.yaw - 0.2 * DragAngle(a.x, u.pageX, canvas.clientWidth),
                 pitch := ClampPitch(minPitchRad, maxPitchRad,
                                     s.pitch - 0.25 * DragAngle(a.y, u.pageY, canvas.clientHeight)),
                 touchStart := Some(AnchorAt(u))))
  {
  }

  /** A vertical glitch still turns the camera, yaw and pitch alike, but
      keeps the old anchor. */
  lemma OneFingerGlitchKeepsAnchor(s: Tracker, u: Touch, canvas: Canvas, math: MathLib,
                                   minPitchRad: real, maxPitchRad: real)
    requires canvas.Valid() && math.Valid()
    requires s.touchStart.Some?
    requires IsGlitch(DragAngle(s.touchStart.value.y, u.pageY, canvas.clientHeight))
    ensures var a := s.touchStart.value;
      TouchMove(s, [u], canvas, math, minPitchRad, maxPitchRad)
      == Some(s.(yaw := s.yaw - 0.2 * DragAngle(a.x, u.pageX, canvas.clientWidth),
                 pitch := ClampPitch(minPitchRad, maxPitchRad,
                                     s.pitch - 0.25 * DragAngle(a.y, u.pageY, canvas.clientHeight))))
  {
  }

  /** Because a glitch keeps the anchor, a finger held still after a
      vertical glitch turns the yaw again by the same amount on every move
      event: n such events turn it n times. */
  lemma {:induction false} GlitchedFingerKeepsTurning(s: Tracker, u: Touch, events: seq<TouchEvent>,
                                                      canvas: Canvas, math: MathLib,
                                                      minPitchRad: real, maxPitchRad: real)
    requires canvas.Valid() && math.Valid()
    requires s.touchStart.Some?
    requires IsGlitch(DragAngle(s.touchStart.value.y, u.pageY, canvas.clientHeight))
    requires forall i :: 0 <= i < |events| ==> events[i] == MoveEvent([u])
    ensures var r := Run(s, events, canvas, math, minPitchRad, maxPitchRad);
      r.touchStart == s.touchStart &&
      r.yaw == s.yaw - (|events| as real) * (0.2 * DragAngle(s.touchStart.value.x, u.pageX, canvas.clientWidth))
    decreases |events|
  {
    if events != [] {
      var turn := 0.2 * DragAngle(s.touchStart.value.x, u.pageX, canvas.clientWidth);
      OneFingerGlitchKeepsAnchor(s, u, canvas, math, minPitchRad, maxPitchRad);
      var s1 := Step(s, events[0], canvas, math, minPitchRad, maxPitchRad);
      assert s1.touchStart == s.touchStart && s1.yaw == s.yaw - turn;
      GlitchedFingerKeepsTurning(s1, u, events[1..], canvas, math, minPitchRad, maxPitchRad);
      assert (|events| as real) * turn == turn + (|events[1..]| as real) * turn;
    }
  }

  /** The first two-finger move after an anchoring event only records the
      pinch distance: it does not zoom. */
  lemma TwoFingerFirstSampleDoesNotZoom(s: Tracker, u: Touch, v: Touch, canvas: Canvas, math: MathLib,
                                        minPitchRad: real, maxPitchRad: real)
    requires canvas.Valid() && math.Valid()
    requires s.touchStart.Some? && s.touchStart.value.dist.None?
    ensures var r := TouchMove(s, [u, v], canvas, math, minPitchRad, maxPitchRad);
      r.Some? && r.value.dolly.z == s.dolly.z &&
      r.value.touchStart.Some? && r.value.touchStart.value.dist == Some(Distance(math, u, v))
  {
  }

  /** A two-finger glitch leaves the dolly, the pitch and the anchor's
      position alone. The anchor keeps the pinch distance it already had,
      and takes the current one only if it had none. */
  lemma TwoFingerGlitchKeepsDolly(s: Tracker, u: Touch, v: Touch, canvas: Canvas, math: MathLib,
                                  minPitchRad: real, maxPitchRad: real)
    requires canvas.Valid() && math.Valid()
    requires s.touchStart.Some?
    requires IsGlitch(DragAngle(s.touchStart.value.x, (u.pageX + v.pageX) / 2.0, canvas.clientWidth))
    ensures var r := TouchMove(s, [u, v], canvas, math, minPitchRad, maxPitchRad);
      r.Some? && r.value.dolly == s.dolly && r.value.pitch == s.pitch &&
      r.value.touchStart.Some? &&
      r.value.touchStart.value.x == s.touchStart.value.x &&
      r.value.touchStart.value.y == s.touchStart.value.y &&
      r.value.touchStart.value.dist.Some?
    ensures TouchMove(s, [u, v], canvas, math, minPitchRad, maxPitchRad)
      == Some(s.(touchStart := Some(Pinched(s.touchStart.value, Distance(math, u, v)))))
  {
  }

  /** An unglitched two-finger move pans the dolly by half the midpoint's
      drag angles, zooms it by half the pinch angle measured from the
      anchor's pinch distance (or from the current one, the first time),
      re-clamps the pitch, and re-anchors to the midpoint and the current
      pinch distance; the yaw and the flag stay. */
  lemma TwoFingerSteadyMove(s: Tracker, u: Touch, v: Touch, canvas: Canvas, math: MathLib,
                            minPitchRad: real, maxPitchRad: real)
    requires canvas.Valid() && math.Valid()
    requires s.touchStart.Some?
    requires !IsGlitch(DragAngle(s.touchStart.value.x, Midpoint(u, v).pageX, canvas.clientWidth))
    ensures var dist := Distance(math, u, v);
      var a := Pinched(s.touchStart.value, dist);
      var m := Midpoint(u, v);
      TouchMove(s, [u, v], canvas, math, minPitchRad, maxPitchRad)
      == Some(s.(dolly := Vec3(s.dolly.x + 0.5 * DragAngle(a.x, m.pageX, canvas.clientWidth),
                               s.dolly.y + 0.5 * DragAngle(a.y, m.pageY, canvas.clientHeight),
                               s.dolly.z + 0.5 * DragAngle(a.dist.value, dist, MaxDist(math, canvas))),
                 pitch := ClampPitch(minPitchRad, maxPitchRad, s.pitch),
                 touchStart := Some(Anchor(m.pageX, m.pageY, Some(dist)))))
  {
  }

  /** The two-finger guard ignores the vertical drag: a midpoint jump
      straight up or down, however large, is applied in full to the dolly
      and re-anchors. */
  lemma TwoFingerGuardIgnoresVertical(s: Tracker, u: Touch, v: Touch, canvas: Canvas, math: MathLib,
                                      minPitchRad: real, maxPitchRad: real)
    requires canvas.Valid() && math.Valid()
    requires s.touchStart.Some? && Midpoint(u, v).pageX == s.touchStart.value.x
    ensures var r := TouchMove(s, [u, v], canvas, math, minPitchRad, maxPitchRad);
      var m := Midpoint(u, v);
      r.Some? && r.value.touchStart == Some(Anchor(m.pageX, m.pageY, Some(Distance(math, u, v)))) &&
      r.value.dolly.x == s.dolly.x &&
      r.value.dolly.y == s.dolly.y + 0.5 * DragAngle(s.touchStart.value.y, m.pageY, canvas.clientHeight)
  {
    assert DragAngle(s.touchStart.value.x, Midpoint(u, v).pageX, canvas.clientWidth) == 0.0;
  }

  /** Lifting one of two fingers re-anchors to the remaining one, so moving
      that finger to where it already is turns nothing. */
  lemma LiftToOneFingerNoJump(s: Tracker, u: Touch, canvas: Canvas, math: MathLib,
                              minPitchRad: real, maxPitchRad: real)
    requires canvas.Valid() && math.Valid()
    ensures var r := TouchMove(TouchEnd(s, [u]), [u], canvas, math, minPitchRad, maxPitchRad);
      r.Some? && r.value.yaw == s.yaw && r.value.dolly == s.dolly &&
      r.value.pitch == ClampPitch(minPitchRad, maxPitchRad, s.pitch) &&
      r.value.touchStart == Some(AnchorAt(u)) && r.value.touchStarted
  {
    var e := TouchEnd(s, [u]);
    assert DragAngle(e.touchStart.value.x, u.pageX, canvas.clientWidth) == 0.0;
    assert DragAngle(e.touchStart.value.y, u.pageY, canvas.clientHeight) == 0.0;
  }

  /** A 100-pixel horizontal drag on a 1000 by 800 canvas turns the yaw by
      0.2 * 2 * pi * 100 / 1000 radians (7.2 degrees). */
  lemma OneFingerDragScenario(s: Tracker, math: MathLib, minPitchRad: real, maxPitchRad: real)
    requires math.Valid()
    requires s.touchStart == Some(Anchor(500.0, 400.0, None))
    ensures var r := TouchMove(s, [Touch(600.0, 400.0)], Canvas(1000.0, 800.0), math, minPitchRad, maxPitchRad);
      r.Some? && r.value.yaw == s.yaw - 0.04 * Pi && RadToDeg(s.yaw - r.value.yaw) == 7.2
  {
  }

  // ---------------------------------------------------------------------
  // Event sequences

  datatype TouchEvent =
    | StartEvent(touches: seq<Touch>)
    | MoveEvent(touches: seq<Touch>)
    | EndEvent(touches: seq<Touch>)

  /** One event; a handler that throws leaves the state as it was. */
  function Step(s: Tracker, e: TouchEvent, canvas: Canvas, math: MathLib,
                minPitchRad: real, maxPitchRad: real): Tracker
    requires canvas.Valid() && math.Valid()
  {
    match e
    case StartEvent(ts) => TouchStart(s, ts)
    case MoveEvent(ts) =>
      var r := TouchMove(s, ts, canvas, math, minPitchRad, maxPitchRad);
      if r.Some? then r.value else s
    case EndEvent(ts) => TouchEnd(s, ts)
  }

  /** The events, in order. */
  function Run(s: Tracker, events: seq<TouchEvent>, canvas: Canvas, math: MathLib,
               minPitchRad: real, maxPitchRad: real): Tracker
    requires canvas.Valid() && math.Valid()
    decreases |events|
  {
    if events == [] then s
    else Run(Step(s, events[0], canvas, math, minPitchRad, maxPitchRad), events[1..],
             canvas, math, minPitchRad, maxPitchRad)
  }

  /** Once the pitch is inside its limits, no sequence of touch events takes
      it out. */
  lemma {:induction false} RunKeepsPitchInRange(s: Tracker, events: seq<TouchEvent>, canvas: Canvas,
                                                math: MathLib, minPitchRad: real, maxPitchRad: real)
    requires canvas.Valid() && math.Valid()
    requires minPitchRad <= s.pitch <= maxPitchRad
    ensures var r := Run(s, events, canvas, math, minPitchRad, maxPitchRad);
      minPitchRad <= r.pitch <= maxPitchRad
    decreases |events|
  {
    if events != [] {
      RunKeepsPitchInRange(Step(s, events[0], canvas, math, minPitchRad, maxPitchRad), events[1..],
                           canvas, math, minPitchRad, maxPitchRad);
    }
  }

  /** Only two-finger moves pan or zoom. */
  lemma {:induction false} RunWithoutTwoFingerMoveKeepsDolly(s: Tracker, events: seq<TouchEvent>, canvas: Canvas,
                                                             math: MathLib, minPitchRad: real, maxPitchRad: real)
    requires canvas.Valid() && math.Valid()
    requires forall i :: 0 <= i < |events| && events[i].MoveEvent? ==> |events[i].touches| != 2
    ensures Run(s, events, canvas, math, minPitchRad, maxPitchRad).dolly == s.dolly
    decreases |events|
  {
    if events != [] {
      RunWithoutTwoFingerMoveKeepsDolly(Step(s, events[0], canvas, math, minPitchRad, maxPitchRad), events[1..],
                                        canvas, math, minPitchRad, maxPitchRad);
    }
  }

  /** Only one-finger moves turn the yaw. */
  lemma {:induction false} RunWithoutOneFingerMoveKeepsYaw(s: Tracker, events: seq<TouchEvent>, canvas: Canvas,
                                                           math: MathLib, minPitchRad: real, maxPitchRad: real)
    requires canvas.Valid() && math.Valid()
    requires forall i :: 0 <= i < |events| && events[i].MoveEvent? ==> |events[i].touches| != 1
    ensures Run(s, events, canvas, math, minPitchRad, maxPitchRad).yaw == s.yaw
    decreases |events|
  {
    if events != [] {
      RunWithoutOneFingerMoveKeepsYaw(Step(s, events[0], canvas, math, minPitchRad, maxPitchRad), events[1..],
                                      canvas, math, minPitchRad, maxPitchRad);
    }
  }

  /** Drag angles add up: dragging from a to b and then from b to c turns as
      much as dragging from a to c. */
  lemma DragAnglesAdd(a: real, b: real, c: real, extent: real)
    requires extent > 0.0
    ensures DragAngle(a, b, extent) + DragAngle(b, c, extent) == DragAngle(a, c, extent)
  {
    assert TwoPi * (b - a) + TwoPi * (c - b) == TwoPi * (c - a);
  }

  /** Every event is a two-finger move. */
  predicate PinchMoves(events: seq<TouchEvent>)
  {
    forall i :: 0 <= i < |events| ==> events[i].MoveEvent? && |events[i].touches| == 2
  }

  function MidpointOf(e: TouchEvent): Touch
    requires |e.touches| == 2
  {
    Midpoint(e.touches[0], e.touches[1])
  }

  function PinchOf(math: MathLib, e: TouchEvent): real
    requires |e.touches| == 2
  {
    Distance(math, e.touches[0], e.touches[1])
  }

  /** No two-finger move of the sequence is a glitch: each midpoint is
      within the glitch threshold, horizontally, of the previous one, the
      first of the anchor's x. */
  predicate Steady(x: real, events: seq<TouchEvent>, width: real)
    requires width > 0.0 && PinchMoves(events)
    decreases |events|
  {
    events == [] ||
    (!IsGlitch(DragAngle(x, MidpointOf(events[0]).pageX, width)) &&
     Steady(MidpointOf(events[0]).pageX, events[1..], width))
  }

  /** No pan or zoom is lost or counted twice: a run of unglitched
      two-finger moves moves the dolly exactly as one move from the first
      anchor to the last midpoint and pinch would. */
  lemma {:induction false} SteadyPinchesAddUp(s: Tracker, events: seq<TouchEvent>, canvas: Canvas,
                                              math: MathLib, minPitchRad: real, maxPitchRad: real)
    requires canvas.Valid() && math.Valid()
    requires s.touchStart.Some? && |events| > 0 && PinchMoves(events)
    requires Steady(s.touchStart.value.x, events, canvas.clientWidth)
    ensures var a := Pinched(s.touchStart.value, PinchOf(math, events[0]));
      var m := MidpointOf(events[|events| - 1]);
      var dist := PinchOf(math, events[|events| - 1]);
      var r := Run(s, events, canvas, math, minPitchRad, maxPitchRad);
      r.dolly == Vec3(s.dolly.x + 0.5 * DragAngle(a.x, m.pageX, canvas.clientWidth),
                      s.dolly.y + 0.5 * DragAngle(a.y, m.pageY, canvas.clientHeight),
                      s.dolly.z + 0.5 * DragAngle(a.dist.value, dist, MaxDist(math, canvas))) &&
      r.touchStart == Some(Anchor(m.pageX, m.pageY, Some(dist)))
    decreases |events|
  {
    var e := events[0];
    var u, v := e.touches[0], e.touches[1];
    assert e == MoveEvent([u, v]);
    TwoFingerSteadyMove(s, u, v, canvas, math, minPitchRad, maxPitchRad);
    var s1 := Step(s, e, canvas, math, minPitchRad, maxPitchRad);
    var rest := events[1..];
    assert Run(s, events, canvas, math, minPitchRad, maxPitchRad)
        == Run(s1, rest, canvas, math, minPitchRad, maxPitchRad);
    if rest != [] {
      assert PinchMoves(rest) by {
        forall i | 0 <= i < |rest| ensures rest[i].MoveEvent? && |rest[i].touches| == 2 {
          assert rest[i] == events[i + 1];
        }
      }
      SteadyPinchesAddUp(s1, rest, canvas, math, minPitchRad, maxPitchRad);
      assert rest[|rest| - 1] == events[|events| - 1];
      var a := Pinched(s.touchStart.value, PinchOf(math, e));
      var m1 := MidpointOf(e);
      var m := MidpointOf(events[|events| - 1]);
      var dist := PinchOf(math, events[|events| - 1]);
      DragAnglesAdd(a.x, m1.pageX, m.pageX, canvas.clientWidth);
      DragAnglesAdd(a.y, m1.pageY, m.pageY, canvas.clientHeight);
      DragAnglesAdd(a.dist.value, PinchOf(math, e), dist, MaxDist(math, canvas));
    }
  }
}
