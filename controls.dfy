/** The multitouch-look-controls component: the instance state it keeps and
    updates in place, its touch handlers, its two delta samplers, the
    per-tick composer, and the bounds-and-reset branch of `update`. The
    host entity whose pose it reads and writes is a separate object. */
module LookControls {
  import opened Wrappers
  import opened Numerics
  import opened RangeParsing
  import opened Sampling
  import opened Gesture
  import opened Composer

  /** The host entity: its `rotation` (degrees) and `position` attributes. */
  class Entity {
    var rotation: Vec3
    var position: Position

    constructor (rotation: Vec3, position: Position)
      ensures this.rotation == rotation && this.position == position
    {
      this.rotation := rotation;
      this.position := position;
    }
  }

  /** The configuration `update` reads: the enabled flag and the three
      range settings. */
  datatype Config = Config(enabled: bool, xrange: string, yrange: string, zrange: string)

  class MultitouchLookControls {
    const el: Entity
    /** data.maxPitchRad and data.minPitchRad, computed once when the
        component starts on a mobile device. */
    const maxPitchRad: real
    const minPitchRad: real

    var touchStart: Option<Anchor>
    var touchStarted: bool
    /** yawObject.rotation.y and pitchObject.rotation.x, in radians. */
    var yaw: real
    var pitch: real
    /** dollyObject.position. */
    var dolly: Vec3
    /** The sampler memos, in degrees for the rotation; None is undefined. */
    var previousRotationX: Option<real>
    var previousRotationY: Option<real>
    var previousDollyX: Option<real>
    var previousDollyY: Option<real>
    var previousDollyZ: Option<real>
    var bounds: Bounds

    /** The state the touch handlers act on. */
    function State(): Tracker
      reads this
    {
      Tracker(touchStart, touchStarted, yaw, pitch, dolly)
    }

    function Memos(): Memo
      reads this
    {
      Memo(previousRotationX, previousRotationY, previousDollyX, previousDollyY, previousDollyZ)
    }

    function EntityPose(): Pose
      reads this, el
    {
      Pose(el.rotation, el.position)
    }

    /** `init` on a mobile device: pitch limits converted to radians, yaw,
        pitch and dolly at 0, no anchor and no memo yet, and a unit box
        [-1, 1] on every axis until the first configuration update. */
    constructor (el: Entity, maxPitch: real, minPitch: real)
      ensures this.el == el
      ensures maxPitchRad == DegToRad(maxPitch) && minPitchRad == DegToRad(minPitch)
      ensures State() == Tracker(None, false, 0.0, 0.0, Vec3(0.0, 0.0, 0.0))
      ensures Memos() == Memo(None, None, None, None, None)
      ensures bounds == Bounds(Interval(Fin(-1.0), Fin(1.0)), Interval(Fin(-1.0), Fin(1.0)),
                               Interval(Fin(-1.0), Fin(1.0)))
    {
      this.el := el;
      maxPitchRad := DegToRad(maxPitch);
      minPitchRad := DegToRad(minPitch);
      touchStart := None;
      touchStarted := false;
      yaw, pitch := 0.0, 0.0;
      dolly := Vec3(0.0, 0.0, 0.0);
      previousRotationX, previousRotationY := None, None;
      previousDollyX, previousDollyY, previousDollyZ := None, None, None;
      bounds := Bounds(Interval(Fin(-1.0), Fin(1.0)), Interval(Fin(-1.0), Fin(1.0)),
                       Interval(Fin(-1.0), Fin(1.0)));
    }

    method OnTouchStart(touches: seq<Touch>)
      modifies this`touchStart, this`touchStarted
      ensures State() == TouchStart(old(State()), touches)
    {
      if |touches| == 1 {
        touchStart := Some(Anchor(touches[0].pageX, touches[0].pageY, None));
        touchStarted := true;
      } else if |touches| == 2 {
        touchStart := Some(Anchor(touches[0].pageX, touches[0].pageY, None));
      } else {
        return;
      }
    }

    /** `threw` reports the TypeError the source raises when a one- or
        two-finger move arrives before any anchor exists; it changes nothing.
        The two-finger branch computes the pinch distance before it reads the
        anchor, as the source does. */
    method OnTouchMove(touches: seq<Touch>, canvas: Canvas, math: MathLib) returns (threw: bool)
      requires canvas.Valid() && math.Valid()
      modifies this`touchStart, this`yaw, this`pitch, this`dolly
      ensures var r := TouchMove(old(State()), touches, canvas, math, minPitchRad, maxPitchRad);
        threw == r.None? && State() == (if r.Some? then r.value else old(State()))
    {
      threw := false;
      if |touches| == 1 {
        if touchStart.None? {
          threw := true;
          return;
        }
        OneFingerDrag(touches[0], canvas);
      } else if |touches| == 2 {
        var dist := math.sqrt((touches[0].pageX - touches[1].pageX) * (touches[0].pageX - touches[1].pageX) +
                              (touches[0].pageY - touches[1].pageY) * (touches[0].pageY - touches[1].pageY));
        assert dist == Distance(math, touches[0], touches[1]);
        if touchStart.None? {
          threw := true;
          return;
        }
        TwoFingerDrag(touches[0], touches[1], dist, canvas, math);
      } else if |touches| > 2 {
        // Three-finger gestures are not supported.
      } else {
        // No touches: the source only logs a warning.
      }
    }

    /** The one-finger branch of onTouchMove. */
    method OneFingerDrag(u: Touch, canvas: Canvas)
      requires canvas.Valid() && touchStart.Some?
      modifies this`touchStart, this`yaw, this`pitch
      ensures State() == OneFingerMove(old(State()), old(touchStart.value), u, canvas, minPitchRad, maxPitchRad)
    {
      var deltaY := TwoPi * (u.pageX - touchStart.value.x) / canvas.clientWidth;
      var deltaX := TwoPi * (u.pageY - touchStart.value.y) / canvas.clientHeight;
      yaw := yaw - deltaY * 0.2;
      pitch := pitch - deltaX * 0.25;
      pitch := Min(maxPitchRad, Max(minPitchRad, pitch));
      if Abs(deltaX) > 1.5 || Abs(deltaX) > 1.5 {
        return;
      }
      touchStart := Some(Anchor(u.pageX, u.pageY, None));
    }

    /** The two-finger branch of onTouchMove, once the pinch distance `dist`
        of u and v is known. */
    method TwoFingerDrag(u: Touch, v: Touch, dist: real, canvas: Canvas, math: MathLib)
      requires canvas.Valid() && math.Valid() && touchStart.Some?
      requires dist == Distance(math, u, v)
      modifies this`touchStart, this`pitch, this`dolly
      ensures State() == TwoFingerMove(old(State()), old(touchStart.value), u, v, canvas, math,
                                       minPitchRad, maxPitchRad)
    {
      ghost var start := touchStart.value;
      var px := (u.pageX + v.pageX) / 2.0;
      var py := (u.pageY + v.pageY) / 2.0;
      if touchStart.value.dist.None? {
        touchStart := Some(touchStart.value.(dist := Some(dist)));
      }
      var maxDist := MaxDist(math, canvas);
      var deltaX := TwoPi * (px - touchStart.value.x) / canvas.clientWidth;
      var deltaY := TwoPi * (py - touchStart.value.y) / canvas.clientHeight;
      var deltaDist := TwoPi * (dist - touchStart.value.dist.value) / maxDist;
      assert touchStart.value == Pinched(start, dist);
      if Abs(deltaX) > 1.5 || Abs(deltaX) > 1.5 {
        return;
      }
      dolly := Vec3(dolly.x + deltaX * 0.5, dolly.y + deltaY * 0.5, dolly.z + deltaDist * 0.5);
      pitch := Min(maxPitchRad, Max(minPitchRad, pitch));
      touchStart := Some(Anchor(px, py, Some(dist)));
    }

    method OnTouchEnd(touches: seq<Touch>)
      modifies this`touchStart, this`touchStarted
      ensures State() == TouchEnd(old(State()), touches)
    {
      touchStarted := false;
      if |touches| == 1 {
        touchStart := Some(Anchor(touches[0].pageX, touches[0].pageY, None));
        touchStarted := true;
      }
    }

    method CalculateDeltaRotation() returns (deltaRotation: RotationDelta)
      modifies this`previousRotationX, this`previousRotationY
      ensures deltaRotation == RotationDelta(SampleDelta(old(previousRotationX), RadToDeg(pitch)),
                                             SampleDelta(old(previousRotationY), RadToDeg(yaw)))
      ensures previousRotationX == Some(RadToDeg(pitch)) && previousRotationY == Some(RadToDeg(yaw))
    {
      var currentRotationX := RadToDeg(pitch);
      var currentRotationY := RadToDeg(yaw);
      previousRotationX := Some(Recall(previousRotationX, currentRotationX));
      previousRotationY := Some(Recall(previousRotationY, currentRotationY));
      deltaRotation := RotationDelta(currentRotationX - previousRotationX.value,
                                     currentRotationY - previousRotationY.value);
      previousRotationX := Some(currentRotationX);
      previousRotationY := Some(currentRotationY);
    }

    method CalculateDeltaDolly() returns (deltaDolly: Vec3)
      modifies this`previousDollyX, this`previousDollyY, this`previousDollyZ
      ensures deltaDolly == Vec3(SampleDelta(old(previousDollyX), dolly.x), SampleDelta(old(previousDollyY), dolly.y),
                                 SampleDelta(old(previousDollyZ), dolly.z))
      ensures previousDollyX == Some(dolly.x) && previousDollyY == Some(dolly.y) && previousDollyZ == Some(dolly.z)
    {
      var currentDollyX := dolly.x;
      var currentDollyY := dolly.y;
      var currentDollyZ := dolly.z;
      previousDollyX := Some(Recall(previousDollyX, currentDollyX));
      previousDollyY := Some(Recall(previousDollyY, currentDollyY));
      previousDollyZ := Some(Recall(previousDollyZ, currentDollyZ));
      deltaDolly := Vec3(currentDollyX - previousDollyX.value,
                         currentDollyY - previousDollyY.value,
                         currentDollyZ - previousDollyZ.value);
      previousDollyX := Some(currentDollyX);
      previousDollyY := Some(currentDollyY);
      previousDollyZ := Some(currentDollyZ);
    }

    method UpdateRotationAndPosition(math: MathLib)
      modifies el, this`previousRotationX, this`previousRotationY
      modifies this`previousDollyX, this`previousDollyY, this`previousDollyZ
      ensures (EntityPose(), Memos()) == Compose(old(EntityPose()), old(Memos()), yaw, pitch, dolly, bounds, math)
    {
      var currentRotation := el.rotation;
      ghost var pose0, m0 := EntityPose(), Memos();
      var deltaRotation := CalculateDeltaRotation();
      var deltaDolly := CalculateDeltaDolly();
      assert deltaRotation == RotationSample(m0, yaw, pitch);
      assert deltaDolly == DollySample(m0, dolly);
      assert Memos() == Memoised(yaw, pitch, dolly);
      var rotation := Vec3(currentRotation.x - deltaRotation.x, currentRotation.y - deltaRotation.y,
                           currentRotation.z);
      if deltaRotation.x != 0.0 || deltaRotation.y != 0.0 {
        el.rotation := rotation;
      }
      if deltaDolly.x != 0.0 || deltaDolly.z != 0.0 {
        MoveEntity(deltaDolly, rotation.y, math);
      }
      assert EntityPose() == Compose(pose0, m0, yaw, pitch, dolly, bounds, math).0;
    }

    /** The moving part of updateRotationAndPosition: the dolly delta turned
        into world axes by the yaw `yawDegrees`, added to the position and
        clamped into the box. */
    method MoveEntity(deltaDolly: Vec3, yawDegrees: real, math: MathLib)
      modifies el`position
      ensures el.position == Moved(old(el.position), DollyOffset(math, yawDegrees, deltaDolly), bounds)
    {
      var currentPosition := el.position;
      var leftrightAmount := deltaDolly.x;
      var inoutAmount := deltaDolly.z;
      var worldZ := leftrightAmount * math.cos(DegToRad(yawDegrees - 90.0));
      var worldX := leftrightAmount * math.sin(DegToRad(yawDegrees - 90.0));
      worldZ := worldZ - inoutAmount * math.cos(DegToRad(yawDegrees));
      worldX := worldX - inoutAmount * math.sin(DegToRad(yawDegrees));
      assert Vec3(worldX, deltaDolly.y, worldZ) == DollyOffset(math, yawDegrees, deltaDolly);
      var position := Position(currentPosition.x.Plus(worldX), currentPosition.y.Plus(deltaDolly.y),
                               currentPosition.z.Plus(worldZ));
      position := Position(ClampAxis(bounds.x, position.x), ClampAxis(bounds.y, position.y),
                           ClampAxis(bounds.z, position.z));
      el.position := position;
    }

    /** `update`: nothing when disabled; with `oldData` present (a
        configuration change) yaw and pitch go back to 0 and the box is
        recomputed around the current position; then one composer pass. */
    method Update(hasOldData: bool, data: Config, math: MathLib)
      modifies el, this`yaw, this`pitch, this`bounds, this`previousRotationX, this`previousRotationY
      modifies this`previousDollyX, this`previousDollyY, this`previousDollyZ
      ensures !data.enabled ==> unchanged(this) && unchanged(el)
      ensures data.enabled && hasOldData ==>
        yaw == 0.0 && pitch == 0.0 &&
        bounds == Bounds(RangeToInterval(data.xrange, old(el.position.x)),
                         RangeToInterval(data.yrange, old(el.position.y)),
                         RangeToInterval(data.zrange, old(el.position.z)))
      ensures data.enabled && !hasOldData ==> yaw == old(yaw) && pitch == old(pitch) && bounds == old(bounds)
      ensures data.enabled ==>
        (EntityPose(), Memos()) == Compose(old(EntityPose()), old(Memos()), yaw, pitch, dolly, bounds, math)
    {
      if !data.enabled {
        return;
      }
      if hasOldData {
        pitch := 0.0;
        yaw := 0.0;
        bounds := Bounds(RangeToInterval(data.xrange, el.position.x),
                         RangeToInterval(data.yrange, el.position.y),
                         RangeToInterval(data.zrange, el.position.z));
      }
      assert EntityPose() == old(EntityPose()) && Memos() == old(Memos());
      UpdateRotationAndPosition(math);
    }

    /** `tick`: an update without `oldData` while enabled. */
    method Tick(data: Config, math: MathLib)
      modifies el, this`yaw, this`pitch, this`bounds, this`previousRotationX, this`previousRotationY
      modifies this`previousDollyX, this`previousDollyY, this`previousDollyZ
      ensures !data.enabled ==> unchanged(this) && unchanged(el)
      ensures yaw == old(yaw) && pitch == old(pitch) && bounds == old(bounds)
      ensures data.enabled ==>
        (EntityPose(), Memos()) == Compose(old(EntityPose()), old(Memos()), yaw, pitch, dolly, bounds, math)
    {
      if data.enabled {
        Update(false, data, math);
      }
    }
  
    /** Two samples with nothing moved in between: the second returns zero
        on every axis. */
    method SampleTwice() returns (second: RotationDelta, secondDolly: Vec3)
      modifies this`previousRotationX, this`previousRotationY
      modifies this`previousDollyX, this`previousDollyY, this`previousDollyZ
      ensures second == RotationDelta(0.0, 0.0) && secondDolly == Vec3(0.0, 0.0, 0.0)
    {
      var first := CalculateDeltaRotation();
      var firstDolly := CalculateDeltaDolly();
      second := CalculateDeltaRotation();
      secondDolly := CalculateDeltaDolly();
    }
  }
}
