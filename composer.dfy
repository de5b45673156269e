/** `updateRotationAndPosition`: once per tick, sample the rotation and
    dolly deltas, turn the entity by the rotation delta, project the dolly
    delta from camera-relative to world axes using the new yaw, and clamp
    the moved position into the bounding box. */
module Composer {
  import opened Wrappers
  import opened Numerics
  import opened RangeParsing
  import opened Sampling

  /** The entity position; an axis can be NaN once a NaN bound reached it. */
  datatype Position = Position(x: Num, y: Num, z: Num)

  /** The bounding box `bounds`: one interval per world axis. */
  datatype Bounds = Bounds(x: Interval, y: Interval, z: Interval)

  /** The entity pose: rotation in degrees and position. */
  datatype Pose = Pose(rotation: Vec3, position: Position)

  /** The memoised samples previousRotationX/Y (degrees) and previousDollyX/Y/Z. */
  datatype Memo = Memo(rotationX: Option<real>, rotationY: Option<real>,
                       dollyX: Option<real>, dollyY: Option<real>, dollyZ: Option<real>)

  /** A rotation delta in degrees: x is pitch, y is yaw. */
  datatype RotationDelta = RotationDelta(x: real, y: real)

  predicate WellFormed(i: Interval)
  {
    i.lo.Fin? && i.hi.Fin? && i.lo.val <= i.hi.val
  }

  predicate Within(v: Num, i: Interval)
  {
    v.Fin? && i.lo.Fin? && i.hi.Fin? && i.lo.val <= v.val <= i.hi.val
  }

  predicate BoxWellFormed(b: Bounds)
  {
    WellFormed(b.x) && WellFormed(b.y) && WellFormed(b.z)
  }

  predicate InBox(p: Position, b: Bounds)
  {
    Within(p.x, b.x) && Within(p.y, b.y) && Within(p.z, b.z)
  }

  predicate Finite(p: Position)
  {
    p.x.Fin? && p.y.Fin? && p.z.Fin?
  }

  /** `Math.max(lo, Math.min(hi, v))`: NaN anywhere gives NaN; a value
      inside the interval is kept; otherwise the nearer end, or lo when the
      interval is empty. */
  function ClampAxis(i: Interval, v: Num): (r: Num)
    ensures r.NaN? <==> i.lo.NaN? || i.hi.NaN? || v.NaN?
    ensures WellFormed(i) && v.Fin? ==> Within(r, i)
    ensures Within(v, i) ==> r == v
    ensures r.Fin? && i.hi.val < i.lo.val ==> r == i.lo
    ensures WellFormed(i) && v.Fin? && v.val > i.hi.val ==> r == i.hi
    ensures WellFormed(i) && v.Fin? && v.val < i.lo.val ==> r == i.lo
  {
    NumMax(i.lo, NumMin(i.hi, v))
  }

  /** The dolly delta in world axes: its x (left/right) and z (in/out)
      parts turned by the yaw `yawDegrees`; y is kept. */
  function DollyOffset(math: MathLib, yawDegrees: real, d: Vec3): (w: Vec3)
    ensures w.y == d.y
    ensures d.x == 0.0 && d.z == 0.0 ==> w.x == 0.0 && w.z == 0.0
  {
    Vec3(d.x * math.sin(DegToRad(yawDegrees - 90.0)) - d.z * math.sin(DegToRad(yawDegrees)),
         d.y,
         d.x * math.cos(DegToRad(yawDegrees - 90.0)) - d.z * math.cos(DegToRad(yawDegrees)))
  }

  /** The position moved by `offset` and clamped into the box, axis by axis. */
  function Moved(p: Position, offset: Vec3, b: Bounds): (r: Position)
    ensures Finite(p) && BoxWellFormed(b) ==> InBox(r, b)
    ensures InBox(Position(p.x.Plus(offset.x), p.y.Plus(offset.y), p.z.Plus(offset.z)), b) ==>
      r == Position(p.x.Plus(offset.x), p.y.Plus(offset.y), p.z.Plus(offset.z))
  {
    Position(ClampAxis(b.x, p.x.Plus(offset.x)),
             ClampAxis(b.y, p.y.Plus(offset.y)),
             ClampAxis(b.z, p.z.Plus(offset.z)))
  }

  /** calculateDeltaRotation's result for yaw and pitch in radians. */
  function RotationSample(memo: Memo, yaw: real, pitch: real): RotationDelta
  {
    RotationDelta(SampleDelta(memo.rotationX, RadToDeg(pitch)), SampleDelta(memo.rotationY, RadToDeg(yaw)))
  }

  /** calculateDeltaDolly's result for the dolly accumulator. */
  function DollySample(memo: Memo, dolly: Vec3): Vec3
  {
    Vec3(SampleDelta(memo.dollyX, dolly.x), SampleDelta(memo.dollyY, dolly.y), SampleDelta(memo.dollyZ, dolly.z))
  }

  /** The memo after both samplers ran: every axis remembers its current value. */
  function Memoised(yaw: real, pitch: real, dolly: Vec3): Memo
  {
    Memo(Some(RadToDeg(pitch)), Some(RadToDeg(yaw)), Some(dolly.x), Some(dolly.y), Some(dolly.z))
  }

  /** One pass of updateRotationAndPosition on the pose, the memo, the
      accumulators and the box. The rotation is written only when a delta is
      nonzero, which gives the same value as writing it always. */
  function Compose(pose: Pose, memo: Memo, yaw: real, pitch: real, dolly: Vec3,
                   b: Bounds, math: MathLib): (Pose, Memo)
  {
    var deltaRotation := RotationSample(memo, yaw, pitch);
    var deltaDolly := DollySample(memo, dolly);
    var rotation := Vec3(pose.rotation.x - deltaRotation.x, pose.rotation.y - deltaRotation.y, pose.rotation.z);
    var position :=
      if deltaDolly.x != 0.0 || deltaDolly.z != 0.0
      then Moved(pose.position, DollyOffset(math, rotation.y, deltaDolly), b)
      else pose.position;
    (Pose(rotation, position), Memoised(yaw, pitch, dolly))
  }

  /** What a pass does: every memo takes the current value; the entity
      turns by minus the sampled rotation delta and keeps its roll; the
      position moves only when the dolly's x or z delta is nonzero (a y-only
      dolly delta is consumed without moving), and then it is the old
      position moved by the dolly delta projected with the NEW yaw and
      clamped into the box, so that from a finite position into a
      well-formed box it ends inside the box. */
  lemma ComposeMeaning(pose: Pose, memo: Memo, yaw: real, pitch: real, dolly: Vec3,
                       b: Bounds, math: MathLib)
    ensures var r := Compose(pose, memo, yaw, pitch, dolly, b, math);
      r.1 == Memoised(yaw, pitch, dolly) &&
      r.0.rotation.x + RotationSample(memo, yaw, pitch).x == pose.rotation.x &&
      r.0.rotation.y + RotationSample(memo, yaw, pitch).y == pose.rotation.y &&
      r.0.rotation.z == pose.rotation.z
    ensures var r := Compose(pose, memo, yaw, pitch, dolly, b, math);
      var d := DollySample(memo, dolly);
      (d.x == 0.0 && d.z == 0.0 ==> r.0.position == pose.position) &&
      ((d.x != 0.0 || d.z != 0.0) ==> r.0.position == Moved(pose.position, DollyOffset(math, r.0.rotation.y, d), b)) &&
      ((d.x != 0.0 || d.z != 0.0) && Finite(pose.position) && BoxWellFormed(b) ==> InBox(r.0.position, b))
  {
  }

  /** The box is an invariant of the composer: a position inside it stays
      inside after any pass. */
  lemma ComposeKeepsInBox(pose: Pose, memo: Memo, yaw: real, pitch: real, dolly: Vec3,
                          b: Bounds, math: MathLib)
    requires InBox(pose.position, b)
    ensures InBox(Compose(pose, memo, yaw, pitch, dolly, b, math).0.position, b)
  {
    ComposeMeaning(pose, memo, yaw, pitch, dolly, b, math);
    assert Finite(pose.position) && BoxWellFormed(b);
  }

  /** A tick with no touch since the previous tick leaves the pose alone. */
  lemma ComposeAgainIsStill(pose: Pose, memo: Memo, yaw: real, pitch: real, dolly: Vec3,
                            b: Bounds, math: MathLib)
    ensures var first := Compose(pose, memo, yaw, pitch, dolly, b, math);
      Compose(first.0, first.1, yaw, pitch, dolly, b, math) == first
  {
    var first := Compose(pose, memo, yaw, pitch, dolly, b, math);
    var m := Memoised(yaw, pitch, dolly);
    assert first.1 == m;
    ResampleIsZero(RadToDeg(pitch));
    ResampleIsZero(RadToDeg(yaw));
    ResampleIsZero(dolly.x);
    ResampleIsZero(dolly.y);
    ResampleIsZero(dolly.z);
    assert RotationSample(m, yaw, pitch) == RotationDelta(0.0, 0.0);
    assert DollySample(m, dolly) == Vec3(0.0, 0.0, 0.0);
  }

  /** Resetting the pitch to 0 while its memo holds m (not 0) makes the next
      pass turn the entity's x rotation by +m: the reset is not jump-free. */
  lemma PitchResetTurnsBackByMemo(pose: Pose, memo: Memo, yaw: real, dolly: Vec3,
                                  b: Bounds, math: MathLib, m: real)
    requires memo.rotationX == Some(m) && m != 0.0
    ensures Compose(pose, memo, yaw, 0.0, dolly, b, math).0.rotation.x == pose.rotation.x + m
  {
  }

  /** A yaw that drops by 0.04 * pi radians (a 100-pixel drag on a 1000-pixel
      wide canvas) turns the entity's y rotation UP by 7.2 degrees, provided
      the yaw memo is the previous yaw and not 0. */
  lemma YawDragTurnsEntity(pose: Pose, memo: Memo, yaw: real, pitch: real, dolly: Vec3,
                           b: Bounds, math: MathLib)
    requires yaw != 0.0 && memo.rotationY == Some(RadToDeg(yaw))
    ensures Compose(pose, memo, yaw - 0.04 * Pi, pitch, dolly, b, math).0.rotation.y == pose.rotation.y + 7.2
  {
    assert RadToDeg(yaw) != 0.0;
    assert RadToDeg(yaw - 0.04 * Pi) - RadToDeg(yaw) == -7.2;
  }
}
