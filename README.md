# multitouch-look-controls in Dafny

A model of the A-Frame component `multitouch-look-controls`. It is a
free-look camera controller for phones and tablets:

- one finger turns the camera: yaw from the horizontal drag, pitch from the
  vertical drag, with the pitch clamped to configured limits;
- two fingers pan the camera (midpoint drag) and zoom it (pinch);
- once per tick the accumulated motion is sampled and applied to the host
  entity: its rotation turns by the rotation delta, and the dolly delta is
  turned into world axes by the yaw, added to the position, and clamped into
  a bounding box parsed from the `xrange`/`yrange`/`zrange` settings.

Modules, leaf first:

- `Wrappers`: `Option`, used for the JavaScript values that can be
  undefined.
- `Numerics`: Math.PI, degree/radian conversion, a `Num` that is either
  finite or NaN (with Math.min/Math.max propagating NaN), and `MathLib`.
  `MathLib` holds the host's `Math.sqrt`, `Math.sin` and `Math.cos`, which
  stay uninterpreted.
- `RangeParsing`: `String.prototype.split(' ')`, `parseInt`, and the
  interval a range setting gives around the entity's coordinate.
- `Sampling`: the `memo = memo || current` delta sampler for one axis.
- `Gesture`: the three touch handlers as pure transitions of the gesture
  state (anchor, `touchStarted`, yaw, pitch, dolly), plus lemmas about
  single moves and about whole sequences of touch events.
- `Composer`: `updateRotationAndPosition` as a pure function of the
  entity pose, the sampler memos, the accumulators and the box.
- `LookControls`: two classes.
  - `Entity` is the host entity, with `rotation` and `position` fields.
  - `MultitouchLookControls` is the component.
  - Its methods update the fields in place, as the source does.
  - Each method is proved to compute the pure function above on its old
    state.

Behaviour of the code worth knowing, each stated by a lemma:

- **One-finger glitch guard.** The guard compares `Math.abs(deltaX)` with 1.5 twice.
  In the one-finger branch `deltaX` is the VERTICAL (pitch) delta. So a
  horizontal jump is never treated as a glitch, and a vertical one is
  (`OneFingerGuardIgnoresHorizontal`, `OneFingerGlitchKeepsAnchor`).
- **Two-finger glitch guard.** In the two-finger branch `deltaX` is the
  horizontal midpoint delta, again compared twice. A vertical midpoint
  jump of any size is applied to the dolly (`TwoFingerGuardIgnoresVertical`).
- **Glitched moves keep the old anchor.** A glitched move returns before the
  anchor is refreshed. A one-finger glitch has already applied yaw and pitch.
  A two-finger glitch keeps the anchor's pinch distance, or stores the
  current one only if the anchor had none (`TwoFingerGlitchKeepsDolly`).
- **A finger held still after a vertical glitch keeps turning the camera.**
  The anchor stays where it was, so every further move event from the same
  point turns the yaw by the same amount again
  (`GlitchedFingerKeepsTurning`).
- **A two-finger start anchors to the first touch,** not to the midpoint.
- **Two-finger pitch.** A glitched two-finger move does not re-clamp the
  pitch. An unglitched one does.
- **The reset in `update` is not jump-free.** With a nonzero pitch memo m,
  resetting the pitch to 0 turns the entity's x rotation by +m on the next
  pass (`PitchResetTurnsBackByMemo`).
- **Sign of the yaw turn.** A yaw that decreases by 0.04·π turns the
  entity's `rotation.y` UP by 7.2 degrees (`YawDragTurnsEntity`). The
  composer subtracts the delta, and a decreasing yaw has a negative delta.
- **A memo of exactly 0 reads as unset.** The sample after a value of 0
  returns 0 wherever the axis has moved (`ZeroMemoSwallowsMotion`). This
  includes the first drag away from a yaw of exactly 0.
- **A single-number range reads only its first character**
  (`parseInt(xrange[0])`). So "10" is a half-width of 1, and "-3" is NaN
  (`SingleRangeFirstDigit`, `SingleRangeNegativeIsNaN`).

## Model

| member | source | states |
|---|---|---|
| `Numerics.RadToDeg` | multitouch-look-controls.js:282-283 | converting radians to degrees is undone by the degree-to-radian conversion |
| `Numerics.NumMin` | multitouch-look-controls.js:272-274 | Math.min is NaN exactly when an argument is NaN, and otherwise is one of its arguments and no greater than either |
| `Numerics.NumMax` | multitouch-look-controls.js:272-274 | Math.max is NaN exactly when an argument is NaN, and otherwise is one of its arguments and no less than either |
| `RangeParsing.Split` | multitouch-look-controls.js:128 | split(' ') yields at least one token; no token contains a space; there is exactly one token iff the string has no space |
| `RangeParsing.JoinSplit` | multitouch-look-controls.js:128 | joining the tokens of split(' ') with single spaces gives back the original string |
| `RangeParsing.SplitWithoutSpace` | multitouch-look-controls.js:129 | a range without a space is a single token, the whole string |
| `RangeParsing.SplitAtSpace` | multitouch-look-controls.js:128 | splitting `x + " " + y` gives the tokens of x followed by the tokens of y |
| `RangeParsing.SplitTwoNumbers` | multitouch-look-controls.js:132-134 | two numbers written with one space between them split into exactly those two tokens |
| `RangeParsing.LeadingDigits` | multitouch-look-controls.js:130 | parseInt reads the maximal run of digits: every character of the run is a digit and the next one is not |
| `RangeParsing.ParseInt` | multitouch-look-controls.js:130-133 | parseInt succeeds iff a digit follows the optional sign; the result is non-positive after '-' and non-negative otherwise |
| `RangeParsing.UnsignedAfterSign` | multitouch-look-controls.js:133 | parseInt strips one leading '-' and nothing from a string that starts with a digit |
| `RangeParsing.ParseDigitRun` | multitouch-look-controls.js:133 | a sign, a digit run and a non-digit tail parse to the run's value, negated after '-' |
| `RangeParsing.ParseShowInt` | multitouch-look-controls.js:133 | parseInt reads back the decimal text of any integer, whatever non-digit text follows it |
| `RangeParsing.ParseShowIntAlone` | multitouch-look-controls.js:133 | parseInt reads back the decimal text of any integer |
| `RangeParsing.Offset` | multitouch-look-controls.js:131-134 | an interval end is NaN exactly when the coordinate is NaN or parseInt failed |
| `RangeParsing.RangeToInterval` | multitouch-look-controls.js:128-135 | a space-free range gives an interval whose ends are NaN together, and a finite one contains the coordinate |
| `RangeParsing.SingleRangeFirstDigit` | multitouch-look-controls.js:129-131 | a single number starting with digit d gives [p - d, p + d]: only the first character is parsed |
| `RangeParsing.SingleRangeNegativeIsNaN` | multitouch-look-controls.js:129-131 | a single negative number gives a NaN interval, since its first character '-' parses to NaN |
| `RangeParsing.MultiTokenRange` | multitouch-look-controls.js:132-134 | a range with a space gives offsets parsed from the first and second tokens; later tokens are ignored |
| `RangeParsing.TwoNumberRange` | multitouch-look-controls.js:132-134 | "a b" gives the interval [p + a, p + b] |
| `RangeParsing.DefaultRanges` | multitouch-look-controls.js:22-24 | the default settings give [p - 5, p + 5] for "5" and [p - 1, p + 1] for "-1 1" |
| `Sampling.SampleDeltaMeaning` | multitouch-look-controls.js:285-290 | of SampleDelta, the memo-or-current sampler of one axis: a sample returns 0 when the memo is undefined or 0, and otherwise the value minus the memo |
| `Sampling.ResampleIsZero` | multitouch-look-controls.js:285-292 | sampling again with nothing moved returns 0 |
| `Sampling.SampledTotalTelescopes` | multitouch-look-controls.js:285-292 | while no sampled value is 0, the deltas of successive samples add up to the last value minus the first memo: no motion is lost or counted twice |
| `Sampling.ZeroMemoSwallowsMotion` | multitouch-look-controls.js:285-292 | after a sampled value of 0, the next sample returns 0 and loses all motion since then |
| `Gesture.ClampPitch` | multitouch-look-controls.js:343 | the clamped pitch lies within the limits when they are ordered, is unchanged inside them, becomes the upper limit above it and the lower limit below it, and is the maximum when the limits are reversed |
| `Gesture.MaxDist` | multitouch-look-controls.js:362-363 | the pinch normaliser is positive |
| `Gesture.TouchStart` | multitouch-look-controls.js:317-332 | one or two touches anchor to the first touch without a pinch distance; only one touch starts the gesture; other counts change nothing; the camera state is untouched |
| `Gesture.TouchMove` | multitouch-look-controls.js:334-393 | a one- or two-touch move throws iff no anchor exists; other counts change nothing; one touch never pans and keeps the pitch within ordered limits; two touches never turn the yaw; a pitch within its limits stays within them |
| `Gesture.OneFingerMove` | multitouch-look-controls.js:336-351 | a one-finger move keeps the dolly and the started flag and leaves the pitch within its limits |
| `Gesture.TwoFingerMove` | multitouch-look-controls.js:352-382 | a two-finger move keeps the yaw and the started flag, and a pitch within its limits stays within them |
| `Gesture.TouchEnd` | multitouch-look-controls.js:395-407 | the gesture stays started iff exactly one touch remains, and then re-anchors to it; otherwise the anchor is kept; the camera state is untouched |
| `Gesture.OneFingerGuardIgnoresHorizontal` | multitouch-look-controls.js:338-347 | with no vertical motion, any horizontal jump is applied in full to the yaw and re-anchors |
| `Gesture.OneFingerSteadyMove` | multitouch-look-controls.js:336-351 | an unglitched one-finger move turns the yaw by 0.2 of the horizontal drag angle and the pitch by 0.25 of the vertical one, clamps the pitch and re-anchors to the finger; nothing else changes |
| `Gesture.OneFingerGlitchKeepsAnchor` | multitouch-look-controls.js:338-345 | a vertical glitch still turns yaw and pitch by the same amounts but keeps the old anchor |
| `Gesture.GlitchedFingerKeepsTurning` | multitouch-look-controls.js:338-347 | after a vertical glitch, n more move events from the same point turn the yaw n more times and never re-anchor |
| `Gesture.TwoFingerFirstSampleDoesNotZoom` | multitouch-look-controls.js:357-373 | the first two-finger move after anchoring records the pinch distance and does not zoom |
| `Gesture.TwoFingerGlitchKeepsDolly` | multitouch-look-controls.js:360-369 | a two-finger glitch changes nothing but the anchor's pinch distance: the anchor keeps the distance it already had, or takes the current one if it had none; dolly, pitch, yaw and anchor position stay |
| `Gesture.TwoFingerSteadyMove` | multitouch-look-controls.js:352-382 | an unglitched two-finger move pans the dolly by half the midpoint's drag angles and zooms it by half the pinch angle from the anchor's pinch distance, re-clamps the pitch and re-anchors to the midpoint and current pinch distance; the yaw and the flag stay |
| `Gesture.TwoFingerGuardIgnoresVertical` | multitouch-look-controls.js:365-372 | a vertical-only midpoint jump of any size is applied in full to dolly.y and re-anchors |
| `Gesture.Pinched` | multitouch-look-controls.js:360 | the anchor takes the current pinch distance only when it has none; its position is kept |
| `Gesture.DragAnglesAdd` | multitouch-look-controls.js:365-367 | drag angles over the same extent add up: a to b plus b to c is a to c |
| `Gesture.SteadyPinchesAddUp` | multitouch-look-controls.js:352-382 | a run of unglitched two-finger moves moves the dolly and the anchor exactly as one move from the first anchor to the last midpoint and pinch: no pan or zoom is lost or counted twice |
| `Gesture.LiftToOneFingerNoJump` | multitouch-look-controls.js:395-407 | lifting to one finger re-anchors there, so the next move from the same point leaves yaw and dolly alone, only re-clamps the pitch (which moves it only when it was outside its limits, e.g. after a reset to 0), and keeps the gesture started |
| `Gesture.OneFingerDragScenario` | multitouch-look-controls.js:338-341 | a 100-pixel drag on a 1000x800 canvas decreases the yaw by 0.04·π radians, which is 7.2 degrees |
| `Gesture.RunKeepsPitchInRange` | multitouch-look-controls.js:343 | no sequence of touch events takes a pitch within its limits outside them |
| `Gesture.RunWithoutTwoFingerMoveKeepsDolly` | multitouch-look-controls.js:371-373 | without two-finger moves, no sequence of events changes the dolly |
| `Gesture.RunWithoutOneFingerMoveKeepsYaw` | multitouch-look-controls.js:341 | without one-finger moves, no sequence of events changes the yaw |
| `Composer.ClampAxis` | multitouch-look-controls.js:272-274 | the clamp is NaN iff a bound or the value is NaN; it lands inside a well-formed interval; it keeps a value already inside; a value above the interval becomes hi and one below becomes lo; it gives the lower bound when the interval is reversed |
| `Composer.DollyOffset` | multitouch-look-controls.js:259-264 | the world offset keeps the vertical delta, and zero left/right and in/out deltas give zero world x and z |
| `Composer.Moved` | multitouch-look-controls.js:266-274 | a finite position moved into a well-formed box ends inside it; a move that lands inside the box is not clamped |
| `Composer.ComposeMeaning` | multitouch-look-controls.js:242-279 | of Compose, the model of updateRotationAndPosition: one pass memoises every current value; it turns the entity by minus the sampled rotation delta (RotationSample) and keeps its roll; for a nonzero x or z dolly delta (DollySample) the position becomes max(lo, min(hi, old + offset)) per axis, the offset projected with the NEW yaw; otherwise the position is kept; a finite position moved into a well-formed box ends inside it |
| `Composer.ComposeKeepsInBox` | multitouch-look-controls.js:258-277 | a position inside the box stays inside after any pass |
| `Composer.ComposeAgainIsStill` | multitouch-look-controls.js:242-313 | a second pass with no touch in between leaves pose and memos as they are |
| `Composer.PitchResetTurnsBackByMemo` | multitouch-look-controls.js:122-154 | after the pitch is reset to 0 with a nonzero memo m, the next pass turns the entity's x rotation by +m |
| `Composer.YawDragTurnsEntity` | multitouch-look-controls.js:249-256 | a yaw decrease of 0.04·π radians turns the entity's y rotation up by 7.2 degrees when the memo holds the previous nonzero yaw |
| `LookControls.MultitouchLookControls.constructor` | multitouch-look-controls.js:56-71 | the pitch limits are converted to radians once; yaw, pitch and dolly start at 0; there is no anchor and no memo; the box is [-1, 1] on every axis |
| `LookControls.MultitouchLookControls.OnTouchStart` | multitouch-look-controls.js:317-332 | the handler updates the anchor and flag in place as TouchStart prescribes |
| `LookControls.MultitouchLookControls.OnTouchMove` | multitouch-look-controls.js:334-393 | the handler updates the state in place as TouchMove prescribes, and reports the throw, without changing anything, when there is no anchor |
| `LookControls.MultitouchLookControls.OneFingerDrag` | multitouch-look-controls.js:336-351 | the one-finger branch updates yaw, pitch and anchor in place as OneFingerMove prescribes |
| `LookControls.MultitouchLookControls.TwoFingerDrag` | multitouch-look-controls.js:355-382 | the two-finger branch updates anchor, dolly and pitch in place as TwoFingerMove prescribes |
| `LookControls.MultitouchLookControls.OnTouchEnd` | multitouch-look-controls.js:395-407 | the handler updates the anchor and flag in place as TouchEnd prescribes |
| `LookControls.MultitouchLookControls.CalculateDeltaRotation` | multitouch-look-controls.js:281-294 | the returned pitch and yaw deltas, in degrees, are the samples against the old memos, and both memos now hold the current angles |
| `LookControls.MultitouchLookControls.CalculateDeltaDolly` | multitouch-look-controls.js:296-313 | the returned dolly delta is the per-axis sample against the old memos, and the memos now hold the current dolly |
| `LookControls.MultitouchLookControls.UpdateRotationAndPosition` | multitouch-look-controls.js:242-279 | the entity pose and the memos become what Compose gives for the old pose and memos |
| `LookControls.MultitouchLookControls.MoveEntity` | multitouch-look-controls.js:258-277 | the entity position becomes the old position moved by the yaw-turned dolly delta and clamped into the box |
| `LookControls.MultitouchLookControls.Update` | multitouch-look-controls.js:112-156 | a disabled update changes nothing; with old data, yaw and pitch go to 0 and the box is rebuilt around the old position; without, they are kept; then one composer pass |
| `LookControls.MultitouchLookControls.Tick` | multitouch-look-controls.js:186-188 | a tick while enabled is one composer pass with no reset; while disabled it changes nothing |
| `LookControls.MultitouchLookControls.SampleTwice` | multitouch-look-controls.js:281-313 | sampling both samplers twice in a row, the second samples are zero on every axis |

## Left out

- `init`'s look-controls lookup and the desktop branch: the model is the
  component after it starts on a mobile device. The same goes for `play`,
  `pause`, `remove`, `bindMethods`, and adding and removing listeners. It
  also covers `handleEnterVRMobile`/`handleExitVRMobile` and `setEnabled`.
  These only attach handlers, toggle a cursor class or hand control to
  another component.
- The rotation order `YXZ` that `addEventListeners` sets, and the
  `yawObject.position.y = 10` offset: neither is read by the modelled code.
- `console.warn` for an event with no touches: the model changes nothing
  there.
- `Math.sqrt`, `Math.sin` and `Math.cos` are uninterpreted parameters. The
  only fact assumed about them is that a square root of a positive number is
  positive.
- IEEE arithmetic:
  - reals are exact, and there is no rounding, overflow or infinity;
  - NaN is modelled only where a failed `parseInt` can introduce it (the
    bounds and the entity position);
  - a NaN or infinite touch coordinate, accumulator or memo is not modelled;
  - a canvas of zero width or height is excluded, because it would divide
    by zero.
- `parseInt` is modelled on decimal digits with an optional sign. Leading
  whitespace, a `0x` prefix and characters outside ASCII digits are not
  modelled.
- The three.js object graph (`pitchObject`, `yawObject`, `dollyObject`) is
  reduced to the pitch, the yaw and the dolly vector; no other coordinate
  of those objects is read.
- `this.el.getAttribute('position')` and `this.el.object3D.position` are
  treated as the same value.
- `maxPitchRad`/`minPitchRad` are computed only in `init`. The model keeps
  them fixed for the component's life, and does not model a host that
  replaces `data` and loses them.
- `update` stores the parsed numbers through an undeclared variable `r`,
  which becomes a global in the browser. The model keeps them local.
- `Composer.Compose` always writes the rotation. The source and the class
  method write it only when a delta is nonzero, but an unconditional write
  gives the same value.
- `Gesture.TouchMove`: a throw is reported as the `None` result
  (`threw` in the class). The exception object itself is not modelled.
