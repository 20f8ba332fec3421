/** The single mutable state object of main.js (`createState`) and the code
    that changes it in place: `setPose`, `updateSimulation` and the bodies of
    the pointer, wheel and keyboard handlers. The current time and the tick
    length are parameters; the easing curve is the constant `ease`. */
module Animation {
  import opened CatConfig
  import opened PoseMachine

  class AnimationState {
    // camera: yaw, pitch and distance
    var camT: real
    var camP: real
    var camD: real
    // pointer drag
    var dragging: bool
    var dragId: int
    var lastX: real
    var lastY: real
    // pose blend and sub-animations
    var fromPose: Pose
    var toPose: Pose
    var blendT: real
    var blendDurationSec: real
    var mode: int
    var lickT: real
    var walkOffset: real
    var startTime: real
    var headYawOffset: real
    // held keys
    var arrowUp: bool
    var arrowLeft: bool
    var arrowRight: bool

    /** The easing curve `t -> 1 - (1 - t)^2.5`, left uninterpreted. */
    const ease: real -> real

    /** The fields that `setPose` reads and writes. */
    function PoseView(): PoseState
      reads this
    {
      PoseState(fromPose, toPose, blendT, blendDurationSec, lickT, walkOffset)
    }

    /** The invariant every handler and tick keeps: progress values in [0, 1],
        the configured blend duration, the head turn within its largest
        angle, a render mode in {0, 1, 2}, the camera inside its ranges, and a
        blend that never runs along a blocked pair. */
    ghost predicate Valid()
      reads this
    {
      0.0 <= blendT <= 1.0 &&
      0.0 <= lickT <= 1.0 &&
      blendDurationSec == BlendSeconds &&
      -HeadTurnMax <= headYawOffset <= HeadTurnMax &&
      0 <= mode < 3 &&
      ElevMin <= camP <= ElevMax &&
      DistMin <= camD <= DistMax &&
      !Blocked(fromPose, toPose)
    }

    /** Walk is a hold state: it is the target only while ArrowUp is held. */
    ghost predicate WalkOnlyWhileHeld()
      reads this
    {
      toPose == Walk ==> arrowUp
    }

    /** `createState`: Standing, fully blended, lick idle, camera at its
        default framing, nothing held or dragged. */
    constructor (ease: real -> real)
      ensures Valid() && WalkOnlyWhileHeld()
      ensures this.ease == ease
      ensures camT == 0.6 && camP == 0.35 && camD == 3.5
      ensures !dragging && dragId == -1 && lastX == 0.0 && lastY == 0.0
      ensures fromPose == Standing && toPose == Standing && blendT == 1.0
      ensures blendDurationSec == BlendSeconds && mode == 0 && lickT == 1.0
      ensures walkOffset == 0.0 && startTime == 0.0 && headYawOffset == 0.0
      ensures !arrowUp && !arrowLeft && !arrowRight
    {
      camT, camP, camD := 0.6, 0.35, 3.5;
      dragging, dragId, lastX, lastY := false, -1, 0.0, 0.0;
      fromPose, toPose, blendT := Standing, Standing, 1.0;
      blendDurationSec, mode, lickT := BlendSeconds, 0, 1.0;
      walkOffset, startTime, headYawOffset := 0.0, 0.0, 0.0;
      arrowUp, arrowLeft, arrowRight := false, false, false;
      this.ease := ease;
    }

    /** `state.startTime = start` when the frame loop begins. */
    method Start(nowMs: real)
      modifies this`startTime
      ensures startTime == nowMs
    {
      startTime := nowMs;
    }

    /** `setPose(state, pose)` at time `nowMs`. */
    method SetPose(pose: Pose, nowMs: real)
      requires Valid()
      modifies this`fromPose, this`toPose, this`blendT, this`blendDurationSec, this`lickT, this`walkOffset
      ensures Valid()
      ensures PoseView() == RequestPose(old(PoseView()), pose, nowMs, startTime, ease)
    {
      var src: Pose;
      if blendT >= 1.0 {
        src := toPose;
      } else {
        var eased := ease(blendT);
        src := if eased >= DominanceThreshold then toPose else fromPose;
      }
      if pose == toPose {
        return;
      }
      if Blocked(src, pose) {
        return;
      }
      if lickT < LickLowering {
        lickT := LickLowering;
      }
      if pose == Walk {
        walkOffset := (nowMs - startTime) * 0.001;
      }
      fromPose := src;
      toPose := pose;
      blendT := 0.0;
      blendDurationSec := BlendSeconds;
    }

    /** `updateSimulation(state, dt)`: blend and lick progress ramp toward 1,
        the head turn is smoothed toward the held arrow keys. With a
        non-negative tick the invariant holds afterwards and neither progress
        value goes back. */
    method UpdateSimulation(dt: real)
      requires Valid()
      modifies this`blendT, this`lickT, this`headYawOffset
      ensures blendT == Ramp(old(blendT), dt, blendDurationSec)
      ensures lickT == Ramp(old(lickT), dt, LickSeconds)
      ensures headYawOffset == Smooth(old(headYawOffset), HeadTarget(arrowLeft, arrowRight), SmoothingFactor(dt))
      ensures dt >= 0.0 ==> Valid() && old(blendT) <= blendT && old(lickT) <= lickT
      ensures old(blendT) == 1.0 ==> blendT == 1.0
      ensures old(lickT) == 1.0 ==> lickT == 1.0
    {
      if blendT < 1.0 {
        blendT := Min(1.0, blendT + dt / blendDurationSec);
      }
      assert blendT == Ramp(old(blendT), dt, blendDurationSec);
      if lickT < 1.0 {
        lickT := Min(1.0, lickT + dt / LickSeconds);
      }
      assert lickT == Ramp(old(lickT), dt, LickSeconds);
      var headTarget := ((if arrowRight then 1.0 else 0.0) - (if arrowLeft then 1.0 else 0.0)) * HeadTurnMax;
      assert headTarget == HeadTarget(arrowLeft, arrowRight);
      var headSpeed := HeadTurnSpeed;
      var k := Min(1.0, headSpeed * dt);
      assert k == SmoothingFactor(dt);
      headYawOffset := Smooth(headYawOffset, headTarget, k);
      if dt >= 0.0 {
        assert 0.0 <= k <= 1.0;
        SmoothStaysWithin(old(headYawOffset), headTarget, k, HeadTurnMax);
        assert old(blendT) <= blendT <= 1.0;
        assert old(lickT) <= lickT <= 1.0;
      }
    }

    /** The `pointerdown` handler: the new pointer takes over the drag, even
        while another pointer is dragging. */
    method PointerDown(pointerId: int, clientX: real, clientY: real)
      requires Valid()
      modifies this`dragging, this`dragId, this`lastX, this`lastY
      ensures Valid()
      ensures dragging && dragId == pointerId && lastX == clientX && lastY == clientY
    {
      dragging := true;
      dragId := pointerId;
      lastX := clientX;
      lastY := clientY;
    }

    /** The `pointermove` handler: only the dragging pointer moves the
        camera; yaw follows the horizontal motion unclamped, pitch follows
        the vertical motion clamped to the elevation range. */
    method PointerMove(pointerId: int, clientX: real, clientY: real)
      requires Valid()
      modifies this`lastX, this`lastY, this`camT, this`camP
      ensures Valid()
      ensures !old(dragging) || pointerId != dragId ==> unchanged(this)
      ensures old(dragging) && pointerId == dragId ==>
        lastX == clientX && lastY == clientY &&
        camT == old(camT) - (clientX - old(lastX)) * DragSensitivity &&
        camP == Clamp(old(camP) + (clientY - old(lastY)) * DragSensitivity, ElevMin, ElevMax)
    {
      if !dragging || pointerId != dragId {
        return;
      }
      var dx := clientX - lastX;
      var dy := clientY - lastY;
      lastX := clientX;
      lastY := clientY;
      camT := camT - dx * DragSensitivity;
      camP := Clamp(camP + dy * DragSensitivity, ElevMin, ElevMax);
    }

    /** `endDrag`, shared by `pointerup`, `pointercancel` and
        `lostpointercapture`: only the dragging pointer ends the drag. */
    method EndDrag(pointerId: int)
      requires Valid()
      modifies this`dragging, this`dragId
      ensures Valid()
      ensures pointerId != old(dragId) ==> unchanged(this)
      ensures pointerId == old(dragId) ==> !dragging && dragId == -1
    {
      if pointerId != dragId {
        return;
      }
      dragging := false;
      dragId := -1;
    }

    /** The `wheel` handler: the distance is scaled and clamped to its range. */
    method Wheel(deltaY: real)
      requires Valid()
      modifies this`camD
      ensures Valid()
      ensures camD == Clamp(old(camD) * (1.0 + deltaY * ZoomSensitivity), DistMin, DistMax)
    {
      camD := Clamp(camD * (1.0 + deltaY * ZoomSensitivity), DistMin, DistMax);
    }

    /** The `keydown` handler. */
    method KeyDown(key: string, ctrlKey: bool, metaKey: bool, altKey: bool, nowMs: real)
      requires Valid()
      modifies this`arrowUp, this`arrowLeft, this`arrowRight, this`mode
      modifies this`fromPose, this`toPose, this`blendT, this`blendDurationSec, this`lickT, this`walkOffset
      ensures Valid()
      ensures old(WalkOnlyWhileHeld()) ==> WalkOnlyWhileHeld()
      ensures match ReadKeyDown(key, ctrlKey, metaKey, altKey, old(arrowUp))
        case Ignore => unchanged(this)
        case HoldWalk =>
          arrowUp && arrowLeft == old(arrowLeft) && arrowRight == old(arrowRight) && mode == old(mode) &&
          PoseView() == RequestPose(old(PoseView()), Walk, nowMs, startTime, ease)
        case TurnLeft =>
          arrowLeft && arrowUp == old(arrowUp) && arrowRight == old(arrowRight) && mode == old(mode) &&
          PoseView() == old(PoseView())
        case TurnRight =>
          arrowRight && arrowUp == old(arrowUp) && arrowLeft == old(arrowLeft) && mode == old(mode) &&
          PoseView() == old(PoseView())
        case SelectPose(p) =>
          arrowUp == old(arrowUp) && arrowLeft == old(arrowLeft) && arrowRight == old(arrowRight) &&
          mode == old(mode) && PoseView() == RequestPose(old(PoseView()), p, nowMs, startTime, ease)
        case CycleMode =>
          mode == (old(mode) + 1) % 3 &&
          arrowUp == old(arrowUp) && arrowLeft == old(arrowLeft) && arrowRight == old(arrowRight) &&
          PoseView() == old(PoseView())
        case Lick =>
          arrowUp == old(arrowUp) && arrowLeft == old(arrowLeft) && arrowRight == old(arrowRight) &&
          mode == old(mode) && PoseView() == TriggerLick(old(PoseView()))
    {
      ghost var action := ReadKeyDown(key, ctrlKey, metaKey, altKey, arrowUp);
      if ctrlKey || metaKey || altKey {
        return;
      }
      if key == "ArrowUp" && !arrowUp {
        assert action == HoldWalk;
        arrowUp := true;
        SetPose(Walk, nowMs);
        return;
      }
      if key == "ArrowLeft" {
        assert action == TurnLeft;
        arrowLeft := true;
        return;
      }
      if key == "ArrowRight" {
        assert action == TurnRight;
        arrowRight := true;
        return;
      }
      assert action == LowerKeyAction(ToLower(key));
      ApplyLowerKey(ToLower(key), nowMs);
    }

    /** The rest of the `keydown` handler, for a key past the modifier and
        arrow tests, given its lower-cased form: a digit requests its pose,
        "d" cycles the display mode and "l" restarts a lick when allowed. */
    method ApplyLowerKey(lk: string, nowMs: real)
      requires Valid()
      modifies this`mode, this`fromPose, this`toPose, this`blendT, this`blendDurationSec, this`lickT, this`walkOffset
      ensures Valid()
      ensures old(toPose) != Walk ==> toPose != Walk
      ensures match LowerKeyAction(lk)
        case SelectPose(p) =>
          mode == old(mode) && PoseView() == RequestPose(old(PoseView()), p, nowMs, startTime, ease)
        case CycleMode => mode == (old(mode) + 1) % 3 && PoseView() == old(PoseView())
        case Lick => mode == old(mode) && PoseView() == TriggerLick(old(PoseView()))
        case _ => unchanged(this)
    {
      if LexAtMost("1", lk) && LexAtMost(lk, "6") {
        DigitRange(lk);
        var pose := PoseKeys[lk[0] as int - '1' as int];
        SetPose(pose, nowMs);
        return;
      }
      if lk == "d" {
        mode := (mode + 1) % 3;
        return;
      }
      if lk == "l" {
        if (toPose == Sit || toPose == UprightSit) && blendT >= 1.0 && lickT >= 1.0 {
          lickT := 0.0;
        }
        return;
      }
    }

    /** The `keyup` handler: releasing ArrowUp while Walk is the target
        returns to Standing, which is never refused. */
    method KeyUp(key: string, nowMs: real)
      requires Valid()
      modifies this`arrowUp, this`arrowLeft, this`arrowRight
      modifies this`fromPose, this`toPose, this`blendT, this`blendDurationSec, this`lickT, this`walkOffset
      ensures Valid()
      ensures old(WalkOnlyWhileHeld()) ==> WalkOnlyWhileHeld()
      ensures key == "ArrowUp" ==>
        !arrowUp && toPose != Walk && arrowLeft == old(arrowLeft) && arrowRight == old(arrowRight) &&
        PoseView() == if old(toPose) == Walk
                      then RequestPose(old(PoseView()), Standing, nowMs, startTime, ease)
                      else old(PoseView())
      ensures key == "ArrowLeft" ==>
        !arrowLeft && arrowUp == old(arrowUp) && arrowRight == old(arrowRight) && PoseView() == old(PoseView())
      ensures key == "ArrowRight" ==>
        !arrowRight && arrowUp == old(arrowUp) && arrowLeft == old(arrowLeft) && PoseView() == old(PoseView())
      ensures key != "ArrowUp" && key != "ArrowLeft" && key != "ArrowRight" ==> unchanged(this)
    {
      if key == "ArrowUp" {
        arrowUp := false;
        if toPose == Walk {
          StandingAlwaysAccepted(PoseView(), ease);
          SetPose(Standing, nowMs);
        }
        return;
      }
      if key == "ArrowLeft" {
        arrowLeft := false;
        return;
      }
      if key == "ArrowRight" {
        arrowRight := false;
        return;
      }
    }
  }
}
