/** The pure rules behind the animation state of main.js: which pose a
    request starts from and whether it is allowed (`setPose`), when a lick may
    start, how blend and lick progress ramp and how the head turn is smoothed
    (`updateSimulation`), and how a key press is read (`attachInputHandlers`).
    The class in module Animation applies these rules to the shared state. */
module PoseMachine {
  import opened Wrappers
  import opened CatConfig

  // ---------------------------------------------------------------------------
  // Arithmetic helpers
  // ---------------------------------------------------------------------------

  function Min(a: real, b: real): (r: real)
    ensures r <= a && r <= b && (r == a || r == b)
  {
    if a <= b then a else b
  }

  /** `clamp(v, lo, hi)` as main.js writes it: the low bound is tested first. */
  function Clamp(v: real, lo: real, hi: real): (r: real)
    ensures lo <= hi ==> lo <= r <= hi
    ensures lo <= v <= hi ==> r == v
    ensures v < lo ==> r == lo
    ensures lo <= v && hi < v ==> r == hi
  {
    if v < lo then lo else if v > hi then hi else v
  }

  // ---------------------------------------------------------------------------
  // Poses and the pose request
  // ---------------------------------------------------------------------------

  /** The poses selected by the digit keys 1 to 6 (`POSE_KEYS`): Walk is
      skipped. */
  const PoseKeys: seq<Pose> := [Standing, Sit, Loaf, Stretch, OnBack, UprightSit]

  lemma PoseKeysSkipWalk()
    ensures |PoseKeys| == 6
    ensures forall i :: 0 <= i < |PoseKeys| ==> PoseKeys[i] != Walk
    ensures forall p: Pose :: p != Walk ==> p in PoseKeys
  {
  }

  /** Mid-blend, the target pose counts as the source once the eased blend
      reaches this value. */
  const DominanceThreshold: real := 0.5

  /** A pose change lowers a paw that is still raised to this lick phase. */
  const LickLowering: real := 0.60

  /** The part of the animation state that `setPose` reads and writes. */
  datatype PoseState = PoseState(
    fromPose: Pose,
    toPose: Pose,
    blendT: real,
    blendDurationSec: real,
    lickT: real,
    walkOffset: real)

  /** The pose a new blend starts from: the target once the blend is done,
      and mid-blend whichever endpoint the eased blend shows more of. The
      easing curve `1 - (1 - t)^2.5` is the parameter `ease`. */
  function EffectiveSource(s: PoseState, ease: real -> real): (src: Pose)
    ensures src == s.fromPose || src == s.toPose
    ensures s.blendT >= 1.0 ==> src == s.toPose
    ensures s.blendT < 1.0 && ease(s.blendT) >= DominanceThreshold ==> src == s.toPose
    ensures s.blendT < 1.0 && ease(s.blendT) < DominanceThreshold ==> src == s.fromPose
  {
    if s.blendT >= 1.0 then s.toPose
    else if ease(s.blendT) >= DominanceThreshold then s.toPose
    else s.fromPose
  }

  /** A request is taken unless it names the current target or the move from
      the effective source is blocked. */
  predicate Accepts(s: PoseState, pose: Pose, ease: real -> real) {
    pose != s.toPose && !Blocked(EffectiveSource(s, ease), pose)
  }

  /** `setPose(state, pose)` at time `nowMs`, for a state whose clock started
      at `startTime`. */
  function RequestPose(s: PoseState, pose: Pose, nowMs: real, startTime: real, ease: real -> real): (t: PoseState)
    ensures !Accepts(s, pose, ease) ==> t == s
    ensures Accepts(s, pose, ease) ==>
      t.fromPose == EffectiveSource(s, ease) && t.toPose == pose &&
      t.blendT == 0.0 && t.blendDurationSec == BlendSeconds &&
      !Blocked(t.fromPose, t.toPose)
    ensures Accepts(s, pose, ease) ==>
      t.lickT >= LickLowering && t.lickT >= s.lickT &&
      (s.lickT >= LickLowering ==> t.lickT == s.lickT) &&
      (s.lickT < LickLowering ==> t.lickT == LickLowering)
    ensures pose != Walk ==> t.walkOffset == s.walkOffset
    ensures Accepts(s, pose, ease) && pose == Walk ==> t.walkOffset == (nowMs - startTime) * 0.001
  {
    var src := EffectiveSource(s, ease);
    if pose == s.toPose || Blocked(src, pose) then s
    else
      var lickT := if s.lickT < LickLowering then LickLowering else s.lickT;
      var walkOffset := if pose == Walk then (nowMs - startTime) * 0.001 else s.walkOffset;
      PoseState(src, pose, 0.0, BlendSeconds, lickT, walkOffset)
  }

  /** Standing can always be requested from any other target: no move into
      Standing is blocked. */
  lemma StandingAlwaysAccepted(s: PoseState, ease: real -> real)
    requires s.toPose != Standing
    ensures Accepts(s, Standing, ease)
  {
    BlockedIff(EffectiveSource(s, ease), Standing);
  }

  /** The state before a request, settled in `pose`. */
  predicate Settled(s: PoseState, pose: Pose) {
    s.toPose == pose && s.blendT >= 1.0
  }

  /** From a settled OnBack every grounded pose other than Standing is
      refused and the state stays as it was; Standing is taken, and once that
      blend has settled every other pose is taken. */
  lemma OnBackOnlyViaStanding(s: PoseState, pose: Pose, nowMs: real, later: real, startTime: real,
                              ease: real -> real)
    requires Settled(s, OnBack)
    requires pose != Standing && pose != OnBack
    ensures RequestPose(s, pose, nowMs, startTime, ease) == s
    ensures var u := RequestPose(s, Standing, nowMs, startTime, ease);
      u.fromPose == OnBack && u.toPose == Standing &&
      RequestPose(u.(blendT := 1.0), pose, later, startTime, ease).toPose == pose
  {
    BlockedIff(OnBack, pose);
    var u := RequestPose(s, Standing, nowMs, startTime, ease);
    StandingAlwaysAccepted(s, ease);
    OthersUnblocked(Standing, pose);
  }

  /** Outside OnBack, every pose can be reached from every other in one
      request once the current blend has settled. */
  lemma OthersReachable(s: PoseState, pose: Pose, nowMs: real, startTime: real, ease: real -> real)
    requires s.blendT >= 1.0 && s.toPose != OnBack && pose != OnBack && pose != s.toPose
    ensures RequestPose(s, pose, nowMs, startTime, ease).toPose == pose
  {
    OthersUnblocked(s.toPose, pose);
  }

  /** Requesting Walk again while Walk is the target keeps the gait anchor,
      and the whole state, as it was. */
  lemma WalkReentryKeepsAnchor(s: PoseState, nowMs: real, startTime: real, ease: real -> real)
    requires s.toPose == Walk
    ensures RequestPose(s, Walk, nowMs, startTime, ease) == s
  {
  }

  // ---------------------------------------------------------------------------
  // Lick
  // ---------------------------------------------------------------------------

  /** A lick may start only while settled in Sit or UprightSit with the
      previous lick finished. */
  predicate LickAllowed(s: PoseState) {
    (s.toPose == Sit || s.toPose == UprightSit) && s.blendT >= 1.0 && s.lickT >= 1.0
  }

  /** The "l" key: restart the lick when it is allowed, otherwise nothing. */
  function TriggerLick(s: PoseState): (t: PoseState)
    ensures t.lickT != s.lickT <==> LickAllowed(s)
    ensures t.lickT != s.lickT ==> t.lickT == 0.0
    ensures t.(lickT := s.lickT) == s
  {
    if LickAllowed(s) then s.(lickT := 0.0) else s
  }

  // ---------------------------------------------------------------------------
  // Per-tick progress
  // ---------------------------------------------------------------------------

  /** One tick of a progress value that runs from 0 to 1 in `duration`
      seconds: it advances linearly while below 1 and never passes 1. */
  function Ramp(t: real, dt: real, duration: real): (r: real)
    requires duration > 0.0
    ensures 0.0 <= t <= 1.0 && dt >= 0.0 ==> t <= r <= 1.0
    ensures t >= 1.0 ==> r == t
    ensures r <= 1.0 || r == t
  {
    if t < 1.0 then Min(1.0, t + dt / duration) else t
  }

  /** A tick at least as long as the remaining time completes the ramp. */
  lemma RampCompletes(t: real, dt: real, duration: real)
    requires duration > 0.0 && t <= 1.0 && dt >= (1.0 - t) * duration
    ensures Ramp(t, dt, duration) == 1.0
  {
    if t < 1.0 {
      assert dt / duration >= 1.0 - t by {
        DivAtLeast(dt, duration, 1.0 - t);
      }
    }
  }

  lemma DivAtLeast(a: real, d: real, q: real)
    requires d > 0.0 && a >= q * d
    ensures a / d >= q
  {
    assert a / d * d == a;
  }

  /** A tick shorter than the remaining time leaves the ramp strictly inside
      (t, 1). */
  lemma RampInProgress(t: real, dt: real, duration: real)
    requires duration > 0.0 && 0.0 <= t < 1.0 && 0.0 < dt < (1.0 - t) * duration
    ensures t < Ramp(t, dt, duration) < 1.0
  {
    assert dt / duration * duration == dt;
    assert 0.0 < dt / duration;
    if dt / duration >= 1.0 - t {
      assert dt / duration * duration >= (1.0 - t) * duration;
    }
  }

  /** From the initial state, Sit starts a blend from Standing that one tick
      of the blend duration completes; the lick then starts, and half a lick
      duration later it is strictly under way. */
  lemma SitAndLickScenario(nowMs: real, startTime: real, ease: real -> real)
    ensures var s0 := PoseState(Standing, Standing, 1.0, BlendSeconds, 1.0, 0.0);
      var s1 := RequestPose(s0, Sit, nowMs, startTime, ease);
      var s2 := s1.(blendT := Ramp(s1.blendT, BlendSeconds, s1.blendDurationSec));
      var s3 := TriggerLick(s2);
      s1.fromPose == Standing && s1.toPose == Sit && s1.blendT == 0.0 &&
      s2.blendT == 1.0 && s3.lickT == 0.0 &&
      0.0 < Ramp(s3.lickT, LickSeconds / 2.0, LickSeconds) < 1.0
  {
    var s0 := PoseState(Standing, Standing, 1.0, BlendSeconds, 1.0, 0.0);
    OthersUnblocked(Standing, Sit);
    var s1 := RequestPose(s0, Sit, nowMs, startTime, ease);
    RampCompletes(0.0, BlendSeconds, BlendSeconds);
    RampInProgress(0.0, LickSeconds / 2.0, LickSeconds);
  }

  /** The head-turn target: right minus left, scaled to the largest turn. */
  function HeadTarget(left: bool, right: bool): (target: real)
    ensures -HeadTurnMax <= target <= HeadTurnMax
    ensures left == right ==> target == 0.0
    ensures right && !left ==> target == HeadTurnMax
    ensures left && !right ==> target == -HeadTurnMax
  {
    ((if right then 1.0 else 0.0) - (if left then 1.0 else 0.0)) * HeadTurnMax
  }

  /** The smoothing factor of one tick, `min(1, speed * dt)`. */
  function SmoothingFactor(dt: real): (k: real)
    ensures k <= 1.0
    ensures dt >= 0.0 ==> 0.0 <= k
  {
    Min(1.0, HeadTurnSpeed * dt)
  }

  /** One step of exponential smoothing from `y` toward `target`. */
  function Smooth(y: real, target: real, k: real): (r: real)
    ensures 0.0 <= k <= 1.0 ==> (y <= r <= target || target <= r <= y)
    ensures k == 1.0 ==> r == target
    ensures k == 0.0 ==> r == y
  {
    var step := (target - y) * k;
    StepWithin(target - y, k, step);
    y + step
  }

  /** Scaling by a factor in [0, 1] keeps a value between 0 and itself. */
  lemma StepWithin(a: real, k: real, step: real)
    requires step == a * k
    ensures 0.0 <= k <= 1.0 ==> (0.0 <= step <= a || a <= step <= 0.0)
    ensures k == 1.0 ==> step == a
    ensures k == 0.0 ==> step == 0.0
  {
    if 0.0 <= k <= 1.0 {
      if 0.0 <= a {
        MulMono(a, k, 1.0);
      } else {
        MulMono(-a, k, 1.0);
      }
    }
  }

  lemma MulMono(a: real, k: real, m: real)
    requires 0.0 <= a && 0.0 <= k <= m
    ensures 0.0 <= a * k <= a * m
  {
  }

  /** A smoothing step never leaves an interval that holds both the value and
      the target. */
  lemma SmoothStaysWithin(y: real, target: real, k: real, bound: real)
    requires 0.0 <= k <= 1.0
    requires -bound <= y <= bound && -bound <= target <= bound
    ensures -bound <= Smooth(y, target, k) <= bound
  {
  }

  // ---------------------------------------------------------------------------
  // Keyboard
  // ---------------------------------------------------------------------------

  /** JavaScript `a < b` on strings: lexicographic, a proper prefix first. */
  predicate LexLess(a: string, b: string)
    decreases |a|
  {
    if b == [] then false
    else if a == [] then true
    else if a[0] != b[0] then a[0] < b[0]
    else LexLess(a[1..], b[1..])
  }

  /** JavaScript `a <= b` on strings: less than, or equal. */
  function LexAtMost(a: string, b: string): (r: bool)
    ensures r <==> LexLess(a, b) || a == b
  {
    LexTrichotomy(a, b);
    !LexLess(b, a)
  }

  /** The string order is strict and total: of two different strings exactly
      one comes first, and no string comes before itself. */
  lemma {:induction false} LexTrichotomy(a: string, b: string)
    ensures !(LexLess(a, b) && LexLess(b, a))
    ensures !LexLess(a, a)
    ensures a != b ==> LexLess(a, b) || LexLess(b, a)
    decreases |a|
  {
    if a != [] {
      LexTrichotomy(a[1..], a[1..]);
      if b != [] && a[0] == b[0] {
        LexTrichotomy(a[1..], b[1..]);
        if a[1..] == b[1..] {
          assert a == [a[0]] + a[1..] && b == [b[0]] + b[1..];
        }
      }
    }
  }

  /** `toLowerCase` on the ASCII letters. */
  function ToLower(s: string): (r: string)
    ensures |r| == |s|
    ensures forall i :: 0 <= i < |s| && 'A' <= s[i] <= 'Z' ==> r[i] == ('a' as int + (s[i] as int - 'A' as int)) as char
    ensures forall i :: 0 <= i < |s| && !('A' <= s[i] <= 'Z') ==> r[i] == s[i]
    ensures forall i :: 0 <= i < |r| ==> !('A' <= r[i] <= 'Z')
  {
    seq(|s|, i requires 0 <= i < |s| =>
      if 'A' <= s[i] <= 'Z' then (s[i] as int + 32) as char else s[i])
  }

  /** `lk >= "1" && lk <= "6"` holds exactly for the strings that start with
      a digit from 1 to 5, and for "6" itself. */
  lemma {:induction false} DigitRange(lk: string)
    ensures LexAtMost("1", lk) && LexAtMost(lk, "6") <==>
      |lk| >= 1 && ('1' <= lk[0] <= '5' || lk == "6")
  {
    if lk != [] {
      var one, six := "1", "6";
      assert LexLess(lk, one) <==> lk[0] < '1' by {
        if lk[0] == '1' {
          assert !LexLess(lk[1..], one[1..]);
        }
      }
      assert LexLess(six, lk) <==> '6' < lk[0] || (lk[0] == '6' && |lk| > 1) by {
        if lk[0] == '6' {
          assert LexLess(six, lk) == LexLess(six[1..], lk[1..]);
          assert six[1..] == [];
        }
      }
      if lk[0] == '6' && |lk| == 1 {
        assert lk == six;
      }
    }
  }

  /** The pose a lower-cased key selects, when it is in the digit range. */
  function DigitPose(lk: string): (r: Option<Pose>)
    ensures r.Some? <==> LexAtMost("1", lk) && LexAtMost(lk, "6")
    ensures r.Some? ==> r.value != Walk && r.value == PoseKeys[lk[0] as int - '1' as int]
  {
    DigitRange(lk);
    if LexAtMost("1", lk) && LexAtMost(lk, "6") then Some(PoseKeys[lk[0] as int - '1' as int])
    else None
  }

  /** What a keydown does. */
  datatype KeyAction =
    | Ignore
    | HoldWalk
    | TurnLeft
    | TurnRight
    | SelectPose(pose: Pose)
    | CycleMode
    | Lick

  /** A keydown that gets past the modifier test and the three arrow-key
      tests, on to the lower-cased key. */
  predicate PastArrows(key: string, ctrlKey: bool, metaKey: bool, altKey: bool, arrowUp: bool) {
    !(ctrlKey || metaKey || altKey) && !(key == "ArrowUp" && !arrowUp) &&
    key != "ArrowLeft" && key != "ArrowRight"
  }

  /** The keydown handler's decision, from the key, the modifier flags and
      whether ArrowUp is already held. */
  function ReadKeyDown(key: string, ctrlKey: bool, metaKey: bool, altKey: bool, arrowUp: bool): (a: KeyAction)
    ensures ctrlKey || metaKey || altKey ==> a == Ignore
    ensures a == HoldWalk <==> !(ctrlKey || metaKey || altKey) && key == "ArrowUp" && !arrowUp
    ensures a.SelectPose? ==> a.pose != Walk
    ensures a.SelectPose? ==> DigitPose(ToLower(key)) == Some(a.pose)
  {
    if ctrlKey || metaKey || altKey then Ignore
    else if key == "ArrowUp" && !arrowUp then HoldWalk
    else if key == "ArrowLeft" then TurnLeft
    else if key == "ArrowRight" then TurnRight
    else LowerKeyAction(ToLower(key))
  }

  /** The keydown decision for a key that got past the modifier and arrow
      tests, from its lower-cased form: a digit selects its pose, "d" cycles
      the display mode, "l" asks for a lick, and anything else is ignored. */
  function LowerKeyAction(lk: string): (a: KeyAction)
    ensures a.SelectPose? <==> DigitPose(lk).Some?
    ensures a.SelectPose? ==> DigitPose(lk) == Some(a.pose) && a.pose != Walk
    ensures a == CycleMode <==> lk == "d"
    ensures a == Lick <==> lk == "l"
    ensures a.Ignore? || a.SelectPose? || a.CycleMode? || a.Lick?
  {
    match DigitPose(lk)
    case Some(p) => SelectPose(p)
    case None =>
      if lk == "d" then CycleMode
      else if lk == "l" then Lick
      else Ignore
  }

  /** Every other branch of the keydown handler: the side arrows turn the
      head, and past the arrow tests a digit selects its pose, "d" or "D"
      cycles the display mode and "l" or "L" asks for a lick. */
  lemma KeyDownActions(key: string, ctrlKey: bool, metaKey: bool, altKey: bool, arrowUp: bool)
    ensures var a := ReadKeyDown(key, ctrlKey, metaKey, altKey, arrowUp);
      (a == TurnLeft <==> !(ctrlKey || metaKey || altKey) && key == "ArrowLeft") &&
      (a == TurnRight <==> !(ctrlKey || metaKey || altKey) && key == "ArrowRight")
    ensures var a := ReadKeyDown(key, ctrlKey, metaKey, altKey, arrowUp);
      PastArrows(key, ctrlKey, metaKey, altKey, arrowUp) && DigitPose(ToLower(key)).Some? ==>
        a == SelectPose(DigitPose(ToLower(key)).value)
    ensures var a := ReadKeyDown(key, ctrlKey, metaKey, altKey, arrowUp);
      PastArrows(key, ctrlKey, metaKey, altKey, arrowUp) ==>
        (ToLower(key) == "d" ==> a == CycleMode) && (ToLower(key) == "l" ==> a == Lick)
    ensures var a := ReadKeyDown(key, ctrlKey, metaKey, altKey, arrowUp);
      (a == CycleMode ==> ToLower(key) == "d") && (a == Lick ==> ToLower(key) == "l")
  {
  }

  /** Digit keys 1 to 6 select Standing, Sit, Loaf, Stretch, OnBack and
      UprightSit. */
  lemma DigitKeys(arrowUp: bool)
    ensures ReadKeyDown("1", false, false, false, arrowUp) == SelectPose(Standing)
    ensures ReadKeyDown("2", false, false, false, arrowUp) == SelectPose(Sit)
    ensures ReadKeyDown("3", false, false, false, arrowUp) == SelectPose(Loaf)
    ensures ReadKeyDown("4", false, false, false, arrowUp) == SelectPose(Stretch)
    ensures ReadKeyDown("5", false, false, false, arrowUp) == SelectPose(OnBack)
    ensures ReadKeyDown("6", false, false, false, arrowUp) == SelectPose(UprightSit)
  {
    DigitKey('1', arrowUp);
    DigitKey('2', arrowUp);
    DigitKey('3', arrowUp);
    DigitKey('4', arrowUp);
    DigitKey('5', arrowUp);
    DigitKey('6', arrowUp);
  }

  /** A held ArrowUp that repeats does nothing more. */
  lemma RepeatedArrowUp()
    ensures ReadKeyDown("ArrowUp", false, false, false, true) == Ignore
  {
    assert ToLower("ArrowUp") == "arrowup";
    DigitRange("arrowup");
  }

  /** An unmodified one-character digit key selects the pose POSE_KEYS
      lists for it. */
  lemma DigitKey(c: char, arrowUp: bool)
    requires '1' <= c <= '6'
    ensures ReadKeyDown([c], false, false, false, arrowUp) == SelectPose(PoseKeys[c as int - '1' as int])
  {
    assert ToLower([c]) == [c];
    DigitRange([c]);
  }

  /** The capital letters D and L act as their lower-case forms. */
  lemma LetterKeys(arrowUp: bool)
    ensures ReadKeyDown("D", false, false, false, arrowUp) == CycleMode
    ensures ReadKeyDown("L", false, false, false, arrowUp) == Lick
  {
    assert ToLower("D") == "d";
    assert ToLower("L") == "l";
    DigitRange("d");
    DigitRange("l");
  }
}
