/**
 * The vertical-jump measurement of the camera analyzer (`JumpAnalyzer`,
 * identical in the server package and in `original_files/jump.py`): the pure
 * helpers on landmarks and the per-frame phase machine idle -> armed ->
 * airborne -> landed, driven by hand-to-nose gestures and by the smoothed
 * height of the nose above its armed baseline.
 */
module JumpRules {
  import opened Wrappers
  import opened Smoothing

  /** The environment-configured constants of the module. */
  datatype JumpConfig = JumpConfig(
    calibrationInches: real,
    calibrationPixels: real,
    minJumpInches: real,
    smoothingWindow: int,
    minAirborneFrames: int,
    velUpPctOfH: real,
    velDownPctOfH: real)

  /** The values used when the environment sets none. */
  const DefaultConfig: JumpConfig := JumpConfig(12.0, 100.0, 2.0, 5, 6, 0.25, 0.25)

  /** A pose landmark in normalised image coordinates. */
  datatype Landmark = Landmark(x: real, y: real, visibility: real)

  datatype Point = Point(x: real, y: real)

  /**
   * The landmarks the jump analyzer reads from one detected pose, with the two
   * knee angles (hip-knee-ankle, in degrees) that `detect_squat_cheat`
   * computes with `acos`.
   */
  datatype JumpPose = JumpPose(
    nose: Landmark, rightIndex: Landmark, leftIndex: Landmark,
    leftHip: Landmark, rightHip: Landmark,
    leftKnee: Landmark, rightKnee: Landmark,
    leftAnkle: Landmark, rightAnkle: Landmark,
    leftKneeAngle: real, rightKneeAngle: real)

  /** One successfully read camera frame: the detected pose (if any), the frame size, the clock and the time since the last frame. */
  datatype Capture = Capture(pose: Option<JumpPose>, width: nat, height: nat, now: real, dt: real)

  datatype Phase = Idle | Armed | Airborne | Landed

  datatype Reason = TooSmall | Cheat | Ok

  /** `JumpResult`. */
  datatype JumpResult = JumpResult(inches: real, valid: bool, reason: Reason)

  /** The fields of `JumpAnalyzer` the phase machine reads and writes. */
  datatype JumpState = JumpState(
    phase: Phase,
    baselineNoseY: Option<real>,
    peakDeltaPixels: real,
    lastLandTime: real,
    lastJumpResult: Option<JumpResult>,
    prevDy: Option<real>,
    airborneFrames: nat,
    noseHistory: seq<real>,
    steadyFrames: nat,
    minAirborneFrames: int)

  const VisibilityCutoff: real := 0.4
  const HandToNoseThreshold: real := 60.0
  const FallbackInchesPerPixel: real := 0.12

  function Max(a: real, b: real): real
  {
    if a >= b then a else b
  }

  function Abs(a: real): real
  {
    if a < 0.0 then -a else a
  }

  /** `_init_state`. */
  function InitialJump(cfg: JumpConfig): JumpState
  {
    JumpState(Idle, None, 0.0, 0.0, None, None, 0, [], 0, cfg.minAirborneFrames)
  }

  /** `inches_per_pixel`. */
  function InchesPerPixel(cfg: JumpConfig): (r: real)
    ensures cfg.calibrationPixels > 0.0 ==> r * cfg.calibrationPixels == cfg.calibrationInches
    ensures cfg.calibrationPixels <= 0.0 ==> r == FallbackInchesPerPixel
  {
    if cfg.calibrationPixels > 0.0 then cfg.calibrationInches / cfg.calibrationPixels
    else FallbackInchesPerPixel
  }

  /** A landmark's position in pixels. */
  function Pixel(lm: Landmark, w: nat, h: nat): Point
  {
    Point(lm.x * (w as real), lm.y * (h as real))
  }

  /** `landmark_xy`: the landmark in pixels, or nothing when its visibility is under 0.4. */
  function LandmarkXY(lm: Landmark, w: nat, h: nat): (r: Option<Point>)
    ensures r.None? <==> lm.visibility < VisibilityCutoff
    ensures r.Some? ==> r.value == Pixel(lm, w, h)
  {
    if lm.visibility < VisibilityCutoff then None
    else Some(Pixel(lm, w, h))
  }

  function SquaredDistance(p: Point, q: Point): real
  {
    (p.x - q.x) * (p.x - q.x) + (p.y - q.y) * (p.y - q.y)
  }

  /**
   * `distance(p, q) < thresh`, without the square root: the distance is never
   * negative, so it is below `thresh` exactly when `thresh` is positive and
   * the squared distance is below `thresh * thresh`.
   */
  predicate Closer(p: Point, q: Point, thresh: real)
  {
    thresh > 0.0 && SquaredDistance(p, q) < thresh * thresh
  }

  /** `is_hand_to_nose` with the default 60-pixel threshold. */
  predicate HandToNose(hand: Landmark, nose: Landmark, w: nat, h: nat)
  {
    var pHand := LandmarkXY(hand, w, h);
    var pNose := LandmarkXY(nose, w, h);
    pHand.Some? && pNose.Some? && Closer(pHand.value, pNose.value, HandToNoseThreshold)
  }

  /** The six landmarks `detect_squat_cheat` needs are all at visibility 0.4 or more. */
  predicate LowerBodyVisible(p: JumpPose)
  {
    && p.leftHip.visibility >= VisibilityCutoff && p.rightHip.visibility >= VisibilityCutoff
    && p.leftKnee.visibility >= VisibilityCutoff && p.rightKnee.visibility >= VisibilityCutoff
    && p.leftAnkle.visibility >= VisibilityCutoff && p.rightAnkle.visibility >= VisibilityCutoff
  }

  /**
   * The posture test of `detect_squat_cheat` on the six points in pixels: the
   * knees bent under 150 degrees, and either the hip midpoint lower than 20
   * pixels above the knee midpoint or the ankle midpoint within 60 pixels of
   * the hip midpoint horizontally.
   */
  predicate SquatPosture(lh: Point, rh: Point, lk: Point, rk: Point, la: Point, ra: Point, kneeAngle: real)
  {
    var hipY := (lh.y + rh.y) / 2.0;
    var kneeY := (lk.y + rk.y) / 2.0;
    var kneeBent := kneeAngle < 150.0;
    var hipLow := hipY > kneeY - 20.0;
    var ankleUnder := Abs((la.x + ra.x) / 2.0 - (lh.x + rh.x) / 2.0) < 60.0;
    kneeBent && (hipLow || ankleUnder)
  }

  /**
   * `detect_squat_cheat`: false when one of the six hip, knee and ankle
   * points is hidden; otherwise the posture test with the mean of the two
   * knee angles.
   */
  function DetectSquatCheat(p: JumpPose, w: nat, h: nat): (cheated: bool)
    ensures !LowerBodyVisible(p) ==> !cheated
  {
    var lh := LandmarkXY(p.leftHip, w, h);
    var rh := LandmarkXY(p.rightHip, w, h);
    var lk := LandmarkXY(p.leftKnee, w, h);
    var rk := LandmarkXY(p.rightKnee, w, h);
    var la := LandmarkXY(p.leftAnkle, w, h);
    var ra := LandmarkXY(p.rightAnkle, w, h);
    if lh.None? || rh.None? || lk.None? || rk.None? || la.None? || ra.None? then false
    else SquatPosture(lh.value, rh.value, lk.value, rk.value, la.value, ra.value,
                      (p.leftKneeAngle + p.rightKneeAngle) / 2.0)
  }

  /**
   * `_finalize_jump`: the peak in inches, judged too small first, then a
   * squat cheat, and otherwise valid.
   */
  function Finalize(peak: real, p: JumpPose, w: nat, h: nat, cfg: JumpConfig): JumpResult
  {
    var inches := Max(0.0, peak) * InchesPerPixel(cfg);
    if inches < cfg.minJumpInches then JumpResult(inches, false, TooSmall)
    else if DetectSquatCheat(p, w, h) then JumpResult(inches, false, Cheat)
    else JumpResult(inches, true, Ok)
  }

  /** `max(5, SMOOTHING_WINDOW)`: the capacity of the nose history. */
  function WindowCap(cfg: JumpConfig): (n: nat)
    ensures n >= 5 && n >= cfg.smoothingWindow
    ensures n == 5 || n == cfg.smoothingWindow
  {
    if cfg.smoothingWindow > 5 then cfg.smoothingWindow else 5
  }

  function ArmThreshold(h: nat): real
  {
    Max(8.0, 0.015 * (h as real))
  }

  function LandThreshold(h: nat): real
  {
    Max(5.0, 0.01 * (h as real))
  }

  /** The vertical velocity of `dy`; zero on the first tracked frame or when no time passed. */
  function Velocity(prevDy: Option<real>, dy: real, dt: real): real
  {
    if prevDy.Some? && dt > 0.0 then (dy - prevDy.value) / dt else 0.0
  }

  /** `_reset_state`. */
  function ResetState(s: JumpState): JumpState
  {
    s.(phase := Idle, baselineNoseY := None, peakDeltaPixels := 0.0, prevDy := None,
       airborneFrames := 0, noseHistory := [], steadyFrames := 0)
  }

  /** The arm gesture: while idle, the right index finger at the nose. */
  function ArmGesture(s: JumpState, p: JumpPose, w: nat, h: nat): JumpState
  {
    if s.phase == Idle && HandToNose(p.rightIndex, p.nose, w, h) then
      var pNose := LandmarkXY(p.nose, w, h);
      var armed := if pNose.Some? then s.(baselineNoseY := Some(pNose.value.y), peakDeltaPixels := 0.0) else s;
      armed.(phase := Armed, steadyFrames := 0)
    else
      s
  }

  /** The reset gesture: while armed or landed, the left index finger at the nose. */
  function ResetGesture(s: JumpState, p: JumpPose, w: nat, h: nat): JumpState
  {
    if (s.phase == Armed || s.phase == Landed) && HandToNose(p.leftIndex, p.nose, w, h) then
      ResetState(s).(lastJumpResult := None)
    else
      s
  }

  /** Smoothing, steadiness, velocity and peak of a tracked frame, before the phase changes. */
  function Measure(s: JumpState, noseY: real, dt: real, cfg: JumpConfig): JumpState
    requires s.baselineNoseY.Some?
  {
    var b := s.baselineNoseY.value;
    var history := Push(s.noseHistory, noseY, WindowCap(cfg));
    var smooth := Mean(history);
    var dy := b - smooth;
    s.(noseHistory := history,
       steadyFrames := if Abs(smooth - b) < 4.0 then s.steadyFrames + 1 else 0,
       prevDy := Some(dy),
       peakDeltaPixels := Max(s.peakDeltaPixels, dy))
  }

  /** The smoothed height of the nose above the baseline in a measured state. */
  function Rise(m: JumpState): real
    requires m.baselineNoseY.Some? && |m.noseHistory| > 0
  {
    m.baselineNoseY.value - Mean(m.noseHistory)
  }

  /**
   * Which steady count the takeoff test reads. As `read_frame` is written, it
   * reads the count this very frame has just updated, which makes takeoff
   * impossible (see `JumpProperties.AsWrittenNeverTakesOff`); the count the
   * frames before this one built up is what the five-frame test evidently
   * means.
   */
  datatype Readiness = UpdatedCount | PriorCount

  /** The takeoff test: armed, steady for five frames, high enough and rising fast enough. */
  predicate TakesOff(steady: nat, m: JumpState, vel: real, h: nat, cfg: JumpConfig)
    requires m.baselineNoseY.Some? && |m.noseHistory| > 0
  {
    m.phase == Armed && steady >= 5 && Rise(m) > ArmThreshold(h)
    && vel > cfg.velUpPctOfH * (h as real)
  }

  /** The landing test, on the airborne count already advanced for this frame. */
  predicate Lands(m: JumpState, vel: real, h: nat, cfg: JumpConfig)
    requires m.baselineNoseY.Some? && |m.noseHistory| > 0
  {
    Rise(m) < LandThreshold(h) && vel < -(cfg.velDownPctOfH * (h as real))
    && m.airborneFrames >= m.minAirborneFrames
  }

  /** The jump-detection block of `read_frame`, run when the nose is visible and a baseline is set. */
  function Track(rd: Readiness, s: JumpState, p: JumpPose, w: nat, h: nat, now: real, dt: real, cfg: JumpConfig): JumpState
  {
    var pNose := LandmarkXY(p.nose, w, h);
    if pNose.None? || s.baselineNoseY.None? then s
    else
      var m := Measure(s, pNose.value.y, dt, cfg);
      var vel := Velocity(s.prevDy, Rise(m), dt);
      var steady := if rd == UpdatedCount then m.steadyFrames else s.steadyFrames;
      if TakesOff(steady, m, vel, h, cfg) then
        m.(phase := Airborne, airborneFrames := 0)
      else if m.phase == Airborne then
        var a := m.(airborneFrames := m.airborneFrames + 1);
        if Lands(a, vel, h, cfg) then
          a.(phase := Landed, lastLandTime := now,
             lastJumpResult := Some(Finalize(a.peakDeltaPixels, p, w, h, cfg)),
             steadyFrames := 0)
        else a
      else m
  }

  /** One frame with a given readiness test: the two gestures, then tracking. */
  function StepWith(rd: Readiness, s: JumpState, pose: Option<JumpPose>, w: nat, h: nat, now: real, dt: real, cfg: JumpConfig): JumpState
  {
    if pose.None? then s
    else
      var p := pose.value;
      Track(rd, ResetGesture(ArmGesture(s, p, w, h), p, w, h), p, w, h, now, dt, cfg)
  }

  /**
   * `JumpAnalyzer.read_frame` exactly as written, on one captured frame:
   * `pose` is `None` when no pose was detected, `w` and `h` the frame size,
   * `now` the clock and `dt` the time since the previous frame.
   */
  function JumpStepAsWritten(s: JumpState, pose: Option<JumpPose>, w: nat, h: nat, now: real, dt: real, cfg: JumpConfig): JumpState
  {
    StepWith(UpdatedCount, s, pose, w, h, now, dt, cfg)
  }

  /** `read_frame` with the takeoff test reading the steady count of the frames before this one. */
  function JumpStep(s: JumpState, pose: Option<JumpPose>, w: nat, h: nat, now: real, dt: real, cfg: JumpConfig): JumpState
  {
    StepWith(PriorCount, s, pose, w, h, now, dt, cfg)
  }

  /**
   * What every reachable state satisfies: idle exactly when there is no
   * baseline, and then nothing is being tracked; a result exactly when
   * landed; a nose history within its capacity.
   */
  ghost predicate JumpValid(s: JumpState, cfg: JumpConfig)
  {
    && (s.phase == Idle <==> s.baselineNoseY.None?)
    && (s.phase == Idle ==>
          s.noseHistory == [] && s.peakDeltaPixels == 0.0 && s.prevDy.None?
          && s.airborneFrames == 0 && s.steadyFrames == 0)
    && (s.lastJumpResult.Some? <==> s.phase == Landed)
    && |s.noseHistory| <= WindowCap(cfg)
    && s.minAirborneFrames == cfg.minAirborneFrames
  }

  /** The moves of the phase machine. */
  predicate LegalMove(a: Phase, b: Phase)
  {
    || a == b
    || (a == Idle && b == Armed)
    || (a == Armed && b == Airborne)
    || (a == Airborne && b == Landed)
    || (a == Armed && b == Idle)
    || (a == Landed && b == Idle)
  }
}
