/**
 * The two jump analyzer classes with their fields updated in place: the
 * camera `JumpAnalyzer` (its `read_frame` proved equal to
 * `JumpRules.JumpStep`) and the phone `JumpAnalyzerMobile` (its
 * `process_frame` proved equal to `MobileJump.MobileJumpStep`).
 */
module JumpAnalyzers {
  import opened Wrappers
  import opened Smoothing
  import opened JumpRules
  import opened MobileJump
  import JumpProperties
  import MobileJumpProperties

  class JumpAnalyzer {
    /** The environment-configured constants the analyzer reads. */
    const cfg: JumpConfig
    /**
     * Which steady count the takeoff test reads: `UpdatedCount` is the code
     * as written, `PriorCount` the evidently intended test.
     */
    const rd: Readiness
    var phase: Phase
    var baselineNoseY: Option<real>
    var peakDeltaPixels: real
    var lastLandTime: real
    var lastJumpResult: Option<JumpResult>
    var prevDy: Option<real>
    var airborneFrames: nat
    var noseHistory: seq<real>
    var steadyFrames: nat
    var minAirborneFrames: int

    function State(): JumpState
      reads this
    {
      JumpState(phase, baselineNoseY, peakDeltaPixels, lastLandTime, lastJumpResult,
                prevDy, airborneFrames, noseHistory, steadyFrames, minAirborneFrames)
    }

    ghost predicate Valid()
      reads this
    {
      JumpValid(State(), cfg)
    }

    /** `_init_state`, with the readiness test `rd`. */
    constructor(cfg: JumpConfig, rd: Readiness)
      ensures this.cfg == cfg && this.rd == rd && State() == InitialJump(cfg)
      ensures Valid()
    {
      this.cfg := cfg;
      this.rd := rd;
      phase, baselineNoseY, peakDeltaPixels := Idle, None, 0.0;
      lastLandTime, lastJumpResult, prevDy := 0.0, None, None;
      airborneFrames, noseHistory, steadyFrames := 0, [], 0;
      minAirborneFrames := cfg.minAirborneFrames;
    }

    /** `_reset_state`. */
    method ResetState()
      modifies this
      ensures State() == JumpRules.ResetState(old(State()))
    {
      phase := Idle;
      baselineNoseY := None;
      peakDeltaPixels := 0.0;
      prevDy := None;
      airborneFrames := 0;
      noseHistory := [];
      steadyFrames := 0;
    }

    /** `_finalize_jump` on the landing pose. */
    method FinalizeJump(p: JumpPose, w: nat, h: nat)
      modifies this
      ensures State() == old(State()).(lastJumpResult := Some(Finalize(old(peakDeltaPixels), p, w, h, cfg)))
    {
      ghost var result := Finalize(peakDeltaPixels, p, w, h, cfg);
      var inches := Max(0.0, peakDeltaPixels) * InchesPerPixel(cfg);
      assert result == Finalize(peakDeltaPixels, p, w, h, cfg);
      assert result.inches == Max(0.0, peakDeltaPixels) * InchesPerPixel(cfg);
      assert result.inches == inches;
      if inches < cfg.minJumpInches {
        lastJumpResult := Some(JumpResult(inches, false, TooSmall));
      } else {
        var cheated := DetectSquatCheat(p, w, h);
        if cheated {
          lastJumpResult := Some(JumpResult(inches, false, Cheat));
        } else {
          lastJumpResult := Some(JumpResult(inches, true, Ok));
        }
      }
      assert lastJumpResult == Some(result);
    }

    /**
     * `read_frame`: `capture` is `None` when the camera is closed or the read
     * fails, and then nothing changes; otherwise the frame is handled as
     * `StepWith(rd, …)` says: `JumpStepAsWritten` for `UpdatedCount`, and
     * `JumpStep`, whose takeoff test reads the steady count carried in from
     * the frames before, for `PriorCount`.
     */
    method ReadFrame(capture: Option<Capture>) returns (ok: bool)
      requires Valid()
      modifies this
      ensures Valid()
      ensures ok <==> capture.Some?
      ensures capture.None? ==> State() == old(State())
      ensures capture.Some? ==> State() == StepWith(rd, old(State()), capture.value.pose, capture.value.width,
                                                   capture.value.height, capture.value.now, capture.value.dt, cfg)
      ensures capture.Some? && rd == UpdatedCount ==>
                State() == JumpStepAsWritten(old(State()), capture.value.pose, capture.value.width,
                                             capture.value.height, capture.value.now, capture.value.dt, cfg)
      ensures capture.Some? && rd == PriorCount ==>
                State() == JumpStep(old(State()), capture.value.pose, capture.value.width,
                                    capture.value.height, capture.value.now, capture.value.dt, cfg)
    {
      if capture.None? {
        return false;
      }
      var c := capture.value;
      JumpProperties.StepKeepsValid(rd, State(), c.pose, c.width, c.height, c.now, c.dt, cfg);
      if c.pose.Some? {
        Gestures(c.pose.value, c.width, c.height);
        TrackNose(c.pose.value, c.width, c.height, c.now, c.dt);
      }
      return true;
    }

    /** The arm gesture (right hand to nose while idle), then the reset gesture (left hand to nose while armed or landed). */
    method Gestures(p: JumpPose, w: nat, h: nat)
      modifies this
      ensures State() == ResetGesture(ArmGesture(old(State()), p, w, h), p, w, h)
    {
      if phase == Idle && HandToNose(p.rightIndex, p.nose, w, h) {
        phase := Armed;
        var pNose := LandmarkXY(p.nose, w, h);
        if pNose.Some? {
          baselineNoseY := Some(pNose.value.y);
          peakDeltaPixels := 0.0;
        }
        steadyFrames := 0;
      }
      if (phase == Armed || phase == Landed) && HandToNose(p.leftIndex, p.nose, w, h) {
        ResetState();
        lastJumpResult := None;
      }
    }

    /**
     * The jump-detection block, run when the nose is visible and a baseline
     * is set; `ready` tests the steady count this frame updated
     * (`UpdatedCount`, as written) or the one it started with (`PriorCount`).
     */
    method TrackNose(p: JumpPose, w: nat, h: nat, now: real, dt: real)
      modifies this
      ensures State() == Track(rd, old(State()), p, w, h, now, dt, cfg)
    {
      var pNose := LandmarkXY(p.nose, w, h);
      if pNose.None? || baselineNoseY.None? {
        return;
      }
      ghost var before := State();
      var priorSteady := steadyFrames;
      var dy, vel := MeasureNose(pNose.value.y, dt);
      var ready := if rd == UpdatedCount then steadyFrames >= 5 else priorSteady >= 5;
      assert ready <==> (if rd == UpdatedCount then State().steadyFrames else before.steadyFrames) >= 5;
      assert State() == Measure(before, pNose.value.y, dt, cfg);
      var armThresh := Max(8.0, 0.015 * (h as real));
      var landThresh := Max(5.0, 0.01 * (h as real));
      var upVelThresh := cfg.velUpPctOfH * (h as real);
      var downVelThresh := cfg.velDownPctOfH * (h as real);
      if phase == Armed && ready && dy > armThresh && vel > upVelThresh {
        phase := Airborne;
        airborneFrames := 0;
      } else if phase == Airborne {
        airborneFrames := airborneFrames + 1;
        if dy < landThresh && vel < -downVelThresh && airborneFrames >= minAirborneFrames {
          phase := Landed;
          lastLandTime := now;
          FinalizeJump(p, w, h);
          steadyFrames := 0;
        }
      }
    }

    /** Push the nose height, count steadiness, and update the velocity, the previous rise and the peak. */
    method MeasureNose(noseY: real, dt: real) returns (dy: real, vel: real)
      requires baselineNoseY.Some?
      modifies this
      ensures State() == Measure(old(State()), noseY, dt, cfg)
      ensures |noseHistory| > 0 && dy == Rise(State())
      ensures vel == Velocity(old(prevDy), dy, dt)
    {
      var b := baselineNoseY.value;
      var smooth := PushNose(noseY);
      if Abs(smooth - b) < 4.0 {
        steadyFrames := steadyFrames + 1;
      } else {
        steadyFrames := 0;
      }
      dy := b - smooth;
      vel := 0.0;
      if prevDy.Some? && dt > 0.0 {
        vel := (dy - prevDy.value) / dt;
      }
      prevDy := Some(dy);
      peakDeltaPixels := Max(peakDeltaPixels, dy);
    }

    /** `nose_history.append`, dropping the oldest entry beyond `max(5, SMOOTHING_WINDOW)`; `smooth` is the new mean. */
    method PushNose(noseY: real) returns (smooth: real)
      modifies this
      ensures State() == old(State()).(noseHistory := Push(old(noseHistory), noseY, WindowCap(cfg)))
      ensures |noseHistory| > 0 && smooth == Mean(noseHistory)
    {
      noseHistory := noseHistory + [noseY];
      if |noseHistory| > WindowCap(cfg) {
        noseHistory := noseHistory[1..];
      }
      smooth := Mean(noseHistory);
    }
  }

  class JumpAnalyzerMobile {
    var baselineY: Option<real>
    var maxJumpHeight: real
    var jumpCount: nat
    var isJumping: bool
    var currentJumpHeight: real
    var feedback: Option<string>
    /** `y_history`, a `deque(maxlen=5)`. */
    var yHistory: seq<real>

    function State(): MobileJumpState
      reads this
    {
      MobileJumpState(baselineY, maxJumpHeight, jumpCount, isJumping, currentJumpHeight, feedback, yHistory)
    }

    ghost predicate Valid()
      reads this
    {
      MobileValid(State())
    }

    /** The counting fields set by `__init__`. */
    constructor()
      ensures State() == MobileInitial && Valid() && HeightsOrdered(State())
    {
      baselineY, maxJumpHeight, jumpCount := None, 0.0, 0;
      isJumping, currentJumpHeight, feedback := false, 0.0, None;
      yHistory := [];
    }

    /**
     * `process_frame`: `ankles` is `None` when no pose was detected,
     * `frameHeight` the height of the image.
     */
    method ProcessFrame(ankles: Option<Ankles>, frameHeight: nat)
      requires Valid()
      modifies this
      ensures Valid()
      ensures State() == MobileJumpStep(old(State()), ankles, frameHeight)
    {
      MobileJumpProperties.MobileStepKeepsValid(State(), ankles, frameHeight);
      if ankles.None? || !(ankles.value.left.visibility > 0.7 && ankles.value.right.visibility > 0.7) {
        feedback := Some(BodyNotVisibleMessage);
        return;
      }
      CountFrame(ankles.value, frameHeight);
    }

    /** The counting part of `process_frame`, on a frame with both ankles in view. */
    method CountFrame(a: Ankles, frameHeight: nat)
      requires AnklesVisible(a)
      modifies this
      ensures State() == MobileJumpStep(old(State()), Some(a), frameHeight)
    {
      ghost var before := State();
      var smooth := PushAnkles(a);
      if baselineY.None? {
        baselineY := Some(smooth);
      }
      var jumpPixels := (baselineY.value - smooth) * (frameHeight as real);
      assert baselineY == Some(FrameBaseline(before, a)) && jumpPixels == JumpPixels(before, a, frameHeight);
      assert smooth == Mean(PushedHistory(before, a));
      if jumpPixels > 30.0 {
        Rise(jumpPixels);
      } else {
        Settle(smooth);
      }
    }

    /** `y_history.append` of the mean ankle height on a deque of five; `smooth` is the new mean. */
    method PushAnkles(a: Ankles) returns (smooth: real)
      modifies this
      ensures State() == old(State()).(yHistory := PushedHistory(old(State()), a))
      ensures smooth == Mean(yHistory)
    {
      var avgAnkleY := (a.left.y + a.right.y) / 2.0;
      yHistory := yHistory + [avgAnkleY];
      if |yHistory| > YHistoryLength {
        yHistory := yHistory[1..];
      }
      smooth := Mean(yHistory);
    }

    /** A frame above the threshold: a rising edge counts a jump, and both heights take the maximum. */
    method Rise(jumpPixels: real)
      requires jumpPixels > 30.0
      modifies this
      ensures var current := Max(old(currentJumpHeight), jumpPixels);
              State() == old(State()).(isJumping := true,
                                       jumpCount := if old(isJumping) then old(jumpCount) else old(jumpCount) + 1,
                                       currentJumpHeight := current,
                                       maxJumpHeight := Max(old(maxJumpHeight), jumpPixels),
                                       feedback := Some(HeightMessage(current)))
    {
      if !isJumping {
        isJumping := true;
        jumpCount := jumpCount + 1;
      }
      currentJumpHeight := Max(currentJumpHeight, jumpPixels);
      maxJumpHeight := Max(maxJumpHeight, jumpPixels);
      feedback := Some(HeightMessage(currentJumpHeight));
    }

    /** A frame at or below the threshold: a falling edge clears the current height, and the baseline drifts. */
    method Settle(smooth: real)
      requires baselineY.Some?
      modifies this
      ensures State() == old(State()).(isJumping := false,
                                       currentJumpHeight := if old(isJumping) then 0.0 else old(currentJumpHeight),
                                       feedback := Some(ReadyMessage),
                                       baselineY := Some(smooth * 0.1 + old(baselineY).value * 0.9))
    {
      if isJumping {
        isJumping := false;
        currentJumpHeight := 0.0;
      }
      feedback := Some(ReadyMessage);
      baselineY := Some(smooth * 0.1 + baselineY.value * 0.9);
    }

    /** `reset`: every counting field back to its `__init__` value. */
    method Reset()
      modifies this
      ensures State() == MobileInitial && Valid() && HeightsOrdered(State())
    {
      jumpCount := 0;
      maxJumpHeight := 0.0;
      baselineY := None;
      isJumping := false;
      currentJumpHeight := 0.0;
      feedback := None;
      yHistory := [];
    }
  }
}
