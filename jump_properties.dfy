/**
 * What the camera jump analyzer promises: the helper functions' meaning, the
 * invariant every reachable state keeps, the legal phase moves, and the gates
 * on takeoff and landing.
 */
module JumpProperties {
  import opened Wrappers
  import opened Smoothing
  import opened JumpRules

  /** Successive successful reads, with a given readiness test. */
  function JumpRun(rd: Readiness, s: JumpState, cs: seq<Capture>, cfg: JumpConfig): JumpState
    decreases |cs|
  {
    if cs == [] then s
    else
      var c := cs[0];
      JumpRun(rd, StepWith(rd, s, c.pose, c.width, c.height, c.now, c.dt, cfg), cs[1..], cfg)
  }

  /** With the default calibration one pixel is 0.12 inches. */
  lemma DefaultInchesPerPixel()
    ensures InchesPerPixel(DefaultConfig) == 0.12
  {
  }

  /**
   * The hand is at the nose exactly when both landmarks are at visibility 0.4
   * or more and their pixel positions are less than 60 pixels apart.
   */
  lemma HandToNoseMeaning(hand: Landmark, nose: Landmark, w: nat, h: nat)
    ensures HandToNose(hand, nose, w, h) <==>
              hand.visibility >= 0.4 && nose.visibility >= 0.4
              && (hand.x - nose.x) * (w as real) * ((hand.x - nose.x) * (w as real))
                 + (hand.y - nose.y) * (h as real) * ((hand.y - nose.y) * (h as real)) < 3600.0
  {
    var dx := hand.x * (w as real) - nose.x * (w as real);
    var dy := hand.y * (h as real) - nose.y * (h as real);
    assert dx == (hand.x - nose.x) * (w as real);
    assert dy == (hand.y - nose.y) * (h as real);
  }

  /**
   * With all six lower-body points visible, the landing is a squat cheat
   * exactly when their pixel positions and the mean knee angle pass the
   * posture test.
   */
  lemma SquatCheatMeaning(p: JumpPose, w: nat, h: nat)
    requires LowerBodyVisible(p)
    ensures DetectSquatCheat(p, w, h) <==>
              SquatPosture(Pixel(p.leftHip, w, h), Pixel(p.rightHip, w, h),
                           Pixel(p.leftKnee, w, h), Pixel(p.rightKnee, w, h),
                           Pixel(p.leftAnkle, w, h), Pixel(p.rightAnkle, w, h),
                           (p.leftKneeAngle + p.rightKneeAngle) / 2.0)
  {
  }

  /**
   * `_finalize_jump`: the height is the non-negative peak in inches; it is
   * too small below the minimum, otherwise a cheat when the cheat test holds,
   * otherwise ok, and valid only when ok.
   */
  lemma FinalizeClassifies(peak: real, p: JumpPose, w: nat, h: nat, cfg: JumpConfig)
    ensures Finalize(peak, p, w, h, cfg).inches == (if peak > 0.0 then peak else 0.0) * InchesPerPixel(cfg)
    ensures Finalize(peak, p, w, h, cfg).valid <==> Finalize(peak, p, w, h, cfg).reason == Ok
    ensures Finalize(peak, p, w, h, cfg).reason == TooSmall <==> Finalize(peak, p, w, h, cfg).inches < cfg.minJumpInches
    ensures Finalize(peak, p, w, h, cfg).reason == Cheat <==>
              Finalize(peak, p, w, h, cfg).inches >= cfg.minJumpInches && DetectSquatCheat(p, w, h)
  {
  }

  /** A landing whose lower body is not all visible is never judged a cheat. */
  lemma HiddenLegsAreNotACheat(peak: real, p: JumpPose, w: nat, h: nat, cfg: JumpConfig)
    requires !LowerBodyVisible(p)
    ensures Finalize(peak, p, w, h, cfg).reason != Cheat
  {
  }

  lemma InitialJumpIsValid(cfg: JumpConfig)
    ensures JumpValid(InitialJump(cfg), cfg)
  {
  }

  lemma ArmGestureKeepsValid(s: JumpState, p: JumpPose, w: nat, h: nat, cfg: JumpConfig)
    requires JumpValid(s, cfg)
    ensures JumpValid(ArmGesture(s, p, w, h), cfg)
  {
  }

  lemma ResetGestureKeepsValid(s: JumpState, p: JumpPose, w: nat, h: nat, cfg: JumpConfig)
    requires JumpValid(s, cfg)
    ensures JumpValid(ResetGesture(s, p, w, h), cfg)
  {
  }

  lemma TrackKeepsValid(rd: Readiness, s: JumpState, p: JumpPose, w: nat, h: nat, now: real, dt: real, cfg: JumpConfig)
    requires JumpValid(s, cfg)
    ensures JumpValid(Track(rd, s, p, w, h, now, dt, cfg), cfg)
  {
    var pNose := LandmarkXY(p.nose, w, h);
    if pNose.Some? && s.baselineNoseY.Some? {
      var m := Measure(s, pNose.value.y, dt, cfg);
      assert |m.noseHistory| <= WindowCap(cfg);
    }
  }

  /** Every frame keeps the invariant, whichever readiness test is used. */
  lemma StepKeepsValid(rd: Readiness, s: JumpState, pose: Option<JumpPose>, w: nat, h: nat, now: real, dt: real, cfg: JumpConfig)
    requires JumpValid(s, cfg)
    ensures JumpValid(StepWith(rd, s, pose, w, h, now, dt, cfg), cfg)
  {
    if pose.Some? {
      var p := pose.value;
      ArmGestureKeepsValid(s, p, w, h, cfg);
      ResetGestureKeepsValid(ArmGesture(s, p, w, h), p, w, h, cfg);
      TrackKeepsValid(rd, ResetGesture(ArmGesture(s, p, w, h), p, w, h), p, w, h, now, dt, cfg);
    }
  }

  /** Any run of frames from a valid state ends in a valid state. */
  lemma {:induction false} RunKeepsValid(rd: Readiness, s: JumpState, cs: seq<Capture>, cfg: JumpConfig)
    requires JumpValid(s, cfg)
    ensures JumpValid(JumpRun(rd, s, cs, cfg), cfg)
    decreases |cs|
  {
    if cs != [] {
      var c := cs[0];
      StepKeepsValid(rd, s, c.pose, c.width, c.height, c.now, c.dt, cfg);
      RunKeepsValid(rd, StepWith(rd, s, c.pose, c.width, c.height, c.now, c.dt, cfg), cs[1..], cfg);
    }
  }

  /**
   * One frame moves the phase only idle -> armed, armed -> airborne,
   * airborne -> landed, or armed/landed -> idle. Arming and taking off never
   * happen in the same frame, because arming zeroes the steady count.
   */
  lemma StepMovesLegally(rd: Readiness, s: JumpState, pose: Option<JumpPose>, w: nat, h: nat, now: real, dt: real, cfg: JumpConfig)
    ensures LegalMove(s.phase, StepWith(rd, s, pose, w, h, now, dt, cfg).phase)
  {
  }

  /** A jump in the air is never reset by a gesture: it stays in the air or lands. */
  lemma AirborneIsNeverReset(rd: Readiness, s: JumpState, pose: Option<JumpPose>, w: nat, h: nat, now: real, dt: real, cfg: JumpConfig)
    requires s.phase == Airborne
    ensures StepWith(rd, s, pose, w, h, now, dt, cfg).phase in {Airborne, Landed}
  {
  }

  /**
   * The arm gesture from idle: the phase becomes armed, the baseline is the
   * nose's pixel height, the peak and the steady count are zero.
   */
  lemma ArmGestureArms(s: JumpState, p: JumpPose, w: nat, h: nat)
    requires s.phase == Idle && HandToNose(p.rightIndex, p.nose, w, h)
    ensures var a := ArmGesture(s, p, w, h);
            a.phase == Armed && a.baselineNoseY == Some(p.nose.y * (h as real))
            && a.peakDeltaPixels == 0.0 && a.steadyFrames == 0
            && a.noseHistory == s.noseHistory && a.lastJumpResult == s.lastJumpResult
  {
    HandToNoseSeesNose(p.rightIndex, p.nose, w, h);
    assert Pixel(p.nose, w, h) == Point(p.nose.x * (w as real), p.nose.y * (h as real));
    var pNose := LandmarkXY(p.nose, w, h);
    assert pNose.value.y == p.nose.y * (h as real);
    assert ArmGesture(s, p, w, h).baselineNoseY == Some(pNose.value.y);
  }

  lemma HandToNoseSeesNose(hand: Landmark, nose: Landmark, w: nat, h: nat)
    requires HandToNose(hand, nose, w, h)
    ensures nose.visibility >= VisibilityCutoff
  {
  }

  /**
   * The whole frame that arms (with the left hand away from the nose): the
   * nose becomes the only history entry and, sitting exactly on the
   * baseline, the first steady frame; nothing has risen yet.
   */
  lemma ArmingFrame(rd: Readiness, s: JumpState, p: JumpPose, w: nat, h: nat, now: real, dt: real, cfg: JumpConfig)
    requires JumpValid(s, cfg)
    requires s.phase == Idle && HandToNose(p.rightIndex, p.nose, w, h) && !HandToNose(p.leftIndex, p.nose, w, h)
    ensures var r := StepWith(rd, s, Some(p), w, h, now, dt, cfg);
            && r.phase == Armed
            && r.baselineNoseY == Some(p.nose.y * (h as real))
            && r.noseHistory == [p.nose.y * (h as real)]
            && r.steadyFrames == 1 && r.peakDeltaPixels == 0.0 && r.prevDy == Some(0.0)
            && r.lastJumpResult.None?
  {
    var y := p.nose.y * (h as real);
    ArmGestureArms(s, p, w, h);
    var a := ArmGesture(s, p, w, h);
    assert ResetGesture(a, p, w, h) == a;
    assert Pixel(p.nose, w, h) == Point(p.nose.x * (w as real), p.nose.y * (h as real));
    MeanOfOne(y);
    assert Push([], y, WindowCap(cfg)) == [y];
    var m := Measure(a, y, dt, cfg);
    assert m.noseHistory == [y] && m.steadyFrames == 1 && m.prevDy == Some(0.0);
    assert Track(rd, a, p, w, h, now, dt, cfg) == m;
  }

  /**
   * The reset gesture from armed or landed clears the whole measurement and
   * drops the last result; only the landing time and the airborne minimum stay.
   */
  lemma ResetGestureClears(rd: Readiness, s: JumpState, p: JumpPose, w: nat, h: nat, now: real, dt: real, cfg: JumpConfig)
    requires s.phase == Armed || s.phase == Landed
    requires HandToNose(p.leftIndex, p.nose, w, h)
    ensures StepWith(rd, s, Some(p), w, h, now, dt, cfg)
            == JumpState(Idle, None, 0.0, s.lastLandTime, None, None, 0, [], 0, s.minAirborneFrames)
  {
  }

  /** Between an arm and the next reset the peak never goes down. */
  lemma PeakNeverDrops(rd: Readiness, s: JumpState, pose: Option<JumpPose>, w: nat, h: nat, now: real, dt: real, cfg: JumpConfig)
    requires s.phase != Idle && StepWith(rd, s, pose, w, h, now, dt, cfg).phase != Idle
    ensures StepWith(rd, s, pose, w, h, now, dt, cfg).peakDeltaPixels >= s.peakDeltaPixels
  {
  }

  /**
   * A tracked frame on the ground counts one more steady frame when the
   * smoothed nose is within 4 pixels of the baseline and otherwise zeroes the
   * count; the nose history is the latest readings.
   */
  lemma SteadyFramesRule(rd: Readiness, s: JumpState, p: JumpPose, w: nat, h: nat, now: real, dt: real, cfg: JumpConfig)
    requires JumpValid(s, cfg) && s.phase != Idle && s.phase != Airborne
    requires !HandToNose(p.leftIndex, p.nose, w, h) && p.nose.visibility >= 0.4
    ensures var r := StepWith(rd, s, Some(p), w, h, now, dt, cfg);
            && r.baselineNoseY == s.baselineNoseY
            && r.noseHistory == Latest(s.noseHistory + [p.nose.y * (h as real)], WindowCap(cfg))
            && r.steadyFrames == (if Abs(Mean(r.noseHistory) - s.baselineNoseY.value) < 4.0 then s.steadyFrames + 1 else 0)
  {
    assert ArmGesture(s, p, w, h) == s;
    assert ResetGesture(s, p, w, h) == s;
    assert Pixel(p.nose, w, h) == Point(p.nose.x * (w as real), p.nose.y * (h as real));
    var y := p.nose.y * (h as real);
    var m := Measure(s, y, dt, cfg);
    var steady := if rd == UpdatedCount then m.steadyFrames else s.steadyFrames;
    assert LandmarkXY(p.nose, w, h).value.y == y;
    assert Track(rd, s, p, w, h, now, dt, cfg) == if TakesOff(steady, m, Velocity(s.prevDy, Rise(m), dt), h, cfg)
                                                   then m.(phase := Airborne, airborneFrames := 0) else m;
  }

  /**
   * As written, the jump never leaves the ground: a frame whose updated
   * steady count reaches 5 has its smoothed nose within 4 pixels of the
   * baseline, so it cannot also be more than `max(8, 0.015 h)` above it.
   */
  lemma AsWrittenNeverTakesOff(s: JumpState, pose: Option<JumpPose>, w: nat, h: nat, now: real, dt: real, cfg: JumpConfig)
    requires s.phase != Airborne
    ensures JumpStepAsWritten(s, pose, w, h, now, dt, cfg).phase != Airborne
  {
    if pose.Some? {
      var p := pose.value;
      var g := ResetGesture(ArmGesture(s, p, w, h), p, w, h);
      var pNose := LandmarkXY(p.nose, w, h);
      if pNose.Some? && g.baselineNoseY.Some? {
        var m := Measure(g, pNose.value.y, dt, cfg);
        assert m.steadyFrames >= 5 ==> Rise(m) < 4.0;
      }
    }
  }

  /** Hence, as written, a run that starts on the ground never takes off and never lands. */
  lemma {:induction false} AsWrittenRunStaysGrounded(s: JumpState, cs: seq<Capture>, cfg: JumpConfig)
    requires s.phase == Idle || s.phase == Armed
    ensures var r := JumpRun(UpdatedCount, s, cs, cfg);
            r.phase == Idle || r.phase == Armed
    decreases |cs|
  {
    if cs != [] {
      var c := cs[0];
      AsWrittenNeverTakesOff(s, c.pose, c.width, c.height, c.now, c.dt, cfg);
      StepMovesLegally(UpdatedCount, s, c.pose, c.width, c.height, c.now, c.dt, cfg);
      AsWrittenRunStaysGrounded(StepWith(UpdatedCount, s, c.pose, c.width, c.height, c.now, c.dt, cfg), cs[1..], cfg);
    }
  }

  /** A landmark no camera can see: neither hand is ever at the nose. */
  const Hidden: Landmark := Landmark(0.0, 0.0, 0.0)

  /** Five steady frames at a 200-pixel baseline in a 640x360 frame. */
  const ReadyToJump: JumpState :=
    JumpState(Armed, Some(200.0), 0.0, 0.0, None, Some(0.0), 0, [200.0, 200.0, 200.0, 200.0, 200.0], 5, 6)

  /** The next frame shows the nose 100 pixels higher, 1/30 second later. */
  const Leap: JumpPose :=
    JumpPose(Landmark(0.5, 100.0 / 360.0, 1.0), Hidden, Hidden, Hidden, Hidden, Hidden, Hidden, Hidden, Hidden, 180.0, 180.0)

  /**
   * With the prior steady count the jump takes off: the smoothed nose rises
   * 20 pixels at 600 pixels per second. As written, the same frame leaves
   * the jump armed.
   */
  lemma CorrectedTakesOff()
    ensures JumpValid(ReadyToJump, DefaultConfig)
    ensures JumpStep(ReadyToJump, Some(Leap), 640, 360, 1.0, 1.0 / 30.0, DefaultConfig).phase == Airborne
    ensures JumpStepAsWritten(ReadyToJump, Some(Leap), 640, 360, 1.0, 1.0 / 30.0, DefaultConfig).phase == Armed
  {
    LeapMeasured();
    assert ArmGesture(ReadyToJump, Leap, 640, 360) == ReadyToJump;
    assert ResetGesture(ReadyToJump, Leap, 640, 360) == ReadyToJump;
    assert LandmarkXY(Leap.nose, 640, 360) == Some(Point(320.0, 100.0));
  }

  /** The leap frame's measurement: the smoothed nose is 180, 20 pixels up, and no longer steady. */
  lemma LeapMeasured()
    ensures Measure(ReadyToJump, 100.0, 1.0 / 30.0, DefaultConfig)
            == JumpState(Armed, Some(200.0), 20.0, 0.0, None, Some(20.0), 0, [200.0, 200.0, 200.0, 200.0, 100.0], 0, 6)
  {
    var h := Push(ReadyToJump.noseHistory, 100.0, WindowCap(DefaultConfig));
    assert h == [200.0, 200.0, 200.0, 200.0, 100.0];
    assert h[..1] == [200.0] && [200.0][..0] == [];
    assert h[..2][..1] == h[..1] && h[..3][..2] == h[..2] && h[..4][..3] == h[..3] && h[..5][..4] == h[..4];
    assert Sum(h[..1]) == 200.0;
    assert Sum(h[..2]) == 400.0;
    assert Sum(h[..3]) == 600.0;
    assert Sum(h[..4]) == 800.0;
    assert h[..5] == h;
    assert Sum(h) == 900.0;
    assert Mean(h) == 180.0;
  }

  /**
   * Takeoff happens only from armed, after five steady frames before this
   * one, with the smoothed nose higher than `max(8, 0.015 h)` above the
   * baseline and rising faster than the configured share of the frame height
   * per second; the airborne count starts at zero.
   */
  lemma TakeoffGates(s: JumpState, pose: Option<JumpPose>, w: nat, h: nat, now: real, dt: real, cfg: JumpConfig)
    requires s.phase != Airborne && JumpStep(s, pose, w, h, now, dt, cfg).phase == Airborne
    ensures var r := JumpStep(s, pose, w, h, now, dt, cfg);
            && s.phase == Armed && s.steadyFrames >= 5
            && r.baselineNoseY.Some? && |r.noseHistory| > 0
            && Rise(r) > ArmThreshold(h)
            && Velocity(s.prevDy, Rise(r), dt) > cfg.velUpPctOfH * (h as real)
            && r.airborneFrames == 0
  {
  }

  /**
   * Landing happens only from the air, on a tracked frame that brings the
   * airborne count to the minimum or more, with the smoothed nose back within
   * `max(5, 0.01 h)` of the baseline and falling fast enough; it records the
   * time, zeroes the steady count and finalises the jump on this pose.
   */
  lemma LandingGates(rd: Readiness, s: JumpState, pose: Option<JumpPose>, w: nat, h: nat, now: real, dt: real, cfg: JumpConfig)
    requires JumpValid(s, cfg)
    requires s.phase != Landed && StepWith(rd, s, pose, w, h, now, dt, cfg).phase == Landed
    ensures var r := StepWith(rd, s, pose, w, h, now, dt, cfg);
            && s.phase == Airborne && pose.Some?
            && r.baselineNoseY.Some? && |r.noseHistory| > 0
            && r.airborneFrames == s.airborneFrames + 1
            && r.airborneFrames >= cfg.minAirborneFrames
            && Rise(r) < LandThreshold(h)
            && Velocity(s.prevDy, Rise(r), dt) < -(cfg.velDownPctOfH * (h as real))
            && r.lastLandTime == now && r.steadyFrames == 0
            && r.lastJumpResult == Some(Finalize(r.peakDeltaPixels, pose.value, w, h, cfg))
  {
    StepMovesLegally(rd, s, pose, w, h, now, dt, cfg);
    assert pose.Some?;
    var p := pose.value;
    LandingFrame(rd, s, p, w, h, now, dt, cfg);
  }

  /** The shape of a landing frame: the measured state with one more airborne frame, landed and finalised. */
  lemma LandingFrame(rd: Readiness, s: JumpState, p: JumpPose, w: nat, h: nat, now: real, dt: real, cfg: JumpConfig)
    requires JumpValid(s, cfg) && s.phase == Airborne
    requires StepWith(rd, s, Some(p), w, h, now, dt, cfg).phase == Landed
    ensures LandmarkXY(p.nose, w, h).Some? && s.baselineNoseY.Some?
    ensures var m := Measure(s, LandmarkXY(p.nose, w, h).value.y, dt, cfg);
            var a := m.(airborneFrames := m.airborneFrames + 1);
            && Lands(a, Velocity(s.prevDy, Rise(m), dt), h, cfg)
            && StepWith(rd, s, Some(p), w, h, now, dt, cfg)
               == a.(phase := Landed, lastLandTime := now,
                     lastJumpResult := Some(Finalize(a.peakDeltaPixels, p, w, h, cfg)), steadyFrames := 0)
  {
    assert ArmGesture(s, p, w, h) == s;
    assert ResetGesture(s, p, w, h) == s;
  }

  /** In the air, every frame on which the nose is seen adds one to the airborne count, and no other frame does. */
  lemma AirborneCount(rd: Readiness, s: JumpState, pose: Option<JumpPose>, w: nat, h: nat, now: real, dt: real, cfg: JumpConfig)
    requires JumpValid(s, cfg) && s.phase == Airborne
    ensures StepWith(rd, s, pose, w, h, now, dt, cfg).airborneFrames
            == s.airborneFrames + (if pose.Some? && pose.value.nose.visibility >= 0.4 then 1 else 0)
  {
  }
}
