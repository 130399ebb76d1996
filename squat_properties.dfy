/**
 * Properties of the three squat rule sets: what one frame can do to the
 * counters, the stage sequence, the depth hold and the feedback, the branches
 * that can never fire, and what a whole run of frames keeps.
 */
module SquatProperties {
  import opened Wrappers
  import opened Smoothing
  import opened SquatRules

  datatype RuleSet = Camera | Mobile | Original

  function Step(v: RuleSet, s: SquatState, f: SquatFrame): (r: SquatState)
    ensures StepPromises(s, f, r)
  {
    match v
    case Camera => CameraStepPromises(s, f); CameraStep(s, f)
    case Mobile => MobileStepPromises(s, f); MobileStep(s, f)
    case Original => OriginalStepPromises(s, f); OriginalStep(s, f)
  }

  /** The state after feeding the frames of `fs` in order. */
  function Run(v: RuleSet, s: SquatState, fs: seq<SquatFrame>): SquatState
    decreases |fs|
  {
    if fs == [] then s else Run(v, Step(v, s, fs[0]), fs[1..])
  }

  lemma InitialIsValid()
    ensures Valid(Initial)
  {
  }

  /** Every run from a valid state ends in a valid state. */
  lemma {:induction false} RunKeepsValid(v: RuleSet, s: SquatState, fs: seq<SquatFrame>)
    requires Valid(s)
    ensures Valid(Run(v, s, fs))
    decreases |fs|
  {
    if fs != [] {
      RunKeepsValid(v, Step(v, s, fs[0]), fs[1..]);
    }
  }

  /**
   * Counters never decrease over a run, and together they grow by at most one
   * per frame.
   */
  lemma {:induction false} RunCountersMonotone(v: RuleSet, s: SquatState, fs: seq<SquatFrame>)
    ensures Run(v, s, fs).correctCounter >= s.correctCounter
    ensures Run(v, s, fs).incorrectCounter >= s.incorrectCounter
    ensures Run(v, s, fs).correctCounter + Run(v, s, fs).incorrectCounter
            <= s.correctCounter + s.incorrectCounter + |fs|
    decreases |fs|
  {
    if fs != [] {
      RunCountersMonotone(v, Step(v, s, fs[0]), fs[1..]);
    }
  }

  // ---------------------------------------------------------------------------
  // Stage, sequence, depth hold

  /** A visible frame always leaves a stage, chosen by the smoothed knee angle alone. */
  lemma VisibleFrameSetsStage(v: RuleSet, s: SquatState, f: SquatFrame)
    requires FullyVisible(f)
    ensures var r := Step(v, s, f);
      var knee := Mean(Push(s.kneeHistory, f.kneeAngle, HistoryLength));
      && r.stage.Some?
      && (r.stage == Some(S1) <==> knee > 160.0)
      && (r.stage == Some(S2) <==> 95.0 < knee <= 160.0)
      && (r.stage == Some(S3) <==> knee <= 95.0)
  {
  }

  /** A frame that fails the visibility check changes nothing but the feedback. */
  lemma UnseenFrameOnlySetsFeedback(v: RuleSet, s: SquatState, f: SquatFrame)
    requires !FullyVisible(f)
    ensures var r := Step(v, s, f);
      && r.feedback == Some(NotVisibleMessage)
      && r.correctCounter == s.correctCounter && r.incorrectCounter == s.incorrectCounter
      && r.stage == s.stage && r.sequence == s.sequence && r.depthHold == s.depthHold
      && r.kneeHistory == s.kneeHistory && r.backHistory == s.backHistory
      && r.minKneeAngle == s.minKneeAngle
  {
  }

  /**
   * Server rule sets: `depth_hold` grows by one on a visible frame in S3 and
   * otherwise keeps its value; the only other change is back to zero, and then
   * the sequence was consumed too. Leaving S3 does not reset it.
   */
  lemma DepthHoldGrowsOrResets(v: RuleSet, s: SquatState, f: SquatFrame)
    requires v != Original
    ensures var r := Step(v, s, f);
      var grown := if FullyVisible(f) && r.stage == Some(S3) then s.depthHold + 1 else s.depthHold;
      r.depthHold == grown || (r.depthHold == 0 && r.sequence == [])
  {
  }

  /** Original rule set: `depth_hold` is zero on every visible frame outside S3. */
  lemma OriginalHoldOnlyInDeep(s: SquatState, f: SquatFrame)
    requires FullyVisible(f)
    ensures var r := OriginalStep(s, f);
      r.stage != Some(S3) ==> r.depthHold == 0
  {
  }

  /** After a visible frame, the sequence is either consumed or ends in the current stage. */
  lemma SequenceEndsInStage(v: RuleSet, s: SquatState, f: SquatFrame)
    requires Valid(s) && FullyVisible(f)
    ensures var r := Step(v, s, f);
      r.sequence == [] || (Last(r.sequence) == r.stage.value && NoRepeats(r.sequence))
  {
  }

  // ---------------------------------------------------------------------------
  // Rep resolution, server camera rule set

  /**
   * A tail S2, S3, S2 with a hold of at least three frames counts one correct
   * repetition and consumes the sequence, the hold and the minimum knee angle.
   */
  lemma CameraWobbleCountsCorrect(s: SquatState, f: SquatFrame)
    requires FullyVisible(f)
    requires EndsIn(HoldDepth(Observe(s, f)).sequence, S2, S3, S2)
    requires HoldDepth(Observe(s, f)).depthHold >= DepthHoldRequirement
    ensures var r := CameraStep(s, f);
      && r.correctCounter == s.correctCounter + 1
      && r.incorrectCounter == s.incorrectCounter
      && r.sequence == [] && r.depthHold == 0 && r.minKneeAngle == UnbentKneeAngle
      && ResolveCamera(HoldDepth(Observe(s, f))).feedback == Some(CorrectMessage)
  {
  }

  /**
   * A sequence of four or more stages that went through S3 and ends standing,
   * with enough hold (and no S2, S3, S2 tail), counts one correct repetition.
   */
  lemma CameraCycleCountsCorrect(s: SquatState, f: SquatFrame)
    requires FullyVisible(f)
    requires var m := HoldDepth(Observe(s, f));
      && |m.sequence| >= 4 && S3 in m.sequence && Last(m.sequence) == S1
      && m.depthHold >= DepthHoldRequirement
    ensures var r := CameraStep(s, f);
      && r.correctCounter == s.correctCounter + 1
      && r.incorrectCounter == s.incorrectCounter
      && r.sequence == [] && r.depthHold == 0 && r.minKneeAngle == UnbentKneeAngle
  {
  }

  /**
   * Camera rule set, standing tail of three or more stages with no correct
   * repetition: the sequence and the hold are consumed; it is an incomplete
   * squat when S3 never appeared, too short a hold when the hold is under three.
   */
  lemma CameraStandingTailJudged(s: SquatState, f: SquatFrame)
    requires Valid(s) && FullyVisible(f)
    requires var m := HoldDepth(Observe(s, f));
      |m.sequence| >= 3 && Last(m.sequence) == S1
    ensures var m := HoldDepth(Observe(s, f));
      var r := CameraStep(s, f);
      var q := ResolveCamera(m);
      && r.sequence == [] && r.depthHold == 0
      && (S3 !in m.sequence ==>
            r.incorrectCounter == s.incorrectCounter + 1 && r.correctCounter == s.correctCounter
            && q.feedback == Some(CameraIncompleteMessage))
      && (S3 in m.sequence && m.depthHold < DepthHoldRequirement ==>
            r.incorrectCounter == s.incorrectCounter + 1 && r.correctCounter == s.correctCounter
            && q.feedback == Some(HoldLongerMessage))
  {
  }

  /**
   * The rep message of the S2, S3, S2 branch never reaches the user: that
   * branch fires in S2, where the knee is above 95 and so above 80, and the
   * form advice replaces the message with a back message, "Lower your hips" or
   * "Knees over toes". The same holds in the mobile rule set.
   */
  lemma WobbleMessageIsReplaced(v: RuleSet, s: SquatState, f: SquatFrame)
    requires v != Original
    requires Valid(s) && FullyVisible(f)
    requires EndsIn(HoldDepth(Observe(s, f)).sequence, S2, S3, S2)
    ensures var r := Step(v, s, f);
      && r.stage == Some(S2)
      && r.feedback in {Some(BendForwardMessage), Some(BendBackwardsMessage),
                        Some(LowerHipsMessage), Some(KneesOverToesMessage)}
  {
  }

  // ---------------------------------------------------------------------------
  // Rep resolution, mobile rule set

  /**
   * The S1, S2, S3 branch of the mobile rule set can never count: its tail
   * ends in S3, so the smoothed knee angle is at most 95 and never above 100.
   * When the branch is taken the frame changes no counter, sequence or hold.
   */
  lemma MobileDeepTailNeverCounts(s: SquatState, f: SquatFrame)
    requires Valid(s) && FullyVisible(f)
    requires EndsIn(HoldDepth(Observe(s, f)).sequence, S1, S2, S3)
    ensures var m := HoldDepth(Observe(s, f));
      var r := MobileStep(s, f);
      && SmoothKnee(m) <= 95.0
      && r.correctCounter == s.correctCounter && r.incorrectCounter == s.incorrectCounter
      && r.sequence == m.sequence && r.depthHold == m.depthHold
  {
  }

  /** Mobile rule set: the S2, S3, S2 branch counts exactly as the camera's does. */
  lemma MobileWobbleCountsCorrect(s: SquatState, f: SquatFrame)
    requires FullyVisible(f)
    requires EndsIn(HoldDepth(Observe(s, f)).sequence, S2, S3, S2)
    requires HoldDepth(Observe(s, f)).depthHold >= 3
    ensures var r := MobileStep(s, f);
      && r.correctCounter == s.correctCounter + 1
      && r.incorrectCounter == s.incorrectCounter
      && r.sequence == [] && r.depthHold == 0 && r.minKneeAngle == UnbentKneeAngle
  {
  }

  /** Mobile rule set: the only correct repetitions are S2, S3, S2 tails. */
  lemma MobileCountsOnlyWobbles(s: SquatState, f: SquatFrame)
    requires Valid(s)
    ensures var r := MobileStep(s, f);
      r.correctCounter > s.correctCounter ==>
        && FullyVisible(f)
        && EndsIn(HoldDepth(Observe(s, f)).sequence, S2, S3, S2)
        && HoldDepth(Observe(s, f)).depthHold >= 3
  {
    if FullyVisible(f) {
      var m := HoldDepth(Observe(s, f));
      if EndsIn(m.sequence, S1, S2, S3) {
        MobileDeepTailNeverCounts(s, f);
      }
    }
  }

  // ---------------------------------------------------------------------------
  // Rep resolution, original rule set

  /**
   * The original rule set never counts a correct squat: an S2, S3, S2 tail
   * means the current stage is S2, so the hold was just zeroed.
   */
  lemma OriginalNeverCountsCorrect(s: SquatState, f: SquatFrame)
    requires Valid(s)
    ensures OriginalStep(s, f).correctCounter == s.correctCounter
  {
    if FullyVisible(f) {
      var m := HoldDepthOriginal(Observe(s, f));
      assert m.stage == Some(S2) ==> m.depthHold == 0;
    }
  }

  lemma {:induction false} OriginalRunNeverCountsCorrect(s: SquatState, fs: seq<SquatFrame>)
    requires Valid(s)
    ensures Run(Original, s, fs).correctCounter == s.correctCounter
    decreases |fs|
  {
    if fs != [] {
      var next := Step(Original, s, fs[0]);
      assert next == OriginalStep(s, fs[0]);
      OriginalNeverCountsCorrect(s, fs[0]);
      OriginalRunNeverCountsCorrect(next, fs[1..]);
    }
  }

  /**
   * Original rule set: a sequence of three or more stages ending standing
   * counts one incorrect squat and is consumed.
   */
  lemma OriginalStandingTailCountsIncorrect(s: SquatState, f: SquatFrame)
    requires Valid(s) && FullyVisible(f)
    requires var m := HoldDepthOriginal(Observe(s, f));
      |m.sequence| >= 3 && Last(m.sequence) == S1
    ensures var r := OriginalStep(s, f);
      && r.incorrectCounter == s.incorrectCounter + 1
      && r.correctCounter == s.correctCounter
      && r.sequence == []
      && ResolveOriginal(HoldDepthOriginal(Observe(s, f))).feedback == Some(IncorrectMessage)
  {
    var m := HoldDepthOriginal(Observe(s, f));
    assert m.sequence != [S1];
  }

  /** The original rule set's hold is zero whenever the stage is not S3. */
  ghost predicate OriginalValid(s: SquatState)
  {
    Valid(s) && (s.stage != Some(S3) ==> s.depthHold == 0)
  }

  lemma OriginalStepKeepsHoldInvariant(s: SquatState, f: SquatFrame)
    requires OriginalValid(s)
    ensures OriginalValid(OriginalStep(s, f))
  {
    OriginalStepPromises(s, f);
    if FullyVisible(f) {
      ResolveOriginalCleanly(HoldDepthOriginal(Observe(s, f)));
    }
  }

  // ---------------------------------------------------------------------------
  // Minimum knee angle and feedback

  /**
   * `min_knee_angle` folds in every smoothed knee angle, and only a correct
   * repetition puts it back to 180.
   */
  lemma MinKneeTracksSmoothedKnee(v: RuleSet, s: SquatState, f: SquatFrame)
    ensures var r := Step(v, s, f);
      && (!FullyVisible(f) ==> r.minKneeAngle == s.minKneeAngle)
      && (FullyVisible(f) && r.correctCounter == s.correctCounter ==>
            r.minKneeAngle == Min(s.minKneeAngle, SmoothKnee(r))
            && r.minKneeAngle <= s.minKneeAngle && r.minKneeAngle <= SmoothKnee(r))
      && (r.correctCounter > s.correctCounter ==> r.minKneeAngle == UnbentKneeAngle)
  {
    if FullyVisible(f) {
      match v
      case Camera => ResolveCameraCleanly(HoldDepth(Observe(s, f)));
      case Mobile => ResolveMobileCleanly(HoldDepth(Observe(s, f)));
      case Original => ResolveOriginalCleanly(HoldDepthOriginal(Observe(s, f)));
    }
  }

  /** "Knees over toes" replaces every other message when the ankle is right of the knee. */
  lemma KneesOverToesWins(v: RuleSet, s: SquatState, f: SquatFrame)
    requires FullyVisible(f) && f.ankleX > f.kneeX
    ensures Step(v, s, f).feedback == Some(KneesOverToesMessage)
  {
  }

  /**
   * Otherwise the back messages come first: under 25 degrees "Bend forward",
   * over 50 "Bend backwards", whatever the stage or the repetition.
   */
  lemma BackAdviceComesFirst(v: RuleSet, s: SquatState, f: SquatFrame)
    requires FullyVisible(f) && f.ankleX <= f.kneeX
    ensures var r := Step(v, s, f);
      && (SmoothBack(r) < 25.0 ==> r.feedback == Some(BendForwardMessage))
      && (SmoothBack(r) > 50.0 ==> r.feedback == Some(BendBackwardsMessage))
  {
  }

  /**
   * With the back in range and the knee behind the ankle, every frame in S2
   * says "Lower your hips": the `knee_angle > 80` test cannot fail there.
   */
  lemma PartialSquatSaysLowerHips(v: RuleSet, s: SquatState, f: SquatFrame)
    requires FullyVisible(f) && f.ankleX <= f.kneeX
    ensures var r := Step(v, s, f);
      r.stage == Some(S2) && 25.0 <= SmoothBack(r) <= 50.0 ==> r.feedback == Some(LowerHipsMessage)
  {
  }

  /** The route's counter reset keeps the invariant and leaves a state with no counts, no stage and no sequence. */
  lemma CounterResetKeepsValid(s: SquatState)
    requires Valid(s)
    ensures var r := CounterReset(s);
            && Valid(r)
            && r.correctCounter == 0 && r.incorrectCounter == 0 && r.stage.None? && r.sequence == []
            && r.depthHold == s.depthHold && r.minKneeAngle == s.minKneeAngle
            && r.kneeHistory == s.kneeHistory && r.backHistory == s.backHistory
  {
  }
}
