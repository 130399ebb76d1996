/** What the phone jump counter promises. */
module MobileJumpProperties {
  import opened Wrappers
  import opened Smoothing
  import opened JumpRules
  import opened MobileJump

  lemma MobileInitialIsValid()
    ensures MobileValid(MobileInitial) && HeightsOrdered(MobileInitial)
  {
  }

  /** Every frame keeps the invariant and the order of the two heights. */
  lemma MobileStepKeepsValid(s: MobileJumpState, ankles: Option<Ankles>, frameHeight: nat)
    requires MobileValid(s)
    ensures MobileValid(MobileJumpStep(s, ankles, frameHeight))
    ensures HeightsOrdered(s) ==> HeightsOrdered(MobileJumpStep(s, ankles, frameHeight))
  {
  }

  lemma {:induction false} MobileRunKeepsValid(s: MobileJumpState, frames: seq<(Option<Ankles>, nat)>)
    requires MobileValid(s) && HeightsOrdered(s)
    ensures MobileValid(MobileJumpRun(s, frames)) && HeightsOrdered(MobileJumpRun(s, frames))
    decreases |frames|
  {
    if frames != [] {
      MobileStepKeepsValid(s, frames[0].0, frames[0].1);
      MobileRunKeepsValid(MobileJumpStep(s, frames[0].0, frames[0].1), frames[1..]);
    }
  }

  /**
   * A frame without both ankles in view only sets the feedback to
   * "Please make your full body visible".
   */
  lemma UnseenAnklesOnlySetFeedback(s: MobileJumpState, ankles: Option<Ankles>, frameHeight: nat)
    requires ankles.None? || !AnklesVisible(ankles.value)
    ensures MobileJumpStep(s, ankles, frameHeight) == s.(feedback := Some(BodyNotVisibleMessage))
  {
  }

  /**
   * On a visible frame a jump is in progress exactly when the smoothed
   * ankles are more than 30 pixels above the baseline; on any frame the count
   * goes up by one exactly when a jump starts, and otherwise stays.
   */
  lemma RisingEdgeCountsOnce(s: MobileJumpState, ankles: Option<Ankles>, frameHeight: nat)
    ensures var r := MobileJumpStep(s, ankles, frameHeight);
            && (ankles.Some? && AnklesVisible(ankles.value) ==>
                  (r.isJumping <==> JumpPixels(s, ankles.value, frameHeight) > JumpThresholdPixels))
            && (ankles.None? || !AnklesVisible(ankles.value) ==> r.isJumping == s.isJumping)
            && r.jumpCount == s.jumpCount + (if !s.isJumping && r.isJumping then 1 else 0)
  {
  }

  /** A jump that ends drops the current height to zero; one that goes on never lowers it. */
  lemma CurrentHeightOnEdges(s: MobileJumpState, ankles: Option<Ankles>, frameHeight: nat)
    ensures var r := MobileJumpStep(s, ankles, frameHeight);
            && (s.isJumping && !r.isJumping ==> r.currentJumpHeight == 0.0)
            && (s.isJumping && r.isJumping ==> r.currentJumpHeight >= s.currentJumpHeight)
  {
  }

  /** The best height never goes down, and a frame above the threshold raises it to at least its own height. */
  lemma MaxHeightNeverDrops(s: MobileJumpState, ankles: Option<Ankles>, frameHeight: nat)
    ensures var r := MobileJumpStep(s, ankles, frameHeight);
            && r.maxJumpHeight >= s.maxJumpHeight
            && (ankles.Some? && AnklesVisible(ankles.value)
                && JumpPixels(s, ankles.value, frameHeight) > JumpThresholdPixels
                ==> r.maxJumpHeight >= JumpPixels(s, ankles.value, frameHeight))
  {
  }

  /**
   * The baseline is taken from the first visible frame; it then stays put
   * during a jump and drifts a tenth of the way towards the smoothed ankles
   * on every frame at or below the threshold.
   */
  lemma BaselineDrifts(s: MobileJumpState, a: Ankles, frameHeight: nat)
    requires AnklesVisible(a)
    ensures var r := MobileJumpStep(s, Some(a), frameHeight);
            var b := FrameBaseline(s, a);
            var smooth := Mean(PushedHistory(s, a));
            && (s.baselineY.None? ==> b == smooth)
            && (JumpPixels(s, a, frameHeight) > JumpThresholdPixels ==> r.baselineY == Some(b))
            && (JumpPixels(s, a, frameHeight) <= JumpThresholdPixels ==> r.baselineY == Some(smooth * 0.1 + b * 0.9))
  {
  }

  /** The smoothed height is the mean of the latest five (or fewer) mean ankle heights. */
  lemma WindowIsLatest(s: MobileJumpState, a: Ankles)
    requires |s.yHistory| <= YHistoryLength
    ensures PushedHistory(s, a) == Latest(s.yHistory + [(a.left.y + a.right.y) / 2.0], YHistoryLength)
  {
  }

  /** While a jump is in progress, the feedback names its height in whole pixels. */
  lemma JumpFeedbackNamesHeight(s: MobileJumpState, a: Ankles, frameHeight: nat)
    requires AnklesVisible(a) && JumpPixels(s, a, frameHeight) > JumpThresholdPixels
    ensures var r := MobileJumpStep(s, Some(a), frameHeight);
            r.currentJumpHeight > JumpThresholdPixels && r.feedback == Some(HeightMessage(r.currentJumpHeight))
  {
  }

  /** The route's counter reset keeps the invariant. */
  lemma RouteResetKeepsValid(s: MobileJumpState)
    requires MobileValid(s)
    ensures MobileValid(RouteReset(s))
    ensures RouteReset(s).jumpCount == 0 && RouteReset(s).baselineY.None?
  {
  }

  /**
   * During a jump, the route's counter reset zeroes the best height but not
   * the current one, which is then more than it.
   */
  lemma RouteResetMidJumpUnordersHeights()
    ensures var s := MobileJumpState(Some(0.5), 40.0, 1, true, 40.0, None, [0.4]);
            MobileValid(s) && HeightsOrdered(s) && !HeightsOrdered(RouteReset(s))
  {
  }
}
