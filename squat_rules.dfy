/**
 * The squat repetition state machine, per frame, in the three rule sets the
 * repository carries:
 *  - the camera analyzer of the server (`SquatAnalyzer.read_frame`),
 *  - the mobile analyzer (`SquatAnalyzerMobile.process_frame`, identical in
 *    the server package and in the original app), and
 *  - the original camera analyzer (`original_files/squats.py`).
 * All three share one state record. The pose estimator and the angle
 * computation are replaced by a frame observation that carries the raw angles.
 */
module SquatRules {
  import opened Wrappers
  import opened Smoothing

  /** S1 standing, S2 partial squat, S3 deep squat. */
  datatype Stage = S1 | S2 | S3

  /**
   * What one frame tells the analyzer: whether a pose was found, the
   * visibility of the left shoulder, hip, knee and ankle, the raw knee angle
   * (hip-knee-ankle) and back angle (shoulder-hip-knee) in degrees, and the
   * normalised x of the left ankle and knee.
   */
  datatype SquatFrame = SquatFrame(
    detected: bool,
    shoulderVisibility: real, hipVisibility: real, kneeVisibility: real, ankleVisibility: real,
    kneeAngle: real, backAngle: real,
    ankleX: real, kneeX: real)

  /** The analyzer fields the rep logic reads and writes. */
  datatype SquatState = SquatState(
    correctCounter: nat,
    incorrectCounter: nat,
    stage: Option<Stage>,
    sequence: seq<Stage>,
    feedback: Option<string>,
    kneeHistory: seq<real>,
    backHistory: seq<real>,
    depthHold: nat,
    minKneeAngle: real)

  const VisibilityThreshold: real := 0.8
  const StageS1Threshold: real := 160.0
  const StageS2Threshold: real := 95.0
  const DepthHoldRequirement: nat := 3
  const HistoryLength: nat := 5
  const UnbentKneeAngle: real := 180.0

  const NotVisibleMessage := "Please make your full body visible"
  const CorrectMessage := "Correct Squat"
  const CameraIncompleteMessage := "Incomplete - Go deeper"
  const MobileIncompleteMessage := "Incomplete Squat - Go deeper"
  const HoldLongerMessage := "Hold at bottom longer"
  const IncorrectMessage := "Incorrect Squat"
  const BendForwardMessage := "Bend forward"
  const BendBackwardsMessage := "Bend backwards"
  const LowerHipsMessage := "Lower your hips"
  const TooDeepMessage := "Squat too deep"
  const RaiseDeeperMessage := "Raise deeper"
  const KneesOverToesMessage := "Knees over toes"

  /** The values `__init__` (and the mobile `reset`) give the fields. */
  const Initial: SquatState := SquatState(0, 0, None, [], None, [], [], 0, UnbentKneeAngle)

  /** All four landmarks strictly above the 0.8 visibility threshold. */
  predicate FullyVisible(f: SquatFrame)
  {
    && f.detected
    && f.shoulderVisibility > VisibilityThreshold
    && f.hipVisibility > VisibilityThreshold
    && f.kneeVisibility > VisibilityThreshold
    && f.ankleVisibility > VisibilityThreshold
  }

  function Min(a: real, b: real): real
  {
    if b < a then b else a
  }

  function Last(q: seq<Stage>): Stage
    requires |q| > 0
  {
    q[|q| - 1]
  }

  /** Python's `len(q) >= 3 and q[-3:] == [a, b, c]`. */
  predicate EndsIn(q: seq<Stage>, a: Stage, b: Stage, c: Stage)
  {
    |q| >= 3 && q[|q| - 3] == a && q[|q| - 2] == b && q[|q| - 1] == c
  }

  /** No two adjacent entries of the sequence are equal. */
  ghost predicate NoRepeats(q: seq<Stage>)
  {
    forall i, j | 0 <= i && j == i + 1 && j < |q| :: q[i] != q[j]
  }

  /**
   * What every rule set keeps true between frames: the stage sequence has no
   * adjacent repeats and, when non-empty, ends in the current stage; the two
   * angle windows have equal length of at most five.
   */
  ghost predicate Valid(s: SquatState)
  {
    && NoRepeats(s.sequence)
    && (|s.sequence| > 0 ==> s.stage == Some(Last(s.sequence)))
    && |s.kneeHistory| <= HistoryLength
    && |s.backHistory| == |s.kneeHistory|
  }

  /** Stage of a smoothed knee angle. */
  function Classify(knee: real): (st: Stage)
    ensures st == S1 <==> knee > 160.0
    ensures st == S2 <==> 95.0 < knee <= 160.0
    ensures st == S3 <==> knee <= 95.0
  {
    if knee > StageS1Threshold then S1
    else if StageS2Threshold < knee <= StageS1Threshold then S2
    else S3  // `knee_angle <= 95`: the only case left for a real number
  }

  /** The smoothed knee angle of a state whose windows were just pushed. */
  function SmoothKnee(s: SquatState): real
    requires |s.kneeHistory| > 0
  {
    Mean(s.kneeHistory)
  }

  function SmoothBack(s: SquatState): real
    requires |s.backHistory| > 0
  {
    Mean(s.backHistory)
  }

  /**
   * The part of a visible frame that the three rule sets share: push both raw
   * angles into their windows, fold the smoothed knee angle into
   * `min_knee_angle`, classify the stage and append it to the sequence when it
   * changed. The frame's feedback starts out as `None`.
   */
  function Observe(s: SquatState, f: SquatFrame): (m: SquatState)
    ensures m.kneeHistory == Push(s.kneeHistory, f.kneeAngle, HistoryLength)
    ensures m.backHistory == Push(s.backHistory, f.backAngle, HistoryLength)
    ensures m.stage == Some(Classify(SmoothKnee(m)))
    ensures m.minKneeAngle <= s.minKneeAngle && m.minKneeAngle <= SmoothKnee(m)
    ensures m.sequence == if s.stage == m.stage then s.sequence else s.sequence + [m.stage.value]
    ensures Valid(s) ==> Valid(m)
    ensures (m.correctCounter, m.incorrectCounter, m.depthHold) ==
            (s.correctCounter, s.incorrectCounter, s.depthHold)
  {
    var knees := Push(s.kneeHistory, f.kneeAngle, HistoryLength);
    var backs := Push(s.backHistory, f.backAngle, HistoryLength);
    var knee := Mean(knees);
    var st := Classify(knee);
    SquatState(
      s.correctCounter, s.incorrectCounter,
      Some(st),
      if s.stage != Some(st) then s.sequence + [st] else s.sequence,
      None,
      knees, backs,
      s.depthHold,
      Min(s.minKneeAngle, knee))
  }

  /** Server rule sets: `depth_hold` grows in S3 and is kept otherwise. */
  function HoldDepth(m: SquatState): (r: SquatState)
  {
    if m.stage == Some(S3) then m.(depthHold := m.depthHold + 1) else m
  }

  /** Original rule set: `depth_hold` grows in S3 and is zeroed otherwise. */
  function HoldDepthOriginal(m: SquatState): (r: SquatState)
  {
    m.(depthHold := if m.stage == Some(S3) then m.depthHold + 1 else 0)
  }

  /** A correct repetition: count it and consume the sequence, the hold and the minimum. */
  function CountCorrect(m: SquatState): SquatState
  {
    m.(correctCounter := m.correctCounter + 1, feedback := Some(CorrectMessage),
       sequence := [], minKneeAngle := UnbentKneeAngle, depthHold := 0)
  }

  function CountIncorrect(m: SquatState, message: string): SquatState
  {
    m.(incorrectCounter := m.incorrectCounter + 1, feedback := Some(message))
  }

  /** What no rep-resolution branch touches. */
  ghost predicate SameReading(m: SquatState, r: SquatState)
  {
    r.stage == m.stage && r.kneeHistory == m.kneeHistory && r.backHistory == m.backHistory
  }

  /** At most one counter moves, by one. */
  ghost predicate CountsAtMostOne(m: SquatState, r: SquatState)
  {
    || (r.correctCounter == m.correctCounter && r.incorrectCounter == m.incorrectCounter)
    || (r.correctCounter == m.correctCounter + 1 && r.incorrectCounter == m.incorrectCounter)
    || (r.correctCounter == m.correctCounter && r.incorrectCounter == m.incorrectCounter + 1)
  }

  /**
   * What a rep-resolution branch may do, beyond the counters: it either
   * leaves the sequence, the hold and the minimum alone, or it consumes the
   * sequence and the hold (a correct repetition also restores the minimum).
   */
  ghost predicate ResolvesCleanly(m: SquatState, r: SquatState)
  {
    && SameReading(m, r)
    && CountsAtMostOne(m, r)
    && (r.sequence == m.sequence || r.sequence == [])
    && (r.correctCounter > m.correctCounter ==>
          r.sequence == [] && r.depthHold == 0 && r.minKneeAngle == UnbentKneeAngle)
    && (r.correctCounter == m.correctCounter ==> r.minKneeAngle == m.minKneeAngle)
    && (r.depthHold == m.depthHold || (r.depthHold == 0 && r.sequence == []))
  }

  /** Rep resolution of the server camera analyzer. */
  function ResolveCamera(m: SquatState): (r: SquatState)
    ensures SameReading(m, r)
  {
    if EndsIn(m.sequence, S2, S3, S2) && m.depthHold >= DepthHoldRequirement then
      CountCorrect(m)
    else if |m.sequence| >= 4 && S3 in m.sequence && Last(m.sequence) == S1
            && m.depthHold >= DepthHoldRequirement then
      // S1 -> S2 -> S3 -> S2 -> S1, a full cycle
      CountCorrect(m)
    else if |m.sequence| >= 3 && Last(m.sequence) == S1 then
      var judged :=
        if m.sequence != [S1] && S3 !in m.sequence then CountIncorrect(m, CameraIncompleteMessage)
        else if m.sequence != [S1] && m.depthHold < DepthHoldRequirement then CountIncorrect(m, HoldLongerMessage)
        else m;
      judged.(sequence := [], depthHold := 0)
    else
      m
  }

  /** Rep resolution of the mobile analyzer. */
  function ResolveMobile(m: SquatState): (r: SquatState)
    requires |m.kneeHistory| > 0
    ensures SameReading(m, r)
  {
    if EndsIn(m.sequence, S1, S2, S3) && m.depthHold >= 3 then
      // rising from the bottom
      if SmoothKnee(m) > 100.0 then CountCorrect(m) else m
    else if EndsIn(m.sequence, S2, S3, S2) && m.depthHold >= 3 then
      CountCorrect(m)
    else if |m.sequence| >= 3 && Last(m.sequence) == S1 then
      var judged :=
        if m.sequence != [S1] && S3 !in m.sequence then CountIncorrect(m, MobileIncompleteMessage)
        else if m.sequence != [S1] && m.depthHold < 3 then CountIncorrect(m, HoldLongerMessage)
        else m;
      judged.(sequence := [], depthHold := 0)
    else
      m
  }

  /** Rep resolution of the original analyzer. */
  function ResolveOriginal(m: SquatState): (r: SquatState)
    ensures SameReading(m, r)
  {
    if EndsIn(m.sequence, S2, S3, S2) && m.depthHold >= 3 then
      CountCorrect(m)
    else if |m.sequence| >= 3 && Last(m.sequence) == S1 then
      var judged := if m.sequence != [S1] then CountIncorrect(m, IncorrectMessage) else m;
      judged.(sequence := [])
    else
      m
  }

  /**
   * The form advice that follows rep resolution: the back messages first, then
   * the stage messages, and "Knees over toes" above all; when none applies,
   * the message of the rep branch (or none) stays.
   */
  function FormFeedback(r: SquatState, f: SquatFrame): (fb: Option<string>)
    requires |r.kneeHistory| > 0 && |r.backHistory| > 0
  {
    var knee := SmoothKnee(r);
    var back := SmoothBack(r);
    var advice :=
      if back < 25.0 then Some(BendForwardMessage)
      else if back > 50.0 then Some(BendBackwardsMessage)
      else if r.stage == Some(S2) && knee > 80.0 then Some(LowerHipsMessage)
      else if r.stage == Some(S3) && knee < 50.0 then Some(TooDeepMessage)
      else if r.stage == Some(S3) && r.minKneeAngle > 60.0 then Some(RaiseDeeperMessage)
      else r.feedback;
    if f.ankleX > f.kneeX then Some(KneesOverToesMessage) else advice
  }

  /**
   * The form advice of every rule set, as the source writes it: back messages
   * first, then the stage messages, and "Knees over toes" above all; `r` is
   * the state after rep resolution with `r.feedback` the message it left.
   */
  method AdviseForm(r: SquatState, f: SquatFrame, knee: real, back: real) returns (fb: Option<string>)
    requires |r.kneeHistory| > 0 && |r.backHistory| > 0
    requires knee == SmoothKnee(r) && back == SmoothBack(r)
    ensures fb == FormFeedback(r, f)
  {
    fb := r.feedback;
    if back < 25.0 {
      fb := Some(BendForwardMessage);
    } else if back > 50.0 {
      fb := Some(BendBackwardsMessage);
    } else if r.stage == Some(S2) && knee > 80.0 {
      fb := Some(LowerHipsMessage);
    } else if r.stage == Some(S3) && knee < 50.0 {
      fb := Some(TooDeepMessage);
    } else if r.stage == Some(S3) && r.minKneeAngle > 60.0 {
      fb := Some(RaiseDeeperMessage);
    }
    if f.ankleX > f.kneeX {
      fb := Some(KneesOverToesMessage);
    }
  }

  /** What a frame without four visible landmarks does: set the visibility message, nothing else. */
  function Unseen(s: SquatState): SquatState
  {
    s.(feedback := Some(NotVisibleMessage))
  }

  /** The per-step promises every rule set keeps. */
  ghost predicate StepPromises(s: SquatState, f: SquatFrame, r: SquatState)
  {
    && (Valid(s) ==> Valid(r))
    && r.correctCounter >= s.correctCounter
    && r.incorrectCounter >= s.incorrectCounter
    && CountsAtMostOne(s, r)
    && (!FullyVisible(f) ==> r == s.(feedback := Some(NotVisibleMessage)))
    && (FullyVisible(f) ==>
          && |r.kneeHistory| > 0
          && r.kneeHistory == Push(s.kneeHistory, f.kneeAngle, HistoryLength)
          && r.backHistory == Push(s.backHistory, f.backAngle, HistoryLength)
          && r.stage == Some(Classify(SmoothKnee(r))))
  }

  /** `SquatAnalyzer.read_frame` of the server, on one frame. */
  function CameraStep(s: SquatState, f: SquatFrame): SquatState
  {
    if !FullyVisible(f) then Unseen(s)
    else
      var m := ResolveCamera(HoldDepth(Observe(s, f)));
      m.(feedback := FormFeedback(m, f))
  }

  /** `SquatAnalyzerMobile.process_frame`, on one frame. */
  function MobileStep(s: SquatState, f: SquatFrame): SquatState
  {
    if !FullyVisible(f) then Unseen(s)
    else
      var m := ResolveMobile(HoldDepth(Observe(s, f)));
      m.(feedback := FormFeedback(m, f))
  }

  /** `SquatAnalyzer.read_frame` of `original_files/squats.py`, on one frame. */
  function OriginalStep(s: SquatState, f: SquatFrame): SquatState
  {
    if !FullyVisible(f) then Unseen(s)
    else
      var m := ResolveOriginal(HoldDepthOriginal(Observe(s, f)));
      m.(feedback := FormFeedback(m, f))
  }

  /**
   * The squat branch of the `/reset_analyzer` route of the original app:
   * both counters zeroed, the stage sequence emptied and the stage cleared;
   * the depth hold, the minimum knee angle and the angle windows stay.
   */
  function CounterReset(s: SquatState): SquatState
  {
    s.(correctCounter := 0, incorrectCounter := 0, sequence := [], stage := None)
  }

  lemma ResolveCameraCleanly(m: SquatState)
    ensures ResolvesCleanly(m, ResolveCamera(m))
  {
  }

  lemma ResolveMobileCleanly(m: SquatState)
    requires |m.kneeHistory| > 0
    ensures ResolvesCleanly(m, ResolveMobile(m))
  {
  }

  lemma ResolveOriginalCleanly(m: SquatState)
    ensures ResolvesCleanly(m, ResolveOriginal(m))
  {
  }

  /** The server camera rule set keeps the per-step promises. */
  lemma CameraStepPromises(s: SquatState, f: SquatFrame)
    ensures StepPromises(s, f, CameraStep(s, f))
  {
    if FullyVisible(f) {
      ResolveCameraCleanly(HoldDepth(Observe(s, f)));
    }
  }

  /** The mobile rule set keeps the per-step promises. */
  lemma MobileStepPromises(s: SquatState, f: SquatFrame)
    ensures StepPromises(s, f, MobileStep(s, f))
  {
    if FullyVisible(f) {
      ResolveMobileCleanly(HoldDepth(Observe(s, f)));
    }
  }

  /** The original rule set keeps the per-step promises. */
  lemma OriginalStepPromises(s: SquatState, f: SquatFrame)
    ensures StepPromises(s, f, OriginalStep(s, f))
  {
    if FullyVisible(f) {
      ResolveOriginalCleanly(HoldDepthOriginal(Observe(s, f)));
    }
  }
}
