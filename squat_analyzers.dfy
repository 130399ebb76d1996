/**
 * The squat analyzer objects of the server package, with the fields their
 * methods update in place. The camera read, the pose estimator and the
 * drawing are replaced by the frame observation they produce; a failed camera
 * read is `None`.
 */
module SquatAnalyzers {
  import opened Wrappers
  import opened Smoothing
  import opened SquatRules
  import Speech

  /** `SquatAnalyzer`: the camera analyzer with spoken feedback. */
  class SquatAnalyzer {
    var correctCounter: nat
    var incorrectCounter: nat
    var stage: Option<Stage>
    var sequence: seq<Stage>
    var lastFeedback: Option<string>
    var feedback: Option<string>
    var kneeHistory: seq<real>
    var backHistory: seq<real>
    var depthHold: nat
    var minKneeAngle: real
    /** The messages put on `speech_queue`, oldest first. */
    var speechQueue: seq<string>

    function State(): SquatState
      reads this
    {
      SquatState(correctCounter, incorrectCounter, stage, sequence, feedback,
                 kneeHistory, backHistory, depthHold, minKneeAngle)
    }

    function Voice(): Speech.Dispatcher
      reads this
    {
      Speech.Dispatcher(lastFeedback, speechQueue)
    }

    ghost predicate Valid()
      reads this
    {
      SquatRules.Valid(State()) && Speech.Consistent(Voice())
    }

    /** `_init_counters` and an empty speech queue. */
    constructor()
      ensures State() == Initial && Voice() == Speech.Idle
      ensures Valid()
    {
      correctCounter, incorrectCounter := 0, 0;
      stage, sequence := None, [];
      lastFeedback, feedback := None, None;
      kneeHistory, backHistory := [], [];
      depthHold, minKneeAngle := 0, UnbentKneeAngle;
      speechQueue := [];
    }

    /** `_speak`: queue a non-empty message that differs from the last one accepted. */
    method Speak(text: Option<string>)
      requires Speech.Consistent(Voice())
      modifies this
      ensures Voice() == Speech.Say(old(Voice()), text)
      ensures Speech.Consistent(Voice())
      ensures State() == old(State())
    {
      Speech.SayKeepsConsistent(Voice(), text);
      if text.Some? && text.value != "" && text != lastFeedback {
        lastFeedback := text;
        speechQueue := speechQueue + [text.value];
      }
    }

    /** Push the raw angles into their windows and fold the smoothed knee angle into the minimum. */
    method SmoothAngles(f: SquatFrame) returns (knee: real, back: real)
      modifies this
      ensures State() == old(State()).(kneeHistory := Push(old(kneeHistory), f.kneeAngle, HistoryLength),
                                       backHistory := Push(old(backHistory), f.backAngle, HistoryLength),
                                       minKneeAngle := Min(old(minKneeAngle), knee))
      ensures knee == Mean(kneeHistory) && back == Mean(backHistory)
      ensures unchanged(this`lastFeedback, this`speechQueue)
    {
      kneeHistory := Push(kneeHistory, f.kneeAngle, HistoryLength);
      backHistory := Push(backHistory, f.backAngle, HistoryLength);
      knee := Mean(kneeHistory);
      back := Mean(backHistory);
      minKneeAngle := Min(minKneeAngle, knee);
    }

    /** Classify the smoothed knee angle, extend the sequence on a change of stage, count the hold. */
    method UpdateStage(knee: real)
      modifies this
      ensures State() == HoldDepth(old(State()).(stage := Some(Classify(knee)),
                                            sequence := if old(stage) == Some(Classify(knee)) then old(sequence)
                                                        else old(sequence) + [Classify(knee)]))
      ensures unchanged(this`lastFeedback, this`speechQueue)
    {
      var prevStage := stage;
      if knee > StageS1Threshold {
        stage := Some(S1);
      } else if StageS1Threshold >= knee > StageS2Threshold {
        stage := Some(S2);
      } else if knee <= StageS2Threshold {
        stage := Some(S3);
      }
      if stage.Some? && prevStage != stage {
        sequence := sequence + [stage.value];
      }
      if stage == Some(S3) {
        depthHold := depthHold + 1;
      }
    }

    /** The rep-resolution branches of `read_frame`; `fb` is the message they leave. */
    method ResolveRep() returns (fb: Option<string>)
      modifies this
      ensures State().(feedback := fb) == ResolveCamera(old(State()).(feedback := None))
      ensures feedback == old(feedback)
      ensures unchanged(this`lastFeedback, this`speechQueue)
    {
      ghost var m := State().(feedback := None);
      fb := None;
      if EndsIn(sequence, S2, S3, S2)
         && depthHold >= DepthHoldRequirement {
        assert ResolveCamera(m) == CountCorrect(m);
        correctCounter := correctCounter + 1;
        fb := Some(CorrectMessage);
        sequence, minKneeAngle, depthHold := [], UnbentKneeAngle, 0;
      } else if |sequence| >= 4 && S3 in sequence && Last(sequence) == S1
                && depthHold >= DepthHoldRequirement {
        // S1 -> S2 -> S3 -> S2 -> S1, a full cycle
        assert ResolveCamera(m) == CountCorrect(m);
        correctCounter := correctCounter + 1;
        fb := Some(CorrectMessage);
        sequence, minKneeAngle, depthHold := [], UnbentKneeAngle, 0;
      } else if |sequence| >= 3 && Last(sequence) == S1 {
        if sequence != [S1] && S3 !in sequence {
          assert ResolveCamera(m) == CountIncorrect(m, CameraIncompleteMessage).(sequence := [], depthHold := 0);
          incorrectCounter := incorrectCounter + 1;
          fb := Some(CameraIncompleteMessage);
        } else if sequence != [S1] && depthHold < DepthHoldRequirement {
          assert ResolveCamera(m) == CountIncorrect(m, HoldLongerMessage).(sequence := [], depthHold := 0);
          incorrectCounter := incorrectCounter + 1;
          fb := Some(HoldLongerMessage);
        } else {
          assert ResolveCamera(m) == m.(sequence := [], depthHold := 0);
        }
        sequence, depthHold := [], 0;
      } else {
        assert ResolveCamera(m) == m;
      }
    }

    /**
     * `read_frame`: `capture` is what `cap.read()` delivered. A failed read
     * changes nothing; otherwise the frame is analysed exactly as
     * `CameraStep` says and its feedback is spoken.
     */
    method ReadFrame(capture: Option<SquatFrame>) returns (ok: bool)
      requires Valid()
      modifies this
      ensures Valid()
      ensures ok <==> capture.Some?
      ensures capture.None? ==> State() == old(State()) && Voice() == old(Voice())
      ensures capture.Some? ==> State() == CameraStep(old(State()), capture.value)
      ensures capture.Some? ==> Voice() == Speech.Say(old(Voice()), State().feedback)
    {
      if capture.None? {
        return false;
      }
      var f := capture.value;
      CameraStepPromises(State(), f);
      if FullyVisible(f) {
        AnalyseVisible(f);
      } else {
        feedback := Some(NotVisibleMessage);
      }
      Speak(feedback);
      return true;
    }

    /** The body of `read_frame` for a frame whose four landmarks are visible, up to `_speak`. */
    method AnalyseVisible(f: SquatFrame)
      requires FullyVisible(f)
      modifies this
      ensures State() == CameraStep(old(State()), f)
      ensures unchanged(this`lastFeedback, this`speechQueue)
    {
      ghost var before := State();
      var knee, back := SmoothAngles(f);
      UpdateStage(knee);
      assert State().(feedback := None) == HoldDepth(Observe(before, f));
      var fb := ResolveRep();
      fb := AdviseForm(State().(feedback := fb), f, knee, back);
      feedback := fb;
    }
  }

  /** `SquatAnalyzerMobile`: analyses frames posted by a phone, without speech. */
  class SquatAnalyzerMobile {
    var correctCounter: nat
    var incorrectCounter: nat
    var stage: Option<Stage>
    var sequence: seq<Stage>
    var feedback: Option<string>
    var kneeHistory: seq<real>
    var backHistory: seq<real>
    var depthHold: nat
    var minKneeAngle: real

    function State(): SquatState
      reads this
    {
      SquatState(correctCounter, incorrectCounter, stage, sequence, feedback,
                 kneeHistory, backHistory, depthHold, minKneeAngle)
    }

    ghost predicate Valid()
      reads this
    {
      SquatRules.Valid(State())
    }

    constructor()
      ensures State() == Initial
      ensures Valid()
    {
      correctCounter, incorrectCounter := 0, 0;
      stage, sequence, feedback := None, [], None;
      kneeHistory, backHistory := [], [];
      depthHold, minKneeAngle := 0, UnbentKneeAngle;
    }

    /** Push the raw angles into their windows and fold the smoothed knee angle into the minimum. */
    method SmoothAngles(f: SquatFrame) returns (knee: real, back: real)
      modifies this
      ensures State() == old(State()).(kneeHistory := Push(old(kneeHistory), f.kneeAngle, HistoryLength),
                                       backHistory := Push(old(backHistory), f.backAngle, HistoryLength),
                                       minKneeAngle := Min(old(minKneeAngle), knee))
      ensures knee == Mean(kneeHistory) && back == Mean(backHistory)
    {
      kneeHistory := Push(kneeHistory, f.kneeAngle, HistoryLength);
      backHistory := Push(backHistory, f.backAngle, HistoryLength);
      knee := Mean(kneeHistory);
      back := Mean(backHistory);
      minKneeAngle := Min(minKneeAngle, knee);
    }

    /** Classify the smoothed knee angle, extend the sequence on a change of stage, count the hold. */
    method UpdateStage(knee: real)
      modifies this
      ensures State() == HoldDepth(old(State()).(stage := Some(Classify(knee)),
                                            sequence := if old(stage) == Some(Classify(knee)) then old(sequence)
                                                        else old(sequence) + [Classify(knee)]))
    {
      var prevStage := stage;
      if knee > StageS1Threshold {
        stage := Some(S1);
      } else if StageS1Threshold >= knee > StageS2Threshold {
        stage := Some(S2);
      } else if knee <= StageS2Threshold {
        stage := Some(S3);
      }
      if stage.Some? && prevStage != stage {
        sequence := sequence + [stage.value];
      }
      if stage == Some(S3) {
        depthHold := depthHold + 1;
      }
    }

    /** The rep-resolution branches of `process_frame`; `fb` is the message they leave. */
    method ResolveRep(knee: real) returns (fb: Option<string>)
      requires |kneeHistory| > 0 && knee == Mean(kneeHistory)
      modifies this
      ensures State().(feedback := fb) == ResolveMobile(old(State()).(feedback := None))
      ensures feedback == old(feedback)
    {
      fb := None;
      if EndsIn(sequence, S1, S2, S3) && depthHold >= 3 {
        if knee > 100.0 {
          correctCounter := correctCounter + 1;
          fb := Some(CorrectMessage);
          sequence, minKneeAngle, depthHold := [], UnbentKneeAngle, 0;
        }
      } else if EndsIn(sequence, S2, S3, S2) && depthHold >= 3 {
        correctCounter := correctCounter + 1;
        fb := Some(CorrectMessage);
        sequence, minKneeAngle, depthHold := [], UnbentKneeAngle, 0;
      } else if |sequence| >= 3 && Last(sequence) == S1 {
        if sequence != [S1] && S3 !in sequence {
          incorrectCounter := incorrectCounter + 1;
          fb := Some(MobileIncompleteMessage);
        } else if sequence != [S1] && depthHold < 3 {
          incorrectCounter := incorrectCounter + 1;
          fb := Some(HoldLongerMessage);
        }
        sequence, depthHold := [], 0;
      }
    }

    /** `process_frame`: analyse one posted frame exactly as `MobileStep` says. */
    method ProcessFrame(f: SquatFrame)
      requires Valid()
      modifies this
      ensures Valid()
      ensures State() == MobileStep(old(State()), f)
    {
      MobileStepPromises(State(), f);
      if FullyVisible(f) {
        ghost var before := State();
        var knee, back := SmoothAngles(f);
        UpdateStage(knee);
        assert State().(feedback := None) == HoldDepth(Observe(before, f));
        var fb := ResolveRep(knee);
        fb := AdviseForm(State().(feedback := fb), f, knee, back);
        feedback := fb;
      } else {
        feedback := Some(NotVisibleMessage);
      }
    }

    /** `reset`: every field back to its initial value. */
    method Reset()
      modifies this
      ensures State() == Initial
      ensures Valid()
    {
      correctCounter, incorrectCounter := 0, 0;
      sequence, stage := [], None;
      depthHold, minKneeAngle := 0, UnbentKneeAngle;
      feedback := None;
      kneeHistory, backHistory := [], [];
    }
  }
}
