/**
 * The first camera squat analyzer, `original_files/squats.py`: the same fields
 * as the server camera analyzer, with the hold zeroed outside S3 and a single
 * "Incorrect Squat" judgement.
 */
module OriginalSquats {
  import opened Wrappers
  import opened Smoothing
  import opened SquatRules
  import Speech

  class SquatAnalyzer {
    var correctCounter: nat
    var incorrectCounter: nat
    var stage: Option<Stage>
    var sequence: seq<Stage>
    var lastFeedback: Option<string>
    var feedback: Option<string>
    var kneeHistory: seq<real>
    var backHistory: seq<real>
    var depthHold: nat
    var minKneeAngle: real
    /** The messages put on `speech_queue`, oldest first. */
    var speechQueue: seq<string>

    function State(): SquatState
      reads this
    {
      SquatState(correctCounter, incorrectCounter, stage, sequence, feedback,
                 kneeHistory, backHistory, depthHold, minKneeAngle)
    }

    function Voice(): Speech.Dispatcher
      reads this
    {
      Speech.Dispatcher(lastFeedback, speechQueue)
    }

    ghost predicate Valid()
      reads this
    {
      SquatRules.Valid(State()) && Speech.Consistent(Voice())
    }

    /** The counter and speech fields set by `__init__`. */
    constructor()
      ensures State() == Initial && Voice() == Speech.Idle
      ensures Valid()
    {
      correctCounter, incorrectCounter := 0, 0;
      stage, sequence := None, [];
      lastFeedback, feedback := None, None;
      kneeHistory, backHistory := [], [];
      depthHold, minKneeAngle := 0, UnbentKneeAngle;
      speechQueue := [];
    }

    /** `_speak`: queue a non-empty message that differs from the last one accepted. */
    method Speak(text: Option<string>)
      requires Speech.Consistent(Voice())
      modifies this
      ensures Voice() == Speech.Say(old(Voice()), text)
      ensures Speech.Consistent(Voice())
      ensures State() == old(State())
    {
      Speech.SayKeepsConsistent(Voice(), text);
      if text.Some? && text.value != "" && text != lastFeedback {
        lastFeedback := text;
        speechQueue := speechQueue + [text.value];
      }
    }

    /** Push the raw angles into their windows and fold the smoothed knee angle into the minimum. */
    method SmoothAngles(f: SquatFrame) returns (knee: real, back: real)
      modifies this
      ensures State() == old(State()).(kneeHistory := Push(old(kneeHistory), f.kneeAngle, HistoryLength),
                                       backHistory := Push(old(backHistory), f.backAngle, HistoryLength),
                                       minKneeAngle := Min(old(minKneeAngle), knee))
      ensures knee == Mean(kneeHistory) && back == Mean(backHistory)
      ensures unchanged(this`lastFeedback, this`speechQueue)
    {
      kneeHistory := Push(kneeHistory, f.kneeAngle, HistoryLength);
      backHistory := Push(backHistory, f.backAngle, HistoryLength);
      knee := Mean(kneeHistory);
      back := Mean(backHistory);
      minKneeAngle := Min(minKneeAngle, knee);
    }

    /** Classify the knee angle, extend the sequence on a change of stage, count or zero the hold. */
    method UpdateStage(knee: real)
      modifies this
      ensures State() == HoldDepthOriginal(old(State()).(stage := Some(Classify(knee)),
                                            sequence := if old(stage) == Some(Classify(knee)) then old(sequence)
                                                        else old(sequence) + [Classify(knee)]))
      ensures unchanged(this`lastFeedback, this`speechQueue)
    {
      var prevStage := stage;
      if knee > 160.0 {
        stage := Some(S1);
      } else if 160.0 >= knee > 95.0 {
        stage := Some(S2);
      } else if knee <= 95.0 {
        stage := Some(S3);
      }
      if stage.Some? && prevStage != stage {
        sequence := sequence + [stage.value];
      }
      if stage == Some(S3) {
        depthHold := depthHold + 1;
      } else {
        depthHold := 0;
      }
    }

    /** The two rep-resolution branches of `read_frame`; `fb` is the message they leave. */
    method ResolveRep() returns (fb: Option<string>)
      modifies this
      ensures State().(feedback := fb) == ResolveOriginal(old(State()).(feedback := None))
      ensures feedback == old(feedback)
      ensures unchanged(this`lastFeedback, this`speechQueue)
    {
      fb := None;
      if EndsIn(sequence, S2, S3, S2) && depthHold >= 3 {
        correctCounter := correctCounter + 1;
        fb := Some(CorrectMessage);
        sequence, minKneeAngle, depthHold := [], UnbentKneeAngle, 0;
      } else if |sequence| >= 3 && Last(sequence) == S1 {
        if sequence != [S1] {
          incorrectCounter := incorrectCounter + 1;
          fb := Some(IncorrectMessage);
        }
        sequence := [];
      }
    }

    /**
     * `read_frame`: `capture` is what `cap.read()` delivered. A failed read
     * changes nothing; otherwise the frame is analysed exactly as
     * `OriginalStep` says and its feedback is spoken.
     */
    method ReadFrame(capture: Option<SquatFrame>) returns (ok: bool)
      requires Valid()
      modifies this
      ensures Valid()
      ensures ok <==> capture.Some?
      ensures capture.None? ==> State() == old(State()) && Voice() == old(Voice())
      ensures capture.Some? ==> State() == OriginalStep(old(State()), capture.value)
      ensures capture.Some? ==> Voice() == Speech.Say(old(Voice()), State().feedback)
    {
      if capture.None? {
        return false;
      }
      var f := capture.value;
      OriginalStepPromises(State(), f);
      if FullyVisible(f) {
        AnalyseVisible(f);
      } else {
        feedback := Some(NotVisibleMessage);
      }
      Speak(feedback);
      return true;
    }

    /** The body of `read_frame` for a frame whose four landmarks are visible, up to `_speak`. */
    method AnalyseVisible(f: SquatFrame)
      requires FullyVisible(f)
      modifies this
      ensures State() == OriginalStep(old(State()), f)
      ensures unchanged(this`lastFeedback, this`speechQueue)
    {
      ghost var before := State();
      var knee, back := SmoothAngles(f);
      UpdateStage(knee);
      assert State().(feedback := None) == HoldDepthOriginal(Observe(before, f));
      var fb := ResolveRep();
      fb := AdviseForm(State().(feedback := fb), f, knee, back);
      feedback := fb;
    }
  }
}
