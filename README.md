# Squat and jump analyzers: a verified model

This project models the exercise-analysis core of a fitness app in Dafny and proves
properties of the model. The app counts squat repetitions and measures jumps from pose
landmarks. It receives frames either from a local camera or posted by a phone. The parts
modelled are:

- **Squat repetition state machine**, in three rule sets:
  - the server camera analyzer (`SquatAnalyzer.read_frame`);
  - the phone analyzer (`SquatAnalyzerMobile.process_frame` and `reset`), which is the
    same in the server package and in `original_files/app.py`;
  - the original camera analyzer (`original_files/squats.py`).

  Each rule set pushes the knee and back angles into five-slot windows and classifies
  the smoothed knee angle into S1/S2/S3. It extends the stage sequence on a change,
  counts the depth hold and resolves repetitions, then picks the form advice.
- **Spoken-feedback dedup** (`_speak`): a message is queued only when it is non-empty and
  differs from the last accepted one.
- **Camera jump analyzer** (`JumpAnalyzer`): the same code in the server package and in
  `original_files/jump.py`. It has the phases idle, armed, airborne and landed, with two
  gestures: the right hand to the nose arms, the left hand to the nose resets. It judges
  steadiness on a smoothed nose height and tracks the peak rise. It has velocity gates
  for takeoff and landing, and on landing it finalises the jump into a `JumpResult`
  (too small, squat cheat, or valid).
- **Phone jump counter** (`JumpAnalyzerMobile`): every rise of the smoothed ankles more
  than 30 pixels above a drifting baseline counts one jump.
- **`CameraManager`**: one analyzer owns the camera at a time. `start` is idempotent for
  the running type and otherwise stops, then starts.
- **`MobileFrameProcessor`**: one lazily created phone analyzer per mode. This part also
  covers the field resets that the original app's `/reset_analyzer` route applies to
  those analyzers.

## How the program is modelled

The source mutates objects in place. Each analyzer and manager class is therefore a Dafny
`class` with the same fields, and its methods mirror the source step by step. Each method
is proved equal to a pure step function on a state datatype:

| step function | datatype |
|---|---|
| `SquatRules.CameraStep`, `MobileStep`, `OriginalStep` | `SquatState` |
| `JumpRules.StepWith`: `JumpStepAsWritten` or `JumpStep` | `JumpState` |
| `MobileJump.MobileJumpStep` | `MobileJumpState` |
| `Cameras.StartSpec` | `ManagerState` |

The lemmas prove the promised properties about those step functions and about runs of
frames. The camera `JumpAnalyzer` class carries a constant `rd` that chooses which steady
count its takeoff test reads. `UpdatedCount` makes it the code as written
(`JumpStepAsWritten`); `PriorCount` makes it the corrected analyzer of "Findings"
(`JumpStep`). The modules are:

- `wrappers.dfy`: `Option`.
- `smoothing.dfy`: sliding windows and their mean.
- `speech.dfy`: `_speak`.
- `squat_rules.dfy`: the three squat rule sets.
- `squat_properties.dfy`: lemmas about the squat rule sets.
- `squat_analyzers.dfy`: the server's squat analyzer classes.
- `original_squats.dfy`: the original squat analyzer class.
- `jump_rules.dfy`: the jump helpers and step function.
- `jump_properties.dfy`: lemmas about the jump step function.
- `mobile_jump.dfy`, `mobile_jump_properties.dfy`: the phone jump counter and its lemmas.
- `jump_analyzers.dfy`: both jump analyzer classes.
- `camera_manager.dfy`: `CameraManager`.
- `frame_processor.dfy`: `MobileFrameProcessor`.

The pose estimator is replaced by the landmark values it would report. The squat
analyzers take one observation per frame: whether a pose was found, four visibilities,
the raw knee and back angles, and the ankle and knee x. The jump analyzer takes the
landmarks it reads, with pixel sizes. The phone jump counter takes its two ankles and the
frame height.

- A failed camera read is `None`.
- The wall clock becomes the inputs `now` and `dt`.
- The environment-configured jump constants become a `JumpConfig` parameter.
  `DefaultConfig` holds the defaults: 12 in, 100 px, 2 in, window 5, 6 frames, 0.25, 0.25.
- Floating-point values are modelled as real numbers.
- The hand-to-nose test `hypot(dx, dy) < 60` is stated as `dx² + dy² < 60²`. This is
  exact for a positive threshold.

### Behaviour of the code worth knowing

- server/src/analyzers/squat_analyzer.py:461-467: the `[S1, S2, S3]` branch of the phone
  squat analyzer counts a correct repetition only when the knee angle is above 100. A
  tail ending in S3 means the smoothed knee angle is at most 95, so the branch never
  counts (`SquatProperties.MobileDeepTailNeverCounts`).
- squat_analyzer.py:292 and 302 put `min_knee_angle` back to 180 on a correct
  repetition. The incorrect branches at 304-312 leave it as it is
  (`SquatProperties.MinKneeTracksSmoothedKnee`).
- server/src/analyzers/jump_analyzer.py:322 takes the raw pixel height of the nose on the
  arming frame as the baseline, not the smoothed height (`JumpProperties.ArmGestureArms`).
- The camera jump analyzer writes `baseline_nose_y` only when arming (jump_analyzer.py:322)
  and when resetting (239, 265), so its baseline never drifts. The phone jump counter
  drifts its baseline at jump_analyzer.py:494, on every visible frame at or below the
  30-pixel threshold (`MobileJumpProperties.BaselineDrifts`).
- jump_analyzer.py:274 measures a jump as `max(0, peak) × inches_per_pixel()`.
  jump_analyzer.py:58-60 makes that ratio 0.12 when the calibration in pixels is not
  positive.
- server/src/utils/camera_manager.py:100-102: a capture error breaks out of the loop but
  leaves `running` set.
- camera_manager.py:57-69: when `is_opened()` raises inside `start`, the freshly built
  analyzer stays stored while `start` returns `False` (`Cameras.StartOutcome`).
- jump_analyzer.py:364 reads `steady_frames` after 345-348 have updated it for this frame.
  That makes takeoff impossible (see "Findings").

## Model

| member | source | states |
|---|---|---|
| Speech.Say | server/src/analyzers/squat_analyzer.py:129-133 | a message is queued, and becomes the last accepted text, exactly when it is non-empty and differs from the last accepted text; otherwise nothing changes |
| Speech.SayTwiceQueuesOnce | server/src/analyzers/squat_analyzer.py:129-133 | saying the same message twice in a row has the effect of saying it once |
| Speech.SayAlternatingQueuesAll | original_files/squats.py:64-67 | only consecutive repeats are suppressed: X, Y, X queues three messages |
| Speech.SayExtendsQueue | server/src/analyzers/squat_analyzer.py:129-133 | messages already queued are never altered; the queue only grows at its end |
| Speech.SayKeepsConsistent | server/src/analyzers/squat_analyzer.py:129-133 | the last queued message is the last accepted text, and the queue never holds the same message twice in a row |
| Smoothing.Push | server/src/analyzers/squat_analyzer.py:253-256 | a `deque(maxlen)` append: the value is last, the window never exceeds its capacity, and it is the latest `cap` values |
| Smoothing.PushAllKeepsLatest | server/src/analyzers/squat_analyzer.py:104-105 | after any number of pushes the window holds exactly the most recent `cap` values |
| Smoothing.MeanBounds | server/src/analyzers/squat_analyzer.py:255-256 | the smoothed value lies between the smallest and largest reading in the window |
| Smoothing.MeanOfOne | server/src/analyzers/jump_analyzer.py:340-343 | a window of one reading has that reading as its mean |
| SquatRules.Classify | server/src/analyzers/squat_analyzer.py:270-275 | S1 exactly when knee > 160, S2 exactly when 95 < knee ≤ 160, S3 exactly when knee ≤ 95 |
| SquatRules.Observe | server/src/analyzers/squat_analyzer.py:253-278 | both windows are pushed; the stage is the class of the smoothed knee; the minimum folds in the smoothed knee; the stage is appended exactly when it changed; the invariant is kept and the counters and hold stay |
| SquatRules.ResolveCamera | server/src/analyzers/squat_analyzer.py:286-312 | rep resolution never changes the stage or the angle windows |
| SquatRules.ResolveMobile | server/src/analyzers/squat_analyzer.py:459-483 | rep resolution never changes the stage or the angle windows |
| SquatRules.ResolveOriginal | original_files/squats.py:182-196 | rep resolution never changes the stage or the angle windows |
| SquatRules.ResolveCameraCleanly | server/src/analyzers/squat_analyzer.py:286-312 | at most one counter moves, by one; the sequence is kept or emptied; a correct rep empties the sequence, zeroes the hold and restores the minimum to 180, and no other branch touches the minimum |
| SquatRules.ResolveMobileCleanly | server/src/analyzers/squat_analyzer.py:459-483 | as for the camera rule set, for the phone branches |
| SquatRules.ResolveOriginalCleanly | original_files/squats.py:182-196 | as for the camera rule set, for the original branches |
| SquatRules.AdviseForm | server/src/analyzers/squat_analyzer.py:315-326 | the if-chain of form advice computes `FormFeedback`: back messages, then stage messages, with "Knees over toes" overriding |
| SquatRules.CameraStepPromises | server/src/analyzers/squat_analyzer.py:240-337 | one camera frame keeps the invariant, never lowers a counter, moves at most one counter by one, changes only the feedback when not visible, and otherwise pushes both windows and sets the stage from the smoothed knee |
| SquatRules.MobileStepPromises | server/src/analyzers/squat_analyzer.py:417-501 | the same per-frame promises for the phone rule set |
| SquatRules.OriginalStepPromises | original_files/squats.py:125-221 | the same per-frame promises for the original rule set |
| SquatRules.FullyVisible | server/src/analyzers/squat_analyzer.py:247 | definition: shoulder, hip, knee and ankle all more visible than 0.8; see `UnseenFrameOnlySetsFeedback` |
| SquatRules.HoldDepth | server/src/analyzers/squat_analyzer.py:280-283 | definition of the server hold update; see `DepthHoldGrowsOrResets` |
| SquatRules.HoldDepthOriginal | original_files/squats.py:177-180 | definition of the original hold update; see `OriginalHoldOnlyInDeep` and `OriginalStepKeepsHoldInvariant` |
| SquatRules.FormFeedback | server/src/analyzers/squat_analyzer.py:315-326 | definition of the form advice chain; see `KneesOverToesWins`, `BackAdviceComesFirst`, `PartialSquatSaysLowerHips` and `AdviseForm` |
| SquatRules.Unseen | server/src/analyzers/squat_analyzer.py:330-337 | definition of an unseen frame; see `UnseenFrameOnlySetsFeedback` |
| SquatRules.CameraStep | server/src/analyzers/squat_analyzer.py:240-337 | definition of one camera frame; see `CameraStepPromises`, `RunKeepsValid`, `RunCountersMonotone` and the `Camera…` branch lemmas |
| SquatRules.MobileStep | server/src/analyzers/squat_analyzer.py:417-501 | definition of one phone frame; see `MobileStepPromises`, `MobileDeepTailNeverCounts` and `MobileCountsOnlyWobbles` |
| SquatRules.OriginalStep | original_files/squats.py:125-221 | definition of one original frame; see `OriginalStepPromises` and `OriginalRunNeverCountsCorrect` |
| SquatRules.CounterReset | original_files/app.py:567-572 | definition of the route's squat reset; see `CounterResetKeepsValid` |
| SquatProperties.InitialIsValid | server/src/analyzers/squat_analyzer.py:96-107 | the initial fields satisfy the invariant |
| SquatProperties.RunKeepsValid | server/src/analyzers/squat_analyzer.py:277-278 | over any run of frames the sequence has no adjacent repeats and ends in the current stage, and the windows stay within five |
| SquatProperties.RunCountersMonotone | server/src/analyzers/squat_analyzer.py:286-312 | over any run the counters never decrease and together grow by at most one per frame |
| SquatProperties.VisibleFrameSetsStage | server/src/analyzers/squat_analyzer.py:268-275 | after a visible frame the stage is set, by the three thresholds on the smoothed knee angle |
| SquatProperties.UnseenFrameOnlySetsFeedback | server/src/analyzers/squat_analyzer.py:330-337 | a frame failing the 0.8 visibility check sets "Please make your full body visible" and changes no counter, stage, sequence, hold, window or minimum |
| SquatProperties.DepthHoldGrowsOrResets | server/src/analyzers/squat_analyzer.py:280-283 | in the server rule sets the hold grows by one on an S3 frame and otherwise stays, unless a rep branch zeroes it with the sequence; leaving S3 never resets it |
| SquatProperties.OriginalHoldOnlyInDeep | original_files/squats.py:177-180 | in the original rule set the hold is zero after every visible frame outside S3 |
| SquatProperties.SequenceEndsInStage | server/src/analyzers/squat_analyzer.py:277-278 | after a visible frame the sequence is empty or ends in the current stage with no adjacent repeats |
| SquatProperties.CameraWobbleCountsCorrect | server/src/analyzers/squat_analyzer.py:286-293 | a tail S2, S3, S2 with hold ≥ 3 adds exactly one correct rep with "Correct Squat" and empties the sequence, zeroes the hold and restores the minimum |
| SquatProperties.CameraCycleCountsCorrect | server/src/analyzers/squat_analyzer.py:294-303 | four or more stages through S3 ending in S1 with hold ≥ 3 add exactly one correct rep and consume the sequence, hold and minimum |
| SquatProperties.CameraStandingTailJudged | server/src/analyzers/squat_analyzer.py:304-312 | a standing tail of three or more stages is consumed; no S3 counts one "Incomplete - Go deeper", a short hold counts one "Hold at bottom longer" |
| SquatProperties.WobbleMessageIsReplaced | server/src/analyzers/squat_analyzer.py:315-320 | when the S2, S3, S2 branch is reached the stage is S2, and the final feedback is a back message, "Lower your hips" or "Knees over toes", never "Correct Squat" |
| SquatProperties.MobileDeepTailNeverCounts | server/src/analyzers/squat_analyzer.py:461-467 | the phone `[S1, S2, S3]` branch never counts: the smoothed knee is ≤ 95, and no counter, sequence or hold changes |
| SquatProperties.MobileWobbleCountsCorrect | server/src/analyzers/squat_analyzer.py:468-474 | the phone S2, S3, S2 branch with hold ≥ 3 adds exactly one correct rep and consumes the sequence, hold and minimum |
| SquatProperties.MobileCountsOnlyWobbles | server/src/analyzers/squat_analyzer.py:461-474 | a phone frame adds a correct rep only on a visible S2, S3, S2 tail with hold ≥ 3 |
| SquatProperties.OriginalNeverCountsCorrect | original_files/squats.py:177-191 | the original rule set never counts a correct squat: an S2, S3, S2 tail means stage S2, where the hold was just zeroed |
| SquatProperties.OriginalRunNeverCountsCorrect | original_files/squats.py:177-191 | over any run of the original rule set the correct counter never moves |
| SquatProperties.OriginalStandingTailCountsIncorrect | original_files/squats.py:192-196 | in the original rule set a standing tail of three or more counts one "Incorrect Squat" and empties the sequence |
| SquatProperties.OriginalStepKeepsHoldInvariant | original_files/squats.py:177-180 | the original rule set keeps "hold is zero outside S3" |
| SquatProperties.MinKneeTracksSmoothedKnee | server/src/analyzers/squat_analyzer.py:257 | the minimum folds in every smoothed knee angle, is untouched by unseen frames, and only a correct rep restores it to 180 |
| SquatProperties.KneesOverToesWins | server/src/analyzers/squat_analyzer.py:325-326 | with the ankle right of the knee the feedback is "Knees over toes" |
| SquatProperties.BackAdviceComesFirst | server/src/analyzers/squat_analyzer.py:315-318 | otherwise a smoothed back under 25 says "Bend forward" and over 50 "Bend backwards" |
| SquatProperties.PartialSquatSaysLowerHips | server/src/analyzers/squat_analyzer.py:319-320 | with the back in range and the ankle not right of the knee, every S2 frame says "Lower your hips" |
| SquatProperties.CounterResetKeepsValid | original_files/app.py:567-572 | the route's squat reset zeroes both counters, empties the sequence and clears the stage, keeps the hold, minimum and windows, and keeps the invariant |
| SquatAnalyzers.SquatAnalyzer.constructor | server/src/analyzers/squat_analyzer.py:96-107 | the fields start at their initial values with an empty speech queue |
| SquatAnalyzers.SquatAnalyzer.Speak | server/src/analyzers/squat_analyzer.py:129-133 | queues as `Speech.Say` says and touches no analysis field |
| SquatAnalyzers.SquatAnalyzer.SmoothAngles | server/src/analyzers/squat_analyzer.py:253-257 | pushes both windows, returns their means and folds the knee mean into the minimum |
| SquatAnalyzers.SquatAnalyzer.UpdateStage | server/src/analyzers/squat_analyzer.py:269-283 | sets the stage from the thresholds, appends it on a change and grows the hold in S3 |
| SquatAnalyzers.SquatAnalyzer.ResolveRep | server/src/analyzers/squat_analyzer.py:286-312 | the branch chain leaves the state of `ResolveCamera` and returns its message |
| SquatAnalyzers.SquatAnalyzer.ReadFrame | server/src/analyzers/squat_analyzer.py:221-337 | a failed read changes nothing; otherwise the new state is `CameraStep` of the old, its feedback is spoken through `_speak`, and the invariant is kept |
| SquatAnalyzers.SquatAnalyzer.AnalyseVisible | server/src/analyzers/squat_analyzer.py:247-328 | a visible frame's analysis yields `CameraStep` |
| SquatAnalyzers.SquatAnalyzerMobile.constructor | server/src/analyzers/squat_analyzer.py:372-380 | the fields start at their initial values |
| SquatAnalyzers.SquatAnalyzerMobile.SmoothAngles | server/src/analyzers/squat_analyzer.py:427-431 | pushes both windows, returns their means and folds the knee mean into the minimum |
| SquatAnalyzers.SquatAnalyzerMobile.UpdateStage | server/src/analyzers/squat_analyzer.py:441-457 | sets the stage, appends it on a change and grows the hold in S3 |
| SquatAnalyzers.SquatAnalyzerMobile.ResolveRep | server/src/analyzers/squat_analyzer.py:459-483 | the branch chain leaves the state of `ResolveMobile` and returns its message |
| SquatAnalyzers.SquatAnalyzerMobile.ProcessFrame | server/src/analyzers/squat_analyzer.py:401-501 | the new state is `MobileStep` of the old, and the invariant is kept |
| SquatAnalyzers.SquatAnalyzerMobile.Reset | server/src/analyzers/squat_analyzer.py:525-535 | every field is back at its `__init__` value, with both windows empty |
| OriginalSquats.SquatAnalyzer.constructor | original_files/squats.py:37-52 | the fields start at their initial values with an empty speech queue |
| OriginalSquats.SquatAnalyzer.Speak | original_files/squats.py:64-67 | queues as `Speech.Say` says |
| OriginalSquats.SquatAnalyzer.SmoothAngles | original_files/squats.py:135-141 | pushes both windows, returns their means and folds the knee mean into the minimum |
| OriginalSquats.SquatAnalyzer.UpdateStage | original_files/squats.py:166-180 | sets the stage, appends it on a change, grows the hold in S3 and zeroes it elsewhere |
| OriginalSquats.SquatAnalyzer.ResolveRep | original_files/squats.py:182-196 | the two branches leave the state of `ResolveOriginal` and return its message |
| OriginalSquats.SquatAnalyzer.ReadFrame | original_files/squats.py:113-221 | a failed read changes nothing; otherwise the new state is `OriginalStep` of the old and its feedback is spoken |
| OriginalSquats.SquatAnalyzer.AnalyseVisible | original_files/squats.py:132-212 | a visible frame's analysis yields `OriginalStep` |
| JumpRules.InchesPerPixel | server/src/analyzers/jump_analyzer.py:58-60 | with positive calibration pixels the ratio times the pixels is the calibration inches; otherwise it is 0.12 |
| JumpRules.LandmarkXY | server/src/analyzers/jump_analyzer.py:68-84 | absent exactly when visibility is under 0.4, otherwise the landmark scaled to pixels |
| JumpRules.DetectSquatCheat | server/src/analyzers/jump_analyzer.py:116-139 | a pose whose six lower-body landmarks are not all visible is never a cheat |
| JumpRules.WindowCap | server/src/analyzers/jump_analyzer.py:341 | the capacity of the nose history is `max(5, window)`: at least 5 and at least the configured window, and equal to one of them |
| JumpRules.Pixel | server/src/analyzers/jump_analyzer.py:84 | definition of the pixel position `(x·w, y·h)`; see `LandmarkXY` |
| JumpRules.HandToNose | server/src/analyzers/jump_analyzer.py:87-113 | definition of the gesture test; see `HandToNoseMeaning` and `HandToNoseSeesNose` |
| JumpRules.SquatPosture | server/src/analyzers/jump_analyzer.py:141-164 | definition of the bent-knee posture test; see `SquatCheatMeaning` |
| JumpRules.Finalize | server/src/analyzers/jump_analyzer.py:272-288 | definition of `_finalize_jump`'s result; see `FinalizeClassifies` and `HiddenLegsAreNotACheat` |
| JumpRules.InitialJump | server/src/analyzers/jump_analyzer.py:236-251 | definition of `_init_state`; see `InitialJumpIsValid` |
| JumpRules.ResetState | server/src/analyzers/jump_analyzer.py:262-270 | definition of `_reset_state`; see `ResetGestureClears` |
| JumpRules.ArmGesture | server/src/analyzers/jump_analyzer.py:316-324 | definition of the arm gesture; see `ArmGestureArms` and `ArmGestureKeepsValid` |
| JumpRules.ResetGesture | server/src/analyzers/jump_analyzer.py:331-335 | definition of the reset gesture; see `ResetGestureClears`, `AirborneIsNeverReset` and `ResetGestureKeepsValid` |
| JumpRules.Measure | server/src/analyzers/jump_analyzer.py:340-357 | definition of smoothing, steadiness, previous rise and peak; see `SteadyFramesRule` and `PeakNeverDrops` |
| JumpRules.Velocity | server/src/analyzers/jump_analyzer.py:352-354 | definition of the vertical velocity, zero on the first tracked frame or when no time passed; see `TakeoffGates` |
| JumpRules.TakesOff | server/src/analyzers/jump_analyzer.py:359-369 | definition of the takeoff test; see `TakeoffGates`, `AsWrittenNeverTakesOff` and `CorrectedTakesOff` |
| JumpRules.Lands | server/src/analyzers/jump_analyzer.py:370-376 | definition of the landing test; see `LandingGates` and `LandingFrame` |
| JumpRules.Track | server/src/analyzers/jump_analyzer.py:338-387 | definition of the tracking block for either readiness; see `TrackKeepsValid` and `AirborneCount` |
| JumpRules.StepWith | server/src/analyzers/jump_analyzer.py:310-387 | definition of one frame with a given readiness; see `StepKeepsValid`, `StepMovesLegally` and `RunKeepsValid` |
| JumpRules.JumpStepAsWritten | server/src/analyzers/jump_analyzer.py:290-387 | definition of `read_frame` as written; see `AsWrittenNeverTakesOff` and `AsWrittenRunStaysGrounded` |
| JumpRules.JumpStep | server/src/analyzers/jump_analyzer.py:364-372 | definition of `read_frame` with the corrected readiness; see `CorrectedTakesOff` and `TakeoffGates` |
| JumpProperties.DefaultInchesPerPixel | server/src/analyzers/jump_analyzer.py:38-39 | the default calibration gives 0.12 inches per pixel |
| JumpProperties.HandToNoseMeaning | server/src/analyzers/jump_analyzer.py:87-113 | hand to nose exactly when both are visible (≥ 0.4) and their pixel distance is under 60 |
| JumpProperties.SquatCheatMeaning | server/src/analyzers/jump_analyzer.py:141-164 | on a visible lower body, a cheat is exactly a mean knee angle under 150 with the hips not 20 pixels above the knees or the ankles within 60 pixels of the hip midline |
| JumpProperties.FinalizeClassifies | server/src/analyzers/jump_analyzer.py:272-288 | inches are `max(0, peak)` times the ratio; valid exactly when the reason is ok; too small exactly below the minimum; cheat exactly when at least the minimum and the cheat detector fires |
| JumpProperties.HiddenLegsAreNotACheat | server/src/analyzers/jump_analyzer.py:135-138 | a landing with hidden legs is never judged a cheat |
| JumpProperties.InitialJumpIsValid | server/src/analyzers/jump_analyzer.py:236-251 | the initial state satisfies the jump invariant |
| JumpProperties.ArmGestureKeepsValid | server/src/analyzers/jump_analyzer.py:316-324 | the arm gesture keeps the invariant |
| JumpProperties.ResetGestureKeepsValid | server/src/analyzers/jump_analyzer.py:331-335 | the reset gesture keeps the invariant |
| JumpProperties.TrackKeepsValid | server/src/analyzers/jump_analyzer.py:338-387 | nose tracking keeps the invariant |
| JumpProperties.StepKeepsValid | server/src/analyzers/jump_analyzer.py:310-387 | a frame keeps: idle exactly when there is no baseline; an idle state holds nothing; a result exactly when landed; the history within `max(5, window)` |
| JumpProperties.RunKeepsValid | server/src/analyzers/jump_analyzer.py:290-387 | any run of frames keeps the invariant |
| JumpProperties.StepMovesLegally | server/src/analyzers/jump_analyzer.py:316-387 | a frame moves the phase only idle→armed, armed→airborne, airborne→landed or armed/landed→idle |
| JumpProperties.AirborneIsNeverReset | server/src/analyzers/jump_analyzer.py:331-335 | an airborne jump stays airborne or lands; no gesture resets it |
| JumpProperties.ArmGestureArms | server/src/analyzers/jump_analyzer.py:316-324 | arming always sets the baseline to the nose's pixel height, since the gesture needs a visible nose, and zeroes the peak and steady count |
| JumpProperties.HandToNoseSeesNose | server/src/analyzers/jump_analyzer.py:109-112 | a hand-to-nose gesture implies a visible nose |
| JumpProperties.ArmingFrame | server/src/analyzers/jump_analyzer.py:316-357 | the arming frame leaves the nose as the only history entry, one steady frame, zero peak and zero previous rise |
| JumpProperties.ResetGestureClears | server/src/analyzers/jump_analyzer.py:331-335 | the reset gesture from armed or landed returns to idle with no baseline, peak, history, steady count or result |
| JumpProperties.PeakNeverDrops | server/src/analyzers/jump_analyzer.py:357 | between an arm and the next reset the peak never decreases |
| JumpProperties.SteadyFramesRule | server/src/analyzers/jump_analyzer.py:340-348 | on a grounded tracked frame the history is the latest readings and the steady count grows exactly when the smoothed nose is within 4 pixels of the baseline, otherwise it is zeroed |
| JumpProperties.AsWrittenNeverTakesOff | server/src/analyzers/jump_analyzer.py:345-372 | with the steady count read after this frame's update, no frame ever takes off |
| JumpProperties.AsWrittenRunStaysGrounded | original_files/jump.py:241-266 | as written, no run of frames from idle or armed ever leaves idle or armed |
| JumpProperties.CorrectedTakesOff | server/src/analyzers/jump_analyzer.py:364-372 | with the count of the frames before, a steady armed user rising 100 px in one frame takes off; as written, the same frame stays armed |
| JumpProperties.LeapMeasured | server/src/analyzers/jump_analyzer.py:340-357 | the measurement of that frame: mean 180, rise 20, steady count zeroed, peak 20 |
| JumpProperties.TakeoffGates | server/src/analyzers/jump_analyzer.py:359-372 | takeoff only from armed, after five steady frames, with rise > `max(8, 0.015 h)` and velocity above the upward gate; airborne count 0 |
| JumpProperties.LandingGates | server/src/analyzers/jump_analyzer.py:373-387 | landing only from the air, with the airborne count at the minimum, rise < `max(5, 0.01 h)` and velocity below the downward gate; it records the time, zeroes the steady count and finalises on this pose |
| JumpProperties.LandingFrame | server/src/analyzers/jump_analyzer.py:373-387 | a landing frame is the measured state with one more airborne frame, landed and finalised |
| JumpProperties.AirborneCount | server/src/analyzers/jump_analyzer.py:373-374 | in the air, the airborne count grows by one exactly on frames where the nose is seen |
| JumpAnalyzers.JumpAnalyzer.constructor | server/src/analyzers/jump_analyzer.py:236-251 | the fields start at `_init_state`'s values, with the invariant; `rd` chooses the takeoff readiness test (`UpdatedCount` as written, `PriorCount` corrected) |
| JumpAnalyzers.JumpAnalyzer.ResetState | server/src/analyzers/jump_analyzer.py:262-270 | clears phase, baseline, peak, previous rise, airborne count, history and steady count, and nothing else |
| JumpAnalyzers.JumpAnalyzer.FinalizeJump | server/src/analyzers/jump_analyzer.py:272-288 | sets the last result to `Finalize` of the peak on this pose, and nothing else |
| JumpAnalyzers.JumpAnalyzer.ReadFrame | server/src/analyzers/jump_analyzer.py:290-387 | a failed read changes nothing; otherwise the new state is `StepWith(rd, …)` of the old: `JumpStepAsWritten` for the code as written, `JumpStep` for the corrected test; the invariant is kept |
| JumpAnalyzers.JumpAnalyzer.Gestures | server/src/analyzers/jump_analyzer.py:316-335 | the arm gesture, then the reset gesture |
| JumpAnalyzers.JumpAnalyzer.TrackNose | server/src/analyzers/jump_analyzer.py:338-387 | the tracking block equals `Track(rd, …)`: the takeoff test reads the steady count after this frame's update (as written) or before it (corrected) |
| JumpAnalyzers.JumpAnalyzer.MeasureNose | server/src/analyzers/jump_analyzer.py:340-357 | push, steady count, rise, velocity, previous rise and peak as `Measure` says |
| JumpAnalyzers.JumpAnalyzer.PushNose | server/src/analyzers/jump_analyzer.py:340-343 | append and pop past `max(5, window)`, returning the mean |
| MobileJump.DecimalRoundTrip | server/src/analyzers/jump_analyzer.py:488 | the decimal digits written for a height read back as that number |
| MobileJump.HeightMessageNamesHeight | server/src/analyzers/jump_analyzer.py:488 | "Jump Height: " then digits then " px", the digits being the whole pixels of the height |
| MobileJump.NatToDecimal | server/src/analyzers/jump_analyzer.py:488 | the decimal digits `str` writes for a whole number; see `DecimalRoundTrip` |
| MobileJump.HeightMessage | server/src/analyzers/jump_analyzer.py:488 | definition of the height message; see `HeightMessageNamesHeight` |
| MobileJump.AnklesVisible | server/src/analyzers/jump_analyzer.py:471 | definition: both ankles more visible than 0.7; see `UnseenAnklesOnlySetFeedback` |
| MobileJump.FrameBaseline | server/src/analyzers/jump_analyzer.py:476-477 | definition of the baseline in use, the first smoothed height when none was set; see `BaselineDrifts` |
| MobileJump.JumpPixels | server/src/analyzers/jump_analyzer.py:480 | definition of the rise in pixels; see `RisingEdgeCountsOnce` |
| MobileJump.MobileJumpStep | server/src/analyzers/jump_analyzer.py:450-498 | definition of one phone frame; see `MobileStepKeepsValid`, `RisingEdgeCountsOnce`, `MaxHeightNeverDrops` and `BaselineDrifts` |
| MobileJump.RouteReset | original_files/app.py:573-577 | definition of the route's jump reset; see `RouteResetKeepsValid` and `RouteResetMidJumpUnordersHeights` |
| MobileJumpProperties.MobileInitialIsValid | server/src/analyzers/jump_analyzer.py:442-448 | the initial fields satisfy the invariant and the order of heights |
| MobileJumpProperties.MobileStepKeepsValid | server/src/analyzers/jump_analyzer.py:466-498 | a frame keeps: jumping exactly above 30 px of current height, zero height when not jumping, at most five readings, best height non-negative, current ≤ best |
| MobileJumpProperties.MobileRunKeepsValid | server/src/analyzers/jump_analyzer.py:450-498 | any run of frames keeps the invariant and the order of heights |
| MobileJumpProperties.UnseenAnklesOnlySetFeedback | server/src/analyzers/jump_analyzer.py:495-498 | a frame without both ankles above 0.7 only sets "Please make your full body visible" |
| MobileJumpProperties.RisingEdgeCountsOnce | original_files/app.py:230-233 | jumping exactly when above 30 px; the count rises by one exactly on a rising edge |
| MobileJumpProperties.CurrentHeightOnEdges | original_files/app.py:234-240 | the falling edge resets the current height to 0; during a jump it never drops |
| MobileJumpProperties.MaxHeightNeverDrops | original_files/app.py:235 | the best height never decreases and is at least every height above the threshold |
| MobileJumpProperties.BaselineDrifts | original_files/app.py:224-243 | the baseline starts at the first smoothed height, stays put during a jump and drifts as `0.1·smooth + 0.9·baseline` otherwise |
| MobileJumpProperties.WindowIsLatest | original_files/app.py:220-222 | the smoothed ankle height is the mean of the latest five mean ankle heights |
| MobileJumpProperties.JumpFeedbackNamesHeight | original_files/app.py:234-236 | during a jump the feedback names its current height, which is above 30 |
| MobileJumpProperties.RouteResetKeepsValid | original_files/app.py:573-577 | the route's jump reset zeroes the count and clears the baseline, and keeps the invariant |
| MobileJumpProperties.RouteResetMidJumpUnordersHeights | original_files/app.py:573-577 | mid-jump, the route's reset zeroes the best height but not the current one, which then exceeds it |
| JumpAnalyzers.JumpAnalyzerMobile.constructor | server/src/analyzers/jump_analyzer.py:442-448 | the fields start at their `__init__` values |
| JumpAnalyzers.JumpAnalyzerMobile.ProcessFrame | server/src/analyzers/jump_analyzer.py:450-498 | the new state is `MobileJumpStep` of the old, and the invariant is kept |
| JumpAnalyzers.JumpAnalyzerMobile.CountFrame | server/src/analyzers/jump_analyzer.py:471-494 | a visible frame's counting yields `MobileJumpStep` |
| JumpAnalyzers.JumpAnalyzerMobile.PushAnkles | server/src/analyzers/jump_analyzer.py:472-474 | pushes the mean ankle height into the five-slot window and returns its mean |
| JumpAnalyzers.JumpAnalyzerMobile.Rise | server/src/analyzers/jump_analyzer.py:482-488 | above the threshold: jumping, the count rises on a new jump, both heights take the maximum, the feedback names the height |
| JumpAnalyzers.JumpAnalyzerMobile.Settle | server/src/analyzers/jump_analyzer.py:489-494 | at or below the threshold: not jumping, height cleared on a falling edge, "Ready to jump", baseline drifts |
| JumpAnalyzers.JumpAnalyzerMobile.Reset | server/src/analyzers/jump_analyzer.py:519-527 | every field back at its `__init__` value |
| Cameras.StoppedIsValid | server/src/utils/camera_manager.py:28-35 | the initial, stopped manager satisfies the invariant |
| Cameras.SameTypeStartChangesNothing | server/src/utils/camera_manager.py:49-51 | starting the running type returns true and changes nothing |
| Cameras.StartOutcome | server/src/utils/camera_manager.py:53-69 | any other start succeeds exactly when the camera opened, running the new analyzer under the new type with no frame; a failure leaves it stopped with no type, frame or thread |
| Cameras.StartIsIdempotent | server/src/utils/camera_manager.py:49-66 | after a successful start the type is running, and starting it again is a no-op |
| Cameras.StartKeepsValid | server/src/utils/camera_manager.py:48-69 | running implies an analyzer, a type and a thread; stopped implies no type, thread or frame |
| Cameras.StoreKeepsValid | server/src/utils/camera_manager.py:93-97 | storing a captured frame keeps the invariant, and a stopped manager never gets a frame |
| Cameras.StartSpec | server/src/utils/camera_manager.py:37-69 | definition of `start`'s new state and result; see `SameTypeStartChangesNothing`, `StartOutcome`, `StartIsIdempotent` and `StartKeepsValid` |
| Cameras.StoreSpec | server/src/utils/camera_manager.py:93-97 | definition of one capture pass; see `StoreKeepsValid` |
| Cameras.CameraManager.constructor | server/src/utils/camera_manager.py:28-35 | a new manager is stopped and holds nothing |
| Cameras.CameraManager.Start | server/src/utils/camera_manager.py:37-69 | state and result are `StartSpec` of the old state, and the invariant is kept |
| Cameras.CameraManager.StopInternal | server/src/utils/camera_manager.py:71-84 | running false and analyzer, frame, type and thread all cleared |
| Cameras.CameraManager.Stop | server/src/utils/camera_manager.py:86-89 | the stopped state whatever the state before, so a second stop changes nothing |
| Cameras.CameraManager.StoreFrame | server/src/utils/camera_manager.py:93-97 | one capture pass stores a read frame only while running with an open analyzer |
| Cameras.CameraManager.GetFrame | server/src/utils/camera_manager.py:104-114 | the stored frame, or none; none whenever stopped |
| Cameras.CameraManager.IsRunning | server/src/utils/camera_manager.py:116-118 | whether it runs; when it does, an analyzer and type are held |
| Cameras.CameraManager.GetAnalyzerType | server/src/utils/camera_manager.py:120-122 | the current type, present exactly while running |
| FrameProcessing.MobileFrameProcessor.constructor | server/src/utils/frame_processor.py:27-31 | both slots start empty |
| FrameProcessing.MobileFrameProcessor.GetSquatAnalyzer | server/src/utils/frame_processor.py:33-43 | a fresh initial analyzer only when the slot is empty, otherwise the same instance; the jump slot is untouched |
| FrameProcessing.MobileFrameProcessor.GetJumpAnalyzer | server/src/utils/frame_processor.py:45-55 | a fresh initial analyzer only when the slot is empty, otherwise the same instance; the squat slot is untouched |
| FrameProcessing.MobileFrameProcessor.ResetSquatAnalyzer | server/src/utils/frame_processor.py:57-60 | the squat slot is filled and its analyzer is back at its initial state; an existing one is kept |
| FrameProcessing.MobileFrameProcessor.ResetJumpAnalyzer | server/src/utils/frame_processor.py:62-65 | the jump slot is filled and its analyzer is back at its initial state; an existing one is kept |
| FrameProcessing.MobileFrameProcessor.ResetAnalyzer | original_files/app.py:560-583 | squat mode resets only the squat counters, sequence and stage, and leaves an existing jump analyzer's state unchanged; any other mode resets only the jump count, best height and baseline, and leaves an existing squat analyzer's state unchanged |

## Left out

- Pose estimation (MediaPipe), landmark lookup by name, and the angle computations
  (`arctan2` in `_calculate_angle`, `acos` in the cheat detector): angles are inputs, and
  the jump landmarks carry their normalised position and visibility.
- OpenCV, which is foreign-library I/O: camera opening and auto-detection, `cap.read`,
  colour conversion, drawing, text overlays and JPEG encoding. A failed read is `None`
  and the returned image is not modelled.
- The threads and locks. Every operation is modelled as one sequential step:
  - `_capture_loop` is reduced to one pass that stores a frame (`StoreFrame`);
  - the loop's `break` on an exception is left out;
  - `thread.join` timeouts and `_speech_worker` are left out;
  - the unlocked `get_frame` of the original app is left out.
- Speech synthesis (pyttsx3). Only the dedup in front of the queue is modelled.
- Flask routes, JSON and base64 handling, HTML and `server/run.py`. Of
  `/reset_analyzer`, only its field resets are modelled; the posted `mode` is an input.
- `server/config/settings.py` and environment loading: the jump constants are the
  `JumpConfig` parameter.
- The wall clock, `prev_time`, the FPS average and the debug fields: `now` and `dt` are
  inputs.
- Floating point is modelled as exact reals. No rounding, NaN or infinity is modelled.
- Exceptions in `release()` (swallowed in the source) are not modelled: the analyzer is
  an opaque value to the manager.
- Cameras.CameraManager.Start: `thread.start()` raising after `running` was set is not
  modelled. The other exception paths of `start` (the constructor raising, `is_opened()`
  raising) are.
- MobileJumpProperties.MobileStepKeepsValid: the order "current height ≤ best height" is
  kept by frames and `reset`. It is broken by the route's jump reset
  (`RouteResetMidJumpUnordersHeights`), so it is not part of the class invariant.

## Findings

| source | as written | input that shows it | evidently intended | confidence | as-written member | corrected member |
|---|---|---|---|---|---|---|
| server/src/analyzers/jump_analyzer.py:345-372 (and original_files/jump.py:241-266) | `ready_to_jump = steady_frames >= 5` is read after this frame's steady update. That update keeps the count only when the smoothed nose is within 4 px of the baseline, so a ready frame has a rise below 4 and can never exceed `max(8, 0.015·h)`; no jump ever takes off | `ReadyToJump` (armed, baseline 200, five steady frames at 200), then a frame with the nose at 100 px of 360 (`Leap`): rise 20 > 8, velocity 600 > 90, yet the phase stays armed | takeoff gated on the steadiness reached before the jump frame | not executed | JumpProperties.AsWrittenNeverTakesOff | JumpProperties.CorrectedTakesOff |
