/**
 * The jump counter for frames sent from a phone (`JumpAnalyzerMobile`,
 * identical in the server package and in `original_files/app.py`): the mean
 * ankle height over the last five frames, compared with a baseline that
 * drifts towards it while standing; every rise of more than 30 pixels above
 * the baseline counts one jump.
 */
module MobileJump {
  import opened Wrappers
  import opened Smoothing
  import opened JumpRules

  /** The two ankle landmarks of a detected pose. */
  datatype Ankles = Ankles(left: Landmark, right: Landmark)

  /** The fields of `JumpAnalyzerMobile` that `process_frame` reads and writes. */
  datatype MobileJumpState = MobileJumpState(
    baselineY: Option<real>,
    maxJumpHeight: real,
    jumpCount: nat,
    isJumping: bool,
    currentJumpHeight: real,
    feedback: Option<string>,
    yHistory: seq<real>)

  const AnkleVisibility: real := 0.7
  /** `deque(maxlen=5)`. */
  const YHistoryLength: nat := 5
  const JumpThresholdPixels: real := 30.0

  const BodyNotVisibleMessage: string := "Please make your full body visible"
  const ReadyMessage: string := "Ready to jump"
  const HeightPrefix: string := "Jump Height: "
  const PixelSuffix: string := " px"

  /** `__init__` and `reset`. */
  const MobileInitial: MobileJumpState := MobileJumpState(None, 0.0, 0, false, 0.0, None, [])

  predicate IsDigit(c: char)
  {
    '0' <= c <= '9'
  }

  predicate AllDigits(s: string)
  {
    forall i :: 0 <= i < |s| ==> IsDigit(s[i])
  }

  function DigitChar(d: nat): (c: char)
    requires d < 10
    ensures IsDigit(c) && c as int - '0' as int == d
  {
    ('0' as int + d) as char
  }

  /** `str(n)` for a natural number: its decimal digits, most significant first. */
  function NatToDecimal(n: nat): (s: string)
    ensures |s| >= 1 && AllDigits(s)
    decreases n
  {
    if n < 10 then [DigitChar(n)] else NatToDecimal(n / 10) + [DigitChar(n % 10)]
  }

  /** The number a string of decimal digits denotes. */
  function DecimalValue(s: string): nat
    requires AllDigits(s)
  {
    if s == [] then 0
    else
      assert AllDigits(s[..|s| - 1]);
      DecimalValue(s[..|s| - 1]) * 10 + (s[|s| - 1] as int - '0' as int)
  }

  /** Reading back the digits of `n` gives `n`. */
  lemma {:induction false} DecimalRoundTrip(n: nat)
    ensures DecimalValue(NatToDecimal(n)) == n
    decreases n
  {
    var s := NatToDecimal(n);
    if n >= 10 {
      DecimalRoundTrip(n / 10);
      assert s[..|s| - 1] == NatToDecimal(n / 10);
    }
  }

  /** `f"Jump Height: {int(height)} px"` for a non-negative height, where `int` is the integer part. */
  function HeightMessage(height: real): string
    requires height >= 0.0
  {
    HeightPrefix + NatToDecimal(height.Floor as nat) + PixelSuffix
  }

  /**
   * The height message is the prefix, a run of digits and the suffix, and
   * the digits read back as the whole pixels of the height.
   */
  lemma HeightMessageNamesHeight(height: real)
    requires height >= 0.0
    ensures var msg := HeightMessage(height);
            && |msg| > |HeightPrefix| + |PixelSuffix|
            && msg[..|HeightPrefix|] == HeightPrefix
            && msg[|msg| - |PixelSuffix|..] == PixelSuffix
            && AllDigits(msg[|HeightPrefix|..|msg| - |PixelSuffix|])
            && DecimalValue(msg[|HeightPrefix|..|msg| - |PixelSuffix|]) as real <= height
            && height < DecimalValue(msg[|HeightPrefix|..|msg| - |PixelSuffix|]) as real + 1.0
  {
    var digits := NatToDecimal(height.Floor as nat);
    var msg := HeightMessage(height);
    assert msg[|HeightPrefix|..|msg| - |PixelSuffix|] == digits;
    DecimalRoundTrip(height.Floor as nat);
  }

  /** Both ankles are seen with visibility above 0.7. */
  predicate AnklesVisible(a: Ankles)
  {
    a.left.visibility > AnkleVisibility && a.right.visibility > AnkleVisibility
  }

  /** The ankle window after this frame's mean ankle height is pushed. */
  function PushedHistory(s: MobileJumpState, a: Ankles): (r: seq<real>)
    ensures |r| > 0
  {
    Push(s.yHistory, (a.left.y + a.right.y) / 2.0, YHistoryLength)
  }

  /** The baseline this frame compares against: the stored one, or the smoothed height on the first visible frame. */
  function FrameBaseline(s: MobileJumpState, a: Ankles): real
  {
    if s.baselineY.None? then Mean(PushedHistory(s, a)) else s.baselineY.value
  }

  /** `jump_pixels`: how far the smoothed ankles are above the baseline, in pixels of a frame `frameHeight` tall. */
  function JumpPixels(s: MobileJumpState, a: Ankles, frameHeight: nat): real
  {
    (FrameBaseline(s, a) - Mean(PushedHistory(s, a))) * (frameHeight as real)
  }

  /**
   * `JumpAnalyzerMobile.process_frame` on one frame: `ankles` is `None` when
   * no pose was detected, `frameHeight` the height of the image.
   */
  function MobileJumpStep(s: MobileJumpState, ankles: Option<Ankles>, frameHeight: nat): MobileJumpState
  {
    if ankles.None? || !AnklesVisible(ankles.value) then
      s.(feedback := Some(BodyNotVisibleMessage))
    else
      var a := ankles.value;
      var history := PushedHistory(s, a);
      var smooth := Mean(history);
      var baseline := FrameBaseline(s, a);
      var jump := JumpPixels(s, a, frameHeight);
      if jump > JumpThresholdPixels then
        var current := Max(s.currentJumpHeight, jump);
        s.(yHistory := history, baselineY := Some(baseline),
           isJumping := true,
           jumpCount := if s.isJumping then s.jumpCount else s.jumpCount + 1,
           currentJumpHeight := current,
           maxJumpHeight := Max(s.maxJumpHeight, jump),
           feedback := Some(HeightMessage(current)))
      else
        s.(yHistory := history,
           isJumping := false,
           currentJumpHeight := if s.isJumping then 0.0 else s.currentJumpHeight,
           feedback := Some(ReadyMessage),
           baselineY := Some(smooth * 0.1 + baseline * 0.9))
  }

  /** Successive frames. */
  function MobileJumpRun(s: MobileJumpState, frames: seq<(Option<Ankles>, nat)>): MobileJumpState
    decreases |frames|
  {
    if frames == [] then s
    else MobileJumpRun(MobileJumpStep(s, frames[0].0, frames[0].1), frames[1..])
  }

  /**
   * What every state reached by frames, `reset` and the counter reset of
   * the `/reset_analyzer` route satisfies: a jump in progress is above the
   * threshold, none in progress has height zero, the window holds at most
   * five readings, and the best height is not negative.
   */
  ghost predicate MobileValid(s: MobileJumpState)
  {
    && (s.isJumping ==> s.currentJumpHeight > JumpThresholdPixels)
    && (!s.isJumping ==> s.currentJumpHeight == 0.0)
    && |s.yHistory| <= YHistoryLength
    && s.maxJumpHeight >= 0.0
  }

  /** The current jump is never higher than the best one; frames and `reset` keep this, the route's counter reset does not. */
  ghost predicate HeightsOrdered(s: MobileJumpState)
  {
    s.currentJumpHeight <= s.maxJumpHeight
  }

  /** The counter reset of the `/reset_analyzer` route in jump mode. */
  function RouteReset(s: MobileJumpState): MobileJumpState
  {
    s.(jumpCount := 0, maxJumpHeight := 0.0, baselineY := None)
  }
}
