/**
 * `MobileFrameProcessor`: one lazily created analyzer per mode for frames
 * posted by a phone (the server package's class, and the smaller class of
 * the original app, which has the two getters only), together with the
 * field resets the original app's `/reset_analyzer` route applies to those
 * analyzers. The lock is dropped: every operation is one sequential step.
 */
module FrameProcessing {
  import opened Wrappers
  import SquatRules
  import SquatProperties
  import SquatAnalyzers
  import MobileJump
  import MobileJumpProperties
  import JumpAnalyzers

  class MobileFrameProcessor {
    var squatAnalyzer: SquatAnalyzers.SquatAnalyzerMobile?
    var jumpAnalyzer: JumpAnalyzers.JumpAnalyzerMobile?

    /** Every analyzer created so far satisfies its own invariant. */
    ghost predicate Valid()
      reads this, squatAnalyzer, jumpAnalyzer
    {
      && (squatAnalyzer != null ==> squatAnalyzer.Valid())
      && (jumpAnalyzer != null ==> jumpAnalyzer.Valid())
    }

    /** `__init__`: both slots empty. */
    constructor()
      ensures squatAnalyzer == null && jumpAnalyzer == null && Valid()
    {
      squatAnalyzer, jumpAnalyzer := null, null;
    }

    /**
     * `get_squat_analyzer`: the analyzer in the squat slot, created fresh in
     * its initial state when the slot is empty; an existing one is returned
     * untouched, and the jump slot is never written.
     */
    method GetSquatAnalyzer() returns (a: SquatAnalyzers.SquatAnalyzerMobile)
      requires Valid()
      modifies this
      ensures Valid()
      ensures squatAnalyzer == a && jumpAnalyzer == old(jumpAnalyzer)
      ensures old(squatAnalyzer) != null ==> a == old(squatAnalyzer)
      ensures old(squatAnalyzer) == null ==> fresh(a) && a.State() == SquatRules.Initial
    {
      if squatAnalyzer == null {
        squatAnalyzer := new SquatAnalyzers.SquatAnalyzerMobile();
      }
      a := squatAnalyzer;
    }

    /** `get_jump_analyzer`, the same for the jump slot. */
    method GetJumpAnalyzer() returns (a: JumpAnalyzers.JumpAnalyzerMobile)
      requires Valid()
      modifies this
      ensures Valid()
      ensures jumpAnalyzer == a && squatAnalyzer == old(squatAnalyzer)
      ensures old(jumpAnalyzer) != null ==> a == old(jumpAnalyzer)
      ensures old(jumpAnalyzer) == null ==> fresh(a) && a.State() == MobileJump.MobileInitial
    {
      if jumpAnalyzer == null {
        jumpAnalyzer := new JumpAnalyzers.JumpAnalyzerMobile();
      }
      a := jumpAnalyzer;
    }

    /**
     * `reset_squat_analyzer`: create the squat analyzer if it is missing,
     * then put every one of its fields back to its initial value.
     */
    method ResetSquatAnalyzer()
      requires Valid()
      modifies this, squatAnalyzer
      ensures Valid()
      ensures squatAnalyzer != null && squatAnalyzer.State() == SquatRules.Initial
      ensures old(squatAnalyzer) != null ==> squatAnalyzer == old(squatAnalyzer)
      ensures jumpAnalyzer == old(jumpAnalyzer)
    {
      var a := GetSquatAnalyzer();
      a.Reset();
    }

    /** `reset_jump_analyzer`, the same for the jump slot. */
    method ResetJumpAnalyzer()
      requires Valid()
      modifies this, jumpAnalyzer
      ensures Valid()
      ensures jumpAnalyzer != null && jumpAnalyzer.State() == MobileJump.MobileInitial
      ensures jumpAnalyzer.Valid() && MobileJump.HeightsOrdered(jumpAnalyzer.State())
      ensures old(jumpAnalyzer) != null ==> jumpAnalyzer == old(jumpAnalyzer)
      ensures squatAnalyzer == old(squatAnalyzer)
    {
      var a := GetJumpAnalyzer();
      a.Reset();
    }

    /**
     * The `/reset_analyzer` route of the original app on this processor:
     * `mode` is the posted mode (the route uses "squat" when none is given).
     * In squat mode only the counters, the stage sequence and the stage of
     * the squat analyzer are reset; in any other mode only the jump count,
     * the best height and the baseline of the jump analyzer. Each analyzer
     * is created first if it is missing, and the other mode's analyzer is
     * left as it was.
     */
    method ResetAnalyzer(mode: string)
      requires Valid()
      modifies this, squatAnalyzer, jumpAnalyzer
      ensures Valid()
      ensures mode == "squat" ==>
                && squatAnalyzer != null && jumpAnalyzer == old(jumpAnalyzer)
                && squatAnalyzer.State() == SquatRules.CounterReset(
                     if old(squatAnalyzer) == null then SquatRules.Initial else old(squatAnalyzer.State()))
      ensures mode != "squat" ==>
                && jumpAnalyzer != null && squatAnalyzer == old(squatAnalyzer)
                && jumpAnalyzer.State() == MobileJump.RouteReset(
                     if old(jumpAnalyzer) == null then MobileJump.MobileInitial else old(jumpAnalyzer.State()))
      ensures mode == "squat" && old(jumpAnalyzer) != null ==> jumpAnalyzer.State() == old(jumpAnalyzer.State())
      ensures mode != "squat" && old(squatAnalyzer) != null ==> squatAnalyzer.State() == old(squatAnalyzer.State())
    {
      if mode == "squat" {
        var a := GetSquatAnalyzer();
        SquatProperties.CounterResetKeepsValid(a.State());
        a.correctCounter := 0;
        a.incorrectCounter := 0;
        a.sequence := [];
        a.stage := None;
      } else {
        var a := GetJumpAnalyzer();
        MobileJumpProperties.RouteResetKeepsValid(a.State());
        a.jumpCount := 0;
        a.maxJumpHeight := 0.0;
        a.baselineY := None;
      }
    }
  }
}
