/**
 The frame timer of `FlockingBehaviour.Update`: frame times accumulate until
 they reach the tick delay, then the timer restarts from zero and exactly one
 simulation update runs.
 */
module Ticking {

  /** `tickDelay`, in seconds. */
  const TickDelay: real := 0.015

  /** The timer after one frame, and whether that frame runs an update. */
  datatype Step = Step(sinceLastTick: real, ticked: bool)

  function AdvanceTimer(sinceLastTick: real, deltaTime: real): (s: Step)
    ensures s.ticked <==> sinceLastTick + deltaTime >= TickDelay
    ensures s.ticked ==> s.sinceLastTick == 0.0
    ensures !s.ticked ==> s.sinceLastTick == sinceLastTick + deltaTime
    ensures s.sinceLastTick < TickDelay
    ensures 0.0 <= sinceLastTick && 0.0 <= deltaTime ==> 0.0 <= s.sinceLastTick
  {
    var t := sinceLastTick + deltaTime;
    if t >= TickDelay then Step(0.0, true) else Step(t, false)
  }

  function Sum(xs: seq<real>): real {
    if |xs| == 0 then 0.0 else xs[0] + Sum(xs[1..])
  }

  predicate NonNegative(xs: seq<real>) {
    forall i :: 0 <= i < |xs| ==> xs[i] >= 0.0
  }

  /** The timer after a run of frames, and how many of them ran an update. */
  datatype Run = Run(sinceLastTick: real, ticks: nat)

  function RunFrames(sinceLastTick: real, frames: seq<real>): Run
    decreases |frames|
  {
    if |frames| == 0 then Run(sinceLastTick, 0)
    else
      var s := AdvanceTimer(sinceLastTick, frames[0]);
      var rest := RunFrames(s.sinceLastTick, frames[1..]);
      Run(rest.sinceLastTick, rest.ticks + if s.ticked then 1 else 0)
  }

  /**
   Updates never run faster than one per tick delay: every update consumes at
   least `TickDelay` of accumulated frame time, and what is left is on the timer.
   */
  lemma {:induction false} TicksBoundedByElapsedTime(sinceLastTick: real, frames: seq<real>)
    requires 0.0 <= sinceLastTick && NonNegative(frames)
    ensures var r := RunFrames(sinceLastTick, frames);
            r.ticks as real * TickDelay + r.sinceLastTick <= sinceLastTick + Sum(frames)
    decreases |frames|
  {
    if |frames| > 0 {
      var s := AdvanceTimer(sinceLastTick, frames[0]);
      assert NonNegative(frames[1..]) by {
        forall i | 0 <= i < |frames[1..]| ensures frames[1..][i] >= 0.0 {
          assert frames[1..][i] == frames[i + 1];
        }
      }
      TicksBoundedByElapsedTime(s.sinceLastTick, frames[1..]);
      var rest := RunFrames(s.sinceLastTick, frames[1..]);
      var k := rest.ticks as real;
      assert (rest.ticks + 1) as real * TickDelay == k * TickDelay + TickDelay;
    }
  }

  /** Frames that each last at least the tick delay run an update every time. */
  lemma {:induction false} SlowFramesAlwaysTick(sinceLastTick: real, frames: seq<real>)
    requires 0.0 <= sinceLastTick
    requires forall i :: 0 <= i < |frames| ==> frames[i] >= TickDelay
    ensures RunFrames(sinceLastTick, frames).ticks == |frames|
    ensures RunFrames(sinceLastTick, frames).sinceLastTick == (if |frames| == 0 then sinceLastTick else 0.0)
    decreases |frames|
  {
    if |frames| > 0 {
      assert frames[0] >= TickDelay;
      SlowFramesAlwaysTick(0.0, frames[1..]);
    }
  }
}
