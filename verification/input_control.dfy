/**
 The population control of `InputControl`: pushing the stick down asks for
 200 boids fewer, any other stick position for 200 more, and the request goes
 through the clamping `MaxPopulation` setter. The new population only takes
 effect on the next `Awake`, when the scene is reloaded.
 */
module InputControl {
  import Int32
  import opened Flocking

  const PopulationStep: int := 200

  /** The value handed to the setter, computed in unchecked 32-bit arithmetic. */
  function RequestedPopulation(current: int, stickY: real): int {
    if stickY < 0.0 then Int32.Wrap(current - PopulationStep) else Int32.Wrap(current + PopulationStep)
  }

  predicate InPopulationRange(p: int) {
    PopulationFloor <= p <= PopulationCeiling
  }

  /** `OnSetPopulation`: one step of the population control. */
  function OnSetPopulation(f: Flock, stickY: real): (r: Flock)
    requires Int32.InRange(f.maxPopulation)
    ensures InPopulationRange(r.maxPopulation) && r.configPopulation == r.maxPopulation
    ensures r.render == f.render && r.native == f.native && r.sinceLastTick == f.sinceLastTick
    ensures r.settings == f.settings
    ensures InPopulationRange(f.maxPopulation) ==>
              -PopulationStep <= r.maxPopulation - f.maxPopulation <= PopulationStep
    ensures InPopulationRange(f.maxPopulation) && stickY < 0.0 ==>
              r.maxPopulation == if f.maxPopulation - PopulationStep < PopulationFloor
                                 then PopulationFloor else f.maxPopulation - PopulationStep
    ensures InPopulationRange(f.maxPopulation) && stickY >= 0.0 ==>
              r.maxPopulation == if f.maxPopulation + PopulationStep > PopulationCeiling
                                 then PopulationCeiling else f.maxPopulation + PopulationStep
  {
    SetMaxPopulation(f, RequestedPopulation(f.maxPopulation, stickY))
  }

  /** At the bounds the step saturates: down from the floor and up from the ceiling change nothing. */
  lemma StepSaturatesAtBounds(f: Flock, stickY: real)
    requires Int32.InRange(f.maxPopulation)
    ensures f.maxPopulation == PopulationFloor && stickY < 0.0 ==>
              OnSetPopulation(f, stickY).maxPopulation == PopulationFloor
    ensures f.maxPopulation == PopulationCeiling && stickY >= 0.0 ==>
              OnSetPopulation(f, stickY).maxPopulation == PopulationCeiling
  {
  }

  /** A step down followed by a step up restores any population from 400 to the ceiling. */
  lemma DownThenUpRestores(f: Flock, down: real, up: real)
    requires 2 * PopulationStep <= f.maxPopulation <= PopulationCeiling
    requires down < 0.0 && up >= 0.0
    ensures OnSetPopulation(OnSetPopulation(f, down), up) == SetMaxPopulation(f, f.maxPopulation)
  {
  }

  /** A step up followed by a step down restores any population from the floor to 99800. */
  lemma UpThenDownRestores(f: Flock, up: real, down: real)
    requires PopulationFloor <= f.maxPopulation <= PopulationCeiling - PopulationStep
    requires down < 0.0 && up >= 0.0
    ensures OnSetPopulation(OnSetPopulation(f, up), down) == SetMaxPopulation(f, f.maxPopulation)
  {
  }

  /**
   A population above the ceiling, which `Awake` can load from the config
   asset because it does not clamp, is brought back to the ceiling by any step,
   even an upward one.
   */
  lemma OversizedPopulationDropsToCeiling(f: Flock, stickY: real)
    requires PopulationCeiling + PopulationStep < f.maxPopulation <= Int32.Max - PopulationStep
    ensures OnSetPopulation(f, stickY).maxPopulation == PopulationCeiling
  {
  }

  /**
   Just above the ceiling, a step down is an ordinary step: the result lands
   back in range 200 lower instead of at the ceiling.
   */
  lemma SlightlyOversizedStepsDown(f: Flock, stickY: real)
    requires PopulationCeiling < f.maxPopulation <= PopulationCeiling + PopulationStep
    requires stickY < 0.0
    ensures OnSetPopulation(f, stickY).maxPopulation == f.maxPopulation - PopulationStep
  {
  }

  /**
   Within 200 of the largest `int`, a step up overflows to a large negative
   request, which the setter raises to the floor.
   */
  lemma NearMaxIntStepUpWrapsToFloor(f: Flock, stickY: real)
    requires Int32.Max - PopulationStep < f.maxPopulation <= Int32.Max
    requires stickY >= 0.0
    ensures OnSetPopulation(f, stickY).maxPopulation == PopulationFloor
  {
    assert RequestedPopulation(f.maxPopulation, stickY) == f.maxPopulation + PopulationStep - Int32.Modulus;
  }

  /**
   The mirror case at the other end: within 200 of the smallest `int`, a step
   down overflows to a large positive request, which the setter lowers to the
   ceiling.
   */
  lemma NearMinIntStepDownWrapsToCeiling(f: Flock, stickY: real)
    requires Int32.Min <= f.maxPopulation < Int32.Min + PopulationStep
    requires stickY < 0.0
    ensures OnSetPopulation(f, stickY).maxPopulation == PopulationCeiling
  {
    assert RequestedPopulation(f.maxPopulation, stickY) == f.maxPopulation - PopulationStep + Int32.Modulus;
  }
}
