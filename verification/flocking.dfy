/**
 The `FlockingBehaviour` component: its population property, the initial
 population built by `Awake`, and the frame `Update` that gates the job on the
 tick timer and copies the transforms between the managed render list and the
 native buffer the job works on.
 */
module Flocking {
  import opened Geometry
  import Int32
  import NeighbourWindow
  import RepulsionAccumulator
  import Ticking
  import UpdateJob

  const PopulationFloor: int := 200
  const PopulationCeiling: int := 100000

  /**
   The component's state. `configPopulation` is the population stored in the
   shared config asset, `render` the managed `_listBoidsTRS`, `native` the
   `_NativeListBoidsTRS` the job reads and writes.
   */
  datatype Flock = Flock(configPopulation: int, maxPopulation: int, settings: UpdateJob.Settings,
                         render: seq<Trs>, native: seq<Trs>, sinceLastTick: real)

  /**
   The `MaxPopulation` setter: clamps the requested value into the population
   range and mirrors the stored value into the config asset.
   */
  function SetMaxPopulation(f: Flock, value: int): (r: Flock)
    ensures PopulationFloor <= r.maxPopulation <= PopulationCeiling
    ensures PopulationFloor <= value <= PopulationCeiling ==> r.maxPopulation == value
    ensures value < PopulationFloor ==> r.maxPopulation == PopulationFloor
    ensures value > PopulationCeiling ==> r.maxPopulation == PopulationCeiling
    ensures r.configPopulation == r.maxPopulation
    ensures r.settings == f.settings && r.render == f.render && r.native == f.native
    ensures r.sinceLastTick == f.sinceLastTick
  {
    var stored := Int32.Clamp(value, PopulationFloor, PopulationCeiling);
    f.(maxPopulation := stored, configPopulation := stored)
  }

  /** Setting the population twice to the same value is the same as setting it once. */
  lemma SetMaxPopulationIdempotent(f: Flock, value: int)
    ensures SetMaxPopulation(SetMaxPopulation(f, value), SetMaxPopulation(f, value).maxPopulation)
            == SetMaxPopulation(f, value)
  {
  }

  /**
   `Awake`: reads the population from the config asset without clamping it
   and adds that many boids at the origin, with the identity rotation and unit
   scale. A negative config value adds none.
   */
  method Awake(configPopulation: int, settings: UpdateJob.Settings) returns (f: Flock)
    requires Int32.InRange(configPopulation)
    ensures f.maxPopulation == configPopulation == f.configPopulation
    ensures |f.render| == if configPopulation < 0 then 0 else configPopulation
    ensures forall i :: 0 <= i < |f.render| ==> f.render[i] == Origin
    ensures f.native == [] && f.sinceLastTick == 0.0 && f.settings == settings
  {
    var boids: seq<Trs> := [];
    var i := 0;
    while i < configPopulation
      invariant 0 <= i <= if configPopulation < 0 then 0 else configPopulation
      invariant |boids| == i
      invariant forall k :: 0 <= k < |boids| ==> boids[k] == Origin
    {
      boids := boids + [Origin];
      i := i + 1;
    }
    f := Flock(configPopulation, configPopulation, settings, boids, [], 0.0);
  }

  /**
   `UpdateBoidsData`: the native buffer becomes a copy of the render list
   (`SetCapacity` followed by `CopyFrom` a temporary array).
   */
  function UpdateBoidsData(render: seq<Trs>): seq<Trs> {
    render
  }

  /**
   `UpdateRenderList`: writes each native slot back into the render list
   slot of the same index, for every index of the render list.
   */
  method UpdateRenderList(render: seq<Trs>, native: seq<Trs>) returns (r: seq<Trs>)
    requires |render| <= |native|
    ensures |r| == |render|
    ensures forall i :: 0 <= i < |r| ==> r[i] == native[i]
  {
    r := render;
    var i := 0;
    while i < |render|
      invariant 0 <= i <= |render| == |r|
      invariant forall k :: 0 <= k < i ==> r[k] == native[k]
    {
      r := r[i := native[i]];
      i := i + 1;
    }
  }

  /**
   One frame of `Update`. The timer accumulates the frame time; once it
   reaches the tick delay it restarts from zero and the frame copies the
   render list into the native buffer, runs the job over it and copies the
   result back, so that afterwards both lists hold the same transforms, each
   boid's as `UpdateJob.RunJob` describes it. Otherwise only the timer changes.
   */
  method Update(f: Flock, deltaTime: real, draws: seq<UpdateJob.Draws>,
                length: Vec3 -> real, steer: UpdateJob.Steering)
    returns (r: Flock, ticked: bool, ghost views: seq<seq<Trs>>, ghost windows: seq<NeighbourWindow.Window>,
             ghost reps: seq<RepulsionAccumulator.Repulsion>)
    requires |f.render| <= Int32.Max
    requires |draws| == |f.render|
    requires forall i :: 0 <= i < |draws| ==> UpdateJob.ValidDraws(draws[i], |f.render|, f.settings.searchRange)
    ensures ticked <==> f.sinceLastTick + deltaTime >= Ticking.TickDelay
    ensures r.sinceLastTick < Ticking.TickDelay
    ensures !ticked ==> r == f.(sinceLastTick := f.sinceLastTick + deltaTime)
    ensures ticked ==> r.sinceLastTick == 0.0 && r.render == r.native && |r.render| == |f.render|
    ensures ticked ==> forall j :: 0 <= j < |r.render| ==>
              UpdateJob.Stepped(f.render[j], r.render[j], f.settings, deltaTime)
    ensures ticked ==> |views| == |windows| == |reps| == |f.render|
    ensures ticked ==> forall j :: 0 <= j < |r.render| ==>
              UpdateJob.Executed(f.render[j], r.render[j], views[j], windows[j], reps[j],
                                 f.settings, deltaTime, draws[j], length, steer)
    ensures ticked ==> forall j :: 0 <= j < |r.render| ==> UpdateJob.ViewBefore(views[j], j, f.render, r.render)
    ensures r.maxPopulation == f.maxPopulation && r.configPopulation == f.configPopulation
    ensures r.settings == f.settings
  {
    var step := Ticking.AdvanceTimer(f.sinceLastTick, deltaTime);
    ticked := step.ticked;
    views, windows, reps := [], [], [];
    if !ticked {
      r := f.(sinceLastTick := step.sinceLastTick);
      return;
    }
    var native := UpdateBoidsData(f.render);
    native, views, windows, reps := UpdateJob.RunJob(native, f.settings, deltaTime, draws, length, steer);
    var render := UpdateRenderList(f.render, native);
    r := f.(sinceLastTick := step.sinceLastTick, native := native, render := render);
  }
}
