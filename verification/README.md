# Boid flocking: the integer and index logic of `FlockingBehaviour`

This project models the discrete control logic of a Unity boid simulation:

- the population property, whose setter clamps the population into `[200, 100000]` and mirrors it into the shared config asset;
- the population control, which steps the population by ±200 through that setter;
- `Awake`, which fills the transform list with boids at the origin;
- the frame `Update`, which gates the simulation on a tick timer and copies transforms from the managed render list into the native buffer and back;
- the per-boid `UpdateJob.Execute`:
  - it moves the boid forward;
  - it draws a random window of neighbours and scans it;
  - each scanned neighbour is either jitter (closer than 0.02) or a push weighted by `1 / (1 + d)`;
  - it writes only the boid's own slot.

Module layout, one file each:

| module | file | models |
|---|---|---|
| `Int32` | int32.dfy | unchecked C# `int` wrap-around, integer `Mathf.Clamp` |
| `Geometry` | geometry.dfy | vectors, quaternions, the TRS transform, the forward axis |
| `NeighbourWindow` | neighbour_window.dfy | the two `NextInt` draws and the clamped window |
| `RepulsionAccumulator` | repulsion.dfy | `SpecialFunc`, the per-neighbour branch, the scan loop |
| `UpdateJob` | update_job.dfy | `Execute` and the job over the whole buffer |
| `Ticking` | ticking.dfy | the `timeSinceLastTick` / `tickDelay` timer |
| `Flocking` | flocking.dfy | the component state, setter, `Awake`, buffer copies, `Update` |
| `InputControl` | input_control.dfy | `OnSetPopulation` |

Modelling choices:

- Random draws are parameters. `NextIntDraw(lo, hi, r)` admits exactly what `Random.NextInt(lo, hi)` can return: `[lo, hi)`, or `lo` when `lo == hi`. When `lo > hi` the generator promises nothing, so any `int` is admitted. A jitter draw is any real in `[-2, 2)`, one pair per buffer slot. The draws are arbitrary, so this reaches the same outcomes as one sequential stream.
- `startIndex + 1 + SearchRange` is computed with 32-bit wrap-around. Because of this, the window guarantee is proved under the stated no-overflow condition. The in-bounds guarantee needs no such condition.
- Distances are a caller-supplied `length: Vec3 -> real`, standing in for `math.length`. The source branches on `math.distance(neighbour, self)` and weights by `math.length(self - neighbour)`. These are the same quantity, and the model uses one value `length(self - neighbour)` for both.
- The target orientation is a caller-supplied `Steering` function of the advanced position, the old rotation and the accumulated repulsion. It stands in for `LookRotation`, `AngleAxis`, the homing blend and both `Quaternion.Lerp` calls.
- The job's parallel execution is modelled as one admissible schedule: slots in index order over the one shared buffer. The source uses the same buffer for reads and writes, with no double buffering. Under this schedule, a boid's own slot is never written before its own step, so every boid moves from its pre-tick transform.

Behaviour of the code worth knowing:

- The end index is drawn from `[start + 1, start + 1 + SearchRange)`, because the upper bound of `NextInt` is exclusive. A window therefore holds at most `SearchRange` neighbours.
- `Awake` does not clamp the population it reads from the config asset. Only the setter clamps, so a config above 100000 produces that many boids.
- From such an oversized population, the next control step depends on where it starts:
  - from 100001 to 100200, a step down is an ordinary step 200 lower (`InputControl.SlightlyOversizedStepsDown`);
  - from 100201 to `int.MaxValue - 200`, either step goes to 100000 (`InputControl.OversizedPopulationDropsToCeiling`);
  - within 200 of `int.MaxValue`, a step up overflows to a negative request and the setter raises it to 200 (`InputControl.NearMaxIntStepUpWrapsToFloor`).
- A negative config value gives no boids, and the mirror case holds at the other end: within 200 of `int.MinValue`, a step down overflows to a large positive request and the setter lowers it to 100000 (`InputControl.NearMinIntStepDownWrapsToCeiling`).
- A population change does not resize the live buffers. It only writes the config asset. The transform list is rebuilt by the next `Awake`, when the scene is reloaded.
- The homing factor `disFromCenter / SchoolRadius` is not clamped in the code. It relies on `Quaternion.Lerp` clamping its parameter, and it is part of the opaque steering.

## Model

| member | source | states |
|---|---|---|
| `Flocking.SetMaxPopulation` | Assets/Scripts/FlockingBehaviour.cs:42-46 | the stored population is always in [200, 100000]; in-range values are kept unchanged and out-of-range values go to the nearer bound; the config asset then holds the same value as the component; nothing else changes |
| `Flocking.SetMaxPopulationIdempotent` | Assets/Scripts/FlockingBehaviour.cs:44 | setting the population to the value the setter just stored changes nothing |
| `Int32.Clamp` | Assets/Scripts/FlockingBehaviour.cs:44 | integer clamp: the result is in range whenever the range is non-empty, in-range values are unchanged, and values below or above go to the bound they cross |
| `Int32.ClampIdempotent` | Assets/Scripts/FlockingBehaviour.cs:44 | clamping twice equals clamping once |
| `Flocking.Awake` | Assets/Scripts/FlockingBehaviour.cs:49-60 | the component takes the config population unclamped; the transform list has exactly that many entries (none if negative), each the origin / identity / unit-scale transform; the native list starts empty and the timer at 0 |
| `Flocking.UpdateRenderList` | Assets/Scripts/FlockingBehaviour.cs:132-138 | the render list keeps its length and each slot ends equal to the native slot of the same index |
| `Flocking.Update` | Assets/Scripts/FlockingBehaviour.cs:71-80 | an update runs iff accumulated time reaches `tickDelay`; it then resets the timer to 0, and afterwards render list and native buffer are equal; each boid is advanced from its own pre-tick transform with its scale kept, and its rotation is the steering of the repulsion scanned over the window its draws select in the buffer as its step read it; otherwise only the timer changes |
| `Ticking.AdvanceTimer` | Assets/Scripts/FlockingBehaviour.cs:72-75 | one frame fires iff `timer + dt >= tickDelay`; firing resets the timer to 0; the timer always stays below `tickDelay` and never goes negative for non-negative frame times |
| `Ticking.TicksBoundedByElapsedTime` | Assets/Scripts/FlockingBehaviour.cs:72-75 | over any run of frames, `ticks * tickDelay + remaining timer <= start timer + total frame time`: updates never outpace the tick delay |
| `Ticking.SlowFramesAlwaysTick` | Assets/Scripts/FlockingBehaviour.cs:72-75 | when every frame lasts at least `tickDelay`, every frame runs an update and the timer ends at 0 |
| `Int32.Wrap` | Assets/Scripts/InputControl.cs:47 | the unchecked `int` result is a 32-bit value congruent to the exact one, and equal to it when no overflow occurs |
| `NeighbourWindow.SelectWindow` | Assets/Scripts/FlockingBehaviour.cs:174-176 | the window starts at the start draw and covers only buffer indices; an empty buffer gives an empty window; with at least one boid, `SearchRange >= 1` and no overflow, `0 <= start < end <= Length` and `1 <= end - start <= SearchRange` |
| `NeighbourWindow.EveryShortWindowIsReachable` | Assets/Scripts/FlockingBehaviour.cs:174-176 | conversely, every in-bounds window of 1 to `SearchRange` indices is produced by some pair of valid draws |
| `RepulsionAccumulator.Falloff` | Assets/Scripts/FlockingBehaviour.cs:236-239 | `SpecialFunc(d)` is positive, at most 1 for `d >= 0`, and equals 1 exactly at `d = 0` |
| `RepulsionAccumulator.FalloffStrictlyDecreasing` | Assets/Scripts/FlockingBehaviour.cs:236-239 | the closer the neighbour, the stronger the repulsion: `SpecialFunc` is strictly decreasing on `d >= 0` |
| `RepulsionAccumulator.Contribution` | Assets/Scripts/FlockingBehaviour.cs:190-203 | a neighbour closer than 0.02 adds jitter only and no direction; any other adds direction only and no jitter |
| `RepulsionAccumulator.AccumulateSplitsByDistance` | Assets/Scripts/FlockingBehaviour.cs:184-204 | the accumulated angles are the sums over the near neighbours alone and the accumulated direction the sum over the far neighbours alone, so each neighbour feeds exactly one branch |
| `RepulsionAccumulator.AllNearMeansNoPush` | Assets/Scripts/FlockingBehaviour.cs:190-195 | a window of near neighbours only leaves the repulsion direction zero |
| `RepulsionAccumulator.NoneNearMeansNoJitter` | Assets/Scripts/FlockingBehaviour.cs:196-203 | a window with no near neighbour leaves both jitter angles zero |
| `RepulsionAccumulator.NearJitterBounded` | Assets/Scripts/FlockingBehaviour.cs:193-194 | the jitter about either axis, summed over the near neighbours of a window, is at most `2 * abs` of that axis's `RepelAngle` component per scanned neighbour, added up one neighbour at a time |
| `RepulsionAccumulator.JitterBounded` | Assets/Scripts/FlockingBehaviour.cs:184-195 | the accumulated jitter angle about either axis is at most twice that axis's repel angle times the window size |
| `RepulsionAccumulator.ScanWindow` | Assets/Scripts/FlockingBehaviour.cs:178-204 | the scan loop produces the accumulated repulsion of the window, split into near-neighbour jitter and far-neighbour push |
| `Geometry.Forward` | Assets/Scripts/FlockingBehaviour.cs:165 | `math.mul(q, (0, 0, 1))` written out as `v + w * t + cross(q.xyz, t)` with `t = 2 * cross(q.xyz, v)`; the identity rotation gives +z, and a unit rotation gives a unit vector (`Geometry.ForwardIsUnit`) |
| `Geometry.ForwardIsUnit` | Assets/Scripts/FlockingBehaviour.cs:165 | the forward axis `math.mul(rotation, (0, 0, 1))` of a unit quaternion is a unit vector |
| `UpdateJob.StepLengthIsSpeedTimesDeltaTime` | Assets/Scripts/FlockingBehaviour.cs:165-170 | under a unit rotation, one step moves a boid by exactly `MoveSpeed * DeltaTime` |
| `UpdateJob.FirstTickMovesAlongZ` | Assets/Scripts/FlockingBehaviour.cs:165-170 | a boid with the identity rotation, as `Awake` creates it, moves from the origin to `(0, 0, MoveSpeed * DeltaTime)` |
| `UpdateJob.Execute` | Assets/Scripts/FlockingBehaviour.cs:156-233 | only slot `index` changes; its position is moved by `forward * MoveSpeed * DeltaTime` and its scale kept; the window is the one `SelectWindow` makes of the draws, in bounds, and non-empty and at most `SearchRange` long when no overflow occurs; the repulsion is the scan of that window from the advanced position; the rotation is the steering of that repulsion |
| `UpdateJob.RunJob` | Assets/Scripts/FlockingBehaviour.cs:110-128 | the job over every index keeps the buffer length; every boid ends moved forward from its own pre-tick transform with its scale unchanged, and rotated by the steering of the repulsion its step scanned; step `j` reads the buffer with the slots before `j` already rewritten and the others as before the job |
| `InputControl.OnSetPopulation` | Assets/Scripts/InputControl.cs:44-52 | the result is in [200, 100000] and mirrored into the config; from an in-range population it differs from the old value by at most 200; a negative stick `y` steps down and any other `y`, 0 included, steps up, saturating at the bounds; nothing else changes |
| `InputControl.StepSaturatesAtBounds` | Assets/Scripts/InputControl.cs:47 | stepping down from 200 leaves 200, stepping up from 100000 leaves 100000 |
| `InputControl.DownThenUpRestores` | Assets/Scripts/InputControl.cs:47 | a step down then a step up restores any population in [400, 100000] |
| `InputControl.UpThenDownRestores` | Assets/Scripts/InputControl.cs:47 | a step up then a step down restores any population in [200, 99800] |
| `InputControl.OversizedPopulationDropsToCeiling` | Assets/Scripts/InputControl.cs:47 | an unclamped population from 100201 to `int.MaxValue - 200` is sent to 100000 by either step direction |
| `InputControl.SlightlyOversizedStepsDown` | Assets/Scripts/InputControl.cs:47 | an unclamped population from 100001 to 100200 steps down by exactly 200 |
| `InputControl.NearMaxIntStepUpWrapsToFloor` | Assets/Scripts/InputControl.cs:47 | within 200 of `int.MaxValue`, a step up wraps around and the setter clamps the result to 200 |
| `InputControl.NearMinIntStepDownWrapsToCeiling` | Assets/Scripts/InputControl.cs:47 | within 200 of `int.MinValue`, a step down wraps around and the setter clamps the result to 100000 |

## Left out

- Quaternion and vector float math in `Execute` (`LookRotation`, `AngleAxis`, `Quaternion.Lerp`, the homing factor, the TRS decomposition): single-precision geometry with no exact contract; it is the opaque `Steering` parameter, and the decomposition is taken to return what was composed.
- Single-precision rounding everywhere: positions, distances, `tickDelay` (`0.015f`) and frame times are exact reals.
- `math.length` / `math.distance`: a square root, supplied as the `length` parameter with no assumption on it.
- The internals of `Unity.Mathematics.Random`, including the fact that the job receives a copy of the component's generator: draws are parameters within their documented bounds.
- Job scheduling, batching, `handle.Complete()` and `Parallel.For`: concurrency is modelled as one sequential schedule in index order.
- Rendering (`Graphics.RenderMeshInstanced`), `OnDestroy` disposal, and the managed/native memory mechanics of `UpdateBoidsData` beyond its copying effect.
- `Flocking.UpdateBoidsData`: the copy `SetCapacity` plus `CopyFrom` performs is the identity on the sequence; its effect is stated through `Flocking.Update`.
- The ECS scripts (`FlockingSystem`, `SpawnSystem` and the authoring/baking classes), `BoidConfigSO` as a plain holder, input-action binding, the text label and the scene reload of `InputControl`.
- `NeighbourWindow.SelectWindow`: the non-empty, at-most-`SearchRange` guarantee is proved only when `Length + SearchRange` fits in 32 bits; beyond that the end-index draw has no documented range.
- `UpdateJob.Execute`: the orientation is stated only as the steering result, because its value is float geometry.
- `UpdateJob.StepLengthIsSpeedTimesDeltaTime`: holds for unit rotations only; that the steering keeps rotations unit is not proved, since `Quaternion.Lerp`'s normalisation is inside the opaque steering.
- `UpdateJob.RunJob`: other schedules of the parallel job are not modelled; under them a boid may read neighbours in a different state, but its own slot is still written only by its own step.
