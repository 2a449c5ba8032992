/**
 `UpdateJob.Execute`, the per-boid step, and the job that runs it once for
 every slot of the shared transform buffer.

 The orientation arithmetic (`LookRotation`, `AngleAxis`, the two
 `Quaternion.Lerp` blends and the homing factor) is the caller-supplied
 `Steering` function: it receives the advanced position, the old rotation and
 the accumulated repulsion, which is everything the source feeds into it that
 varies per boid.
 */
module UpdateJob {
  import opened Geometry
  import Int32
  import NeighbourWindow
  import opened RepulsionAccumulator

  /** The job's tuning fields that do not change between ticks. */
  datatype Settings = Settings(moveSpeed: real, searchRange: int, repelX: real, repelY: real)

  /** The random draws one `Execute` call consumes. */
  datatype Draws = Draws(startDraw: int, endDraw: int, jitter: seq<Jitter>)

  predicate ValidDraws(d: Draws, length: int, searchRange: int) {
    && NeighbourWindow.ValidDraws(length, searchRange, d.startDraw, d.endDraw)
    && |d.jitter| == length
    && forall k :: 0 <= k < |d.jitter| ==> ValidJitter(d.jitter[k])
  }

  /** The repulsion the scan of window `w` accumulates for a boid at `self`. */
  function ScanResult(buffer: seq<Trs>, self: Vec3, length: Vec3 -> real, d: Draws, s: Settings,
                      w: NeighbourWindow.Window): Repulsion
    requires |d.jitter| == |buffer| && 0 <= w.start && w.end <= |buffer|
  {
    Accumulate(Scan(self, buffer, length, d.jitter, s.repelX, s.repelY), w.start, w.end)
  }

  type Steering = (Vec3, Quat, Repulsion) -> Quat

  /** The boid's position moved along its forward axis for one frame. */
  function Advanced(t: Trs, s: Settings, deltaTime: real): Vec3 {
    Add(t.position, Scale(Forward(t.rotation), s.moveSpeed * deltaTime))
  }

  /** A boid facing the identity rotation, as `Awake` creates it, moves straight along +z. */
  lemma FirstTickMovesAlongZ(s: Settings, deltaTime: real)
    ensures Advanced(Origin, s, deltaTime) == Vec3(0.0, 0.0, s.moveSpeed * deltaTime)
  {
  }

  /** Under any unit rotation a boid moves exactly `MoveSpeed * DeltaTime` per step. */
  lemma StepLengthIsSpeedTimesDeltaTime(t: Trs, s: Settings, deltaTime: real)
    requires NormSq(t.rotation) == 1.0
    ensures var moved := Sub(Advanced(t, s, deltaTime), t.position);
            Dot(moved, moved) == (s.moveSpeed * deltaTime) * (s.moveSpeed * deltaTime)
  {
    var k := s.moveSpeed * deltaTime;
    var f := Forward(t.rotation);
    ForwardIsUnit(t.rotation);
    ScaledUnitLength(f, k);
    assert Sub(Add(t.position, Scale(f, k)), t.position) == Scale(f, k);
  }

  /** Slot `after` is slot `before` advanced by one frame, with the scale carried through. */
  predicate Stepped(before: Trs, after: Trs, s: Settings, deltaTime: real) {
    after.position == Advanced(before, s, deltaTime) && after.scale == before.scale
  }

  /**
   What `Execute` does to one boid whose slot held `before`, given the buffer
   `seen` it read: slot `after` is advanced with its scale kept, the window is
   the one the draws select in `seen`, the repulsion is the scan of that
   window, and the rotation is the steering of that repulsion.
   */
  predicate Executed(before: Trs, after: Trs, seen: seq<Trs>, w: NeighbourWindow.Window, rep: Repulsion,
                     s: Settings, deltaTime: real, d: Draws, length: Vec3 -> real, steer: Steering)
  {
    && Stepped(before, after, s, deltaTime)
    && after.rotation == steer(after.position, before.rotation, rep)
    && |seen| <= Int32.Max
    && ValidDraws(d, |seen|, s.searchRange)
    && w == NeighbourWindow.SelectWindow(|seen|, s.searchRange, d.startDraw, d.endDraw)
    && rep == ScanResult(seen, after.position, length, d, s, w)
  }

  /**
   One boid's step: move forward, scan a random window of the buffer for
   repulsion, steer, and write the result into the boid's own slot only.
   The window `w` and the repulsion `rep` are locals of the source's
   `Execute`; they are returned only so that the contract can name them.
   */
  method Execute(buffer: seq<Trs>, index: int, s: Settings, deltaTime: real, d: Draws,
                 length: Vec3 -> real, steer: Steering)
    returns (r: seq<Trs>, w: NeighbourWindow.Window, rep: Repulsion)
    requires 0 <= index < |buffer| <= Int32.Max
    requires ValidDraws(d, |buffer|, s.searchRange)
    ensures |r| == |buffer|
    ensures forall j :: 0 <= j < |buffer| && j != index ==> r[j] == buffer[j]
    ensures Executed(buffer[index], r[index], buffer, w, rep, s, deltaTime, d, length, steer)
    ensures 0 <= w.start < |buffer| && w.end <= |buffer|
    ensures 1 <= s.searchRange && NeighbourWindow.NoOverflow(|buffer|, s.searchRange) ==>
              w.start < w.end && w.end - w.start <= s.searchRange
  {
    var self := buffer[index];
    var position := Advanced(self, s, deltaTime);
    w := NeighbourWindow.SelectWindow(|buffer|, s.searchRange, d.startDraw, d.endDraw);
    var scan := Scan(position, buffer, length, d.jitter, s.repelX, s.repelY);
    rep := ScanWindow(scan, w.start, w.end);
    var rotation := steer(position, self.rotation, rep);
    r := buffer[index := Trs(position, rotation, self.scale)];
  }

  /**
   `view` is the buffer as step `j` reads it: slots before `j` hold their
   transforms after the job, the others still hold those from before it.
   */
  predicate ViewBefore(view: seq<Trs>, j: int, before: seq<Trs>, after: seq<Trs>) {
    && |view| == |before| == |after|
    && forall k :: 0 <= k < |view| ==> view[k] == if k < j then after[k] else before[k]
  }

  /** Writing slot `index` leaves the views of the earlier steps as they were, and adds the current one. */
  lemma ViewsStep(buffer: seq<Trs>, r: seq<Trs>, views: seq<seq<Trs>>, index: int, x: Trs)
    requires 0 <= index < |buffer| == |r| && |views| == index
    requires forall j :: 0 <= j < index ==> ViewBefore(views[j], j, buffer, r)
    requires forall j :: index <= j < |r| ==> r[j] == buffer[j]
    ensures forall j :: 0 <= j < index + 1 ==> ViewBefore((views + [r])[j], j, buffer, r[index := x])
  {
  }

  /**
   Step `index` is recorded, and writing slot `index` keeps what the earlier
   steps did to their own slots.
   */
  lemma ExecutedStep(buffer: seq<Trs>, r: seq<Trs>, views: seq<seq<Trs>>, windows: seq<NeighbourWindow.Window>,
                     reps: seq<Repulsion>, index: int, next: seq<Trs>, w: NeighbourWindow.Window, rep: Repulsion,
                     s: Settings, deltaTime: real, draws: seq<Draws>, length: Vec3 -> real, steer: Steering)
    requires 0 <= index < |buffer| == |r| == |next| == |draws|
    requires |views| == |windows| == |reps| == index
    requires forall j :: 0 <= j < index ==> next[j] == r[j]
    requires forall j :: 0 <= j < index ==>
               Executed(buffer[j], r[j], views[j], windows[j], reps[j], s, deltaTime, draws[j], length, steer)
    requires Executed(buffer[index], next[index], r, w, rep, s, deltaTime, draws[index], length, steer)
    ensures forall j :: 0 <= j < index + 1 ==>
              Executed(buffer[j], next[j], (views + [r])[j], (windows + [w])[j], (reps + [rep])[j],
                       s, deltaTime, draws[j], length, steer)
  {
  }

  /**
   The whole job over one shared buffer, with the slots visited in index
   order. A boid's own slot is untouched until its own step, so every boid
   moves from its pre-tick transform and keeps its scale, whatever the
   neighbours it reads have already become. Step `j` reads `views[j]`: the
   slots before `j` already hold their new transforms, the others still hold
   the old ones. `windows` and `reps` are each step's window and repulsion.
   */
  method RunJob(buffer: seq<Trs>, s: Settings, deltaTime: real, draws: seq<Draws>,
                length: Vec3 -> real, steer: Steering)
    returns (r: seq<Trs>, ghost views: seq<seq<Trs>>, ghost windows: seq<NeighbourWindow.Window>,
             ghost reps: seq<Repulsion>)
    requires |buffer| <= Int32.Max
    requires |draws| == |buffer|
    requires forall i :: 0 <= i < |draws| ==> ValidDraws(draws[i], |buffer|, s.searchRange)
    ensures |r| == |buffer|
    ensures forall j :: 0 <= j < |r| ==> Stepped(buffer[j], r[j], s, deltaTime)
    ensures |views| == |windows| == |reps| == |buffer|
    ensures forall j :: 0 <= j < |r| ==>
              Executed(buffer[j], r[j], views[j], windows[j], reps[j], s, deltaTime, draws[j], length, steer)
    ensures forall j :: 0 <= j < |r| ==> ViewBefore(views[j], j, buffer, r)
  {
    r := buffer;
    views, windows, reps := [], [], [];
    var index := 0;
    while index < |buffer|
      invariant 0 <= index <= |buffer| == |r|
      invariant |views| == |windows| == |reps| == index
      invariant forall j :: 0 <= j < index ==>
                  Executed(buffer[j], r[j], views[j], windows[j], reps[j], s, deltaTime, draws[j], length, steer)
      invariant forall j :: 0 <= j < index ==> ViewBefore(views[j], j, buffer, r)
      invariant forall j :: index <= j < |r| ==> r[j] == buffer[j]
    {
      var next, window, repulsion := Execute(r, index, s, deltaTime, draws[index], length, steer);
      ViewsStep(buffer, r, views, index, next[index]);
      ExecutedStep(buffer, r, views, windows, reps, index, next, window, repulsion, s, deltaTime, draws, length, steer);
      views, windows, reps := views + [r], windows + [window], reps + [repulsion];
      r := next;
      index := index + 1;
    }
  }
}
