/** What both generators share (Clustering.cpp): splitting a list of stars into batches
    for worker threads, the registry of instanced render groups that placed stars go
    into, the camera and star-size settings, and the gate the shell generator waits on. */
module Clustering {
  import opened Common
  import opened InstancedStars

  /** The least number of stars one worker thread is given (Global.h:15). */
  const STARS_PER_THREAD: int := 500

  // ---------------------------------------------------------------------------
  // Batch partitioning (distributeStarsInThreads)

  /** The batch size: the star count divided evenly over the ideal number of threads,
      but never fewer than STARS_PER_THREAD. The division is on integers. */
  function GroupSize(starCount: nat, idealThreadCount: int): (size: int)
    requires idealThreadCount >= 1
    ensures size >= STARS_PER_THREAD
    ensures size >= starCount / idealThreadCount
    ensures size == STARS_PER_THREAD || size == starCount / idealThreadCount
  {
    if starCount / idealThreadCount > STARS_PER_THREAD then starCount / idealThreadCount
    else STARS_PER_THREAD
  }

  /** The reference partition: consecutive slices of `k` elements, the last one shorter
      when `k` does not divide the length, and no empty slice. */
  function Chunks<T>(s: seq<T>, k: int): seq<seq<T>>
    requires k > 0
    decreases |s|
  {
    if |s| <= k then (if s == [] then [] else [s])
    else [s[..k]] + Chunks(s[k..], k)
  }

  lemma ChunksStep<T>(s: seq<T>, k: int)
    requires k > 0 && |s| >= k
    ensures Chunks(s, k) == [s[..k]] + Chunks(s[k..], k)
  {
    if |s| == k {
      assert s[..k] == s;
      assert s[k..] == [];
    }
  }

  /** Concatenating the batches in order gives back exactly the input: nothing lost,
      nothing repeated, order kept. */
  lemma {:induction false} ChunksFlatten<T>(s: seq<T>, k: int)
    requires k > 0
    ensures Flatten(Chunks(s, k)) == s
    decreases |s|
  {
    if |s| <= k {
      if s != [] {
        FlattenAppend<T>([], s);
        assert [] + [s] == [s];
      }
    } else {
      var head, tail := s[..k], s[k..];
      assert head + tail == s;
      ChunksStep(s, k);
      ChunksFlatten(tail, k);
      FlattenCons(head, Chunks(tail, k));
    }
  }

  lemma FlattenCons<T>(head: seq<T>, rest: seq<seq<T>>)
    ensures Flatten([head] + rest) == head + Flatten(rest)
  {
    FlattenConcat([head], rest);
    FlattenAppend<T>([], head);
    assert [] + [head] == [head];
  }

  /** Every batch holds between 1 and `k` stars, and every batch but the last holds
      exactly `k`. */
  lemma {:induction false} ChunksShape<T>(s: seq<T>, k: int)
    requires k > 0
    ensures forall i :: 0 <= i < |Chunks(s, k)| ==> 0 < |Chunks(s, k)[i]| <= k
    ensures forall i :: 0 <= i < |Chunks(s, k)| - 1 ==> |Chunks(s, k)[i]| == k
    ensures s == [] <==> Chunks(s, k) == []
    decreases |s|
  {
    if |s| > k {
      ChunksShape(s[k..], k);
    }
  }

  /** The number of batches and the size of the last one, without division:
      `m` batches hold `(m-1)*k + |last|` stars. */
  lemma {:induction false} ChunksTotal<T>(s: seq<T>, k: int)
    requires k > 0 && s != []
    ensures Chunks(s, k) != []
    ensures |s| == (|Chunks(s, k)| - 1) * k + |Chunks(s, k)[|Chunks(s, k)| - 1]|
    decreases |s|
  {
    if |s| > k {
      var rest := Chunks(s[k..], k);
      ChunksTotal(s[k..], k);
      assert Chunks(s, k) == [s[..k]] + rest;
      MulSucc(|rest| - 1, k);
    }
  }

  lemma MulSucc(i: int, k: int)
    ensures (i + 1) * k == i * k + k
  {
  }

  lemma MulAtLeast(d: int, k: int)
    requires d >= 1 && k > 0
    ensures d * k >= k
  {
  }

  lemma DivModUnique(n: int, k: int, q: int, r: int)
    requires k > 0 && 0 <= r < k && n == q * k + r
    ensures n / k == q && n % k == r
  {
    var q', r' := n / k, n % k;
    assert n == q' * k + r';
    var d := q - q';
    assert d * k == q * k - q' * k;
    if d > 0 {
      MulAtLeast(d, k);
    } else if d < 0 {
      MulAtLeast(-d, k);
    }
  }

  /** The first `n / k` batches each hold exactly `k` stars; a trailing batch of
      `n % k` stars is added if and only if that remainder is not zero. So the batch
      count is `n / k` rounded up. */
  lemma ChunksCount<T>(s: seq<T>, k: int)
    requires k > 0
    ensures |Chunks(s, k)| == |s| / k + (if |s| % k != 0 then 1 else 0)
    ensures forall i :: 0 <= i < |s| / k ==> |Chunks(s, k)[i]| == k
    ensures |s| % k != 0 ==> |Chunks(s, k)[|s| / k]| == |s| % k
  {
    ChunksShape(s, k);
    if s != [] {
      ChunksTotal(s, k);
      var m := |Chunks(s, k)|;
      var last := |Chunks(s, k)[m - 1]|;
      if last == k {
        DivModUnique(|s|, k, m, 0);
      } else {
        DivModUnique(|s|, k, m - 1, last);
      }
    }
  }

  lemma MulBelow(i: int, n: int, k: int)
    requires k > 0 && 0 <= i < n / k
    ensures i * k + k <= n
  {
    assert (i + 1) * k <= (n / k) * k;
  }

  /** distributeStarsInThreads: `n / size` full batches taken by index, then the
      remainder if there is one. */
  method DistributeStarsInThreads(stars: seq<Point>, idealThreadCount: int)
    returns (groups: seq<seq<Point>>)
    requires idealThreadCount >= 1
    ensures groups == Chunks(stars, GroupSize(|stars|, idealThreadCount))
  {
    groups := [];
    var groupSize := GroupSize(|stars|, idealThreadCount);
    var fullGroupCount := |stars| / groupSize;
    var groupIndex := 0;
    ghost var start := 0;
    while groupIndex < fullGroupCount
      invariant 0 <= groupIndex <= fullGroupCount
      invariant start == groupIndex * groupSize <= |stars|
      invariant groups + Chunks(stars[start..], groupSize) == Chunks(stars, groupSize)
    {
      MulBelow(groupIndex, |stars|, groupSize);
      ChunksStep(stars[start..], groupSize);
      assert stars[start..][..groupSize] == stars[groupIndex * groupSize..groupIndex * groupSize + groupSize];
      assert stars[start..][groupSize..] == stars[start + groupSize..];
      groups := groups + [stars[groupIndex * groupSize..groupIndex * groupSize + groupSize]];
      MulSucc(groupIndex, groupSize);
      groupIndex := groupIndex + 1;
      start := start + groupSize;
    }
    var overflowAmount := |stars| % groupSize;
    EuclidSplit(|stars|, groupSize);
    var rest := stars[start..];
    if overflowAmount != 0 {
      groups := groups + [stars[fullGroupCount * groupSize..fullGroupCount * groupSize + overflowAmount]];
      assert stars[fullGroupCount * groupSize..fullGroupCount * groupSize + overflowAmount] == rest;
    } else {
      assert rest == [];
    }
  }

  lemma EuclidSplit(n: int, k: int)
    requires k > 0
    ensures n == (n / k) * k + n % k
  {
  }

  // ---------------------------------------------------------------------------
  // Worker bookkeeping shared by both generators

  /** One entry of `_threadGroups`: the batch a worker thread places, the index of the
      render group it fills (its `groupIndex`), how many of its stars it has placed,
      and whether its thread is still running. */
  datatype Worker = Worker(slot: nat, stars: seq<Point>, placed: nat, running: bool)

  /** One worker per batch, in batch order, none of them started placing yet. */
  function Spawned(batches: seq<seq<Point>>): (ws: seq<Worker>)
    ensures |ws| == |batches|
    ensures forall i :: 0 <= i < |ws| ==> ws[i] == Worker(i, batches[i], 0, true)
  {
    seq(|batches|, i requires 0 <= i < |batches| => Worker(i, batches[i], 0, true))
  }

  /** Stars a worker still has to place: none once its thread has stopped. */
  function Left(w: Worker): nat
  {
    if w.running && w.placed <= |w.stars| then |w.stars| - w.placed else 0
  }

  /** Stars the running workers still have to place. */
  function Remaining(ws: seq<Worker>): nat
  {
    if ws == [] then 0 else Remaining(ws[..|ws| - 1]) + Left(ws[|ws| - 1])
  }

  lemma {:induction false} RemainingConcat(a: seq<Worker>, b: seq<Worker>)
    ensures Remaining(a + b) == Remaining(a) + Remaining(b)
    decreases |b|
  {
    if b == [] {
      assert a + b == a;
    } else {
      var b' := b[..|b| - 1];
      assert (a + b)[..|a + b| - 1] == a + b';
      RemainingConcat(a, b');
    }
  }

  lemma RemainingAt(ws: seq<Worker>, g: nat)
    requires g < |ws|
    ensures Remaining(ws) == Remaining(ws[..g]) + Left(ws[g]) + Remaining(ws[g + 1..])
  {
    assert ws == ws[..g + 1] + ws[g + 1..];
    RemainingConcat(ws[..g + 1], ws[g + 1..]);
    assert ws[..g + 1][..g] == ws[..g];
  }

  /** Replacing one worker changes what is left by the difference for that worker. */
  lemma RemainingUpdate(ws: seq<Worker>, g: nat, w: Worker)
    requires g < |ws|
    ensures Remaining(ws[g := w]) == Remaining(ws) - Left(ws[g]) + Left(w)
  {
    RemainingAt(ws, g);
    RemainingAt(ws[g := w], g);
    assert ws[g := w][..g] == ws[..g];
    assert ws[g := w][g + 1..] == ws[g + 1..];
  }

  /** Removing one worker removes what it had left. */
  lemma RemainingRemove(ws: seq<Worker>, g: nat)
    requires g < |ws|
    ensures Remaining(ws[..g] + ws[g + 1..]) == Remaining(ws) - Left(ws[g])
  {
    RemainingAt(ws, g);
    RemainingConcat(ws[..g], ws[g + 1..]);
  }

  /** Freshly spawned workers have every star of their batches still to place. */
  lemma {:induction false} RemainingSpawned(batches: seq<seq<Point>>)
    ensures Remaining(Spawned(batches)) == TotalLength(batches)
    decreases |batches|
  {
    if batches != [] {
      var init := batches[..|batches| - 1];
      RemainingSpawned(init);
      assert Spawned(batches)[..|batches| - 1] == Spawned(init);
    }
  }

  /** The pending workers of a unit whose batches are `batches`: each still owns the
      batch of its slot, slots keep their order (finished workers are only removed),
      and a worker runs only while it has a star left to place. */
  ghost predicate WorkersOf(ws: seq<Worker>, batches: seq<seq<Point>>)
  {
    (forall i :: 0 <= i < |ws| ==>
      ws[i].slot < |batches| && ws[i].stars == batches[ws[i].slot] &&
      ws[i].placed <= |ws[i].stars| && (ws[i].running ==> ws[i].placed < |ws[i].stars|)) &&
    (forall i, j :: 0 <= i < j < |ws| ==> ws[i].slot < ws[j].slot)
  }

  /** A worker that stopped can be removed from the pending list. */
  lemma WorkersOfRemove(ws: seq<Worker>, batches: seq<seq<Point>>, g: nat)
    requires WorkersOf(ws, batches) && g < |ws|
    ensures WorkersOf(ws[..g] + ws[g + 1..], batches)
  {
    var ws' := ws[..g] + ws[g + 1..];
    forall i | 0 <= i < |ws'|
      ensures ws'[i] == ws[if i < g then i else i + 1]
    {
    }
    forall i, j | 0 <= i < j < |ws'|
      ensures ws'[i].slot < ws'[j].slot
    {
      assert ws'[i] == ws[if i < g then i else i + 1];
      assert ws'[j] == ws[if j < g then j else j + 1];
    }
  }

  lemma SpawnedAreWorkers(batches: seq<seq<Point>>)
    requires forall i :: 0 <= i < |batches| ==> batches[i] != []
    ensures WorkersOf(Spawned(batches), batches)
  {
  }

  // ---------------------------------------------------------------------------
  // Reports

  /** One `clusterDone` report (a data table row and a chart point): the unit index,
      the star count shown, and the stars whose magnitudes the report integrates. */
  datatype Row = Row(unitIndex: int, starCount: int, sample: seq<Point>)

  /** One `updateProgress(placed, total, cluster)` emission. */
  datatype Progress = Progress(placed: int, total: int, cluster: bool)

  // ---------------------------------------------------------------------------
  // The shared base object

  /** A 4x4 matrix, kept as its sixteen entries; the model only stores it. */
  datatype Matrix4 = Matrix4(entries: seq<real>)

  /** A viewport rectangle. */
  datatype Rect = Rect(x: int, y: int, width: int, height: int)

  /** One render group of `_groups`: the sphere settings of its instanced geometry,
      that geometry's content, and the instance count given to its renderer
      (None until the first star is added). */
  datatype StarGroup = StarGroup(radius: real, slices: int, rings: int,
                                 geometry: StarBuffer, instanceCount: Option<int>)

  /** A render group as `reserveGroups` creates it. */
  function NewGroup(starSize: real): (g: StarGroup)
    ensures g.geometry.Count() == 0 && g.geometry.LockStep() && g.instanceCount == None
    ensures g.radius == starSize
  {
    StarGroup(starSize, 12, 12, StarBuffer([], []), None)
  }

  /** The generation `reserveGroups(count)` appends: `count` new groups, none for a
      negative count. */
  function Generation(count: int, starSize: real): (gen: seq<StarGroup>)
    ensures |gen| == if count < 0 then 0 else count
    ensures forall i :: 0 <= i < |gen| ==> gen[i] == NewGroup(starSize)
  {
    if count <= 0 then [] else Generation(count - 1, starSize) + [NewGroup(starSize)]
  }

  /** A render group after `addStarInGroup` placed `location` with scale `scale`. */
  function WithStar(g: StarGroup, location: Point, scale: real): (r: StarGroup)
    requires g.geometry.LockStep()
    ensures r.geometry == AddedTo(g.geometry, location, scale)
    ensures r.instanceCount == Some(r.geometry.Count())
    ensures r.radius == g.radius && r.slices == g.slices && r.rings == g.rings
  {
    var geometry := AddedTo(g.geometry, location, scale);
    StarGroup(g.radius, g.slices, g.rings, geometry, Some(geometry.Count()))
  }

  class Clustering {
    /** What `QThread::idealThreadCount()` reports on this machine (at least 1). */
    const idealThreadCount: int
    var projectionMatrix: Matrix4
    var viewMatrix: Matrix4
    var viewportRect: Rect
    var starSize: real
    var starPowerFactor: real
    /** `_groups`: one generation of render groups per scheduled unit. */
    var groups: seq<seq<StarGroup>>
    /** `_isNextClusterReady`: the gate shell workers wait on. */
    var isNextClusterReady: bool

    ghost predicate Valid()
      reads this
    {
      idealThreadCount >= 1 &&
      forall gen, i :: 0 <= gen < |groups| && 0 <= i < |groups[gen]| ==> groups[gen][i].geometry.LockStep()
    }

    constructor (idealThreadCount: int)
      requires idealThreadCount >= 1
      ensures Valid() && this.idealThreadCount == idealThreadCount
      ensures groups == [] && !isNextClusterReady
      ensures starSize == 0.05 && starPowerFactor == 0.3
    {
      this.idealThreadCount := idealThreadCount;
      projectionMatrix := Matrix4([]);
      viewMatrix := Matrix4([]);
      viewportRect := Rect(0, 0, 0, 0);
      starSize := 0.05;
      starPowerFactor := 0.3;
      groups := [];
      isNextClusterReady := false;
    }

    method SetCameraProjectionMatrix(projection: Matrix4, view: Matrix4, rect: Rect)
      modifies this`projectionMatrix, this`viewMatrix, this`viewportRect
      ensures projectionMatrix == projection && viewMatrix == view && viewportRect == rect
    {
      projectionMatrix := projection;
      viewMatrix := view;
      viewportRect := rect;
    }

    method SetStarProperties(size: real, powerFactor: real)
      modifies this`starSize, this`starPowerFactor
      ensures starSize == size && starPowerFactor == powerFactor
    {
      starSize := size;
      starPowerFactor := powerFactor;
    }

    method SetNextClusterReady()
      modifies this`isNextClusterReady
      ensures isNextClusterReady
    {
      isNextClusterReady := true;
    }

    /** Appends one new generation of `count` empty render groups (none for a
        negative count); earlier generations are untouched. */
    method ReserveGroups(count: int)
      requires Valid()
      modifies this`groups
      ensures Valid()
      ensures groups == old(groups) + [Generation(count, starSize)]
    {
      var newGroups: seq<StarGroup> := [];
      var i := 0;
      while i < count
        invariant 0 <= i && (count >= 0 ==> i <= count) && (count < 0 ==> i == 0)
        invariant newGroups == Generation(i, starSize)
      {
        newGroups := newGroups + [NewGroup(starSize)];
        i := i + 1;
      }
      groups := groups + [newGroups];
    }

    /** Adds `location` to render group `index` of the newest generation, with the
        scale the slot computes from the distance (passed in: the power function is
        floating point), and sets that group's instance count to its point count.
        No other group changes. */
    method AddStarInGroup(index: int, location: Point, scale: real)
      requires Valid()
      requires groups != [] && 0 <= index < |groups[|groups| - 1]|
      modifies this`groups
      ensures Valid()
      ensures var last := old(groups[|groups| - 1]);
              groups == old(groups)[|old(groups)| - 1 := last[index := WithStar(last[index], location, scale)]]
      ensures |groups| == |old(groups)| && |groups[|groups| - 1]| == |old(groups[|groups| - 1])|
    {
      var last := groups[|groups| - 1];
      groups := groups[|groups| - 1 := last[index := WithStar(last[index], location, scale)]];
    }
  }
}
