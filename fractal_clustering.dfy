/** The fractal generator (FractalClustering.cpp): level 0 is one point in front of
    the camera, and each later level places a cluster of positions around every
    point of the level below, inside a sphere whose radius grows level by level.
    The visible stars of each level are kept, each level is sorted by distance, and
    the levels are placed one after another by worker threads, one batch per thread.
    When every batch of a level has finished, the generator reports the number of
    stars placed so far and schedules the next level, or signals that it finished.

    Threads are modelled as events the environment may interleave freely, as for
    the shell generator; this generator has no gate. */
module Fractal {
  import opened Common
  import opened Clustering
  import opened Scheduler

  /** Constants of Global.h. */
  const STELLAR_RADIUS: real := 1.0
  const CAMERA_VFOV: real := 45.0
  const CAMERA_ASPECT_RATIO: real := 16.0 / 9.0

  /** The single point of level 0: on the view axis, in front of the camera. */
  const ORIGIN: Point := Point(0.0, 0.0, -CAMERA_VFOV / CAMERA_ASPECT_RATIO)

  // ---------------------------------------------------------------------------
  // Volume radii

  /** The radius of a level's volume: `countPerLevel` spheres of the level below,
      each of radius `prevRadius`, side by side with `spacing` between them. */
  function NextRadius(countPerLevel: int, spacing: real, prevRadius: real): real
  {
    (countPerLevel as real - 1.0) * (spacing + 2.0 * prevRadius) + prevRadius
  }

  /** `_volumeRadius`: one radius per level, level 0 growing from a single star. */
  function Radii(levelCount: int, countPerLevel: int, spacing: real): (r: seq<real>)
    ensures |r| == if levelCount < 0 then 0 else levelCount
    decreases levelCount
  {
    if levelCount <= 0 then []
    else
      var below := Radii(levelCount - 1, countPerLevel, spacing);
      below + [NextRadius(countPerLevel, spacing, if levelCount == 1 then STELLAR_RADIUS else below[|below| - 1])]
  }

  /** The radius loop of start. */
  method ComputeRadii(levelCount: int, countPerLevel: int, spacing: real) returns (volumeRadius: seq<real>)
    ensures volumeRadius == Radii(levelCount, countPerLevel, spacing)
  {
    volumeRadius := [];
    var level := 0;
    while level < levelCount
      invariant 0 <= level && (levelCount >= 0 ==> level <= levelCount) && (levelCount < 0 ==> level == 0)
      invariant volumeRadius == Radii(level, countPerLevel, spacing)
    {
      var prevRadius := if level == 0 then STELLAR_RADIUS else volumeRadius[|volumeRadius| - 1];
      var radius := NextRadius(countPerLevel, spacing, prevRadius);
      volumeRadius := volumeRadius + [radius];
      level := level + 1;
    }
  }

  /** Radius 0 grows from a single star, and radius `k` from radius `k - 1`. */
  lemma {:induction false} RadiiAt(levelCount: int, countPerLevel: int, spacing: real)
    ensures var r := Radii(levelCount, countPerLevel, spacing);
            (|r| > 0 ==> r[0] == NextRadius(countPerLevel, spacing, STELLAR_RADIUS)) &&
            forall k :: 0 < k < |r| ==> r[k] == NextRadius(countPerLevel, spacing, r[k - 1])
    decreases levelCount
  {
    if levelCount > 0 {
      RadiiAt(levelCount - 1, countPerLevel, spacing);
      var r := Radii(levelCount, countPerLevel, spacing);
      assert r[..levelCount - 1] == Radii(levelCount - 1, countPerLevel, spacing);
    }
  }

  function Pow(a: real, n: nat): real
  {
    if n == 0 then 1.0 else a * Pow(a, n - 1)
  }

  /** One level of the recurrence in the form `r' = a·r + b`. */
  lemma RadiusAffine(countPerLevel: int, spacing: real, prev: real)
    ensures NextRadius(countPerLevel, spacing, prev) ==
              (2.0 * countPerLevel as real - 1.0) * prev + (countPerLevel as real - 1.0) * spacing
  {
  }

  /** If `r·(a - 1) + b = p·u` then the next value `r' = a·r + b` has
      `r'·(a - 1) + b = q·u` for `q = a·p`. */
  lemma AffineStep(a: real, b: real, prev: real, next: real, p: real, q: real, u: real)
    requires next == a * prev + b && q == a * p
    requires prev * (a - 1.0) + b == p * u
    ensures next * (a - 1.0) + b == q * u
  {
    calc {
      next * (a - 1.0) + b;
      (a * prev + b) * (a - 1.0) + b;
      a * (prev * (a - 1.0)) + b * (a - 1.0) + b;
      a * (prev * (a - 1.0) + b);
      a * (p * u);
      q * u;
    }
  }

  /** `n` steps of the affine recurrence `x' = a·x + b` from `x0`. */
  function Iterate(a: real, b: real, x0: real, n: nat): real
  {
    if n == 0 then x0 else a * Iterate(a, b, x0, n - 1) + b
  }

  lemma IterateStep(a: real, b: real, x0: real, n: nat, u: real)
    requires n > 0 && Iterate(a, b, x0, n - 1) * (a - 1.0) + b == Pow(a, n - 1) * u
    ensures Iterate(a, b, x0, n) * (a - 1.0) + b == Pow(a, n) * u
  {
    AffineStep(a, b, Iterate(a, b, x0, n - 1), Iterate(a, b, x0, n), Pow(a, n - 1), Pow(a, n), u);
  }

  lemma {:induction false} IterateClosedForm(a: real, b: real, x0: real, n: nat)
    ensures Iterate(a, b, x0, n) * (a - 1.0) + b == Pow(a, n) * (x0 * (a - 1.0) + b)
    decreases n
  {
    if n > 0 {
      IterateClosedForm(a, b, x0, n - 1);
      IterateStep(a, b, x0, n, x0 * (a - 1.0) + b);
    }
  }

  /** Radius `k` is `k + 1` steps of `x' = (2c - 1)·x + (c - 1)·s` from the radius of
      a star. */
  lemma {:induction false} RadiiIterate(levelCount: int, countPerLevel: int, spacing: real, k: nat)
    requires k < levelCount
    ensures Radii(levelCount, countPerLevel, spacing)[k] ==
              Iterate(2.0 * countPerLevel as real - 1.0, (countPerLevel as real - 1.0) * spacing, STELLAR_RADIUS, k + 1)
  {
    var a := 2.0 * countPerLevel as real - 1.0;
    var b := (countPerLevel as real - 1.0) * spacing;
    var r := Radii(levelCount, countPerLevel, spacing);
    RadiiAt(levelCount, countPerLevel, spacing);
    if k == 0 {
      RadiusAffine(countPerLevel, spacing, STELLAR_RADIUS);
      assert Iterate(a, b, STELLAR_RADIUS, 0) == STELLAR_RADIUS;
    } else {
      RadiiIterate(levelCount, countPerLevel, spacing, k - 1);
      RadiusAffine(countPerLevel, spacing, r[k - 1]);
    }
  }

  /** With at least one star per level and no negative spacing, a level's radius
      is at least the radius of the level below. */
  lemma NextRadiusGrows(countPerLevel: int, spacing: real, prev: real)
    requires countPerLevel >= 1 && spacing >= 0.0 && prev >= 0.0
    ensures NextRadius(countPerLevel, spacing, prev) >= prev
  {
    var c := countPerLevel as real - 1.0;
    var d := spacing + 2.0 * prev;
    assert c >= 0.0 && d >= 0.0;
    assert c * d >= 0.0;
  }

  /** With at least one star per level and no negative spacing, radii never shrink
      from one level to the next, and none is smaller than a star. */
  lemma {:induction false} RadiiGrow(levelCount: int, countPerLevel: int, spacing: real, i: nat, j: nat)
    requires countPerLevel >= 1 && spacing >= 0.0
    requires i <= j < levelCount
    ensures STELLAR_RADIUS <= Radii(levelCount, countPerLevel, spacing)[i] <= Radii(levelCount, countPerLevel, spacing)[j]
    decreases j
  {
    var r := Radii(levelCount, countPerLevel, spacing);
    RadiiAt(levelCount, countPerLevel, spacing);
    if j == 0 {
      NextRadiusGrows(countPerLevel, spacing, STELLAR_RADIUS);
    } else {
      RadiiGrow(levelCount, countPerLevel, spacing, if i < j then i else j - 1, j - 1);
      NextRadiusGrows(countPerLevel, spacing, r[j - 1]);
    }
  }

  // ---------------------------------------------------------------------------
  // Levels

  /** `calculateLevel(level, origin, _volumeRadius, _spacing)`, whose lattice walk
      is floating point, is the parameter `place`; the source asserts that the level
      has a radius and a level below it. */
  function CalculateLevel(place: (nat, Point) -> seq<Point>, volumeRadius: seq<real>, level: nat, origin: Point): seq<Point>
    requires 0 < level < |volumeRadius|
  {
    place(level, origin)
  }

  /** Level `level` built from the level below it: the positions placed around each
      of its points, in order. */
  function Expanded(place: (nat, Point) -> seq<Point>, level: nat, below: seq<Point>): seq<Point>
  {
    if below == [] then []
    else Expanded(place, level, below[..|below| - 1]) + place(level, below[|below| - 1])
  }

  /** The number of levels start builds: level 0 is built even for no level at all. */
  function BuiltLevels(levelCount: int): (n: nat)
    ensures n >= 1
  {
    if levelCount < 1 then 1 else levelCount
  }

  /** The first `n` levels: level 0 is the single point `ORIGIN`, each later level is
      expanded from the one below. */
  function Levels(place: (nat, Point) -> seq<Point>, n: nat): (levels: seq<seq<Point>>)
    requires n >= 1
    ensures |levels| == n
  {
    if n == 1 then [[ORIGIN]]
    else
      var below := Levels(place, n - 1);
      below + [Expanded(place, n - 1, below[n - 2])]
  }

  /** Level 0 is one point, and level `k` is what `calculateLevel(k, p)` gives for
      every point `p` of level `k - 1`, in order. */
  lemma {:induction false} LevelsAt(place: (nat, Point) -> seq<Point>, n: nat)
    requires n >= 1
    ensures Levels(place, n)[0] == [ORIGIN]
    ensures forall k :: 0 < k < n ==> Levels(place, n)[k] == Expanded(place, k, Levels(place, n)[k - 1])
  {
    if n > 1 {
      LevelsAt(place, n - 1);
      assert Levels(place, n)[..n - 1] == Levels(place, n - 1);
    }
  }

  /** A position is in an expanded level exactly when it is placed around some point
      of the level below. */
  lemma {:induction false} ExpandedMembers(place: (nat, Point) -> seq<Point>, level: nat, below: seq<Point>)
    ensures forall q :: q in Expanded(place, level, below) <==> exists i :: 0 <= i < |below| && q in place(level, below[i])
  {
    if below != [] {
      var init := below[..|below| - 1];
      ExpandedMembers(place, level, init);
      forall q
        ensures q in Expanded(place, level, below) <==> exists i :: 0 <= i < |below| && q in place(level, below[i])
      {
        if q in Expanded(place, level, init) {
          var i :| 0 <= i < |init| && q in place(level, init[i]);
          assert below[i] == init[i];
        }
        if exists i :: 0 <= i < |below| && q in place(level, below[i]) {
          var i :| 0 <= i < |below| && q in place(level, below[i]);
          if i < |init| {
            assert below[i] == init[i];
          }
        }
      }
    }
  }

  /** The level loop of start: level 0, then each level built from the one before. */
  method ExpandLevels(place: (nat, Point) -> seq<Point>, levelCount: int, volumeRadius: seq<real>)
    returns (levels: seq<seq<Point>>)
    requires |volumeRadius| == if levelCount < 0 then 0 else levelCount
    ensures levels == Levels(place, BuiltLevels(levelCount))
  {
    var previousLevel := [ORIGIN];
    levels := [previousLevel];
    var levelIndex := 1;
    while levelIndex < levelCount
      invariant 1 <= levelIndex && (levelCount >= 1 ==> levelIndex <= levelCount) && (levelCount < 1 ==> levelIndex == 1)
      invariant levels == Levels(place, levelIndex) && previousLevel == levels[levelIndex - 1]
    {
      var nextLevel: seq<Point> := [];
      for i := 0 to |previousLevel|
        invariant nextLevel == Expanded(place, levelIndex, previousLevel[..i])
      {
        assert previousLevel[..i + 1][..i] == previousLevel[..i];
        nextLevel := nextLevel + CalculateLevel(place, volumeRadius, levelIndex, previousLevel[i]);
      }
      assert previousLevel[..|previousLevel|] == previousLevel;
      previousLevel := nextLevel;
      levels := levels + [nextLevel];
      levelIndex := levelIndex + 1;
    }
    assert BuiltLevels(levelCount) == levelIndex;
  }

  // ---------------------------------------------------------------------------
  // Sorting by distance

  /** Nearer stars first. */
  predicate SortedByDistance(s: seq<Point>)
  {
    forall i, j :: 0 <= i < j < |s| ==> SquaredLength(s[i]) <= SquaredLength(s[j])
  }

  /** While the star at `j` is moved down into `s[..i + 1]`: the other stars of
      `s[..i + 1]` are in order, and every star after it is farther. */
  ghost predicate Inserting(s: seq<Point>, i: nat, j: nat)
  {
    j <= i < |s| &&
    (forall p, q :: 0 <= p < q <= i && p != j && q != j ==> SquaredLength(s[p]) <= SquaredLength(s[q])) &&
    (forall q :: j < q <= i ==> SquaredLength(s[j]) < SquaredLength(s[q]))
  }

  lemma InsertingStarts(s: seq<Point>, i: nat)
    requires i < |s| && SortedByDistance(s[..i])
    ensures Inserting(s, i, i)
  {
    forall p, q | 0 <= p < q < i
      ensures SquaredLength(s[p]) <= SquaredLength(s[q])
    {
      assert s[p] == s[..i][p] && s[q] == s[..i][q];
    }
  }

  /** Swapping the moving star with a farther neighbour below keeps the shape. */
  lemma InsertingSwaps(s: seq<Point>, i: nat, j: nat)
    requires Inserting(s, i, j) && 0 < j && SquaredLength(s[j - 1]) > SquaredLength(s[j])
    ensures Inserting(s[j - 1 := s[j]][j := s[j - 1]], i, j - 1)
    ensures multiset(s[j - 1 := s[j]][j := s[j - 1]]) == multiset(s)
  {
  }

  lemma InsertingEnds(s: seq<Point>, i: nat, j: nat)
    requires Inserting(s, i, j) && (j == 0 || SquaredLength(s[j - 1]) <= SquaredLength(s[j]))
    ensures SortedByDistance(s[..i + 1])
  {
    forall p, q | 0 <= p < q <= i
      ensures SquaredLength(s[p]) <= SquaredLength(s[q])
    {
      if q == j && p < j - 1 {
        assert SquaredLength(s[p]) <= SquaredLength(s[j - 1]);
      }
    }
  }

  /** The in-place sort of one level (std::sort by `length()`): afterwards the level
      holds the same stars, nearest first; the order of stars at equal distance is
      not specified. */
  method SortByDistance(a: array<Point>)
    modifies a
    ensures SortedByDistance(a[..])
    ensures multiset(a[..]) == multiset(old(a[..]))
  {
    var i := 0;
    while i < a.Length
      invariant 0 <= i <= a.Length
      invariant SortedByDistance(a[..i])
      invariant multiset(a[..]) == multiset(old(a[..]))
    {
      InsertNext(a, i);
      i := i + 1;
    }
    assert a[..a.Length] == a[..];
  }

  /** One insertion step: star `i` moves down past every farther star before it. */
  method InsertNext(a: array<Point>, i: nat)
    requires i < a.Length && SortedByDistance(a[..i])
    modifies a
    ensures SortedByDistance(a[..i + 1])
    ensures multiset(a[..]) == multiset(old(a[..]))
  {
    InsertingStarts(a[..], i);
    var j: nat := i;
    while j > 0 && SquaredLength(a[j - 1]) > SquaredLength(a[j])
      invariant Inserting(a[..], i, j)
      invariant multiset(a[..]) == multiset(old(a[..]))
      decreases j
    {
      ghost var s := a[..];
      InsertingSwaps(s, i, j);
      a[j - 1], a[j] := a[j], a[j - 1];
      assert a[..] == s[j - 1 := s[j]][j := s[j - 1]];
      j := j - 1;
    }
    InsertingEnds(a[..], i, j);
  }

  /** The sort loop of start: every level is sorted on its own; levels are never
      merged or reordered. */
  method SortLevels(levels: seq<seq<Point>>) returns (sorted: seq<seq<Point>>)
    ensures |sorted| == |levels|
    ensures forall k :: 0 <= k < |levels| ==>
              SortedByDistance(sorted[k]) && multiset(sorted[k]) == multiset(levels[k])
  {
    sorted := levels;
    for k := 0 to |levels|
      invariant |sorted| == |levels|
      invariant forall j :: 0 <= j < k ==> SortedByDistance(sorted[j]) && multiset(sorted[j]) == multiset(levels[j])
      invariant forall j :: k <= j < |levels| ==> sorted[j] == levels[j]
    {
      var level := sorted[k];
      var a := new Point[|level|](i requires 0 <= i < |level| => level[i]);
      assert a[..] == level;
      SortByDistance(a);
      sorted := sorted[k := a[..]];
    }
  }

  /** Lists of lists whose parts have the same sizes have the same total size. */
  lemma {:induction false} TotalLengthSameSizes(a: seq<seq<Point>>, b: seq<seq<Point>>)
    requires |a| == |b| && forall k :: 0 <= k < |a| ==> |a[k]| == |b[k]|
    ensures |Flatten(a)| == |Flatten(b)|
    decreases |a|
  {
    FlattenLength(a);
    FlattenLength(b);
    if a != [] {
      TotalLengthSameSizes(a[..|a| - 1], b[..|b| - 1]);
      FlattenLength(a[..|a| - 1]);
      FlattenLength(b[..|b| - 1]);
    }
  }

  /** The levels as start stores them: level `k` holds exactly the visible stars of
      level `k` of `levels`, each as often, nearest first. */
  ghost predicate Prepared(levels: seq<seq<Point>>, visible: Point -> bool, stars: seq<seq<Point>>)
  {
    |stars| == |levels| &&
    forall k {:trigger PreparedLevel(stars[k], levels[k], visible)} :: 0 <= k < |levels| ==>
      PreparedLevel(stars[k], levels[k], visible)
  }

  /** One level as start stores it: the visible candidates, each as often, nearest
      first. */
  ghost predicate PreparedLevel(stored: seq<Point>, candidates: seq<Point>, visible: Point -> bool)
  {
    SortedByDistance(stored) && multiset(stored) == multiset(Filter(visible, candidates))
  }

  /** The preprocessing of start: the radii, the levels, the visible stars of each
      level and their count, and the sort of each level. */
  method BuildStars(place: (nat, Point) -> seq<Point>, visible: Point -> bool,
                    levelCount: int, countPerLevel: int, spacing: real)
    returns (volumeRadius: seq<real>, stars: seq<seq<Point>>, total: int)
    ensures volumeRadius == Radii(levelCount, countPerLevel, spacing)
    ensures Prepared(Levels(place, BuiltLevels(levelCount)), visible, stars)
    ensures total == |Flatten(stars)| == TotalLength(CulledUnits(visible, Levels(place, BuiltLevels(levelCount))))
  {
    volumeRadius := ComputeRadii(levelCount, countPerLevel, spacing);
    var levels := ExpandLevels(place, levelCount, volumeRadius);
    var culled;
    culled, total := CullUnits(levels, visible);
    stars := SortLevels(culled);
    CulledUnitsAt(visible, levels);
    SameSizes(stars, culled);
    forall k | 0 <= k < |levels|
      ensures PreparedLevel(stars[k], levels[k], visible)
    {
      assert culled[k] == Filter(visible, levels[k]);
    }
  }

  /** Levels holding the same stars have the same total size. */
  lemma SameSizes(sorted: seq<seq<Point>>, culled: seq<seq<Point>>)
    requires |sorted| == |culled| && forall k :: 0 <= k < |culled| ==> multiset(sorted[k]) == multiset(culled[k])
    ensures |Flatten(sorted)| == |Flatten(culled)|
  {
    forall k | 0 <= k < |sorted|
      ensures |sorted[k]| == |culled[k]|
    {
      assert |multiset(sorted[k])| == |multiset(culled[k])|;
    }
    TotalLengthSameSizes(sorted, culled);
  }

  // ---------------------------------------------------------------------------
  // Reports

  /** Every report made so far is the report of its level: its index, the stars of
      levels `0..j` whose magnitudes it integrates, and a star count no larger than
      the number of those stars. Counts never decrease from one report to the next. */
  ghost predicate LevelReports(levels: seq<seq<Point>>, reports: seq<Row>)
  {
    |reports| <= |levels| &&
    (forall j :: 0 <= j < |reports| ==>
      reports[j].unitIndex == j && reports[j].sample == Flatten(levels[..j + 1]) &&
      0 <= reports[j].starCount <= |Flatten(levels[..j + 1])|) &&
    (forall j :: 0 < j < |reports| ==> reports[j - 1].starCount <= reports[j].starCount)
  }

  /** Every report counts every star of its levels (so while termination was not
      requested). */
  ghost predicate ReportsExact(levels: seq<seq<Point>>, reports: seq<Row>)
  {
    |reports| <= |levels| &&
    forall j :: 0 <= j < |reports| ==> reports[j].starCount == |Flatten(levels[..j + 1])|
  }

  /** Successive reported counts never decrease. */
  lemma {:induction false} LevelReportsGrow(levels: seq<seq<Point>>, reports: seq<Row>, i: nat, j: nat)
    requires LevelReports(levels, reports)
    requires i <= j < |reports|
    ensures reports[i].starCount <= reports[j].starCount
    decreases j - i
  {
    if i < j {
      LevelReportsGrow(levels, reports, i, j - 1);
    }
  }

  /** The report made once every batch of level `index - 1` is done: the stars placed
      so far, and the stars of levels `0..index-1`, whose magnitudes are integrated. */
  function LevelReport(l: Ledger): Row
    requires 0 < l.index <= |l.units|
  {
    Row(l.index - 1, l.placed, Flatten(l.units[..l.index]))
  }

  // ---------------------------------------------------------------------------
  // The invariant of a started fractal generator, and its advance step

  /** The invariant of a started fractal generator. */
  ghost predicate Running(idealThreadCount: int, reserved: int, l: Ledger)
  {
    l.index <= |l.units| && idealThreadCount >= 1 &&
    l.total == |Flatten(l.units)| &&
    LevelReports(l.units, l.reports) &&
    (l.reports != [] ==> l.reports[|l.reports| - 1].starCount <= l.placed) &&
    (!l.stop ==> l.abandoned == 0 && ReportsExact(l.units, l.reports)) &&
    (l.finished ==> l.workers == [] && l.index == |l.units| && |l.reports| == |l.units|) &&
    (l.index == 0 ==> l.workers == [] && l.reports == [] && l.placed == 0 && l.abandoned == 0) &&
    (l.index > 0 ==>
      (!l.finished ==> |l.reports| == l.index - 1) &&
      Accounts(l.units, l.index - 1, idealThreadCount, reserved, l.workers,
               l.placedInUnit, l.placed, l.abandonedInUnit, l.abandoned))
  }

  lemma StartedRunning(idealThreadCount: int, reserved: int, l: Ledger)
    requires idealThreadCount >= 1 && l.total == |Flatten(l.units)|
    requires l.index == 0 && l.workers == [] && l.reports == [] && !l.finished
    requires l.placed == 0 && l.abandoned == 0
    ensures Running(idealThreadCount, reserved, l)
  {
  }

  lemma PlacedKeeps(idealThreadCount: int, reserved: int, l: Ledger, g: nat)
    requires Running(idealThreadCount, reserved, l)
    requires g < |l.workers| && l.workers[g].running
    ensures 0 < l.index <= |l.units| && l.workers[g].slot < reserved
    ensures l.workers[g].placed < |l.workers[g].stars|
    ensures Running(idealThreadCount, reserved, Placed(l, g))
    ensures 0 < Placed(l, g).placed <= Placed(l, g).total
    ensures 0 < Placed(l, g).placedInUnit <= |l.units[l.index - 1]|
  {
    var k := l.index - 1;
    AccountsPlace(l.units, k, idealThreadCount, reserved, l.workers, g, l.stop,
                  l.placedInUnit, l.placed, l.abandonedInUnit, l.abandoned);
    PlacedWithinTotal(l.units, k, l.placed + 1);
  }

  /** A worker that stops at its termination check keeps the invariant; it places,
      counts and reports nothing, and only that worker changes, to a stopped one
      with the same batch and count. */
  lemma StoppedKeeps(idealThreadCount: int, reserved: int, l: Ledger, g: nat)
    requires Running(idealThreadCount, reserved, l)
    requires l.stop && g < |l.workers| && l.workers[g].running
    ensures Running(idealThreadCount, reserved, Stopped(l, g))
    ensures var l' := Stopped(l, g);
            l'.placed == l.placed && l'.placedInUnit == l.placedInUnit && l'.progress == l.progress &&
            l'.reports == l.reports && l'.index == l.index && |l'.workers| == |l.workers|
    ensures var w := Stopped(l, g).workers[g];
            !w.running && w.slot == l.workers[g].slot && w.stars == l.workers[g].stars &&
            w.placed == l.workers[g].placed
    ensures forall i :: 0 <= i < |l.workers| && i != g ==> Stopped(l, g).workers[i] == l.workers[i]
  {
    AccountsHalt(l.units, l.index - 1, idealThreadCount, reserved, l.workers, g,
                 l.placedInUnit, l.placed, l.abandonedInUnit, l.abandoned);
  }

  lemma RemovedKeeps(idealThreadCount: int, reserved: int, l: Ledger, g: nat)
    requires Running(idealThreadCount, reserved, l)
    requires g < |l.workers| && !l.workers[g].running
    ensures Running(idealThreadCount, reserved, Removed(l, g))
  {
    AccountsRemove(l.units, l.index - 1, idealThreadCount, reserved, l.workers, g,
                   l.placedInUnit, l.placed, l.abandonedInUnit, l.abandoned);
  }

  /** The previous level, if any, is reported. */
  function Reported(l: Ledger): (r: Ledger)
    requires l.index <= |l.units|
    ensures r.units == l.units && r.index == l.index && r.workers == l.workers && r.placed == l.placed
  {
    if l.index > 0 then l.(reports := l.reports + [LevelReport(l)]) else l
  }

  /** construct as written: nothing while a batch is pending; otherwise the previous
      level is reported, then `finished` is emitted when every level was scheduled,
      or else the next level gets one worker per batch. */
  function Constructed(l: Ledger, idealThreadCount: int): Ledger
    requires l.index <= |l.units| && idealThreadCount >= 1
  {
    if l.workers != [] then l
    else if l.index == |l.units| then Reported(l).(finished := true)
    else NextUnit(Reported(l), idealThreadCount)
  }

  /** Once no batch of the current level is pending, the number of stars placed is
      the number of stars of the levels scheduled so far, less those abandoned after
      termination was requested. */
  lemma ReportedCount(idealThreadCount: int, reserved: int, l: Ledger)
    requires Running(idealThreadCount, reserved, l)
    requires l.workers == [] && l.index > 0
    ensures LevelReport(l).starCount + l.abandoned == |Flatten(l.units[..l.index])|
    ensures !l.stop ==> LevelReport(l).starCount == |Flatten(l.units[..l.index])|
  {
  }

  /** A report of the next level, counting no fewer stars than the previous report
      and no more than its levels hold, keeps the reports those of their levels. */
  lemma LevelReportsAppend(levels: seq<seq<Point>>, reports: seq<Row>, r: Row)
    requires LevelReports(levels, reports) && |reports| < |levels|
    requires r.unitIndex == |reports| && r.sample == Flatten(levels[..|reports| + 1])
    requires 0 <= r.starCount <= |Flatten(levels[..|reports| + 1])|
    requires reports != [] ==> reports[|reports| - 1].starCount <= r.starCount
    ensures LevelReports(levels, reports + [r])
  {
    var grown := reports + [r];
    forall j | 0 <= j < |grown|
      ensures grown[j].unitIndex == j && grown[j].sample == Flatten(levels[..j + 1])
      ensures 0 <= grown[j].starCount <= |Flatten(levels[..j + 1])|
    {
      if j < |reports| {
        assert grown[j] == reports[j];
      }
    }
    forall j | 0 < j < |grown|
      ensures grown[j - 1].starCount <= grown[j].starCount
    {
      assert grown[j - 1] == reports[j - 1];
      if j < |reports| {
        assert grown[j] == reports[j];
      }
    }
  }

  /** A report of the next level counting every star of its levels keeps every
      report exact. */
  lemma ReportsExactAppend(levels: seq<seq<Point>>, reports: seq<Row>, r: Row)
    requires ReportsExact(levels, reports) && |reports| < |levels|
    requires r.starCount == |Flatten(levels[..|reports| + 1])|
    ensures ReportsExact(levels, reports + [r])
  {
    var grown := reports + [r];
    forall j | 0 <= j < |grown|
      ensures grown[j].starCount == |Flatten(levels[..j + 1])|
    {
      if j < |reports| {
        assert grown[j] == reports[j];
      }
    }
  }

  lemma ReportedKeeps(idealThreadCount: int, reserved: int, l: Ledger)
    requires Running(idealThreadCount, reserved, l)
    requires l.workers == [] && l.index > 0 && !l.finished
    ensures LevelReports(l.units, Reported(l).reports)
    ensures !l.stop ==> ReportsExact(l.units, Reported(l).reports)
  {
    ReportedCount(idealThreadCount, reserved, l);
    LevelReportsAppend(l.units, l.reports, LevelReport(l));
    if !l.stop {
      ReportsExactAppend(l.units, l.reports, LevelReport(l));
    }
  }

  /** Reporting the last level and emitting `finished` keeps the invariant. */
  lemma FinishedKeeps(idealThreadCount: int, reserved: int, l: Ledger)
    requires Running(idealThreadCount, reserved, l)
    requires l.workers == [] && l.index == |l.units| && !l.finished
    ensures Running(idealThreadCount, reserved, Reported(l).(finished := true))
  {
    if l.index > 0 {
      ReportedKeeps(idealThreadCount, reserved, l);
    }
  }

  /** Reporting the previous level and scheduling the next keeps the invariant, with
      one reserved render group per new worker; a level with no visible star gets no
      worker. */
  lemma ScheduledKeeps(idealThreadCount: int, reserved: int, l: Ledger)
    requires Running(idealThreadCount, reserved, l)
    requires l.workers == [] && l.index < |l.units| && !l.finished
    ensures var next := NextUnit(Reported(l), idealThreadCount);
            Running(idealThreadCount, |next.workers|, next) &&
            (l.units[l.index] == [] <==> next.workers == [])
  {
    var k := l.index;
    if k > 0 {
      ReportedKeeps(idealThreadCount, reserved, l);
    }
    assert l.placed + l.abandoned == |Flatten(l.units[..k])| by {
      if k == 0 {
        assert l.units[..0] == [];
      }
    }
    AccountsSchedule(l.units, k, idealThreadCount, l.placed, l.abandoned);
  }

  /** construct keeps the invariant; when it schedules a level, the newest
      generation holds exactly one render group per new worker. A level with no
      visible star is scheduled with no worker at all, and nothing is finished. */
  lemma ConstructedKeeps(idealThreadCount: int, reserved: int, l: Ledger)
    requires Running(idealThreadCount, reserved, l)
    requires l.workers == [] ==> !l.finished
    ensures Running(idealThreadCount,
                    if Schedules(l) then |Constructed(l, idealThreadCount).workers| else reserved,
                    Constructed(l, idealThreadCount))
    ensures Schedules(l) ==>
              (l.units[l.index] == [] <==> Constructed(l, idealThreadCount).workers == []) &&
              !Constructed(l, idealThreadCount).finished
  {
    if l.workers == [] {
      if l.index == |l.units| {
        FinishedKeeps(idealThreadCount, reserved, l);
      } else {
        ScheduledKeeps(idealThreadCount, reserved, l);
      }
    }
  }

  // ---------------------------------------------------------------------------
  // The generator

  class FractalClustering {
    const base: Clustering
    const levelCount: int
    const countPerLevel: int
    const spacing: real
    /** Stored by the constructor and never read. */
    const placeZeroStar: bool

    var volumeRadius: seq<real>
    /** `_stars`: the visible stars of each level, nearest first. */
    var stars: seq<seq<Point>>
    /** `_threadGroups`: the batches of the current level whose thread has not yet
        been handled as finished. */
    var threadGroups: seq<Worker>
    var terminatePending: bool
    var currentLevelIndex: nat
    var totalStarCount: int
    var starsPlacedInLevel: int
    var starsPlaced: int
    /** The `clusterDone` reports made so far. */
    var reports: seq<Row>
    /** The `updateProgress` emissions made so far. */
    var progress: seq<Progress>
    /** Whether `finished` has been emitted. */
    var finished: bool

    ghost var started: bool
    /** Stars of scheduled batches that were never placed because their worker stopped
        early after `terminate`, over the whole run and in the current level. */
    ghost var abandoned: nat
    ghost var abandonedInLevel: nat

    ghost function State(): Ledger
      reads this
    {
      Ledger(stars, currentLevelIndex, threadGroups, totalStarCount, starsPlaced, starsPlacedInLevel,
             reports, progress, finished, terminatePending, abandoned, abandonedInLevel)
    }

    ghost predicate Valid()
      reads this, base
    {
      base.Valid() &&
      (!started ==>
        stars == [] && currentLevelIndex == 0 && threadGroups == [] && reports == [] &&
        progress == [] && !finished && starsPlaced == 0 && abandoned == 0) &&
      (started ==> Running(base.idealThreadCount, Reserved(base.groups), State()))
    }

    /** No batch is pending and `finished` was not emitted: no worker is left to place
        a star or to finish, so nothing will ever re-enter `construct`. */
    ghost predicate Stalled()
      reads this
    {
      started && !finished && threadGroups == []
    }

    /** A level after level `after` was the last one scheduled, and every one of its
        batches is still pending, with a running worker that has placed nothing. */
    ghost predicate FreshlyScheduled(after: nat)
      reads this
    {
      after < currentLevelIndex <= |stars| && base.idealThreadCount >= 1 &&
      threadGroups == Spawned(Chunks(stars[currentLevelIndex - 1],
                                     GroupSize(|stars[currentLevelIndex - 1]|, base.idealThreadCount)))
    }

    constructor (base: Clustering, levelCount: int, countPerLevel: int, spacing: real, placeZeroStar: bool)
      requires base.Valid()
      ensures Valid() && !started
      ensures this.base == base && this.levelCount == levelCount && this.countPerLevel == countPerLevel
      ensures this.spacing == spacing && this.placeZeroStar == placeZeroStar
      ensures volumeRadius == [] && !terminatePending
    {
      this.base := base;
      this.levelCount := levelCount;
      this.countPerLevel := countPerLevel;
      this.spacing := spacing;
      this.placeZeroStar := placeZeroStar;
      volumeRadius := [];
      stars := [];
      threadGroups := [];
      terminatePending := false;
      currentLevelIndex := 0;
      totalStarCount := 0;
      starsPlacedInLevel := 0;
      starsPlaced := 0;
      reports := [];
      progress := [];
      finished := false;
      started := false;
      abandoned := 0;
      abandonedInLevel := 0;
    }

    /** What start stores before it schedules anything: the radius of each level, the
        visible stars of each built level sorted nearest first, and their total. */
    ghost predicate Built(place: (nat, Point) -> seq<Point>, visible: Point -> bool)
      reads this`volumeRadius, this`stars, this`totalStarCount
    {
      volumeRadius == Radii(levelCount, countPerLevel, spacing) &&
      Prepared(Levels(place, BuiltLevels(levelCount)), visible, stars) &&
      totalStarCount == |Flatten(stars)| == TotalLength(CulledUnits(visible, Levels(place, BuiltLevels(levelCount))))
    }

    /** start: computes the radii, builds the levels, keeps the visible stars of each
        level and counts them, sorts each level by distance, clears the counters and
        schedules the first level. The termination flag is left as it was. `place`
        stands for calculateLevel and `visible` for isPointVisible. */
    method Start(place: (nat, Point) -> seq<Point>, visible: Point -> bool)
      requires Valid() && !started
      modifies this`volumeRadius, this`stars, this`threadGroups, this`totalStarCount,
               this`currentLevelIndex, this`starsPlaced, this`started, this`starsPlacedInLevel,
               this`reports, this`finished, this`abandonedInLevel, base`groups
      ensures Valid() && started && Built(place, visible) && starsPlaced == 0
      ensures finished || (threadGroups != [] && FreshlyScheduled(0))
    {
      Prepare(place, visible);
      Construct();
    }

    /** The first half of start: the pending batches are cleared, the radii, levels
        and star total are computed and stored, and the index and placed counter are
        cleared. */
    method Prepare(place: (nat, Point) -> seq<Point>, visible: Point -> bool)
      requires Valid() && !started
      modifies this`volumeRadius, this`stars, this`threadGroups, this`totalStarCount,
               this`currentLevelIndex, this`starsPlaced, this`started
      ensures Valid() && started && threadGroups == [] && !finished
      ensures Built(place, visible) && starsPlaced == 0
    {
      var radii, levels, total := BuildStars(place, visible, levelCount, countPerLevel, spacing);
      Reset(radii, levels, total);
    }

    /** The bookkeeping part of start: the pending batches are cleared, the radii,
        levels and star total are stored, and the index and placed counter are
        cleared. */
    method Reset(radii: seq<real>, levels: seq<seq<Point>>, total: int)
      requires Valid() && !started
      requires total == |Flatten(levels)|
      modifies this`volumeRadius, this`stars, this`threadGroups, this`totalStarCount,
               this`currentLevelIndex, this`starsPlaced, this`started
      ensures Valid() && started && threadGroups == [] && !finished
      ensures volumeRadius == radii && stars == levels && totalStarCount == total && starsPlaced == 0
    {
      assert base.Valid() && reports == [] && !finished && abandoned == 0;
      threadGroups := [];
      volumeRadius := radii;
      stars := levels;
      totalStarCount := total;
      currentLevelIndex := 0;
      starsPlaced := 0;
      started := true;
      StartedRunning(base.idealThreadCount, Reserved(base.groups), State());
    }

    /** terminate: raises the flag each worker checks after placing a star. */
    method Terminate()
      requires Valid()
      modifies this`terminatePending
      ensures Valid() && terminatePending
    {
      terminatePending := true;
    }

    /** One iteration of the loop of worker `g`: the worker places its next star into
        its render group and the generator's state takes one `Placed` step. */
    method PlaceNext(g: nat, scale: real)
      requires Valid() && started
      requires g < |threadGroups| && threadGroups[g].running
      modifies this`threadGroups, this`starsPlaced, this`starsPlacedInLevel, this`progress,
               this`abandoned, this`abandonedInLevel, base`groups
      ensures Valid()
      ensures 0 < old(currentLevelIndex) <= |stars| && State() == Placed(old(State()), g)
      ensures 0 < starsPlaced <= totalStarCount && 0 < starsPlacedInLevel <= |stars[currentLevelIndex - 1]|
      ensures var w := old(threadGroups[g]);
              var last := old(base.groups[|base.groups| - 1]);
              base.groups == old(base.groups)[|old(base.groups)| - 1 := last[w.slot := WithStar(last[w.slot], w.stars[w.placed], scale)]]
    {
      ghost var l := State();
      PlacedKeeps(base.idealThreadCount, Reserved(base.groups), l, g);
      var w := threadGroups[g];
      base.AddStarInGroup(w.slot, w.stars[w.placed], scale);
      CountPlaced(g);
      assert Reserved(base.groups) == Reserved(old(base.groups));
    }

    /** The counting half of a worker's iteration: both counters go up by one and are
        reported, and the worker advances (and stops when done or told to). */
    method CountPlaced(g: nat)
      requires g < |threadGroups| && 0 < currentLevelIndex <= |stars|
      modifies this`threadGroups, this`starsPlaced, this`starsPlacedInLevel, this`progress,
               this`abandoned, this`abandonedInLevel
      ensures State() == Placed(old(State()), g)
    {
      var w := threadGroups[g];
      var stop := terminatePending;
      starsPlaced := starsPlaced + 1;
      progress := progress + [Progress(starsPlaced, totalStarCount, false)];
      starsPlacedInLevel := starsPlacedInLevel + 1;
      progress := progress + [Progress(starsPlacedInLevel, |stars[currentLevelIndex - 1]|, true)];
      abandoned := abandoned + Abandoned(w, stop);
      abandonedInLevel := abandonedInLevel + Abandoned(w, stop);
      threadGroups := threadGroups[g := Advanced(w, stop)];
    }

    /** The termination check of worker `g`'s loop, when `terminate` came after the
        worker released the mutex and before it read the flag: the worker returns
        without placing another star, and the rest of its batch is abandoned. The
        check follows a placed star, so the worker has placed at least one. */
    method CheckTerminated(g: nat)
      requires Valid() && started && terminatePending
      requires g < |threadGroups| && threadGroups[g].running && threadGroups[g].placed > 0
      modifies this`threadGroups, this`abandoned, this`abandonedInLevel
      ensures Valid() && State() == Stopped(old(State()), g)
    {
      ghost var l := State();
      StoppedKeeps(base.idealThreadCount, Reserved(base.groups), l, g);
      var w := threadGroups[g];
      abandoned := abandoned + Left(w);
      abandonedInLevel := abandonedInLevel + Left(w);
      threadGroups := threadGroups[g := Halted(w)];
      assert State() == Stopped(l, g);
    }

    /** The `finished` handler of worker `g`'s thread: the batch is removed from
        the pending list, then `construct` runs. */
    method GroupFinished(g: nat)
      requires Valid() && started
      requires g < |threadGroups| && !threadGroups[g].running
      modifies this`currentLevelIndex, this`threadGroups, this`starsPlacedInLevel,
               this`reports, this`finished, this`abandonedInLevel, base`groups
      ensures Valid()
      ensures old(|threadGroups|) > 1 ==>
                State() == Removed(old(State()), g) && base.groups == old(base.groups)
      ensures old(|threadGroups|) == 1 ==>
                finished || (threadGroups != [] && FreshlyScheduled(old(currentLevelIndex)))
    {
      RemovedKeeps(base.idealThreadCount, Reserved(base.groups), State(), g);
      threadGroups := threadGroups[..g] + threadGroups[g + 1..];
      Construct();
    }

    /** construct, corrected: when a level yields no batch (no visible star), there
        is no thread whose `finished` handler would call it again, so it runs again
        at once; the run then always has a pending batch or has finished. */
    method Construct()
      requires Valid() && started
      requires threadGroups == [] ==> !finished
      modifies this`currentLevelIndex, this`threadGroups, this`starsPlacedInLevel,
               this`reports, this`finished, this`abandonedInLevel, base`groups
      ensures Valid()
      ensures old(threadGroups) != [] ==> State() == old(State()) && base.groups == old(base.groups)
      ensures finished || threadGroups != []
      ensures |reports| >= |old(reports)|
      ensures old(threadGroups) == [] && !finished ==> FreshlyScheduled(old(currentLevelIndex))
    {
      ConstructAsWritten();
      while threadGroups == [] && !finished
        invariant Valid() && started
        invariant |reports| >= |old(reports)|
        invariant old(threadGroups) != [] ==> State() == old(State()) && base.groups == old(base.groups)
        invariant old(threadGroups) == [] && !finished ==> FreshlyScheduled(old(currentLevelIndex))
        decreases |stars| - currentLevelIndex, if finished then 0 else 1
      {
        ConstructAsWritten();
      }
    }

    /** construct as the source has it: the state takes one `Constructed` step, and
        one render group per new worker is reserved when a level is scheduled. A
        level with no visible star gets no batch and so no worker: the run stops
        there, unfinished. */
    method ConstructAsWritten()
      requires Valid() && started
      requires threadGroups == [] ==> !finished
      modifies this`currentLevelIndex, this`threadGroups, this`starsPlacedInLevel,
               this`reports, this`finished, this`abandonedInLevel, base`groups
      ensures Valid()
      ensures old(currentLevelIndex) <= |stars| && State() == Constructed(old(State()), base.idealThreadCount)
      ensures base.groups ==
                old(base.groups) + if Schedules(old(State())) then [Generation(|threadGroups|, base.starSize)] else []
      ensures Schedules(old(State())) && stars[old(currentLevelIndex)] == [] ==> Stalled()
      ensures Schedules(old(State())) ==> FreshlyScheduled(old(currentLevelIndex))
    {
      if threadGroups == [] {
        if currentLevelIndex == |stars| {
          FinishRun();
        } else {
          AdvanceLevel();
        }
      }
    }

    /** construct once every level was scheduled and no batch is pending: the last
        level is reported and `finished` is emitted. */
    method FinishRun()
      requires Valid() && started && threadGroups == [] && !finished && currentLevelIndex == |stars|
      modifies this`reports, this`finished
      ensures Valid()
      ensures State() == Reported(old(State())).(finished := true)
    {
      ghost var l := State();
      FinishedKeeps(base.idealThreadCount, Reserved(base.groups), l);
      ReportPrevious();
      finished := true;
      assert State() == Reported(l).(finished := true);
    }

    /** construct while a level is left and no batch is pending: the previous level,
        if any, is reported and the next level is scheduled. */
    method AdvanceLevel()
      requires Valid() && started && threadGroups == [] && !finished && currentLevelIndex < |stars|
      modifies this`currentLevelIndex, this`threadGroups, this`starsPlacedInLevel,
               this`reports, this`abandonedInLevel, base`groups
      ensures Valid()
      ensures State() == NextUnit(Reported(old(State())), base.idealThreadCount)
      ensures base.groups == old(base.groups) + [Generation(|threadGroups|, base.starSize)]
      ensures old(stars[currentLevelIndex]) == [] <==> threadGroups == []
      ensures FreshlyScheduled(old(currentLevelIndex))
    {
      ScheduledKeeps(base.idealThreadCount, Reserved(base.groups), State());
      ReportPrevious();
      ScheduleNext();
    }

    /** The first half of construct once no batch is pending: level
        `currentLevelIndex - 1`, if any, is reported with the number of stars placed
        so far and the stars of all levels up to it. */
    method ReportPrevious()
      requires currentLevelIndex <= |stars|
      modifies this`reports
      ensures State() == Reported(old(State()))
    {
      var k := currentLevelIndex;
      if k > 0 {
        var starsInCurrentAndPreviousLevels := GatherUnits(stars, k);
        reports := reports + [Row(k - 1, starsPlaced, starsInCurrentAndPreviousLevels)];
      }
    }

    /** The scheduling half of construct: the current level is split into batches,
        one render group is reserved per batch, one worker is started per batch and
        the index moves on. */
    method ScheduleNext()
      requires currentLevelIndex < |stars| && base.Valid()
      modifies this`currentLevelIndex, this`threadGroups, this`starsPlacedInLevel, this`abandonedInLevel,
               base`groups
      ensures State() == NextUnit(old(State()), base.idealThreadCount)
      ensures base.groups == old(base.groups) + [Generation(|threadGroups|, base.starSize)]
      ensures base.Valid()
    {
      ghost var r := State();
      var k := currentLevelIndex;
      starsPlacedInLevel := 0;
      abandonedInLevel := 0;
      var starsInLevel := stars[k];
      var batches := DistributeStarsInThreads(starsInLevel, base.idealThreadCount);
      threadGroups := Spawned(batches);
      base.ReserveGroups(|threadGroups|);
      currentLevelIndex := k + 1;
      assert batches == Batches(r, base.idealThreadCount, k);
    }
  }
  /** The single level holding `ORIGIN`, when `ORIGIN` is visible, is stored as
      exactly that point. */
  lemma OriginLevelPrepared(visible: Point -> bool, stars: seq<seq<Point>>)
    requires visible(ORIGIN) && Prepared([[ORIGIN]], visible, stars)
    ensures stars == [[ORIGIN]]
  {
    assert PreparedLevel(stars[0], [[ORIGIN]][0], visible);
    assert [ORIGIN][..0] == [];
    assert Filter(visible, [ORIGIN]) == [ORIGIN];
    assert multiset(stars[0]) == multiset{ORIGIN};
    assert |stars[0]| == 1;
    assert stars[0] == [stars[0][0]];
    assert stars[0][0] == ORIGIN by {
      assert ORIGIN in multiset{stars[0][0]};
    }
  }

  /** A finished, uninterrupted run over the single level holding `ORIGIN` has made
      exactly one report, counting that star. */
  lemma OriginRunReports(idealThreadCount: int, reserved: int, l: Ledger)
    requires Running(idealThreadCount, reserved, l)
    requires l.units == [[ORIGIN]] && l.finished && !l.stop
    ensures l.reports == [Row(0, 1, [ORIGIN])]
  {
    assert [[ORIGIN]][..1] == [[ORIGIN]] && Flatten([[ORIGIN]]) == [ORIGIN];
    assert l.reports[0].unitIndex == 0 && l.reports[0].sample == [ORIGIN];
  }

  /** A new generator of one level, whose one point is visible, started: that level
      is stored as exactly `ORIGIN` and scheduled as one batch with its worker
      running. */
  method StartOneLevel(place: (nat, Point) -> seq<Point>) returns (fractal: FractalClustering)
    ensures fresh(fractal) && fresh(fractal.base)
    ensures fractal.Valid() && fractal.started && !fractal.finished && !fractal.terminatePending
    ensures fractal.stars == [[ORIGIN]] && fractal.threadGroups == Spawned([[ORIGIN]])
  {
    var base := new Clustering(1);
    fractal := new FractalClustering(base, 1, 1, 0.0, false);
    var visible := (q: Point) => true;
    fractal.Start(place, visible);
    assert Levels(place, BuiltLevels(1)) == [[ORIGIN]];
    OriginLevelPrepared(visible, fractal.stars);
    assert Chunks([ORIGIN], GroupSize(1, 1)) == [[ORIGIN]];
  }

  /** A whole run of a single level, whose one point is visible: after start, the
      worker's one iteration and its `finished` handler, the generator has emitted
      `finished` and made exactly one report, counting that star. */
  method OneLevelRun(place: (nat, Point) -> seq<Point>) returns (finished: bool, reports: seq<Row>)
    ensures finished && reports == [Row(0, 1, [ORIGIN])]
  {
    var fractal := StartOneLevel(place);
    fractal.PlaceNext(0, 1.0);
    fractal.GroupFinished(0);
    OriginRunReports(fractal.base.idealThreadCount, Reserved(fractal.base.groups), fractal.State());
    finished, reports := fractal.finished, fractal.reports;
  }
}
