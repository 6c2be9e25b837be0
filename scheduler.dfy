/** The bookkeeping the two generators share. Each generator works through a list of
    units (the shells of HalleyClustering.cpp, the levels of FractalClustering.cpp):
    the visible stars of each unit are kept, and units are placed one after another,
    each split into batches that worker threads place star by star. When no batch of
    the current unit is pending, the next unit is scheduled.

    The state a generator's events change is captured as a `Ledger` value, and each
    event shared by both generators as a step function on it. */
module Scheduler {
  import opened Common
  import opened Clustering

  // ---------------------------------------------------------------------------
  // Culling and counting

  /** The visible stars of each unit, from the candidate stars of each unit. */
  function CulledUnits(visible: Point -> bool, candidates: seq<seq<Point>>): (units: seq<seq<Point>>)
    ensures |units| == |candidates|
  {
    if candidates == [] then []
    else CulledUnits(visible, candidates[..|candidates| - 1]) + [Filter(visible, candidates[|candidates| - 1])]
  }

  /** The occlusion culling and counting loop: for each unit, the candidates that are
      visible are kept in order, and the kept stars are counted. */
  method CullUnits(candidates: seq<seq<Point>>, visible: Point -> bool) returns (units: seq<seq<Point>>, total: int)
    ensures units == CulledUnits(visible, candidates)
    ensures total == TotalLength(units) == |Flatten(units)|
  {
    units := [];
    total := 0;
    for n := 0 to |candidates|
      invariant units == CulledUnits(visible, candidates[..n])
      invariant total == TotalLength(units)
    {
      var unit: seq<Point> := [];
      for star := 0 to |candidates[n]|
        invariant unit == Filter(visible, candidates[n][..star])
      {
        assert candidates[n][..star + 1][..star] == candidates[n][..star];
        if visible(candidates[n][star]) {
          unit := unit + [candidates[n][star]];
        }
      }
      assert candidates[n][..|candidates[n]|] == candidates[n];
      assert candidates[..n + 1][..n] == candidates[..n];
      FlattenAppend(units, unit);
      units := units + [unit];
      total := total + |unit|;
    }
    assert candidates[..|candidates|] == candidates;
    FlattenLength(units);
  }

  /** Unit `n` of the culled units holds the visible candidates of unit `n`. */
  lemma {:induction false} CulledUnitsAt(visible: Point -> bool, candidates: seq<seq<Point>>)
    ensures |CulledUnits(visible, candidates)| == |candidates|
    ensures forall n :: 0 <= n < |candidates| ==>
              CulledUnits(visible, candidates)[n] == Filter(visible, candidates[n])
    decreases |candidates|
  {
    if candidates != [] {
      CulledUnitsAt(visible, candidates[..|candidates| - 1]);
    }
  }

  /** Each stored unit holds exactly the visible candidates of that unit, and no unit
      holds more stars than it had candidates. */
  lemma CulledUnitsKeepVisible(visible: Point -> bool, candidates: seq<seq<Point>>)
    ensures |CulledUnits(visible, candidates)| == |candidates|
    ensures forall n, p :: 0 <= n < |candidates| ==>
              (p in CulledUnits(visible, candidates)[n] <==> p in candidates[n] && visible(p))
    ensures forall n :: 0 <= n < |candidates| ==>
              |CulledUnits(visible, candidates)[n]| <= |candidates[n]|
  {
    CulledUnitsAt(visible, candidates);
    forall n | 0 <= n < |candidates|
      ensures forall p :: p in CulledUnits(visible, candidates)[n] <==> p in candidates[n] && visible(p)
      ensures |CulledUnits(visible, candidates)[n]| <= |candidates[n]|
    {
      FilterMembership(visible, candidates[n]);
      FilterCounts(visible, candidates[n]);
    }
  }

  /** The stars of units `0..k-1`, gathered unit after unit: the stars a report
      integrates. */
  method GatherUnits(units: seq<seq<Point>>, k: nat) returns (gathered: seq<Point>)
    requires k <= |units|
    ensures gathered == Flatten(units[..k])
  {
    gathered := [];
    for i := 0 to k
      invariant gathered == Flatten(units[..i])
    {
      assert units[..i + 1] == units[..i] + [units[i]];
      FlattenAppend(units[..i], units[i]);
      gathered := gathered + units[i];
    }
  }

  // ---------------------------------------------------------------------------
  // Where every star of the current unit is

  /** The bookkeeping while unit `k` is the current one: the pending workers own
      batches of unit `k`, one render group was reserved per batch, and every star
      of unit `k` (and of units `0..k`) is placed, still to be placed by a running
      worker, or abandoned by a worker that stopped early. */
  ghost predicate Accounts(units: seq<seq<Point>>, k: nat, idealThreadCount: int, reserved: int,
                           ws: seq<Worker>, placedInUnit: int, placed: int,
                           abandonedInUnit: nat, abandoned: nat)
  {
    k < |units| && idealThreadCount >= 1 && 0 <= placedInUnit && 0 <= placed &&
    var batches := Chunks(units[k], GroupSize(|units[k]|, idealThreadCount));
    WorkersOf(ws, batches) && reserved == |batches| &&
    placedInUnit + Remaining(ws) + abandonedInUnit == |units[k]| &&
    placed + Remaining(ws) + abandoned == |Flatten(units[..k + 1])| &&
    abandonedInUnit <= abandoned
  }

  /** A worker that places its next star: it stops once its batch is done or once
      termination was requested (checked after each star). */
  function Advanced(w: Worker, stop: bool): (r: Worker)
    ensures r.slot == w.slot && r.stars == w.stars && r.placed == w.placed + 1
    ensures r.running <==> r.placed < |r.stars| && !stop
  {
    Worker(w.slot, w.stars, w.placed + 1, w.placed + 1 < |w.stars| && !stop)
  }

  /** The stars of its batch a worker will never place because it stopped early. */
  function Abandoned(w: Worker, stop: bool): nat
  {
    if w.placed + 1 < |w.stars| && stop then |w.stars| - (w.placed + 1) else 0
  }

  lemma AccountsPlace(units: seq<seq<Point>>, k: nat, idealThreadCount: int, reserved: int,
                      ws: seq<Worker>, g: nat, stop: bool, placedInUnit: int, placed: int,
                      abandonedInUnit: nat, abandoned: nat)
    requires Accounts(units, k, idealThreadCount, reserved, ws, placedInUnit, placed, abandonedInUnit, abandoned)
    requires g < |ws| && ws[g].running
    ensures placedInUnit + 1 <= |units[k]| && placed + 1 <= |Flatten(units[..k + 1])|
    ensures ws[g].slot < reserved && ws[g].placed < |ws[g].stars|
    ensures Accounts(units, k, idealThreadCount, reserved, ws[g := Advanced(ws[g], stop)],
                     placedInUnit + 1, placed + 1,
                     abandonedInUnit + Abandoned(ws[g], stop), abandoned + Abandoned(ws[g], stop))
  {
    var batches := Chunks(units[k], GroupSize(|units[k]|, idealThreadCount));
    var w' := Advanced(ws[g], stop);
    RemainingUpdate(ws, g, w');
    var ws' := ws[g := w'];
    assert WorkersOf(ws', batches) by {
      forall i, j | 0 <= i < j < |ws'| ensures ws'[i].slot < ws'[j].slot {
        assert ws'[i].slot == ws[i].slot && ws'[j].slot == ws[j].slot;
      }
    }
  }

  /** A running worker whose termination check sees the flag before it places its
      next star: it stops where it is. */
  function Halted(w: Worker): Worker
  {
    Worker(w.slot, w.stars, w.placed, false)
  }

  /** A worker that stops without placing another star keeps every star accounted
      for: what it had left is now abandoned. */
  lemma AccountsHalt(units: seq<seq<Point>>, k: nat, idealThreadCount: int, reserved: int,
                     ws: seq<Worker>, g: nat, placedInUnit: int, placed: int,
                     abandonedInUnit: nat, abandoned: nat)
    requires Accounts(units, k, idealThreadCount, reserved, ws, placedInUnit, placed, abandonedInUnit, abandoned)
    requires g < |ws| && ws[g].running
    ensures Left(ws[g]) == |ws[g].stars| - ws[g].placed > 0
    ensures Accounts(units, k, idealThreadCount, reserved, ws[g := Halted(ws[g])],
                     placedInUnit, placed, abandonedInUnit + Left(ws[g]), abandoned + Left(ws[g]))
  {
    var batches := Chunks(units[k], GroupSize(|units[k]|, idealThreadCount));
    var w' := Halted(ws[g]);
    RemainingUpdate(ws, g, w');
    var ws' := ws[g := w'];
    assert WorkersOf(ws', batches) by {
      forall i, j | 0 <= i < j < |ws'| ensures ws'[i].slot < ws'[j].slot {
        assert ws'[i].slot == ws[i].slot && ws'[j].slot == ws[j].slot;
      }
    }
  }

  lemma AccountsRemove(units: seq<seq<Point>>, k: nat, idealThreadCount: int, reserved: int,
                       ws: seq<Worker>, g: nat, placedInUnit: int, placed: int,
                       abandonedInUnit: nat, abandoned: nat)
    requires Accounts(units, k, idealThreadCount, reserved, ws, placedInUnit, placed, abandonedInUnit, abandoned)
    requires g < |ws| && !ws[g].running
    ensures Accounts(units, k, idealThreadCount, reserved, ws[..g] + ws[g + 1..],
                     placedInUnit, placed, abandonedInUnit, abandoned)
  {
    var batches := Chunks(units[k], GroupSize(|units[k]|, idealThreadCount));
    RemainingRemove(ws, g);
    WorkersOfRemove(ws, batches, g);
  }

  lemma AccountsSchedule(units: seq<seq<Point>>, k: nat, idealThreadCount: int, placed: int, abandoned: nat)
    requires k < |units| && idealThreadCount >= 1
    requires 0 <= placed && placed + abandoned == |Flatten(units[..k])|
    ensures var batches := Chunks(units[k], GroupSize(|units[k]|, idealThreadCount));
            Accounts(units, k, idealThreadCount, |batches|, Spawned(batches), 0, placed, 0, abandoned) &&
            (units[k] == [] <==> batches == [])
  {
    var size := GroupSize(|units[k]|, idealThreadCount);
    var batches := Chunks(units[k], size);
    ChunksShape(units[k], size);
    ChunksFlatten(units[k], size);
    FlattenLength(batches);
    RemainingSpawned(batches);
    SpawnedAreWorkers(batches);
    assert units[..k + 1] == units[..k] + [units[k]];
    FlattenAppend(units[..k], units[k]);
  }

  lemma PlacedWithinTotal(units: seq<seq<Point>>, k: nat, placed: int)
    requires k < |units| && placed <= |Flatten(units[..k + 1])|
    ensures placed <= |Flatten(units)|
  {
    FlattenPrefixGrows(units, k + 1, |units|);
    assert units[..|units|] == units;
  }

  // ---------------------------------------------------------------------------
  // A generator's state as a value, and the steps both generators share

  /** The members of a generator that its events change: the stars of each unit, the
      current unit index, the pending workers, the star total, both placed counters,
      the reports and progress emitted, whether `finished` was emitted, the
      termination flag, and (ghost bookkeeping) the stars abandoned by workers that
      stopped early. */
  datatype Ledger = Ledger(units: seq<seq<Point>>, index: nat, workers: seq<Worker>, total: int,
                           placed: int, placedInUnit: int, reports: seq<Row>,
                           progress: seq<Progress>, finished: bool, stop: bool,
                           abandoned: nat, abandonedInUnit: nat)

  /** The size of the newest generation of render groups, or -1 when none was reserved. */
  function Reserved(groups: seq<seq<StarGroup>>): int
  {
    if groups == [] then -1 else |groups[|groups| - 1]|
  }

  /** One iteration of the loop of worker `g`: its next star is placed, both
      counters go up by one and each is reported, and the worker stops when its
      batch is done or termination was requested. */
  function Placed(l: Ledger, g: nat): Ledger
    requires g < |l.workers| && 0 < l.index <= |l.units|
  {
    var w := l.workers[g];
    Ledger(l.units, l.index, l.workers[g := Advanced(w, l.stop)], l.total,
           l.placed + 1, l.placedInUnit + 1, l.reports,
           l.progress + [Progress(l.placed + 1, l.total, false)]
                      + [Progress(l.placedInUnit + 1, |l.units[l.index - 1]|, true)],
           l.finished, l.stop, l.abandoned + Abandoned(w, l.stop), l.abandonedInUnit + Abandoned(w, l.stop))
  }

  /** Worker `g`'s termination check, made after a star it placed while the flag was
      still clear, sees the flag raised since: the worker stops without placing
      another star, and the stars left in its batch are abandoned. Nothing is
      placed, counted or reported. */
  function Stopped(l: Ledger, g: nat): Ledger
    requires g < |l.workers|
  {
    var w := l.workers[g];
    l.(workers := l.workers[g := Halted(w)],
       abandoned := l.abandoned + Left(w), abandonedInUnit := l.abandonedInUnit + Left(w))
  }

  /** The worker of entry `g` has stopped and leaves the pending list. */
  function Removed(l: Ledger, g: nat): Ledger
    requires g < |l.workers|
  {
    l.(workers := l.workers[..g] + l.workers[g + 1..])
  }

  /** The batches unit `k` is split into. */
  function Batches(l: Ledger, idealThreadCount: int, k: nat): seq<seq<Point>>
    requires k < |l.units| && idealThreadCount >= 1
  {
    Chunks(l.units[k], GroupSize(|l.units[k]|, idealThreadCount))
  }

  /** The current unit gets one worker per batch, and the index moves on. */
  function NextUnit(l: Ledger, idealThreadCount: int): Ledger
    requires l.index < |l.units| && idealThreadCount >= 1
  {
    l.(placedInUnit := 0, abandonedInUnit := 0,
       workers := Spawned(Batches(l, idealThreadCount, l.index)), index := l.index + 1)
  }

  /** Whether the advance step schedules a unit (and so reserves a new generation of
      render groups): no batch is pending and a unit is left. */
  predicate Schedules(l: Ledger)
  {
    l.workers == [] && l.index < |l.units|
  }
}
