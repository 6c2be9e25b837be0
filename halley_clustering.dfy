/** The shell generator (HalleyClustering.cpp): visible stars are kept per spherical
    shell, and shells are placed one after another by worker threads, one batch per
    thread. When every batch of a shell has finished, the generator reports the
    cumulative star count of the shells placed so far, closes the gate, and schedules
    the next shell, or signals that it has finished.

    Threads are modelled as events the environment may interleave freely: `PlaceNext`
    is one iteration of a worker's loop and `GroupFinished` is the handler of that
    worker's `finished` signal. */
module Halley {
  import opened Common
  import opened Clustering
  import opened Scheduler

  /** The report made once shell `k` is fully placed: its index, and the stars of
      shells `0..k`, whose count is shown and whose magnitudes are integrated. */
  function ShellReport(shells: seq<seq<Point>>, k: nat): Row
    requires k < |shells|
  {
    Row(k, |Flatten(shells[..k + 1])|, Flatten(shells[..k + 1]))
  }

  /** Successive reports never show fewer stars, and each later report integrates
      every star an earlier one did, first and in the same order. */
  lemma ShellReportsGrow(shells: seq<seq<Point>>, i: nat, j: nat)
    requires i <= j < |shells|
    ensures ShellReport(shells, i).starCount <= ShellReport(shells, j).starCount
    ensures ShellReport(shells, j).sample[..ShellReport(shells, i).starCount] == ShellReport(shells, i).sample
  {
    FlattenPrefixGrows(shells, i + 1, j + 1);
  }

  /** Every report made so far is the report of its shell. */
  ghost predicate ReportsMatch(shells: seq<seq<Point>>, reports: seq<Row>)
  {
    |reports| <= |shells| && forall j :: 0 <= j < |reports| ==> reports[j] == ShellReport(shells, j)
  }

  // ---------------------------------------------------------------------------
  // The invariant of a started shell generator, and its advance step

  /** The invariant of a started generator with `shellCount` shells. */
  ghost predicate Running(shellCount: nat, idealThreadCount: int, reserved: int, l: Ledger)
  {
    |l.units| == shellCount && l.index <= shellCount && idealThreadCount >= 1 &&
    l.total == |Flatten(l.units)| &&
    ReportsMatch(l.units, l.reports) &&
    (!l.stop ==> l.abandoned == 0) &&
    (l.finished ==> l.workers == [] && l.index == shellCount && |l.reports| == shellCount) &&
    (l.index == 0 ==> l.workers == [] && l.reports == [] && l.placed == 0 && l.abandoned == 0) &&
    (l.index > 0 ==>
      (!l.finished ==> |l.reports| == l.index - 1) &&
      Accounts(l.units, l.index - 1, idealThreadCount, reserved, l.workers,
               l.placedInUnit, l.placed, l.abandonedInUnit, l.abandoned))
  }

  /** A generator that has culled its shells and scheduled nothing yet satisfies the
      invariant of a started generator. */
  lemma StartedRunning(shellCount: nat, idealThreadCount: int, reserved: int, l: Ledger)
    requires |l.units| == shellCount && idealThreadCount >= 1 && l.total == |Flatten(l.units)|
    requires l.index == 0 && l.workers == [] && l.reports == [] && l.progress == [] && !l.finished
    requires l.placed == 0 && l.abandoned == 0
    ensures Running(shellCount, idealThreadCount, reserved, l)
  {
  }

  /** Placing a star keeps the invariant: the placed counters never exceed the size
      of the shell or the total, and every star is still accounted for. */
  lemma PlacedKeeps(shellCount: nat, idealThreadCount: int, reserved: int, l: Ledger, g: nat)
    requires Running(shellCount, idealThreadCount, reserved, l)
    requires g < |l.workers| && l.workers[g].running
    ensures 0 < l.index <= |l.units| && l.workers[g].slot < reserved
    ensures l.workers[g].placed < |l.workers[g].stars|
    ensures Running(shellCount, idealThreadCount, reserved, Placed(l, g))
    ensures 0 < Placed(l, g).placed <= Placed(l, g).total
    ensures 0 < Placed(l, g).placedInUnit <= |l.units[l.index - 1]|
  {
    var k := l.index - 1;
    AccountsPlace(l.units, k, idealThreadCount, reserved, l.workers, g, l.stop,
                  l.placedInUnit, l.placed, l.abandonedInUnit, l.abandoned);
    PlacedWithinTotal(l.units, k, l.placed + 1);
  }

  /** A worker that stops at its termination check keeps the invariant; it places,
      counts and reports nothing, and only that worker changes, to a stopped one
      with the same batch and count. */
  lemma StoppedKeeps(shellCount: nat, idealThreadCount: int, reserved: int, l: Ledger, g: nat)
    requires Running(shellCount, idealThreadCount, reserved, l)
    requires l.stop && g < |l.workers| && l.workers[g].running
    ensures Running(shellCount, idealThreadCount, reserved, Stopped(l, g))
    ensures var l' := Stopped(l, g);
            l'.placed == l.placed && l'.placedInUnit == l.placedInUnit && l'.progress == l.progress &&
            l'.reports == l.reports && l'.index == l.index && |l'.workers| == |l.workers|
    ensures var w := Stopped(l, g).workers[g];
            !w.running && w.slot == l.workers[g].slot && w.stars == l.workers[g].stars &&
            w.placed == l.workers[g].placed
    ensures forall i :: 0 <= i < |l.workers| && i != g ==> Stopped(l, g).workers[i] == l.workers[i]
  {
    AccountsHalt(l.units, l.index - 1, idealThreadCount, reserved, l.workers, g,
                 l.placedInUnit, l.placed, l.abandonedInUnit, l.abandoned);
  }

  lemma RemovedKeeps(shellCount: nat, idealThreadCount: int, reserved: int, l: Ledger, g: nat)
    requires Running(shellCount, idealThreadCount, reserved, l)
    requires g < |l.workers| && !l.workers[g].running
    ensures Running(shellCount, idealThreadCount, reserved, Removed(l, g))
  {
    AccountsRemove(l.units, l.index - 1, idealThreadCount, reserved, l.workers, g,
                   l.placedInUnit, l.placed, l.abandonedInUnit, l.abandoned);
  }

  /** constructShell as written: nothing while a batch is pending; otherwise the
      previous shell is reported, then `finished` is emitted when every shell was
      scheduled, or else the next shell gets one worker per batch. */
  function Constructed(l: Ledger, idealThreadCount: int): Ledger
    requires l.index <= |l.units| && idealThreadCount >= 1
  {
    if l.workers != [] then l
    else if l.index == |l.units| then Reported(l).(finished := true)
    else NextUnit(Reported(l), idealThreadCount)
  }

  /** The previous shell, if any, is reported. */
  function Reported(l: Ledger): (r: Ledger)
    requires l.index <= |l.units|
    ensures r.units == l.units && r.index == l.index && r.workers == l.workers
  {
    if l.index > 0 then l.(reports := l.reports + [ShellReport(l.units, l.index - 1)]) else l
  }

  /** Reporting the last shell and emitting `finished` keeps the invariant. */
  lemma FinishedKeeps(shellCount: nat, idealThreadCount: int, reserved: int, l: Ledger)
    requires Running(shellCount, idealThreadCount, reserved, l)
    requires l.workers == [] && l.index == |l.units| && !l.finished
    ensures Running(shellCount, idealThreadCount, reserved, Reported(l).(finished := true))
  {
    if l.index > 0 {
      ReportsExtend(l.units, l.reports, l.index - 1);
    }
  }

  /** Reporting the previous shell and scheduling the next keeps the invariant, with
      one reserved render group per new worker; a shell with no visible star gets no
      worker. */
  lemma ScheduledKeeps(shellCount: nat, idealThreadCount: int, reserved: int, l: Ledger)
    requires Running(shellCount, idealThreadCount, reserved, l)
    requires l.workers == [] && l.index < |l.units| && !l.finished
    ensures var next := NextUnit(Reported(l), idealThreadCount);
            Running(shellCount, idealThreadCount, |next.workers|, next) &&
            (l.units[l.index] == [] <==> next.workers == [])
  {
    var k := l.index;
    if k > 0 {
      ReportsExtend(l.units, l.reports, k - 1);
    }
    assert l.placed + l.abandoned == |Flatten(l.units[..k])| by {
      if k == 0 {
        assert l.units[..0] == [];
      }
    }
    AccountsSchedule(l.units, k, idealThreadCount, l.placed, l.abandoned);
  }

  /** constructShell keeps the invariant; when it schedules a shell, the newest
      generation holds exactly one render group per new worker. A shell with no
      visible star is scheduled with no worker at all, and nothing is finished. */
  lemma ConstructedKeeps(shellCount: nat, idealThreadCount: int, reserved: int, l: Ledger)
    requires Running(shellCount, idealThreadCount, reserved, l)
    requires l.workers == [] ==> !l.finished
    ensures Running(shellCount, idealThreadCount,
                    if Schedules(l) then |Constructed(l, idealThreadCount).workers| else reserved,
                    Constructed(l, idealThreadCount))
    ensures Schedules(l) ==>
              (l.units[l.index] == [] <==> Constructed(l, idealThreadCount).workers == []) &&
              !Constructed(l, idealThreadCount).finished
  {
    if l.workers == [] {
      if l.index == |l.units| {
        FinishedKeeps(shellCount, idealThreadCount, reserved, l);
      } else {
        ScheduledKeeps(shellCount, idealThreadCount, reserved, l);
      }
    }
  }

  lemma ReportsExtend(shells: seq<seq<Point>>, reports: seq<Row>, k: nat)
    requires ReportsMatch(shells, reports) && |reports| == k < |shells|
    ensures ReportsMatch(shells, reports + [ShellReport(shells, k)])
  {
  }

  // ---------------------------------------------------------------------------
  // The generator

  class HalleyClustering {
    const base: Clustering
    const shellCount: nat
    const shellThickness: real
    const firstShellDistance: real

    /** `_stars`: the visible stars of each shell. */
    var stars: seq<seq<Point>>
    var currentShellIndex: nat
    /** `_threadGroups`: the batches of the current shell whose thread has not yet
        been handled as finished. */
    var threadGroups: seq<Worker>
    var terminatePending: bool
    var totalStarCount: int
    var starsPlaced: int
    var starsPlacedInShell: int
    /** The `clusterDone` reports made so far. */
    var reports: seq<Row>
    /** The `updateProgress` emissions made so far. */
    var progress: seq<Progress>
    /** Whether `finished` has been emitted. */
    var finished: bool

    ghost var started: bool
    /** Stars of scheduled batches that were never placed because their worker stopped
        early after `terminate`, over the whole run and in the current shell. */
    ghost var abandoned: nat
    ghost var abandonedInShell: nat

    ghost function State(): Ledger
      reads this
    {
      Ledger(stars, currentShellIndex, threadGroups, totalStarCount, starsPlaced, starsPlacedInShell,
             reports, progress, finished, terminatePending, abandoned, abandonedInShell)
    }

    ghost predicate Valid()
      reads this, base
    {
      base.Valid() &&
      (!started ==>
        stars == [] && currentShellIndex == 0 && threadGroups == [] && reports == [] &&
        progress == [] && !finished && starsPlaced == 0 && abandoned == 0) &&
      (started ==> Running(shellCount, base.idealThreadCount, Reserved(base.groups), State()))
    }

    /** No batch is pending and `finished` was not emitted: no worker is left to place
        a star or to finish, so nothing will ever re-enter `constructShell`. */
    ghost predicate Stalled()
      reads this
    {
      started && !finished && threadGroups == []
    }

    /** A shell after shell `after` was the last one scheduled, and every one of its
        batches is still pending, with a running worker that has placed nothing. */
    ghost predicate FreshlyScheduled(after: nat)
      reads this
    {
      after < currentShellIndex <= |stars| && base.idealThreadCount >= 1 &&
      threadGroups == Spawned(Chunks(stars[currentShellIndex - 1],
                                     GroupSize(|stars[currentShellIndex - 1]|, base.idealThreadCount)))
    }

    constructor (base: Clustering, shellCount: nat := 1, shellThickness: real := 50.0, firstShellDistance: real := 1.29)
      requires base.Valid()
      ensures Valid() && !started
      ensures this.base == base && this.shellCount == shellCount
      ensures this.shellThickness == shellThickness && this.firstShellDistance == firstShellDistance
      ensures !terminatePending
    {
      this.base := base;
      this.shellCount := shellCount;
      this.shellThickness := shellThickness;
      this.firstShellDistance := firstShellDistance;
      stars := [];
      currentShellIndex := 0;
      threadGroups := [];
      terminatePending := false;
      totalStarCount := 0;
      starsPlaced := 0;
      starsPlacedInShell := 0;
      reports := [];
      progress := [];
      finished := false;
      started := false;
      abandoned := 0;
      abandonedInShell := 0;
    }

    /** start: clears the counters, keeps the visible candidates of every shell
        (`candidates[n]` stands for the stars sampled at random for shell `n`), counts
        them, schedules the first shell and opens the gate. */
    method Start(candidates: seq<seq<Point>>, visible: Point -> bool)
      requires Valid() && !started
      requires |candidates| == shellCount
      modifies this`stars, this`terminatePending, this`totalStarCount, this`starsPlaced,
               this`started, this`currentShellIndex, this`threadGroups, this`starsPlacedInShell,
               this`reports, this`finished, this`abandonedInShell, base`groups, base`isNextClusterReady
      ensures Valid() && started
      ensures stars == CulledUnits(visible, candidates)
      ensures totalStarCount == TotalLength(stars)
      ensures !terminatePending && starsPlaced == 0
      ensures base.isNextClusterReady
      ensures finished || (threadGroups != [] && FreshlyScheduled(0))
    {
      var shells, total := CullUnits(candidates, visible);
      Reset(shells, total);
      ConstructShell();
      base.SetNextClusterReady();
    }

    /** The bookkeeping part of start: the flag and the counters are cleared, and the
        culled shells and their star total are stored. */
    method Reset(shells: seq<seq<Point>>, total: int)
      requires Valid() && !started
      requires |shells| == shellCount && total == |Flatten(shells)|
      modifies this`stars, this`terminatePending, this`totalStarCount, this`starsPlaced, this`started
      ensures Valid() && started && threadGroups == [] && !finished
      ensures stars == shells && totalStarCount == total && starsPlaced == 0 && !terminatePending
    {
      terminatePending := false;
      totalStarCount := 0;
      starsPlaced := 0;
      stars := shells;
      totalStarCount := total;
      started := true;
      StartedRunning(shellCount, base.idealThreadCount, Reserved(base.groups), State());
    }

    /** terminate: raises the flag each worker checks after placing a star. */
    method Terminate()
      requires Valid()
      modifies this`terminatePending
      ensures Valid() && terminatePending
    {
      terminatePending := true;
    }

    /** One iteration of the loop of worker `g`, allowed once the gate is open: the
        worker places its next star into its render group and the generator's state
        takes one `Placed` step. */
    method PlaceNext(g: nat, scale: real)
      requires Valid() && started
      requires g < |threadGroups| && threadGroups[g].running
      requires base.isNextClusterReady
      modifies this`threadGroups, this`starsPlaced, this`starsPlacedInShell, this`progress,
               this`abandoned, this`abandonedInShell, base`groups
      ensures Valid()
      ensures 0 < old(currentShellIndex) <= |stars| && State() == Placed(old(State()), g)
      ensures 0 < starsPlaced <= totalStarCount && 0 < starsPlacedInShell <= |stars[currentShellIndex - 1]|
      ensures var w := old(threadGroups[g]);
              var last := old(base.groups[|base.groups| - 1]);
              base.groups == old(base.groups)[|old(base.groups)| - 1 := last[w.slot := WithStar(last[w.slot], w.stars[w.placed], scale)]]
    {
      ghost var l := State();
      PlacedKeeps(shellCount, base.idealThreadCount, Reserved(base.groups), l, g);
      var w := threadGroups[g];
      base.AddStarInGroup(w.slot, w.stars[w.placed], scale);
      CountPlaced(g);
      assert Reserved(base.groups) == Reserved(old(base.groups));
    }

    /** The counting half of a worker's iteration: both counters go up by one and are
        reported, and the worker advances (and stops when done or told to). */
    method CountPlaced(g: nat)
      requires g < |threadGroups| && 0 < currentShellIndex <= |stars|
      modifies this`threadGroups, this`starsPlaced, this`starsPlacedInShell, this`progress,
               this`abandoned, this`abandonedInShell
      ensures State() == Placed(old(State()), g)
    {
      var w := threadGroups[g];
      var stop := terminatePending;
      starsPlaced := starsPlaced + 1;
      progress := progress + [Progress(starsPlaced, totalStarCount, false)];
      starsPlacedInShell := starsPlacedInShell + 1;
      progress := progress + [Progress(starsPlacedInShell, |stars[currentShellIndex - 1]|, true)];
      abandoned := abandoned + Abandoned(w, stop);
      abandonedInShell := abandonedInShell + Abandoned(w, stop);
      threadGroups := threadGroups[g := Advanced(w, stop)];
    }

    /** The termination check of worker `g`'s loop, when `terminate` came after the
        worker released the mutex and before it read the flag: the worker returns
        without placing another star, and the rest of its batch is abandoned. The
        check follows a placed star, so the worker has placed at least one. */
    method CheckTerminated(g: nat)
      requires Valid() && started && terminatePending
      requires g < |threadGroups| && threadGroups[g].running && threadGroups[g].placed > 0
      modifies this`threadGroups, this`abandoned, this`abandonedInShell
      ensures Valid() && State() == Stopped(old(State()), g)
    {
      ghost var l := State();
      StoppedKeeps(shellCount, base.idealThreadCount, Reserved(base.groups), l, g);
      var w := threadGroups[g];
      abandoned := abandoned + Left(w);
      abandonedInShell := abandonedInShell + Left(w);
      threadGroups := threadGroups[g := Halted(w)];
      assert State() == Stopped(l, g);
    }

    /** The `finished` handler of worker `g`'s thread: the batch is removed from
        the pending list, then `constructShell` runs. */
    method GroupFinished(g: nat)
      requires Valid() && started
      requires g < |threadGroups| && !threadGroups[g].running
      modifies this`currentShellIndex, this`threadGroups, this`starsPlacedInShell,
               this`reports, this`finished, this`abandonedInShell, base`groups, base`isNextClusterReady
      ensures Valid()
      ensures old(|threadGroups|) > 1 ==>
                State() == Removed(old(State()), g) && base.groups == old(base.groups)
      ensures old(|threadGroups|) == 1 ==>
                finished || (threadGroups != [] && FreshlyScheduled(old(currentShellIndex)))
    {
      RemovedKeeps(shellCount, base.idealThreadCount, Reserved(base.groups), State(), g);
      threadGroups := threadGroups[..g] + threadGroups[g + 1..];
      ConstructShell();
    }

    /** constructShell, corrected: when a shell yields no batch (no visible star),
        there is no thread whose `finished` handler would call it again, so it runs
        again at once; the run then always has a pending batch or has finished. */
    method ConstructShell()
      requires Valid() && started
      requires threadGroups == [] ==> !finished
      modifies this`currentShellIndex, this`threadGroups, this`starsPlacedInShell,
               this`reports, this`finished, this`abandonedInShell, base`groups, base`isNextClusterReady
      ensures Valid()
      ensures old(threadGroups) != [] ==> State() == old(State()) && base.groups == old(base.groups)
      ensures finished || threadGroups != []
      ensures |reports| >= |old(reports)|
      ensures old(threadGroups) == [] && !finished ==> FreshlyScheduled(old(currentShellIndex))
    {
      ConstructShellAsWritten();
      while threadGroups == [] && !finished
        invariant Valid() && started
        invariant |reports| >= |old(reports)|
        invariant old(threadGroups) != [] ==> State() == old(State()) && base.groups == old(base.groups)
        invariant old(threadGroups) == [] && !finished ==> FreshlyScheduled(old(currentShellIndex))
        decreases shellCount - currentShellIndex, if finished then 0 else 1
      {
        ConstructShellAsWritten();
      }
    }

    /** constructShell as the source has it: the state takes one `Constructed` step;
        the gate closes when a shell is reported, and one render group per new worker
        is reserved when a shell is scheduled. A shell with no visible star gets no
        batch and so no worker: the run stops there, unfinished. */
    method ConstructShellAsWritten()
      requires Valid() && started
      requires threadGroups == [] ==> !finished
      modifies this`currentShellIndex, this`threadGroups, this`starsPlacedInShell,
               this`reports, this`finished, this`abandonedInShell, base`groups, base`isNextClusterReady
      ensures Valid()
      ensures old(currentShellIndex) <= |stars| && State() == Constructed(old(State()), base.idealThreadCount)
      ensures base.isNextClusterReady ==
                if old(threadGroups) == [] && old(currentShellIndex) > 0 then false else old(base.isNextClusterReady)
      ensures base.groups ==
                old(base.groups) + if Schedules(old(State())) then [Generation(|threadGroups|, base.starSize)] else []
      ensures Schedules(old(State())) && stars[old(currentShellIndex)] == [] ==> Stalled()
      ensures Schedules(old(State())) ==> FreshlyScheduled(old(currentShellIndex))
    {
      if threadGroups == [] {
        if currentShellIndex == shellCount {
          FinishRun();
        } else {
          AdvanceShell();
        }
      }
    }

    /** constructShell once every shell was scheduled and no batch is pending: the
        last shell is reported, the gate is closed and `finished` is emitted. */
    method FinishRun()
      requires Valid() && started && threadGroups == [] && !finished && currentShellIndex == shellCount
      modifies this`reports, this`finished, base`isNextClusterReady
      ensures Valid()
      ensures State() == Reported(old(State())).(finished := true)
      ensures base.isNextClusterReady == if currentShellIndex > 0 then false else old(base.isNextClusterReady)
    {
      FinishedKeeps(shellCount, base.idealThreadCount, Reserved(base.groups), State());
      ReportPrevious();
      finished := true;
    }

    /** constructShell while a shell is left and no batch is pending: the previous
        shell, if any, is reported, the gate is closed and the next shell is
        scheduled. */
    method AdvanceShell()
      requires Valid() && started && threadGroups == [] && !finished && currentShellIndex < shellCount
      modifies this`currentShellIndex, this`threadGroups, this`starsPlacedInShell,
               this`reports, this`abandonedInShell, base`groups, base`isNextClusterReady
      ensures Valid()
      ensures State() == NextUnit(Reported(old(State())), base.idealThreadCount)
      ensures base.isNextClusterReady == if old(currentShellIndex) > 0 then false else old(base.isNextClusterReady)
      ensures base.groups == old(base.groups) + [Generation(|threadGroups|, base.starSize)]
      ensures old(stars[currentShellIndex]) == [] <==> threadGroups == []
      ensures FreshlyScheduled(old(currentShellIndex))
    {
      ScheduledKeeps(shellCount, base.idealThreadCount, Reserved(base.groups), State());
      ReportPrevious();
      ScheduleNext();
    }

    /** The first half of constructShell once no batch is pending: shell
        `currentShellIndex - 1`, if any, is reported with the stars of all shells up
        to it, and the gate is closed. */
    method ReportPrevious()
      requires currentShellIndex <= |stars|
      modifies this`reports, base`isNextClusterReady
      ensures State() == Reported(old(State()))
      ensures base.isNextClusterReady == if currentShellIndex > 0 then false else old(base.isNextClusterReady)
    {
      var k := currentShellIndex;
      if k > 0 {
        var starsInCurrentAndPreviousShells := GatherUnits(stars, k);
        var starCount := |starsInCurrentAndPreviousShells|;
        reports := reports + [Row(k - 1, starCount, starsInCurrentAndPreviousShells)];
        assert reports[|reports| - 1] == ShellReport(stars, k - 1);
        base.isNextClusterReady := false;
      }
    }

    /** The scheduling half of constructShell: the current shell is split into
        batches, one render group is reserved per batch, one worker is started per
        batch and the index moves on. */
    method ScheduleNext()
      requires currentShellIndex < |stars| && base.Valid()
      modifies this`currentShellIndex, this`threadGroups, this`starsPlacedInShell, this`abandonedInShell,
               base`groups
      ensures State() == NextUnit(old(State()), base.idealThreadCount)
      ensures base.groups == old(base.groups) + [Generation(|threadGroups|, base.starSize)]
      ensures base.Valid()
    {
      ghost var r := State();
      var k := currentShellIndex;
      starsPlacedInShell := 0;
      abandonedInShell := 0;
      var starsInShell := stars[k];
      var batches := DistributeStarsInThreads(starsInShell, base.idealThreadCount);
      threadGroups := Spawned(batches);
      base.ReserveGroups(|threadGroups|);
      currentShellIndex := k + 1;
      assert batches == Batches(r, base.idealThreadCount, k);
    }
  }
  /** A run over the single shell `[p]`, once finished, has made exactly one report,
      counting that star. */
  lemma OneShellRunReports(idealThreadCount: int, reserved: int, l: Ledger, p: Point)
    requires Running(1, idealThreadCount, reserved, l)
    requires l.units == [[p]] && l.finished
    ensures l.reports == [Row(0, 1, [p])]
  {
    assert l.reports[0] == ShellReport([[p]], 0);
    assert [[p]][..1] == [[p]] && Flatten([[p]]) == [p];
  }

  /** A new generator of one shell holding one visible star, started: that shell is
      scheduled as one batch with its worker running, and the gate is open. */
  method StartOneStarShell(p: Point) returns (halley: HalleyClustering)
    ensures fresh(halley) && fresh(halley.base)
    ensures halley.Valid() && halley.started && !halley.finished && halley.base.isNextClusterReady
    ensures halley.shellCount == 1 && halley.stars == [[p]] && halley.threadGroups == Spawned([[p]])
  {
    var base := new Clustering(1);
    halley := new HalleyClustering(base);
    var visible := (q: Point) => true;
    halley.Start([[p]], visible);
    assert [p][..0] == [] && [[p]][..0] == [];
    assert Filter(visible, [p]) == [p];
    assert CulledUnits(visible, [[p]]) == [[p]];
    assert Chunks([p], GroupSize(1, 1)) == [[p]];
  }

  /** A whole run of one shell holding one visible star: after start, the worker's
      one iteration and its `finished` handler, the generator has emitted `finished`
      and made exactly one report, counting that star. */
  method OneStarShellRun(p: Point) returns (finished: bool, reports: seq<Row>)
    ensures finished && reports == [Row(0, 1, [p])]
  {
    var halley := StartOneStarShell(p);
    halley.PlaceNext(0, 1.0);
    halley.GroupFinished(0);
    OneShellRunReports(halley.base.idealThreadCount, Reserved(halley.base.groups), halley.State(), p);
    finished, reports := halley.finished, halley.reports;
  }
}
