# Olbers' paradox simulation: star placement core

This project models, in Dafny, the core of a Qt application that simulates Olbers'
paradox. The application fills the camera's view with stars and records how the
sky's surface brightness grows as stars are added. Two generators place the stars.

- The **shell generator** (`HalleyClustering`) samples stars at random in concentric
  spherical shells. It keeps the stars that are visible and places them one shell at a
  time.
- The **fractal generator** (`FractalClustering`) builds levels of clusters. Level 0
  is one point in front of the camera. Each later level puts a lattice of positions
  around every point of the level below, inside a sphere whose radius grows level by
  level. The visible stars of each level are sorted by distance, and the levels are
  placed one after another.

Both generators split the current unit (shell or level) into batches, one batch per
worker thread (`distributeStarsInThreads`). Every batch but the last of a unit holds
the same number of stars, at least 500; the last holds what is left and may be
smaller, so a unit of fewer than 500 stars is a single small batch. Each worker adds its
stars one at a time to its own instanced render group (`reserveGroups`,
`addStarInGroup`, `InstancedStar::addPoint`) and reports progress. When the last batch
of a unit finishes, the generator writes one row to the results table with the unit
index and the star count. It then schedules the next unit, or signals `finished`. The
results table (`DataTable`) has a header per method. It accepts a row only when the
row's width equals the column count, and it exports as tab-terminated text.

The model has these modules:

- `Common`: points, the concatenation of a list of lists, and filtering.
- `InstancedStars`: the instanced geometry, with its position and scale buffers kept
  as arrays.
- `Clustering`: the batch partition, and the shared base class with its render groups,
  settings and gate.
- `Scheduler`: culling, the bookkeeping both generators share, and a generator's state
  as a `Ledger` value with one step function per event.
- `Halley` and `Fractal`: the two generators, as classes.
- `DataTables`: the results table and its export.

Threads are modelled as events that the environment may interleave in any order.
`PlaceNext(g)` is one iteration of worker `g`'s loop. `GroupFinished(g)` is the handler
of that worker's `finished` signal. Each generator keeps a ghost `Valid()` invariant
over its state, and every event keeps it. A worker's iteration, its termination
check when `terminate` came after its last star (`CheckTerminated`), the handler of a
worker that leaves other batches pending, and one construct step as written
(`ConstructShellAsWritten`, `ConstructAsWritten`) are each proved to take exactly the
matching step of the state value. `Start`, the handler of the last pending worker and
the corrected construct step are not: their contracts state the invariant and that
the next unit was freshly scheduled, with every batch pending and nothing placed, or
that the run has finished. The invariant states the following:

- The pending workers own batches of the current unit, in slot order.
- One render group was reserved per batch.
- Every star of the current unit is placed, still to be placed by a running worker, or
  abandoned by a worker that stopped after `terminate`.
- The placed counters never exceed the unit size or the total.
- Every report made so far is the report of its unit.
- Once `finished` was emitted, every unit has been reported.

The shell generator's workers wait for a gate (`isNextClusterReady`) before they place
anything. `start` opens it, and every shell report closes it again
(HalleyClustering.cpp:108). The only way to reopen it is `setNextClusterReady`
(Clustering.h:35), which no file of the application calls. As written, a run with more
than one shell therefore places no star after shell 0: the later shells' workers wait
for ever. The model keeps the gate as it is. `Halley.HalleyClustering.PlaceNext`
requires it open, and `Clustering.Clustering.SetNextClusterReady` is the event that
opens it, which the environment may or may not produce.

## Model

| member | source | states |
|---|---|---|
| InstancedStars.AddedTo | InstancedStar.cpp:52-69 | adding a point appends it and its scale at the end; every earlier position and scale is unchanged; both buffers stay the same length |
| InstancedStars.Reset | InstancedStar.cpp:30-50 | after setPoints the geometry holds exactly the given points, in order, each with scale 1 |
| InstancedStars.AddInTurnIsReset | InstancedStar.cpp:30-69 | adding the points of a list one by one with the default scale (InstancedStar.h:20) to an empty geometry gives the same contents as setPoints with the whole list |
| InstancedStars.Resize | InstancedStar.cpp:34-37 | resizing a buffer to n entries keeps its leading entries |
| InstancedStars.InstancedStar.constructor | InstancedStar.cpp:3-28 | a new geometry holds no point, and its buffers and attribute counts are empty |
| InstancedStars.InstancedStar.GetCount | InstancedStar.cpp:71-74 | the count is the number of points, which equals both buffer lengths and both attribute counts |
| InstancedStars.InstancedStar.SetPoints | InstancedStar.cpp:30-50 | the buffers are rewritten in place so that the geometry is exactly Reset of the points; buffers and attribute counts stay in lock-step |
| InstancedStars.InstancedStar.AddPoint | InstancedStar.cpp:52-69 | the buffers grow by one in place, and the geometry is AddedTo of the old geometry; the point count grows by one |
| Clustering.GroupSize | Clustering.cpp:34 | the batch size is the integer share per ideal thread, but never below STARS_PER_THREAD (500) |
| Clustering.ChunksFlatten | Clustering.cpp:31-50 | concatenating the batches in order gives back exactly the input stars, with none lost or repeated |
| Clustering.ChunksShape | Clustering.cpp:31-50 | every batch holds between 1 and the batch size of stars, every batch but the last is full, and there is no batch exactly when there is no star |
| Clustering.ChunksCount | Clustering.cpp:35-48 | there are n / size full batches, plus one batch of n % size stars exactly when that remainder is not zero |
| Clustering.DistributeStarsInThreads | Clustering.cpp:31-50 | the batches taken by index, then the overflow, are exactly the reference partition Chunks of the stars by GroupSize |
| Clustering.Spawned | HalleyClustering.cpp:123-129 | one worker per batch, in batch order: worker i fills render group i with batch i and has placed nothing yet |
| Clustering.RemainingSpawned | HalleyClustering.cpp:123-129 | freshly spawned workers still have every star of every batch to place |
| Clustering.NewGroup | Clustering.cpp:76-86 | a reserved render group has the star size as its radius and an empty geometry, and no instance count has been set |
| Clustering.Generation | Clustering.cpp:71-90 | reserveGroups(count) creates count new groups, or none for a negative count |
| Clustering.WithStar | Clustering.cpp:92-98 | adding a star appends the location and scale to the group's geometry, sets its instance count to the new point count, and keeps its sphere settings |
| Clustering.Clustering.constructor | Clustering.h:59-77 | a new base has no render group, a closed gate, star size 0.05 and power factor 0.3 |
| Clustering.Clustering.SetCameraProjectionMatrix | Clustering.cpp:12-17 | stores the projection matrix, view matrix and viewport |
| Clustering.Clustering.SetStarProperties | Clustering.cpp:19-23 | stores the star size and power factor |
| Clustering.Clustering.SetNextClusterReady | Clustering.h:35 | opens the gate |
| Clustering.Clustering.ReserveGroups | Clustering.cpp:71-90 | appends one new generation of Generation(count) groups; earlier generations are untouched |
| Clustering.Clustering.AddStarInGroup | Clustering.cpp:92-98 | only group `index` of the newest generation changes, and it becomes WithStar of itself; the number of generations and of groups stays the same |
| Scheduler.CulledUnits | HalleyClustering.cpp:67-71 | there is one culled unit per candidate unit |
| Scheduler.CullUnits | FractalClustering.cpp:99-113 | the culling loop keeps the visible candidates of every unit in order, and its count is the total number of kept stars |
| Scheduler.CulledUnitsAt | FractalClustering.cpp:99-113 | culled unit n is exactly the visible candidates of unit n, in order |
| Scheduler.CulledUnitsKeepVisible | HalleyClustering.cpp:67-71 | a star is in culled unit n if and only if it is a candidate of unit n and visible; no unit grows |
| Scheduler.GatherUnits | HalleyClustering.cpp:90-91 | the stars gathered for a report are the stars of units 0..k-1, unit after unit |
| Scheduler.Advanced | HalleyClustering.cpp:140-152 | after placing one star, a worker runs on if and only if stars are left in its batch and termination was not requested when the star was placed |
| Scheduler.AccountsPlace | HalleyClustering.cpp:140-152 | placing a star keeps every star of the current unit accounted for, keeps both counters within the unit size and total, and uses a reserved group |
| Scheduler.AccountsHalt | HalleyClustering.cpp:150-151 | a running worker that stops without another star had stars left, and every star stays accounted for, with its remaining stars abandoned |
| Scheduler.AccountsRemove | HalleyClustering.cpp:154-159 | removing a stopped worker keeps every star accounted for |
| Scheduler.AccountsSchedule | HalleyClustering.cpp:119-129 | scheduling a unit accounts for all its stars, with one reserved group per batch; it gets no worker exactly when it has no star |
| Scheduler.PlacedWithinTotal | HalleyClustering.cpp:147 | the placed counter never exceeds the total star count |
| Halley.ShellReportsGrow | HalleyClustering.cpp:88-110 | a later shell report shows no fewer stars than an earlier one, and its sample starts with the earlier sample |
| Halley.StartedRunning | HalleyClustering.cpp:33-72 | a generator that has stored its culled shells and counted them, with nothing scheduled, satisfies the running invariant |
| Halley.PlacedKeeps | HalleyClustering.cpp:140-152 | a worker's iteration keeps the invariant; its slot was reserved; both placed counters stay positive and within the shell size and the total |
| Halley.StoppedKeeps | HalleyClustering.cpp:150-151 | a worker that stops at its termination check keeps the invariant; nothing is placed, counted, emitted or reported; only that worker changes, to a stopped one with the same slot, batch and count |
| Halley.RemovedKeeps | HalleyClustering.cpp:154-159 | removing a finished worker keeps the invariant |
| Halley.Reported | HalleyClustering.cpp:88-110 | reporting changes only the reports: shells, index and pending workers are untouched |
| Halley.FinishedKeeps | HalleyClustering.cpp:112-117 | reporting the last shell and emitting finished keeps the invariant |
| Halley.ScheduledKeeps | HalleyClustering.cpp:119-163 | reporting the previous shell and scheduling the next keeps the invariant with one group per worker; the shell gets no worker exactly when it has no visible star |
| Halley.ConstructedKeeps | HalleyClustering.cpp:83-164 | every constructShell step keeps the invariant; when it schedules a shell that has no visible star, no worker is started and the run is not finished |
| Halley.ReportsExtend | HalleyClustering.cpp:88-110 | adding the report of the next shell keeps every report that of its shell |
| Halley.HalleyClustering.constructor | HalleyClustering.cpp:5-10 | stores the shell count, thickness and first distance, which default to 1, 50 and 1.29 as in HalleyClustering.h:12; nothing is started and termination is not pending |
| Halley.HalleyClustering.Start | HalleyClustering.cpp:33-76 | stores the visible candidates of every shell and their total, clears the flag and the placed counter, opens the gate, and either leaves shell 0's batches freshly scheduled (all pending, none placed) or the run finished |
| Halley.HalleyClustering.Reset | HalleyClustering.cpp:35-71 | clears the flag and counters and stores the culled shells and their total; the running invariant holds |
| Halley.HalleyClustering.Terminate | HalleyClustering.cpp:78-81 | raises the termination flag and keeps the invariant |
| Halley.HalleyClustering.PlaceNext | HalleyClustering.cpp:130-152 | with the gate open, the state takes exactly one Placed step, only the worker's group gets the star, and both counters stay within their bounds |
| Halley.HalleyClustering.CountPlaced | HalleyClustering.cpp:147-151 | the counters, progress emissions and the worker take exactly one Placed step |
| Halley.HalleyClustering.CheckTerminated | HalleyClustering.cpp:150-151 | with termination pending, a worker that has placed a star returns from its loop: the state takes exactly one Stopped step and keeps the invariant |
| Halley.HalleyClustering.GroupFinished | HalleyClustering.cpp:154-159 | the worker is removed; if others are pending nothing else changes, otherwise a later shell is freshly scheduled or the run has finished |
| Halley.HalleyClustering.ConstructShell | HalleyClustering.cpp:83-164 | corrected constructShell: keeps the invariant, changes nothing while a batch is pending, and always leaves a pending batch or a finished run; called with nothing pending, a run that goes on has a later shell freshly scheduled |
| Halley.HalleyClustering.ConstructShellAsWritten | HalleyClustering.cpp:83-164 | constructShell as written takes exactly one Constructed step, closes the gate after a report, and reserves one generation per scheduled shell; scheduling a shell with no visible star leaves the run stalled |
| Halley.HalleyClustering.FinishRun | HalleyClustering.cpp:88-117 | reports the last shell, closes the gate and emits finished |
| Halley.HalleyClustering.AdvanceShell | HalleyClustering.cpp:88-163 | reports the previous shell and schedules the next; no worker is started exactly when the shell has no visible star |
| Halley.HalleyClustering.ReportPrevious | HalleyClustering.cpp:88-110 | appends the report of the previous shell, with the stars of all shells up to it, and closes the gate |
| Halley.OneShellRunReports | HalleyClustering.cpp:88-117 | a finished run over the single shell [p] has made exactly one report: shell 0, one star, sample [p] |
| Halley.StartOneStarShell | HalleyClustering.cpp:33-76 | starting a new one-shell generator whose one star is visible stores that shell as [p], schedules it as one running worker, and opens the gate |
| Halley.OneStarShellRun | HalleyClustering.cpp:33-164 | a run of one shell holding one visible star, after start, the worker's one iteration and its finished handler, has emitted finished and made exactly one report: shell 0, one star |
| Halley.HalleyClustering.ScheduleNext | HalleyClustering.cpp:119-163 | the next shell gets one worker per batch and one render group per worker, and the index moves on |
| Fractal.Radii | FractalClustering.cpp:78-83 | there is one radius per level, and none for a level count below one |
| Fractal.ComputeRadii | FractalClustering.cpp:78-83 | the radius loop computes exactly Radii |
| Fractal.RadiiAt | FractalClustering.cpp:78-83 | radius 0 grows from a star's radius, and radius k from radius k-1 |
| Fractal.RadiusAffine | FractalClustering.cpp:81 | each radius is (2c-1) times the one below plus (c-1) times the spacing |
| Fractal.IterateClosedForm | FractalClustering.cpp:78-83 | the closed form of that affine recurrence after n steps |
| Fractal.RadiiIterate | FractalClustering.cpp:78-83 | radius k is k+1 steps of the recurrence from the radius of a star |
| Fractal.NextRadiusGrows | FractalClustering.cpp:81 | with at least one star per level and no negative spacing, a radius is at least the radius below it |
| Fractal.RadiiGrow | FractalClustering.cpp:78-83 | under the same conditions, radii never shrink from level to level and none is smaller than a star |
| Fractal.BuiltLevels | FractalClustering.cpp:85-97 | at least one level is built, even for a level count below one |
| Fractal.Levels | FractalClustering.cpp:85-97 | start builds one list of stars per built level |
| Fractal.LevelsAt | FractalClustering.cpp:85-97 | level 0 is the single point in front of the camera, and level k is calculateLevel(k, p) for every point p of level k-1, in order |
| Fractal.ExpandedMembers | FractalClustering.cpp:89-96 | a position is in a level if and only if it was placed around some point of the level below |
| Fractal.ExpandLevels | FractalClustering.cpp:85-97 | the level loop builds exactly Levels of BuiltLevels(levelCount) |
| Fractal.SortByDistance | FractalClustering.cpp:116-122 | the in-place sort leaves a permutation of the level, nearest star first |
| Fractal.InsertNext | FractalClustering.cpp:118-121 | one insertion step extends the sorted prefix by one star and keeps the same stars |
| Fractal.SortLevels | FractalClustering.cpp:115-122 | each level is sorted on its own, into a permutation of itself; levels are not merged or reordered |
| Fractal.SameSizes | FractalClustering.cpp:110-122 | sorting keeps the total star count |
| Fractal.BuildStars | FractalClustering.cpp:78-122 | computes Radii; stores each level's visible stars, nearest first, each as often as it is a candidate; counts them all |
| Fractal.LevelReportsGrow | FractalClustering.cpp:136-157 | successive level reports never show fewer stars |
| Fractal.StartedRunning | FractalClustering.cpp:99-127 | a generator that has stored its levels and cleared its counters satisfies the running invariant |
| Fractal.PlacedKeeps | FractalClustering.cpp:178-190 | a worker's iteration keeps the invariant; its slot was reserved; both counters stay positive and within the level size and the total |
| Fractal.StoppedKeeps | FractalClustering.cpp:188-189 | a worker that stops at its termination check keeps the invariant; nothing is placed, counted, emitted or reported; only that worker changes, to a stopped one with the same slot, batch and count |
| Fractal.RemovedKeeps | FractalClustering.cpp:192-197 | removing a finished worker keeps the invariant |
| Fractal.Reported | FractalClustering.cpp:136-157 | reporting changes only the reports: levels, index, workers and the placed count are untouched |
| Fractal.ReportedCount | FractalClustering.cpp:154 | once no batch is pending, the reported count is the number of stars of the scheduled levels minus those abandoned after terminate; without terminate it is exactly that number |
| Fractal.LevelReportsAppend | FractalClustering.cpp:136-157 | a report of the next level that counts no fewer stars than the last, and no more than its levels hold, keeps the reports well formed |
| Fractal.ReportsExactAppend | FractalClustering.cpp:154 | a next report that counts every star of its levels keeps every report exact |
| Fractal.ReportedKeeps | FractalClustering.cpp:136-157 | reporting the previous level keeps the reports well formed, and exact while termination was not requested |
| Fractal.FinishedKeeps | FractalClustering.cpp:159-163 | reporting the last level and emitting finished keeps the invariant |
| Fractal.ScheduledKeeps | FractalClustering.cpp:165-201 | reporting the previous level and scheduling the next keeps the invariant with one group per worker; the level gets no worker exactly when it has no visible star |
| Fractal.ConstructedKeeps | FractalClustering.cpp:131-202 | every construct step keeps the invariant; when it schedules a level with no visible star, no worker is started and the run is not finished |
| Fractal.FractalClustering.constructor | FractalClustering.cpp:3-9 | stores the level count, count per level, spacing and zero-star flag; nothing is started |
| Fractal.FractalClustering.Start | FractalClustering.cpp:74-129 | stores the radii and each built level's sorted visible stars and their total, clears the placed counter, and either leaves level 0's batches freshly scheduled (all pending, none placed) or the run finished |
| Fractal.FractalClustering.Prepare | FractalClustering.cpp:76-127 | the preprocessing of start: Built holds, nothing is pending and the counters are cleared |
| Fractal.FractalClustering.Reset | FractalClustering.cpp:76-127 | clears the pending batches, stores radii, levels and total, and clears the index and placed counter |
| Fractal.FractalClustering.Terminate | FractalClustering.cpp:204-207 | raises the termination flag and keeps the invariant |
| Fractal.FractalClustering.PlaceNext | FractalClustering.cpp:176-190 | the state takes exactly one Placed step, only the worker's group gets the star, and both counters stay within their bounds |
| Fractal.FractalClustering.CountPlaced | FractalClustering.cpp:185-189 | the counters, progress emissions and the worker take exactly one Placed step |
| Fractal.FractalClustering.CheckTerminated | FractalClustering.cpp:188-189 | with termination pending, a worker that has placed a star returns from its loop: the state takes exactly one Stopped step and keeps the invariant |
| Fractal.FractalClustering.GroupFinished | FractalClustering.cpp:192-197 | the worker is removed; if others are pending nothing else changes, otherwise a later level is freshly scheduled or the run has finished |
| Fractal.FractalClustering.Construct | FractalClustering.cpp:131-202 | corrected construct: keeps the invariant, changes nothing while a batch is pending, and always leaves a pending batch or a finished run; called with nothing pending, a run that goes on has a later level freshly scheduled |
| Fractal.FractalClustering.ConstructAsWritten | FractalClustering.cpp:131-202 | construct as written takes exactly one Constructed step and reserves one generation per scheduled level; scheduling a level with no visible star leaves the run stalled |
| Fractal.FractalClustering.FinishRun | FractalClustering.cpp:136-163 | reports the last level and emits finished |
| Fractal.FractalClustering.AdvanceLevel | FractalClustering.cpp:136-201 | reports the previous level and schedules the next; no worker is started exactly when the level has no visible star |
| Fractal.FractalClustering.ReportPrevious | FractalClustering.cpp:136-157 | appends the report of the previous level, with the placed count and the stars of all levels up to it |
| Fractal.FractalClustering.ScheduleNext | FractalClustering.cpp:165-201 | the next level gets one worker per batch and one render group per worker, and the index moves on |
| Fractal.OriginLevelPrepared | FractalClustering.cpp:99-122 | when the origin is visible, the single built level is stored as exactly the origin |
| Fractal.OriginRunReports | FractalClustering.cpp:136-163 | a finished run over the single origin level, without terminate, has made exactly one report: level 0, one star |
| Fractal.StartOneLevel | FractalClustering.cpp:74-129 | starting a new one-level generator whose point is visible stores that level as exactly the origin and schedules it as one running worker |
| Fractal.OneLevelRun | FractalClustering.cpp:74-202 | a run of one level whose point is visible, after start, the worker's one iteration and its finished handler, has emitted finished and made exactly one report: level 0, one star |
| DataTables.HeaderAsWritten | DataTable.h:39-43 | the HALLEY header has five titles; the FRACTAL header, as written, has four |
| DataTables.Header | DataTable.h:39-43 | corrected header: both methods have five titles, and FRACTAL starts with a level index title |
| DataTables.RowCells | DataTable.cpp:48-76 | every row has five values: index and star count, then three decimals printed with 6 digits (HALLEY) or 14 digits (FRACTAL) |
| DataTables.RowsFitHeader | DataTable.cpp:48-80 | with the corrected header, every row of a method is exactly as wide as that method's header |
| DataTables.FractalRowRejectedAsWritten | DataTable.cpp:63-80 | with the header as written, every FRACTAL row is one cell wider than the header, while HALLEY rows fit |
| DataTables.Filled | DataTable.cpp:82-86 | a placed row has one cell per text, each holding that text |
| DataTables.Slashed | DataTable.cpp:102 | an exported title keeps its length and every character except line breaks, which become slashes |
| DataTables.SlashedAll | DataTable.cpp:100-103 | every title is exported slashed |
| DataTables.CellTexts | DataTable.cpp:111-118 | each cell exports its text, and an empty cell exports as nothing |
| DataTables.Lines | DataTable.cpp:99-124 | the export has the header line, then one line per row; only the first row carries the camera data |
| DataTables.ExportText | DataTable.cpp:89-124 | a table with no row exports nothing; any other table exports its lines, each followed by a line break |
| DataTables.SplitOnPlain | DataTable.cpp:99-124 | text without the separator reads back as a single field |
| DataTables.SplitTerminated | DataTable.cpp:99-124 | fields written each followed by a terminator read back as the same fields when none contains the terminator |
| DataTables.ExportReadsBack | DataTable.cpp:89-124 | split on line breaks, the export gives one line per header and row and an empty remainder; the header line splits on tabs into the slashed titles and three camera labels; each row line splits into its cell texts plus the camera data (first row) or an empty remainder |
| DataTables.ExportSplitsIntoLines | DataTable.cpp:89-124 | split on line breaks, the export gives back exactly its lines, then an empty remainder |
| DataTables.HeaderLineReadsBack | DataTable.cpp:100-106 | the header line has no line break and splits back into the slashed titles and the three camera labels |
| DataTables.RowLineReadsBack | DataTable.cpp:109-124 | a row line has no line break and splits back into its cell texts, then the camera data or an empty remainder |
| DataTables.DataTable.constructor | DataTable.cpp:6-12 | a new table has no title, column or row, and empty camera fields |
| DataTables.DataTable.SetCameraData | DataTable.cpp:19-25 | each camera field shows its value printed with the default precision |
| DataTables.DataTable.Clear | DataTable.cpp:35-40 | no title, column or row is left |
| DataTables.DataTable.SetHeader | DataTable.cpp:27-33 | corrected setHeader: the table is cleared and gets one column per title of the method, five for either method |
| DataTables.DataTable.SetHeaderAsWritten | DataTable.cpp:27-33 | setHeader as written: the table is cleared and gets one column per title of the header table, four for FRACTAL |
| DataTables.DataTable.InstallHeader | DataTable.cpp:29-32 | the table is cleared, then has exactly the given titles, one column per title, and no row |
| DataTables.DataTable.PlaceRow | DataTable.cpp:78-87 | a row whose width is not the column count throws and leaves the rows unchanged; any other row is appended as Filled of its texts |
| DataTables.DataTable.AddRow | DataTable.cpp:48-76 | the row's printed values are appended when its width is the column count; otherwise the call throws and nothing changes |
| DataTables.DataTable.Export | DataTable.cpp:89-127 | the text written is exactly ExportText of the table and camera fields |
| DataTables.DataTable.WriteRows | DataTable.cpp:108-124 | after the header line and its line break, the row loop writes every data line followed by a line break, which completes exactly ExportText |
| DataTables.DataTable.WriteHeader | DataTable.cpp:100-106 | the header loop writes exactly the header line |
| DataTables.DataTable.WriteRow | DataTable.cpp:109-124 | the row loop writes exactly that row's line, with a bare separator for an empty cell |
| DataTables.FractalRowAfterHeader | DataTable.cpp:27-87 | after setHeader as written, a FRACTAL row throws the width error and no row is placed; after the corrected setHeader the same row is placed as the only row |
| DataTables.AddRowUnspecialized | DataTable.cpp:42-46 | the unspecialised addRow always throws its logic error |

## Left out

- Photometry is not modelled. This is the apparent magnitude of each star, its sum,
  the surface brightness and its linear form (HalleyClustering.cpp:92-103,
  FractalClustering.cpp:138-152). It is `log10`/`pow` floating point. A report keeps
  the sample of stars it integrates (`Row.sample`) and not the numbers.
- The random sampling of stars in each shell is not modelled (HalleyClustering.cpp:39-65).
  It uses an RNG and trigonometry. `Halley.HalleyClustering.Start` takes the sampled
  candidates of each shell as a parameter.
- `calculateLevel`'s floating-point lattice walk is the parameter `place`
  (FractalClustering.cpp:52-71). Its precondition is kept: the level has a radius and a
  level below it.
- `isPointVisible` is the parameter `visible` (Clustering.cpp:25-29). It uses the
  projection matrices in floating point.
- `calculateEstimate` of both generators is not modelled. It is a floating-point time
  estimate outside the placement core.
- `createStar` is not modelled because nothing in the core calls it.
- `Halley.HalleyClustering.PlaceNext`: the scale is a parameter. The source computes
  it as `1 / pow(length, powerFactor)` in floating point.
- `Fractal.FractalClustering.PlaceNext`: the scale is a parameter, for the same reason.
- `Scheduler.Advanced`, `Halley.HalleyClustering.PlaceNext` and
  `Fractal.FractalClustering.PlaceNext` read the termination flag when the star is
  placed. The later read of the source is the separate event `CheckTerminated`.
- `Halley.HalleyClustering.CheckTerminated` and
  `Fractal.FractalClustering.CheckTerminated` may happen for any running worker that
  has placed a star while termination is pending. In the source, a worker whose check
  already passed before `terminate` places one more star first. The model therefore
  also allows runs in which such a worker stops one star early. It does not record
  whether a worker's check is still to come.
- Threads, the recursive mutex, `msleep`, `processEvents`, `deleteLater` and
  signal/slot queuing are not modelled. Each worker iteration and each `finished`
  handler is one atomic event, in any order. The mutex covers a worker's star and its
  two progress emissions, but the worker reads the termination flag after releasing
  it (HalleyClustering.cpp:150-151, FractalClustering.cpp:188-189), and `terminate`
  takes no lock. So `PlaceNext` checks the flag as it is when the star is placed, and
  `CheckTerminated` is the same check made after a `terminate` that came in between:
  the worker then stops with no further star. The `finished` handlers are connected with no context object
  (HalleyClustering.cpp:154, FractalClustering.cpp:192), so each runs in the thread
  that finished and without the mutex; two handlers could overlap. Treating each
  handler as one atomic event is an assumption of the model.
- `Halley.HalleyClustering.Start`: requires a generator that was never started. The
  source does not clear `_stars` or `_currentShellIndex`, so a second `start` appends a
  new set of shells after the old ones. That case is not modelled. It also runs the
  corrected `ConstructShell`: when shell 0 has no visible star, the model moves on to
  the next shell at once, where the source stalls (first row of the findings).
  `ConstructShellAsWritten` states the source's step.
- `Fractal.FractalClustering.Start`: requires a generator that was never started, for
  the same reason (`_stars` is appended to). It leaves the termination flag as it
  was, as the source does. It runs the corrected `Construct`: when level 0 has no
  visible star, the model moves on to the next level at once, where the source stalls
  (second row of the findings). `ConstructAsWritten` states the source's step.
- `Halley.HalleyClustering.constructor`: the shell count is a `nat`. For a negative
  count, constructShell would index an empty list.
- `Halley.HalleyClustering.GroupFinished`: when the last pending worker is removed, the
  contract states the invariant and "pending batch or finished". It does not state the
  exact new state, because it runs the corrected `ConstructShell`. The exact one-step
  state is stated by `ConstructShellAsWritten`.
- `Fractal.FractalClustering.GroupFinished`: for the last pending worker, likewise only
  the invariant and "freshly scheduled or finished"; the exact one-step state is
  stated by `ConstructAsWritten`.
- `Halley.HalleyClustering.ConstructShell`: the contract gives the invariant and
  progress, not the exact state after the repeated steps. Each step's state is stated
  by `ConstructShellAsWritten`.
- `Fractal.FractalClustering.Construct`: likewise the invariant and progress only; each
  step's state is stated by `ConstructAsWritten`.
- `Scheduler.CulledUnits`: the contract states only the number of units. The content
  of each unit is stated by `Scheduler.CulledUnitsAt` and
  `Scheduler.CulledUnitsKeepVisible`.
- Integer widths are not modelled. The counters are unbounded integers; the source's
  `int` counters would overflow only past 2^31 stars.
- Points are real triples. Single-precision rounding is not modelled. Ordering by
  `length()` is modelled as ordering by squared length, which gives the same order.
- `QString::number` is the parameter `number` of `AddRow` and `SetCameraData`. Its
  decimal formatting is not modelled. A `Number` records the value and its precision.
- The save dialog and the file I/O of the export are not modelled
  (DataTable.cpp:93-97, 126). `Export` returns the text that would be written.
- The header declares a four-argument FRACTAL `addRow` (DataTable.h:33-34). The model
  follows the five-argument definition in DataTable.cpp, which construct calls.
  MainWindow.cpp is not part of this model, and neither are its own four-argument call
  and the charts (DataChart, LinearizedChart) and the star material.
- `DataTables.DataTable.SetHeader` installs the corrected header, with a level index
  title for FRACTAL: five columns where the source's header table has four (third row
  of the findings). `DataTables.DataTable.SetHeaderAsWritten` installs the source's
  header.
- `DataTables.DataTable.AddRow`: after the corrected FRACTAL header, a FRACTAL row is
  placed where the source throws; `DataTables.FractalRowAfterHeader` shows both.
- The export writes fields terminated by tabs, with no quoting. `ExportReadsBack`
  therefore requires cells and camera texts with no tab or line break.

## Findings

| source | as written | input that shows it | evidently intended | confidence | as-written member | corrected member |
|---|---|---|---|---|---|---|
| HalleyClustering.cpp:119-163 | a shell with no visible star yields no batch, so no thread is started, no `finished` handler ever calls constructShell again, and the run stops without placing later shells or emitting `finished` | a generator whose shell 0 has no visible star, with any shell count of at least 1: the run never emits `finished` | move on to the next shell at once when a shell has no batch | medium, not executed | Halley.HalleyClustering.ConstructShellAsWritten | Halley.HalleyClustering.ConstructShell |
| FractalClustering.cpp:165-201 | a level with no visible star yields no batch, so the run stalls the same way, unfinished | any level with no visible star, the last one included: the run never emits `finished` | move on to the next level at once when a level has no batch | medium, not executed | Fractal.FractalClustering.ConstructAsWritten | Fractal.FractalClustering.Construct |
| DataTable.h:39-43 | the FRACTAL header has four titles, but `addRow<FRACTAL>` places five cells (DataTable.cpp:63-76), so placeRow throws for every FRACTAL row | setHeader(FRACTAL) then addRow<FRACTAL>(0, 1, 0.0, 0.0, 0.0) | the header and the row have the same width; the model adds a level index title, as construct passes a level index; dropping the index cell, as the four-argument FRACTAL `addRow` declared at DataTable.h:33-34 would, is an equally plausible fix | medium, not executed; reachable only through DataTable.cpp as written: the five-argument FRACTAL call (FractalClustering.cpp:154) runs only once `setDataTable` (Clustering.h:32) was called, which no file of the application does, and the application's own FRACTAL call (MainWindow.cpp:158) passes four arguments | DataTables.FractalRowRejectedAsWritten | DataTables.RowsFitHeader |
