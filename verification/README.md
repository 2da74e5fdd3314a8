# k-means over MPI, modelled in Dafny

This project models kmeans_mpi, a C implementation of Lloyd's k-means clustering over two-dimensional points.

**The distributed driver.** The driver spreads the assignment step over MPI ranks:
- Rank 0, the root, loads the dataset from a CSV file.
- The root computes a chunk size, `num_points_node = ceil(total / world)`, and broadcasts it.
- On every round the root scatters chunks of its x, y and cluster-id columns.
- Every rank then assigns each of its points to the nearest centroid.
- The per-rank change counts are reduced onto the root.
- The chunks are gathered back.
- The root alone recomputes the centroids as cluster means and broadcasts them.
- The root decides when to stop (no change, or the iteration cap) and broadcasts `done`.

**The other parts.** The sequential kernels, the sequential driver, the command-line and logging configuration, and the CSV and test-comparison support are modelled too. So are the earlier MPI variant, the experimental copy with barriers, and the three scatter/gather test programs.

**How the model is built.**
- Every rank's globals are one `KmeansMpi.Node`.
- A step of the whole group is a pure function over `seq<Node>`, where the rank is the index.
- The collectives follow the MPI-3.1 standard, each a pure function of the ranks' buffers:

  | Collective | MPI-3.1 section |
  |---|---|
  | `MPI_Bcast` | 5.4 |
  | `MPI_Gather` | 5.5 |
  | `MPI_Scatter` | 5.6 |
  | `MPI_Reduce` with `MPI_SUM` | 5.9 |
  | `MPI_Barrier` (moves no data) | 5.3 |
- Coordinates are `real`.
- Memory the program never writes is a parameter: a function giving the stale contents of each slot, or stale metrics. This covers `malloc`'d memory and padding slots.

| Module (file) | Models |
|---|---|
| `Points` (points.dfy) | `struct pointset` (column arrays plus a count), the centroid set, and the constants of src/kmeans.h |
| `Arithmetic` (arithmetic.dfy) | index arithmetic for chunk r, slot j |
| `Partition` (partition.dfy) | the chunk size and the root buffer size |
| `Collectives` (collectives.dfy) | scatter, gather, reduce-sum, broadcast and barrier |
| `Distance` (distance.dfy) | `euclidean_distance` and the first-wins arg-min of the assignment loop |
| `Sequential` (sequential.dfy) | src/kmeans_sequential.c: assignment, change count, centroid means, seeding |
| `SimpleDriver` (simple.dfy) | src/kmeans_simple_impl.c and the loop/finalisation of src/kmeans.c |
| `Config` (config.dfy) | src/kmeans_config.c |
| `Logging` (logging.dfy) | src/log_support.c |
| `Support` (support.dfy) | src/kmeans_support.c: CSV rows, the test comparison, headers, status names |
| `KmeansMpi` (mpi.dfy) | src/kmeans_mpi.c |
| `Lowlevel` (lowlevel.dfy) | `lowlevel_assign_clusters` |
| `Mpi1` (mpi1.dfy) | src/kmeans_mpi1_impl.c |
| `MpiStuff` (mpi_stuff.dfy) | experiemental/kmeans_mpi_stuff.c |
| `MpiTests` (mpi_tests.dfy) | experiemental/mpi_test.c, experimental/mpi_test_points.c, src/mpi_test_pointers.c |
| `Wrappers` (wrappers.dfy) | `Option` and `Result` |

Four behaviours of the code are modelled as written and proved:

- **Padding is processed and counted.**
  - Every rank runs the assignment over a full chunk.
  - When `world` does not divide the point count, the root's slots between `num_points` and `world * chunk` are also assigned and gathered.
  - Their changes go into the reduced count (`KmeansMpi.PaddingCounted`).
  - So the root's count can exceed the sequential count for the same data (`KmeansMpi.PaddingExample`).
  - The centroids do not depend on padding (`KmeansMpi.RoundRefinesSequential`), but the count can keep the loop running for a round it would otherwise skip.
- **In src/kmeans_mpi1_impl.c the assignment never reaches the root.**
  - Only the x column is scattered and gathered, so each rank assigns with the y values already in its node buffer.
  - The root's ids never come back (`Mpi1.AssignKeepsRootDataset`).
  - So, on an input whose cluster column already holds indices below K, the centroids stop moving after the first recomputation (`Mpi1.IterationStuck`).
  - On an input without a cluster column the root's ids stay -1 (`Mpi1.UnlabelledRootStaysUnassigned`), and the recomputation would index its arrays at -1.
- **In experiemental/kmeans_mpi_stuff.c the barriers do not change the data.**
  - Its round is the round of src/kmeans_mpi.c (`MpiStuff.AssignClusters`).
- **`KmeansMpi.IsDone` broadcasts a value only the root has set.**
  - The non-root change counts never matter (`KmeansMpi.IsDoneRootDecides`).

Where the code and its own comments disagree, the model follows the code. The comment on `test_results` (src/kmeans_support.c:323-324) calls a test file with fewer points than the results a failure, but the code passes it; both versions are modelled (see Findings).

## Model

| member | source | states |
|---|---|---|
| Partition.ChunkSize | src/kmeans_mpi.c:95-102 | the chunk times the world size covers every point, and one chunk less would not: the chunk is the ceiling of total/world |
| Partition.ChunkSizeLeast | src/kmeans_mpi.c:95-102 | no chunk smaller than the computed one covers all points on `world` ranks |
| Partition.ChunkPadding | src/kmeans_mpi.c:95-102 | fewer than `world` padding slots are added, and none exactly when `world` divides the point count |
| Partition.AllocatedRootCapacity | src/kmeans_mpi.c:90 | the root's buffer holds `max_points` slots whatever the world size (as written) |
| Partition.AllocatedRootOverrun | src/kmeans_mpi.c:90-106 | with a full file the scatter/gather span exceeds the root buffer exactly when `world` does not divide `max_points` |
| Partition.AllocatedRootOverrunExample | src/kmeans_mpi.c:90-102 | 5000 points, `max_points` 5000, 3 ranks: chunk 1667, span 5001 > 5000 slots |
| Partition.RootCapacity | src/kmeans_mpi.c:90 | corrected root buffer: at least `max_points` and at least the scatter/gather span, and no bigger than the larger of the two |
| Partition.RootCapacityAgrees | src/kmeans_mpi.c:90 | the corrected buffer equals the original one exactly when the span fits in `max_points` |
| Collectives.ScatterAt | src/kmeans_mpi.c:123-128 | rank r's slot j receives root slot r*count+j |
| Collectives.GatherAt | src/kmeans_mpi.c:140-145 | root slot r*count+j receives rank r's slot j |
| Collectives.GatherAbove | src/kmeans_mpi.c:140-145 | root slots past world*count keep what they held |
| Collectives.GatherScatter | src/kmeans_mpi.c:120-148 | gathering what was scattered, into the same buffer, restores it |
| Collectives.ScatterGather | src/kmeans_mpi.c:120-148 | scattering what was gathered returns every rank its own chunk |
| Collectives.ReduceSum | src/kmeans_mpi.c:176-179 | the root receives the sum of all ranks' contributions; other ranks keep their receive value |
| Collectives.Bcast | src/kmeans_mpi.c:106 | every rank ends with the root's value |
| Collectives.Barrier | experiemental/kmeans_mpi_stuff.c:231 | a synchronisation point only: every rank's buffers are unchanged |
| Distance.SquaredDistanceMetric | src/kmeans_support.c:88-99 | the squared distance is non-negative, symmetric, and zero from a point to itself |
| Distance.DistanceModesAgree | src/kmeans_support.c:88-99 | for any strictly increasing square root, proper and squared distances order two centroids the same way |
| Distance.FirstMin | src/kmeans_sequential.c:71-81 | the index returned is a minimum that no earlier index ties, or -1 exactly for no candidates |
| Distance.FirstMinExtend | src/kmeans_sequential.c:73-80 | one loop step: the new candidate replaces the current best only when strictly closer |
| Distance.FirstMinUnique | src/kmeans_sequential.c:71-81 | the first minimum is unique: any index with that property is the one returned |
| Distance.FirstMinOrderInvariant | src/kmeans_sequential.c:71-81 | two distance lists that order their entries alike have the same first minimum |
| Distance.NearestSpec | src/kmeans_sequential.c:70-81 | the chosen centroid is at least as close as every centroid and strictly closer than every earlier one; -1 exactly when there are no centroids |
| Distance.ProperDistanceSameNearest | src/kmeans_support.c:88-99 | picking by proper distance (any strictly increasing sqrt) picks the same centroid as squared distance |
| Sequential.ChangesBounds | src/kmeans_sequential.c:76-86 | the change count is at most the number of points, and zero exactly when no id changed |
| Sequential.ChangesZeroIff | src/kmeans_sequential.c:76-86 | zero changes over a range exactly when every id in it is unchanged |
| Sequential.ChangesSplit | src/kmeans_sequential.c:76-86 | the change count over a range is the sum over two adjacent subranges |
| Sequential.ChangesShift | src/kmeans_sequential.c:76-86 | counting changes in a copied chunk equals counting them in the slots it was copied from |
| Sequential.SimpleAssignClusters | src/kmeans_sequential.c:63-92 | each of the first n ids becomes its point's nearest centroid, ids past n, x and y are untouched, and the returned count is how many ids changed (0..n) |
| Sequential.ClosestCluster | src/kmeans_sequential.c:70-81 | the inner loop returns the first nearest centroid, -1 exactly when there are none |
| Sequential.SecondPassNoChanges | src/kmeans_sequential.c:63-92 | assigning twice with the same centroids changes nothing the second time |
| Sequential.AssignedIdsInRange | src/kmeans_sequential.c:70-84 | every assigned id is a valid centroid index, or -1 for every point when there are no centroids |
| Sequential.SimpleCalculateCentroids | src/kmeans_sequential.c:14-49 | each centroid with members becomes the mean of its members' x and y; a centroid with none keeps its old position |
| Sequential.RecomputeIdempotent | src/kmeans_sequential.c:14-49 | recomputing means from unchanged ids is a fixed point |
| Sequential.RecomputedDependsOnPrefix | src/kmeans_sequential.c:29-35 | the means depend only on the first n points: what lies in the buffer past them does not matter |
| Sequential.RecomputeExample | src/kmeans_sequential.c:14-49 | four points in two clusters give centroids (0,1) and (10,1) |
| Sequential.InitializeCentroids | src/kmeans_sequential.c:114-121 | fails exactly when there are fewer points than clusters; otherwise centroid k is point k |
| Sequential.SeededPointsNearOwnCentroid | src/kmeans_sequential.c:96-121 | a seed point is at distance zero from the centroid it is assigned to, which is itself or an earlier equal seed |
| SimpleDriver.Initialize | src/kmeans_simple_impl.c:14-22 | the dataset holds the loaded points in order with capacity `max_points`, the slots past them keep their stale contents, and the metrics record one processor |
| SimpleDriver.IsDone | src/kmeans_simple_impl.c:57-67 | a predicate without a contract of its own: the loop stops once a round changed nothing or the iteration cap is reached, with no state kept between calls; `SimpleDriver.MainLoop` guarantees it holds on exit |
| SimpleDriver.AssignClusters | src/kmeans_simple_impl.c:31-37 | only the dataset's ids change, to the sequential assignment, and the count is the number changed |
| SimpleDriver.CalculateCentroids | src/kmeans_simple_impl.c:43-48 | only the centroids change, to the means of the current clusters |
| SimpleDriver.InitializeRepresentatives | src/kmeans_simple_impl.c:50-54 | fails exactly when there are fewer points than clusters; otherwise seeds the centroids with the first K points and keeps the dataset |
| SimpleDriver.ConvergedIsFixedPoint | src/kmeans.c:28-47 | a round with no changes leaves the assignment and the centroids mutually stable |
| SimpleDriver.MainLoop | src/kmeans.c:20-52 | stops with zero changes or at the iteration cap; zero iterations exactly when the cap is not positive; records the iteration count; points never move; stopping on zero changes after two rounds leaves a fixed point |
| SimpleDriver.MainFinalize | src/kmeans.c:54-77 | the timings and the iteration count are copied into the metrics; the test result is set only when a test file was compared |
| SimpleDriver.Finalize | src/kmeans_simple_impl.c:99-103 | the point count is recorded before the finalisation above |
| Config.NewKmeansConfig | src/kmeans_config.c:16-29 | the defaults: 5000 points, 15 clusters, 10000 iterations, one processor, label "no-label", no files |
| Config.NewKmeansMetrics | src/kmeans_config.c:34-43 | the label, cap and cluster count come from the configuration; total time and test result start at 0; every other field keeps what `malloc` left |
| Config.ValidCount | src/kmeans_config.c:111-119 | accepts a value exactly when it is positive, and returns it unchanged |
| Config.ValidateConfig | src/kmeans_config.c:121-127 | rejects exactly a missing or empty input file name |
| Config.ApplyKmeansOption | src/kmeans_config.c:174-222 | `-h`, `:` and `?` stop the program; `-i`, `-n`, `-k` succeed exactly on a positive count and then write it to the iteration cap, point cap or cluster count; `-f` succeeds exactly on an existing file and sets the input file; `-o`, `-t`, `-m` set the output, test and metrics file; `-l` sets the label; `-e` switches proper distance on; any other code changes nothing; a long log option only sets the level |
| Config.ApplyKmeansOptionsCounts | src/kmeans_config.c:171-193 | after a parse that gets through, the iteration cap, point cap and cluster count each hold the value of the last option that names it, or their starting value |
| Config.ApplyKmeansOptionsPaths | src/kmeans_config.c:171-205 | after a parse that gets through, the input, output, test and metrics file each hold the last argument given for it, or their starting value |
| Config.ApplyKmeansOptionsFlags | src/kmeans_config.c:171-223 | after a parse that gets through, the log level is the last long log option's, proper distance is on exactly when it started on or `-e` occurred, the label is the last `-l` argument, and the processor count is unchanged |
| Config.ApplyKmeansOptionsSpec | src/kmeans_config.c:171-223 | a parse that gets through keeps all counts positive, the processor count unchanged and the last `-l` label, and saw no help or error option and only positive counts |
| Config.ParseKmeansCliSpec | src/kmeans_config.c:147-226 | a successful parse from the defaults has positive counts, one processor, a non-empty input file and the last label given |
| Logging.NewLogConfig | src/log_support.c:12-20 | every flag starts off |
| Logging.ApplyLogOption | src/log_support.c:54-83 | only `-h` stops the parse |
| Logging.Normalize | src/log_support.c:86-93 | debug implies verbose, silent implies quiet, and debug cancels silent and quiet |
| Logging.NormalizeFixedPoint | src/log_support.c:86-93 | normalisation leaves a configuration alone exactly when it is already consistent |
| Logging.NormalizeIdempotent | src/log_support.c:86-93 | normalising twice is normalising once |
| Logging.ApplyLogOptionsSpec | src/log_support.c:52-84 | the parse stops exactly when `-h` occurs; otherwise each flag is set exactly when its letter occurs or it was already set |
| Logging.ParseLogCliSpec | src/log_support.c:38-96 | from the defaults: stops exactly on `-h`; debug iff `-d`, verbose iff `-v` or `-d`, silent iff `-z` without `-d`, quiet iff `-q` or `-z` without `-d` |
| Support.RowPoint | src/kmeans_support.c:226-239 | a row gives its x and y, and its cluster only when the row and the file both have a third column, else no cluster |
| Support.ReadCsv | src/kmeans_support.c:208-246 | reads rows in order up to `max_points`, stopping early only at the end or at a row with fewer than two fields |
| Support.ComparePoints | src/kmeans_support.c:348-379 | returns 1 exactly when every result point equals the test point at its position, otherwise -1 |
| Support.TestResultsAsWritten | src/kmeans_support.c:333-382 | as written: a test file shorter than the results passes; otherwise passes exactly when the points match |
| Support.ShortExpectedFilePasses | src/kmeans_support.c:340-346 | one result point against an empty test file returns 1, though the points do not match |
| Support.TestResults | src/kmeans_support.c:316-331 | corrected: returns 1 exactly when the test file covers every result point and each matches, otherwise -1 |
| Support.StatusName | src/kmeans_support.c:178-188 | "passed" exactly for 1, "FAILED!" exactly for -1, "untested" for every other value |
| Support.SplitJoin | src/kmeans_support.c:148-157 | comma-joined fields without commas split back into the same fields |
| Support.PrintHeadersFields | src/kmeans_support.c:148-157 | the header line lists the first `dimensions` headers (at least one), then "Cluster" |
| KmeansMpi.Allocate | src/kmeans_mpi.c:112 | a node dataset of exactly `num_points_node` slots, all counted |
| KmeansMpi.Initialize | src/kmeans_mpi.c:61-115 | the root holds the loaded points in order; every rank has the same ceiling chunk, no centroids, and is not done; the metrics record the world size |
| KmeansMpi.ScatterDatasetAt | src/kmeans_mpi.c:120-132 | rank r's node slot j receives x, y and id from root slot r*chunk+j |
| KmeansMpi.GatherDatasetAt | src/kmeans_mpi.c:137-148 | root slot r*chunk+j receives x, y and id from rank r's node slot j |
| KmeansMpi.GatherDatasetAbove | src/kmeans_mpi.c:137-148 | root slots past world*chunk keep x, y and id |
| KmeansMpi.GatherAfterScatter | src/kmeans_mpi.c:120-148 | a gather right after a scatter leaves every rank's dataset as it was |
| KmeansMpi.AssignClusters | src/kmeans_mpi.c:170-186 | the round changes no centroids, chunk or done flag; non-root datasets are untouched and non-root ranks return 0 |
| KmeansMpi.AssignAt | src/kmeans_mpi.c:170-186 | after the round, root slot r*chunk+j holds the nearest centroid of its own point, with x and y unchanged |
| KmeansMpi.SumOfBlocks | src/kmeans_mpi.c:176-179 | the per-chunk change counts sum to the change count over the whole span |
| KmeansMpi.AssignRootSlots | src/kmeans_mpi.c:170-186 | after the round, every root slot in the span holds the nearest centroid of its point, and the slots past it keep their ids |
| KmeansMpi.ChunkChanges | src/kmeans_mpi.c:173-183 | each rank's change count equals the changes in its chunk of the gathered root column |
| KmeansMpi.CountsAreBlocks | src/kmeans_mpi.c:176-179 | the counts each rank reduces are the root's per-chunk changes |
| KmeansMpi.AssignRootCount | src/kmeans_mpi.c:176-185 | the reduced total is the number of root ids that changed over the whole span |
| KmeansMpi.AssignClustersRoot | src/kmeans_mpi.c:170-186 | the round's effect on the root: span slots get their nearest centroid, later slots keep theirs, and the returned count is the changes over the span |
| KmeansMpi.AssignClustersRefines | src/kmeans_mpi.c:170-186 | the root's real points get the sequential assignment; the count is the sequential count plus the changes in padding |
| KmeansMpi.PaddingCounted | src/kmeans_mpi.c:170-186 | the returned count is at least the sequential count, and equal exactly when no padding slot changes |
| KmeansMpi.PaddingExample | src/kmeans_mpi.c:170-186 | one point on two ranks: nothing changes sequentially, yet the round returns 1 from the padding slot |
| KmeansMpi.BroadcastCentroids | src/kmeans_mpi.c:153-161 | every rank ends with the root's centroids; nothing else changes |
| KmeansMpi.CalculateCentroids | src/kmeans_mpi.c:195-209 | every rank ends with the means recomputed on the root; nothing else changes |
| KmeansMpi.AssignClustersIdsInRange | src/kmeans_mpi.c:170-186 | after a round with at least one centroid, every real point's id is a valid centroid index |
| KmeansMpi.AssignClustersKeepsPoints | src/kmeans_mpi.c:170-186 | the round gives the root back the x and y values it scattered |
| KmeansMpi.RoundRefinesSequential | src/kmeans_mpi.c:264-277 | one distributed round leaves every rank with the centroids the sequential round computes |
| KmeansMpi.RoundKeepsShape | src/kmeans_mpi.c:264-277 | an assignment-plus-recomputation round leaves every real root id a valid centroid index, all ranks agreeing on the centroids, and the root's point count, coordinates and centroid count unchanged |
| KmeansMpi.SecondRoundNoChanges | src/kmeans_mpi.c:170-186 | a second round with the same centroids returns 0 at the root and gives the root's dataset back unchanged |
| KmeansMpi.ConvergedRoundIsFixedPoint | src/kmeans_mpi.c:243-299 | when the centroids were recomputed from the root's dataset and a round then reports 0 changes, the round and the recomputation change nothing and leave a Lloyd fixed point |
| KmeansMpi.InitializeRepresentatives | src/kmeans_mpi.c:211-225 | fails exactly when the root has fewer points than clusters; otherwise every rank holds the first K root points as centroids |
| KmeansMpi.IsDone | src/kmeans_mpi.c:228-241 | every rank ends with the root's flag; it turns on when the root sees no change or reaches the cap, and once on stays on |
| KmeansMpi.IsDoneRootDecides | src/kmeans_mpi.c:228-241 | the non-root change counts do not affect the decision |
| KmeansMpi.MainLoop | src/kmeans_mpi.c:243-299 | every rank ends done with the same centroids; the root stopped on zero changes or at the cap; zero iterations exactly when the cap is not positive; the iteration count is recorded; the root's x and y never move; stopping on zero changes after at least two rounds leaves the root's ids and the centroids a Lloyd fixed point |
| KmeansMpi.Finalize | src/kmeans_mpi.c:347-357 | the root records the point count and the test result when a test file was compared; no other metric changes |
| Lowlevel.LowlevelAssignClusters | src/kmeans_mpi1_impl.c:158-196 | the first `num_points` ids get the nearest of the first `num_clusters` centroids, the rest are untouched, the count is the changes; on equal-length arrays this is the sequential assignment |
| Mpi1.ScatterXsAt | src/kmeans_mpi1_impl.c:116-130 | rank r's node x slot j receives root x slot r*chunk+j; y and ids are not sent |
| Mpi1.GatherXs | src/kmeans_mpi1_impl.c:132-146 | only the root's x column is written; everything else is unchanged |
| Mpi1.GatherXsAt | src/kmeans_mpi1_impl.c:132-146 | root x slot r*chunk+j receives rank r's node x slot j |
| Mpi1.Assign | src/kmeans_mpi1_impl.c:204-224 | non-root datasets are untouched, and each rank returns only its own change count, with no sum |
| Mpi1.AssignLocal | src/kmeans_mpi1_impl.c:204-224 | a rank assigns slot j using the root's x and the y already in its node buffer |
| Mpi1.AssignKeepsRootDataset | src/kmeans_mpi1_impl.c:204-224 | the root's dataset leaves the round exactly as it entered |
| Mpi1.UnlabelledRootStaysUnassigned | src/kmeans_mpi1_impl.c:116-146 | a root whose loaded ids include -1 (no cluster column) still has ids outside the centroid range after the round |
| Mpi1.Iteration | src/kmeans_mpi1_impl.c:204-247 | for a root whose loaded ids are valid centroid indices, every rank gets the means of the root's unchanged clusters |
| Mpi1.IterationStuck | src/kmeans_mpi1_impl.c:204-247 | for such labelled input, after the first iteration the centroids never move again |
| MpiStuff.AssignClusters | experiemental/kmeans_mpi_stuff.c:219-252 | with its barriers, the round is the round of src/kmeans_mpi.c, count included |
| MpiStuff.MainLoop | experiemental/kmeans_mpi_stuff.c:309-365 | the same stopping, agreement and fixed-point guarantees as the loop of src/kmeans_mpi.c, and the root's x and y never move |
| MpiTests.CheckRoot | experimental/mpi_test_points.c:186-196 | the root passes exactly when each of the first six x values is 2i + 10 |
| MpiTests.SpanFits | experiemental/mpi_test.c:117-122 | six points in chunks on at most `capacity` ranks never outgrow a buffer of at least twelve slots |
| MpiTests.LoadDataset | experimental/mpi_test_points.c:83-92 | point i is (2i, 3i) with no cluster, six points counted |
| MpiTests.Setup | experimental/mpi_test_points.c:94-144 | the root holds the loaded points and every rank learns the ceiling chunk |
| MpiTests.AddTen | experimental/mpi_test_points.c:146-173 | every rank adds 10 to each received x and changes nothing else |
| MpiTests.ShiftAt | experimental/mpi_test_points.c:146-173 | each root slot in the span comes back with 10 added to x, and y and id unchanged |
| MpiTests.PointsProgramPasses | experimental/mpi_test_points.c:175-204 | on any world size up to the buffer, the six points come back as 2i + 10 with y and id intact; each padding slot comes back as its stale contents with 10 added to x; the rest of the buffer is untouched |
| MpiTests.LoadColumn | experiemental/mpi_test.c:106-112 | slot i holds 2i for the six points, and stale memory elsewhere |
| MpiTests.ColumnProgramPasses | experiemental/mpi_test.c:164-192 | on up to 300 ranks the span fits the buffer and the first six slots come back as 2i + 10 |

src/mpi_test_pointers.c:170-199 runs the same program as experimental/mpi_test_points.c. It only reaches its point set through a pointer, and the model does not distinguish the two. So `MpiTests.PointsProgramPasses` covers it too.

## Left out

- MPI start-up and shutdown (`MPI_Init`, `MPI_Finalize`), processor names and the rank labels used in log lines: they move no data the algorithm uses.
- The OpenMP implementation in src/kmeans_omp2_impl.c and the mocks in src/mock_mpi.c and experimental/mock_mpi.h: they are outside the modelled core.
- IEEE double rounding: coordinates are real numbers.
- `DBL_MAX`: the arg-min starts from "no candidate", which gives -1 when there are no centroids.
- The square root of the proper-distance mode: it is any strictly increasing function.
- Clocks and timing: only the iteration count is modelled. Timings pass through `Timing`/`Metrics` fields unchanged.
- Logging output, `print_points`, `write_csv`, `write_csv_file`, `write_metrics_file`, `summarize_metrics`: these only write output.
- Opening and reading files, `csvhelper`, `strtod`, `sscanf` and `atoi`: a CSV line is a `Support.Row` of already converted values, and `atoi`/file existence are parameters of the parser.
- `getopt_long`: options come in already split.
- `main` of src/kmeans.c and `run`: they only call the modelled steps in sequence.
- `Mpi1` has no main loop: src/kmeans_mpi1_impl.c calls an outer loop that is not part of this model.
- `allocate_pointset_points` and `copy_points`: their bodies are not part of this model. They are modelled by what their callers rely on: a buffer of the requested size, and copying the first K points.
- 32-bit `int` overflow: counts are unbounded, and every modelled count stays within `MAX_POINTS`.
- The cluster field of a centroid: the core never reads it.
- The metrics in experiemental/kmeans_mpi_stuff.c are created after `initialize`, so the processor count is never recorded there. This is not modelled, because it only affects the metrics output.
- MpiTests.PointsProgramPasses: requires at most `MAX_POINTS` ranks. With more ranks the programs scatter past their buffer, which the model cannot express.
- MpiTests.ColumnProgramPasses: requires at most 300 ranks, for the same reason.
- Mpi1.Iteration: requires the root's loaded ids to be cluster indices below K, which holds only for an input whose cluster column holds such indices. Without a cluster column every id is loaded as -1 (src/kmeans_support.c:227) and never replaced (`Mpi1.UnlabelledRootStaysUnassigned`); `simple_calculate_centroids` then indexes its arrays at -1 (src/kmeans_sequential.c:30-34), which is undefined behaviour and not modelled.
- Mpi1.IterationStuck: the same precondition, for the same reason.
- KmeansMpi.Initialize: sizes the root buffer with the corrected `Partition.RootCapacity`, not `max_points` (see Findings).

## Findings

| source | as written | input that shows it | evidently intended | confidence | as-written member | corrected member |
|---|---|---|---|---|---|---|
| src/kmeans_mpi.c:90 | the root's dataset has `max_points` slots, but scatter and gather touch `world * ceil(total / world)` slots (the same in src/kmeans_mpi1_impl.c:88 and experiemental/kmeans_mpi_stuff.c:99) | 5000 points with `max_points` 5000 on 3 ranks: chunk 1667, 5001 slots scattered from and gathered into a 5000-slot buffer | a root buffer that covers the scatter/gather span | not executed | Partition.AllocatedRootOverrunExample | Partition.RootCapacity |
| src/kmeans_support.c:340-346 | a test file with fewer points than the results sets the result to 1 (pass) | one result point, an empty test file: returns 1 | -1, as the function's own comment says (src/kmeans_support.c:323-324) | not executed | Support.ShortExpectedFilePasses | Support.TestResults |
