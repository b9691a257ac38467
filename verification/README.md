# Verified models of the RIFE runtime, its exporters and the catalogue client

This project models four parts of the program in Dafny and proves what they promise:

1. **The process-wide protocol of the RIFE runtime**
   (`dev/windows/mpv/rife_runtime.cpp`): the prewarm queue with its one detached
   worker, the cache of prewarmed states, the binding of CUDA to one D3D11 device,
   and the one-slot cache of runtimes. Each critical section is one atomic step,
   builds may fail, and the results hold in every interleaving.
2. **The per-session logic of the same runtime**: scene classification with
   smoothing, statistics with a histogram percentile, choice of an optimization
   profile, addressing of the packed FP16 tensors, and how `run_inference` shares the
   immediate context.
3. **Two rewrites of ONNX graphs** (the Python exporters). Graphs are
   single-assignment node lists with a denotational semantics; Cast, Constant,
   Reshape, Split and Concat mean what the ONNX operator specification says, and
   whatever the model does not compute, such as a Reshape with an inferred dimension or
   any other operator, means what a parameter says.
4. **The asynchronous state of the catalogue client** (`src/web/mediastation.js`):
   image loading, LRU caches, the paged library list, home refreshes and the player
   session, each as a state with steps for user actions, replies, timeouts, promise
   handlers and native events, in any order. Any order allows more interleavings than
   JavaScript does, which runs promise handlers before the next timeout or reply, so
   the results hold for JavaScript's as well.

Code that works in place is modelled by classes and methods. Their contracts equate
the new state with a function of the old one and say what that means for the caller.
The client's objects carry the history of their steps as a ghost field: their fields
are always those of a run, so that the theorems, which are about all runs, hold of them.

| module | models |
|---|---|
| `Wrappers`, `Basics` | Option and Result; shared facts about sets, sequences and products |
| `OnnxGraph` | ONNX graphs and what they compute |
| `CastRemoval` | removal of FP32-to-FP32 Casts |
| `WarpReshape`, `WarpExample` | replacement of the [1, 14, 0, 0] Reshape by Split and Concat |
| `PrewarmProtocol`, `PrewarmRuns` | prewarm queue, worker, cache, waiters and binding; all their interleavings |
| `RuntimeSharing` | the one-slot runtime cache and its handles |
| `SceneClassifier` | classification of frame pairs |
| `SessionStatistics` | counters and the 95th percentile |
| `ShapeProfiles` | padding, tensor sizes and optimization profiles |
| `TensorPacking` | shader addressing of packed halves |
| `InferenceDiscipline` | locking, mapping and waiting in `run_inference` |
| `ImageQueue` | native requests and the two-slot image queue |
| `LruCache` | the library and series caches |
| `LibraryPaging` | the filtered, paged library list |
| `HomeRefresh` | home refreshes and the local Continue Watching update |
| `PlayerSession` | one player session |

Doubles of the runtime are exact reals, 0.95 is 19/20, and byte addresses of the
shaders are computed modulo 2^32 as the shaders do. The outcomes of CUDA, TensorRT,
D3D11, shape inference, the ONNX checker, the network and the native bridge are
parameters of the steps.

Some promises do not hold of the code without a condition. For each the exact
condition is proved, together with a concrete input or run that fails:

- Split and Concat compute what the Reshape computed exactly for a batch of two
  tensors with seven channels (`SplitConcatIsReshape`); the code does not check that,
  and a [14, 1, 1, 1] source fails (`SplitConcatDiffers`). A name keeps its tensor
  exactly if it is not a removed shape constant (`NameIsKeptIff`); the rewrite does not
  check that such a constant is not a graph output (`GraphOutputIsLost`).
- A key becomes cached and pending at the same time exactly if a queue call pushes its
  task although the key has been cached since it looked, or a synchronous prewarm
  publishes its state although the key is pending by now (`BecomesCachedAndPendingIff`,
  `CachedAndPending`): looking and pushing are separate critical sections.
- The waits of `run_inference` are outside the lock exactly if no profiling event is
  waited for, hence on success exactly if profiling is off (`WaitsOutsideIffNoSync`,
  `RunInference`, `ProfilingWaitsInside`), although the comment beside the map promises
  to keep the lock short.
- The caller's context state is given back exactly if no swap failed (`ContextOfLog`,
  `FailedSwapLosesContext`): a swap that yields no caller state is followed by a swap to
  no state. The lock is given back on every path. Resources stay mapped exactly if an
  unmap, or a context block over mapped resources, failed (`RunInference`).
- Images are deduplicated from one account reset to the next exactly if the reset came
  while nothing was loading (`ResetIsSafeIffQuiet`); `ResetLosesTrack` is a run where the
  same image is loaded twice.
- A library filter whose answer arrives while another view is shown leaves the list
  marked as loading for ever (`FilterAnswerLostIffHidden`, `StrandedForEver`,
  `StrandedByNavigation`).
- The end of a file closes the player exactly if no advance is pending and the episode
  is not to be followed by the next one, even when the exit has been requested
  (`FinishedClosesIff`, `FinishedAfterExitStaysOpen`). An advance whose episode list comes
  while the exit is requested stays pending for ever (`AdvanceOrphanedIffExiting`,
  `OrphanedForEver`, `OrphanedByFailedExit`).

## Model

| member | source | states |
|---|---|---|
| `CastRemoval.Resolve` | dev/windows/rife_v426_scale05_export.py:327-334 | always terminates; succeeds with the end of the replacement chain, and reports a cycle exactly when no number of replacements leaves the map |
| `CastRemoval.CollectCasts` | dev/windows/rife_v426_scale05_export.py:302-322 | accepts exactly the graphs whose Casts are all redundant, otherwise names the first that is not |
| `CastRemoval.ResolveInputs` | dev/windows/rife_v426_scale05_export.py:336-338 | every input of every kept node is replaced by what it resolves to; fails only on a cycle |
| `CastRemoval.RemoveRedundantFp32Casts` | dev/windows/rife_v426_scale05_export.py:288-350 | the model changes only on success; each of the three errors arises if and only if its condition holds, the verdict of the checker included |
| `CastRemoval.ValueTypesAreDeclared` | dev/windows/rife_v426_scale05_export.py:291-301 | exactly the described or initialized names have a known type, one with which they are, and an initializer decides |
| `CastRemoval.KeptInfoIs` | dev/windows/rife_v426_scale05_export.py:340-345 | the descriptions that are left are those of names that are not replaced |
| `CastRemoval.CycleNeverLeaves` | dev/windows/rife_v426_scale05_export.py:330-331 | a name seen twice is followed inside the map for ever |
| `CastRemoval.NoCycleInOrder` | dev/windows/rife_v426_scale05_export.py:336-338 | on a graph in topological order no cycle is ever reported |
| `CastRemoval.CastRemovalPreservesMeaning` | dev/windows/rife_v426_scale05_export.py:288-350 | every kept tensor and every graph output evaluates to the same value, and a removed one to what now stands for it, for all graphs, feeds and operator meanings |
| `CastRemoval.CastRemovalKeepsOrder` | dev/windows/rife_v426_scale05_export.py:336-345 | kept nodes stay topologically ordered and use no removed name; one node goes for each replacement |
| `WarpReshape.SplitConcatIsReshape` | dev/windows/rife_fp16_io_wrapper.py:184-223 | Split on axis 0 and Concat on axis 1 equal the Reshape if and only if the source is a 2 x 7 batch, for all heights, widths and contents |
| `WarpReshape.SplitConcatDiffers` | dev/windows/rife_fp16_io_wrapper.py:184-223 | the code accepts a [14, 1, 1, 1] source, because it can be reshaped, and there the rewrite computes another tensor, whatever the contents |
| `WarpReshape.WarpBatchReshapes` | dev/windows/rife_fp16_io_wrapper.py:151-161 | a 2 x 7 batch can always be reshaped to [1, 14, H, W] with the same row-major data |
| `WarpReshape.FindProducers` | dev/windows/rife_fp16_io_wrapper.py:136-147 | the last producer of each name, and the outputs of GridSample nodes |
| `WarpReshape.CountConsumers` | dev/windows/rife_fp16_io_wrapper.py:162-166 | how often a name is used as an input |
| `WarpReshape.TargetIff` | dev/windows/rife_fp16_io_wrapper.py:148-161 | a node is replaced if and only if it reshapes what a GridSample node computes to the constant list [1, 14, 0, 0] |
| `WarpReshape.FindTargets` | dev/windows/rife_fp16_io_wrapper.py:148-178 | succeeds exactly with four targets whose shapes have one consumer each; an error names its cause |
| `WarpReshape.RewriteNodes` | dev/windows/rife_fp16_io_wrapper.py:180-222 | removed Constants, replaced Reshapes and the new size tensors, in order |
| `WarpReshape.NormalizeLiteWarpBatchReshapes` | dev/windows/rife_fp16_io_wrapper.py:133-226 | all or nothing: the graph is rewritten exactly when all targets are accepted |
| `WarpReshape.EveryNodePlanned` | dev/windows/rife_fp16_io_wrapper.py:182-192 | exactly the targets are replaced, exactly the definitions of their shapes are removed, and no other node touches those |
| `WarpReshape.SplitsPreserveMeaning` | dev/windows/rife_fp16_io_wrapper.py:133-226 | when the sources are 2 x 7 batches, every tensor but the removed shapes and the generated ones is computed unchanged, for every graph, feed and operator meaning |
| `WarpReshape.NameIsKeptIff` | dev/windows/rife_fp16_io_wrapper.py:182-187 | a name of the original graph keeps its tensor if and only if it is not a removed shape |
| `WarpReshape.RemovedShapeIsLost` | dev/windows/rife_fp16_io_wrapper.py:182-187 | a removed shape is not computed by the rewritten graph |
| `WarpExample.GraphOutputIsLost` | dev/windows/rife_fp16_io_wrapper.py:182-187 | a concrete graph that the rewrite accepts and of which it loses an output, for every feed and operator meaning |
| `WarpReshape.NoDanglingShape` | dev/windows/rife_fp16_io_wrapper.py:162-172 | no node that is left mentions a removed shape |
| `WarpReshape.NodeCountIsKept` | dev/windows/rife_fp16_io_wrapper.py:180-226 | the number of nodes does not change |
| `PrewarmProtocol.PrewarmCache.FindPrewarmState` | dev/windows/mpv/rife_runtime.cpp:1030-1045 | whether a state of the key is cached |
| `PrewarmProtocol.PrewarmCache.FindPendingPrewarmTask` | dev/windows/mpv/rife_runtime.cpp:1047-1065 | the first pending task of the key |
| `PrewarmProtocol.PrewarmCache.EnsurePrewarmWorker` | dev/windows/mpv/rife_runtime.cpp:1273-1281 | however often it is called, exactly one worker thread has been started in all |
| `PrewarmProtocol.PrewarmCache.TakeTask` | dev/windows/mpv/rife_runtime.cpp:1213-1231 | starts the first task that nobody has started |
| `PrewarmProtocol.PrewarmCache.PublishTask` | dev/windows/mpv/rife_runtime.cpp:1240-1259 | caches the key once on success and removes the task, in one step |
| `PrewarmProtocol.PrewarmCache.PublishState` | dev/windows/mpv/rife_runtime.cpp:2729-2740 | caches the key unless it is cached |
| `PrewarmProtocol.PrewarmCache.PushTask` | dev/windows/mpv/rife_runtime.cpp:2782-2799 | appends a task unless one of the key is pending |
| `PrewarmProtocol.PrewarmCache.CompleteTask` | dev/windows/mpv/rife_runtime.cpp:1260-1268 | the outcome reaches exactly the published task, of all tasks ever pushed |
| `PrewarmRuns.StepKeepsInv` | dev/windows/mpv/rife_runtime.cpp:1209-1301 | every atomic step of queue, synchronous prewarm, creation, worker and waiter keeps the invariant |
| `PrewarmRuns.Run` | dev/windows/mpv/rife_runtime.cpp:1209-1301 | the invariant holds after every interleaving, the cache and the list of tasks only grow, and no binding is ever changed |
| `PrewarmRuns.NothingIsLost` | dev/windows/mpv/rife_runtime.cpp:1209-1281 | in every interleaving cached keys and pending keys are pairwise distinct, there is at most one worker, and every pushed task is pending, cached or failed |
| `PrewarmRuns.OneWorker` | dev/windows/mpv/rife_runtime.cpp:1273-1281 | in every interleaving there is one worker from the first queue call on, so that no pending task and no push is without it |
| `PrewarmRuns.LeavesQueueAtomically` | dev/windows/mpv/rife_runtime.cpp:1240-1259 | a task leaves the queue only at its head, and a success moves it to the cache in the same step |
| `PrewarmRuns.ServedInOrder` | dev/windows/mpv/rife_runtime.cpp:1217-1230 | tasks are started and removed in the order in which they were pushed |
| `PrewarmRuns.RankDecreases` | dev/windows/mpv/rife_runtime.cpp:1213-1270 | no step delays a task, and each worker step lowers its rank |
| `PrewarmRuns.EventuallyReported` | dev/windows/mpv/rife_runtime.cpp:1213-1270 | a task is reported once the worker has taken as many steps as its rank, whatever happens in between |
| `PrewarmRuns.ReleasedWaiterHits` | dev/windows/mpv/rife_runtime.cpp:1283-1301 | a waiter released with success finds its state, and whatever happens then it uses it: it never binds or builds, a Runtime initialized after such a wait is a prewarm hit, and a prewarm succeeds at once |
| `PrewarmRuns.CachedStateIsUsed` | dev/windows/mpv/rife_runtime.cpp:1599-1633 | a call that looks its key up while the state is cached uses that state in every continuation, waited or not |
| `PrewarmRuns.CreationHits` | dev/windows/mpv/rife_runtime.cpp:1599-1633 | a creation that nothing interrupts, of a key that is cached and not pending, ends with a prewarm hit |
| `PrewarmRuns.CachedKeyIsNotQueued` | dev/windows/mpv/rife_runtime.cpp:2766-2773 | a queue call of a cached key pushes no task, whatever happens |
| `PrewarmRuns.PendingTaskIsAwaited` | dev/windows/mpv/rife_runtime.cpp:1283-1301 | a call that finds a pending task of its key waits for that task until it is reported, in every continuation |
| `PrewarmRuns.OutcomesAreTrue` | dev/windows/mpv/rife_runtime.cpp:1233-1268 | in every interleaving a task is reported as a success if and only if its own build succeeded, and a state is cached only after a build of its key succeeded |
| `PrewarmRuns.SunnyRunsSucceed` | dev/windows/mpv/rife_runtime.cpp:1209-1301 | while nothing fails and all calls are for one CUDA path and device, no call is refused and no task fails, in any interleaving |
| `PrewarmRuns.StormyRunsMakeNothing` | dev/windows/mpv/rife_runtime.cpp:438-475 | while whatever may fail does fail, nothing is bound, cached or created |
| `PrewarmRuns.WaitedMeansSucceeded` | dev/windows/mpv/rife_runtime.cpp:1292-1300 | a wait ends well only through a success for the same key, and badly only through a failure of that task |
| `PrewarmRuns.OneBinding` | dev/windows/mpv/rife_runtime.cpp:438-475 | everything built in the process has one CUDA path and one D3D11 device |
| `PrewarmRuns.CachedAndPending` | dev/windows/mpv/rife_runtime.cpp:2766-2799 | some interleaving leaves a key both cached and pending |
| `PrewarmRuns.BecomesCachedAndPendingIff` | dev/windows/mpv/rife_runtime.cpp:2729-2799 | a step makes a key both cached and pending if and only if it pushes a task of a cached key, or publishes the state of a synchronous prewarm whose key is pending; the worker never does |
| `RuntimeSharing.RuntimeCache.Create` | dev/windows/mpv/rife_runtime.cpp:2838-2866 | hands out the Runtime of the slot if and only if it has the configuration, its device works and no handle holds it, and a new one otherwise; a returned handle is the only one of its Runtime |
| `RuntimeSharing.RuntimeCache.Destroy` | dev/windows/mpv/rife_runtime.cpp:2908-2911 | gives up one reference and keeps the slot |
| `RuntimeSharing.CreatedIsUnshared` | dev/windows/mpv/rife_runtime.cpp:2841-2865 | an uninterrupted creation hands out a Runtime of its configuration that no other handle holds |
| `RuntimeSharing.GivenBackIsReused` | dev/windows/mpv/rife_runtime.cpp:2841-2849 | a Runtime that was created and given back is used again for the same configuration |
| `RuntimeSharing.FailedCreationFrees` | dev/windows/mpv/rife_runtime.cpp:2851-2856 | a creation that fails gives up a cached Runtime that nobody uses, and nothing else |
| `RuntimeSharing.StepKeepsInv` | dev/windows/mpv/rife_runtime.cpp:2838-2866 | the invariant of creations under the mutex with destructions at any point |
| `RuntimeSharing.Run` | dev/windows/mpv/rife_runtime.cpp:2838-2866 | the invariant holds after every interleaving |
| `RuntimeSharing.HandlesNeverShare` | dev/windows/mpv/rife_runtime.cpp:2838-2866 | in every interleaving no two live handles share a Runtime, and each has the configuration it asked for |
| `RuntimeSharing.UnusedUntilTaken` | dev/windows/mpv/rife_runtime.cpp:2842-2846 | a use count of 1 seen under the lock stays 1 until the Runtime is taken |
| `RuntimeSharing.DestroyGivesUp` | dev/windows/mpv/rife_runtime.cpp:2908-2911 | a destruction, between any two steps of creations, frees the Runtime of its handle and touches no other |
| `RuntimeSharing.AloneIsAtomic` | dev/windows/mpv/rife_runtime.cpp:2838-2866 | the steps of an uninterrupted creation compose to `Create` |
| `SceneClassifier.PastOnlyTurnsUncertainIntoFade` | dev/windows/mpv/rife_runtime.cpp:2209-2256 | what came before the pair matters only by turning an uncertain pair into a fade, and only after an uncertain pair or a fade |
| `SceneClassifier.SceneDetector.DetectScene` | dev/windows/mpv/rife_runtime.cpp:2257-2273 | three remembered fields classify as the whole history since the reset would |
| `SceneClassifier.SceneDetector.Reset` | dev/windows/mpv/rife_runtime.cpp:1875-1880 | forgets the history |
| `SceneClassifier.RemembersNext` | dev/windows/mpv/rife_runtime.cpp:2269-2272 | the streak is min(255, length of the run of equal classes), and capping it changes no decision |
| `SceneClassifier.HardCutIffCandidate` | dev/windows/mpv/rife_runtime.cpp:2248-2268 | HARD_CUT is reported if and only if it is the raw candidate |
| `SceneClassifier.ReportedOnSight` | dev/windows/mpv/rife_runtime.cpp:2209-2256 | whatever came before, a flash is reported as one, a hard cut exactly for a pair that looks like one and not like a flash, an exposure fade as a fade, and a normal or uncertain pair looks like nothing else |
| `SceneClassifier.DissolveGoesOn` | dev/windows/mpv/rife_runtime.cpp:2228-2240 | a slow dissolve behind an uncertain pair or a fade is a fade |
| `SceneClassifier.HeldIff` | dev/windows/mpv/rife_runtime.cpp:2257-2268 | a pair is reported as something else than its candidate if and only if it is uncertain behind a run of fewer than three flashes or fades, or quiet and drifting behind a fade; it is then reported as the pair before it |
| `SceneClassifier.RunsStartWithTheirCandidate` | dev/windows/mpv/rife_runtime.cpp:2257-2268 | every run of FLASH or FADE begins with a pair of that candidate |
| `SceneClassifier.HeldFlash` | dev/windows/mpv/rife_runtime.cpp:2258-2262 | a pair reported as FLASH without being one is UNCERTAIN and the second or third of its run |
| `SceneClassifier.AtMostTwoHeld` | dev/windows/mpv/rife_runtime.cpp:2258-2262 | within a run of FLASH at most two pairs are held |
| `SceneClassifier.LongFades` | dev/windows/mpv/rife_runtime.cpp:2257-2268 | past its third pair a fade goes on only through fades or quiet pairs with drifting exposure |
| `SceneClassifier.FlashThenUncertain` | dev/windows/mpv/rife_runtime.cpp:2258-2271 | a flash followed by uncertain pairs only is reported as exactly three flashes and then as uncertain |
| `SceneClassifier.FadeThenUncertain` | dev/windows/mpv/rife_runtime.cpp:2258-2271 | a fade followed by uncertain pairs only is reported as exactly three fades and then as uncertain |
| `SceneClassifier.FadeGoesOn` | dev/windows/mpv/rife_runtime.cpp:2263-2267 | whatever came before, a fade goes on through any number of quiet pairs whose exposure still drifts |
| `SessionStatistics.Session.Process` | dev/windows/mpv/rife_runtime.cpp:1730-1873 | all counters and the histogram stay those of the history of calls |
| `SessionStatistics.Session.RecordInference` | dev/windows/mpv/rife_runtime.cpp:2557-2566 | exactly one bucket is raised by one |
| `SessionStatistics.IndexIsCode` | dev/windows/mpv/rife_runtime.h:32-38 | each class has a counter of its own, at its public code |
| `SessionStatistics.Session.BeginSession` | dev/windows/mpv/rife_runtime.cpp:1704-1712 | all counters of an empty history |
| `SessionStatistics.Bucket` | dev/windows/mpv/rife_runtime.cpp:2562-2564 | 0.025 ms buckets that enclose their durations, the last from 100 ms on |
| `SessionStatistics.Session.P95` | dev/windows/mpv/rife_runtime.cpp:1882-1897 | the lower end of the bucket of the ceil(0.95 n)-th smallest duration of any sorted arrangement, within one bucket width unless saturated |
| `SessionStatistics.SelectedBucket` | dev/windows/mpv/rife_runtime.cpp:1886-1896 | where the accumulated histogram reaches the rank, the sorted list has its bucket |
| `SessionStatistics.SortingExists` | dev/windows/mpv/rife_runtime.cpp:1882-1897 | every list of durations has a sorted arrangement |
| `SessionStatistics.HistogramTotal` | dev/windows/mpv/rife_runtime.cpp:2557-2566 | the histogram adds up to `inferred_pairs` |
| `SessionStatistics.CallsAreConserved` | dev/windows/mpv/rife_runtime.cpp:1730-1873 | calls are inferred, cut or failed; cuts and inferred pairs are bounded by the counts of their classes |
| `ShapeProfiles.PaddedDimension` | dev/windows/mpv/rife_runtime.cpp:598-609 | succeeds exactly for alignment 64 or 128 and 1 to 16384 pixels, with the least multiple not below the source |
| `ShapeProfiles.TensorSize` | dev/windows/mpv/rife_runtime.cpp:540-557 | succeeds exactly when all dimensions are positive and the true product fits, and then returns it |
| `ShapeProfiles.SelectProfile` | dev/windows/mpv/rife_runtime.cpp:808-831 | the loop over the spans equals the closed-form choice |
| `ShapeProfiles.BestIsTightest` | dev/windows/mpv/rife_runtime.cpp:808-831 | the choice admits the shape and every other specialised profile that admits it has a larger span |
| `ShapeProfiles.Spans` | dev/windows/mpv/rife_runtime.cpp:783-804 | the specialised profiles of the contract are strictly ordered by span |
| `ShapeProfiles.ConfigureShape` | dev/windows/mpv/rife_runtime.cpp:722-878 | succeeds exactly on a working engine, with least padding, closed-form profile and true byte sizes |
| `TensorPacking.PrepareInput` | dev/windows/mpv/rife_runtime.cpp:150-183 | a thread inside the padded texture makes eleven stores of its content, one outside none |
| `TensorPacking.FramesArePadded` | dev/windows/mpv/rife_runtime.cpp:131-170 | the frames are shown pixel by pixel, and black where the padding reaches beyond them |
| `TensorPacking.GridsSpanTheFrame` | dev/windows/mpv/rife_runtime.cpp:170-183 | the time is one half; the grids run from -1 at the first column and row to 1 at the last, by the steps of the last two channels |
| `TensorPacking.ConfiguredBufferHolds` | dev/windows/mpv/rife_runtime.cpp:1983-1990 | the FP16 input buffer of a configured shape holds exactly the words of the tensor, and the limit on raw buffers keeps all addresses within 32 bits |
| `TensorPacking.DispatchedIsPrepared` | dev/windows/mpv/rife_runtime.cpp:2358-2359 | the dispatched stores are exactly those of the threads of prepare_input |
| `TensorPacking.StoreAddress` | dev/windows/mpv/rife_runtime.cpp:144-148 | the 32-bit byte address does not wrap, is aligned and in bounds |
| `TensorPacking.StoresAreDisjoint` | dev/windows/mpv/rife_runtime.cpp:144-148 | no two stores of a dispatch meet in a word |
| `TensorPacking.StoresCover` | dev/windows/mpv/rife_runtime.cpp:2358-2359 | every word is the target of a dispatched store |
| `TensorPacking.ScheduleExists` | dev/windows/mpv/rife_runtime.cpp:2358-2359 | every tensor has an order of its stores, one for each word |
| `TensorPacking.Dispatch` | dev/windows/mpv/rife_runtime.cpp:2358-2359 | any order of the stores fills the buffer with the row-major [1, 11, H, W] tensor and writes every word exactly once |
| `TensorPacking.LoadOutputChannel` | dev/windows/mpv/rife_runtime.cpp:240-248 | reads the row-major element (channel, y, x), in bounds and without wrap-around |
| `TensorPacking.ReadBack` | dev/windows/mpv/rife_runtime.cpp:240-248 | reading what prepare_input wrote gives its content at every channel and place |
| `InferenceDiscipline.Inference.OpenContextBlock` | dev/windows/mpv/rife_runtime.cpp:1507-1527 | a block that cannot save the caller's state gives the lock back and loses the caller's state |
| `InferenceDiscipline.Inference.MapResources` | dev/windows/mpv/rife_runtime.cpp:2392-2420 | maps under the lock after the input conversion; a failed profiling event is followed by an unmap |
| `InferenceDiscipline.Inference.Infer` | dev/windows/mpv/rife_runtime.cpp:2427-2484 | binds the tensors and runs the network on mapped resources outside the lock; success means that both pointers, the sizes, the binding, the enqueueing and the synchronization succeeded, in this order |
| `InferenceDiscipline.Inference.UnmapResources` | dev/windows/mpv/rife_runtime.cpp:2488-2513 | unmaps under the lock; the resources stay mapped only if the block or the unmap failed |
| `InferenceDiscipline.Inference.RunInference` | dev/windows/mpv/rife_runtime.cpp:2333-2555 | on every path the rules hold and the lock is given back; success means that no call failed, and then the calls were exactly those of the script, in order; the caller's state is in the context again if and only if no swap failed; the resources stay mapped exactly if an unmap or its block failed; every wait is outside the lock if and only if no profiling event is waited for, which on success means that profiling is off |
| `InferenceDiscipline.RulesMean` | dev/windows/mpv/rife_runtime.cpp:2333-2555 | maps, unmaps, conversions and waits for profiling events happen inside the lock, all other waits and the inference outside it, each after what it depends on; no output is converted before a network was enqueued and synchronized; after a failure there is only cleaning up |
| `InferenceDiscipline.WaitsOutsideIffNoSync` | dev/windows/mpv/rife_runtime.cpp:2392-2513 | in every log that keeps the rules all waits are outside the lock if and only if no profiling event is waited for |
| `InferenceDiscipline.ProfilingWaitsInside` | dev/windows/mpv/rife_runtime.cpp:2403-2415 | a concrete log in which, with profiling, a wait holds the lock |
| `InferenceDiscipline.ContextOfLog` | dev/windows/mpv/rife_runtime.cpp:1514-1523 | outside the lock the caller's state is in the context if and only if no swap in the log failed |
| `InferenceDiscipline.FailedSwapLosesContext` | dev/windows/mpv/rife_runtime.cpp:1514-1523 | a concrete log of a block that gives the lock back but not the caller's state |
| `InferenceDiscipline.StuckOfLog` | dev/windows/mpv/rife_runtime.cpp:2488-2500 | what counts as a failed unmap or block, read off the log |
| `InferenceDiscipline.OutcomeOfLog` | dev/windows/mpv/rife_runtime.cpp:2333-2555 | the recorded failure is a failed call in the log |
| `ImageQueue.ImageLoader.RequestImage` | src/web/mediastation.js:1383-1400 | afterwards the image is cached or has an entry; a task is made only if it had neither, no other task is settled or lost, and at most two requests fly, two if a task waits |
| `ImageQueue.ImageLoader.PumpImages` | src/web/mediastation.js:1406-1410 | starts waiting tasks in order while a slot is free |
| `ImageQueue.ImageLoader.OnResponse` | src/web/mediastation.js:200-225 | answers a request that waits, for the first and only time, and settles no task yet; any other reply changes nothing |
| `ImageQueue.ImageLoader.OnTimeout` | src/web/mediastation.js:183-187 | fails a request that waits, for the first and only time; any later reply to it changes nothing |
| `ImageQueue.ImageLoader.SettleTask` | src/web/mediastation.js:1411-1421 | the task of the answered request, live until now, is settled for the first and only time, and its image is cached exactly if it is valid |
| `ImageQueue.ImageLoader.ReleaseSlot` | src/web/mediastation.js:1422-1426 | the first waiting task takes the slot over: no slot stays free while a task waits, and no task is lost |
| `ImageQueue.ImageLoader.ForgetRequest` | src/web/mediastation.js:1394-1397 | the image of a task that has been settled once may be asked for again; no other entry and no live task changes |
| `ImageQueue.ImageLoader.ResetCatalogState` | src/web/mediastation.js:850-858 | settles every waiting task; only the tasks in flight stay live |
| `ImageQueue.StepKeepsInv` | src/web/mediastation.js:1383-1428 | every step of requests, replies, timeouts, handlers and resets keeps the invariant |
| `ImageQueue.SlotsAndSettlements` | src/web/mediastation.js:1383-1428 | over every run at most two requests fly and `imageActive` counts them, a waiting task means both slots are busy, and every request and task settles exactly once |
| `ImageQueue.FirstComeFirstServed` | src/web/mediastation.js:1383-1410 | in every run images are asked for in the order in which they were requested: no task flies while an earlier one waits |
| `ImageQueue.ImagesComeWithReplies` | src/web/mediastation.js:1406-1426 | an image comes only with a valid reply to a request that still waits, and is cached only by that request's handlers, under the key of its task |
| `ImageQueue.DeduplicatedIffTracked` | src/web/mediastation.js:1387-1399 | no key is queued or in flight twice before the next reset if and only if every live task and every delete handler owns its entry |
| `ImageQueue.ResetIsSafeIffQuiet` | src/web/mediastation.js:850-858 | after a reset images are deduplicated if and only if nothing was loading |
| `ImageQueue.ResetLosesTrack` | src/web/mediastation.js:850-858 | a run in which one image is loaded twice after a reset |
| `LruCache.Cache.Get` | src/web/mediastation.js:2602-2609 | a hit exactly for a recent key, with the last value put, and makes it the most recent |
| `LruCache.Cache.Put` | src/web/mediastation.js:2611-2624 | the last twelve keys of the history with their last values |
| `LruCache.MapSetKeepsOrder` | src/web/mediastation.js:2613-2620 | setting a key that is there changes its value and no order, a new one goes to the back |
| `LruCache.Cache.Clear` | src/web/mediastation.js:852-853 | an empty history |
| `LruCache.KeysByLastUse` | src/web/mediastation.js:2602-2648 | exactly the keys after whose last use fewer than twelve others were used, ordered by last use |
| `LruCache.TailMoves` | src/web/mediastation.js:2613-2623 | moving a key to the back of the last n is moving it to the back of the whole history |
| `LibraryPaging.ValidateLibraryPage` | src/web/mediastation.js:2564-2585 | accepts exactly consistent pages with distinct ids |
| `LibraryPaging.FetchedAgrees` | src/web/mediastation.js:2205-2219 | a list opened with a true first page is consistent and agrees with the server from the start |
| `LibraryPaging.ReopenedAgrees` | src/web/mediastation.js:2176-2190 | a list reopened from the cache under a new revision is consistent, and agrees with the server if it did when it was cached |
| `LibraryPaging.Library.AppendLibraryPage` | src/web/mediastation.js:2587-2596 | appends exactly the pages that continue the list without repeating an id |
| `LibraryPaging.Library.ApplyLibraryFilter` | src/web/mediastation.js:2407-2434 | every request made before becomes stale, the one for the new filter is the only current one, and until its answer the list is empty and loads nothing else |
| `LibraryPaging.Library.OnFilterReply` | src/web/mediastation.js:2435-2453 | a stale or hidden answer leaves the list as it is; any other ends the loading, with the items of a valid page and an empty list otherwise |
| `LibraryPaging.Library.LoadMoreLibrary` | src/web/mediastation.js:2476-2491 | at most one request for more is under way, and it asks for what follows the list; no item changes |
| `LibraryPaging.Library.OnMoreReply` | src/web/mediastation.js:2492-2514 | the list grows exactly by a page that continues it, for the current filter, in the view that asked and while its grid is there; no answer takes an item out, and a stale one changes nothing |
| `LibraryPaging.Library.OnSyncReply` | src/web/mediastation.js:2517-2551 | a stale or failed answer leaves the items as they are, and so does a page that the list starts with, of the same total, however long the list; any other page becomes the list |
| `LibraryPaging.StepKeepsInv` | src/web/mediastation.js:2407-2596 | every step keeps the list, the requests in flight and the loading flags consistent |
| `LibraryPaging.ListStaysSound` | src/web/mediastation.js:2407-2596 | over every run ids are distinct, `nextStartIndex` is the length and at most the total, and every item was listed for the current filter |
| `LibraryPaging.ListIsPrefix` | src/web/mediastation.js:2476-2596 | against a fixed server the list is always a prefix of the server's, and all of it when nothing is left |
| `LibraryPaging.MoreShrinksTheRest` | src/web/mediastation.js:2492-2505 | a true answer to the current request for more, in the view that asked, is never turned down and leaves strictly less to load |
| `LibraryPaging.LoadAllIsWhole` | src/web/mediastation.js:2476-2505 | loading more ends, with the whole list |
| `LibraryPaging.FetchedHasInv` | src/web/mediastation.js:2205-2219 | a list opened from a valid first page starts consistent |
| `LibraryPaging.ReopenedHasInv` | src/web/mediastation.js:2176-2190 | a list taken from the cache starts consistent |
| `LibraryPaging.FilterAnswerLostIffHidden` | src/web/mediastation.js:2435-2448 | the answer to a filter is lost if and only if another view is shown |
| `LibraryPaging.StrandedForEver` | src/web/mediastation.js:2407-2448 | after that the list stays empty whatever happens |
| `LibraryPaging.StrandedByNavigation` | src/web/mediastation.js:2407-2448 | a concrete run from an opened list to a stranded one |
| `HomeRefresh.HomeScreen.ScheduleHomeRefresh` | src/web/mediastation.js:1263-1267 | of all refreshes scheduled or sent only the one scheduled now can still be applied |
| `HomeRefresh.HomeScreen.OnRefreshReply` | src/web/mediastation.js:1274-1294 | the page changes only with a refresh after whose issue nothing was scheduled or invalidated in the whole history; a stale reply changes neither page nor failure count |
| `HomeRefresh.HomeScreen.OnHomeStale` | src/web/mediastation.js:4418-4426 | during playback only a mark is kept; otherwise the refresh scheduled now is the only one that can be applied |
| `HomeRefresh.HomeScreen.MoveToFront` | src/web/mediastation.js:5771-5779 | the list with the played card taken out, brought up to date and put in front |
| `HomeRefresh.HomeScreen.UpdateResume` | src/web/mediastation.js:5769-5782 | the played card leads, the others follow unchanged and in order, and no refresh scheduled or sent before can be applied; without a played position nothing changes |
| `HomeRefresh.HomeScreen.FinishPlayer` | src/web/mediastation.js:5763-5814 | the player is gone, the local update is shown, no refresh sent before can undo it, and a page that went stale during playback is refreshed now |
| `HomeRefresh.OnlyTheNewestIsApplied` | src/web/mediastation.js:1235-1297 | a refresh is applied only if nothing was scheduled or invalidated after it |
| `HomeRefresh.OlderRefreshNeverUndoesUpdate` | src/web/mediastation.js:5769-5782 | in every run a refresh that was issued before a local resume update is never applied after it |
| `HomeRefresh.OlderReplyKeepsPage` | src/web/mediastation.js:1274-1294 | whatever happens after the end of playback, the reply of a refresh scheduled or sent before it leaves the page as it is |
| `HomeRefresh.RunIsNumbered` | src/web/mediastation.js:1263-1267 | in every run each generation is issued at most once, as the bump of that number |
| `HomeRefresh.UpdateSurvives` | src/web/mediastation.js:5763-5782 | until another refresh is scheduled nothing else changes the updated data |
| `HomeRefresh.FinishSupersedes` | src/web/mediastation.js:5769-5782 | the end of playback leaves no older refresh that could be applied |
| `HomeRefresh.MoveToFrontKeepsTheRest` | src/web/mediastation.js:5769-5780 | the played card moves to the front, the others keep their order, ids stay distinct |
| `HomeRefresh.PositionAdvances` | src/web/mediastation.js:5774-5777 | its position is the later of the two, its duration the longer one if playback knew any |
| `HomeRefresh.StaleBecomesRefresh` | src/web/mediastation.js:4418-4426 | a home_stale seen during playback becomes the newest refresh when the player closes |
| `HomeRefresh.ScheduledIsShown` | src/web/mediastation.js:1263-1294 | a refresh whose timer fires and which is answered before anything else happens is shown |
| `HomeRefresh.FailedIsRetried` | src/web/mediastation.js:1285-1294 | a failed refresh keeps the page and is scheduled anew unless it is the third in a row |
| `HomeRefresh.PlaybackUpdatesResume` | src/web/mediastation.js:5763-5782 | what was played, to the position reported last, is what moves to the front |
| `HomeRefresh.LoadedIsShown` | src/web/mediastation.js:1247-1257 | the reply of loadHome is shown, and followed by a refresh if it came from the cache |
| `HomeRefresh.ResetForgets` | src/web/mediastation.js:831-860 | a reset forgets the page, and nothing scheduled or sent before can bring it back |
| `PlayerSession.ActivePlayer.RequestPlayerExit` | src/web/mediastation.js:5717-5739 | during playback the exit stands exactly if its one stop was sent, before the first frame it stands without one; a second request changes nothing |
| `PlayerSession.ActivePlayer.SendPlayerStop` | src/web/mediastation.js:5741-5761 | at most one stop is ever sent; one that throws takes the exit back, so that it may be requested again; a second call has no effect |
| `PlayerSession.ActivePlayer.SwitchPlayerEpisode` | src/web/mediastation.js:5529-5587 | exactly a playable other episode is taken, while nothing else changes; the new visit is the one that startPlayback would open, playing as before or at once; until its first frame nothing else can begin, and a failed load brings the previous visit back |
| `PlayerSession.ActivePlayer.OnSwitchReply` | src/web/mediastation.js:5588-5626 | a load that succeeds only marks the visit as loaded; a failed one brings the previous visit back and closes the session exactly if an automatic advance had left an episode that has ended; after the exit was requested nothing on the screen changes |
| `PlayerSession.ActivePlayer.AdvanceToNextEpisode` | src/web/mediastation.js:4381-4393 | waits for the next episode exactly in an undisturbed session that is set to go on, and remembers whether its own has ended; a second trigger has no effect |
| `PlayerSession.ActivePlayer.OnEpisodes` | src/web/mediastation.js:4395-4412 | the pending advance ends exactly if the exit was not requested; then the next episode is switched to if it can be, and the session closes exactly if there is none and the current one has ended |
| `PlayerSession.ActivePlayer.MaybeHandleEpisodeAutomation` | src/web/mediastation.js:4325-4378 | the intro is skipped if and only if the undisturbed position is inside it and the seek works; the next episode is asked for if and only if the position has reached the outro, once; settings that leave nothing of the episode turn automation off |
| `PlayerSession.ActivePlayer.HandlePlaybackEvent` | src/web/mediastation.js:4414-4530 | the session closes if and only if the event is a failure, a cancellation that no change explains, or the end of a file that nothing follows; the playhead follows reported positions that nobody drags, and moves otherwise only over a due intro; while the exit stands nothing else changes what is played |
| `PlayerSession.ConflictLeavesNothing` | src/web/mediastation.js:4325-4341 | intro and outro are in conflict exactly if they leave nothing of the episode |
| `PlayerSession.PlayingSurvivesSwitch` | src/web/mediastation.js:4444-4488 | the first frame of the new episode plays if the old one did or the switch was automatic, however often a pause is reported meanwhile |
| `PlayerSession.PlayingSurvivesModelChange` | src/web/mediastation.js:4444-4488 | so does the first frame after a change of the interpolation model |
| `PlayerSession.PlayingSurvivesAdvance` | src/web/mediastation.js:4478-4484 | and the player while the list of episodes is awaited |
| `PlayerSession.OpensClean` | src/web/mediastation.js:4131-4182 | a session opens with nothing awaited but its first load and plays from its first frame on; its intro is handled exactly if there is none or the start lies behind it |
| `PlayerSession.LoadIsAnsweredOnce` | src/web/mediastation.js:4209-4239 | the first load is answered once; a failure closes the session unless its stop was sent |
| `PlayerSession.FailedModelChangeRestores` | src/web/mediastation.js:4652-4734 | another model is loaded only during playback and one at a time, and an answer that fails leaves the session as it was |
| `PlayerSession.ToggleTurns` | src/web/mediastation.js:4628-4650 | the play button turns what the user wants, also while a model is loaded |
| `PlayerSession.FailedModelChangeKeepsWish` | src/web/mediastation.js:4720-4730 | what the user wants survives a change of model that fails, even if it was turned meanwhile |
| `PlayerSession.SeekEndsDragging` | src/web/mediastation.js:4600-4626 | dragging holds the position against all events; letting go moves it unless the exit was requested |
| `PlayerSession.SettingStartsAnew` | src/web/mediastation.js:5125-5140 | new settings start the automatic actions anew, as if the episode had been opened where it is |
| `PlayerSession.TrackChangeHoldsEpisode` | src/web/mediastation.js:5529-5536 | no episode is chosen while a track is changed, and a chosen one plays exactly if the one before did |
| `PlayerSession.StepKeepsInv` | src/web/mediastation.js:4325-4530 | every step keeps the invariant of the session |
| `PlayerSession.SessionStaysSound` | src/web/mediastation.js:4325-4530 | in every run stopSent implies exiting, an exit during playback has sent its stop, at most one native stop succeeds, a changing episode has not started, a change and a pending advance exclude each other, and a visit sees at most one intro skip and one outro advance while its settings stay |
| `PlayerSession.NoFlagRisesAfterExit` | src/web/mediastation.js:5717-5761 | while the exit is requested no transition flag rises |
| `PlayerSession.FailedSwitchRestores` | src/web/mediastation.js:5608-5621 | a manual switch whose load fails leaves the session as it was |
| `PlayerSession.FinishedClosesIff` | src/web/mediastation.js:4509-4516 | any event that reports the end of the file closes the session exactly without a pending or automatic advance, whether or not exit was requested |
| `PlayerSession.FinishedAfterExitStaysOpen` | src/web/mediastation.js:4509-4516 | a concrete run in which the file ends after the exit was requested, and the session neither advances nor closes |
| `PlayerSession.AdvanceOrphanedIffExiting` | src/web/mediastation.js:4395-4396 | an advance is orphaned if and only if its episodes come while the exit is requested |
| `PlayerSession.OrphanedForEver` | src/web/mediastation.js:4381-4412 | whatever happens, an orphaned advance stays pending, no switch or advance begins, and the end of the file does not close the session |
| `PlayerSession.OrphanedByFailedExit` | src/web/mediastation.js:4381-4412 | a concrete run from startPlayback to an active session whose advance is orphaned |

## Left out

- CUDA, TensorRT, D3D11, DXGI, file-system and browser internals: each call is a step that succeeds or fails.
- Neural-network numerics, half-float rounding, the KL logarithms and shader colour arithmetic: scene metrics are arbitrary reals and rounding is a function parameter.
- `collect_grid_precision_nodes`, metadata, hashes and numeric validation in the exporters: they add checks, not rewrites.
- Subgraphs of If and Loop nodes: the rewrites see only the top-level nodes, and so does the model.
- CastRemoval.RemoveRedundantFp32Casts: shape inference and the ONNX checker are parameters, because they belong to the onnx package, which is not part of this model; the theorem about meaning assumes that the inferred types are right.
- WarpReshape.SplitsPreserveMeaning: assumes that the generated tensor names are new in the graph, as the code does without checking.
- SessionStatistics.Session.P95: the rounding of `n * 0.95` in double precision is not modelled, and the equal percentile of the profiling stages would only repeat it.
- SessionStatistics.Session.Process: totals and maxima of the recorded times are not modelled; they are plain sums.
- ShapeProfiles.ConfigureShape: the text of error messages and which check failed first are not modelled.
- RuntimeSharing.RuntimeCache.Create: argument checks and the wait for a pending prewarm come before the lock and are modelled in PrewarmRuns.
- TensorPacking.Dispatch: one store is one atomic step, because the hardware writes whole words; texture loads are a function.
- ImageQueue.ImageLoader.RequestImage: whether a native call throws at once is one parameter for all tasks started by the same step, of which there is at most one.
- LruCache.Cache.Get: the text of the cache keys is not modelled; keys are compared as whole values.
- HomeRefresh.OnlyTheNewestIsApplied: covers background refreshes; the reply of `loadHome` is guarded by no generation and is a step of its own that may change the data at any time, a local update included.
- HomeRefresh.HomeScreen.FinishPlayer: rendering, focus and carousel calls are not modelled.
- Opening a second player over a running one: a player session is modelled from `startPlayback` to its end.
- PlayerSession.SessionStaysSound: the counters of automatic actions start anew when the settings change and return to their old value with a failed switch.
- Ordering of episodes by season and index (`orderedPlayableEpisodes`): the next episode is a parameter of the step.
- Person pages and detail refreshes of the client follow the same patterns as the library list and home refreshes and would add only easy members.
