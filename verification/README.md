# Verified models of the mlx-spark algorithms

A Dafny 4.11 project that models the algorithmic cores of mlx-spark and proves properties of them.
Arithmetic is over exact reals or unbounded integers, except where the width matters: the launch guard,
the index decode and the checked product use 32- and 64-bit integer types. `dafny verify dfyconfig.toml`
checks everything.

**Gated DeltaNet oracle.** `GdnRow` is the recurrence on one (batch, value head, value row) slice, the
unit that the forward pass never mixes. `Gdn` is the tensor level of `gdn_forward`: shape checks and the
forward loop, which writes `y` in place and keeps a trace. `GdnVjp` is `gdn_vjp`: the hand-written
reverse loop over its gradient buffers and the sum over head groups. `GdnAdjoint` runs the forward
recurrence on dual numbers and proves the reverse step is its transpose; `GdnTheorems` lifts that to whole
tensors. `GdnChunks` cuts sequences in two, forward and backward, and `GdnStability` compares two states.

**CUDA decode kernel.** `BlockMachine` is a thread block as a state machine: threads that share an array,
run one instruction at a time in any order, and meet at barriers. `DecodeKernel` is the kernel as a
program for it, with its two tree reductions. `DecodeLaunch` is the launch guard and the index decode at
machine width. `DecodeRefinement` interleaves all blocks of a launch and connects launches to the oracle;
`DecodeAddresses` ties its buffer accesses to the machine-width decode, and `DecodeRuns` shows that launches
and chains of launches exist. `DecodeBlock` runs one block over arrays under an arbitrary scheduler.
`DecodeHazard` runs the kernel without its middle barrier, `DecodeOverlap` and `DecodeClobber` with
overlapping buffers.

**Plan tools.** `Plan` is the depth-first validator with its two mutable sets; `Scheduler` is the
ready-task selector and the runs it induces.

**Publish protocols.** `FileSystem` has names, inodes and contents. `PublishNew` is `atomic_write_new`
(exclusive hard link), `Checkpoint` is `save_reference` (rename). Both have any number of writers, any
interleaving, a failure of every system call, and crashes at every point.

**Attention, training, tools.** `Softmax` and `Attention` (`causal_gqa` and cached decoding), `Training`
(`analytic_sgd`), `ReferenceDocument` (the checkpoint document), `JsonDiff` (both differs), `Mountinfo`,
`ProcLines` and `Cgroup` (mount path unescaping, the lines of the proc files, cgroup resolution, memory
headroom), `Contracts` (`checked_product`).

Supporting modules: `Vectors`, `Sums`, `Tensors`, `IntDiv`, `Json`.

## What the proofs found

- `save_reference` does not always keep its promise that a reader sees one whole version. With no assumption
  on temporary names the target holds a prefix of one writer's bytes (`Checkpoint.TargetIsPrefix`). It is
  complete after every step of a run if and only if every replacement that finds its temporary name finds a
  file there that its creator had written completely (`Checkpoint.WholeExactly`). Two conditions imply that:
  the name still belongs to the writer's own file, which a writer could check before it replaces
  (`Checkpoint.OwnIsGuarded`), or a name is never handed out while an earlier owner still remembers it
  (`Checkpoint.DisciplineSuffices`). After a rename the name is free while its owner still goes on to look
  for it and remove it: `Checkpoint.ReuseTearsTheTarget` is a run of three writers after which the target
  holds an empty file. `atomic_write_new` holds on to its name until it removes it and needs no condition.
- Neither protocol always cleans up: besides crashes, a failing `unlink` leaves the temporary file behind,
  and in `save_reference` also a lookup that fails and reads as "no such file".
- A checkpoint returns the weights exactly when no axis but the last has length zero
  (`ReferenceDocument.CheckpointExact`); a weight matrix without features comes back one-dimensional.
- The ready list can be empty while phase-1 work remains (`Scheduler.EmptyWithWorkLeft`):
  `Scheduler.EmptyExactlyWhenBlocked` says exactly when (every unfinished phase-1 task waits, through
  unfinished tasks, for one in another status, such as `in_progress`).
- The launch guard's overlap tests are neither necessary nor sufficient. Two of the three overlaps it refuses
  (`next_state` over `state`, `y` over `v`) change nothing (`DecodeOverlap.HarmlessOverlap`); one that it lets
  through (`y` over `state`) is harmful as soon as there are two rows (`DecodeClobber.OutputOverState`).
- The mountinfo parser cuts fields at every blank, but only space, tab and newline are escaped: both paths of a
  line survive exactly when they contain no other blank, such as a no-break space (`ProcLines.PathsSurvive`).
- Of the 24 orders of the four unescaping replacements exactly those that end with the backslash are right
  (`Mountinfo.OnlyBackslashLast`).
- The tree reductions add up all cells exactly when the block size is a power of two
  (`DecodeKernel.TreeSumsExactly`); the guard admits only such sizes. The barrier between reading `tmp[0]`
  and overwriting it is needed: without it, every block size from two on has a run that stores a wrong state
  (`DecodeHazard.SecondBarrierNeeded`).
- The root and relative parts of a resolved cgroup rebuild the member path except when that path is "/"
  and the mount's root is not (`Cgroup.RelativeRebuilds`, `Cgroup.RootUnderOtherMount`). The third branch
  that computes the relative parts is never taken: an empty root is a prefix of everything
  (`Cgroup.RelativeExactly`).
- `causal_gqa` without a scale on zero-dimensional heads divides by zero rather than raising its contract
  error (`Attention.CausalGqa`, `Attention.NoDimensionsDivide`).

## Model

| member | source | states |
|---|---|---|
| Gdn.Validate | src/mlx_spark/reference/gdn.py:21-36 | exactly the listed sizes are accepted, arguments come back unchanged, an absent state is zero and an absent mask true at every entry |
| Gdn.DefaultCalls | src/mlx_spark/reference/gdn.py:29-31 | a call without mask or state has the results of the call with an all-true mask or a zero state |
| Gdn.Forward | src/mlx_spark/reference/gdn.py:38-52 | the vectorised loop computes, for every batch, value head and value row, the outputs, final state and per-step trace of that row's own recurrence |
| Gdn.WriteOutput | src/mlx_spark/reference/gdn.py:50 | one in-place output slice holds the masked readouts of step t and leaves other steps alone |
| Gdn.GdnForward | src/mlx_spark/reference/gdn.py:54-56 | the public forward call fails exactly on rejected shapes and otherwise returns the recurrence |
| Gdn.StateAtNext | src/mlx_spark/reference/gdn.py:43-50 | state and output at step t are one row step from the state before it |
| GdnRow.RunChunks | src/mlx_spark/reference/gdn.py:43-51 | a row run over two joined chunks is the run of the second from the state the first leaves, with outputs concatenated |
| GdnRow.ReverseChunks | src/mlx_spark/reference/gdn.py:71-84 | a row's reverse pass over joined chunks is the second's followed by the first's, fed the second's state cotangent |
| GdnAdjoint.DualPrimal | src/mlx_spark/reference/gdn.py:43-51 | the recurrence on dual numbers has the ordinary run as its real part, so its dual part is a tangent of that run |
| GdnAdjoint.StepAdjoint | src/mlx_spark/reference/gdn.py:72-84 | one reverse step, masked or not, is the transpose of the derivative of one forward step |
| GdnAdjoint.MaskedStepGrad | src/mlx_spark/reference/gdn.py:72-84 | a masked step has zero cotangents for all its token inputs |
| GdnAdjoint.RowAdjoint | src/mlx_spark/reference/gdn.py:58-84 | over a whole run, a row's output and final-state cotangents paired with tangents equal its gradients paired with input tangents |
| GdnVjp.ReverseLoop | src/mlx_spark/reference/gdn.py:67-84 | the reverse-time loop over the gradient buffers leaves the row-level cotangents, summed over the rows of each head |
| GdnVjp.StoreKeys | src/mlx_spark/reference/gdn.py:75-82 | one iteration's query and key slices, with the two-part key update, extend the finished suffix by one step |
| GdnVjp.StoreGates | src/mlx_spark/reference/gdn.py:78-83 | one iteration's value, gate and beta slices extend the finished suffix by one step |
| GdnVjp.SumGroupAxis | src/mlx_spark/reference/gdn.py:85-87 | the reshape-and-sum gives each key head the total over the value heads of its group |
| GdnVjp.GdnVjp | src/mlx_spark/reference/gdn.py:58-88 | the public reverse call fails exactly on shape mismatches and otherwise returns the row-level gradients, summed over rows and head groups |
| GdnTheorems.DualRunsTheOracle | src/mlx_spark/reference/gdn.py:38-52 | the dual-number tensors used as tangents belong to runs whose real parts are the oracle's outputs and final state |
| GdnTheorems.AdjointIdentity | src/mlx_spark/reference/gdn.py:38-88 | for all shapes, masks, inputs, tangents and cotangents: pairing dy and ds_final with dual-number tangents equals pairing the returned gradients with the input tangents |
| GdnTheorems.MaskedStep | docs/GDN_KERNEL_AND_GRADIENTS.md:21-33 | masked steps give zero output, unchanged state, zero input gradients and an identity state cotangent |
| GdnChunks.ForwardChunks | src/mlx_spark/reference/gdn.py:43-51 | for every split point, two forward calls joined by the carried state compute the whole call |
| GdnChunks.BackwardChunks | src/mlx_spark/reference/gdn.py:67-84 | for every split point, the reverse call on the second chunk and then on the first with the carried cotangent returns exactly the whole-sequence gradients |
| GdnStability.StepEnergy | src/mlx_spark/reference/gdn.py:43-49 | exact energy identity for the difference of two states over one active step |
| GdnStability.RowStable | src/mlx_spark/reference/gdn.py:43-49 | on stable inputs two runs of a row contract by at least the product of the squared active gates |
| GdnChunks.StateStability | src/mlx_spark/reference/gdn.py:43-49 | on stable inputs the Frobenius distance of two whole runs never grows |
| BlockMachine.AccessSets | native/cuda/gdn_decode_reference.cu:17-28 | each instruction depends on, and stores to, only the shared cells it declares, all in range |
| BlockMachine.BarriersAlign | native/cuda/gdn_decode_reference.cu:20-27 | threads that all wait at barriers wait at the same one |
| BlockMachine.StuckIsDone | native/cuda/gdn_decode_reference.cu:17-28 | a block that cannot move has every thread at its end: no deadlock |
| BlockMachine.EverySchedule | native/cuda/gdn_decode_reference.cu:17-28 | for race-free programs every maximal interleaving ends in the same memory and registers as lockstep execution |
| BlockMachine.SchedulesEnd | native/cuda/gdn_decode_reference.cu:17-28 | every schedule is at most one step per instruction and thread long |
| BlockMachine.SomeScheduleEnds | native/cuda/gdn_decode_reference.cu:17-28 | from every state some schedule runs to the end |
| DecodeKernel.ProgramSafe | native/cuda/gdn_decode_reference.cu:17-28 | for every block size, masked or not: no access leaves the shared array and no two threads race between barriers |
| DecodeHazard.SecondBarrierNeeded | native/cuda/gdn_decode_reference.cu:22-26 | without the barrier after reading the residual total, for every block size from two on, some block has a complete run that stores a wrong state |
| DecodeKernel.TreeSumsExactly | native/cuda/gdn_decode_reference.cu:21 | the halving tree adds all cells, whatever they hold, if and only if the block size is a power of two |
| DecodeKernel.TreeLockstep | native/cuda/gdn_decode_reference.cu:21 | the loop of a block computes that tree and disturbs no other register |
| DecodeKernel.BlockComputesRowStep | native/cuda/gdn_decode_reference.cu:5-29 | every maximal interleaving of a block stores each state cell once and the output once, with the values of one row step of the oracle |
| DecodeBlock.RunBlock | native/cuda/gdn_decode_reference.cu:5-29 | over arrays and under any scheduler, a block leaves the next state in its slice of out, the output in y[row], and every other cell unchanged |
| DecodeLaunch.RowCount | native/cuda/gdn_decode_reference.cu:39 | the 64-bit row count is the mathematical product |
| DecodeLaunch.GuardExact | native/cuda/gdn_decode_reference.cu:33-41 | the guard launches exactly on the admitted dimensions with usable, non-clashing addresses |
| DecodeLaunch.AdmittedPower | native/cuda/gdn_decode_reference.cu:35 | every admitted block size is a power of two |
| DecodeLaunch.Decode | native/cuda/gdn_decode_reference.cu:8-16 | the kernel's index arithmetic, at its declared widths, never overflows or truncates and yields the coordinates of the row |
| DecodeLaunch.IndexBounds | native/cuda/gdn_decode_reference.cu:14-16 | state, query, key, gate and beta indices stay below the sizes of their buffers |
| DecodeLaunch.SplitRow | native/cuda/gdn_decode_reference.cu:9-12 | quotients and remainders of a row number are in range and rebuild it |
| DecodeLaunch.RowBijection | native/cuda/gdn_decode_reference.cu:9-12 | every (batch, value head, value row) triple has a row in range that decodes to it |
| DecodeAddresses.GuardLaunches | native/cuda/gdn_decode_reference.cu:33-41 | every launch the guard lets through is one the refinement results cover, with one block per row |
| DecodeAddresses.PlaceIsDecoded | native/cuda/gdn_decode_reference.cu:8-13 | the coordinates of a row in those results are the ones decoded at machine width |
| DecodeAddresses.BlockReadsDecoded | native/cuda/gdn_decode_reference.cu:14-24 | what a thread reads in those results are exactly the buffer cells at the decoded indices |
| DecodeRefinement.BlockRunsAlone | native/cuda/gdn_decode_reference.cu:41 | an interleaving of all blocks, restricted to one block, is a run of that block |
| DecodeRefinement.LaunchIsStep | native/cuda/gdn_decode_reference.cu:5-29 | for every interleaving of a whole launch on separate buffers, with a null, true or false mask, next_state and y are one oracle step on the reshaped buffers |
| DecodeRefinement.DecodeSequence | native/cuda/gdn_decode_reference.cu:30-43 | a chain of launches on separate buffers, each fed the state the previous one wrote, computes gdn_forward on the whole sequence |
| DecodeRuns.SomeLaunchFinishes | native/cuda/gdn_decode_reference.cu:41 | from every launch state some interleaving of the whole grid finishes |
| DecodeRuns.SomeDecodeChain | native/cuda/gdn_decode_reference.cu:30-43 | for every input of admitted dimensions such a chain exists |
| DecodeOverlap.HarmlessOverlap | native/cuda/gdn_decode_reference.cu:36 | with next_state over state, y over v, or both, every interleaving leaves what it leaves on separate buffers |
| DecodeClobber.OutputOverState | native/cuda/gdn_decode_reference.cu:17 | with y over state, every launch of two or more rows has an interleaving that stores a wrong state |
| DecodeClobber.GuardOnOverlaps | native/cuda/gdn_decode_reference.cu:36 | the guard refuses both harmless overlaps and lets that harmful one through |
| Plan.Search.Visit | tools/validate_plan.py:7-15 | a successful visit keeps the two sets consistent with a finishing order and marks its id seen; a failed one exhibits its cause, a cycle error a cycle through the reported id |
| Plan.GraphSize | tools/validate_plan.py:4-5 | the size test fires exactly on duplicate ids |
| Plan.FinishedIsGood | tools/validate_plan.py:7-15 | a repetition-free finishing order that covers the graph makes it closed, phase-respecting and acyclic |
| Plan.Validate | tools/validate_plan.py:4-20 | the script accepts exactly the plans with distinct ids, existing dependencies, no deferred dependency of phase 1, no cycle, all cards and the three known owners; every error exhibits its cause |
| Scheduler.Select | tools/next_task.py:6 | the list holds exactly the phase-1 todo or ready tasks of the agent whose dependencies are all done |
| Scheduler.SelectLists | tools/next_task.py:6 | the list is the plan in its own order with the tasks that are not ready left out, each occurrence once |
| Scheduler.EmptyExactlyWhenBlocked | tools/next_task.py:5-6 | on a sound plan the list is empty exactly when every unfinished phase-1 task waits, through unfinished tasks, for a stalled one |
| Scheduler.EmptyWithWorkLeft | tools/next_task.py:5-6 | a sound plan whose list is empty although phase-1 work remains |
| Scheduler.Progress | tools/next_task.py:5-6 | without stalled tasks the list is empty exactly when phase 1 is finished |
| Scheduler.RunIsTopological | tools/next_task.py:5-6 | every run picks unfinished phase-1 tasks, none twice, each after all of its dependencies |
| Scheduler.RunKeeps | tools/next_task.py:5-6 | a run changes nothing but statuses and finishes one task per pick |
| Scheduler.RunFinishes | tools/next_task.py:5-6 | a run that cannot be extended has finished phase 1, in exactly as many picks as there were unfinished tasks |
| PublishNew.StepHolds | tools/resolve_sources.py:621-638 | every step, failing system call or crash of every writer keeps the protocol invariant |
| PublishNew.TargetIsWhole | tools/resolve_sources.py:621-638 | in every reachable state the target is absent, the earlier file, or one writer's complete bytes |
| PublishNew.TargetIsFinal | tools/resolve_sources.py:629 | once present, the target never changes and never disappears |
| PublishNew.LinkDecides | tools/resolve_sources.py:629-631 | linking an absent target makes it appear with exactly the writer's bytes; a present target is left alone and the writer refused |
| PublishNew.AloneSucceeds | tools/resolve_sources.py:621-638 | from every initial state any writer with any data can run to its end: it publishes exactly its data or is refused, and its temporary name is gone |
| PublishNew.FailureCleansUp | tools/resolve_sources.py:621-638 | after a failing write or link the cleanup removes the temporary name and nothing else changes |
| PublishNew.NobodyWaits | tools/resolve_sources.py:621-638 | in every reachable state each writer's next call is possible |
| PublishNew.OneWinner | tools/resolve_sources.py:629-631 | at most one writer succeeds, only on an absent target; a refused writer found it present |
| PublishNew.DirectoryExactly | tools/resolve_sources.py:621-638 | at any time the directory is the original one, the target if someone won, and one temporary file per writer that is live, crashed, or failed to unlink |
| PublishNew.NothingLeftBehind | tools/resolve_sources.py:632-638 | when all writers have ended without a crash or a failing unlink, only the target may have been added |
| PublishNew.LitterIsAccountedFor | tools/resolve_sources.py:632-638 | a leftover temporary file belongs to a writer that crashed or whose unlink failed |
| Checkpoint.StepHolds | src/mlx_spark/reference/training.py:10-19 | whatever names are handed out, every step, failing system call or crash keeps the protocol invariant |
| Checkpoint.TargetIsPrefix | src/mlx_spark/reference/training.py:10-19 | in every reachable state the target is the initial file or a prefix of one writer's bytes, and once present it stays |
| Checkpoint.WholeExactly | src/mlx_spark/reference/training.py:17 | in every run the target is complete after every step if and only if every replacement that finds its name finds a complete file |
| Checkpoint.ReaderSeesWhole | src/mlx_spark/reference/training.py:10-19 | guarded replacements always show a reader one whole version, and for documents none of which is a prefix of another only they do |
| Checkpoint.OwnIsGuarded | src/mlx_spark/reference/training.py:17 | replacements whose name still belongs to the writer's own file are guarded |
| Checkpoint.DisciplineSuffices | src/mlx_spark/reference/training.py:13-17 | if no new name is one that a live writer remembers, every replacement is of that kind and a reader always sees one whole version |
| Checkpoint.NothingLeftBehind | src/mlx_spark/reference/training.py:18-19 | when all writers have ended without a crash or a failing cleanup, only the target may have been added |
| Checkpoint.LitterIsAccountedFor | src/mlx_spark/reference/training.py:18-19 | a leftover temporary file belongs to a writer that crashed or failed to remove it |
| Checkpoint.AloneSucceeds | src/mlx_spark/reference/training.py:10-19 | from every initial state any writer with any data can replace the target with exactly its data, and its temporary name is gone |
| Checkpoint.FailureCleansUp | src/mlx_spark/reference/training.py:14-19 | after a failing write or replacement the cleanup removes the temporary name and nothing else changes |
| Checkpoint.LostName | src/mlx_spark/reference/training.py:17-19 | a writer whose temporary name is gone changes nothing and fails |
| Checkpoint.NobodyWaits | src/mlx_spark/reference/training.py:10-19 | in every reachable state each writer's next call is possible |
| Checkpoint.ReuseTearsTheTarget | src/mlx_spark/reference/training.py:17-19 | a run with reused names after which the target holds no writer's bytes |
| Softmax.WeightsDistribution | src/mlx_spark/reference/attention.py:15 | weights are nonnegative, sum to one, and vanish exactly on masked scores |
| Softmax.ShiftInvariance | src/mlx_spark/reference/attention.py:15 | subtracting the row maximum does not change the weights |
| Softmax.WeightsIgnoreMask | src/mlx_spark/reference/attention.py:14-15 | scores masked at the end move neither the maximum nor the normaliser |
| Attention.CausalGqa | src/mlx_spark/reference/attention.py:5-16 | the call is rejected exactly on invalid dimensions, divides by zero exactly on a missing scale with zero-dimensional heads, and otherwise has the query's shape |
| Attention.NoDimensionsDivide | src/mlx_spark/reference/attention.py:7-12 | a call that passes every check and divides by zero |
| Attention.GroupedAttention | src/mlx_spark/reference/attention.py:5-16 | in its own terms: query head j*(H/Hkv)+i at position t is the average of key/value head j over positions up to S-T+t, weighted with the exponentials of its scaled inner products |
| Attention.OutputValue | src/mlx_spark/reference/attention.py:9-16 | every returned entry is the average of the visible values of its own key/value head, weighted with the exponentials of the visible scores |
| Attention.SeesSomething | src/mlx_spark/reference/attention.py:13-15 | every query row is allowed at least one key |
| Attention.AttendPrefix | src/mlx_spark/reference/attention.py:12-16 | the masked full-length computation equals attention over the visible prefix alone |
| Attention.RowDependsOnPrefix | src/mlx_spark/reference/attention.py:11-16 | row t depends on no key or value past S-T+t |
| Attention.CachedEqualsWhole | src/mlx_spark/reference/attention.py:9-16 | for every partition into consecutive chunks, each against the cache ending at its last row, the outputs laid end to end are the whole output |
| Attention.OutputIsAverage | src/mlx_spark/reference/attention.py:11-16 | each coordinate lies between the bounds of the visible values of its own key/value head, with weights proportional to exponentials |
| Training.AnalyticSgd | src/mlx_spark/reference/training.py:6-8 | the step fails exactly on an empty error matrix, keeps the shape, and moves every column against the gradient |
| Training.Error | src/mlx_spark/reference/training.py:7 | entry i is the prediction for sample i less its target |
| Training.LossByColumns | src/mlx_spark/reference/training.py:6-8 | the mean over all samples and outputs of the squared difference of prediction and target is the mean of the squared error columns |
| Training.LossAlong | src/mlx_spark/reference/training.py:6-8 | along every line the loss is exactly quadratic with the inner product of gradient and direction as its slope: the matrix the code subtracts is the gradient of the mean-square loss |
| Training.ColumnStep | src/mlx_spark/reference/training.py:6-8 | exact quadratic change of one output column's squared error in any direction |
| Training.StepIdentity | src/mlx_spark/reference/training.py:6-8 | the loss after a step is the loss before, minus lr times the squared gradient norm, plus lr squared over the size times the squared norm of x times the gradient |
| Training.DescentExactly | src/mlx_spark/reference/training.py:6-8 | the loss does not rise if and only if lr squared times the squared image norm is at most lr times size times the squared gradient norm |
| ReferenceDocument.ArrayShows | src/mlx_spark/reference/training.py:25 | what becomes an array is a regular nested list of numbers, and the array shows that list |
| ReferenceDocument.LoadOfSave | src/mlx_spark/reference/training.py:10-25 | saving and loading returns the step, the content, and the axes down to the first of length zero |
| ReferenceDocument.CheckpointExact | src/mlx_spark/reference/training.py:15-25 | the weights come back as they were if and only if no axis but the last has length zero |
| ReferenceDocument.Save | src/mlx_spark/reference/training.py:16 | the four fields of the document, with schema 1, the kind by name and the step |
| ReferenceDocument.ForeignRefused | src/mlx_spark/reference/training.py:21-25 | an object is reported as not recognised exactly when its schema is not 1 or its kind another; it loads exactly when, besides, its weights form an array and it has a step |
| Training.CheckpointKeepsWeights | src/mlx_spark/reference/training.py:10-25 | a weight matrix survives if and only if there is at least one feature |
| Training.ResumeContinues | src/mlx_spark/reference/training.py:10-25 | with features, n+m steps equal n steps, saving, loading, and m more |
| JsonDiff.JsonDiff | tools/resolve_sources.py:286-303 | the loops collect, in sorted key or index order, the differing paths of the two trees |
| JsonDiff.Diff | tools/compare_config.py:6-13 | the loop collects the differing paths of the coarser differ |
| JsonDiff.DecimalMeans | tools/resolve_sources.py:301 | indices appear in paths as decimal numbers without leading zeros |
| JsonDiff.LeqMeans | tools/resolve_sources.py:289 | keys are sorted by their first difference, prefixes first |
| JsonDiff.RootDiffers | tools/resolve_sources.py:303 | a difference at the root is reported as "/", others by their path |
| JsonDiff.DiffersAgree | tools/resolve_sources.py:286-303 | both differs are silent exactly on equal trees |
| JsonDiff.FineSymmetric | tools/resolve_sources.py:286-303 | swapping the trees gives the same list |
| JsonDiff.FineRefinesCoarse | tools/resolve_sources.py:286-303 | the fine list is the coarse one with each path replaced, in order, by one or more paths that are it or continue it at a separator |
| JsonDiff.ReportsExactly | tools/resolve_sources.py:286-303 | the reported paths are exactly those of the places where the trees stop matching: they match everywhere above and not there |
| Mountinfo.MountinfoPath | src/mlx_spark/runtime/doctor.py:115-118 | the loop of four whole-string replacements undoes the escaping of any string |
| Mountinfo.RoundTrip | src/mlx_spark/runtime/doctor.py:115-118 | in every order that ends with the backslash, unescaping undoes the escaping of every string |
| Mountinfo.CodesByName | src/mlx_spark/runtime/doctor.py:116 | the four codes stand for space, tab, newline and backslash |
| Mountinfo.OnlyBackslashLast | src/mlx_spark/runtime/doctor.py:116 | an order of the four replacements is right for all strings if and only if the backslash is last |
| ProcLines.LineRoundTrip | src/mlx_spark/runtime/doctor.py:130-137 | a rendered membership line is read back, whatever its path contains |
| ProcLines.SampleLines | src/mlx_spark/runtime/doctor.py:130-141 | three lines of the cgroup file and what they mean |
| ProcLines.BlanksByName | src/mlx_spark/runtime/doctor.py:148-149 | the 29 characters a line is cut at |
| ProcLines.MountRoundTrip | src/mlx_spark/runtime/doctor.py:143-152 | a rendered mount line of solid fields is read back field by field |
| ProcLines.PathsSurvive | src/mlx_spark/runtime/doctor.py:143-164 | escaped root and mount point are read back if and only if they contain no blank but the escaped ones |
| Cgroup.RenderedMount | src/mlx_spark/runtime/doctor.py:143-165 | such a line yields the parts of its own root and its own mount point |
| Cgroup.Resolve | src/mlx_spark/runtime/doctor.py:168-197 | nothing is found exactly when no membership and mount match; otherwise the first match, and a version 1 match always wins |
| Cgroup.ResolveText | src/mlx_spark/runtime/doctor.py:128-197 | the same from the lines of the two files |
| Cgroup.RelativeRebuilds | src/mlx_spark/runtime/doctor.py:183-190 | root parts plus relative parts rebuild the member path exactly when it is not "/" or the root is empty |
| Cgroup.RootUnderOtherMount | src/mlx_spark/runtime/doctor.py:183-184 | the path "/" under a mount of another root is one where it does not |
| Cgroup.RelativeExactly | src/mlx_spark/runtime/doctor.py:183-190 | a membership lies under a mount exactly when the root is a prefix of it or the path is "/" |
| Cgroup.MemoryFromHierarchy | src/mlx_spark/runtime/doctor.py:210-267 | the first faulty level decides; otherwise the result is the smallest room over all finite levels, attained at the first such level, the room being what the usage leaves of the limit, or zero |
| Cgroup.Judge | src/mlx_spark/runtime/doctor.py:200-246 | which pairs of readings are finite, skipped, or faulty and why, version 1 limits from 2^60 on being none |
| Cgroup.PartsOfPath | src/mlx_spark/runtime/doctor.py:121-125 | the parts of an absolute path are the names it is made of |
| Cgroup.PathParts | src/mlx_spark/runtime/doctor.py:121-125 | a path is unusable exactly when a component is "..", and no part is empty or a dot |
| Cgroup.MatchesMeans | src/mlx_spark/runtime/doctor.py:128-190 | a version 1 match has the memory controller on both sides, a version 2 match the unified hierarchy, and the path lies under the root |
| Cgroup.MoreLevelsNeverRaise | src/mlx_spark/runtime/doctor.py:228-260 | descendant levels never raise the headroom and never lose a limit |
| Contracts.DivisionTest | native/src/contracts.cpp:9 | the division test fires exactly when the multiplication would not fit |
| Contracts.CheckedProduct | native/src/contracts.cpp:4-14 | the result is the mathematical product when 64 bits hold it and overflow exactly when they do not |
| Contracts.OrderIrrelevant | native/src/contracts.cpp:4-14 | the outcome is the same for every permutation |

## Left out

- Floating point: rounding, NaN and infinity, and float32 against float64. The finiteness checks of the
  oracle hold by the type; `exp` is any positive function that turns sums into products, and the
  reciprocal root of the head dimension is a parameter.
- Array ranks: the number of axes of an argument is its type, so the rank tests of the oracle and of
  `causal_gqa` are not modelled; every size test is.
- Device memory: buffers are of the sizes their shapes imply and, outside `DecodeOverlap`, distinct, which the
  source leaves to the caller.
- CUDA launch failures and streams: launches of a chain run one after the other.
- DecodeBlock.RunBlock: covers one block; the interleaving of blocks is in `DecodeRefinement`, on values.
- DecodeOverlap.HarmlessOverlap: covers two overlaps and `DecodeClobber.OutputOverState` a third; the other
  ways of placing an output over an input are not classified, and partial overlaps are not modelled.
- Cgroup.ResolveText: starts from the lines of the two files; cutting the text at line boundaries, and reading
  numbers from text, are not modelled.
- PublishNew.TargetIsWhole: covers process crashes, not loss of power, so flushing to disk plays no role.
- Checkpoint.ReaderSeesWhole: its only-if half needs documents none of which is a proper prefix of another,
  since a torn file may otherwise happen to equal some version; `Checkpoint.WholeExactly` needs nothing.
- Training.ResumeContinues: the JSON text between saving and loading is taken to preserve the tree; what NumPy
  makes of leaves other than numbers is a parameter. Without features it does not hold, as
  `Training.CheckpointKeepsWeights` says.
- JSON leaves are numbers, texts and null, with `true` and `false` as the numbers one and zero, which is how
  Python compares them.
- The recursion limit of Python on deep graphs and deep JSON trees.
- `rms_norm`, the reference snapshot, memory estimates, configuration checks, benchmark summaries and
  evidence validators: single expressions or long conjunctions with nothing to relate.
- Network access, subprocesses, argument parsing, and the device probe.
