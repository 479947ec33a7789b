# A verified model of taskrunner

taskrunner runs tasks that depend on each other, restarts them when something invalidates them, and skips
tasks whose files have not changed. This project models its three kernels in Dafny and proves what they are
relied upon for. `dafny verify dfyconfig.toml` verifies everything.

## What is modelled

**The executor.** `Executions`, `Construction` and `Executor` are the code's own objects: task executions that
refer to each other, the task set that builds and files them, the recursive `Invalidate`, one pass, the
collecting half of a plan. `TaskGraph` says what the flattened dependency lists mean. `Machine` is the
executor with all of its goroutines as a step machine over an arbitrary finite acyclic graph: passes, plans,
runs, keep-alive restarts, callers of `Executor.Invalidate`, the invalidation loop and the main goroutine.
Its state has, per task, the state, the context, the tokens in the terminal channel, the pending
invalidations and history (starts, effective invalidations, published events); globally, every thread's
position, the holder of `Executor.mu`, the cancelled contexts, the invalidation channel, the timer and the
wait group. A run is any interleaving of enabled steps. `Construction.BuiltMatches` connects the two halves:
a task set that `Build` returns satisfies everything the machine assumes about its configuration, and the
machine's initial state is the one that the set is in. `Invariant` and `Preservation` hold the inductive
invariant; `Safety`, `Wakeup`, `RunLife`, `Restarts`, `Progress`, `Shutdown`, `Dependency`, `Uninvalidated` and `Settling`
draw the theorems from it. `WalkLocks` and `WalkMarks` are about the walks of `Invalidate`, lock by lock.

**The change detector.** `Snapshot` is the snapshotter, `Watch` decides which files are sources of a task and
`Cache` skips runs. `Detector` compares what `Diff` reports with a full comparison of two working trees.

**Flags and arguments.** `Flags` is the registry's two-name flag index and the flag parser, on byte strings;
`Grouping` sorts arguments by task.

## Assumptions about concurrency

The code does not lock for these, so they are stated as guards on runs of the machine:

- (a) A start captures the context in the same step in which it sets the state to running, as far as a plan
  can see (executor.go:623 and executor.go:629).
- (b) At completion the check for cancellation and the state write are one step, as far as a plan can see
  (executor.go:652-674).
- (c) A call of `taskExecution.Invalidate` is one step, and so is the collecting loop of a plan, although the
  plan reads `pendingInvalidations` without the execution's lock (executor.go:196). `WalkLocks` drops this and
  models the locks one by one, and `WalkMarks.WalkIsRecursion` says when that makes no difference.

(a) and (b) are the predicate `Machine.Atomic`. `Witness.CaptureMustBeAtomic` and `Witness.WriteMustBeAtomic`
are runs that break one of them and end with a task that is done although its terminal channel is empty and
no run is going to send, so that a plan invalidating it has nobody to wait for.

Dependency consistency depends on one more condition, that no pass starts a task while a dependency has a
pending invalidation. Planning before passing makes that likely but does not enforce it, and a run whose body
failed passes without planning (`RunLife.LifeOfRun`). The condition is
exact: if all filters take DependencyChange, a run keeps every state between plans consistent iff none of its
passes makes such a start (`Dependency.ConsistentIffClean`). `Witness.StartsMustBeClean` is a reachable state
that is not consistent.

## Where the code falls short of its intent

- `Diff` is meant to report every changed file. At cache/snapshot.go:83 and cache/snapshot.go:91 a hit starts
  over from the commit diff, so of several files found by their hashes only the last is kept.
  `Detector.CompleteIff` says exactly when the list is complete (each changed file that the commit diff does
  not show has to be the last hit), `Cache.SkipsSoundIff` that this is also exactly when no skip misses a
  changed source, `Detector.DropsAChange` gives an input on which it fails, and
  `Detector.AccumulatingIsComparison` shows that appending to the list would do.
- `Diff` is meant to be empty iff no file differs. A file that was committed and is now in the working tree
  but untracked is reported whether or not it differs (`Detector.EmptyIffSame`, `Detector.ReportsUntracked`).
- The long and the short key of a flag are meant to yield the same value. That fails for a short name of more
  than one byte, and for a long name of one byte other than `-` and `=`, if the flag has both names
  (`Flags.KeysAgreeIff`). Registration accepts flags of both kinds (`Flags.WideShortNameDiffers`,
  `Flags.NarrowLongNameDiffers`).
- `Run` is meant to return after a shutdown. It does so iff no keep-alive task of the graph accepts
  KeepAliveStopped as a reason to be invalidated (`Shutdown.ReturnsIff`). If one does, its run can find the
  invalidation channel full when the loop has exited (executor.go:171-172, executor.go:227), and then the wait
  group is never done (`Shutdown.HangsIff`, `Progress.HungForever`, `Witness.KeepAliveCanHang`). In either case
  the executor takes only a bounded number of steps after the shutdown (`Shutdown.ShutdownEnds`), and nothing
  but such a run keeps `Run` from returning (`Shutdown.EndIsReturn`).

## Model

| member | source | states |
|---|---|---|
| `TaskGraph.MultiplicityIsPathCount` | task_execution.go:109-136 | the flattened list of a task holds another task exactly once per path of dependencies that leads to it |
| `TaskGraph.ListedIffReachable` | task_execution.go:124-130 | the elements of the list are exactly the direct and indirect dependencies |
| `TaskGraph.DepsAreClosed` | task_execution.go:124-130 | dependencies of dependencies are listed too, and every listed task ranks lower in the acyclic graph |
| `TaskGraph.DepsComeFirst` | task_execution.go:124-130 | every entry of the list is preceded by all of its own dependencies |
| `Executions.TaskExecution.constructor` | task_execution.go:114-122 | a new execution is invalid, with an empty channel, a context of its own below the given one and nothing pending |
| `Executions.TaskExecution.ShouldExecute` | task_execution.go:53-65 | true iff the task is invalid and every execution in its list of dependencies is done |
| `Executions.TaskExecution.BeginReset` | task_execution.go:69-76 | invalid and canceled tasks stay as they are; any other becomes invalid on a new context and its old context is the one cancelled |
| `Executions.TaskExecution.EndReset` | task_execution.go:77-80 | the receive goes through iff the channel has a token; then the execution ends with an empty channel and no pending invalidations, else nothing changes |
| `Executions.TaskExecution.Complete` | executor.go:652-674 | a cancelled run leaves the state alone unless the executor is shutting down, which makes it canceled, and publishes Stopped; any other ends in error and publishes Failed, or in done and publishes Completed |
| `Executions.TaskExecution.SendTerminal` | executor.go:676-680 | the send goes through iff the slot is free; then the channel has one token, and nothing else changes in either case |
| `Executions.TaskExecution.Invalidate` | task_execution.go:84-105 | the pending events of the whole set grow by exactly the marks of the walk, and the result is true iff the root is not invalid and accepts the event |
| `Executions.TaskSet.Add` | task_execution.go:109-136 | the set grows by exactly the task and its dependencies, what was filed stays, every list of dependencies is the flattened one, and dependents grow as often as definitions list them; a new task's context is a child of the one handed in, those of new dependencies hang below the new tasks that list them |
| `Executions.TaskSet.AddEntry` | task_execution.go:125-129 | one entry: its dependency's list and itself are collected, the unfiled execution is its dependent once more, and a context made for it is a child of that of the execution that lists it |
| `Executions.TaskSet.AddEntries` | task_execution.go:124-130 | after the loop, the collected list is the flattened one and each listed dependency has the unfiled execution as a dependent once per listing; contexts made on the way hang below that of the execution or of a new task that lists theirs |
| `Executions.GrowsByOne` | task_execution.go:124-130 | one round of the loop, in the middle of the recursion, keeps the exact count of dependents |
| `Construction.ClosureIsLeast` | executor.go:243-252 | the closure of the desired tasks is the least set that has them and is closed under Dependencies |
| `Construction.Build` | executor.go:243-252 | fails with the first undefined name, else returns a complete set whose domain is that closure; the first context of a task is a child of the root, if the task is desired, or of that of a task that lists it |
| `Construction.OriginsHang` | task_execution.go:114-126 | so the machine starts with such contexts, and a task that is not desired never hangs below the root |
| `Construction.DependentsAsListed` | task_execution.go:127 | in a finished set, a dependent occurs exactly as often as its definition lists the dependency |
| `Construction.DependenciesPerPath` | task_execution.go:128-129 | in a finished set, a dependency occurs once per path to it |
| `Construction.SetupExists` | task_execution.go:109-136 | every finished set has a configuration for the machine |
| `Construction.BuiltIsWellFormed` | task_execution.go:109-136 | that configuration meets all assumptions of the machine, contexts included |
| `Construction.BuiltMatches` | executor.go:252 | the executor's methods can run on the finished set, and the machine starts in the state of its executions |
| `Executor.Executor.RunPass` | executor.go:613-625 | nothing if the context is done; else exactly the tasks that were ready when the pass began are started, once each, in any order of the map iteration |
| `Executor.PassInAnyOrder` | executor.go:621-624 | undisturbed visits of the machine, in any order, have the same effect as that method |
| `Executor.Executor.CollectPlan` | executor.go:194-211 | a plan collects each task that is not invalid and has something pending once, and reports its pending events as the reasons |
| `Executor.Executor.Invalidate` | executor.go:221-228 | the task is marked through the walk, and the loop is to be signalled iff the task accepted |
| `Invalidation.WalkIsLeastFixpoint` | task_execution.go:84-105 | the walk without a visited set adds the least set of marks that has the root's and is closed under propagation; it is non-empty iff the root accepts |
| `Invalidation.MarksAreJustified` | task_execution.go:98-102 | every mark but the root's is a DependencyChange naming an accepted task that it directly depends on |
| `Invalidation.InvalidateIdempotent` | task_execution.go:84-105 | the same invalidation again changes nothing |
| `Invalidation.InvalidatesCommute` | task_execution.go:84-105 | two invalidations have the same effect in either order |
| `Preservation.StepInv` | executor.go:161-228 | every step that keeps to (a) and (b) preserves the invariant |
| `Preservation.RunInv` | executor.go:613-707 | so does every run |
| `Safety.TokenConservation` | task_execution.go:74-79 | tokens in the channel and owed by live runs equal the starts minus the effective invalidations, plus one for an invalidation that waits; that is one for running, error and done and none for a settled invalid task |
| `Safety.SendNeverBlocks` | executor.go:680 | the send on the terminal channel finds the slot free |
| `Safety.ReceiveHasProducer` | task_execution.go:77 | an invalidation that waits on an empty channel has exactly one live run, which can deliver without the executor's lock, and then goes on |
| `Safety.MutualExclusion` | executor.go:621-704 | a task never has two runs between start and terminal send |
| `Safety.StartsAlone` | executor.go:621-626 | a start finds no live run, no token left and nothing pending, and adds one run |
| `Safety.ContextTreeSafety` | task_execution.go:69-80 | a run sees its context cancelled iff its own task is being invalidated or the executor shut down, although first contexts hang below those of dependents |
| `Invariant.OwnContextAlive` | task_execution.go:114-133 | the context of a task that is not done is cancelled by a shutdown only |
| `Safety.NoneStranded` | executor.go:652-661 | a task is running iff it is not being invalidated and a run of it has yet to write its outcome |
| `Safety.EventsPairUp` | executor.go:631-674 | started and end events alternate, and are equally many once no run is under way |
| `RunLife.LastEventIsOutcome` | executor.go:652-674 | in every reachable state the last event of a task that is done is Completed, of one in error Failed, of a canceled one Stopped |
| `RunLife.OutcomeOfRun` | executor.go:652-674 | whatever happens between the end of a body and the state write, a run whose context was cancelled by then publishes Stopped and leaves the state alone, or canceled in a shutdown; any other publishes and writes the body's outcome |
| `RunLife.LifeOfRun` | executor.go:652-697 | from the end of its body to its own end a run writes its outcome, sends its token, makes its keep-alive check, may send to the loop, makes one plan iff its body returned no error, checks for a shutdown and may pass, in this order and nothing else |
| `RunLife.PlansOnceUnlessFailed` | executor.go:693-697 | so a run plans exactly once before it ends, or never if its body failed |
| `RunLife.SendsIff` | executor.go:689-691 | at its keep-alive check a run invalidates its task iff that is kept alive, neither invalid nor canceled, and accepts KeepAliveStopped, whether or not the run failed |
| `Safety.HandlerMarks` | task_handler.go:21-23 | TaskHandler.Invalidate makes exactly the marks of the walk pending and changes nothing else |
| `Safety.CallMarks` | executor.go:221-228 | Executor.Invalidate does so too, the marked tasks count as accepted, and its caller goes on to send iff the task accepted |
| `Restarts.AcceptedUntilReset` | task_execution.go:77-80 | what was accepted for a task is dropped by the end of a reset of that task and by nothing else |
| `Safety.CanceledForever` | task_execution.go:22-24 | no step leaves canceled |
| `Safety.InvalidationsCoalesce` | executor.go:194-215 | over any stretch of a run from any reachable state, a task that has run is started again at most once per plan of the stretch, plus one if a plan under way has collected it, however many invalidations arrive; an invalid task once more |
| `Safety.StartsInARun` | executor.go:194-215 | so over a whole run a task is started at most once more than plans were made |
| `Wakeup.ExecutableHasPass` | executor.go:689-697 | while the executor is live, an executable task has a pass in progress that has yet to visit it, or a pass owed |
| `Wakeup.AcceptedHasPlan` | executor.go:161-180 | an invalidation accepted through the executor stays pending and has a plan coming: through the channel, the timer, a blocked sender, a finishing run or the present plan |
| `Restarts.RestartIsDue` | task.go:43-46 | while the executor is live, a keep-alive task that accepts KeepAliveStopped and is done or failed has its last run before its keep-alive check, or an accepted invalidation pending and a plan coming |
| `Progress.NeverDeadlocks` | executor.go:161-228 | before and after a shutdown, while some thread has something left to do and does not wait to send to the exited loop, a step of the executor itself is enabled |
| `Progress.StuckIff` | executor.go:161-228 | in a reachable state no step of the executor is enabled iff every thread is at rest or waits to send to the exited loop on a full channel |
| `Progress.LiveNeverHangs` | executor.go:165-179 | while the executor is live no thread waits so |
| `Progress.HungForever` | executor.go:221-228 | a thread that waits so does over every continuation, and if it is a run, the wait for all runs is never over |
| `Shutdown.ReturnsIff` | executor.go:165-179 | wherever the executor comes to an end after a shutdown Run has returned, iff no keep-alive task of the graph accepts KeepAliveStopped |
| `Shutdown.HangsIff` | executor.go:682-691 | the run of some task can wait for good at its send to the exited loop iff some keep-alive task of the graph accepts KeepAliveStopped |
| `Shutdown.CanHang` | executor.go:682-691 | every such task has a run of the executor after which it waits so, with the shutdown begun and Run not returned |
| `Shutdown.ShutdownEnds` | executor.go:613-707 | in any interleaving after a shutdown the executor makes a bounded number of steps of its own: a bound fixed by the state, plus 4n + 12 for every later call of Executor.Invalidate, for n tasks |
| `Shutdown.NoStartsAfterShutdown` | executor.go:613-616 | after a shutdown, once no pass is past its check, no task is ever started again |
| `Shutdown.NothingStartsAfterEarlyShutdown` | executor.go:284-287 | so no task is started at all if the shutdown comes first |
| `Shutdown.CanEnd` | executor.go:613-707 | so from every state after a shutdown its own steps lead to one in which none is left |
| `Shutdown.EndIsReturn` | executor.go:284-287 | where none is left, Run has returned or the run of some task waits for good |
| `Dependency.ConsistentIffClean` | executor.go:613-625 | a run keeps every state between plans consistent iff none of its passes starts a task while a dependency of it has a pending invalidation |
| `Dependency.DependencyConsistency` | executor.go:184-216 | without such starts, at every plan boundary running, error and done tasks have all dependencies done, and what is pending has reached all dependents that are not invalid or canceled |
| `Dependency.RelatedNeverRunTogether` | executor.go:621-624 | without such starts, a task and a dependency of it never run at the same time |
| `Uninvalidated.UninvalidatedRunsEnd` | executor.go:613-707 | without invalidations a run has at most (n + 1)(n + 11) steps for n tasks; keep-alive tasks may be among them if they do not accept KeepAliveStopped |
| `Uninvalidated.Confluence` | executor.go:613-707 | where it ends, main has returned and each state depends only on which tasks fail: done, error, or invalid if a dependency failed |
| `Settling.SettlesAsFresh` | executor.go:161-228 | without a shutdown but with any invalidations, when all threads are at rest every task has that same state, and no accepted invalidation is left |
| `Settling.RestartersNeverRest` | task.go:43-46 | so while a keep-alive task that accepts KeepAliveStopped has no failing dependency, the executor does not come to rest |
| `Uninvalidated.WaitEndsAtTheEnd` | executor.go:284-287 | the wait on the group returns only in that final state |
| `WalkLocks.WaitsGoDown` | task_execution.go:84-102 | along waiting walks the wanted executions get strictly further from the dependencies, so waits never form a cycle, and no walk waits for itself |
| `WalkLocks.WalkEnds` | task_execution.go:84-102 | whatever other walks do, a walk makes at most as many steps as its remaining frames and dependents allow, a bound fixed when it begins |
| `WalkMarks.WalkIsRecursion` | task_execution.go:84-105 | in any interleaving of walks, one that meets the same invalid tasks throughout locks an execution for exactly the calls that the recursion makes, and accepts in exactly those it marks |
| `WalkLocks.WalksNeverDeadlock` | task_execution.go:84-102 | after any steps of any number of concurrent walks, while one is under way some walk can go on |
| `Witness.CaptureMustBeAtomic` | executor.go:623-629 | without (a), a run exists that leaves a task done with an empty channel and no run to fill it |
| `Witness.WriteMustBeAtomic` | executor.go:652-674 | without (b), so does another |
| `Witness.StartsMustBeClean` | executor.go:693-697 | a reachable state between plans is not consistent: a task is running whose dependency is invalid |
| `Witness.KeepAliveCanHang` | executor.go:676-691 | a reachable state from which, for a keep-alive task, no continuation lets the wait for all runs end |
| `Witness.CanReachIsReachable` | executor.go:613-707 | the traces of the witnesses that keep to (a) and (b) are runs of the machine |
| `Snapshot.Snapshot.LoadMap` | cache/snapshot.go:172-177 | the map agrees with the list; the last entry of a path counts |
| `Snapshot.Snapshotter.TakeSnapshot` | cache/snapshot.go:100-134 | fails iff a tool or a hash fails, else lists the new files, and the modified ones if asked to, with their hashes |
| `Snapshot.Snapshotter.Diff` | cache/snapshot.go:50-96 | fails if a tool fails; else returns the committed files, or the commit diff with the last hit, with an error iff the last rehash failed |
| `Detector.SnapshotIsRecord` | cache/snapshot.go:98-134 | a snapshot with modified files lists everything that is not in the working tree as it was committed |
| `Detector.DiffObserves` | cache/snapshot.go:50-59 | when the tools answer, Diff succeeds and works on a record of the earlier tree and on the present one |
| `Detector.AccumulatingIsComparison` | cache/snapshot.go:61-93 | adding every hit would report exactly the changed files and those untracked by now |
| `Detector.EmptyIffSame` | cache/snapshot.go:50-96 | as written, the list is empty iff no file changed and none is untracked by now |
| `Detector.ReportedIsJustified` | cache/snapshot.go:61-93 | a reported file changed, or is untracked by now, or was uncommitted and differs from its commit |
| `Detector.CompleteIff` | cache/snapshot.go:82-92 | as written, every changed file is reported iff each changed file whose present content is what the commit has is the last hit |
| `Detector.CompleteForOne` | cache/snapshot.go:82-92 | so every changed file is reported if at most one path fails a comparison of hashes |
| `Detector.DropsAChange` | cache/snapshot.go:83-91 | with a concrete hash, two changed files of which one is not reported |
| `Detector.ReportsUntracked` | cache/snapshot.go:87-93 | with a concrete hash, no change and a list that is not empty |
| `Watch.IsTaskSource` | watch.go:12-28 | true iff the path matches a source and no ignore; ends the process iff some pattern is not valid |
| `Cache.Cache.IsFirstRun` | cache/cache.go:101-107 | true iff the task was not asked about before; it is remembered |
| `Cache.Cache.IsValid` | cache/cache.go:109-119 | true iff not everything is dirty and every dirty file matches no source or an ignore pattern too; ends the process iff an invalid pattern is met before a source |
| `Cache.Cache.MaybeRun` | cache/cache.go:121-133 | skips exactly a first run with a logger, when not everything is dirty and every dirty file matches no source or an ignore pattern too |
| `Cache.Cache.Start` | cache/cache.go:56-86 | everything is dirty from then on iff it was before or the read or the diff failed; the dirty files are those of the diff against the snapshot read, or against an empty one, unless the diff failed |
| `Cache.SkippedAtMostOnce` | cache/cache.go:101-132 | over any sequence of runs a task is skipped at most once |
| `Cache.SkipMeans` | cache/cache.go:109-132 | a skip is the task's first run, the cache was not bypassed before, and no file reported at the start is a source of the task |
| `Cache.SkipsSoundIff` | cache/cache.go:56-132 | from Start to any later skip, for any task, patterns and earlier runs: no skip misses a changed source iff each changed file whose present content is what the commit has is the last hit |
| `Flags.RuneRoundTrip` | registry.go:97-101 | the key of a short name determines the rune; what is no code point shares one key |
| `Flags.Registry.Add` | registry.go:29-106 | panics with the first fault, stated over the fields: a taken name or two run functions change nothing, a faulty flag leaves the task with the names filed before it; without a fault the whole flag index is filed; other tasks are not touched |
| `Flags.KeptIsIndex` | registry.go:44-103 | with no objection, what is held is the index of all flags |
| `Flags.AcceptedIff` | registry.go:44-103 | a list of flags is taken iff each has a name, a description, one of the five types, no name equal to the task's, and is neither help nor h, and no name occurs twice; then every key belongs to exactly one flag |
| `Flags.PanicsIff` | registry.go:44-103 | each reason of a panic is given iff the first flag to blame is to blame for it: the flag has that fault, no check made before applies to it, and the flags before it are fine |
| `Flags.KeptAfterPanic` | registry.go:89-103 | after a panic the index has the names of the flags before that one, and its long name if its short name is the reason |
| `Flags.SplitJoins` | executor.go:435 | splitting an argument at the separators loses nothing and leaves no separator |
| `Flags.KeyCanBeNamed` | executor.go:556-584 | an accepted argument names a registered key, and never the bare dash or separator |
| `Flags.ParsedIff` | executor.go:434-446 | the parser finds exactly the name and the text that an argument is made of: one dash and a registered one-byte name other than the dash, or two dashes and a longer one, alone or with a separator and a text |
| `Flags.ParseTaskFlagsIntoMap` | executor.go:429-545 | the loop computes the flag map of the arguments, and panics iff some argument is not of that form |
| `Flags.EmptyTextKeeps` | executor.go:456-457 | an argument without a text or with an empty one leaves the map as it is |
| `Flags.KeysYieldLastValue` | executor.go:527-540 | for a coupled flag each key yields the last non-empty value given under either name, else the default |
| `Flags.KeysAgreeIff` | executor.go:528-540 | the keys of an accepted flag agree on all accepted arguments iff the flag has one name, or a one-byte short name and a long name that is not a nameable single byte |
| `Flags.WideShortNameDiffers` | executor.go:528-540 | a flag with a short name of two bytes that is registered, and an argument after which its keys differ |
| `Flags.NarrowLongNameDiffers` | executor.go:528-540 | so for a flag with a long name of one byte |
| `Grouping.GroupTaskAndFlagArgs` | runner.go:116-159 | each known task has exactly the flags directly after its last occurrence, nothing else is a key, and unknown tasks are found iff some argument is neither a flag nor registered |
| `Grouping.GroupsAreDetermined` | runner.go:116-159 | that description fits only one map |
| `Grouping.AcceptedIsFlag` | runner.go:122-131 | every argument that the flag parser takes is one that grouping keeps with its task |
| `Grouping.RoundTrip` | runner.go:116-159 | flattening a map from known names to flags, in any order, and grouping again gives the map back with nothing unknown |

## Left out

- Task bodies, the shell, git, JSON, glob matching, hashing, file watching and logging: functions or outcomes
  that are left open. A task body is assumed to return; whether it fails is open.
- Scheduling: which enabled step comes next is open, and no fairness is assumed. That something happens is
  stated as a bound on the steps together with what holds where none is left.
- Durations: the timer is armed or not, the sleep before a plan is not modelled.
- Event channels: published events are a history, with no capacity and no closing.
- Which error `Run` returns, the hooks before and after it, and help texts.
- The second loop of a plan is modelled in the machine only, where the receive can wait for the run; the
  methods BeginReset and EndReset are its two halves. The goroutine of a run is a thread of the machine, and
  Complete is its state write.
- EndReset and SendTerminal: say whether the channel operation can go through, because a method cannot wait
  for another thread; `Safety.ReceiveHasProducer` and `Safety.SendNeverBlocks` show that it can.
- `TaskHandler.Invalidate` marks tasks without signalling the loop (task_handler.go:21-23). The machine has the
  step; `Wakeup.AcceptedHasPlan` is about invalidations through the executor only.
- Uninvalidated.Confluence: keep-alive tasks that accept KeepAliveStopped invalidate themselves, so a run with
  them is not one without invalidations.
- Diff: which error comes with the list, and a hash function that fails and still returns a hash. A file
  counts as its content; that md5sum.go hashes modification times, that git may list a whole new directory as
  one path, and that ignored files are not listed are not modelled.
- Registry.Add: options applied to the task before it is registered.
- ParseTaskFlagsIntoMap: the text of a value is kept, its conversion by the getters is not modelled.
- GoBuilder, whose batches depend on timing, the user interfaces and the configuration file.
