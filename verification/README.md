# SPANE: a verified model of the workflow engine's core

SPANE runs DAG workflows on a job queue. This project models four connected parts of it in
Dafny and proves what they promise.

* **The scheduler** (`Scheduler*.dfy`). One workflow execution is a step machine: any number of
  workers interleave at the granularity of one store, queue or lock operation, executors return
  anything or throw, throws are retried or final, locks expire, executions are cancelled or
  paused, waiting jobs are removed, the result listener rewrites results, and time passes. The
  state holds node results, status, the queue, the completion lock and, for every active job,
  where its processing stands. Part of the state, `hist`, only records what happened; no step
  reads it, and `ResolvedHistory`, `AddedHistory`, `SkippedHistory` and `DelayHistory` prove that
  it says what the run says. The queue knows jobs by their id strings. `SchedulerCode.dfy` gives
  the handlers as imperative code, with the other workers interfering between any two operations,
  and proves that every execution of the code is a run of the machine. Some files build runs from
  the initial state: executions that complete (`SchedulerCompletion.dfy`), that miss their
  completion (`SchedulerMissed.dfy`), that lose a node (`SchedulerLoss.dfy`,
  `SchedulerHandOver.dfy`), that announce often (`SchedulerAnnounce.dfy`), and that drain whatever
  the nodes are called (`SchedulerSettle.dfy`, `SchedulerNames.dfy`). `SchedulerSelection.dfy` and
  `SchedulerLaws.dfy` say in terms of results, queue and status what the machine's own functions
  amount to.
* **The distributed lock** (`DistributedLock.dfy`) with its clock, time to live and bounded
  automatic renewal.
* **Graph validation and the flow-tree builder** (`GraphValidation.dfy`, `FlowTree.dfy`): the
  depth-first and breadth-first searches with their mutable sets, and the memoised unfolding.
* **The stores** (`DrizzleStore.dfy`, `InMemoryStore.dfy`): the cache over the result table, the
  guarded status, completion in one transaction, and expiry, eviction and bounded logs in memory.

`InputData.dfy` and `JobIds.dfy` model the object walk and the job-id strings of the node
utilities; `NodeInputs.dfy` the data a node gets from its parents.

## Assumptions

* Links are symmetric where a lemma says `WellLinked` or `SymmetricLinks`: a node lists an output
  exactly if that node lists it as an input. The validator does not check this.
* The workflow definition resolves to the same value throughout an execution, single store calls
  are atomic, and the attempts of one job are sequential.
* An executor result is never both unsuccessful and skipped, as the result constructors keep it.
* Where a lemma says `PlainIds` (or, for one node, `PlainFor`): no two jobs of the workflow can have
  one id, that is, no node but an entry is called like a delay node with `-delay-resumed` appended,
  or so that its job shares an id with an entry's at some timestamp. A caller can check this before
  the start (`PlainIsCheckable`). `NoRoot` says that no node is called `__root__`. What happens
  without these is proved as well (see below).
* A job that throws may be retried: a retry policy of a single attempt is the case in which every
  throw is the last one. `OneThrowLoses` needs a policy of two attempts or more.
* Lock tokens and execution ids are fresh, and execution ids contain no dash. All parts of one
  execution read the same clock. A lock or delay is over at its deadline, not after it.

## What the proofs found

* A success whose store write throws is retried and runs again: a node's executor succeeds at
  most once *plus once for every success lost that way*, and the bound is reached
  (`AtMostOnce`, `EveryLossRepeats`).
* A throw while a worker has a node among the children to look at loses that node: the retry sees
  its own recorded result and returns (src/engine/node-processor.ts:149-152). One such throw, with
  nothing else going wrong, can lose any node that is not an entry (`OneThrowLoses`), and then
  nothing that happens later ever brings it back (`LostForGood`). A late failure of a delay node's
  initial job, after it queued the resume job, can do the same without dropping anything
  (`LateFailureLoses`). No other throw can: a node is not lost in a run in which none of its own
  tasks is dropped and none of its delay inputs fails that way (`NoLostJoin`).
* Names can lose nodes without any failure, and it is known exactly which: every undisturbed run
  ends with a result for every node if and only if no two jobs of the workflow can have one id and
  no node waits for one called `__root__` (`NamesAreHarmlessIff`). Of two nodes whose jobs have one
  id, in no run do both get a result unless one is skipped or the execution cancelled
  (`ResumeTwinsExclude`, `EntryTwinIsLost`); a delay node's child called like its resume job is never enqueued,
  wherever it is and whatever else it waits for (`ResumeTwinIsLost`). Jobs of a node called
  `__root__` return a success and never look at children (`RootLosesChild`;
  src/engine/node-processor.ts:102-104). Whatever the names, the queue can drain (`CanDrain`).
* Every workflow with plain ids, valid delays and no unreachable node can complete
  (`CanComplete`), and a drained queue leaves no node without a result (`DrainedIsResolved`). But
  the execution is sure to be completed by then exactly if the workflow has a single node
  (`CompletesIffSingle`). With two or more there is a run, without any failure, that ends with all
  jobs returned, all results there and the execution running: the last worker does not get the
  completion lock from one that counted too early, and nobody counts again (`CanMissCompletion`,
  `MissedForGood`). No time has to pass while the lock is held.
* No status but running is ever left through the database store, so neither is paused
  (`StatusIsFinal`; src/db/drizzle-store.ts:356-362). The in-memory store replaces any status.
* Completion is announced at most once more than locks expired on their holders, and that bound
  is reached (`AnnouncedAtMost`, `EveryExpiryAnnounces`). The check stops for terminal statuses
  only, so of a paused execution every worker that checks announces the completion, although the
  status stays paused (`PausedAnnouncesEach`, for any number of nodes by `FlatOfAnySize`).
* Children of a skipped node run: the skip releases them with no branch selected
  (src/engine/handlers/child-enqueue-handler.ts:105; `RunsAfterSkip`, `SkippedParentsRelease`).
* The database keeps no falsy data: 0, false, "" and null read back as absent. A node's input
  therefore depends on whether its parent's result came from the cache or from the table;
  `InputDataThroughTable` says exactly when. Scheduling decisions do not depend on it.
* Over every sequence of operations on results whose updates reach Redis, cache and table agree
  throughout if and only if no read is overtaken: no row is updated between a read's select and its
  population of the cache with that row (`AgreementIff`). Operations one after the other therefore
  agree and every read returns the table's rows (`SequentialReadsAgree`).
* Source comments promise that stale cache entries are refreshed on read
  (src/db/drizzle-store.ts:322-324). A cache hit is never refreshed: if the invalidation fails, or
  a read is overtaken, every read returns the stale entry until it expires or is replaced
  (`UpdateNodeResult`, `ReadsKeepWhatIsCached`, `PopulationAfterUpdates`). The empty node id is not
  looked up when the cache answers (`AgreeingReads`).
* `updateNodeResultWithCompletion` neither invalidates the cache nor respects a final status.
* The documentation of the cycle report shows the cycle alone. The code reports the start node
  followed by the whole search path, whose last node leads back into that path.
* An operation type overrides an explicit time to live of a lock (`NormalizeOptions`).
* A delay node passes on what its inputs had when its resume job looked. Without inputs that is an
  empty object, as the resume job is enqueued with no input data: the execution's initial data
  does not pass through it (`DelayResultIsGathered`, `ParentlessDelayIsEmpty`).
* Shared objects are rejected as circular by the input-data validator (`SharingIsRejected`).

## Model

| member | source | states |
|---|---|---|
| SchedulerContainment.RunContained | src/engine/handlers/child-enqueue-handler.ts:36-148 | in every state of every run, jobs and results belong to nodes reachable along outputs from an entry node; children are outputs of such nodes, and resume jobs are of delay nodes |
| SchedulerContainment.CompletionSafety | src/engine/handlers/child-enqueue-handler.ts:160-218 | an accepted execution is completed only when the nodes with results are exactly all nodes |
| SchedulerContainment.UnreachableNeverCompletes | src/engine/graph-validation.ts:146-178 | no run ever completes an execution of a workflow with a node the validator reports as unreachable |
| SchedulerContainment.CountIsComplete | src/engine/handlers/child-enqueue-handler.ts:198-203 | a pending count of zero means that the rows are exactly the workflow's nodes |
| SchedulerOrder.DependencyOrder | src/engine/handlers/child-enqueue-handler.ts:60-71 | a child's job exists only if each of the child's inputs had a successful or skipped result at an earlier time of the run |
| SchedulerLaws.InputsCameFirst | src/engine/handlers/child-enqueue-handler.ts:60-71 | spelled out: each input of a queued child had a result that was successful or skipped in some earlier state |
| SchedulerOrder.ExecutorOrder | src/engine/handlers/execution-handler.ts:55-127 | an executor runs for an entry node, or after all inputs of its node were resolved |
| SchedulerOrder.ResolvedHistory | src/engine/node-processor.ts:146-152 | a node counts as resolved once exactly if some earlier state held a successful or skipped result for it |
| SchedulerOrder.AddedHistory | src/engine/handlers/child-enqueue-handler.ts:142-147 | a job counts as added exactly if it was in the queue in some earlier state |
| SchedulerOnce.AtMostOnce | src/engine/node-processor.ts:146-152 | over every run, a node's executor returns success at most once more than its successes were lost to a store write that threw and was retried |
| SchedulerOnce.EveryLossRepeats | src/engine/handlers/execution-handler.ts:102-126 | that bound is reached for every number of losses: a run with m lost writes and m + 1 successes exists |
| SchedulerOnce.EntryNotFed | src/engine/workflow-engine.ts:436-463 | in an accepted, symmetrically linked workflow no reachable node has an entry node among its outputs |
| SchedulerOnce.OnlyPrimary | src/engine/handlers/child-enqueue-handler.ts:132-147 | one job key can run a node: its entry job or its child job, and for a delay node also its resume job |
| SchedulerOnce.SettledStep | src/engine/node-processor.ts:146-160 | once a node's success is recorded, or about to be, no step of any worker leads back to its executor unless that write is lost |
| SchedulerJoin.NoLostJoin | src/engine/handlers/child-enqueue-handler.ts:47-75 | in every run in which no throw drops the node and no delay input fails after handing over, whenever its inputs are all resolved and no worker has it to look at, it had a job or has a result; whatever else is thrown, and whatever other nodes are called |
| SchedulerJoin.JoinedStep | src/engine/handlers/execution-handler.ts:102-121 | every step that does not drop the node keeps it: a node with all inputs resolved has a job, a result, or a worker that still has it, or is about to have it, among the outputs to look at |
| SchedulerLoss.OneThrowLoses | src/engine/node-processor.ts:149-152 | for every node but an entry there is a run in which one retried throw is all that goes wrong, at whose end its inputs are resolved and it is forgotten |
| SchedulerLoss.LostForGood | src/engine/handlers/child-enqueue-handler.ts:36-76 | a forgotten node, whose ancestors' jobs have ended without enqueueing it, never gets a job or a result in any continuation, and the execution is never completed |
| SchedulerLoss.ForgottenIsNotKept | src/engine/handlers/child-enqueue-handler.ts:36-76 | a ready node that is forgotten shows that the run had a throw that dropped it or a delay input that failed after handing over |
| SchedulerHandOver.LateFailureLoses | src/engine/handlers/delay-handler.ts:103-139 | that second condition is needed: a run that drops nothing, in which a delay node's initial job fails at its return, loses the node behind it |
| SchedulerClash.ResumeTwinIsLost | src/engine/handlers/child-enqueue-handler.ts:132-147 | in every run that is not cancelled, a child of a delay node that is called like its resume job is never enqueued unless the delay is skipped, wherever it is and whatever else it waits for |
| SchedulerClash.ResumeTwinsExclude | src/engine/handlers/child-enqueue-handler.ts:132-147 | in every such run, of a delay node and any node called like its resume job at most one gets a result, unless one is skipped |
| SchedulerClash.EntryTwinIsLost | src/engine/workflow-engine.ts:484-500 | a node whose job id is, at the entry's timestamp, the entry job's is never enqueued once the entry is, and has no result unless it is skipped |
| SchedulerNames.RootLosesChild | src/engine/node-processor.ts:101-104 | for every child of a node called `__root__`, wherever that is and whatever else the child waits for, there is an undisturbed run that leaves it without a result |
| SchedulerNames.NamesAreHarmlessIff | src/engine/handlers/child-enqueue-handler.ts:132-147 | every undisturbed run that has finished has a result for every node exactly if no two jobs can have one id and no node waits for one called `__root__` |
| SchedulerSettle.CanDrain | src/engine/handlers/child-enqueue-handler.ts:36-148 | whatever the nodes are called, there is a run without failure or skip at whose end all jobs have returned |
| SchedulerClash.PlainIsCheckable | src/engine/node-utils.ts:416-425 | when every node is reachable, that no two jobs can have one id is a condition on entries, delay nodes and names alone |
| SchedulerIds.SharingIsClashing | src/engine/node-utils.ts:416-425 | two different jobs of one execution have the same id string only if one is a child's that is called like a resume job or like an entry's job at some timestamp |
| SchedulerIds.ClashingIsSharing | src/engine/node-utils.ts:416-425 | and such jobs do have the same id string, an entry's at a timestamp of its own |
| SchedulerIds.TakenByItself | src/engine/handlers/child-enqueue-handler.ts:142-147 | the id of a job that clashes with no other is taken in the queue exactly if that very job is in it |
| SchedulerIds.AddsAreAdded | src/engine/handlers/child-enqueue-handler.ts:132-147 | and every such job that a step wants to add has been added afterwards |
| SchedulerJoin.UnmovedStaysRecorded | src/engine/queue-manager.ts:107-132 | failure records and the listener's rewrites by another job of the node never unrecord what a job past its write, or returning a resolved result, has in the store |
| SchedulerDrain.DrainedIsResolved | src/engine/handlers/child-enqueue-handler.ts:36-76 | when all jobs have returned resolved results, nothing was dropped and no delay failed after handing over, every node has a resolved result and none is pending; one called `__root__`, which then nobody may wait for, only after the listener |
| SchedulerCompletion.CanComplete | src/engine/handlers/child-enqueue-handler.ts:36-218 | every accepted workflow with plain ids, valid delays and all nodes reachable has a failure-free run, in which no time passes under the lock, at whose end all jobs have returned, all nodes have results and the execution is completed |
| SchedulerMissed.CompletedExactlyIf | src/engine/handlers/child-enqueue-handler.ts:184-203 | an execution is completed exactly if a worker counted as many results as nodes under the lock and it was still running when that worker set the status |
| SchedulerMissed.CanMissCompletion | src/engine/handlers/child-enqueue-handler.ts:169-182 | every such workflow of at least two nodes has a failure-free run, in which no time passes under the lock, that ends with all jobs returned, all results there and the execution still running |
| SchedulerSingle.SingleCompletes | src/engine/handlers/child-enqueue-handler.ts:160-218 | with one node, every failure-free run that has drained is completed |
| SchedulerSingle.CompletesIffSingle | src/engine/handlers/child-enqueue-handler.ts:160-218 | so every failure-free run that drains ends completed exactly if the workflow has one node |
| SchedulerMissed.MissedForGood | src/engine/handlers/child-enqueue-handler.ts:160-218 | once all jobs have returned, an execution that is not completed never is, and no job is ever added |
| SchedulerDrain.SourceIsEntry | src/engine/workflow-engine.ts:436-453 | a node without inputs is an entry node when every node is reachable |
| SchedulerDelay.DelayTiming | src/engine/handlers/delay-handler.ts:103-211 | a delay node not called `__root__` and not skipped by branching is resolved only when some initial step at least the configured milliseconds, seconds or minutes earlier has scheduled the resumption |
| SchedulerDelay.ChildrenWaitForDelay | src/engine/handlers/child-enqueue-handler.ts:60-71 | no child of such a delay node is in the queue before that time |
| SchedulerDelay.ResumedWhenConfigured | src/engine/node-utils.ts:28-44 | the resume job becomes ready exactly so many milliseconds, seconds or minutes after the step that adds it, milliseconds before seconds before minutes |
| NodeInputs.DurationInMilliseconds | src/engine/node-utils.ts:28-44 | a duration is found exactly if some unit is given; the finest one given counts, in milliseconds |
| NodeInputs.UnitsAgree | src/engine/node-utils.ts:28-44 | the same time in another unit is the same delay |
| SchedulerLaws.MarkerMeans | src/engine/handlers/delay-handler.ts:103-139 | the initial step returns a success that says when the node resumes |
| SchedulerDelayData.DelayResultIsGathered | src/engine/handlers/delay-handler.ts:160-200 | a delay node's result is the skip, or what its inputs had in some earlier state of the run |
| SchedulerDelayData.ParentlessDelayIsEmpty | src/engine/handlers/delay-handler.ts:160-200 | without inputs it is an empty object, in every run |
| SchedulerSkips.SkippedParentsRelease | src/engine/handlers/child-enqueue-handler.ts:81-107 | a node whose inputs were all skipped gets a job like any other |
| SchedulerSkips.RunsAfterSkip | src/engine/handlers/child-enqueue-handler.ts:81-107 | there is a run in which the executor of a node whose inputs were all skipped returns |
| SchedulerSelection.OnlyUnselectedIsSkipped | src/engine/handlers/child-enqueue-handler.ts:47-56 | in every run, a node that is skipped is an output of one whose success, recorded before by the same job, selected other nodes only |
| SchedulerSelection.SkipsExactlyUnselected | src/engine/handlers/child-enqueue-handler.ts:45-76 | a job that records a success and works off its children without a throw has skipped exactly the outputs that the result does not select |
| SchedulerSelection.LooksAtSelected | src/engine/handlers/child-enqueue-handler.ts:58-76 | and it has looked at every output that is selected, or at all of them without a selection; one whose inputs all have successful or skipped results then it goes on to enqueue |
| SchedulerLaws.SkipReleasesAll | src/engine/handlers/child-enqueue-handler.ts:81-107 | a skip is stored as a successful, skipped result with null data, and all of the node's outputs are looked at next |
| SchedulerLock.OneDecides | src/engine/handlers/child-enqueue-handler.ts:169-182 | in every run in which no lock expires, at most one worker is inside the completion check at a time |
| SchedulerLock.AnnouncedAtMost | src/engine/handlers/child-enqueue-handler.ts:160-218 | in every run, an execution that is not paused is announced as completed at most once more than locks expired on their holders |
| SchedulerAnnounce.EveryExpiryAnnounces | src/engine/handlers/child-enqueue-handler.ts:198-214 | that bound is reached: a run with one announcement for every node and one expired lock less, each after its five seconds |
| SchedulerAnnounce.PausedAnnouncesEach | src/engine/handlers/child-enqueue-handler.ts:188-214 | of a paused execution every worker that checks announces the completion: a run with as many announcements as nodes, without an expired lock |
| SchedulerAnnounce.FlatOfAnySize | src/engine/graph-validation.ts:295-347 | the workflows of those two runs exist for every number of nodes |
| SchedulerStatus.StatusIsFinal | src/db/drizzle-store.ts:344-363 | whatever status first replaces running is the status in every later state |
| SchedulerStatus.CancellationStops | src/engine/node-processor.ts:155-160 | after a cancellation, a job not yet past its status read never runs an executor, writes a result or adds a job, also when it is retried or added later; the listener still stores what it returns or that it failed |
| SchedulerStatus.StoppedForGood | src/engine/handlers/delay-handler.ts:154-159 | such a job never gets past a status read again, the one of the resumed delay included |
| SchedulerStatus.PauseHolds | src/engine/node-processor.ts:162-166 | after a pause, a job not yet past its first status read never runs an executor, writes a result or adds a job, also when it is retried or added later |
| SchedulerStatus.HeldForGood | src/engine/node-processor.ts:162-166 | such a job never gets past that read again |
| SchedulerStatus.GateDecides | src/engine/node-processor.ts:154-192 | the read makes the job return an error if cancelled, wait five seconds if paused, and go on to its node by type and delay otherwise |
| SchedulerCode.Engine.CheckAndEnqueueChildren | src/engine/handlers/child-enqueue-handler.ts:36-76 | under any interference, the loop performs exactly the steps of the machine for all outputs and leaves what an outer loop still has to do |
| SchedulerCode.Engine.CheckAndEnqueueChild | src/engine/handlers/child-enqueue-handler.ts:47-75 | one turn: a child not selected is skipped, a missing one ignored, a ready one enqueued |
| SchedulerCode.Engine.SkipNode | src/engine/handlers/child-enqueue-handler.ts:81-107 | records the skip and releases all outputs of the skipped node before anything else |
| SchedulerCode.Engine.EnqueueNode | src/engine/handlers/child-enqueue-handler.ts:112-148 | adds the child's job, or nothing when its id string is in the queue, as the machine does |
| SchedulerCode.Engine.AllParentsCompleted | src/engine/handlers/child-enqueue-handler.ts:60-67 | true exactly if every parent has a successful or skipped result at the moment of the read |
| SchedulerCode.Engine.CheckWorkflowCompletion | src/engine/handlers/child-enqueue-handler.ts:160-218 | takes the lock or gives up, reads status and count inside it, completes on zero pending, and releases the lock it holds |
| SchedulerCode.Engine.SetExecutionStatus | src/engine/handlers/child-enqueue-handler.ts:223-242 | the status changes only while the execution runs, as the machine's step says |
| SchedulerCode.Engine.ExecuteRegularNode | src/engine/handlers/execution-handler.ts:55-127 | the executor gets the parents' data as some state since the call has it; what it returns is returned and is the run's executor step, and what it throws is the error outcome |
| SchedulerCode.Engine.HandleExecutionError | src/engine/handlers/execution-handler.ts:166-201 | an exception becomes the recorded success exactly if the node continues on fail and this was the last attempt |
| SchedulerLaws.ExecutorResultIsStored | src/engine/handlers/execution-handler.ts:102-112 | in every run, what an executor returns is what the job's next move stores for its node |
| SchedulerLaws.FailedNodeFailsExecution | src/engine/handlers/execution-handler.ts:107-112 | and a failure then fails a running execution, without looking at children |
| SchedulerLaws.ThrowDecides | src/engine/handlers/execution-handler.ts:166-201 | an exception becomes a result only in the handler of a node that continues on fail; otherwise the job is retried or exhausted |
| SchedulerLaws.ContinuedFailure | src/engine/handlers/execution-handler.ts:177-193 | a continued failure is a success that selects no branch and carries the message |
| SchedulerLaws.ExhaustionIsRecorded | src/engine/worker-manager.ts:122-161 | after the last attempt an error is stored for the node and then a running execution fails |
| SchedulerLaws.RootJobReturns | src/engine/node-processor.ts:102-104 | a job of `__root__` ends with its fixed success before it looks at the store |
| SchedulerLaws.FinishReturns | src/engine/queue-manager.ts:107-121 | what a job ends with is what it returns, and returning changes nothing else |
| SchedulerLaws.AddedJobsAreReady | src/engine/handlers/child-enqueue-handler.ts:112-148 | entry and child jobs are ready at once; only the engine adds the first, only a job at a child it found ready the second, and one whose id is free is added |
| SchedulerLaws.ReturnedIsStored | src/engine/queue-manager.ts:107-132 | the listener stores exactly what a job returned, and never a delay's marker |
| SchedulerCode.Engine.ProcessDelayNode | src/engine/handlers/delay-handler.ts:52-98 | routes by configuration and phase to an error result, the initial or the resumed step |
| SchedulerCode.Engine.HandleInitialStep | src/engine/handlers/delay-handler.ts:103-139 | adds the resume job with the delay and returns the marker, without a result for the node |
| SchedulerCode.Engine.HandleResumedStep | src/engine/handlers/delay-handler.ts:144-211 | after a second status read gathers parent data, records it and releases the children |
| SchedulerCode.Engine.ProcessNodeJob | src/engine/node-processor.ts:96-133 | one attempt under any interference extends the run by machine steps of this job; a missing node is thrown, `__root__` returns its success at once, and every other outcome has one of those reasons |
| SchedulerCode.Engine.RouteNodeExecution | src/engine/node-processor.ts:138-193 | the outcome is the node's own result, the cancellation's error, a postponement, the delay's result or the executor's, each for what some state since the call held |
| SchedulerCode.Engine.EnqueueWorkflow | src/engine/workflow-engine.ts:436-463 | with plain ids every entry node gets a job; without any entry node the engine fails |
| SchedulerCode.SelectEntryNodes | src/engine/workflow-engine.ts:436-454 | the named entry node, or else in order all nodes without inputs |
| SchedulerLaws.EntriesInOrder | src/engine/workflow-engine.ts:453-454 | without a name, each node without inputs once, in array order |
| SchedulerLaws.StartsEmpty | src/engine/workflow-engine.ts:436-466 | a run starts with the entries to be enqueued, no result, no job and no lock |
| SchedulerLaws.StartsWhenReady | src/engine/workflow-engine.ts:508-511 | only a waiting job whose time has come is started, and it reads its own result first |
| SchedulerLaws.EntriesAre | src/engine/workflow-engine.ts:436-454 | the entries are the named node if it exists, nothing if it does not, and without a name all nodes without inputs |
| SchedulerCode.Engine.CancelWorkflow | src/engine/workflow-engine.ts:594-619 | a running execution becomes cancelled, any other keeps its status, and each listed job was not waiting at some time since |
| SchedulerCode.Engine.CompletedHasAllResults | src/engine/handlers/child-enqueue-handler.ts:198-203 | whenever the code has the execution completed, its results are exactly those of all nodes |
| NodeInputs.BuildNodeInputData | src/engine/handlers/execution-handler.ts:132-161 | no parent: own data; one: its data if it succeeded with data; several: an object with exactly the successful parents' data under their ids |
| NodeInputs.InputDataByParents | src/engine/handlers/execution-handler.ts:132-161 | spelled out: of several parents each key is one that succeeded with data, and holds its data |
| DistributedLock.RunSound | src/utils/distributed-lock.ts:48-107 | in every run with time, a claim that still has time is stored under its key with the same token and deadline |
| DistributedLock.MutualExclusion | src/utils/distributed-lock.ts:48-62 | two workers that both still have time never hold the same key |
| DistributedLock.OthersCannotInterfere | src/utils/distributed-lock.ts:70-107 | no operation with another token, late or not, changes a lock whose holder still has time |
| DistributedLock.Lock.Acquire | src/utils/distributed-lock.ts:48-62 | succeeds exactly if no unexpired entry is there, and then owns the key until now plus the time to live |
| DistributedLock.Lock.Release | src/utils/distributed-lock.ts:70-84 | deletes the entry exactly if it is unexpired and has the token, and otherwise changes no entry |
| DistributedLock.Lock.Extend | src/utils/distributed-lock.ts:93-107 | moves the deadline exactly if the entry is unexpired and has the token; otherwise nothing changes |
| DistributedLock.Lock.WithLock | src/utils/distributed-lock.ts:119-204 | with timely ticks, whatever others do, the lock is held at the end of the function exactly if its running time is below the holding time, and is released |
| DistributedLock.Lock.RenewUntil | src/utils/distributed-lock.ts:148-168 | the renewal ticks lead to an expiry that exceeds the running time exactly if that is below the holding time |
| DistributedLock.HoldingTimeBound | src/utils/distributed-lock.ts:148-168 | the holding time in terms of the options, with the timer's floor of one millisecond; renewals add nothing with a ratio of one or more |
| DistributedLock.OptionsMean | src/utils/distributed-lock.ts:209-245 | the time to live for a number, for each operation type and for the defaults, and the defaults of the other options |
| Workflows.FirstWins | src/engine/handlers/child-enqueue-handler.ts:57-58 | of several nodes with an id, looking it up finds the first |
| Workflows.LastWins | src/engine/graph-validation.ts:45-47 | and a map of the nodes by id has the last |
| GraphValidation.HasCycleFromNode | src/engine/graph-validation.ts:79-115 | terminates on any graph; finds nothing exactly when what it finished is in postorder, and otherwise leaves a path with an edge back into itself |
| GraphValidation.DetectCycle | src/engine/graph-validation.ts:44-134 | an error exactly if the outputs of the last definitions have a cycle; it names the first node leading to one, followed by a simple path from it whose last node has an edge back |
| GraphValidation.FindUnreachableNodes | src/engine/graph-validation.ts:146-178 | terminates although the queue grows with repeats, and lists in order the nodes without an outputs path from the entry |
| GraphValidation.UnreachableIdsMember | src/engine/graph-validation.ts:146-178 | an id is listed exactly if it is a node's and not reachable |
| GraphValidation.UnreachableInOrder | src/engine/graph-validation.ts:146-178 | and they are listed in array order: the list of two arrays joined is the two lists joined |
| GraphValidation.FindMissingReferences | src/engine/graph-validation.ts:192-212 | each id that is mentioned and not a node's, once |
| GraphValidation.FindDuplicateNodeIds | src/engine/graph-validation.ts:224-237 | each id that two nodes share, once |
| GraphValidation.ValidateEntryNode | src/engine/graph-validation.ts:249-273 | an error exactly if a named entry is not a node, or there is neither an entry nor a trigger |
| GraphValidation.ValidateWorkflow | src/engine/graph-validation.ts:295-347 | valid exactly if the entry is acceptable, ids are unique, references closed and outputs acyclic; each report is a real violation, names exactly its nodes, and none is missing |
| GraphValidation.AcceptedHasOrder | src/engine/graph-validation.ts:295-347 | an accepted workflow has a topological order of its nodes |
| GraphValidation.OrderedHasNoCycle | src/engine/graph-validation.ts:44-68 | and a workflow with such an order has no cycle |
| FlowTree.FlowBuilder.BuildNodeFlow | src/engine/handlers/subworkflow-handler.ts:283-329 | the memoised recursion ends by rank and returns the complete unfolding of the node's inputs |
| FlowTree.FlowBuilder.BuildFlows | src/engine/handlers/subworkflow-handler.ts:337-338 | one unfolding per given node, in order |
| FlowTree.UnfoldingUnique | src/engine/handlers/subworkflow-handler.ts:283-329 | a node has one unfolding, so the memo changes nothing |
| FlowTree.BuildFlowTreeFromEntryNodes | src/engine/handlers/subworkflow-handler.ts:260-339 | one tree for each node without outputs, in order, each the unfolding of its node |
| FlowTree.FinalInOrder | src/engine/handlers/subworkflow-handler.ts:331-336 | each node without outputs is a root once, in array order |
| FlowTree.RootsAreFinal | src/engine/handlers/subworkflow-handler.ts:330-336 | the roots are exactly the nodes without outputs, and without such nodes all nodes |
| FlowTree.OccursIffAncestor | src/engine/handlers/subworkflow-handler.ts:295-302 | a node's job waits, directly or not, for exactly the node and its ancestors |
| FlowTree.UnfoldingLeaves | src/engine/handlers/subworkflow-handler.ts:304-323 | with closed references, exactly the nodes without inputs are leaves and carry the input data |
| FlowTree.ChildPerInput | src/engine/handlers/subworkflow-handler.ts:304-323 | a job waits for one job per input, in order, and carries the flow's ids, failure policy and, without inputs, its data |
| FlowTree.AcceptedInputsAcyclic | src/engine/handlers/subworkflow-handler.ts:283-329 | what the validator accepts is acyclic along inputs as well when links are symmetric, so the builder applies |
| FlowTree.AcceptedHasFinalNode | src/engine/handlers/subworkflow-handler.ts:331-339 | an accepted workflow that is not empty has a node without outputs, so the fallback to all nodes is never taken |
| FlowTree.ForestCoversEveryNode | src/engine/handlers/subworkflow-handler.ts:331-339 | every node of an accepted, symmetrically linked workflow is in some tree |
| DrizzleStore.NormaliseKeepsDecisions | src/db/drizzle-store.ts:299-322 | the table keeps success, skip and branch selection of a result, each by itself; it keeps all of it exactly if data and error are truthy or absent |
| DrizzleStore.InputDataThroughTable | src/engine/handlers/execution-handler.ts:132-161 | exactly when a node's input data read through the table is what it is from the results as written |
| DrizzleStore.Store.UpdateNodeResult | src/db/drizzle-store.ts:294-334 | the row is replaced and the cached field deleted if Redis answers, whatever the cache held; agreement of cache and table is kept exactly if the invalidation got through, nothing was cached, or what was cached says the same |
| DrizzleStore.Store.CacheNodeResult | src/db/drizzle-store.ts:180-195 | the row is replaced; the cache holds the result, or no longer has one, or still has the old one, as its deletion and its write get through; exactly when agreement is kept |
| DrizzleStore.Store.GetNodeResults | src/db/drizzle-store.ts:197-274 | a hit is returned and kept as it is, a miss is the row at the time of the select, and the cache is populated with those rows after whatever others updated in the meantime; each Redis call may fail; other executions stay as they are; agreement is kept exactly if the read was not overtaken |
| DrizzleStore.AgreementIff | src/db/drizzle-store.ts:180-334 | over every sequence of updates, caching updates, reads and evictions on any executions, cache and table agree throughout exactly if no read is overtaken by an update of a row it then caches |
| DrizzleStore.SequentialReadsAgree | src/db/drizzle-store.ts:180-334 | so operations one after the other agree, and every read returns exactly the table's rows up to what the table keeps, the empty id aside |
| DrizzleStore.Store.Perform | src/db/drizzle-store.ts:180-334 | each operation of such a sequence leaves the store as the sequence says and a read returns what it says |
| DrizzleStore.Store.PerformAll | src/db/drizzle-store.ts:180-334 | so a client of an empty store gets the answers of its sequence and leaves its contents |
| DrizzleStore.AgreeingReads | src/db/drizzle-store.ts:203-222 | if cache and table agree, a read returns what the table has, up to what the table keeps, except for the empty id |
| DrizzleStore.ReadsKeepWhatIsCached | src/db/drizzle-store.ts:203-222 | after any number of reads a cached result, stale or not, is still there and what every read returns |
| DrizzleStore.PopulationAfterUpdates | src/db/drizzle-store.ts:225-262 | a read that populates the cache after any concurrent updates leaves cache and table agreeing exactly if each row it populates still says what it read |
| DrizzleStore.Store.SetExecutionStatus | src/db/drizzle-store.ts:344-363 | changes the status of a running execution only |
| DrizzleStore.Store.UpdateNodeResultWithCompletion | src/db/drizzle-store.ts:777-837 | after the row is written, the returned pair is what all rows stand for, and it is stored once all nodes have rows |
| DrizzleStore.StatusIsFunctionOfRows | src/db/drizzle-store.ts:777-837 | after every sequence of calls on the workflow's own nodes, the stored status is running while rows are missing, then failed exactly if some row is unsuccessful and not skipped, else completed |
| DrizzleStore.FinalStatus | src/db/drizzle-store.ts:777-837 | after every sequence of calls: running while a node is without one, then failed exactly if some node's last result neither succeeded nor was skipped, else completed |
| InMemoryStore.SortByAccess | src/db/inmemory-store.ts:116-117 | all keys, least recently accessed first, ties in map order |
| InMemoryStore.Store.Cleanup | src/db/inmemory-store.ts:95-161 | removes with logs and traces every expired execution and of the rest those beyond the limit, each older than all that stay; what stays fits all bounds |
| InMemoryStore.EvictionIsDetermined | src/db/inmemory-store.ts:101-130 | that description fits one set of executions only |
| InMemoryStore.EvictionMeans | src/db/inmemory-store.ts:101-130 | in the terms of the clock: finished executions past their time to live go, and of the rest only those last accessed before all that stay, as far as the limit needs it |
| InMemoryStore.AccessProtects | src/db/inmemory-store.ts:112-130 | an execution used at some time is evicted only together with all that were last used before that time |
| InMemoryStore.NewestStays | src/db/inmemory-store.ts:115-130 | the newest execution is not among them |
| InMemoryStore.Store.CreateExecution | src/db/inmemory-store.ts:217-237 | the new execution is there afterwards, and the number of executions is within the limit again |
| InMemoryStore.Store.UpdateNodeResult | src/db/inmemory-store.ts:239-245 | sets the result, counts as an access, ignores unknown executions, and changes nothing else |
| InMemoryStore.Store.SetExecutionStatus | src/db/inmemory-store.ts:285-294 | replaces any status by any other and stamps terminal ones |
| InMemoryStore.Store.GetNodeResults | src/db/inmemory-store.ts:261-275 | exactly the stored results of the listed nodes; reading counts as an access |
| InMemoryStore.Store.GetPendingNodeCount | src/db/inmemory-store.ts:277-283 | total minus the nodes with results, all of them for an unknown execution |
| InMemoryStore.LastNKeeps | src/db/inmemory-store.ts:331-336 | a list over its limit keeps its last elements, in order |
| InMemoryStore.Store.AddLog | src/db/inmemory-store.ts:324-339 | each list is the last so many of all logs added since it was created |
| InMemoryStore.Store.AddSpan | src/db/inmemory-store.ts:350-378 | fails exactly without the execution, so traces belong to executions; keeps the last so many spans |
| InMemoryStore.Store.UpdateSpan | src/db/inmemory-store.ts:380-390 | merges the update, which may change the id, into the first span with the id and changes nothing else |
| InputData.ValidateInputData | src/engine/node-utils.ts:81-117 | terminates on every finite object graph and accepts exactly if different access paths end at different objects |
| InputData.Validate | src/engine/node-utils.ts:81-117 | the walk accepts a value exactly if nothing it leads to is met twice or was seen before, and has then seen exactly that |
| InputData.TreesAreAcyclic | src/engine/node-utils.ts:88-92 | a reachable cycle makes it reject |
| InputData.SharingIsRejected | src/engine/node-utils.ts:88-92 | so does an object held in two places, without any cycle |
| JobIds.IdFormats | src/engine/node-utils.ts:408-425 | the three forms of a job id |
| JobIds.SharedJobId | src/engine/node-utils.ts:416-425 | two child or resume jobs share an id exactly if they are the same, or one node's id is the other's with the resume mark appended |
| JobIds.JobIdsAreInjective | src/engine/node-utils.ts:416-425 | node ids that do not end in the resume mark give different jobs different ids |
| JobIds.SharedManualId | src/engine/workflow-engine.ts:490-491 | an entry job shares its id exactly with the child job of a node called `manual-` and the timestamp, if the entry is called `node`, or the rest of an entry id that starts with `node-` followed by `-manual-` and the timestamp; never with a resume job |

## Left out

- FlowTree.BuildFlowTreeFromEntryNodes: requires unique ids and no cycle along inputs, which `AcceptedInputsAcyclic` derives from validation; on a cyclic workflow the source recurses without end, and with duplicate ids it builds the last definition under the first one's position.
- FlowTree.FlowBuilder.BuildNodeFlow: trees are values, so that two parents share one job object in the source is not modelled; the flow is the same when it is added to the queue.
- SchedulerCode.Engine.ExecuteRegularNode: exceptions of store calls inside the handler, and a missing executor, are steps of the machine but not of this code form.
- SchedulerCode.Engine.RouteNodeExecution: the branch for sub-workflow nodes is not modelled.
- SchedulerCode.Engine.ProcessNodeJob: whether a throw is the last attempt is a parameter; the queue library counts attempts.
- SchedulerCode.Engine.CancelWorkflow: the list of pending jobs is a parameter, as it comes from the queue.
- DistributedLock.Lock.WithLock: manual renewal by the function and the expiry warning are not modelled, and timers fire on time.
- DistributedLock.RenewalInterval: a timer's period is the real product of time to live and ratio; the platform cuts off fractions of a millisecond.
- DrizzleStore.Store.UpdateNodeResultWithCompletion: log rows and completion times are not modelled.
- DrizzleStore.Store.GetNodeResults: the pipelined writes of one population get through all or none.
- InMemoryStore.Store.Cleanup: stamps of log lists and traces are not modelled, as nothing reads them.
- Queue internals: retention of finished jobs (job ids are remembered for ever), stalled jobs, priorities, and entry jobs with a caller-chosen job id, which several entry nodes would share.
- Sub-workflow nodes in the run model: the aggregator overwrites parent results and uses its own job ids.
- Moving jobs aside on pause and promoting delayed jobs on resume; the machine has the status and the five-second recheck.
- Database writers that bypass cache and status guard: permanent failures, timeouts, bulk persistence.
- Rows of several executions in one run: the machine follows one execution, the stores all of them.
- Crash recovery, the dead-letter queue, scheduling, webhooks, replay, events, metrics, logging, texts of messages, input and output mappings, schemas and the user interface.
