/** What a step can change: at most one result, one added job, and the job that moves. */
module SchedulerEffects {
  import opened Graphs
  import opened Workflows
  import opened Scheduler

  datatype ResultWrite = NoWrite | Writes(node: Id, r: ExecutionResult)

  datatype JobAdd = NoAdd | Adds(k: JobKey, readyAt: int)

  /** The job whose processing a step advances. */
  predicate Moves(a: Action, k: JobKey) {
    (a.Begin? || a.Proceed? || a.ExecutorReturns? || a.Throw? || a.RecordFailure?) && a.k == k
  }

  predicate AtPc(s: State, k: JobKey) {
    k in s.jobs && s.jobs[k].Active?
  }

  function WriteOf(s: State, a: Action): ResultWrite {
    if a.Proceed? && AtPc(s, a.k) then
      var pc := s.jobs[a.k].pc;
      if pc.WriteResult? then Writes(a.k.node, pc.r)
      else if pc.Releasing? && pc.tasks != [] && pc.tasks[0].Consider? && !pc.tasks[0].run then
        Writes(pc.tasks[0].child, SKIPPED_RESULT)
      else NoWrite
    else if a.RecordFailure? && a.k in s.jobs && s.jobs[a.k] == Exhausted(Unrecorded) then
      Writes(a.k.node, ErrorResult("Node execution failed"))
    else if a.CacheReturned? && a.k in s.jobs && s.jobs[a.k].Returned? then Writes(a.k.node, s.jobs[a.k].r)
    else NoWrite
  }

  function AddOf(wf: Workflow, s: State, a: Action): JobAdd {
    if a.EnqueueEntry? && s.starting != [] then Adds(Entry(s.starting[0]), s.now)
    else if a.Proceed? && CanProceed(wf, s, a.k) then
      var pc := s.jobs[a.k].pc;
      if pc.Releasing? && pc.tasks != [] && pc.tasks[0].Enqueue? then Adds(Child(pc.tasks[0].child), s.now)
      else if pc.DelayEnqueue? then Adds(Resumed(a.k.node), s.now + DelayOf(FindNode(wf.nodes, a.k.node).value).value)
      else NoAdd
    else NoAdd
  }

  function Written(results: map<Id, ExecutionResult>, w: ResultWrite): map<Id, ExecutionResult> {
    if w.Writes? then results[w.node := w.r] else results
  }

  function NowResolved(resolved: set<Id>, w: ResultWrite): set<Id> {
    if w.Writes? && w.r.Resolved() then resolved + {w.node} else resolved
  }

  lemma FindNodeId(wf: Workflow, n: Id)
    ensures FindNode(wf.nodes, n).Some? ==> FindNode(wf.nodes, n).value.id == n
  {
  }

  ghost predicate ResultsFollow(s: State, s': State, w: ResultWrite) {
    s'.results == Written(s.results, w) && s'.hist.resolved == NowResolved(s.hist.resolved, w)
  }

  /** A step writes at most one result. */
  lemma ResultEffect(wf: Workflow, s: State, a: Action)
    requires Enabled(wf, s, a)
    ensures ResultsFollow(s, Apply(wf, s, a), WriteOf(s, a))
  {
    hide FindNode, DelayedMarker, ContinueOnFailResult, Tasks, Taken;
    if a.Proceed? {
      ProceedResults(wf, s, a.k);
    }
  }

  lemma ProceedResults(wf: Workflow, s: State, k: JobKey)
    requires CanProceed(wf, s, k)
    ensures ResultsFollow(s, ProceedStep(wf, s, k), WriteOf(s, Proceed(k)))
  {
    FindNodeId(wf, k.node);
    var node, pc := FindNode(wf.nodes, k.node).value, s.jobs[k].pc;
    EffectResults(s, k, node, pc);
    hide NextJob, FindNode, Effect, DelayOf;
  }

  lemma EffectResults(s: State, k: JobKey, node: Node, pc: Pc)
    requires s.jobs.Keys >= {k} && s.jobs[k] == Active(pc) && node.id == k.node && (pc.DelayEnqueue? ==> DelayOf(node).Some?)
    ensures ResultsFollow(s, Effect(s, k, node, pc), WriteOf(s, Proceed(k)))
  {
    if pc.Releasing? {
      ReleaseResults(s, pc.tasks);
      hide DelayOf, WithAdded;
    } else if pc.DelayEnqueue? {
      StartResults(s, node.id, DelayOf(node).value);
      hide DelayOf, StartDelay;
    } else {
      hide DelayOf, StartDelay, ReleaseEffect;
    }
  }

  lemma StartResults(s: State, n: Id, d: int)
    ensures StartDelay(s, n, d).results == s.results && StartDelay(s, n, d).hist.resolved == s.hist.resolved
  {
    hide Taken, FirstStart;
  }

  lemma ReleaseResults(s: State, tasks: seq<Task>)
    ensures tasks == [] || tasks[0].Enqueue? || tasks[0].run ==>
      ReleaseEffect(s, tasks).results == s.results && ReleaseEffect(s, tasks).hist.resolved == s.hist.resolved
  {
    hide Taken;
  }

  /** Apart from the job that moves and the one added, the queue stays as it is. */
  ghost predicate QueueEffect(s: State, s': State, a: Action, add: JobAdd) {
    && s'.hist.added == (if add.Adds? && add.k !in s.jobs && add.k in s'.jobs then s.hist.added + {add.k} else s.hist.added)
    && (forall k :: k in s'.jobs && !Moves(a, k) ==>
          (k in s.jobs && s'.jobs[k] == s.jobs[k])
          || (k !in s.jobs && add.Adds? && add.k == k && s'.jobs[k] == Waiting(add.readyAt)))
    && (forall k :: k in s.jobs && k !in s'.jobs ==> a == RemoveWaiting(k) && s.jobs[k].Waiting?)
    && (forall k :: Moves(a, k) ==> k in s.jobs && k in s'.jobs)
    && (add.Adds? && add.k !in s'.jobs ==> Taken(s'.stamps, s.jobs, add.k))
    && s'.stamps == (if a.EnqueueEntry? && s.starting != [] then WithStamp(s, s.starting[0], a.timestamp).stamps else s.stamps)
  }

  lemma TakenBySelf(stamps: map<Id, string>, jobs: map<JobKey, JobState>, k: JobKey)
    ensures k in jobs ==> Taken(stamps, jobs, k)
  {
  }

  lemma MoveOnly(s: State, s': State, a: Action, k: JobKey, j: JobState)
    requires Moves(a, k) && k in s.jobs
    requires s'.jobs == s.jobs[k := j] && s'.hist.added == s.hist.added && s'.stamps == s.stamps
    ensures QueueEffect(s, s', a, NoAdd)
  {
  }

  lemma AddAndMove(s: State, s': State, a: Action, k: JobKey, j: JobState, added: JobKey, t: int)
    requires Moves(a, k) && k in s.jobs
    requires s'.jobs == WithAdded(s, added, t).jobs[k := j] && s'.hist.added == WithAdded(s, added, t).hist.added
    requires s'.stamps == s.stamps
    ensures QueueEffect(s, s', a, Adds(added, t))
  {
    TakenBySelf(s.stamps, s.jobs, added);
    hide Taken;
  }

  lemma ProceedQueue(wf: Workflow, s: State, k: JobKey)
    requires CanProceed(wf, s, k)
    ensures QueueEffect(s, ProceedStep(wf, s, k), Proceed(k), AddOf(wf, s, Proceed(k)))
  {
    var a, s', node, pc := Proceed(k), ProceedStep(wf, s, k), FindNode(wf.nodes, k.node).value, s.jobs[k].pc;
    EffectQueue(wf, s, k);
    hide NextJob, FindNode, Effect, QueueEffect, Taken, AddOf, DelayOf, WithAdded;
    var j := NextJob(wf, s, k, node, pc);
    match AddOf(wf, s, a)
    case NoAdd => MoveOnly(s, s', a, k, j);
    case Adds(added, t) => AddAndMove(s, s', a, k, j, added, t);
  }

  /** The queue after the operation, before the job has moved. */
  ghost predicate Queued(s: State, s': State, add: JobAdd) {
    && s'.stamps == s.stamps
    && s'.jobs == (if add.Adds? then WithAdded(s, add.k, add.readyAt).jobs else s.jobs)
    && s'.hist.added == (if add.Adds? then WithAdded(s, add.k, add.readyAt).hist.added else s.hist.added)
  }

  lemma EffectQueue(wf: Workflow, s: State, k: JobKey)
    requires CanProceed(wf, s, k)
    ensures Queued(s, Effect(s, k, FindNode(wf.nodes, k.node).value, s.jobs[k].pc), AddOf(wf, s, Proceed(k)))
  {
    FindNodeId(wf, k.node);
    hide Effect, AddOf, Queued, FindNode, DelayOf;
    var node, pc := FindNode(wf.nodes, k.node).value, s.jobs[k].pc;
    match pc
    case Releasing(r, tasks) => ReleasingQueue(wf, s, k, node, r, tasks);
    case DelayEnqueue => StartingQueue(wf, s, k, node);
    case _ => OtherQueue(wf, s, k, node, pc);
  }

  lemma ReleasingQueue(wf: Workflow, s: State, k: JobKey, node: Node, r: ExecutionResult, tasks: seq<Task>)
    requires CanProceed(wf, s, k) && s.jobs[k].pc == Releasing(r, tasks)
    ensures Queued(s, Effect(s, k, node, Releasing(r, tasks)), AddOf(wf, s, Proceed(k)))
  {
    hide Taken, FindNode, DelayOf;
  }

  lemma StartingQueue(wf: Workflow, s: State, k: JobKey, node: Node)
    requires CanProceed(wf, s, k) && s.jobs[k].pc.DelayEnqueue? && FindNode(wf.nodes, k.node) == Some(node) && node.id == k.node
    ensures Queued(s, Effect(s, k, node, DelayEnqueue), AddOf(wf, s, Proceed(k)))
  {
    hide Taken, FindNode, DelayOf, FirstStart;
  }

  lemma OtherQueue(wf: Workflow, s: State, k: JobKey, node: Node, pc: Pc)
    requires CanProceed(wf, s, k) && s.jobs[k].pc == pc && !pc.Releasing? && !pc.DelayEnqueue?
    ensures Queued(s, Effect(s, k, node, pc), AddOf(wf, s, Proceed(k)))
  {
    hide StartDelay, ReleaseEffect, DelayOf, FindNode;
  }

  /** Moves of the environment. */
  lemma EnvironmentQueue(wf: Workflow, s: State, a: Action)
    requires Enabled(wf, s, a) && (a.CacheReturned? || a.ExpireLock? || a.Cancel? || a.RemoveWaiting? || a.Pause? || a.Tick?)
    ensures QueueEffect(s, Apply(wf, s, a), a, AddOf(wf, s, a))
  {
    hide Taken, ResolvedIn;
  }

  lemma EntryQueue(wf: Workflow, s: State, a: Action)
    requires Enabled(wf, s, a) && a.EnqueueEntry?
    ensures QueueEffect(s, Apply(wf, s, a), a, AddOf(wf, s, a))
  {
    TakenBySelf(WithStamp(s, s.starting[0], a.timestamp).stamps, s.jobs, Entry(s.starting[0]));
    hide Taken;
  }

  /** A step adds at most one job and moves at most one. */
  lemma QueueChanges(wf: Workflow, s: State, a: Action)
    requires Enabled(wf, s, a)
    ensures QueueEffect(s, Apply(wf, s, a), a, AddOf(wf, s, a))
  {
    hide QueueEffect, ProceedStep, ContinueOnFailResult, CanProceed;
    if a.Proceed? {
      hide AddOf;
      ProceedQueue(wf, s, a.k);
    } else if a.Begin? || a.ExecutorReturns? || a.Throw? || a.RecordFailure? {
      MoveOnly(s, Apply(wf, s, a), a, a.k, Apply(wf, s, a).jobs[a.k]);
    } else if a.EnqueueEntry? {
      EntryQueue(wf, s, a);
    } else {
      EnvironmentQueue(wf, s, a);
    }
  }

  /** Where a step takes the job it moves. */
  function MovedJob(wf: Workflow, s: State, a: Action, k: JobKey): JobState
    requires Enabled(wf, s, a) && Moves(a, k)
  {
    match a
    case Begin(_) => Active(ReadOwn)
    case Proceed(_) => NextJob(wf, s, k, FindNode(wf.nodes, k.node).value, s.jobs[k].pc)
    case ExecutorReturns(_, r) => Active(WriteResult(r))
    case Throw(_, safe, retry) => AfterThrow(s.now, safe, retry)
    case RecordFailure(_) => Exhausted(if s.jobs[k].stage == Unrecorded then ResultRecorded else StatusRecorded)
  }

  lemma JobMoves(wf: Workflow, s: State, a: Action, k: JobKey)
    requires Enabled(wf, s, a) && Moves(a, k)
    ensures k in s.jobs && k in Apply(wf, s, a).jobs && Apply(wf, s, a).jobs[k] == MovedJob(wf, s, a, k)
  {
    hide NextJob, FindNode, DelayOf, Effect, Taken;
  }

  /** The clock, and what the history records besides results and jobs. */
  ghost predicate HistoryEffect(s: State, s': State, a: Action) {
    && s'.now == (if a.Tick? then s.now + a.dt else s.now)
    && s'.hist.skipped == (if Skips(s, a) then s.hist.skipped + {s.jobs[a.k].pc.tasks[0].child} else s.hist.skipped)
    && s'.hist.delayStart == (if StartsDelay(s, a) then FirstStart(s.hist.delayStart, a.k.node, s.now) else s.hist.delayStart)
  }

  predicate Skips(s: State, a: Action) {
    && a.Proceed? && AtPc(s, a.k) && s.jobs[a.k].pc.Releasing?
    && var tasks := s.jobs[a.k].pc.tasks; tasks != [] && tasks[0].Consider? && !tasks[0].run
  }

  predicate StartsDelay(s: State, a: Action) {
    a.Proceed? && AtPc(s, a.k) && s.jobs[a.k].pc.DelayEnqueue?
  }

  /** An operation keeps the clock and what is to be started, and notes skips and delays. */
  lemma EffectHistory(s: State, k: JobKey, node: Node, pc: Pc)
    requires pc.DelayEnqueue? ==> DelayOf(node).Some?
    ensures var s' := Effect(s, k, node, pc);
      && s'.now == s.now && s'.starting == s.starting && s'.cancelling == s.cancelling
      && s'.hist.skipped == (if pc.Releasing? && pc.tasks != [] && pc.tasks[0].Consider? && !pc.tasks[0].run
                             then s.hist.skipped + {pc.tasks[0].child} else s.hist.skipped)
      && s'.hist.delayStart == (if pc.DelayEnqueue? then FirstStart(s.hist.delayStart, node.id, s.now) else s.hist.delayStart)
  {
    hide FirstStart, DelayOf, ResolvedIn, Taken;
  }

  lemma ProceedHistory(wf: Workflow, s: State, k: JobKey)
    requires CanProceed(wf, s, k)
    ensures HistoryEffect(s, ProceedStep(wf, s, k), Proceed(k))
  {
    FindNodeId(wf, k.node);
    EffectHistory(s, k, FindNode(wf.nodes, k.node).value, s.jobs[k].pc);
    hide NextJob, FindNode, FirstStart, DelayOf, Effect;
  }

  lemma HistoryChanges(wf: Workflow, s: State, a: Action)
    requires Enabled(wf, s, a)
    ensures HistoryEffect(s, Apply(wf, s, a), a)
  {
    hide FirstStart, AfterThrow, ErrorResult, ProceedStep, CanProceed, Taken;
    if a.Proceed? {
      hide HistoryEffect;
      ProceedHistory(wf, s, a.k);
    }
  }

  /** The status a step asks for, if any. */
  function StatusWanted(s: State, a: Action): Option<Status> {
    match a
    case Cancel => Some(Cancelled)
    case Pause => Some(Paused)
    case RecordFailure(k) =>
      if k in s.jobs && s.jobs[k].Exhausted? && s.jobs[k].stage != Unrecorded then Some(Failed) else None
    case Proceed(k) =>
      if AtPc(s, k) && s.jobs[k].pc.MarkFailed? then Some(Failed)
      else if AtPc(s, k) && s.jobs[k].pc.LockedComplete? then Some(Completed)
      else None
    case _ => None
  }

  lemma EffectStatus(s: State, k: JobKey, node: Node, pc: Pc)
    requires pc.DelayEnqueue? ==> DelayOf(node).Some?
    ensures Effect(s, k, node, pc).status ==
      if pc.MarkFailed? then Guarded(s.status, Failed)
      else if pc.LockedComplete? then Guarded(s.status, Completed)
      else s.status
  {
    hide Taken, ResolvedIn, DelayOf, FirstStart;
  }

  /** Every change of status is a guarded one. */
  lemma StatusChanges(wf: Workflow, s: State, a: Action)
    requires Enabled(wf, s, a)
    ensures Apply(wf, s, a).status == match StatusWanted(s, a)
      case None => s.status
      case Some(status) => Guarded(s.status, status)
  {
    hide Guarded;
    if a.Proceed? {
      EffectStatus(s, a.k, FindNode(wf.nodes, a.k.node).value, s.jobs[a.k].pc);
      hide Effect, NextJob, FindNode, DelayOf;
    } else {
      hide ProceedStep, AfterThrow, Taken, ErrorResult;
    }
  }

  /** Entries leave the list in order, one with each step that enqueues one. */
  lemma StartingChanges(wf: Workflow, s: State, a: Action)
    requires Enabled(wf, s, a)
    ensures var starting := Apply(wf, s, a).starting;
      if a.EnqueueEntry? then
        && s.starting == [s.starting[0]] + starting
        && AddOf(wf, s, a).Adds? && AddOf(wf, s, a).k == Entry(s.starting[0])
      else starting == s.starting
  {
    if a.Proceed? {
      EffectHistory(s, a.k, FindNode(wf.nodes, a.k.node).value, s.jobs[a.k].pc);
      hide NextJob, FindNode, DelayOf, Effect;
    } else {
      hide ProceedStep, Taken, AfterThrow, ErrorResult;
    }
  }

  /** A cancellation stays, and only after it are jobs removed. */
  lemma NotCancelling(wf: Workflow, s: State, a: Action)
    requires Enabled(wf, s, a) && !Apply(wf, s, a).cancelling
    ensures !s.cancelling && !a.RemoveWaiting?
  {
    if a.Proceed? {
      EffectHistory(s, a.k, FindNode(wf.nodes, a.k.node).value, s.jobs[a.k].pc);
      hide NextJob, FindNode, DelayOf, Effect;
    } else {
      hide ProceedStep, Taken, AfterThrow, ErrorResult;
    }
  }
}
