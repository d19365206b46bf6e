/**
 * One workflow execution as a step machine. Any number of jobs are processed at once; every
 * step is one store, queue or lock operation of one of them, or a move of the environment.
 */
module Scheduler {
  import opened Graphs
  import opened Workflows
  import opened GraphValidation
  import opened JobIds
  import opened NodeInputs

  datatype Status = Running | Completed | Failed | Cancelled | Paused

  /** Terminal statuses are final: the store updates a running execution only. */
  predicate Terminal(status: Status) {
    status == Completed || status == Failed || status == Cancelled
  }

  /** The three job-id schemes: engine-enqueued entry, released child, resumed delay. */
  datatype JobKey = Entry(node: Id) | Child(node: Id) | Resumed(node: Id)

  /** What is left of the loop over outputs: children to look at, and one decided to be enqueued. */
  datatype Task = Consider(child: Id, run: bool) | Enqueue(child: Id)

  /** Where a job's processing stands. */
  datatype Pc =
    | ReadOwn
    | ReadStatus
    | Execute
    | WriteResult(r: ExecutionResult)
    | MarkFailed(r: ExecutionResult)
    | Releasing(r: ExecutionResult, tasks: seq<Task>)
    | AcquireLock(r: ExecutionResult)
    | LockedStatus(r: ExecutionResult)
    | LockedCount(r: ExecutionResult)
    | LockedComplete(r: ExecutionResult)
    | Unlock(r: ExecutionResult)
    | DelayEnqueue
    | ResumedStatus
    | ResumedGather
    | Finish(r: ExecutionResult)

  datatype FailureStage = Unrecorded | ResultRecorded | StatusRecorded

  datatype JobState =
    | Waiting(readyAt: int)
    | Active(pc: Pc)
    | Returned(r: ExecutionResult)
    | Exhausted(stage: FailureStage)

  /** What happened so far; no step reads it. */
  datatype History = History(
    added: set<JobKey>,
    resolved: set<Id>,
    skipped: set<Id>,
    delayStart: map<Id, int>)

  datatype State = State(
    now: int,
    starting: seq<Id>,
    results: map<Id, ExecutionResult>,
    status: Status,
    jobs: map<JobKey, JobState>,
    stamps: map<Id, string>,
    lock: Option<JobKey>,
    cancelling: bool,
    hist: History)

  datatype Action =
    | EnqueueEntry(timestamp: string)
    | Begin(k: JobKey)
    | Proceed(k: JobKey)
    | ExecutorReturns(k: JobKey, r: ExecutionResult)
    | Throw(k: JobKey, safe: bool, retry: bool)
    | RecordFailure(k: JobKey)
    | CacheReturned(k: JobKey)
    | ExpireLock
    | Cancel
    | RemoveWaiting(k: JobKey)
    | Pause
    | Tick(dt: int)

  // ------------------------------------------------------ entry selection

  function WithoutInputs(nodes: seq<Node>): seq<Id> {
    if nodes == [] then []
    else (if nodes[0].inputs == [] then [nodes[0].id] else []) + WithoutInputs(nodes[1..])
  }

  /** The named entry, or else every node without inputs. Empty when the engine throws. */
  function EntryNodes(wf: Workflow): seq<Id> {
    if wf.entryNodeId != "" then
      if FindNode(wf.nodes, wf.entryNodeId).Some? then [wf.entryNodeId] else []
    else WithoutInputs(wf.nodes)
  }

  function Init(wf: Workflow): State {
    State(0, EntryNodes(wf), map[], Running, map[], map[], None, false, History({}, {}, {}, map[]))
  }

  // ------------------------------------------------------ store and queue

  function WithJob(s: State, k: JobKey, j: JobState): State {
    s.(jobs := s.jobs[k := j])
  }

  function WithPc(s: State, k: JobKey, pc: Pc): State {
    WithJob(s, k, Active(pc))
  }

  function WithResult(s: State, n: Id, r: ExecutionResult): State {
    s.(results := s.results[n := r],
       hist := s.hist.(resolved := if r.Resolved() then s.hist.resolved + {n} else s.hist.resolved))
  }

  /** The string that identifies a job in the queue, after the execution id that all share. */
  function JobIdOf(stamps: map<Id, string>, k: JobKey): string {
    match k
    case Entry(n) => ManualJobId("", n, if n in stamps then stamps[n] else "0")
    case Child(n) => GenerateNodeJobId("", n, false)
    case Resumed(n) => GenerateNodeJobId("", n, true)
  }

  /** Some job in the queue has the id of this one. */
  predicate Taken(stamps: map<Id, string>, jobs: map<JobKey, JobState>, k: JobKey) {
    exists k' :: k' in jobs && JobIdOf(stamps, k') == JobIdOf(stamps, k)
  }

  /** Adding a job whose id is in the queue changes nothing. */
  function WithAdded(s: State, k: JobKey, readyAt: int): State {
    if Taken(s.stamps, s.jobs, k) then s
    else s.(jobs := s.jobs[k := Waiting(readyAt)], hist := s.hist.(added := s.hist.added + {k}))
  }

  /** The engine makes an entry job's id with the time. */
  function WithStamp(s: State, n: Id, timestamp: string): State {
    if Entry(n) in s.jobs then s else s.(stamps := s.stamps[n := timestamp])
  }

  /** The update is conditional on the execution still running. */
  function Guarded(current: Status, status: Status): Status {
    if current == Running then status else current
  }

  function WithStatus(s: State, status: Status): State {
    s.(status := Guarded(s.status, status))
  }

  predicate ResolvedIn(results: map<Id, ExecutionResult>, n: Id) {
    n in results && results[n].Resolved()
  }

  predicate AllResolved(results: map<Id, ExecutionResult>, ids: seq<Id>) {
    forall i :: 0 <= i < |ids| ==> ResolvedIn(results, ids[i])
  }

  predicate ShouldRun(nextNodes: Option<seq<Id>>, child: Id) {
    nextNodes.None? || child in nextNodes.value
  }

  function Tasks(outputs: seq<Id>, nextNodes: Option<seq<Id>>): (tasks: seq<Task>)
    ensures |tasks| == |outputs|
    ensures forall i :: 0 <= i < |outputs| ==> tasks[i] == Consider(outputs[i], ShouldRun(nextNodes, outputs[i]))
  {
    seq(|outputs|, i requires 0 <= i < |outputs| => Consider(outputs[i], ShouldRun(nextNodes, outputs[i])))
  }

  function OutputsOf(wf: Workflow, n: Id): seq<Id> {
    match FindNode(wf.nodes, n) case None => [] case Some(node) => node.outputs
  }

  /** The result of the initial delay step, which the result listener must not store. */
  function DelayedMarker(resumeTime: int, duration: int): ExecutionResult {
    SuccessResult(Some(Obj(map["delayed" := Bool(true), "expectedResumeTime" := Num(resumeTime), "duration" := Num(duration)])))
  }

  predicate IsDelayedMarker(r: ExecutionResult) {
    r.data.Some? && r.data.value.Obj? && "delayed" in r.data.value.fields && r.data.value.fields["delayed"] == Bool(true)
  }

  /** How a failing node with continueOnFail is recorded. */
  function ContinueOnFailResult(message: string): ExecutionResult {
    ExecutionResult(true,
      Some(Obj(map["error" := Str(message),
                   "_metadata" := Obj(map["continuedOnFail" := Bool(true), "originalError" := Str(message)])])),
      Some(message), None, false)
  }

  function DelayOf(node: Node): Option<int> {
    if node.kind.Delay? then ResolveDuration(node.kind.config) else None
  }

  const PAUSE_RECHECK_MS := 5000

  // ------------------------------------------------------ one job's steps

  /** After the status gate: route by node type. */
  function Route(k: JobKey, node: Node): Pc {
    if node.kind.Regular? then Execute
    else if !ValidDuration(DelayOf(node)) then Finish(ErrorResult("Invalid delay duration"))
    else if k.Resumed? then ResumedStatus
    else DelayEnqueue
  }

  function Gate(s: State, k: JobKey, node: Node): JobState {
    if s.status == Cancelled then Active(Finish(ErrorResult("Workflow execution cancelled")))
    else if s.status == Paused then Waiting(s.now + PAUSE_RECHECK_MS)
    else Active(Route(k, node))
  }

  function FirstStart(delayStart: map<Id, int>, n: Id, now: int): map<Id, int> {
    if n in delayStart then delayStart else delayStart[n := now]
  }

  function StartDelay(s: State, n: Id, duration: int): State {
    var s1 := WithAdded(s, Resumed(n), s.now + duration);
    s1.(hist := s1.hist.(delayStart := FirstStart(s1.hist.delayStart, n, s.now)))
  }

  function Skip(s: State, child: Id): State {
    var s1 := WithResult(s, child, SKIPPED_RESULT);
    s1.(hist := s1.hist.(skipped := s1.hist.skipped + {child}))
  }

  /** What the first pending task of the loop over outputs does. */
  function ReleaseEffect(s: State, tasks: seq<Task>): State {
    if tasks == [] then s
    else match tasks[0]
      case Consider(c, false) => Skip(s, c)
      case Consider(c, true) => s
      case Enqueue(c) => WithAdded(s, Child(c), s.now)
  }

  predicate Ready(wf: Workflow, results: map<Id, ExecutionResult>, n: Id) {
    FindNode(wf.nodes, n).Some? && AllResolved(results, FindNode(wf.nodes, n).value.inputs)
  }

  /** How the loop over outputs goes on: a skipped child's own outputs come next. */
  function AfterTask(wf: Workflow, results: map<Id, ExecutionResult>, tasks: seq<Task>): seq<Task>
    requires tasks != []
  {
    var rest := tasks[1..];
    match tasks[0]
    case Consider(c, false) => Tasks(OutputsOf(wf, c), None) + rest
    case Consider(c, true) => if Ready(wf, results, c) then [Enqueue(c)] + rest else rest
    case Enqueue(_) => rest
  }

  /** What a job's next operation does to the store, the queue and the lock. */
  function Effect(s: State, k: JobKey, node: Node, pc: Pc): State
    requires pc.DelayEnqueue? ==> DelayOf(node).Some?
  {
    match pc
    case WriteResult(r) => WithResult(s, node.id, r)
    case MarkFailed(_) => WithStatus(s, Failed)
    case Releasing(_, tasks) => ReleaseEffect(s, tasks)
    case AcquireLock(_) => if s.lock.None? then s.(lock := Some(k)) else s
    case LockedComplete(_) => WithStatus(s, Completed)
    case Unlock(_) => if s.lock == Some(k) then s.(lock := None) else s
    case DelayEnqueue => StartDelay(s, node.id, DelayOf(node).value)
    case _ => s
  }

  /** Jobs of a node of this name return without having been looked at. */
  const ROOT_NODE := "__root__"
  const ROOT_RESULT := SuccessResult(Some(Obj(map["message" := Str("Virtual root node")])))

  /** Where that operation takes the job. An executor runs until it returns or throws. */
  function NextJob(wf: Workflow, s: State, k: JobKey, node: Node, pc: Pc): JobState
    requires pc.DelayEnqueue? ==> DelayOf(node).Some?
  {
    match pc
    case ReadOwn =>
      if k.node == ROOT_NODE then Active(Finish(ROOT_RESULT))
      else if ResolvedIn(s.results, k.node) then Active(Finish(s.results[k.node]))
      else Active(ReadStatus)
    case ReadStatus => Gate(s, k, node)
    case Execute => Active(Execute)
    case WriteResult(r) =>
      Active(if r.success then Releasing(r, Tasks(node.outputs, r.nextNodes)) else MarkFailed(r))
    case MarkFailed(r) => Active(Finish(r))
    case Releasing(r, tasks) =>
      Active(if tasks == [] then AcquireLock(r) else Releasing(r, AfterTask(wf, s.results, tasks)))
    case AcquireLock(r) => Active(if s.lock.None? then LockedStatus(r) else Finish(r))
    case LockedStatus(r) => Active(if Terminal(s.status) then Unlock(r) else LockedCount(r))
    case LockedCount(r) => Active(if |wf.nodes| - |s.results| == 0 then LockedComplete(r) else Unlock(r))
    case LockedComplete(r) => Active(Unlock(r))
    case Unlock(r) => Active(Finish(r))
    case DelayEnqueue =>
      var duration := DelayOf(node).value;
      Active(Finish(DelayedMarker(s.now + duration, duration)))
    case ResumedStatus =>
      if s.status == Cancelled then Active(Finish(ErrorResult("Workflow execution cancelled")))
      else Active(ResumedGather)
    case ResumedGather =>
      Active(WriteResult(SuccessResult(NodeInputData(Some(Obj(map[])), node.inputs, s.results))))
    case Finish(r) => Returned(r)
  }

  predicate CanProceed(wf: Workflow, s: State, k: JobKey) {
    && k in s.jobs && s.jobs[k].Active? && !s.jobs[k].pc.Execute?
    && FindNode(wf.nodes, k.node).Some?
    && (s.jobs[k].pc.DelayEnqueue? ==> ValidDuration(DelayOf(FindNode(wf.nodes, k.node).value)))
  }

  function ProceedStep(wf: Workflow, s: State, k: JobKey): State
    requires CanProceed(wf, s, k)
  {
    var node := FindNode(wf.nodes, k.node).value;
    var pc := s.jobs[k].pc;
    WithJob(Effect(s, k, node, pc), k, NextJob(wf, s, k, node, pc))
  }

  // ------------------------------------------------------ all steps

  /** The part of processing whose exceptions continueOnFail can turn into a result. */
  predicate InTry(pc: Pc) {
    !pc.ReadOwn? && !pc.ReadStatus? && !pc.DelayEnqueue? && !pc.ResumedStatus? && !pc.ResumedGather? && !pc.Finish?
  }

  /**
   * Attempts are not counted: a throw may be retried or be the last one. An executor result is
   * never both unsuccessful and skipped.
   */
  predicate Enabled(wf: Workflow, s: State, a: Action) {
    match a
    case EnqueueEntry(timestamp) => s.starting != [] && IsDigits(timestamp)
    case Begin(k) => k in s.jobs && s.jobs[k].Waiting? && s.jobs[k].readyAt <= s.now
    case Proceed(k) => CanProceed(wf, s, k)
    case ExecutorReturns(k, r) =>
      && k in s.jobs && s.jobs[k] == Active(Execute)
      && FindNode(wf.nodes, k.node).Some? && FindNode(wf.nodes, k.node).value.kind.Regular?
      && (r.skipped ==> r.success)
    case Throw(k, safe, retry) =>
      && k in s.jobs && s.jobs[k].Active?
      && (safe ==> InTry(s.jobs[k].pc) && FindNode(wf.nodes, k.node).Some?
                   && FindNode(wf.nodes, k.node).value.kind == Regular(true))
    case RecordFailure(k) => k in s.jobs && s.jobs[k].Exhausted? && s.jobs[k].stage != StatusRecorded
    case CacheReturned(k) => k in s.jobs && s.jobs[k].Returned? && !IsDelayedMarker(s.jobs[k].r)
    case ExpireLock => true
    case Cancel => true
    case RemoveWaiting(k) => s.cancelling && k in s.jobs && s.jobs[k].Waiting?
    case Pause => true
    case Tick(dt) => dt > 0
  }

  function AfterThrow(now: int, safe: bool, retry: bool): JobState {
    if safe then Active(WriteResult(ContinueOnFailResult("Node execution failed")))
    else if retry then Waiting(now)
    else Exhausted(Unrecorded)
  }

  /** A throw under the lock releases it; a release that throws leaves it until it expires. */
  function AfterThrowLock(lock: Option<JobKey>, k: JobKey, pc: Pc): Option<JobKey> {
    if lock == Some(k) && (pc.LockedStatus? || pc.LockedCount? || pc.LockedComplete?) then None else lock
  }

  function Apply(wf: Workflow, s: State, a: Action): State
    requires Enabled(wf, s, a)
  {
    match a
    case EnqueueEntry(timestamp) =>
      WithAdded(WithStamp(s, s.starting[0], timestamp), Entry(s.starting[0]), s.now).(starting := s.starting[1..])
    case Begin(k) => WithPc(s, k, ReadOwn)
    case Proceed(k) => ProceedStep(wf, s, k)
    case ExecutorReturns(k, r) => WithPc(s, k, WriteResult(r))
    case Throw(k, safe, retry) =>
      WithJob(s, k, AfterThrow(s.now, safe, retry)).(lock := AfterThrowLock(s.lock, k, s.jobs[k].pc))
    case RecordFailure(k) =>
      if s.jobs[k].stage == Unrecorded then
        WithJob(WithResult(s, k.node, ErrorResult("Node execution failed")), k, Exhausted(ResultRecorded))
      else WithJob(WithStatus(s, Failed), k, Exhausted(StatusRecorded))
    case CacheReturned(k) => WithResult(s, k.node, s.jobs[k].r)
    case ExpireLock => s.(lock := None)
    case Cancel => s.(status := Guarded(s.status, Cancelled), cancelling := true)
    case RemoveWaiting(k) => s.(jobs := s.jobs - {k})
    case Pause => WithStatus(s, Paused)
    case Tick(dt) => s.(now := s.now + dt)
  }

  /** A run: the states an execution goes through and the steps between them. */
  ghost predicate IsRun(wf: Workflow, states: seq<State>, steps: seq<Action>) {
    && |states| == |steps| + 1
    && states[0] == Init(wf)
    && forall i :: 0 <= i < |steps| ==> Enabled(wf, states[i], steps[i]) && states[i+1] == Apply(wf, states[i], steps[i])
  }
}
