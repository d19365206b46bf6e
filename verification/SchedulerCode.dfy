/**
 * The handlers as code: one worker processes a job while any number of others interfere between
 * its operations on the store, the queue and the lock. Every execution of this code is a run of
 * the step machine, so what is proved of all runs holds of the code.
 */
module SchedulerCode {
  import opened Graphs
  import opened Workflows
  import opened GraphValidation
  import opened JobIds
  import opened NodeInputs
  import opened Scheduler
  import opened SchedulerEffects
  import opened SchedulerContainment
  import opened SchedulerIds
  import opened SchedulerOrder

  datatype Outcome = Returns(r: ExecutionResult) | Throws

  type Executor = Option<Json> -> Outcome

  /** What the result constructors keep to: a failed result is never marked skipped. */
  ghost predicate NeverSkipsOnFailure(executor: Executor) {
    forall input :: executor(input).Returns? && executor(input).r.skipped ==> executor(input).r.success
  }

  datatype JobOutcome = Result(r: ExecutionResult) | MovedToDelayed | Rethrown

  class Engine {
    const wf: Workflow
    var now: int
    var starting: seq<Id>
    var nodeResults: map<Id, ExecutionResult>
    var status: Status
    var queue: map<JobKey, JobState>
    /** The times in the ids of entry jobs. */
    var stamps: map<Id, string>
    var completionLock: Option<JobKey>
    var cancelling: bool
    var hist: History
    /** What the others try to do before each of this worker's operations. */
    var others: seq<seq<Action>>
    ghost var states: seq<State>
    ghost var steps: seq<Action>

    constructor (wf: Workflow, others: seq<seq<Action>>)
      ensures Valid() && this.wf == wf && View() == Init(wf) && steps == []
    {
      this.wf, this.others := wf, others;
      now, starting, nodeResults, status := 0, EntryNodes(wf), map[], Running;
      queue, stamps, completionLock, cancelling := map[], map[], None, false;
      hist := History({}, {}, {}, map[]);
      states, steps := [Init(wf)], [];
    }

    function View(): State
      reads this
    {
      State(now, starting, nodeResults, status, queue, stamps, completionLock, cancelling, hist)
    }

    ghost predicate Valid()
      reads this
    {
      IsRun(wf, states, steps) && View() == states[|steps|]
    }

    /** The job is being processed and stands here. */
    ghost predicate At(k: JobKey, pc: Pc)
      reads this
    {
      Valid() && k in queue && queue[k] == Active(pc) && FindNode(wf.nodes, k.node).Some?
    }

    /** One more run: what happened before is kept. */
    twostate predicate Continues()
      reads this
    {
      old(states) <= states && old(steps) <= steps
    }

    method Load(s: State)
      modifies `now, `starting, `nodeResults, `status, `queue, `stamps, `completionLock, `cancelling, `hist
      ensures View() == s
    {
      now, starting, nodeResults, status := s.now, s.starting, s.results, s.status;
      queue, stamps, completionLock, cancelling, hist := s.jobs, s.stamps, s.lock, s.cancelling, s.hist;
    }

    /** One step of somebody else. */
    method Act(a: Action)
      requires Valid() && Enabled(wf, View(), a)
      modifies this
      ensures Valid() && Continues() && View() == Apply(wf, old(View()), a) && others == old(others)
    {
      hide Apply, Enabled, IsRun;
      RunExtends(wf, states, steps, a);
      Load(Apply(wf, View(), a));
      states, steps := states + [View()], steps + [a];
    }

    /** The others do whatever they can, but do not process this worker's job. */
    method Interfere(k: JobKey, ghost pc: Pc)
      requires At(k, pc)
      modifies this
      ensures At(k, pc) && Continues()
    {
      if others == [] { return; }
      var batch := others[0];
      others := others[1..];
      for i := 0 to |batch|
        invariant At(k, pc) && Continues()
      {
        hide Apply, Enabled, IsRun, FindNode;
        var s, a := View(), batch[i];
        if Enabled(wf, s, a) && !Moves(a, k) {
          UnmovedStays(wf, s, a, k);
          Act(a);
        }
      }
    }

    /** An operation whose effect is in the fields is the job's next step. */
    method Advance(k: JobKey, before: State, ghost pc: Pc)
      requires IsRun(wf, states, steps) && before == states[|steps|]
      requires CanProceed(wf, before, k) && before.jobs[k].pc == pc
      requires SameFields(View(), Effect(before, k, FindNode(wf.nodes, k.node).value, pc))
      modifies this
      ensures Valid() && Continues()
      ensures k in queue && queue[k] == NextJob(wf, before, k, FindNode(wf.nodes, k.node).value, pc)
    {
      hide IsRun, Effect, NextJob, FindNode, Enabled;
      var node := FindNode(wf.nodes, k.node).value;
      ProceedIsEnabled(wf, before, k);
      RunExtends(wf, states, steps, Proceed(k));
      hist := Effect(before, k, node, before.jobs[k].pc).hist;
      queue := queue[k := NextJob(wf, before, k, node, before.jobs[k].pc)];
      states, steps := states + [View()], steps + [Proceed(k)];
    }

    // ------------------------------------------------ store, queue and lock

    method UpdateNodeResult(k: JobKey, n: Id, r: ExecutionResult, ghost pc: Pc)
      requires At(k, pc) && MayWrite(k, n, r, pc)
      modifies this
      ensures At(k, AfterWrite(wf, n, r, pc)) && Continues()
    {
      Interfere(k, pc);
      var before := View();
      nodeResults := nodeResults[n := r];
      hide IsRun, FindNode, Tasks;
      Advance(k, before, pc);
    }

    /** The guarded update of the execution status. */
    method SetExecutionStatus(k: JobKey, to: Status, ghost pc: Pc)
      requires At(k, pc) && ((pc.MarkFailed? && to == Failed) || (pc.LockedComplete? && to == Completed))
      modifies this
      ensures At(k, if pc.MarkFailed? then Finish(pc.r) else Unlock(pc.r)) && Continues()
    {
      Interfere(k, pc);
      var before := View();
      if status == Running {
        status := to;
      }
      hide IsRun, FindNode;
      Advance(k, before, pc);
    }

    /** Reads the parents' results of a child and says whether all of them are resolved. */
    method AllParentsCompleted(k: JobKey, childNode: Node, ghost r: ExecutionResult, ghost tasks: seq<Task>) returns (all: bool)
      requires At(k, Releasing(r, tasks)) && tasks != [] && tasks[0] == Consider(childNode.id, true)
      requires FindNode(wf.nodes, childNode.id) == Some(childNode)
      modifies this
      ensures At(k, Releasing(r, if all then [Enqueue(childNode.id)] + tasks[1..] else tasks[1..])) && Continues()
    {
      Interfere(k, Releasing(r, tasks));
      var before, i := View(), 0;
      var parentIds := childNode.inputs;
      while i < |parentIds| && ResolvedIn(nodeResults, parentIds[i])
        invariant 0 <= i <= |parentIds|
        invariant forall j :: 0 <= j < i ==> ResolvedIn(nodeResults, parentIds[j])
      {
        i := i + 1;
      }
      all := i == |parentIds|;
      assert all <==> AllResolved(nodeResults, parentIds);
      hide IsRun, FindNode, ResolvedIn;
      Advance(k, before, Releasing(r, tasks));
    }

    /** Adds a child's job; a job whose id is known is not added again. */
    method EnqueueNode(k: JobKey, nodeId: Id, ghost r: ExecutionResult, ghost rest: seq<Task>)
      requires At(k, Releasing(r, [Enqueue(nodeId)] + rest))
      modifies this
      ensures At(k, Releasing(r, rest)) && Continues()
    {
      ghost var tasks := [Enqueue(nodeId)] + rest;
      assert tasks[1..] == rest;
      Interfere(k, Releasing(r, tasks));
      var before := View();
      if !Taken(stamps, queue, Child(nodeId)) {
        queue := queue[Child(nodeId) := Waiting(now)];
      }
      EnqueueEffect(wf, before, k, r, nodeId, rest);
      hide IsRun, FindNode, Taken, Effect, NextJob;
      Advance(k, before, Releasing(r, tasks));
    }

    // --------------------------------------------------- releasing children

    /** Works off the children of one node; what an outer loop still has to do is in rest. */
    method CheckAndEnqueueChildren(k: JobKey, outputs: seq<Id>, nextNodes: Option<seq<Id>>,
                                   ghost r: ExecutionResult, ghost rest: seq<Task>)
      requires At(k, Releasing(r, Tasks(outputs, nextNodes) + rest))
      modifies this
      ensures At(k, Releasing(r, rest)) && Continues()
      decreases if nextNodes.Some? then 1 else 0, 2
    {
      RemainingAt(outputs, nextNodes, rest, 0);
      hide At, Valid, FindNode, Tasks, Remaining;
      for i := 0 to |outputs|
        invariant At(k, Releasing(r, Remaining(outputs, nextNodes, rest, i))) && Continues()
      {
        RemainingAt(outputs, nextNodes, rest, i);
        CheckAndEnqueueChild(k, outputs[i], nextNodes, r, Remaining(outputs, nextNodes, rest, i));
      }
      RemainingAt(outputs, nextNodes, rest, |outputs|);
    }

    /** One turn of the loop: skip the child, or enqueue it if its parents are all resolved. */
    method CheckAndEnqueueChild(k: JobKey, childNodeId: Id, nextNodes: Option<seq<Id>>, ghost r: ExecutionResult, ghost tasks: seq<Task>)
      requires At(k, Releasing(r, tasks)) && tasks != [] && tasks[0] == Consider(childNodeId, ShouldRun(nextNodes, childNodeId))
      modifies this
      ensures At(k, Releasing(r, tasks[1..])) && Continues()
      decreases if nextNodes.Some? then 1 else 0, 1
    {
      var shouldRun := nextNodes.None? || childNodeId in nextNodes.value;
      var childNode := FindNode(wf.nodes, childNodeId);
      hide At, Valid, FindNode;
      if !shouldRun {
        SkipNode(k, childNodeId, r, tasks);
      } else if childNode.None? {
        NothingToDo(k, Releasing(r, tasks));
      } else {
        var allParentsCompleted := AllParentsCompleted(k, childNode.value, r, tasks);
        if allParentsCompleted {
          EnqueueNode(k, childNodeId, r, tasks[1..]);
        }
      }
    }

    /** Records a skip and releases the skipped node's own children, all of them. */
    method SkipNode(k: JobKey, nodeId: Id, ghost r: ExecutionResult, ghost tasks: seq<Task>)
      requires At(k, Releasing(r, tasks)) && tasks != [] && tasks[0] == Consider(nodeId, false)
      modifies this
      ensures At(k, Releasing(r, tasks[1..])) && Continues()
      decreases 1, 0
    {
      UpdateNodeResult(k, nodeId, SKIPPED_RESULT, Releasing(r, tasks));
      var node := FindNode(wf.nodes, nodeId);
      if node.Some? {
        CheckAndEnqueueChildren(k, node.value.outputs, None, r, tasks[1..]);
      } else {
        assert Tasks([], None) + tasks[1..] == tasks[1..];
      }
    }

    /** A step of the job that touches neither store, queue nor lock. */
    method NothingToDo(k: JobKey, ghost pc: Pc)
      requires At(k, pc) && pc.Releasing? && (pc.tasks == [] || NoSuchChild(wf, pc))
      modifies this
      ensures At(k, if pc.tasks == [] then AcquireLock(pc.r) else Releasing(pc.r, pc.tasks[1..])) && Continues()
    {
      hide IsRun, FindNode;
      Advance(k, View(), pc);
    }

    // ----------------------------------------------------------- completion

    /** Completes the execution when every node has a result; gives up when the lock is taken. */
    method CheckWorkflowCompletion(k: JobKey, ghost r: ExecutionResult)
      requires At(k, Releasing(r, []))
      modifies this
      ensures At(k, Finish(r)) && Continues()
    {
      hide At, Valid;
      NothingToDo(k, Releasing(r, []));
      var acquired := AcquireCompletionLock(k, r);
      if !acquired { return; }
      var terminal := ReadTerminal(k, r);
      if !terminal {
        var pendingCount := GetPendingNodeCount(k, r);
        if pendingCount == 0 {
          SetExecutionStatus(k, Completed, LockedComplete(r));
        }
      }
      ReleaseCompletionLock(k, r);
    }

    method AcquireCompletionLock(k: JobKey, ghost r: ExecutionResult) returns (acquired: bool)
      requires At(k, AcquireLock(r))
      modifies this
      ensures At(k, if acquired then LockedStatus(r) else Finish(r)) && Continues()
    {
      Interfere(k, AcquireLock(r));
      var before := View();
      acquired := completionLock.None?;
      if acquired {
        completionLock := Some(k);
      }
      hide IsRun, FindNode;
      Advance(k, before, AcquireLock(r));
    }

    method ReadTerminal(k: JobKey, ghost r: ExecutionResult) returns (terminal: bool)
      requires At(k, LockedStatus(r))
      modifies this
      ensures At(k, if terminal then Unlock(r) else LockedCount(r)) && Continues()
    {
      Interfere(k, LockedStatus(r));
      terminal := Terminal(status);
      hide IsRun, FindNode;
      Advance(k, View(), LockedStatus(r));
    }

    method GetPendingNodeCount(k: JobKey, ghost r: ExecutionResult) returns (pendingCount: int)
      requires At(k, LockedCount(r))
      modifies this
      ensures At(k, if pendingCount == 0 then LockedComplete(r) else Unlock(r)) && Continues()
    {
      Interfere(k, LockedCount(r));
      pendingCount := |wf.nodes| - |nodeResults|;
      hide IsRun, FindNode;
      Advance(k, View(), LockedCount(r));
    }

    method ReleaseCompletionLock(k: JobKey, ghost r: ExecutionResult)
      requires At(k, Unlock(r))
      modifies this
      ensures At(k, Finish(r)) && Continues()
    {
      Interfere(k, Unlock(r));
      var before := View();
      if completionLock == Some(k) {
        completionLock := None;
      }
      hide IsRun, FindNode;
      Advance(k, before, Unlock(r));
    }

    // ------------------------------------------------------- regular nodes

    /**
     * The executor gets the data of the parents as some state of the run since the call has them.
     * What it returns is recorded and returned; what it throws is the error outcome.
     */
    method ExecuteRegularNode(k: JobKey, node: Node, inputData: Option<Json>, executor: Executor, lastAttempt: bool)
      returns (result: Option<ExecutionResult>, ghost at: nat)
      requires At(k, Execute) && FindNode(wf.nodes, k.node) == Some(node) && node.kind.Regular?
      requires NeverSkipsOnFailure(executor)
      modifies this
      ensures Valid() && Continues() && k in queue
      ensures result.Some? ==> At(k, Finish(result.value))
      ensures result.None? ==> if lastAttempt then queue[k] == Exhausted(Unrecorded) else queue[k].Waiting?
      ensures |old(steps)| <= at < |states|
      ensures RanIn(states[at], k, node, inputData, executor, lastAttempt, steps[|old(steps)|..], result)
    {
      ValidIsLast();
      Interfere(k, Execute);
      ValidIsLast();
      at := |states| - 1;
      ghost var seen, since := states[at], |steps|;
      hide IsRun, FindNode, At, Valid, NodeInputData, RanIn;
      var nodeInputData := BuildNodeInputData(inputData, node.inputs, nodeResults);
      result := RunExecutor(k, node, executor, nodeInputData, lastAttempt);
      assert states[at] == seen;
      RanOn(seen, k, node, inputData, executor, lastAttempt, steps, |old(steps)|, since, result);
    }

    method RunExecutor(k: JobKey, node: Node, executor: Executor, nodeInputData: Option<Json>, lastAttempt: bool)
      returns (result: Option<ExecutionResult>)
      requires At(k, Execute) && FindNode(wf.nodes, k.node) == Some(node) && node.kind.Regular?
      requires NeverSkipsOnFailure(executor)
      modifies this
      ensures Valid() && Continues() && k in queue
      ensures result.Some? ==> At(k, Finish(result.value))
      ensures result.None? ==> if lastAttempt then queue[k] == Exhausted(Unrecorded) else queue[k].Waiting?
      ensures OutcomeIs(k, node, executor(nodeInputData), lastAttempt, steps, |old(steps)|, result)
    {
      hide IsRun, FindNode, At, Valid, ContinueOnFailResult;
      var outcome := executor(nodeInputData);
      if outcome.Throws? {
        result := HandleExecutionError(k, node, lastAttempt);
        return;
      }
      var r := outcome.r;
      ExecutorReturned(k, node, r);
      ghost var y := |steps| - 1;
      RecordResult(k, node, r);
      StandsThere(k, Finish(r));
      result := Some(r);
      assert steps[y] == ExecutorReturns(k, r);
    }

    /** Stores the result, then fails the execution or releases the children. */
    method RecordResult(k: JobKey, node: Node, r: ExecutionResult)
      requires At(k, WriteResult(r)) && FindNode(wf.nodes, k.node) == Some(node)
      modifies this
      ensures At(k, Finish(r)) && Continues()
    {
      hide IsRun, FindNode, At, Valid;
      UpdateNodeResult(k, k.node, r, WriteResult(r));
      if !r.success {
        SetExecutionStatus(k, Failed, MarkFailed(r));
      } else {
        ReleaseAndComplete(k, node, r);
      }
    }

    lemma StandsThere(k: JobKey, pc: Pc)
      requires At(k, pc)
      ensures Valid() && k in queue && queue[k] == Active(pc)
    {
    }

    method ExecutorReturned(k: JobKey, node: Node, r: ExecutionResult)
      requires At(k, Execute) && FindNode(wf.nodes, k.node) == Some(node) && node.kind.Regular?
      requires r.skipped ==> r.success
      modifies this
      ensures At(k, WriteResult(r)) && Continues()
      ensures |steps| > |old(steps)| && steps[|steps|-1] == ExecutorReturns(k, r)
    {
      hide IsRun, FindNode, Enabled;
      Interfere(k, Execute);
      ghost var a := ExecutorReturns(k, r);
      MayReturn(wf, View(), k, r);
      RunExtends(wf, states, steps, a);
      queue := queue[k := Active(WriteResult(r))];
      states, steps := states + [View()], steps + [a];
    }

    /** An exception: recorded as a success if the node continues on fail, or else thrown on. */
    method HandleExecutionError(k: JobKey, node: Node, lastAttempt: bool) returns (result: Option<ExecutionResult>)
      requires At(k, Execute) && FindNode(wf.nodes, k.node) == Some(node) && node.kind.Regular?
      modifies this
      ensures Valid() && Continues() && k in queue
      ensures result == if node.kind.continueOnFail && lastAttempt then Some(ContinueOnFailResult("Node execution failed")) else None
      ensures result.Some? ==> At(k, Finish(result.value))
      ensures result.None? ==> if lastAttempt then queue[k] == Exhausted(Unrecorded) else queue[k].Waiting?
    {
      hide IsRun, FindNode;
      var safe := node.kind.continueOnFail && lastAttempt;
      Threw(k, Execute, safe, !lastAttempt);
      if safe {
        var safeResult := ContinueOnFailResult("Node execution failed");
        UpdateNodeResult(k, k.node, safeResult, WriteResult(safeResult));
        ReleaseAndComplete(k, node, safeResult);
        return Some(safeResult);
      }
      return None;
    }

    method Threw(k: JobKey, ghost pc: Pc, safe: bool, retry: bool)
      requires Valid() && k in queue && queue[k] == Active(pc)
      requires safe ==> At(k, pc) && InTry(pc) && FindNode(wf.nodes, k.node).value.kind == Regular(true)
      modifies this
      ensures Valid() && Continues() && k in queue && queue[k] == AfterThrow(old(now), safe, retry)
    {
      ghost var a := Throw(k, safe, retry);
      hide IsRun, FindNode, ContinueOnFailResult;
      RunExtends(wf, states, steps, a);
      completionLock := AfterThrowLock(completionLock, k, queue[k].pc);
      queue := queue[k := AfterThrow(now, safe, retry)];
      states, steps := states + [View()], steps + [a];
    }

    method ReleaseAndComplete(k: JobKey, node: Node, r: ExecutionResult)
      requires At(k, Releasing(r, Tasks(node.outputs, r.nextNodes)))
      modifies this
      ensures At(k, Finish(r)) && Continues()
    {
      hide At, Valid;
      assert Tasks(node.outputs, r.nextNodes) + [] == Tasks(node.outputs, r.nextNodes);
      if |node.outputs| > 0 {
        CheckAndEnqueueChildren(k, node.outputs, r.nextNodes, r, []);
      }
      CheckWorkflowCompletion(k, r);
    }

    // --------------------------------------------------------- delay nodes

    method ProcessDelayNode(k: JobKey, node: Node) returns (r: ExecutionResult, ghost at: nat)
      requires At(k, Route(k, node)) && FindNode(wf.nodes, k.node) == Some(node) && node.kind.Delay?
      modifies this
      ensures At(k, Finish(r)) && Continues()
      ensures |old(steps)| <= at < |states| && DelayedIn(states[at], k, node, r)
    {
      ValidIsLast();
      var duration := ResolveDuration(node.kind.config);
      if !ValidDuration(duration) {
        return ErrorResult("Invalid delay duration"), |steps|;
      }
      hide At, Valid, FindNode, ResolveDuration;
      if k.Resumed? {
        r, at := HandleResumedStep(k, node);
      } else {
        r, at := HandleInitialStep(k, node, duration.value);
      }
    }

    method HandleInitialStep(k: JobKey, node: Node, duration: int) returns (r: ExecutionResult, ghost at: nat)
      requires At(k, DelayEnqueue) && FindNode(wf.nodes, k.node) == Some(node)
      requires DelayOf(node) == Some(duration) && duration >= 0 && !k.Resumed?
      modifies this
      ensures At(k, Finish(r)) && Continues()
      ensures |old(steps)| <= at < |states| && DelayedIn(states[at], k, node, r)
    {
      ValidIsLast();
      Interfere(k, DelayEnqueue);
      ValidIsLast();
      at := |states| - 1;
      r := AddResumeJob(k, node, duration);
    }

    /** The resume job with the delay ahead of it, unless its id is known. */
    method AddResumeJob(k: JobKey, node: Node, duration: int) returns (r: ExecutionResult)
      requires At(k, DelayEnqueue) && FindNode(wf.nodes, k.node) == Some(node)
      requires DelayOf(node) == Some(duration) && duration >= 0
      modifies this
      ensures At(k, Finish(r)) && Continues()
      ensures r == DelayedMarker(old(now) + duration, duration)
    {
      hide IsRun, FindNode, DelayedMarker, FirstStart, ResolveDuration, Taken;
      var before, resumeTime := View(), now + duration;
      if !Taken(stamps, queue, Resumed(k.node)) {
        queue := queue[Resumed(k.node) := Waiting(resumeTime)];
      }
      FindNodeId(wf, k.node);
      Advance(k, before, DelayEnqueue);
      r := DelayedMarker(resumeTime, duration);
    }

    method HandleResumedStep(k: JobKey, node: Node) returns (r: ExecutionResult, ghost at: nat)
      requires At(k, ResumedStatus) && FindNode(wf.nodes, k.node) == Some(node) && k.Resumed?
      requires node.kind.Delay? && ValidDuration(DelayOf(node))
      modifies this
      ensures At(k, Finish(r)) && Continues()
      ensures |old(steps)| <= at < |states| && DelayedIn(states[at], k, node, r)
    {
      hide IsRun, FindNode, At, Valid, DelayOf, NodeInputData;
      var cancelled;
      cancelled, at := ReadCancelled(k);
      if cancelled {
        return ErrorResult("Workflow execution cancelled"), at;
      }
      var outputData;
      outputData, at := GatherInputs(k, node);
      r := SuccessResult(outputData);
      ghost var seen := states[at];
      UpdateNodeResult(k, k.node, r, WriteResult(r));
      ReleaseAndComplete(k, node, r);
      assert states[at] == seen;
    }

    method ReadCancelled(k: JobKey) returns (cancelled: bool, ghost at: nat)
      requires At(k, ResumedStatus)
      modifies this
      ensures At(k, if cancelled then Finish(ErrorResult("Workflow execution cancelled")) else ResumedGather) && Continues()
      ensures |old(steps)| <= at < |states| && (cancelled <==> states[at].status == Cancelled)
    {
      ValidIsLast();
      Interfere(k, ResumedStatus);
      ValidIsLast();
      cancelled, at := status == Cancelled, |states| - 1;
      hide IsRun, FindNode;
      Advance(k, View(), ResumedStatus);
    }

    method GatherInputs(k: JobKey, node: Node) returns (outputData: Option<Json>, ghost at: nat)
      requires At(k, ResumedGather) && FindNode(wf.nodes, k.node) == Some(node)
      modifies this
      ensures At(k, WriteResult(SuccessResult(outputData))) && Continues()
      ensures |old(steps)| <= at < |states| && outputData == NodeInputData(Some(Obj(map[])), node.inputs, states[at].results)
    {
      ValidIsLast();
      Interfere(k, ResumedGather);
      ValidIsLast();
      at := |states| - 1;
      outputData := BuildNodeInputData(Some(Obj(map[])), node.inputs, nodeResults);
      hide IsRun, FindNode, NodeInputData;
      Advance(k, View(), ResumedGather);
    }

    // ------------------------------------------------------ the entry point

    /** One attempt at a job: its result, or why there is none. */
    method ProcessNodeJob(k: JobKey, inputData: Option<Json>, executor: Executor, lastAttempt: bool) returns (outcome: JobOutcome, ghost at: nat)
      requires Valid() && k in queue && queue[k] == Active(ReadOwn) && NeverSkipsOnFailure(executor)
      modifies this
      ensures Valid() && Continues() && k in queue
      ensures match outcome
        case Result(r) => queue[k] == Active(Finish(r))
        case MovedToDelayed => queue[k].Waiting?
        case Rethrown => if lastAttempt then queue[k] == Exhausted(Unrecorded) else queue[k].Waiting?
      ensures match FindNode(wf.nodes, k.node)
        case None => outcome == Rethrown
        case Some(node) =>
          if k.node == ROOT_NODE then outcome == Result(ROOT_RESULT)
          else (|old(steps)| <= at < |states|
                && ExplainedIn(states[at], k, node, inputData, executor, lastAttempt, steps[|old(steps)|..], outcome))
    {
      var node := FindNode(wf.nodes, k.node);
      if k.node == ROOT_NODE {
        JobIsOfNode(wf, states, steps, |steps|, k);
        hide IsRun, FindNode, ROOT_RESULT;
        Advance(k, View(), ReadOwn);
        return Result(ROOT_RESULT), |states| - 1;
      }
      hide IsRun, FindNode;
      if node.None? {
        Threw(k, ReadOwn, false, !lastAttempt);
        return Rethrown, |states| - 1;
      }
      outcome, at := RouteNodeExecution(k, node.value, inputData, executor, lastAttempt);
    }

    method RouteNodeExecution(k: JobKey, node: Node, inputData: Option<Json>, executor: Executor, lastAttempt: bool)
      returns (outcome: JobOutcome, ghost at: nat)
      requires At(k, ReadOwn) && FindNode(wf.nodes, k.node) == Some(node) && k.node != ROOT_NODE && NeverSkipsOnFailure(executor)
      modifies this
      ensures Valid() && Continues() && k in queue
      ensures match outcome
        case Result(r) => queue[k] == Active(Finish(r))
        case MovedToDelayed => queue[k].Waiting?
        case Rethrown => if lastAttempt then queue[k] == Exhausted(Unrecorded) else queue[k].Waiting?
      ensures |old(steps)| <= at < |states|
      ensures ExplainedIn(states[at], k, node, inputData, executor, lastAttempt, steps[|old(steps)|..], outcome)
    {
      hide IsRun, FindNode, At, Valid, RanIn, DelayedIn, HasOwn;
      ghost var from := |steps|;
      var existingResult;
      existingResult, at := ReadOwnResult(k);
      if existingResult.Some? {
        StandsThere(k, Finish(existingResult.value));
        return Result(existingResult.value), at;
      }
      var seen;
      seen, at := ReadExecutionStatus(k, node);
      if seen == Cancelled {
        StandsThere(k, Finish(ErrorResult("Workflow execution cancelled")));
        return Result(ErrorResult("Workflow execution cancelled")), at;
      }
      if seen == Paused {
        return MovedToDelayed, at;
      }
      if node.kind.Delay? {
        var r;
        r, at := ProcessDelayNode(k, node);
        StandsThere(k, Finish(r));
        return Result(r), at;
      }
      ghost var since := |steps|;
      var r;
      r, at := ExecuteRegularNode(k, node, inputData, executor, lastAttempt);
      RanSince(states[at], k, node, inputData, executor, lastAttempt, steps, from, since, r);
      outcome := if r.Some? then Result(r.value) else Rethrown;
      if r.Some? {
        StandsThere(k, Finish(r.value));
      }
    }

    method ReadOwnResult(k: JobKey) returns (existing: Option<ExecutionResult>, ghost at: nat)
      requires At(k, ReadOwn) && k.node != ROOT_NODE
      modifies this
      ensures At(k, if existing.Some? then Finish(existing.value) else ReadStatus) && Continues()
      ensures |old(steps)| <= at < |states| && (existing.Some? ==> HasOwn(states[at], k, existing.value))
    {
      ValidIsLast();
      Interfere(k, ReadOwn);
      ValidIsLast();
      existing := if ResolvedIn(nodeResults, k.node) then Some(nodeResults[k.node]) else None;
      at := |states| - 1;
      hide IsRun, FindNode;
      Advance(k, View(), ReadOwn);
    }

    method ReadExecutionStatus(k: JobKey, node: Node) returns (seen: Status, ghost at: nat)
      requires At(k, ReadStatus) && FindNode(wf.nodes, k.node) == Some(node)
      modifies this
      ensures Valid() && Continues() && k in queue
      ensures seen == Cancelled ==> At(k, Finish(ErrorResult("Workflow execution cancelled")))
      ensures seen == Paused ==> queue[k].Waiting?
      ensures seen != Cancelled && seen != Paused ==> At(k, Route(k, node))
      ensures |old(steps)| <= at < |states| && states[at].status == seen
    {
      ValidIsLast();
      Interfere(k, ReadStatus);
      ValidIsLast();
      seen, at := status, |states| - 1;
      hide IsRun, FindNode, Route;
      Advance(k, View(), ReadStatus);
    }

    /** What holds of all runs holds here, for instance completion safety. */
    lemma CompletedHasAllResults()
      requires Valid() && Accepted(wf) && status == Completed
      ensures nodeResults.Keys == Ids(wf.nodes)
    {
      CompletionSafety(wf, states, steps, |steps|);
    }

    lemma ValidIsLast()
      requires Valid()
      ensures |states| == |steps| + 1 && View() == states[|states|-1]
    {
    }

    // ------------------------------------------ starting and cancelling

    /** The workers act before an operation of the engine. Only the engine enqueues entries. */
    method WorkersAct()
      requires Valid()
      modifies this
      ensures Valid() && Continues() && starting == old(starting)
      ensures old(status) != Running ==> status == old(status)
      ensures old(cancelling) ==> cancelling
      ensures old(hist.added) <= hist.added
    {
      if others == [] { return; }
      var batch := others[0];
      others := others[1..];
      for i := 0 to |batch|
        invariant Valid() && Continues() && starting == old(starting)
        invariant old(status) != Running ==> status == old(status)
        invariant old(cancelling) ==> cancelling
        invariant old(hist.added) <= hist.added
      {
        hide Apply, Enabled, IsRun;
        var s, a := View(), batch[i];
        if !a.EnqueueEntry? && Enabled(wf, s, a) {
          WorkerStep(wf, s, a);
          MoreAdded(wf, s, a);
          Act(a);
        }
      }
    }

    /** Adds a job for every entry node, in order. Without any, the engine throws. */
    method EnqueueWorkflow(clock: nat -> string) returns (found: bool)
      requires Valid() && View() == Init(wf) && forall i :: IsDigits(clock(i))
      modifies this
      ensures Valid() && Continues()
      ensures found <==> EntryNodes(wf) != []
      ensures starting == []
      ensures PlainIds(wf) ==> forall e :: e in EntryNodes(wf) ==> Entry(e) in hist.added
    {
      var entryNodes := SelectEntryNodes(wf);
      found := |entryNodes| > 0;
      for i := 0 to |entryNodes|
        invariant Valid() && Continues() && starting == entryNodes[i..]
        invariant PlainIds(wf) ==> forall j :: 0 <= j < i ==> Entry(entryNodes[j]) in hist.added
      {
        hide IsRun, PlainIds, IsDigits;
        EnqueueEntryJob(entryNodes[i], clock(i));
      }
    }

    method AddWaiting(k: JobKey)
      modifies `queue, `hist
      ensures View() == WithAdded(old(View()), k, now)
    {
      if !Taken(stamps, queue, k) {
        queue, hist := queue[k := Waiting(now)], hist.(added := hist.added + {k});
      }
    }

    method EnqueueEntryJob(nodeId: Id, timestamp: string)
      requires Valid() && starting != [] && starting[0] == nodeId && IsDigits(timestamp)
      modifies this
      ensures Valid() && Continues() && starting == old(starting)[1..]
      ensures old(hist.added) <= hist.added
      ensures PlainIds(wf) ==> Entry(nodeId) in hist.added
    {
      WorkersAct();
      hide *;
      AddEntryJob(nodeId, timestamp);
    }

    method AddEntryJob(nodeId: Id, timestamp: string)
      requires Valid() && starting != [] && starting[0] == nodeId && IsDigits(timestamp)
      modifies this
      ensures Valid() && Continues() && starting == old(starting)[1..]
      ensures old(hist.added) <= hist.added
      ensures PlainIds(wf) ==> Entry(nodeId) in hist.added
    {
      hide IsRun, PlainIds, IsDigits;
      ghost var a := EnqueueEntry(timestamp);
      RunExtends(wf, states, steps, a);
      if PlainIds(wf) {
        EntryIsAdded(wf, states, steps, a);
      }
      EnqueueIs(wf, states[|steps|], a);
      MoreAdded(wf, states[|steps|], a);
      hide Apply, Enabled, WithAdded, WithStamp;
      AddFirst(nodeId, timestamp);
      states, steps := states + [View()], steps + [a];
    }

    method AddFirst(nodeId: Id, timestamp: string)
      requires starting != []
      modifies `stamps, `queue, `hist, `starting
      ensures View() == WithAdded(WithStamp(old(View()), nodeId, timestamp), Entry(nodeId), now).(starting := old(starting)[1..])
    {
      if Entry(nodeId) !in queue {
        stamps := stamps[nodeId := timestamp];
      }
      AddWaiting(Entry(nodeId));
      starting := starting[1..];
    }

    /**
     * Records the cancellation, then removes the pending jobs that were listed: each of them was
     * not waiting at some time since.
     */
    method CancelWorkflow(pending: seq<JobKey>)
      requires Valid()
      modifies this
      ensures Valid() && Continues()
      ensures status == if old(status) == Running then Cancelled else old(status)
      ensures forall j :: 0 <= j < |pending| ==> NotWaitingSince(states, |old(states)|, pending[j])
    {
      hide IsRun;
      RunExtends(wf, states, steps, Cancel);
      status := Guarded(status, Cancelled);
      cancelling := true;
      states, steps := states + [View()], steps + [Cancel];
      for i := 0 to |pending|
        invariant Valid() && Continues() && cancelling && |states| > |old(states)|
        invariant status == if old(status) == Running then Cancelled else old(status)
        invariant forall j :: 0 <= j < i ==> NotWaitingSince(states, |old(states)|, pending[j])
      {
        ghost var before := states;
        RemoveJob(pending[i]);
        RemovedStay(before, states, |old(states)|);
        assert NotWaiting(states[|states|-1], pending[i]);
      }
    }

    method RemoveJob(k: JobKey)
      requires Valid() && cancelling && status != Running
      modifies this
      ensures Valid() && Continues() && cancelling && status == old(status)
      ensures states != [] && NotWaiting(states[|states|-1], k)
    {
      WorkersAct();
      ValidIsLast();
      if k in queue && queue[k].Waiting? {
        hide IsRun;
        RunExtends(wf, states, steps, RemoveWaiting(k));
        queue := queue - {k};
        states, steps := states + [View()], steps + [RemoveWaiting(k)];
      }
    }
  }

  // ----------------------------------------------- what explains an outcome

  /** The node has this successful or skipped result. */
  ghost predicate HasOwn(s: State, k: JobKey, r: ExecutionResult) {
    k.node in s.results && s.results[k.node] == r && (r.success || r.skipped)
  }

  /** The executor, given what the state has of the parents, returned this or threw. */
  ghost predicate RanIn(s: State, k: JobKey, node: Node, inputData: Option<Json>, executor: Executor, lastAttempt: bool,
                        since: seq<Action>, result: Option<ExecutionResult>) {
    && node.kind.Regular?
    && match executor(NodeInputData(inputData, node.inputs, s.results))
      case Returns(r) => result == Some(r) && ExecutorReturns(k, r) in since
      case Throws =>
        result == if node.kind.continueOnFail && lastAttempt then Some(ContinueOnFailResult("Node execution failed")) else None
  }

  /** What the executor did decides the result. */
  ghost predicate OutcomeIs(k: JobKey, node: Node, outcome: Outcome, lastAttempt: bool, steps: seq<Action>, from: nat, result: Option<ExecutionResult>) {
    match outcome
    case Returns(r) => result == Some(r) && exists y :: from <= y < |steps| && steps[y] == ExecutorReturns(k, r)
    case Throws => result == if node.kind.Regular? && node.kind.continueOnFail && lastAttempt then Some(ContinueOnFailResult("Node execution failed")) else None
  }

  lemma RanOn(s: State, k: JobKey, node: Node, inputData: Option<Json>, executor: Executor, lastAttempt: bool,
              steps: seq<Action>, from: nat, since: nat, result: Option<ExecutionResult>)
    requires node.kind.Regular? && from <= since <= |steps|
    requires OutcomeIs(k, node, executor(NodeInputData(inputData, node.inputs, s.results)), lastAttempt, steps, since, result)
    ensures RanIn(s, k, node, inputData, executor, lastAttempt, steps[from..], result)
  {
    hide NodeInputData, ContinueOnFailResult;
    var outcome := executor(NodeInputData(inputData, node.inputs, s.results));
    if outcome.Returns? {
      var y :| since <= y < |steps| && steps[y] == ExecutorReturns(k, outcome.r);
      assert steps[from..][y - from] == ExecutorReturns(k, outcome.r);
    }
  }

  /** What a delay node's job returns in this state. */
  ghost predicate DelayedIn(s: State, k: JobKey, node: Node, r: ExecutionResult) {
    && node.kind.Delay?
    && if !ValidDuration(DelayOf(node)) then r == ErrorResult("Invalid delay duration")
      else if !k.Resumed? then r == DelayedMarker(s.now + DelayOf(node).value, DelayOf(node).value)
      else || (s.status == Cancelled && r == ErrorResult("Workflow execution cancelled"))
           || r == SuccessResult(NodeInputData(Some(Obj(map[])), node.inputs, s.results))
  }

  ghost predicate ExplainedIn(s: State, k: JobKey, node: Node, inputData: Option<Json>, executor: Executor, lastAttempt: bool,
                              since: seq<Action>, outcome: JobOutcome) {
    match outcome
    case Result(r) =>
      || HasOwn(s, k, r)
      || (s.status == Cancelled && r == ErrorResult("Workflow execution cancelled"))
      || DelayedIn(s, k, node, r)
      || RanIn(s, k, node, inputData, executor, lastAttempt, since, Some(r))
    case MovedToDelayed => s.status == Paused
    case Rethrown => RanIn(s, k, node, inputData, executor, lastAttempt, since, None)
  }

  lemma RanSince(s: State, k: JobKey, node: Node, inputData: Option<Json>, executor: Executor, lastAttempt: bool,
                 steps: seq<Action>, from: nat, since: nat, result: Option<ExecutionResult>)
    requires from <= since <= |steps| && RanIn(s, k, node, inputData, executor, lastAttempt, steps[since..], result)
    ensures RanIn(s, k, node, inputData, executor, lastAttempt, steps[from..], result)
  {
    assert steps[from..] == steps[from..since] + steps[since..];
    hide NodeInputData, ContinueOnFailResult;
  }

  /** What the loop over outputs still has to do before its i-th turn. */
  ghost function Remaining(outputs: seq<Id>, nextNodes: Option<seq<Id>>, rest: seq<Task>, i: nat): seq<Task>
    requires i <= |outputs|
  {
    Tasks(outputs, nextNodes)[i..] + rest
  }

  lemma RemainingAt(outputs: seq<Id>, nextNodes: Option<seq<Id>>, rest: seq<Task>, i: nat)
    requires i <= |outputs|
    ensures i == 0 ==> Remaining(outputs, nextNodes, rest, i) == Tasks(outputs, nextNodes) + rest
    ensures i == |outputs| ==> Remaining(outputs, nextNodes, rest, i) == rest
    ensures i < |outputs| ==> var tasks := Remaining(outputs, nextNodes, rest, i);
      && tasks != [] && tasks[0] == Consider(outputs[i], ShouldRun(nextNodes, outputs[i]))
      && tasks[1..] == Remaining(outputs, nextNodes, rest, i + 1)
  {
  }

  predicate NotWaiting(s: State, k: JobKey) {
    k in s.jobs ==> !s.jobs[k].Waiting?
  }

  ghost predicate NotWaitingSince(states: seq<State>, from: nat, k: JobKey) {
    exists i :: from <= i < |states| && NotWaiting(states[i], k)
  }

  lemma RemovedStay(before: seq<State>, after: seq<State>, from: nat)
    requires before <= after
    ensures forall k :: NotWaitingSince(before, from, k) ==> NotWaitingSince(after, from, k)
  {
    forall k | NotWaitingSince(before, from, k) ensures NotWaitingSince(after, from, k) {
      var i :| from <= i < |before| && NotWaiting(before[i], k);
      assert after[i] == before[i];
    }
  }

  ghost predicate NoSuchChild(wf: Workflow, pc: Pc) {
    pc.Releasing? && pc.tasks != [] && pc.tasks[0].Consider? && pc.tasks[0].run && FindNode(wf.nodes, pc.tasks[0].child).None?
  }

  /** Equal but for the history. */
  ghost predicate SameFields(s: State, s': State) {
    s.(hist := s'.hist) == s'
  }

  lemma EnqueueEffect(wf: Workflow, s: State, k: JobKey, r: ExecutionResult, n: Id, rest: seq<Task>)
    requires k in s.jobs && s.jobs[k] == Active(Releasing(r, [Enqueue(n)] + rest)) && FindNode(wf.nodes, k.node).Some?
    ensures CanProceed(wf, s, k)
    ensures Effect(s, k, FindNode(wf.nodes, k.node).value, s.jobs[k].pc) == WithAdded(s, Child(n), s.now)
    ensures NextJob(wf, s, k, FindNode(wf.nodes, k.node).value, s.jobs[k].pc) == Active(Releasing(r, rest))
  {
    assert ([Enqueue(n)] + rest)[1..] == rest;
    hide FindNode, Taken;
  }

  lemma RunExtends(wf: Workflow, states: seq<State>, steps: seq<Action>, a: Action)
    requires IsRun(wf, states, steps) && Enabled(wf, states[|steps|], a)
    ensures IsRun(wf, states + [Apply(wf, states[|steps|], a)], steps + [a]) && |states| == |steps| + 1
  {
    hide Apply, Enabled;
  }

  lemma WorkerStep(wf: Workflow, s: State, a: Action)
    requires Enabled(wf, s, a) && !a.EnqueueEntry?
    ensures Apply(wf, s, a).starting == s.starting
    ensures s.cancelling ==> Apply(wf, s, a).cancelling
    ensures s.status != Running ==> Apply(wf, s, a).status == s.status
  {
    StatusChanges(wf, s, a);
    StartingChanges(wf, s, a);
    if !Apply(wf, s, a).cancelling {
      NotCancelling(wf, s, a);
    }
    hide Apply, Enabled, StatusWanted;
  }

  lemma EnqueueIs(wf: Workflow, s: State, a: Action)
    requires Enabled(wf, s, a) && a.EnqueueEntry?
    ensures Apply(wf, s, a)
         == WithAdded(WithStamp(s, s.starting[0], a.timestamp), Entry(s.starting[0]), s.now).(starting := s.starting[1..])
  {
  }

  /** Under plain ids, an entry's job is there after it was enqueued. */
  lemma EntryIsAdded(wf: Workflow, states: seq<State>, steps: seq<Action>, a: Action)
    requires IsRun(wf, states, steps) && PlainIds(wf)
    requires a.EnqueueEntry? && Enabled(wf, states[|steps|], a)
    ensures Entry(states[|steps|].starting[0]) in Apply(wf, states[|steps|], a).hist.added
  {
    var s := states[|steps|];
    StartingChanges(wf, s, a);
    RunContained(wf, states, steps, |steps|);
    RunTimestamps(wf, states, steps, |steps|);
    hide IsRun, PlainKey, KeyOk, Contained, Timestamps, Apply, AddOf;
    AddsOwnKey(wf, s, a);
    AddsAreAdded(wf, s, a);
  }

  lemma MoreAdded(wf: Workflow, s: State, a: Action)
    requires Enabled(wf, s, a)
    ensures s.hist.added <= Apply(wf, s, a).hist.added
  {
    QueueChanges(wf, s, a);
    hide Apply, Enabled;
  }

  /** The named entry node, or else a filter for nodes without inputs. */
  method SelectEntryNodes(wf: Workflow) returns (entryNodes: seq<Id>)
    ensures entryNodes == EntryNodes(wf)
  {
    if wf.entryNodeId != "" {
      var entryNode := FindNode(wf.nodes, wf.entryNodeId);
      return if entryNode.Some? then [entryNode.value.id] else [];
    }
    entryNodes := [];
    assert wf.nodes[0..] == wf.nodes;
    for i := 0 to |wf.nodes|
      invariant entryNodes + WithoutInputs(wf.nodes[i..]) == WithoutInputs(wf.nodes)
    {
      assert wf.nodes[i..][0] == wf.nodes[i] && wf.nodes[i..][1..] == wf.nodes[i+1..];
      if |wf.nodes[i].inputs| == 0 {
        entryNodes := entryNodes + [wf.nodes[i].id];
      }
    }
  }

  lemma MayReturn(wf: Workflow, s: State, k: JobKey, r: ExecutionResult)
    requires k in s.jobs && s.jobs[k] == Active(Execute) && (r.skipped ==> r.success)
    requires FindNode(wf.nodes, k.node).Some? && FindNode(wf.nodes, k.node).value.kind.Regular?
    ensures Enabled(wf, s, ExecutorReturns(k, r))
  {
  }

  lemma ProceedIsEnabled(wf: Workflow, s: State, k: JobKey)
    requires CanProceed(wf, s, k)
    ensures Enabled(wf, s, Proceed(k)) && Apply(wf, s, Proceed(k)) == ProceedStep(wf, s, k)
  {
  }

  /** The two writes of a result that processing a job makes. */
  ghost predicate MayWrite(k: JobKey, n: Id, r: ExecutionResult, pc: Pc) {
    || (pc == WriteResult(r) && n == k.node)
    || (pc.Releasing? && pc.tasks != [] && pc.tasks[0] == Consider(n, false) && r == SKIPPED_RESULT)
  }

  ghost function AfterWrite(wf: Workflow, n: Id, r: ExecutionResult, pc: Pc): Pc
    requires pc.WriteResult? || (pc.Releasing? && pc.tasks != [])
  {
    if pc.Releasing? then Releasing(pc.r, Tasks(OutputsOf(wf, n), None) + pc.tasks[1..])
    else if r.success then Releasing(r, Tasks(OutputsOf(wf, n), r.nextNodes))
    else MarkFailed(r)
  }

  lemma UnmovedStays(wf: Workflow, s: State, a: Action, k: JobKey)
    requires Enabled(wf, s, a) && !Moves(a, k) && AtPc(s, k)
    ensures k in Apply(wf, s, a).jobs && Apply(wf, s, a).jobs[k] == s.jobs[k]
  {
    QueueChanges(wf, s, a);
    hide Apply, Enabled;
  }
}
