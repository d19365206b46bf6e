/** What a delay node's result is. */
module SchedulerDelayData {
  import opened Graphs
  import opened Workflows
  import opened NodeInputs
  import opened Scheduler
  import opened SchedulerEffects
  import opened SchedulerContainment
  import opened SchedulerJoin

  /** What a resumed job of the node would gather in this state. */
  function GatheredIn(wf: Workflow, s: State, d: Id): ExecutionResult {
    SuccessResult(NodeInputData(Some(Obj(map[])), InputsOf(wf, d), s.results))
  }

  /** What such a job could have gathered in the states up to the i-th. */
  function GatheredSoFar(wf: Workflow, states: seq<State>, i: nat, d: Id): set<ExecutionResult>
    requires i < |states|
  {
    {GatheredIn(wf, states[i], d)} + if i == 0 then {} else GatheredSoFar(wf, states, i - 1, d)
  }

  /** Resolved only by a skip or with gathered data. */
  predicate Passed(r: ExecutionResult, outs: set<ExecutionResult>) {
    r.Resolved() ==> r == SKIPPED_RESULT || r in outs
  }

  predicate PcPasses(pc: Pc, outs: set<ExecutionResult>) {
    match pc
    case WriteResult(r) => Passed(r, outs)
    case MarkFailed(r) => Passed(r, outs)
    case Releasing(r, _) => Passed(r, outs)
    case AcquireLock(r) => Passed(r, outs)
    case LockedStatus(r) => Passed(r, outs)
    case LockedCount(r) => Passed(r, outs)
    case LockedComplete(r) => Passed(r, outs)
    case Unlock(r) => Passed(r, outs)
    case Finish(r) => Passed(r, outs) || IsDelayedMarker(r)
    case _ => true
  }

  predicate JobPasses(j: JobState, outs: set<ExecutionResult>) {
    match j
    case Active(pc) => PcPasses(pc, outs)
    case Returned(r) => Passed(r, outs) || IsDelayedMarker(r)
    case _ => true
  }

  ghost predicate Passes(s: State, d: Id, outs: set<ExecutionResult>) {
    && (d in s.results ==> Passed(s.results[d], outs))
    && forall k :: k in s.jobs && k.node == d ==> JobPasses(s.jobs[k], outs)
  }

  lemma MovedPasses(wf: Workflow, s: State, a: Action, k: JobKey, outs: set<ExecutionResult>)
    requires Enabled(wf, s, a) && Moves(a, k) && k in s.jobs && k.node != ROOT_NODE && IsDelay(wf, k.node)
    requires s.jobs[k].Active? ==> PcFits(wf, k, s.jobs[k].pc)
    requires Passes(s, k.node, outs) && GatheredIn(wf, s, k.node) in outs
    ensures JobPasses(MovedJob(wf, s, a, k), outs)
  {
    assert JobPasses(s.jobs[k], outs);
    if StartsDelay(s, a) {
      StartHandsOver(wf, s, a);
    }
    hide AfterTask, FindNode, Tasks, DelayedMarker, IsDelayedMarker, NodeInputData, Passes;
    assert k.node in s.results ==> Passed(s.results[k.node], outs);
  }

  lemma WrittenPasses(wf: Workflow, s: State, a: Action, d: Id, outs: set<ExecutionResult>)
    requires Enabled(wf, s, a) && IsDelay(wf, d) && Passes(s, d, outs)
    requires WriteOf(s, a).Writes? && WriteOf(s, a).node == d
    ensures Passed(WriteOf(s, a).r, outs)
  {
    hide FindNode, IsDelayedMarker;
    if !Skips(s, a) {
      assert JobPasses(s.jobs[a.k], outs);
    }
  }

  lemma PassesStep(wf: Workflow, s: State, a: Action, d: Id, outs: set<ExecutionResult>)
    requires Contained(wf, s) && Enabled(wf, s, a) && IsDelay(wf, d) && d != ROOT_NODE
    requires Passes(s, d, outs) && GatheredIn(wf, s, d) in outs
    ensures Passes(Apply(wf, s, a), d, outs)
  {
    ResultEffect(wf, s, a);
    QueueChanges(wf, s, a);
    hide Contained, Enabled, Apply, IsDelay, WriteOf, AddOf, MovedJob, JobPasses, Passed, GatheredIn;
    var s' := Apply(wf, s, a);
    if WriteOf(s, a).Writes? && WriteOf(s, a).node == d {
      WrittenPasses(wf, s, a, d, outs);
    }
    forall k | k in s'.jobs && k.node == d ensures JobPasses(s'.jobs[k], outs) {
      if Moves(a, k) {
        ActiveJob(wf, s, k);
        MovedPasses(wf, s, a, k, outs);
        JobMoves(wf, s, a, k);
      } else if k !in s.jobs {
        WaitingPasses(s'.jobs[k], outs);
      }
    }
  }

  lemma WaitingPasses(j: JobState, outs: set<ExecutionResult>)
    requires j.Waiting?
    ensures JobPasses(j, outs)
  {
  }

  lemma MorePasses(s: State, d: Id, outs: set<ExecutionResult>, more: set<ExecutionResult>)
    requires Passes(s, d, outs)
    ensures Passes(s, d, outs + more)
  {
    hide IsDelayedMarker;
  }

  lemma {:induction false} RunPasses(wf: Workflow, states: seq<State>, steps: seq<Action>, i: nat, d: Id)
    requires IsRun(wf, states, steps) && i < |states| && IsDelay(wf, d) && d != ROOT_NODE
    ensures Passes(states[i], d, GatheredSoFar(wf, states, i, d))
  {
    hide Apply, Enabled, Contained, IsDelay, Passes, GatheredIn;
    if i == 0 {
      NothingPassed(wf, d, GatheredSoFar(wf, states, 0, d));
    } else {
      var outs := GatheredSoFar(wf, states, i - 1, d);
      RunPasses(wf, states, steps, i - 1, d);
      RunContained(wf, states, steps, i - 1);
      PassesStep(wf, states[i-1], steps[i-1], d, outs);
      MorePasses(states[i], d, outs, {GatheredIn(wf, states[i], d)});
      assert outs + {GatheredIn(wf, states[i], d)} == GatheredSoFar(wf, states, i, d);
    }
  }

  lemma NothingPassed(wf: Workflow, d: Id, outs: set<ExecutionResult>)
    ensures Passes(Init(wf), d, outs)
  {
  }

  lemma {:induction false} GatheredWhen(wf: Workflow, states: seq<State>, i: nat, d: Id, r: ExecutionResult) returns (j: nat)
    requires i < |states| && r in GatheredSoFar(wf, states, i, d)
    ensures j <= i && r == GatheredIn(wf, states[j], d)
  {
    if r == GatheredIn(wf, states[i], d) {
      j := i;
    } else {
      j := GatheredWhen(wf, states, i - 1, d, r);
    }
  }

  /** A resolved result of a delay node is the skip, or what its inputs had in some earlier state. */
  lemma DelayResultIsGathered(wf: Workflow, states: seq<State>, steps: seq<Action>, i: nat, d: Id) returns (j: nat)
    requires IsRun(wf, states, steps) && i < |states| && IsDelay(wf, d) && d != ROOT_NODE
    requires ResolvedIn(states[i].results, d) && states[i].results[d] != SKIPPED_RESULT
    ensures j <= i && states[i].results[d] == GatheredIn(wf, states[j], d)
  {
    hide IsRun, IsDelay, GatheredIn;
    RunPasses(wf, states, steps, i, d);
    j := GatheredWhen(wf, states, i, d, states[i].results[d]);
  }

  /** Without inputs there is nothing to gather: the result is an empty object, whatever the job carried. */
  lemma ParentlessDelayIsEmpty(wf: Workflow, states: seq<State>, steps: seq<Action>, i: nat, d: Id)
    requires IsRun(wf, states, steps) && i < |states| && IsDelay(wf, d) && d != ROOT_NODE && InputsOf(wf, d) == []
    requires ResolvedIn(states[i].results, d) && states[i].results[d] != SKIPPED_RESULT
    ensures states[i].results[d] == SuccessResult(Some(Obj(map[])))
  {
    hide IsRun, IsDelay;
    var j := DelayResultIsGathered(wf, states, steps, i, d);
  }
}
