/** Which children a branch selection skips, and which are looked at. */
module SchedulerSelection {
  import opened Graphs
  import opened Workflows
  import opened Scheduler
  import opened SchedulerEffects
  import opened SchedulerContainment
  import opened SchedulerDelay
  import opened SchedulerLoss

  /** A job records a success of its node that selects these children. */
  predicate Selects(s: State, a: Action, k: JobKey, sel: seq<Id>) {
    && a == Proceed(k) && AtPc(s, k) && s.jobs[k].pc.WriteResult?
    && s.jobs[k].pc.r.success && s.jobs[k].pc.r.nextNodes == Some(sel)
  }

  /** And does not select this output of the node. */
  ghost predicate Deselects(wf: Workflow, s: State, a: Action, k: JobKey, c: Id) {
    c in OutputsOf(wf, k.node) && exists sel :: Selects(s, a, k, sel) && c !in sel
  }

  ghost predicate WasDeselected(wf: Workflow, states: seq<State>, steps: seq<Action>, i: nat, k: JobKey, c: Id)
    requires i <= |steps| < |states|
  {
    exists j :: 0 <= j < i && Deselects(wf, states[j], steps[j], k, c)
  }

  /** The job has decided to skip the child. */
  predicate WillSkip(s: State, k: JobKey, c: Id) {
    AtPc(s, k) && s.jobs[k].pc.Releasing? && Consider(c, false) in s.jobs[k].pc.tasks
  }

  // ------------------------------------------------ only what was not selected

  lemma SkipsFromTask(wf: Workflow, results: map<Id, ExecutionResult>, tasks: seq<Task>, c: Id)
    requires tasks != [] && Consider(c, false) in AfterTask(wf, results, tasks)
    ensures Consider(c, false) in tasks
  {
    var after := AfterTask(wf, results, tasks);
    var i :| 0 <= i < |after| && after[i] == Consider(c, false);
    hide Ready, OutputsOf;
  }

  lemma SkipsFromWrite(wf: Workflow, outputs: seq<Id>, nextNodes: Option<seq<Id>>, c: Id)
    ensures Consider(c, false) in Tasks(outputs, nextNodes) <==> c in outputs && nextNodes.Some? && c !in nextNodes.value
    ensures Consider(c, true) in Tasks(outputs, nextNodes) <==> c in outputs && (nextNodes.None? || c in nextNodes.value)
  {
    var tasks := Tasks(outputs, nextNodes);
    if c in outputs {
      var i :| 0 <= i < |outputs| && outputs[i] == c;
      assert tasks[i].child == c;
    }
  }

  /** A decision to skip is taken when a selection is recorded. */
  lemma WhoDecides(wf: Workflow, s: State, a: Action, k: JobKey, c: Id)
    requires Enabled(wf, s, a) && Moves(a, k) && !WillSkip(s, k, c)
    requires MovedJob(wf, s, a, k).Active? && MovedJob(wf, s, a, k).pc.Releasing?
    requires Consider(c, false) in MovedJob(wf, s, a, k).pc.tasks
    ensures Deselects(wf, s, a, k, c)
  {
    if a.Proceed? && s.jobs[k].pc.Releasing? {
      SkipsFromTask(wf, s.results, s.jobs[k].pc.tasks, c);
    } else {
      assert a == Proceed(k) && s.jobs[k].pc.WriteResult?;
      var r, node := s.jobs[k].pc.r, FindNode(wf.nodes, k.node).value;
      SkipsFromWrite(wf, node.outputs, r.nextNodes, c);
      assert Selects(s, a, k, r.nextNodes.value);
    }
    hide FindNode, Tasks;
  }

  lemma DecidedStep(wf: Workflow, s: State, a: Action, k: JobKey, c: Id)
    requires Enabled(wf, s, a) && WillSkip(Apply(wf, s, a), k, c) && !WillSkip(s, k, c)
    ensures Deselects(wf, s, a, k, c)
  {
    QueueChanges(wf, s, a);
    hide Apply, Enabled, AddOf, MovedJob, OutputsOf;
    if Moves(a, k) {
      JobMoves(wf, s, a, k);
      WhoDecides(wf, s, a, k, c);
    }
  }

  lemma {:induction false} WasDecided(wf: Workflow, states: seq<State>, steps: seq<Action>, i: nat, k: JobKey, c: Id)
    requires IsRun(wf, states, steps) && i < |states| && WillSkip(states[i], k, c)
    ensures i <= |steps| && WasDeselected(wf, states, steps, i, k, c)
  {
    hide Apply, Enabled, Deselects, WillSkip;
    if i == 0 {
      NobodyDecided(wf, k, c);
    } else if WillSkip(states[i-1], k, c) {
      WasDecided(wf, states, steps, i - 1, k, c);
    } else {
      DecidedStep(wf, states[i-1], steps[i-1], k, c);
    }
  }

  lemma NobodyDecided(wf: Workflow, k: JobKey, c: Id)
    ensures !WillSkip(Init(wf), k, c)
  {
  }

  /**
   * Only what a branch selection leaves out is skipped: a node that is skipped is an output of one
   * whose success, recorded before by the same job, selected others only.
   */
  lemma OnlyUnselectedIsSkipped(wf: Workflow, states: seq<State>, steps: seq<Action>, i: nat, c: Id)
    requires IsRun(wf, states, steps) && i < |steps| && SkippedAt(states[i], steps[i], c)
    ensures WasDeselected(wf, states, steps, i, steps[i].k, c)
  {
    assert WillSkip(states[i], steps[i].k, c);
    WasDecided(wf, states, steps, i, steps[i].k, c);
  }

  // ---------------------------------------------------- everything is worked off

  /** The job releases children throughout, from the recording of this result on. */
  ghost predicate WorksOff(wf: Workflow, states: seq<State>, steps: seq<Action>, i: nat, j: nat, k: JobKey, r: ExecutionResult) {
    && IsRun(wf, states, steps) && i < j < |states|
    && steps[i] == Proceed(k) && AtPc(states[i], k) && states[i].jobs[k].pc == WriteResult(r) && r.success
    && (forall x :: i < x <= j ==> ReleasesAt(states[x], k))
  }

  /** The job's first pending task is this, and it does it. */
  predicate Does(s: State, a: Action, k: JobKey, task: Task) {
    a == Proceed(k) && AtPc(s, k) && s.jobs[k].pc.Releasing? && s.jobs[k].pc.tasks != [] && s.jobs[k].pc.tasks[0] == task
  }

  predicate LooksAtChild(s: State, a: Action, k: JobKey, c: Id) {
    Does(s, a, k, Consider(c, true))
  }

  predicate EnqueuesChild(s: State, a: Action, k: JobKey, c: Id) {
    Does(s, a, k, Enqueue(c))
  }

  predicate ReleasesAt(s: State, k: JobKey) {
    AtPc(s, k) && s.jobs[k].pc.Releasing?
  }

  /** What a job that releases children has still to do. */
  function Pending(s: State, k: JobKey): seq<Task> {
    if ReleasesAt(s, k) then s.jobs[k].pc.tasks else []
  }

  lemma RestStays(wf: Workflow, results: map<Id, ExecutionResult>, tasks: seq<Task>, task: Task)
    requires tasks != [] && task in tasks && task != tasks[0]
    ensures task in AfterTask(wf, results, tasks)
  {
    var i :| 0 <= i < |tasks| && tasks[i] == task;
    assert tasks[1..][i-1] == task;
    hide Ready, OutputsOf;
  }

  lemma ReleasingStep(wf: Workflow, s: State, a: Action, k: JobKey)
    requires Enabled(wf, s, a) && ReleasesAt(s, k) && ReleasesAt(Apply(wf, s, a), k)
    ensures if Moves(a, k)
      then a == Proceed(k) && Pending(s, k) != [] && Pending(Apply(wf, s, a), k) == AfterTask(wf, s.results, Pending(s, k))
      else Pending(Apply(wf, s, a), k) == Pending(s, k)
  {
    QueueChanges(wf, s, a);
    if Moves(a, k) {
      JobMoves(wf, s, a, k);
      hide Apply, FindNode, AfterTask, AddOf;
    } else {
      hide Apply, Enabled, AddOf;
    }
  }

  lemma {:induction false} TaskIsDone(wf: Workflow, states: seq<State>, steps: seq<Action>, i: nat, j: nat, k: JobKey, task: Task) returns (x: nat)
    requires IsRun(wf, states, steps) && i <= j < |states|
    requires forall x :: i <= x <= j ==> ReleasesAt(states[x], k)
    requires task in Pending(states[i], k) && task !in Pending(states[j], k)
    ensures i <= x < j && Does(states[x], steps[x], k, task)
    decreases j - i
  {
    hide Apply, Enabled, AfterTask;
    var s, a := states[i], steps[i];
    assert i < j && states[i+1] == Apply(wf, s, a) && ReleasesAt(states[i+1], k);
    ReleasingStep(wf, s, a, k);
    if Does(s, a, k, task) {
      x := i;
    } else {
      if Moves(a, k) {
        RestStays(wf, s.results, Pending(s, k), task);
      }
      x := TaskIsDone(wf, states, steps, i + 1, j, k, task);
    }
  }

  lemma FirstTasks(wf: Workflow, states: seq<State>, steps: seq<Action>, i: nat, j: nat, k: JobKey, r: ExecutionResult)
    requires WorksOff(wf, states, steps, i, j, k, r)
    ensures Pending(states[i+1], k) == Tasks(OutputsOf(wf, k.node), r.nextNodes)
  {
    JobMoves(wf, states[i], steps[i], k);
    hide Apply, FindNode, Tasks;
  }

  /** What a job skips while it works off its children, it had decided to skip from the start. */
  lemma {:induction false} SkipWasPending(wf: Workflow, states: seq<State>, steps: seq<Action>, i: nat, x: nat, k: JobKey, c: Id)
    requires IsRun(wf, states, steps) && i <= x < |states|
    requires forall y :: i <= y <= x ==> ReleasesAt(states[y], k)
    requires Consider(c, false) in Pending(states[x], k)
    ensures Consider(c, false) in Pending(states[i], k)
    decreases x
  {
    hide Apply, Enabled, AfterTask;
    if i < x {
      var s, a := states[x-1], steps[x-1];
      ReleasingStep(wf, s, a, k);
      if Moves(a, k) {
        SkipsFromTask(wf, s.results, Pending(s, k), c);
      }
      SkipWasPending(wf, states, steps, i, x - 1, k, c);
    }
  }

  /**
   * A job that records a result and works off all children without a throw has skipped exactly
   * the outputs that the result does not select.
   */
  lemma SkipsExactlyUnselected(wf: Workflow, states: seq<State>, steps: seq<Action>, i: nat, j: nat, k: JobKey, r: ExecutionResult, c: Id)
    requires WorksOff(wf, states, steps, i, j, k, r) && Pending(states[j], k) == []
    ensures (exists x :: i < x < j && SkippedAt(states[x], steps[x], c) && steps[x].k == k) <==>
      c in OutputsOf(wf, k.node) && r.nextNodes.Some? && c !in r.nextNodes.value
  {
    FirstTasks(wf, states, steps, i, j, k, r);
    SkipsFromWrite(wf, OutputsOf(wf, k.node), r.nextNodes, c);
    hide Tasks, OutputsOf;
    if Consider(c, false) in Pending(states[i+1], k) {
      var x := TaskIsDone(wf, states, steps, i + 1, j, k, Consider(c, false));
      assert SkippedAt(states[x], steps[x], c) && steps[x].k == k;
    }
    forall x | i < x < j && SkippedAt(states[x], steps[x], c) && steps[x].k == k ensures Consider(c, false) in Pending(states[i+1], k) {
      SkipWasPending(wf, states, steps, i + 1, x, k, c);
    }
  }

  lemma LookDecides(wf: Workflow, s: State, a: Action, k: JobKey, c: Id)
    requires Enabled(wf, s, a) && LooksAtChild(s, a, k, c)
    requires ReleasesAt(Apply(wf, s, a), k)
    requires FindNode(wf.nodes, c).Some? && forall m :: m in FindNode(wf.nodes, c).value.inputs ==> m in s.results && (s.results[m].success || s.results[m].skipped)
    ensures Enqueue(c) in Pending(Apply(wf, s, a), k)
  {
    ReleasingStep(wf, s, a, k);
    hide Apply, FindNode;
    assert Ready(wf, s.results, c);
    assert ([Enqueue(c)] + s.jobs[k].pc.tasks[1..])[0] == Enqueue(c);
  }

  /**
   * And it has looked at every output that is selected, all of them without a selection; one
   * whose inputs all have successful or skipped results at that moment it goes on to enqueue.
   */
  lemma LooksAtSelected(wf: Workflow, states: seq<State>, steps: seq<Action>, i: nat, j: nat, k: JobKey, r: ExecutionResult, c: Id) returns (x: nat)
    requires WorksOff(wf, states, steps, i, j, k, r) && Pending(states[j], k) == []
    requires c in OutputsOf(wf, k.node) && (r.nextNodes.None? || c in r.nextNodes.value)
    ensures i < x < j && LooksAtChild(states[x], steps[x], k, c)
    ensures FindNode(wf.nodes, c).Some? && (forall m :: m in FindNode(wf.nodes, c).value.inputs ==>
              m in states[x].results && (states[x].results[m].success || states[x].results[m].skipped)) ==>
      exists y :: x < y < j && EnqueuesChild(states[y], steps[y], k, c)
  {
    FirstTasks(wf, states, steps, i, j, k, r);
    SkipsFromWrite(wf, OutputsOf(wf, k.node), r.nextNodes, c);
    hide Tasks, OutputsOf, Apply, Enabled, FindNode;
    x := TaskIsDone(wf, states, steps, i + 1, j, k, Consider(c, true));
    if FindNode(wf.nodes, c).Some? && forall m :: m in FindNode(wf.nodes, c).value.inputs ==>
         m in states[x].results && (states[x].results[m].success || states[x].results[m].skipped) {
      LookDecides(wf, states[x], steps[x], k, c);
      var y := TaskIsDone(wf, states, steps, x + 1, j, k, Enqueue(c));
    }
  }
}
