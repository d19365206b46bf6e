/** Where jobs and results can appear, and what a completed execution has behind it. */
module SchedulerContainment {
  import opened Graphs
  import opened Workflows
  import opened GraphValidation
  import opened NodeInputs
  import opened Scheduler
  import opened SchedulerEffects

  /** Reachable along outputs from an entry node. */
  ghost predicate Live(wf: Workflow, n: Id) {
    exists e :: e in EntryNodes(wf) && Reaches(FirstOutputGraph(wf.nodes), e, n)
  }

  /** An output of a reachable node. */
  ghost predicate Fed(wf: Workflow, n: Id) {
    exists m :: Live(wf, m) && n in OutputsOf(wf, m)
  }

  lemma FedIsLive(wf: Workflow, n: Id)
    requires Fed(wf, n)
    ensures Live(wf, n)
  {
    var m :| Live(wf, m) && n in OutputsOf(wf, m);
    var e :| e in EntryNodes(wf) && Reaches(FirstOutputGraph(wf.nodes), e, m);
    FirstOutputs(wf.nodes, m);
    ReachesStep(FirstOutputGraph(wf.nodes), e, m, n);
  }

  ghost predicate KeyOk(wf: Workflow, k: JobKey) {
    match k
    case Entry(n) => n in EntryNodes(wf)
    case Child(n) => Fed(wf, n)
    case Resumed(n) => Live(wf, n) && IsDelay(wf, n) && n != ROOT_NODE
  }

  predicate IsDelay(wf: Workflow, n: Id) {
    FindNode(wf.nodes, n).Some? && FindNode(wf.nodes, n).value.kind.Delay?
  }

  lemma KeyIsLive(wf: Workflow, k: JobKey)
    requires KeyOk(wf, k)
    ensures Live(wf, k.node)
  {
    match k
    case Entry(n) => ReachesSelf(FirstOutputGraph(wf.nodes), n);
    case Child(n) => FedIsLive(wf, n);
    case Resumed(n) =>
  }

  ghost predicate TasksOk(wf: Workflow, tasks: seq<Task>) {
    forall i :: 0 <= i < |tasks| ==> Fed(wf, tasks[i].child)
  }

  /**
   * Delay nodes never reach an executor; regular nodes never reach the delay steps; and a node of
   * the name that returns at once gets to neither, nor to its outputs.
   */
  predicate PcFits(wf: Workflow, k: JobKey, pc: Pc) {
    if k.node == ROOT_NODE then pc.ReadOwn? || pc.Finish?
    else if k.Resumed? then !pc.Execute? && !pc.MarkFailed? && !pc.DelayEnqueue? && (pc.WriteResult? ==> pc.r.success)
    else if IsDelay(wf, k.node) then pc.ReadOwn? || pc.ReadStatus? || pc.DelayEnqueue? || pc.Finish?
    else !pc.DelayEnqueue? && !pc.ResumedStatus? && !pc.ResumedGather?
  }

  ghost predicate JobOk(wf: Workflow, k: JobKey, j: JobState) {
    j.Active? ==> PcFits(wf, k, j.pc) && (j.pc.Releasing? ==> TasksOk(wf, j.pc.tasks))
  }

  ghost predicate Contained(wf: Workflow, s: State) {
    && (forall i :: 0 <= i < |s.starting| ==> s.starting[i] in EntryNodes(wf))
    && (forall k :: k in s.hist.added ==> KeyOk(wf, k))
    && (forall k :: k in s.jobs ==> k in s.hist.added && JobOk(wf, k, s.jobs[k]))
    && (forall n :: n in s.results ==> Live(wf, n))
  }

  // ------------------------------------------- what each operation keeps

  lemma JobKeeps(wf: Workflow, s: State, k: JobKey, j: JobState)
    requires Contained(wf, s) && k in s.jobs && JobOk(wf, k, j)
    ensures Contained(wf, WithJob(s, k, j))
  {
  }

  lemma ResultKeeps(wf: Workflow, s: State, n: Id, r: ExecutionResult)
    requires Contained(wf, s) && Live(wf, n)
    ensures Contained(wf, WithResult(s, n, r))
  {
  }

  lemma AddedKeeps(wf: Workflow, s: State, k: JobKey, readyAt: int)
    requires Contained(wf, s) && KeyOk(wf, k)
    ensures Contained(wf, WithAdded(s, k, readyAt))
  {
  }

  lemma ActiveJob(wf: Workflow, s: State, k: JobKey)
    requires Contained(wf, s) && k in s.jobs
    ensures Live(wf, k.node) && KeyOk(wf, k) && JobOk(wf, k, s.jobs[k])
  {
    KeyIsLive(wf, k);
  }

  lemma QueuedIsAdded(wf: Workflow, s: State, k: JobKey)
    requires Contained(wf, s)
    ensures k in s.jobs ==> k in s.hist.added
  {
  }

  lemma OutputTasksOk(wf: Workflow, n: Id, nextNodes: Option<seq<Id>>)
    requires Live(wf, n)
    ensures TasksOk(wf, Tasks(OutputsOf(wf, n), nextNodes))
  {
  }

  lemma RestTasksOk(wf: Workflow, tasks: seq<Task>)
    requires TasksOk(wf, tasks) && tasks != []
    ensures Fed(wf, tasks[0].child) && TasksOk(wf, tasks[1..])
  {
  }

  lemma MoreTasksOk(wf: Workflow, a: seq<Task>, b: seq<Task>)
    requires TasksOk(wf, a) && TasksOk(wf, b)
    ensures TasksOk(wf, a + b)
  {
  }

  lemma AfterTaskOk(wf: Workflow, results: map<Id, ExecutionResult>, tasks: seq<Task>)
    requires TasksOk(wf, tasks) && tasks != []
    ensures Fed(wf, tasks[0].child) && Live(wf, tasks[0].child)
    ensures TasksOk(wf, AfterTask(wf, results, tasks))
  {
    RestTasksOk(wf, tasks);
    var c, rest := tasks[0].child, tasks[1..];
    FedIsLive(wf, c);
    OutputTasksOk(wf, c, None);
    assert TasksOk(wf, [Enqueue(c)]);
    hide TasksOk, Fed, Live, Ready;
    MoreTasksOk(wf, Tasks(OutputsOf(wf, c), None), rest);
    MoreTasksOk(wf, [Enqueue(c)], rest);
  }

  lemma StatusKeeps(wf: Workflow, s: State, status: Status, lock: Option<JobKey>)
    requires Contained(wf, s)
    ensures Contained(wf, WithStatus(s, status)) && Contained(wf, s.(lock := lock))
  {
  }

  lemma SkipKeeps(wf: Workflow, s: State, c: Id)
    requires Contained(wf, s) && Live(wf, c)
    ensures Contained(wf, Skip(s, c))
  {
  }

  lemma StartDelayKeeps(wf: Workflow, s: State, n: Id, duration: int)
    requires Contained(wf, s) && KeyOk(wf, Resumed(n))
    ensures Contained(wf, StartDelay(s, n, duration))
  {
    AddedKeeps(wf, s, Resumed(n), s.now + duration);
  }

  lemma ReleaseEffectKeeps(wf: Workflow, s: State, tasks: seq<Task>)
    requires Contained(wf, s) && TasksOk(wf, tasks)
    ensures Contained(wf, ReleaseEffect(s, tasks))
  {
    if tasks != [] {
      AfterTaskOk(wf, s.results, tasks);
      hide Contained, Skip, WithAdded, Live, Fed, TasksOk;
      SkipKeeps(wf, s, tasks[0].child);
      AddedKeeps(wf, s, Child(tasks[0].child), s.now);
    }
  }

  lemma EffectKeeps(wf: Workflow, s: State, k: JobKey, node: Node, pc: Pc)
    requires Contained(wf, s) && Live(wf, k.node) && node.id == k.node
    requires pc.Releasing? ==> TasksOk(wf, pc.tasks)
    requires pc.DelayEnqueue? ==> DelayOf(node).Some? && KeyOk(wf, Resumed(k.node))
    ensures Contained(wf, Effect(s, k, node, pc))
  {
    hide Contained, StartDelay, WithResult, WithStatus, Live, Fed, DelayOf, ReleaseEffect, KeyOk, TasksOk;
    match pc
    case WriteResult(r) => ResultKeeps(wf, s, k.node, r);
    case DelayEnqueue => StartDelayKeeps(wf, s, k.node, DelayOf(node).value);
    case Releasing(_, tasks) => ReleaseEffectKeeps(wf, s, tasks);
    case _ =>
      StatusKeeps(wf, s, Failed, None);
      StatusKeeps(wf, s, Completed, Some(k));
  }

  lemma DelayKeyOk(wf: Workflow, k: JobKey)
    requires KeyOk(wf, k) && PcFits(wf, k, DelayEnqueue)
    ensures KeyOk(wf, Resumed(k.node))
  {
    KeyIsLive(wf, k);
  }

  lemma NextJobFits(wf: Workflow, s: State, k: JobKey, node: Node, pc: Pc)
    requires PcFits(wf, k, pc) && KeyOk(wf, k) && FindNode(wf.nodes, k.node) == Some(node)
    requires pc.DelayEnqueue? ==> DelayOf(node).Some?
    ensures var j := NextJob(wf, s, k, node, pc); j.Active? ==> PcFits(wf, k, j.pc)
  {
    hide FindNode, NodeInputData, ResolveDuration, DelayedMarker, AfterTask, Tasks, Live, Fed;
  }

  lemma NextTasksOk(wf: Workflow, s: State, k: JobKey, node: Node, pc: Pc)
    requires JobOk(wf, k, Active(pc)) && Live(wf, k.node) && FindNode(wf.nodes, k.node) == Some(node)
    requires pc.DelayEnqueue? ==> DelayOf(node).Some?
    ensures var j := NextJob(wf, s, k, node, pc); j.Active? && j.pc.Releasing? ==> TasksOk(wf, j.pc.tasks)
  {
    if pc.WriteResult? {
      OutputTasksOk(wf, k.node, pc.r.nextNodes);
    }
    if pc.Releasing? && pc.tasks != [] {
      AfterTaskOk(wf, s.results, pc.tasks);
    }
    hide FindNode, NodeInputData, DelayOf, DelayedMarker, AfterTask, Tasks, Live, Fed, TasksOk, PcFits;
  }

  lemma NextJobOk(wf: Workflow, s: State, k: JobKey)
    requires Contained(wf, s) && CanProceed(wf, s, k)
    ensures JobOk(wf, k, NextJob(wf, s, k, FindNode(wf.nodes, k.node).value, s.jobs[k].pc))
  {
    ActiveJob(wf, s, k);
    hide Contained, PcFits, TasksOk, Live, Fed, FindNode, NextJob;
    NextJobFits(wf, s, k, FindNode(wf.nodes, k.node).value, s.jobs[k].pc);
    NextTasksOk(wf, s, k, FindNode(wf.nodes, k.node).value, s.jobs[k].pc);
  }

  lemma EffectKeepsJob(s: State, k: JobKey, node: Node, pc: Pc)
    requires k in s.jobs && (pc.DelayEnqueue? ==> DelayOf(node).Some?)
    ensures k in Effect(s, k, node, pc).jobs
  {
  }

  lemma ProceedKeeps(wf: Workflow, s: State, k: JobKey)
    requires Contained(wf, s) && CanProceed(wf, s, k)
    ensures Contained(wf, ProceedStep(wf, s, k))
  {
    var node, pc := FindNode(wf.nodes, k.node).value, s.jobs[k].pc;
    ActiveJob(wf, s, k);
    if pc.DelayEnqueue? {
      DelayKeyOk(wf, k);
    }
    hide Contained, Effect, NextJob, KeyOk, PcFits, TasksOk, DelayOf;
    EffectKeeps(wf, s, k, node, pc);
    NextJobOk(wf, s, k);
    EffectKeepsJob(s, k, node, pc);
    JobKeeps(wf, Effect(s, k, node, pc), k, NextJob(wf, s, k, node, pc));
  }

  lemma ApplyKeeps(wf: Workflow, s: State, a: Action)
    requires Contained(wf, s) && Enabled(wf, s, a)
    ensures Contained(wf, Apply(wf, s, a))
  {
    if a.Proceed? {
      ProceedKeeps(wf, s, a.k);
    } else {
      OtherKeeps(wf, s, a);
    }
  }

  lemma OtherKeeps(wf: Workflow, s: State, a: Action)
    requires Contained(wf, s) && Enabled(wf, s, a) && !a.Proceed?
    ensures Contained(wf, Apply(wf, s, a))
  {
    match a
    case EnqueueEntry(timestamp) => EnqueueEntryKeeps(wf, s, timestamp);
    case RecordFailure(k) => RecordFailureKeeps(wf, s, k);
    case CacheReturned(k) =>
      ActiveJob(wf, s, k);
      ResultKeeps(wf, s, k.node, s.jobs[k].r);
    case RemoveWaiting(k) =>
    case ExecutorReturns(k, r) => JobStepKeeps(wf, s, a, k);
    case Throw(k, safe, retry) => JobStepKeeps(wf, s, a, k);
    case Begin(k) => JobStepKeeps(wf, s, a, k);
    case _ =>
  }

  lemma EnqueueEntryKeeps(wf: Workflow, s: State, timestamp: string)
    requires Contained(wf, s) && Enabled(wf, s, EnqueueEntry(timestamp))
    ensures Contained(wf, Apply(wf, s, EnqueueEntry(timestamp)))
  {
    assert s.starting[0] in EntryNodes(wf);
    AddedKeeps(wf, WithStamp(s, s.starting[0], timestamp), Entry(s.starting[0]), s.now);
    hide Taken, KeyOk;
  }

  lemma RecordFailureKeeps(wf: Workflow, s: State, k: JobKey)
    requires Contained(wf, s) && Enabled(wf, s, RecordFailure(k))
    ensures Contained(wf, Apply(wf, s, RecordFailure(k)))
  {
    ActiveJob(wf, s, k);
    ResultKeeps(wf, s, k.node, ErrorResult("Node execution failed"));
    JobKeeps(wf, WithResult(s, k.node, ErrorResult("Node execution failed")), k, Exhausted(ResultRecorded));
    JobKeeps(wf, s, k, Exhausted(StatusRecorded));
  }

  lemma JobStepKeeps(wf: Workflow, s: State, a: Action, k: JobKey)
    requires Contained(wf, s) && Enabled(wf, s, a)
    requires (a.ExecutorReturns? || a.Throw? || a.Begin?) && a.k == k
    ensures Contained(wf, Apply(wf, s, a))
  {
    ActiveJob(wf, s, k);
    var s' := Apply(wf, s, a);
    JobKeeps(wf, s, k, s'.jobs[k]);
  }

  /** In every state of every run, jobs and results belong to nodes reachable from an entry. */
  lemma {:induction false} RunContained(wf: Workflow, states: seq<State>, steps: seq<Action>, i: nat)
    requires IsRun(wf, states, steps) && i < |states|
    ensures Contained(wf, states[i])
  {
    hide Apply, Enabled;
    if i > 0 {
      RunContained(wf, states, steps, i - 1);
      ApplyKeeps(wf, states[i-1], steps[i-1]);
    }
  }

  // ---------------------------------------------------------- completion

  lemma {:induction false} WithoutInputsAreNodes(nodes: seq<Node>, e: Id)
    ensures e in WithoutInputs(nodes) <==> exists n :: n in nodes && n.id == e && n.inputs == []
  {
    if nodes != [] {
      WithoutInputsAreNodes(nodes[1..], e);
      assert nodes == [nodes[0]] + nodes[1..];
    }
  }

  /** With closed references, whatever is reachable is a node. */
  lemma LiveIsNode(wf: Workflow, n: Id)
    requires ClosedReferences(wf.nodes) && Live(wf, n)
    ensures n in Ids(wf.nodes)
  {
    var g := FirstOutputGraph(wf.nodes);
    var e :| e in EntryNodes(wf) && Reaches(g, e, n);
    WithoutInputsAreNodes(wf.nodes, e);
    var p :| IsPathBetween(g, p, e, n);
    forall u, v | u in Ids(wf.nodes) && v in Succ(g, u) ensures v in Ids(wf.nodes) {
      FirstOutputs(wf.nodes, u);
    }
    ClosedContainsReachable(g, Ids(wf.nodes), p);
  }

  ghost predicate CompletedSafely(wf: Workflow, s: State) {
    && (s.status == Completed ==> s.results.Keys == Ids(wf.nodes))
    && forall k :: AboutToComplete(s, k) ==> s.results.Keys == Ids(wf.nodes)
  }

  lemma ResultsAreNodes(wf: Workflow, s: State)
    requires Accepted(wf) && Contained(wf, s)
    ensures s.results.Keys <= Ids(wf.nodes)
  {
    forall n | n in s.results ensures n in Ids(wf.nodes) {
      LiveIsNode(wf, n);
    }
  }

  lemma ResultsGrow(wf: Workflow, s: State, a: Action)
    requires Enabled(wf, s, a)
    ensures s.results.Keys <= Apply(wf, s, a).results.Keys
  {
    ResultEffect(wf, s, a);
    hide Apply, Enabled, WriteOf;
  }

  /** The count that decides: as many rows as nodes, and every row is a node's. */
  lemma CountIsComplete(wf: Workflow, s: State)
    requires Accepted(wf) && Contained(wf, s) && |wf.nodes| - |s.results| == 0
    ensures s.results.Keys == Ids(wf.nodes)
  {
    UniqueCount(wf.nodes);
    ResultsAreNodes(wf, s);
    SameSize(s.results.Keys, Ids(wf.nodes));
  }

  ghost predicate AboutToComplete(s: State, k: JobKey) {
    k in s.jobs && s.jobs[k].Active? && s.jobs[k].pc.LockedComplete?
  }

  /** Only a job in position completes the execution. */
  lemma WhoCompletes(wf: Workflow, s: State, a: Action)
    requires Enabled(wf, s, a)
    requires Apply(wf, s, a).status == Completed && s.status != Completed
    ensures a.Proceed? && AboutToComplete(s, a.k)
  {
    StatusChanges(wf, s, a);
    hide Apply, Enabled;
  }

  /** Only the count puts a job in that position. */
  lemma WhoIsAboutToComplete(wf: Workflow, s: State, a: Action, k: JobKey)
    requires Enabled(wf, s, a)
    requires AboutToComplete(Apply(wf, s, a), k) && !AboutToComplete(s, k)
    ensures |wf.nodes| - |s.results| == 0
  {
    QueueChanges(wf, s, a);
    hide Apply, Enabled, AddOf, MovedJob;
    if Moves(a, k) {
      JobMoves(wf, s, a, k);
      WhoMovesToComplete(wf, s, a, k);
    }
  }

  lemma WhoMovesToComplete(wf: Workflow, s: State, a: Action, k: JobKey)
    requires Enabled(wf, s, a) && Moves(a, k)
    requires MovedJob(wf, s, a, k).Active? && MovedJob(wf, s, a, k).pc.LockedComplete?
    ensures |wf.nodes| - |s.results| == 0
  {
    hide FindNode, AfterTask, ContinueOnFailResult;
  }

  lemma CompletedStep(wf: Workflow, s: State, a: Action)
    requires Accepted(wf) && Contained(wf, s) && CompletedSafely(wf, s) && Enabled(wf, s, a)
    ensures CompletedSafely(wf, Apply(wf, s, a))
  {
    hide Apply, Enabled, Contained, Accepted, AboutToComplete;
    var s' := Apply(wf, s, a);
    ApplyKeeps(wf, s, a);
    ResultsAreNodes(wf, s');
    ResultsGrow(wf, s, a);
    if s'.status == Completed && s.status != Completed {
      WhoCompletes(wf, s, a);
    }
    forall k | AboutToComplete(s', k) ensures s'.results.Keys == Ids(wf.nodes) {
      if !AboutToComplete(s, k) {
        WhoIsAboutToComplete(wf, s, a, k);
        CountIsComplete(wf, s);
      }
    }
  }

  lemma {:induction false} RunCompletedSafely(wf: Workflow, states: seq<State>, steps: seq<Action>, i: nat)
    requires Accepted(wf) && IsRun(wf, states, steps) && i < |states|
    ensures CompletedSafely(wf, states[i])
  {
    hide Apply, Enabled, Accepted, Contained;
    if i > 0 {
      RunCompletedSafely(wf, states, steps, i - 1);
      RunContained(wf, states, steps, i - 1);
      CompletedStep(wf, states[i-1], steps[i-1]);
    }
  }

  /** An accepted execution is marked completed only when every node has a result. */
  lemma CompletionSafety(wf: Workflow, states: seq<State>, steps: seq<Action>, i: nat)
    requires Accepted(wf) && IsRun(wf, states, steps) && i < |states|
    requires states[i].status == Completed
    ensures states[i].results.Keys == Ids(wf.nodes)
  {
    RunCompletedSafely(wf, states, steps, i);
  }

  /** So one with a node that the validator reports as unreachable is never marked completed. */
  lemma UnreachableNeverCompletes(wf: Workflow, states: seq<State>, steps: seq<Action>, i: nat)
    requires Accepted(wf) && IsRun(wf, states, steps) && i < |states|
    requires wf.entryNodeId != "" && UnreachableIds(FirstOutputGraph(wf.nodes), wf.entryNodeId, wf.nodes) != []
    ensures states[i].status != Completed
  {
    hide Accepted, IsRun, UnreachableIds, FirstOutputGraph;
    if states[i].status == Completed {
      CompletionSafety(wf, states, steps, i);
      RunContained(wf, states, steps, i);
      NoneUnreachable(wf, states[i]);
    }
  }

  lemma NoneUnreachable(wf: Workflow, s: State)
    requires wf.entryNodeId != "" && Contained(wf, s) && s.results.Keys == Ids(wf.nodes)
    ensures UnreachableIds(FirstOutputGraph(wf.nodes), wf.entryNodeId, wf.nodes) == []
  {
    var g := FirstOutputGraph(wf.nodes);
    forall x | x in Ids(wf.nodes) ensures Reaches(g, wf.entryNodeId, x) {
      assert Live(wf, x);
    }
    AllReachable(g, wf.entryNodeId, wf.nodes);
  }

  lemma {:induction false} AllReachable(g: Graph, entry: Id, nodes: seq<Node>)
    requires forall x :: x in Ids(nodes) ==> Reaches(g, entry, x)
    ensures UnreachableIds(g, entry, nodes) == []
  {
    if nodes != [] {
      var front := nodes[..|nodes|-1];
      assert Ids(front) <= Ids(nodes);
      assert nodes[|nodes|-1].id in Ids(nodes);
      AllReachable(g, entry, front);
    }
  }
}
