/** The workflows whose completion cannot be missed. */
module SchedulerSingle {
  import opened Graphs
  import opened Workflows
  import opened GraphValidation
  import opened NodeInputs
  import opened Scheduler
  import opened SchedulerEffects
  import opened SchedulerContainment
  import opened SchedulerIds
  import opened SchedulerOnce
  import opened SchedulerJoin
  import opened SchedulerDrain
  import opened SchedulerLock
  import opened SchedulerRuns
  import opened SchedulerCompletion
  import opened SchedulerMissed

  /** A workflow of one node, which has no links. */
  ghost predicate Solo(wf: Workflow, node: Node) {
    && Runnable(wf) && wf.nodes == [node] && node.inputs == [] && node.outputs == []
    && node.id in EntryNodes(wf) && node.id != ROOT_NODE && FindNode(wf.nodes, node.id) == Some(node)
  }

  lemma SingleIsSolo(wf: Workflow)
    requires Runnable(wf) && |wf.nodes| == 1
    ensures Solo(wf, wf.nodes[0])
  {
    var node := wf.nodes[0];
    var g := FirstOutputGraph(wf.nodes);
    UniqueNode(wf.nodes, node);
    FirstOutputs(wf.nodes, node.id);
    ReachesSelf(g, node.id);
    NoWayBack(wf, node.id, node.id);
    NoLinks(wf, node);
    hide PlainIds;
    SourceIsEntry(wf, node);
  }

  lemma NoLinks(wf: Workflow, node: Node)
    requires WellLinked(wf) && wf.nodes == [node] && node.id !in node.outputs
    ensures node.inputs == [] && node.outputs == []
  {
    hide HasCycle, EntryAcceptable, FirstOutputGraph;
    assert Ids(wf.nodes) == {node.id};
    if node.inputs != [] {
      FirstIsIn(node.inputs);
    }
    if node.outputs != [] {
      FirstIsIn(node.outputs);
    }
  }

  lemma FirstIsIn(ids: seq<Id>)
    requires ids != []
    ensures exists x :: x in ids
  {
    assert ids[0] in ids;
  }

  /** The job that writes the node's result. */
  function Writer(node: Node): JobKey {
    if node.kind.Delay? then Resumed(node.id) else Entry(node.id)
  }

  lemma SoloKeys(wf: Workflow, node: Node, k: JobKey)
    requires Solo(wf, node) && KeyOk(wf, k)
    ensures k == Writer(node) || (k == Entry(node.id) && node.kind.Delay?)
  {
    RunnableIsLinked(wf);
    LinkedIsAccepted(wf);
    hide Runnable, WellLinked, Accepted, EntryNodes, Live, Fed;
    KeyIsNode(wf, k);
    if k.Child? {
      EntryNotFed(wf, node.id);
    }
  }

  // ------------------------------------------------------- one job's way

  predicate Before(s: State) {
    s.results == map[] && s.lock.None? && s.status == Running
  }

  predicate Checking(s: State, n: Id, lock: Option<JobKey>) {
    s.results.Keys == {n} && s.lock == lock && s.status == Running
  }

  /** Where the job is tells what is in the store. */
  predicate PcTells(s: State, w: JobKey, pc: Pc) {
    match pc
    case WriteResult(r) => Before(s) && (r.skipped ==> r.success)
    case MarkFailed(r) => !r.Resolved()
    case Releasing(r, tasks) => tasks == [] && Checking(s, w.node, None)
    case AcquireLock(_) => Checking(s, w.node, None)
    case LockedStatus(_) => Checking(s, w.node, Some(w))
    case LockedCount(_) => Checking(s, w.node, Some(w))
    case LockedComplete(_) => Checking(s, w.node, Some(w))
    case Unlock(_) => s.status == Completed
    case Finish(r) => r.Resolved() ==> s.status == Completed
    case DelayEnqueue => false
    case _ => Before(s)
  }

  predicate Tells(s: State, w: JobKey) {
    if w !in s.jobs then Before(s)
    else match s.jobs[w]
      case Waiting(_) => Before(s)
      case Active(pc) => PcTells(s, w, pc)
      case Returned(r) => r.Resolved() ==> s.status == Completed
      case Exhausted(_) => false
  }

  /** Up to the executor or the gathering of inputs. */
  lemma GateStep(wf: Workflow, s: State, w: JobKey, node: Node)
    requires CanProceed(wf, s, w) && FindNode(wf.nodes, w.node) == Some(node) && w.node != ROOT_NODE && Before(s)
    requires var pc := s.jobs[w].pc; pc.ReadOwn? || pc.ReadStatus? || pc.ResumedStatus? || pc.ResumedGather?
    requires if node.kind.Delay? then ValidDuration(DelayOf(node)) && w.Resumed? else !w.Resumed?
    ensures Tells(ProceedStep(wf, s, w), w)
  {
    hide FindNode, DelayOf, NodeInputData;
  }

  lemma WriteStep(wf: Workflow, s: State, w: JobKey, node: Node)
    requires CanProceed(wf, s, w) && FindNode(wf.nodes, w.node) == Some(node) && node.outputs == []
    requires s.jobs[w].pc.WriteResult? && PcTells(s, w, s.jobs[w].pc)
    ensures Tells(ProceedStep(wf, s, w), w)
  {
    FindNodeId(wf, w.node);
    assert Tasks([], s.jobs[w].pc.r.nextNodes) == [];
    hide FindNode, Tasks;
  }

  lemma EarlyStep(wf: Workflow, s: State, w: JobKey, node: Node)
    requires CanProceed(wf, s, w) && FindNode(wf.nodes, w.node) == Some(node)
    requires var pc := s.jobs[w].pc; (pc.MarkFailed? || pc.Releasing? || pc.AcquireLock? || pc.Finish?) && PcTells(s, w, pc)
    ensures Tells(ProceedStep(wf, s, w), w)
  {
    hide FindNode, AfterTask;
  }

  lemma LockStep(wf: Workflow, s: State, w: JobKey, node: Node)
    requires CanProceed(wf, s, w) && FindNode(wf.nodes, w.node) == Some(node) && |wf.nodes| == 1
    requires var pc := s.jobs[w].pc; (pc.LockedStatus? || pc.LockedCount? || pc.LockedComplete? || pc.Unlock?) && PcTells(s, w, pc)
    ensures Tells(ProceedStep(wf, s, w), w)
  {
    OneKey(s.results, w.node);
    hide FindNode, AfterTask;
  }

  lemma OneKey<V>(m: map<Id, V>, n: Id)
    ensures m.Keys == {n} ==> |m| == 1
  {
    if m.Keys == {n} {
      assert |m.Keys| == 1;
    }
  }

  lemma WriterFits(wf: Workflow, s: State, node: Node)
    requires Solo(wf, node) && Contained(wf, s) && Writer(node) in s.jobs && s.jobs[Writer(node)].Active?
    ensures !s.jobs[Writer(node)].pc.DelayEnqueue?
    ensures node.kind.Delay? ==> ValidDuration(DelayOf(node))
  {
    hide Contained, Live, Fed, PlainIds, WellLinked, TasksOk, KeyOk, FindNode;
    assert node in wf.nodes;
    ActiveJob(wf, s, Writer(node));
  }

  lemma WriterProceeds(wf: Workflow, s: State, node: Node)
    requires Solo(wf, node) && Contained(wf, s) && Tells(s, Writer(node)) && CanProceed(wf, s, Writer(node))
    ensures Tells(ProceedStep(wf, s, Writer(node)), Writer(node))
  {
    var w := Writer(node);
    var pc := s.jobs[w].pc;
    WriterFits(wf, s, node);
    hide Runnable, Contained, FindNode, EntryNodes, DelayOf, ProceedStep;
    if pc.ReadOwn? || pc.ReadStatus? || pc.ResumedStatus? || pc.ResumedGather? {
      GateStep(wf, s, w, node);
    } else if pc.WriteResult? {
      WriteStep(wf, s, w, node);
    } else if pc.LockedStatus? || pc.LockedCount? || pc.LockedComplete? || pc.Unlock? {
      LockStep(wf, s, w, node);
    } else {
      EarlyStep(wf, s, w, node);
    }
  }

  lemma WriterMoves(wf: Workflow, s: State, a: Action, node: Node)
    requires Solo(wf, node) && Contained(wf, s) && Tells(s, Writer(node)) && Enabled(wf, s, a) && Peaceful(a)
    requires Moves(a, Writer(node))
    ensures Tells(Apply(wf, s, a), Writer(node))
  {
    if a.Proceed? {
      WriterProceeds(wf, s, node);
    } else {
      WriterBegins(wf, s, a, Writer(node));
    }
    hide Solo, Contained, FindNode, ProceedStep, CanProceed, Tells;
  }

  lemma WriterBegins(wf: Workflow, s: State, a: Action, w: JobKey)
    requires Tells(s, w) && Enabled(wf, s, a) && Peaceful(a) && Moves(a, w) && !a.Proceed?
    ensures Tells(Apply(wf, s, a), w)
  {
    hide FindNode;
  }

  // ------------------------------------------------------ everybody else

  predicate Initially(pc: Pc) {
    pc.ReadOwn? || pc.ReadStatus? || pc.DelayEnqueue? || pc.Finish?
  }

  /** At these points a job touches neither results nor lock nor status. */
  lemma InitialMoves(wf: Workflow, s: State, a: Action, k: JobKey)
    requires Enabled(wf, s, a) && Peaceful(a) && Moves(a, k) && k in s.jobs && (s.jobs[k].Active? ==> Initially(s.jobs[k].pc))
    ensures WriteOf(s, a) == NoWrite && StatusWanted(s, a) == None && Apply(wf, s, a).lock == s.lock
  {
    if a.Proceed? {
      EffectLock(s, k, FindNode(wf.nodes, k.node).value, s.jobs[k].pc);
    }
    hide FindNode, DelayOf, Effect, NextJob;
  }

  lemma InitialFits(wf: Workflow, s: State, k: JobKey, node: Node)
    requires Solo(wf, node) && Contained(wf, s) && k == Entry(node.id) && node.kind.Delay?
    ensures k in s.jobs && s.jobs[k].Active? ==> Initially(s.jobs[k].pc)
  {
    hide Contained, Live, Fed, Runnable, TasksOk, KeyOk, FindNode;
    if k in s.jobs {
      ActiveJob(wf, s, k);
    }
  }

  lemma NobodyMoves(wf: Workflow, s: State, a: Action)
    requires Enabled(wf, s, a) && (a.EnqueueEntry? || a.Tick?)
    ensures WriteOf(s, a) == NoWrite && StatusWanted(s, a) == None && Apply(wf, s, a).lock == s.lock
  {
    hide Taken;
  }

  lemma SameStore(wf: Workflow, s: State, a: Action, node: Node)
    requires Solo(wf, node) && Contained(wf, s) && Enabled(wf, s, a) && Peaceful(a) && !Moves(a, Writer(node))
    ensures var s' := Apply(wf, s, a); s'.results == s.results && s'.lock == s.lock && s'.status == s.status
  {
    hide Solo, Contained, Enabled, Apply, WriteOf, StatusWanted;
    ResultEffect(wf, s, a);
    StatusChanges(wf, s, a);
    if a.EnqueueEntry? || a.Tick? {
      NobodyMoves(wf, s, a);
    } else {
      MoverIsJob(wf, s, a, a.k);
      SoloKeys(wf, node, a.k);
      InitialFits(wf, s, a.k, node);
      InitialMoves(wf, s, a, a.k);
    }
  }

  lemma TellsStep(wf: Workflow, s: State, a: Action, node: Node)
    requires Solo(wf, node) && Contained(wf, s) && Tells(s, Writer(node)) && Enabled(wf, s, a) && Peaceful(a)
    ensures Tells(Apply(wf, s, a), Writer(node))
  {
    hide Solo, Contained, Enabled, Apply, Writer, Peaceful, Tells, AddOf;
    if Moves(a, Writer(node)) {
      WriterMoves(wf, s, a, node);
    } else {
      SameStore(wf, s, a, node);
      QueueChanges(wf, s, a);
      StillTells(s, Apply(wf, s, a), a, AddOf(wf, s, a), Writer(node));
    }
  }

  lemma StillTells(s: State, s': State, a: Action, add: JobAdd, w: JobKey)
    requires Tells(s, w) && !Moves(a, w) && QueueEffect(s, s', a, add) && Peaceful(a)
    requires s'.results == s.results && s'.lock == s.lock && s'.status == s.status
    ensures Tells(s', w)
  {
    hide Taken;
  }

  lemma MoverIsJob(wf: Workflow, s: State, a: Action, k: JobKey)
    requires Contained(wf, s) && Enabled(wf, s, a) && Moves(a, k)
    ensures KeyOk(wf, k) && k in s.jobs
  {
    hide FindNode, KeyOk, Live, TasksOk;
    JobsAreOwn(wf, s);
  }

  lemma {:induction false} RunTells(wf: Workflow, states: seq<State>, steps: seq<Action>, i: nat, node: Node)
    requires Solo(wf, node) && IsRun(wf, states, steps) && i < |states| && forall j :: 0 <= j < |steps| ==> Peaceful(steps[j])
    ensures Tells(states[i], Writer(node))
  {
    hide Solo, Contained, Enabled, Apply, Peaceful;
    if i > 0 {
      hide Tells;
      RunTells(wf, states, steps, i - 1, node);
      RunContained(wf, states, steps, i - 1);
      TellsStep(wf, states[i-1], steps[i-1], node);
    }
  }

  // -------------------------------------------------------------- exactly

  /** A run without any failure at whose end all jobs have returned resolved results. */
  ghost predicate Succeeds(wf: Workflow, states: seq<State>, steps: seq<Action>) {
    && IsRun(wf, states, steps) && (forall i :: 0 <= i < |steps| ==> Peaceful(steps[i])) && Drained(states[|steps|])
  }

  ghost predicate EndsCompleted(states: seq<State>, steps: seq<Action>) {
    |states| == |steps| + 1 && states[|steps|].status == Completed
  }

  /** The only node's worker counts last, as there is no other to count. */
  lemma SingleCompletes(wf: Workflow, states: seq<State>, steps: seq<Action>)
    requires Runnable(wf) && |wf.nodes| == 1 && Succeeds(wf, states, steps)
    ensures EndsCompleted(states, steps)
  {
    var node, s := wf.nodes[0], states[|steps|];
    SingleIsSolo(wf);
    hide Solo, Runnable, IsRun;
    RunTells(wf, states, steps, |steps|, node);
    SingleResolved(wf, states, steps);
    if Writer(node) in s.jobs {
      assert s.jobs[Writer(node)].Returned?;
    }
  }

  lemma SingleResolved(wf: Workflow, states: seq<State>, steps: seq<Action>)
    requires Runnable(wf) && |wf.nodes| == 1 && Succeeds(wf, states, steps)
    ensures states[|steps|].results != map[]
  {
    PeacefulKeeps(wf, states, steps);
    assert RootIsLast(wf);
    hide IsRun, WellLinked, PlainIds, AllKept, EveryNodeReachable, Drained, ResolvedIn, RootIsLast;
    DrainedIsResolved(wf, states, steps, |steps|);
    assert |states[|steps|].results| == 1;
  }

  /** Every failure-free run that drains is completed exactly if the workflow has one node only. */
  lemma CompletesIffSingle(wf: Workflow)
    requires Runnable(wf)
    ensures |wf.nodes| == 1 <==> forall states, steps :: Succeeds(wf, states, steps) ==> EndsCompleted(states, steps)
  {
    assert wf.nodes != [];
    hide Runnable, Succeeds, EndsCompleted;
    if |wf.nodes| == 1 {
      forall states, steps | Succeeds(wf, states, steps) ensures EndsCompleted(states, steps) {
        SingleCompletes(wf, states, steps);
      }
    } else {
      var states, steps := NotCompleted(wf);
    }
  }

  lemma NotCompleted(wf: Workflow) returns (states: seq<State>, steps: seq<Action>)
    requires Runnable(wf) && |wf.nodes| >= 2
    ensures Succeeds(wf, states, steps) && !EndsCompleted(states, steps)
  {
    hide Runnable;
    states, steps := CanMissCompletion(wf);
  }
}
