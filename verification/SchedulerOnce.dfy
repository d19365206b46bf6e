/** How often a node's executor can succeed in one execution. */
module SchedulerOnce {
  import opened Graphs
  import opened Workflows
  import opened GraphValidation
  import opened Scheduler
  import opened SchedulerEffects
  import opened SchedulerContainment

  // --------------------------------------------------- one job per node

  /** The validator accepts the workflow and, which it does not check, links are symmetric. */
  ghost predicate WellLinked(wf: Workflow) {
    Accepted(wf) && SymmetricLinks(wf.nodes)
  }

  /** An entry node is never released by another node. */
  lemma EntryNotFed(wf: Workflow, n: Id)
    requires WellLinked(wf) && n in EntryNodes(wf)
    ensures !Fed(wf, n)
  {
    if Fed(wf, n) {
      var m :| Live(wf, m) && n in OutputsOf(wf, m);
      FirstOutputs(wf.nodes, m);
      hide *;
      if wf.entryNodeId != "" {
        NamedEntryReaches(wf, n, m);
        NoWayBack(wf, n, m);
      } else {
        NoParent(wf, n, m);
      }
    }
  }

  lemma NamedEntryReaches(wf: Workflow, n: Id, m: Id)
    requires wf.entryNodeId != "" && n in EntryNodes(wf) && Live(wf, m)
    ensures Reaches(FirstOutputGraph(wf.nodes), n, m)
  {
  }

  lemma NoWayBack(wf: Workflow, n: Id, m: Id)
    requires WellLinked(wf) && Reaches(FirstOutputGraph(wf.nodes), n, m)
    ensures n !in Succ(FirstOutputGraph(wf.nodes), m)
  {
    var g := FirstOutputGraph(wf.nodes);
    hide Reaches, HasCycle, FirstOutputGraph, OutputGraph, ClosedReferences, SymmetricLinks, EntryAcceptable;
    if n in Succ(g, m) {
      ClosesCycle(g, n, m);
    }
  }

  lemma ClosesCycle(g: Graph, n: Id, m: Id)
    requires Reaches(g, n, m) && n in Succ(g, m)
    ensures HasCycle(g)
  {
    var p :| IsPathBetween(g, p, n, m);
    PathAppend(g, p, n);
    assert IsCycle(g, p + [n]);
  }

  lemma NoParent(wf: Workflow, n: Id, m: Id)
    requires WellLinked(wf) && wf.entryNodeId == "" && n in EntryNodes(wf)
    ensures n !in OutputsOf(wf, m)
  {
    WithoutInputsAreNodes(wf.nodes, n);
    var node :| node in wf.nodes && node.id == n && node.inputs == [];
    var parent := FindNode(wf.nodes, m);
    assert parent.Some? ==> (n in parent.value.outputs <==> m in node.inputs);
  }

  /** The one job that can run a regular node. */
  function PrimaryKey(wf: Workflow, n: Id): JobKey {
    if n in EntryNodes(wf) then Entry(n) else Child(n)
  }

  lemma OnlyPrimary(wf: Workflow, k: JobKey)
    requires WellLinked(wf) && KeyOk(wf, k)
    ensures k == PrimaryKey(wf, k.node) || (k == Resumed(k.node) && IsDelay(wf, k.node))
  {
    if k.node in EntryNodes(wf) {
      EntryNotFed(wf, k.node);
    }
  }

  // ------------------------------------------------------ settled nodes

  /** Past the executor, with the success recorded or about to be. */
  predicate PcSettled(resolved: bool, pc: Pc) {
    match pc
    case ReadOwn => resolved
    case WriteResult(r) => r.success
    case Releasing(r, _) => resolved && r.Resolved()
    case AcquireLock(r) => resolved && r.Resolved()
    case LockedStatus(r) => resolved && r.Resolved()
    case LockedCount(r) => resolved && r.Resolved()
    case LockedComplete(r) => resolved && r.Resolved()
    case Unlock(r) => resolved && r.Resolved()
    case Finish(r) => resolved && r.Resolved()
    case _ => false
  }

  predicate JobSettled(resolved: bool, j: JobState) {
    match j
    case Waiting(_) => resolved
    case Active(pc) => PcSettled(resolved, pc)
    case Returned(r) => r.Resolved()
    case Exhausted(_) => true
  }

  /** No executor call for the node can follow. */
  predicate Settled(wf: Workflow, s: State, n: Id) {
    var k, resolved := PrimaryKey(wf, n), ResolvedIn(s.results, n);
    if k in s.jobs then JobSettled(resolved, s.jobs[k]) else resolved
  }

  /** A success that the store did not record and that is retried. */
  predicate LosesSuccess(s: State, a: Action, n: Id) {
    && a.Throw? && a.k.node == n && !a.safe && a.retry
    && a.k in s.jobs && s.jobs[a.k].Active? && s.jobs[a.k].pc.WriteResult? && s.jobs[a.k].pc.r.success
    && !ResolvedIn(s.results, n)
  }

  lemma MovedStaysSettled(wf: Workflow, s: State, a: Action, k: JobKey)
    requires Enabled(wf, s, a) && Moves(a, k) && k in s.jobs && !LosesSuccess(s, a, k.node)
    requires JobSettled(ResolvedIn(s.results, k.node), s.jobs[k])
    ensures JobSettled(ResolvedIn(Written(s.results, WriteOf(s, a)), k.node), MovedJob(wf, s, a, k))
  {
    hide AfterTask, FindNode, Tasks, Gate;
  }

  /** Apart from skips, only a node's own job writes its result. */
  lemma WriterIsPrimary(wf: Workflow, s: State, a: Action)
    requires WellLinked(wf) && Contained(wf, s) && Enabled(wf, s, a)
    requires WriteOf(s, a).Writes? && !WriteOf(s, a).r.Resolved() && !IsDelay(wf, WriteOf(s, a).node)
    ensures a.RecordFailure? || a.CacheReturned? || a.Proceed?
    ensures a.k in s.jobs && a.k == PrimaryKey(wf, WriteOf(s, a).node)
  {
    hide WellLinked, Contained, FindNode, PrimaryKey, KeyOk, IsDelay, Live, JobOk;
    assert a.k in s.jobs && WriteOf(s, a).node == a.k.node;
    ActiveJob(wf, s, a.k);
    OnlyPrimary(wf, a.k);
  }

  lemma OtherWriteKeeps(wf: Workflow, s: State, a: Action, n: Id)
    requires WellLinked(wf) && Contained(wf, s) && Enabled(wf, s, a)
    requires !IsDelay(wf, n) && Settled(wf, s, n) && !Moves(a, PrimaryKey(wf, n))
    ensures var k, resolved := PrimaryKey(wf, n), ResolvedIn(Written(s.results, WriteOf(s, a)), n);
      if k in s.jobs then JobSettled(resolved, s.jobs[k]) else resolved
  {
    hide PrimaryKey, Contained, WellLinked, IsDelay, FindNode, PcSettled, Enabled;
    var w := WriteOf(s, a);
    if w.Writes? && w.node == n && !w.r.Resolved() {
      WriterIsPrimary(wf, s, a);
    }
    StaysSettled(s, PrimaryKey(wf, n), n);
  }

  /** A resolved result in place of another keeps what was settled. */
  lemma StaysSettled(s: State, k: JobKey, n: Id)
    ensures k in s.jobs && JobSettled(ResolvedIn(s.results, n), s.jobs[k]) ==> JobSettled(true, s.jobs[k])
  {
  }

  lemma SettledStep(wf: Workflow, s: State, a: Action, n: Id)
    requires WellLinked(wf) && Contained(wf, s) && Enabled(wf, s, a)
    requires !IsDelay(wf, n) && Settled(wf, s, n) && !LosesSuccess(s, a, n)
    ensures Settled(wf, Apply(wf, s, a), n)
  {
    var k, s' := PrimaryKey(wf, n), Apply(wf, s, a);
    ResultEffect(wf, s, a);
    QueueChanges(wf, s, a);
    assert k.node == n;
    hide Apply, Enabled, Contained, WellLinked, IsDelay, PrimaryKey, WriteOf, AddOf, PcSettled, LosesSuccess, MovedJob;
    if Moves(a, k) {
      MovedStaysSettled(wf, s, a, k);
      JobMoves(wf, s, a, k);
    } else {
      OtherWriteKeeps(wf, s, a, n);
    }
  }

  lemma AtExecute(wf: Workflow, s: State, a: Action)
    requires Enabled(wf, s, a) && a.ExecutorReturns?
    ensures !IsDelay(wf, a.k.node)
    ensures a.k in s.jobs && s.jobs[a.k] == Active(Execute)
    ensures a.k in Apply(wf, s, a).jobs && Apply(wf, s, a).jobs[a.k] == Active(WriteResult(a.r))
  {
    hide FindNode;
  }

  /** A regular node's executor runs only while the node is not settled, and a success settles it. */
  lemma SuccessSettles(wf: Workflow, s: State, a: Action)
    requires WellLinked(wf) && Contained(wf, s) && Enabled(wf, s, a)
    requires a.ExecutorReturns?
    ensures !IsDelay(wf, a.k.node) && !Settled(wf, s, a.k.node)
    ensures a.r.success ==> Settled(wf, Apply(wf, s, a), a.k.node)
  {
    hide Contained, WellLinked, FindNode, PrimaryKey, KeyOk, Live, Apply, Enabled, IsDelay, JobOk;
    AtExecute(wf, s, a);
    ActiveJob(wf, s, a.k);
    OnlyPrimary(wf, a.k);
  }

  // ---------------------------------------------------- over whole runs

  /** How often the node's executor returned success in the first i steps. */
  function Successes(steps: seq<Action>, i: nat, n: Id): nat
    requires i <= |steps|
  {
    if i == 0 then 0
    else
      var counts := steps[i-1].ExecutorReturns? && steps[i-1].r.success && steps[i-1].k.node == n;
      Successes(steps, i - 1, n) + if counts then 1 else 0
  }

  /** How many of these successes were lost to a failed store write. */
  function Losses(states: seq<State>, steps: seq<Action>, i: nat, n: Id): nat
    requires i <= |steps| < |states|
  {
    if i == 0 then 0
    else Losses(states, steps, i - 1, n) + if LosesSuccess(states[i-1], steps[i-1], n) then 1 else 0
  }

  lemma {:induction false} SuccessesBounded(wf: Workflow, states: seq<State>, steps: seq<Action>, i: nat, n: Id)
    requires WellLinked(wf) && IsRun(wf, states, steps) && i < |states|
    ensures Successes(steps, i, n) <= Losses(states, steps, i, n) + 1
    ensures Successes(steps, i, n) > Losses(states, steps, i, n) ==> !IsDelay(wf, n) && Settled(wf, states[i], n)
  {
    hide Apply, Enabled, WellLinked, Settled, LosesSuccess, IsDelay;
    if i > 0 {
      var s, a := states[i-1], steps[i-1];
      SuccessesBounded(wf, states, steps, i - 1, n);
      RunContained(wf, states, steps, i - 1);
      if a.ExecutorReturns? && a.k.node == n {
        SuccessSettles(wf, s, a);
        NoLossAtExecute(s, a, n);
      } else if Successes(steps, i - 1, n) > Losses(states, steps, i - 1, n) && !LosesSuccess(s, a, n) {
        SettledStep(wf, s, a, n);
      }
    }
  }

  lemma NoLossAtExecute(s: State, a: Action, n: Id)
    requires a.ExecutorReturns?
    ensures !LosesSuccess(s, a, n)
  {
  }

  /**
   * Across retries, branching and any interleaving, a node's executor succeeds at most once
   * more than its successes were lost to a store write that threw and was retried.
   */
  lemma AtMostOnce(wf: Workflow, states: seq<State>, steps: seq<Action>, n: Id)
    requires WellLinked(wf) && IsRun(wf, states, steps)
    ensures Successes(steps, |steps|, n) <= 1 + Losses(states, steps, |steps|, n)
  {
    SuccessesBounded(wf, states, steps, |steps|, n);
  }

  // ------------------------------------------------- the bound is reached

  lemma {:induction false} CountsPrefix(states: seq<State>, steps: seq<Action>, s: State, a: Action, i: nat, n: Id)
    requires i <= |steps| < |states|
    ensures Successes(steps + [a], i, n) == Successes(steps, i, n)
    ensures Losses(states + [s], steps + [a], i, n) == Losses(states, steps, i, n)
  {
    if i > 0 {
      CountsPrefix(states, steps, s, a, i - 1, n);
    }
  }

  lemma Extend(wf: Workflow, states: seq<State>, steps: seq<Action>, a: Action, n: Id)
    requires IsRun(wf, states, steps) && Enabled(wf, states[|steps|], a)
    ensures IsRun(wf, states + [Apply(wf, states[|steps|], a)], steps + [a])
    ensures Losses(states + [Apply(wf, states[|steps|], a)], steps + [a], |steps| + 1, n)
         == Losses(states, steps, |steps|, n) + if LosesSuccess(states[|steps|], a, n) then 1 else 0
    ensures Successes(steps + [a], |steps| + 1, n)
         == Successes(steps, |steps|, n) + if a.ExecutorReturns? && a.r.success && a.k.node == n then 1 else 0
  {
    hide Apply, Enabled, LosesSuccess;
    CountsPrefix(states, steps, Apply(wf, states[|steps|], a), a, |steps|, n);
  }

  /** The job is at this point of a running execution that has no result for its node. */
  ghost predicate Stands(wf: Workflow, s: State, k: JobKey, j: JobState) {
    && k in s.jobs && s.jobs[k] == j && s.status == Running && k.node !in s.results && k.node != ROOT_NODE
    && FindNode(wf.nodes, k.node).Some? && FindNode(wf.nodes, k.node).value.kind.Regular?
  }

  ghost predicate Takes(wf: Workflow, s: State, a: Action, k: JobKey, j: JobState) {
    Enabled(wf, s, a) && Stands(wf, Apply(wf, s, a), k, j)
  }

  lemma Undisturbed(wf: Workflow, s: State, k: JobKey)
    ensures Stands(wf, s, k, Waiting(s.now)) ==> Takes(wf, s, Begin(k), k, Active(ReadOwn))
    ensures Stands(wf, s, k, Active(ReadOwn)) ==> Takes(wf, s, Proceed(k), k, Active(ReadStatus))
    ensures Stands(wf, s, k, Active(ReadStatus)) ==> Takes(wf, s, Proceed(k), k, Active(Execute))
    ensures Stands(wf, s, k, Active(Execute)) ==>
      Takes(wf, s, ExecutorReturns(k, SuccessResult(None)), k, Active(WriteResult(SuccessResult(None))))
  {
    hide FindNode;
  }

  /** From a waiting job, four undisturbed steps lead to a success about to be written. */
  lemma Succeed(wf: Workflow, states: seq<State>, steps: seq<Action>, k: JobKey) returns (states': seq<State>, steps': seq<Action>)
    requires IsRun(wf, states, steps) && Stands(wf, states[|steps|], k, Waiting(states[|steps|].now))
    ensures IsRun(wf, states', steps')
    ensures Stands(wf, states'[|steps'|], k, Active(WriteResult(SuccessResult(None))))
    ensures Successes(steps', |steps'|, k.node) == Successes(steps, |steps|, k.node) + 1
    ensures Losses(states', steps', |steps'|, k.node) == Losses(states, steps, |steps|, k.node)
  {
    assert |states| == |steps| + 1;
    hide FindNode, Apply, Enabled, Stands, IsRun, Losses, Successes;
    states', steps' := states, steps;
    Undisturbed(wf, states'[|steps'|], k);
    states', steps' := Step(wf, states', steps', Begin(k), k, Active(ReadOwn));
    Undisturbed(wf, states'[|steps'|], k);
    states', steps' := Step(wf, states', steps', Proceed(k), k, Active(ReadStatus));
    Undisturbed(wf, states'[|steps'|], k);
    states', steps' := Step(wf, states', steps', Proceed(k), k, Active(Execute));
    Undisturbed(wf, states'[|steps'|], k);
    states', steps' := Step(wf, states', steps', ExecutorReturns(k, SuccessResult(None)), k,
                            Active(WriteResult(SuccessResult(None))));
  }

  lemma Step(wf: Workflow, states: seq<State>, steps: seq<Action>, a: Action, k: JobKey, j: JobState)
    returns (states': seq<State>, steps': seq<Action>)
    requires IsRun(wf, states, steps) && Takes(wf, states[|steps|], a, k, j)
    ensures IsRun(wf, states', steps') && states' == states + [Apply(wf, states[|steps|], a)]
    ensures |steps'| == |steps| + 1 && Stands(wf, states'[|steps'|], k, j)
    ensures Losses(states', steps', |steps'|, k.node)
         == Losses(states, steps, |steps|, k.node) + if LosesSuccess(states[|steps|], a, k.node) then 1 else 0
    ensures Successes(steps', |steps'|, k.node)
         == Successes(steps, |steps|, k.node) + if a.ExecutorReturns? && a.r.success && a.k.node == k.node then 1 else 0
  {
    hide Apply, Enabled, LosesSuccess, Losses, Successes, Stands;
    Extend(wf, states, steps, a, k.node);
    states', steps' := states + [Apply(wf, states[|steps|], a)], steps + [a];
  }

  /**
   * The bound is tight: an entry node whose successful results are lost m times, each time by
   * a store write that throws and is retried, succeeds m + 1 times.
   */
  lemma {:induction false} EveryLossRepeats(wf: Workflow, n: Id, m: nat) returns (states: seq<State>, steps: seq<Action>)
    requires EntryNodes(wf) != [] && EntryNodes(wf)[0] == n && n != ROOT_NODE
    requires FindNode(wf.nodes, n).Some? && FindNode(wf.nodes, n).value.kind.Regular?
    ensures IsRun(wf, states, steps)
    ensures Stands(wf, states[|steps|], Entry(n), Active(WriteResult(SuccessResult(None))))
    ensures Losses(states, steps, |steps|, n) == m
    ensures Successes(steps, |steps|, n) == m + 1
  {
    var k := Entry(n);
    if m == 0 {
      states, steps := [Init(wf)], [];
      states, steps := Step(wf, states, steps, EnqueueEntry("0"), k, Waiting(0));
    } else {
      states, steps := EveryLossRepeats(wf, n, m - 1);
      var now := states[|steps|].now;
      states, steps := Step(wf, states, steps, Throw(k, false, true), k, Waiting(now));
    }
    states, steps := Succeed(wf, states, steps, k);
  }
}
