/** Children run after the nodes they depend on, and what the history records happened in the run. */
module SchedulerOrder {
  import opened Graphs
  import opened Workflows
  import opened Scheduler
  import opened SchedulerEffects
  import opened SchedulerContainment

  ghost predicate InputsResolved(wf: Workflow, resolved: set<Id>, c: Id) {
    && FindNode(wf.nodes, c).Some?
    && forall m :: m in FindNode(wf.nodes, c).value.inputs ==> m in resolved
  }

  /** A child is set to be enqueued only once its inputs were resolved. */
  ghost predicate EnqueuesOk(wf: Workflow, resolved: set<Id>, j: JobState) {
    j.Active? && j.pc.Releasing? ==>
      forall i :: 0 <= i < |j.pc.tasks| && j.pc.tasks[i].Enqueue? ==> InputsResolved(wf, resolved, j.pc.tasks[i].child)
  }

  ghost predicate Ordered(wf: Workflow, s: State) {
    && (forall n :: ResolvedIn(s.results, n) ==> n in s.hist.resolved)
    && (forall c :: Child(c) in s.hist.added ==> InputsResolved(wf, s.hist.resolved, c))
    && (forall k :: k in s.jobs ==> EnqueuesOk(wf, s.hist.resolved, s.jobs[k]))
  }

  lemma MoreResolved(wf: Workflow, before: set<Id>, after: set<Id>, j: JobState)
    requires before <= after && EnqueuesOk(wf, before, j)
    ensures EnqueuesOk(wf, after, j)
  {
  }

  lemma MovedEnqueuesOk(wf: Workflow, s: State, a: Action, k: JobKey)
    requires Ordered(wf, s) && Enabled(wf, s, a) && Moves(a, k) && k in s.jobs
    ensures EnqueuesOk(wf, s.hist.resolved, MovedJob(wf, s, a, k))
  {
    if a.Proceed? {
      var pc := s.jobs[k].pc;
      if pc.Releasing? && pc.tasks != [] {
        AfterTaskEnqueues(wf, s, pc.r, pc.tasks);
      }
      hide AfterTask, Gate, Ordered;
    }
  }

  lemma AfterTaskEnqueues(wf: Workflow, s: State, r: ExecutionResult, tasks: seq<Task>)
    requires Ordered(wf, s) && tasks != [] && EnqueuesOk(wf, s.hist.resolved, Active(Releasing(r, tasks)))
    ensures EnqueuesOk(wf, s.hist.resolved, Active(Releasing(r, AfterTask(wf, s.results, tasks))))
  {
    if tasks[0].Consider? && tasks[0].run && Ready(wf, s.results, tasks[0].child) {
      ReadyIsResolved(wf, s, tasks[0].child);
    }
    hide Ready, InputsResolved, Ordered;
  }

  lemma ReadyIsResolved(wf: Workflow, s: State, c: Id)
    requires Ordered(wf, s) && Ready(wf, s.results, c)
    ensures InputsResolved(wf, s.hist.resolved, c)
  {
    var inputs := FindNode(wf.nodes, c).value.inputs;
    forall m | m in inputs ensures m in s.hist.resolved {
      var i :| 0 <= i < |inputs| && inputs[i] == m;
      assert ResolvedIn(s.results, inputs[i]);
    }
  }

  /** The only job a release adds is the child it had decided to enqueue. */
  lemma AddedInOrder(wf: Workflow, s: State, a: Action, c: Id)
    requires Ordered(wf, s) && Enabled(wf, s, a) && AddOf(wf, s, a).Adds? && AddOf(wf, s, a).k == Child(c)
    ensures InputsResolved(wf, s.hist.resolved, c)
  {
    hide InputsResolved;
    assert EnqueuesOk(wf, s.hist.resolved, s.jobs[a.k]);
  }

  lemma OrderStep(wf: Workflow, s: State, a: Action)
    requires Ordered(wf, s) && Enabled(wf, s, a)
    ensures Ordered(wf, Apply(wf, s, a))
  {
    var s' := Apply(wf, s, a);
    ResultEffect(wf, s, a);
    QueueChanges(wf, s, a);
    hide Apply, Enabled, InputsResolved, EnqueuesOk, WriteOf, AddOf, MovedJob;
    assert s.hist.resolved <= s'.hist.resolved;
    forall c | Child(c) in s'.hist.added ensures InputsResolved(wf, s'.hist.resolved, c) {
      if Child(c) !in s.hist.added {
        AddedInOrder(wf, s, a, c);
      }
      StaysResolved(wf, s.hist.resolved, s'.hist.resolved, c);
    }
    forall k | k in s'.jobs ensures EnqueuesOk(wf, s'.hist.resolved, s'.jobs[k]) {
      if Moves(a, k) {
        JobMoves(wf, s, a, k);
        MovedEnqueuesOk(wf, s, a, k);
        MoreResolved(wf, s.hist.resolved, s'.hist.resolved, s'.jobs[k]);
      } else if k in s.jobs {
        MoreResolved(wf, s.hist.resolved, s'.hist.resolved, s.jobs[k]);
      } else {
        WaitingEnqueues(wf, s'.hist.resolved, s'.jobs[k]);
      }
    }
  }

  lemma StaysResolved(wf: Workflow, before: set<Id>, after: set<Id>, c: Id)
    requires before <= after && InputsResolved(wf, before, c)
    ensures InputsResolved(wf, after, c)
  {
  }

  lemma WaitingEnqueues(wf: Workflow, resolved: set<Id>, j: JobState)
    requires j.Waiting?
    ensures EnqueuesOk(wf, resolved, j)
  {
  }

  lemma {:induction false} RunOrdered(wf: Workflow, states: seq<State>, steps: seq<Action>, i: nat)
    requires IsRun(wf, states, steps) && i < |states|
    ensures Ordered(wf, states[i])
  {
    hide Apply, Enabled;
    if i > 0 {
      RunOrdered(wf, states, steps, i - 1);
      OrderStep(wf, states[i-1], steps[i-1]);
    }
  }

  // ------------------------------------------------- the history is true

  /** The node had a resolved result at some time up to i. */
  ghost predicate WasResolved(states: seq<State>, i: nat, n: Id)
    requires i < |states|
  {
    exists j :: 0 <= j <= i && ResolvedIn(states[j].results, n)
  }

  lemma {:induction false} ResolvedHistory(wf: Workflow, states: seq<State>, steps: seq<Action>, i: nat, n: Id)
    requires IsRun(wf, states, steps) && i < |states|
    ensures n in states[i].hist.resolved <==> WasResolved(states, i, n)
  {
    hide Apply, Enabled, ResolvedIn;
    if i == 0 {
      InitUnresolved(wf, n);
    } else {
      ResolvedHistory(wf, states, steps, i - 1, n);
      ResultEffect(wf, states[i-1], steps[i-1]);
      HistoryFollows(states[i-1], states[i], WriteOf(states[i-1], steps[i-1]), n);
      if WasResolved(states, i - 1, n) {
        var j :| 0 <= j <= i - 1 && ResolvedIn(states[j].results, n);
        assert WasResolved(states, i, n);
      } else if ResolvedIn(states[i].results, n) {
        assert WasResolved(states, i, n);
      }
    }
  }

  /** The job was in the queue at some time up to i. */
  ghost predicate WasQueued(states: seq<State>, i: nat, k: JobKey)
    requires i < |states|
  {
    exists j :: 0 <= j <= i && k in states[j].jobs
  }

  lemma {:induction false} AddedHistory(wf: Workflow, states: seq<State>, steps: seq<Action>, i: nat, k: JobKey)
    requires IsRun(wf, states, steps) && i < |states|
    ensures k in states[i].hist.added <==> WasQueued(states, i, k)
  {
    hide Apply, Enabled, Contained;
    RunContained(wf, states, steps, i);
    QueuedIsAdded(wf, states[i], k);
    if i > 0 {
      AddedHistory(wf, states, steps, i - 1, k);
      QueueChanges(wf, states[i-1], steps[i-1]);
      if WasQueued(states, i - 1, k) {
        var j :| 0 <= j <= i - 1 && k in states[j].jobs;
        assert WasQueued(states, i, k);
      } else if k in states[i].jobs {
        assert WasQueued(states, i, k);
      }
    }
  }

  lemma InitUnresolved(wf: Workflow, n: Id)
    ensures !ResolvedIn(Init(wf).results, n) && n !in Init(wf).hist.resolved
  {
  }

  lemma HistoryFollows(s: State, s': State, w: ResultWrite, n: Id)
    requires ResultsFollow(s, s', w)
    ensures n in s.hist.resolved ==> n in s'.hist.resolved
    ensures n !in s.hist.resolved && n in s'.hist.resolved ==> ResolvedIn(s'.results, n)
    ensures ResolvedIn(s'.results, n) ==> n in s'.hist.resolved || ResolvedIn(s.results, n)
  {
  }

  /** Every job in the queue is of a node of the workflow. */
  lemma JobIsOfNode(wf: Workflow, states: seq<State>, steps: seq<Action>, i: nat, k: JobKey)
    requires IsRun(wf, states, steps) && i < |states| && k in states[i].jobs
    ensures FindNode(wf.nodes, k.node).Some?
  {
    RunOrdered(wf, states, steps, i);
    RunContained(wf, states, steps, i);
    QueuedIsAdded(wf, states[i], k);
    ActiveJob(wf, states[i], k);
    hide IsRun, Contained, Live, Fed;
    if k.Child? {
      assert InputsResolved(wf, states[i].hist.resolved, k.node);
    } else if k.Entry? {
      WithoutInputsAreNodes(wf.nodes, k.node);
    }
  }

  // ---------------------------------------------------- dependency order

  /**
   * A child's job is in the queue only if every input of the child had a successful or skipped
   * result before.
   */
  lemma DependencyOrder(wf: Workflow, states: seq<State>, steps: seq<Action>, i: nat, c: Id)
    requires IsRun(wf, states, steps) && i < |states| && Child(c) in states[i].jobs
    ensures FindNode(wf.nodes, c).Some?
    ensures forall m :: m in FindNode(wf.nodes, c).value.inputs ==> WasResolved(states, i, m)
  {
    hide IsRun, WasResolved;
    RunOrdered(wf, states, steps, i);
    RunContained(wf, states, steps, i);
    forall m | m in FindNode(wf.nodes, c).value.inputs ensures WasResolved(states, i, m) {
      ResolvedHistory(wf, states, steps, i, m);
    }
  }

  /** An executor runs for an entry node, or after all of the node's inputs were resolved. */
  lemma ExecutorOrder(wf: Workflow, states: seq<State>, steps: seq<Action>, i: nat)
    requires IsRun(wf, states, steps) && i < |steps| && steps[i].ExecutorReturns?
    ensures var n := steps[i].k.node;
      n in EntryNodes(wf)
      || (Live(wf, n) && forall m :: m in FindNode(wf.nodes, n).value.inputs ==> WasResolved(states, i, m))
  {
    var k := steps[i].k;
    assert Enabled(wf, states[i], steps[i]);
    RunContained(wf, states, steps, i);
    ActiveJob(wf, states[i], k);
    if k.Child? {
      hide IsRun, WasResolved;
      DependencyOrder(wf, states, steps, i, k.node);
    }
  }
}
