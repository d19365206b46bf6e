/** What is lost for good: a node whose parents have returned without enqueueing it. */
module SchedulerLoss {
  import opened Graphs
  import opened Workflows
  import opened GraphValidation
  import opened Scheduler
  import opened SchedulerEffects
  import opened SchedulerContainment
  import opened SchedulerIds
  import opened SchedulerOnce
  import opened SchedulerOrder
  import opened SchedulerJoin
  import opened SchedulerDrain
  import opened SchedulerRuns
  import opened SchedulerCompletion

  ghost predicate Above(wf: Workflow, m: Id, n: Id) {
    Reaches(FirstOutputGraph(wf.nodes), m, n)
  }

  lemma AboveOutputs(wf: Workflow, m: Id, n: Id)
    requires !Above(wf, m, n)
    ensures m != n && forall c :: c in OutputsOf(wf, m) ==> !Above(wf, c, n)
  {
    var g := FirstOutputGraph(wf.nodes);
    FirstOutputs(wf.nodes, m);
    ReachesSelf(g, n);
    forall c | c in OutputsOf(wf, m) ensures !Above(wf, c, n) {
      if Above(wf, c, n) {
        ReachesSelf(g, m);
        ReachesStep(g, m, m, c);
        ReachesTransitive(g, m, c, n);
      }
    }
  }

  /** The job has returned or failed for good. */
  predicate Ended(j: JobState) {
    j.Returned? || j.Exhausted?
  }

  /** All jobs of the node have ended, and there is one. */
  ghost predicate Over(wf: Workflow, s: State, m: Id) {
    && PrimaryKey(wf, m) in s.jobs
    && forall k :: k in s.jobs && k.node == m ==> Ended(s.jobs[k])
  }

  /** The node was never enqueued, all nodes above it are over, and no worker will look at one of them. */
  ghost predicate Forgotten(wf: Workflow, s: State, n: Id) {
    && n !in s.starting && n !in s.results && (forall k :: k in s.hist.added ==> k.node != n)
    && (forall m :: m != n && Above(wf, m, n) ==> Over(wf, s, m))
    && (forall k, i, m :: HasTask(s, k, i, m) ==> !Above(wf, m, n))
  }

  // ----------------------------------------------------- it stays so forever

  lemma WorkerIsAside(wf: Workflow, s: State, k: JobKey, n: Id)
    requires Contained(wf, s) && Forgotten(wf, s, n) && k in s.jobs && !Ended(s.jobs[k])
    ensures !Above(wf, k.node, n) && forall c :: c in OutputsOf(wf, k.node) ==> !Above(wf, c, n)
  {
    hide Above, OutputsOf, HasTask, PrimaryKey;
    QueuedIsAdded(wf, s, k);
    assert Above(wf, k.node, n) && k.node != n ==> Over(wf, s, k.node);
    AboveOutputs(wf, k.node, n);
  }

  /** The tasks after a step are outputs of the job's node, of a child it skips, or were there. */
  lemma NewTasks(wf: Workflow, s: State, a: Action, k: JobKey, i: nat, m: Id)
    requires Enabled(wf, s, a) && Moves(a, k) && MovedJob(wf, s, a, k).Active? && MovedJob(wf, s, a, k).pc.Releasing?
    requires i < |MovedJob(wf, s, a, k).pc.tasks| && MovedJob(wf, s, a, k).pc.tasks[i].child == m
    ensures k in s.jobs && s.jobs[k].Active? && (s.jobs[k].pc.Releasing? || s.jobs[k].pc.WriteResult?)
    ensures (s.jobs[k].pc.WriteResult? && m in OutputsOf(wf, k.node)) || (exists j :: HasTask(s, k, j, m))
         || (Skips(s, a) && HasTask(s, k, 0, s.jobs[k].pc.tasks[0].child) && m in OutputsOf(wf, s.jobs[k].pc.tasks[0].child))
  {
    var j := MovedJob(wf, s, a, k);
    if a.Proceed? && s.jobs[k].pc.Releasing? {
      hide FindNode, Ready;
      var tasks := s.jobs[k].pc.tasks;
      AfterTaskFrom(wf, s.results, tasks, i);
      if !(Skips(s, a) && m in OutputsOf(wf, tasks[0].child)) {
        var x :| 0 <= x < |tasks| && tasks[x].child == m;
        assert HasTask(s, k, x, m);
      }
    } else {
      hide FindNode, AfterTask;
    }
  }

  lemma AfterTaskFrom(wf: Workflow, results: map<Id, ExecutionResult>, tasks: seq<Task>, i: nat)
    requires tasks != [] && i < |AfterTask(wf, results, tasks)|
    ensures var m := AfterTask(wf, results, tasks)[i].child;
      (tasks[0].Consider? && !tasks[0].run && m in OutputsOf(wf, tasks[0].child))
      || exists x :: 0 <= x < |tasks| && tasks[x].child == m
  {
    hide FindNode, Ready, OutputsOf;
  }

  /** A worker's new tasks are none of the nodes above. */
  lemma NewTasksAside(wf: Workflow, s: State, a: Action, n: Id, k: JobKey, i: nat, m: Id)
    requires Contained(wf, s) && Forgotten(wf, s, n) && Enabled(wf, s, a) && Moves(a, k)
    requires MovedJob(wf, s, a, k).Active? && MovedJob(wf, s, a, k).pc.Releasing?
    requires i < |MovedJob(wf, s, a, k).pc.tasks| && MovedJob(wf, s, a, k).pc.tasks[i].child == m
    ensures !Above(wf, m, n)
  {
    hide Contained, Enabled, MovedJob, Over, Above, OutputsOf, PrimaryKey;
    NewTasks(wf, s, a, k, i, m);
    WorkerIsAside(wf, s, k, n);
    if Skips(s, a) && m in OutputsOf(wf, s.jobs[k].pc.tasks[0].child) {
      assert HasTask(s, k, 0, s.jobs[k].pc.tasks[0].child);
      AboveOutputs(wf, s.jobs[k].pc.tasks[0].child, n);
    }
  }

  lemma TasksStayAside(wf: Workflow, s: State, a: Action, n: Id, k: JobKey, i: nat, m: Id)
    requires Contained(wf, s) && Forgotten(wf, s, n) && Enabled(wf, s, a) && HasTask(Apply(wf, s, a), k, i, m)
    ensures !Above(wf, m, n)
  {
    hide Contained, Enabled, Apply, AddOf, MovedJob, Over, Above, PrimaryKey;
    QueueChanges(wf, s, a);
    if Moves(a, k) {
      JobMoves(wf, s, a, k);
      NewTasksAside(wf, s, a, n, k, i, m);
    } else {
      assert HasTask(s, k, i, m);
    }
  }

  /** Nobody writes a result of the node. */
  lemma WriterIsAside(wf: Workflow, s: State, a: Action, n: Id)
    requires Contained(wf, s) && Forgotten(wf, s, n) && Enabled(wf, s, a) && WriteOf(s, a).Writes?
    ensures WriteOf(s, a).node != n
  {
    hide Enabled, Above, Over, Live, PrimaryKey;
    if a.Proceed? && s.jobs[a.k].pc.Releasing? {
      var c := s.jobs[a.k].pc.tasks[0].child;
      assert HasTask(s, a.k, 0, c);
      AboveOutputs(wf, c, n);
    } else {
      QueuedIsAdded(wf, s, a.k);
    }
  }

  /** Nobody adds a job of the node or, anew, of one above it. */
  lemma AdderIsAside(wf: Workflow, s: State, a: Action, n: Id)
    requires Contained(wf, s) && Forgotten(wf, s, n) && Enabled(wf, s, a) && AddOf(wf, s, a).Adds?
    ensures var k := AddOf(wf, s, a).k;
      k.node != n && (Above(wf, k.node, n) ==> k == PrimaryKey(wf, k.node))
  {
    hide Above, Over, Live, Contained, FindNode, DelayOf, OutputsOf;
    if a.Proceed? {
      WorkerIsAside(wf, s, a.k, n);
      if s.jobs[a.k].pc.Releasing? {
        var c := s.jobs[a.k].pc.tasks[0].child;
        assert HasTask(s, a.k, 0, c);
        AboveOutputs(wf, c, n);
      } else {
        AboveOutputs(wf, a.k.node, n);
      }
    } else {
      StartsEntry(wf, s);
    }
  }

  lemma StartsEntry(wf: Workflow, s: State)
    requires Contained(wf, s) && s.starting != []
    ensures PrimaryKey(wf, s.starting[0]) == Entry(s.starting[0])
  {
    assert s.starting[0] in EntryNodes(wf);
  }

  lemma OverStays(wf: Workflow, s: State, a: Action, n: Id, m: Id)
    requires Contained(wf, s) && Forgotten(wf, s, n) && Enabled(wf, s, a) && m != n && Above(wf, m, n)
    ensures Over(wf, Apply(wf, s, a), m)
  {
    QueueChanges(wf, s, a);
    assert Over(wf, s, m);
    if AddOf(wf, s, a).Adds? {
      AdderIsAside(wf, s, a, n);
    }
    PrimaryIsNotResumed(wf, m);
    hide Contained, Enabled, Apply, AddOf, Above, Forgotten, PrimaryKey, MovedJob, Ended;
    var s' := Apply(wf, s, a);
    forall k | k in s'.jobs && k.node == m ensures Ended(s'.jobs[k]) {
      if Moves(a, k) {
        JobMoves(wf, s, a, k);
        EndedRests(wf, s, a, k);
      }
    }
  }

  lemma EndedRests(wf: Workflow, s: State, a: Action, k: JobKey)
    requires Enabled(wf, s, a) && Moves(a, k) && k in s.jobs && Ended(s.jobs[k])
    ensures Ended(MovedJob(wf, s, a, k))
  {
    hide FindNode;
  }

  lemma ForgottenStep(wf: Workflow, s: State, a: Action, n: Id)
    requires Contained(wf, s) && Forgotten(wf, s, n) && Enabled(wf, s, a)
    ensures Forgotten(wf, Apply(wf, s, a), n)
  {
    ResultEffect(wf, s, a);
    QueueChanges(wf, s, a);
    StartingChanges(wf, s, a);
    if WriteOf(s, a).Writes? {
      WriterIsAside(wf, s, a, n);
    }
    if AddOf(wf, s, a).Adds? {
      AdderIsAside(wf, s, a, n);
    }
    hide Contained, Enabled, Apply, AddOf, WriteOf, Above, Over, PrimaryKey, HasTask;
    var s' := Apply(wf, s, a);
    forall m | m != n && Above(wf, m, n) ensures Over(wf, s', m) {
      OverStays(wf, s, a, n, m);
    }
    forall k, i, m | HasTask(s', k, i, m) ensures !Above(wf, m, n) {
      TasksStayAside(wf, s, a, n, k, i, m);
    }
  }

  lemma {:induction false} StaysForgotten(wf: Workflow, states: seq<State>, steps: seq<Action>, i: nat, j: nat, n: Id)
    requires IsRun(wf, states, steps) && i <= j < |states| && Forgotten(wf, states[i], n)
    ensures Forgotten(wf, states[j], n)
    decreases j
  {
    hide Apply, Enabled, Forgotten;
    if i < j {
      StaysForgotten(wf, states, steps, i, j - 1, n);
      RunContained(wf, states, steps, j - 1);
      ForgottenStep(wf, states[j-1], steps[j-1], n);
    }
  }

  /**
   * Whatever happens afterwards, a forgotten node never gets a job or a result, and the
   * execution is never completed.
   */
  lemma LostForGood(wf: Workflow, states: seq<State>, steps: seq<Action>, i: nat, j: nat, n: Id)
    requires Accepted(wf) && n in Ids(wf.nodes) && IsRun(wf, states, steps) && i <= j < |states| && Forgotten(wf, states[i], n)
    ensures forall k :: WasQueued(states, j, k) ==> k.node != n
    ensures n !in states[j].results && states[j].status != Completed
  {
    StaysForgotten(wf, states, steps, i, j, n);
    hide Accepted, IsRun, WasQueued, Above, Over;
    forall k | WasQueued(states, j, k) ensures k.node != n {
      AddedHistory(wf, states, steps, j, k);
    }
    if states[j].status == Completed {
      CompletionSafety(wf, states, steps, j);
    }
  }

  // -------------------------------------------- it takes a harmful throw

  lemma AboveIsOver(wf: Workflow, s: State, n: Id, k: JobKey)
    requires Forgotten(wf, s, n) && AtPc(s, k) && k.node != n
    ensures n !in OutputsOf(wf, k.node)
  {
    if n in OutputsOf(wf, k.node) {
      var g := FirstOutputGraph(wf.nodes);
      FirstOutputs(wf.nodes, k.node);
      ReachesSelf(g, k.node);
      ReachesStep(g, k.node, k.node, n);
      assert Above(wf, k.node, n);
    }
  }

  lemma NobodyHolds(wf: Workflow, s: State, n: Id)
    requires Contained(wf, s) && Forgotten(wf, s, n)
    ensures forall k :: !Holds(wf, s, k, n)
  {
    hide Contained, OutputsOf, HasTask, Over;
    ReachesSelf(FirstOutputGraph(wf.nodes), n);
    assert Above(wf, n, n);
    hide Above;
    forall k ensures !Holds(wf, s, k, n) {
      if AtPc(s, k) {
        QueuedIsAdded(wf, s, k);
        AboveIsOver(wf, s, n, k);
      }
      assert forall i :: !HasTask(s, k, i, n);
    }
  }

  /** A node that is ready and forgotten shows that some throw of the run was not harmless for it. */
  lemma ForgottenIsNotKept(wf: Workflow, states: seq<State>, steps: seq<Action>, n: Id)
    requires WellLinked(wf) && PlainFor(wf, n) && IsRun(wf, states, steps) && HasInputs(wf, n)
    requires Ready(wf, states[|steps|].results, n) && Forgotten(wf, states[|steps|], n)
    ensures !Kept(wf, states, steps, n)
  {
    var s := states[|steps|];
    RunContained(wf, states, steps, |steps|);
    assert |steps| < |states|;
    hide WellLinked, PlainFor, IsRun, Kept, Holds, Ready, HasInputs, Contained, Above, Over, HasTask;
    NobodyHolds(wf, s, n);
    if Kept(wf, states, steps, n) {
      RunJoined(wf, states, steps, |steps|, n);
    }
  }

  // -------------------------------------------- one throw loses any child

  /** Nothing goes wrong in the run but one throw that is retried. */
  ghost predicate OneThrow(wf: Workflow, states: seq<State>, steps: seq<Action>, t: nat) {
    && IsRun(wf, states, steps) && t < |steps|
    && steps[t].Throw? && !steps[t].safe && steps[t].retry
    && forall i :: 0 <= i < |steps| && i != t ==> Peaceful(steps[i])
  }

  ghost predicate LeadsByThrow(wf: Workflow, s: State) {
    exists states, steps, t :: OneThrow(wf, states, steps, t) && states[|steps|] == s
  }

  ghost predicate Retries(wf: Workflow, s: State, k: JobKey, s': State) {
    Enabled(wf, s, Throw(k, false, true)) && Apply(wf, s, Throw(k, false, true)) == s'
  }

  lemma ThrowTo(wf: Workflow, s: State, k: JobKey, s': State)
    requires Leads(wf, s) && Retries(wf, s, k, s')
    ensures LeadsByThrow(wf, s')
  {
    hide Apply, Enabled;
    var states, steps :| IsPeacefulRun(wf, states, steps, s);
    assert OneThrow(wf, states + [s'], steps + [Throw(k, false, true)], |steps|);
  }

  lemma ThenOn(wf: Workflow, s: State, a: Action, s': State)
    requires LeadsByThrow(wf, s) && CanTake(wf, s, a, s')
    ensures LeadsByThrow(wf, s')
  {
    hide Apply, Enabled;
    var states, steps, t :| OneThrow(wf, states, steps, t) && states[|steps|] == s;
    assert OneThrow(wf, states + [s'], steps + [a], t);
  }

  /** What a worker leaves behind that was interrupted before it looked at the first output. */
  function Interrupted(s: State, k: JobKey, r: ExecutionResult): State {
    WithJob(WithResult(s, k.node, r), k, Returned(r))
  }

  lemma RetrySteps(wf: Workflow, s: State, k: JobKey, r: ExecutionResult, tasks: seq<Task>)
    requires k in s.jobs && FindNode(wf.nodes, k.node).Some? && s.lock.None? && k.node != ROOT_NODE
    requires k.node in s.results && s.results[k.node] == r && r.Resolved()
    ensures Retries(wf, WithPc(s, k, Releasing(r, tasks)), k, WithJob(s, k, Waiting(s.now)))
    ensures CanTake(wf, WithJob(s, k, Waiting(s.now)), Begin(k), WithPc(s, k, ReadOwn))
    ensures CanTake(wf, WithPc(s, k, ReadOwn), Proceed(k), WithPc(s, k, Finish(r)))
    ensures CanTake(wf, WithPc(s, k, Finish(r)), Proceed(k), WithJob(s, k, Returned(r)))
  {
    hide FindNode;
  }

  /** Its job starts again, finds the node's result, and returns. */
  lemma Interruption(wf: Workflow, s: State, k: JobKey, r: ExecutionResult)
    requires Writing(wf, s, k, r) && k.node != ROOT_NODE
    ensures LeadsByThrow(wf, Interrupted(s, k, r))
  {
    var s1, tasks := WithResult(s, k.node, r), Tasks(OutputsOf(wf, k.node), None);
    WriteFirst(wf, s, k, r);
    RetrySteps(wf, s1, k, r, tasks);
    hide Leads, LeadsByThrow, CanTake, Retries, WithPc, WithJob, Tasks, FindNode, PrimaryKey;
    ThenTo(wf, WithPc(s, k, WriteResult(r)), Proceed(k), WithPc(s1, k, Releasing(r, tasks)));
    ThrowTo(wf, WithPc(s1, k, Releasing(r, tasks)), k, WithJob(s1, k, Waiting(s1.now)));
    ThenOn(wf, WithJob(s1, k, Waiting(s1.now)), Begin(k), WithPc(s1, k, ReadOwn));
    ThenOn(wf, WithPc(s1, k, ReadOwn), Proceed(k), WithPc(s1, k, Finish(r)));
    ThenOn(wf, WithPc(s1, k, Finish(r)), Proceed(k), WithJob(s1, k, Returned(r)));
  }

  /** With every node reachable, no node feeds an entry. */
  lemma FedIsNoEntry(wf: Workflow, c: Id, m: Id)
    requires Runnable(wf) && c in OutputsOf(wf, m)
    ensures c !in EntryNodes(wf)
  {
    RunnableIsLinked(wf);
    if c in EntryNodes(wf) {
      if wf.entryNodeId == "" {
        NoParent(wf, c, m);
      } else {
        ParentIsLive(wf, m);
        EntryNotFed(wf, c);
      }
    }
  }

  lemma ParentIsLive(wf: Workflow, m: Id)
    requires EveryNodeReachable(wf) && wf.entryNodeId != "" && EntryNodes(wf) != [] && OutputsOf(wf, m) != []
    ensures Live(wf, m)
  {
    UnreachableIdsMember(FirstOutputGraph(wf.nodes), wf.entryNodeId, wf.nodes, m);
    assert wf.entryNodeId in EntryNodes(wf);
  }

  lemma ChildIsReady(wf: Workflow, s: State, c: Id)
    requires InOrder(wf, s) && c in s.results && c !in EntryNodes(wf)
    ensures Ready(wf, s.results, c)
  {
    hide Ready, EntryNodes;
    assert PrimaryKey(wf, c) == Child(c);
  }

  lemma ReadyChild(wf: Workflow, s: State, c: Id, m: Id)
    requires Runnable(wf) && InOrder(wf, s) && c in s.results && c in OutputsOf(wf, m)
    ensures Ready(wf, s.results, c)
  {
    hide Runnable, InOrder, Ready, OutputsOf, EntryNodes;
    FedIsNoEntry(wf, c, m);
    ChildIsReady(wf, s, c);
  }

  lemma ReadyParent(wf: Workflow, s: State, c: Id, m: Id)
    requires Runnable(wf) && Ready(wf, s.results, c) && c in OutputsOf(wf, m)
    ensures m in s.results
  {
    RunnableIsLinked(wf);
    hide Runnable, WellLinked, OutputsOf;
    ParentIsInput(wf, c, m);
    ReadyInput(wf, s.results, c, m);
  }

  /** Between two nodes' turns, whatever is above a ready node has a result. */
  lemma {:induction false} AboveHasResult(wf: Workflow, s: State, p: seq<Id>, n: Id)
    requires Runnable(wf) && InOrder(wf, s) && Ready(wf, s.results, n)
    requires |p| > 1 && IsPathBetween(FirstOutputGraph(wf.nodes), p, p[0], n)
    ensures p[0] in s.results
    decreases |p|
  {
    FirstOutputs(wf.nodes, p[0]);
    PathHead(FirstOutputGraph(wf.nodes), p);
    hide Runnable, InOrder, Ready, FirstOutputGraph, OutputsOf;
    if |p| > 2 {
      AboveHasResult(wf, s, p[1..], n);
      ReadyChild(wf, s, p[1], p[0]);
    }
    ReadyParent(wf, s, p[1], p[0]);
  }

  lemma AllAboveHaveResults(wf: Workflow, s: State, n: Id)
    requires Runnable(wf) && InOrder(wf, s) && Ready(wf, s.results, n)
    ensures forall m :: m != n && Above(wf, m, n) ==> m in s.results
  {
    hide Runnable, InOrder, Ready;
    forall m | m != n && Above(wf, m, n) ensures m in s.results {
      var p :| IsPathBetween(FirstOutputGraph(wf.nodes), p, m, n);
      AboveHasResult(wf, s, p, n);
    }
  }

  ghost predicate NoJob(s: State, n: Id) {
    forall k :: k in s.jobs ==> k.node != n
  }

  lemma InterruptedInOrder(wf: Workflow, s: State, k: JobKey, r: ExecutionResult)
    requires Writing(wf, s, k, r)
    ensures InOrder(wf, Interrupted(s, k, r))
  {
    var s' := Interrupted(s, k, r);
    hide Leads, PrimaryKey, Ready, FindNode, JobCalm;
    forall c | c in s'.jobs && c.Child? ensures Ready(wf, s'.results, c.node) {
      ReadyGrows(wf, s.results, k.node, r, c.node);
    }
  }

  lemma InterruptedJobs(wf: Workflow, s: State, k: JobKey, r: ExecutionResult)
    requires Writing(wf, s, k, r)
    ensures var s' := Interrupted(s, k, r);
      && s'.jobs.Keys == s.jobs.Keys && s'.hist.added == s.hist.added && s'.starting == []
      && (forall c :: c in s'.jobs ==> !s'.jobs[c].Active?)
      && (forall m :: m in s'.results ==> Over(wf, s', m))
  {
    hide Leads, PrimaryKey, Ready, FindNode;
    var s' := Interrupted(s, k, r);
    forall c | c in s'.jobs ensures !s'.jobs[c].Active? && (c.node in s'.results ==> s'.jobs[c].Returned?) {
      if c.node != k.node {
        assert JobCalm(s, c);
      }
    }
  }

  /** Every job that was added is still in the queue. */
  lemma WritingAdded(wf: Workflow, s: State, k: JobKey, r: ExecutionResult)
    requires Runnable(wf) && Writing(wf, s, k, r)
    ensures forall c :: c in s.hist.added ==> c in s.jobs
  {
    hide Runnable, Leads, Own;
    LeadsWhere(wf, WithPc(s, k, WriteResult(r)));
  }

  lemma NowForgotten(wf: Workflow, s: State, k: JobKey, r: ExecutionResult, n: Id)
    requires Runnable(wf) && Writing(wf, s, k, r) && NoJob(s, n)
    requires Ready(wf, s.results[k.node := r], n)
    ensures Forgotten(wf, Interrupted(s, k, r), n)
  {
    hide Runnable, Writing, Above, InOrder, Ready, PrimaryKey;
    var s' := Interrupted(s, k, r);
    WritingAdded(wf, s, k, r);
    InterruptedJobs(wf, s, k, r);
    InterruptedInOrder(wf, s, k, r);
    PrimaryIsNotResumed(wf, n);
    AllAboveHaveResults(wf, s', n);
    assert n in s'.results ==> Over(wf, s', n);
  }

  /** A node gets its first job from the last of its parents. */
  lemma FirstJob(wf: Workflow, s: State, k: JobKey, r: ExecutionResult, n: Id)
    requires NoJob(s, n) && k in s.jobs && !NoJob(Processed(wf, s, k, r), n)
    ensures Ready(wf, s.results[k.node := r], n)
  {
    ReleasedKeeps(wf, WithResult(s, k.node, r), OutputsOf(wf, k.node));
    hide Released, OutputsOf, Ready;
  }

  lemma WriterIsNotRoot(wf: Workflow, s: State, k: JobKey, r: ExecutionResult)
    requires Runnable(wf) && Writing(wf, s, k, r)
    ensures k.node != ROOT_NODE
  {
    RunnableIsLinked(wf);
    LeadsWhere(wf, WithPc(s, k, WriteResult(r)));
    hide Runnable, WellLinked, Leads, Own, Accounted;
    JobIsNotRoot(wf, WithPc(s, k, WriteResult(r)), k);
  }

  lemma CalmHasJob(wf: Workflow, s: State, n: Id)
    requires Calm(wf, s) && n in s.results
    ensures PrimaryKey(wf, n) in s.jobs
  {
  }

  lemma HasFirstJob(wf: Workflow, s: State, n: Id)
    requires Runnable(wf) && Leads(wf, s) && Calm(wf, s) && NoJob(s, n) && n in Ids(wf.nodes)
    ensures exists k :: k in s.jobs && s.jobs[k].Waiting?
  {
    PrimaryIsNotResumed(wf, n);
    if forall k :: k in s.jobs ==> !s.jobs[k].Waiting? {
      hide Runnable, Leads, Calm;
      NoneWaiting(wf, s);
      CalmHasJob(wf, s, n);
    }
  }

  /** Nodes are processed until one would release the child. */
  lemma {:induction false} UntilReady(wf: Workflow, s: State, n: Id) returns (s': State, k: JobKey, r: ExecutionResult)
    requires Runnable(wf) && Leads(wf, s) && Calm(wf, s) && NoJob(s, n) && n in Ids(wf.nodes)
    requires |s.results| <= |wf.nodes|
    ensures Writing(wf, s', k, r) && NoJob(s', n) && Ready(wf, s'.results[k.node := r], n)
    decreases |wf.nodes| - |s.results|
  {
    hide Runnable, Leads, Calm, Writing, Processed, Ready;
    HasFirstJob(wf, s, n);
    var k0 :| k0 in s.jobs && s.jobs[k0].Waiting?;
    s', k, r := ToWrite(wf, s, k0);
    IsThere(wf, s', k, r);
    if NoJob(Processed(wf, s', k, r), n) {
      WriteOut(wf, s', k, r);
      Counted(wf, s, k0, r);
      s', k, r := UntilReady(wf, Processed(wf, s', k, r), n);
    } else {
      FirstJob(wf, s', k, r, n);
    }
  }

  lemma IsThere(wf: Workflow, s: State, k: JobKey, r: ExecutionResult)
    requires Writing(wf, s, k, r)
    ensures k in s.jobs
  {
  }

  lemma StartedWithout(wf: Workflow, s: State, n: Id)
    requires Runnable(wf) && Leads(wf, s) && n !in EntryNodes(wf) && forall k :: k in s.jobs ==> k.Entry?
    ensures NoJob(s, n)
  {
    LeadsWhere(wf, s);
    OwnIsContained(wf, s);
    JobsAreOwn(wf, s);
    hide Runnable, Leads, Own, Accounted, Contained, EntryNodes;
  }

  /**
   * Any node but an entry can be lost by a single throw that is retried: there is a run in which
   * nothing else goes wrong, at whose end all of the node's inputs are resolved and it is forgotten.
   */
  lemma OneThrowLoses(wf: Workflow, n: Id) returns (states: seq<State>, steps: seq<Action>, t: nat)
    requires Runnable(wf) && n in Ids(wf.nodes) && n !in EntryNodes(wf)
    ensures OneThrow(wf, states, steps, t)
    ensures Ready(wf, states[|steps|].results, n) && Forgotten(wf, states[|steps|], n)
  {
    var s0 := Started(wf);
    StartedWithout(wf, s0, n);
    hide Runnable, Leads, Calm, Writing, Ready, OneThrow, Forgotten;
    var s, k, r := UntilReady(wf, s0, n);
    NowForgotten(wf, s, k, r, n);
    WriterIsNotRoot(wf, s, k, r);
    Interruption(wf, s, k, r);
    states, steps, t :| OneThrow(wf, states, steps, t) && states[|steps|] == Interrupted(s, k, r);
  }
}
