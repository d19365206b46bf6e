/** Executions can complete. */
module SchedulerCompletion {
  import opened Graphs
  import opened Workflows
  import opened GraphValidation
  import opened JobIds
  import opened NodeInputs
  import opened Scheduler
  import opened SchedulerEffects
  import opened SchedulerContainment
  import opened SchedulerIds
  import opened SchedulerOnce
  import opened SchedulerJoin
  import opened SchedulerDrain
  import opened SchedulerRuns

  /** Well linked, no unreachable node, no invalid delay, whatever the nodes are called. */
  ghost predicate Sound(wf: Workflow) {
    && WellLinked(wf) && EveryNodeReachable(wf) && wf.nodes != []
    && forall n :: n in wf.nodes && n.kind.Delay? ==> ValidDuration(DelayOf(n))
  }

  /** And with ids that keep jobs apart, and no node whose jobs return at once. */
  ghost predicate Runnable(wf: Workflow) {
    Sound(wf) && PlainIds(wf) && NoRoot(wf)
  }

  // ------------------------------------------------------- what runs bring

  lemma PeacefulKeeps(wf: Workflow, states: seq<State>, steps: seq<Action>)
    requires |states| == |steps| + 1 && forall i :: 0 <= i < |steps| ==> Peaceful(steps[i])
    ensures AllKept(wf, states, steps)
  {
  }

  lemma LeadsWhere(wf: Workflow, s: State)
    requires Runnable(wf) && Leads(wf, s)
    ensures Own(wf, s) && Accounted(wf, s)
  {
    var states, steps :| IsPeacefulRun(wf, states, steps, s);
    PeacefulKeeps(wf, states, steps);
    hide IsRun, WellLinked, PlainIds, AllKept, Accounted, EveryNodeReachable;
    RunOwn(wf, states, steps, |steps|);
    RunAccounted(wf, states, steps, |steps|);
  }

  /** A peaceful run that has drained has a result for every node. */
  lemma LeadsDrained(wf: Workflow, s: State)
    requires Runnable(wf) && Leads(wf, s) && Drained(s)
    ensures forall n :: n in Ids(wf.nodes) ==> ResolvedIn(s.results, n)
    ensures |s.results| == |wf.nodes|
  {
    var states, steps :| IsPeacefulRun(wf, states, steps, s);
    PeacefulKeeps(wf, states, steps);
    assert RootIsLast(wf);
    hide IsRun, WellLinked, PlainIds, AllKept, EveryNodeReachable, Drained, ResolvedIn, RootIsLast;
    DrainedIsResolved(wf, states, steps, |steps|);
  }

  lemma JobNode(wf: Workflow, s: State, k: JobKey) returns (node: Node)
    requires Runnable(wf) && Own(wf, s) && k in s.jobs
    ensures FindNode(wf.nodes, k.node) == Some(node) && node in wf.nodes && k.node != ROOT_NODE
    ensures node.kind.Delay? ==> ValidDuration(DelayOf(node))
    ensures KeyOk(wf, k)
  {
    LinkedIsAccepted(wf);
    JobsAreOwn(wf, s);
    JobIsNotRoot(wf, s, k);
    hide WellLinked, Accepted, PlainIds, EveryNodeReachable, KeyOk, Contained, Own;
    KeyIsNode(wf, k);
    node := FindNode(wf.nodes, k.node).value;
  }

  // ------------------------------------------------------ between two nodes

  predicate JobCalm(s: State, k: JobKey)
    requires k in s.jobs
  {
    if k.node in s.results then s.jobs[k].Returned? && s.jobs[k].r.Resolved()
    else s.jobs[k].Waiting? && s.jobs[k].readyAt <= s.now && !k.Resumed?
  }

  /** Results are successes of nodes with a job, and a child has a job only if all its inputs have them. */
  ghost predicate InOrder(wf: Workflow, s: State) {
    && s.lock.None? && !s.cancelling && s.starting == []
    && (forall m :: m in s.results ==> s.results[m].Resolved() && PrimaryKey(wf, m) in s.jobs)
    && (forall k :: k in s.jobs && k.Child? ==> Ready(wf, s.results, k.node))
  }

  /** Nothing is going on: jobs wait for their turn or have returned. */
  ghost predicate Calm(wf: Workflow, s: State) {
    && InOrder(wf, s)
    && (forall k :: k in s.jobs ==> JobCalm(s, k))
    && s.status == (if |s.results| == |wf.nodes| then Completed else Running)
  }

  /** One job is about to write its node's result; apart from it nothing is going on. */
  ghost predicate Writing(wf: Workflow, s: State, k: JobKey, r: ExecutionResult) {
    && InOrder(wf, s) && s.status == Running && r.success && r.nextNodes.None?
    && (forall k' :: k' in s.jobs && k'.node != k.node ==> JobCalm(s, k'))
    && k in s.jobs && PrimaryKey(wf, k.node) in s.jobs && k.node !in s.results && FindNode(wf.nodes, k.node).Some?
    && (forall k' :: k' in s.jobs && k' != k && k'.node == k.node ==> s.jobs[k'].Returned? && s.jobs[k'].r.Resolved())
    && Leads(wf, WithPc(s, k, WriteResult(r)))
  }

  lemma ReadyGrows(wf: Workflow, results: map<Id, ExecutionResult>, n: Id, r: ExecutionResult, c: Id)
    requires Ready(wf, results, c) && r.Resolved()
    ensures Ready(wf, results[n := r], c)
  {
    hide FindNode;
  }

  /** Only children whose inputs all have results are enqueued. */
  lemma ProcessedInOrder(wf: Workflow, s: State, k: JobKey, r: ExecutionResult)
    requires InOrder(wf, s) && k in s.jobs && PrimaryKey(wf, k.node) in s.jobs && r.success
    ensures InOrder(wf, Processed(wf, s, k, r))
  {
    var written, s' := WithResult(s, k.node, r), Processed(wf, s, k, r);
    ReleasedKeeps(wf, written, OutputsOf(wf, k.node));
    hide PrimaryKey, Released, OutputsOf, Ready;
    forall c | c in s'.jobs && c.Child? ensures Ready(wf, s'.results, c.node) {
      if c in s.jobs {
        ReadyGrows(wf, s.results, k.node, r, c.node);
      }
    }
  }

  /** A job that was not there is of a node without a result. */
  lemma NewJobHasNoResult(wf: Workflow, s: State, s': State, c: JobKey)
    requires WellLinked(wf) && Own(wf, s') && c in s'.jobs && c !in s.jobs && c.Child?
    ensures PrimaryKey(wf, c.node) !in s.jobs
  {
    JobsAreOwn(wf, s');
    hide WellLinked, KeyOk, Contained, IsDelay, PrimaryKey;
    OnlyPrimary(wf, c);
  }

  lemma ProcessedJobs(wf: Workflow, s: State, k: JobKey, r: ExecutionResult)
    requires Runnable(wf) && Writing(wf, s, k, r) && Own(wf, Processed(wf, s, k, r))
    ensures var s' := Processed(wf, s, k, r); forall k' :: k' in s'.jobs ==> JobCalm(s', k')
  {
    hide Runnable, WellLinked, Own, PrimaryKey, Released, OutputsOf, Ready, Leads;
    var written, s' := WithResult(s, k.node, r), Processed(wf, s, k, r);
    RunnableIsLinked(wf);
    ReleasedKeeps(wf, written, OutputsOf(wf, k.node));
    forall k' | k' in s'.jobs ensures JobCalm(s', k') {
      if k' !in s.jobs {
        NewJobHasNoResult(wf, s, s', k');
      }
    }
  }

  lemma ProcessedStatus(wf: Workflow, s: State, k: JobKey, r: ExecutionResult)
    requires s.status == Running
    ensures var s' := Processed(wf, s, k, r);
      && s'.status == (if |s'.results| == |wf.nodes| then Completed else Running)
      && s'.results == s.results[k.node := r]
      && forall k' :: k' in s.jobs ==> k' in s'.jobs
  {
    ReleasedKeeps(wf, WithResult(s, k.node, r), OutputsOf(wf, k.node));
    hide Released, OutputsOf;
  }

  /** The node's result is written and its outputs released, and nothing is going on again. */
  lemma WriteOut(wf: Workflow, s: State, k: JobKey, r: ExecutionResult)
    requires Runnable(wf) && Writing(wf, s, k, r)
    ensures var s' := Processed(wf, s, k, r);
      Leads(wf, s') && Calm(wf, s') && s'.results == s.results[k.node := r]
  {
    hide Runnable, Processed, Leads, Own, Accounted, JobCalm, PrimaryKey, FindNode, Ready;
    WriteAndRelease(wf, s, k, r);
    LeadsWhere(wf, Processed(wf, s, k, r));
    ProcessedJobs(wf, s, k, r);
    ProcessedStatus(wf, s, k, r);
    ProcessedInOrder(wf, s, k, r);
  }

  // ------------------------------------------------- up to a node's result

  lemma WaitingIsPrimary(wf: Workflow, s: State, k: JobKey)
    requires Runnable(wf) && Own(wf, s) && Calm(wf, s) && k in s.jobs && s.jobs[k].Waiting?
    ensures PrimaryKey(wf, k.node) == k && !k.Resumed? && k.node !in s.results
    ensures forall k' :: k' in s.jobs && k'.node == k.node ==> k' == k
  {
    JobsAreOwn(wf, s);
    hide WellLinked, KeyOk, Contained, PlainIds, IsDelay, PrimaryKey, InOrder, EveryNodeReachable;
    forall k' | k' in s.jobs && k'.node == k.node ensures k' == k && k == PrimaryKey(wf, k.node) {
      assert JobCalm(s, k') && JobCalm(s, k);
      OnlyPrimary(wf, k');
      OnlyPrimary(wf, k);
    }
  }

  /** While a node is without a result, the execution is running. */
  lemma StillRunning(wf: Workflow, s: State, n: Id)
    requires Runnable(wf) && Own(wf, s) && Calm(wf, s) && n in Ids(wf.nodes) && n !in s.results
    ensures s.status == Running && |s.results| < |wf.nodes|
  {
    LinkedIsAccepted(wf);
    OwnIsContained(wf, s);
    UniqueCount(wf.nodes);
    ResultsAreNodes(wf, s);
    SubsetSize(s.results.Keys, Ids(wf.nodes) - {n});
    assert |Ids(wf.nodes) - {n}| == |wf.nodes| - 1;
  }

  lemma WaitingCanStart(wf: Workflow, s: State, k: JobKey) returns (node: Node)
    requires Runnable(wf) && Own(wf, s) && Calm(wf, s) && k in s.jobs && s.jobs[k].Waiting?
    ensures CanStart(wf, s, k, node) && (node.kind.Delay? ==> ValidDuration(DelayOf(node)))
  {
    node := JobNode(wf, s, k);
    WaitingIsPrimary(wf, s, k);
    hide Runnable, Own, DelayOf, FindNode, PrimaryKey;
    StillRunning(wf, s, k.node);
  }

  lemma RegularToWrite(wf: Workflow, s: State, k: JobKey, node: Node)
    requires Runnable(wf) && Own(wf, s) && Calm(wf, s) && k in s.jobs && s.jobs[k].Waiting?
    requires Leads(wf, s) && CanStart(wf, s, k, node) && node.kind.Regular?
    ensures Writing(wf, s, k, DONE)
  {
    WaitingIsPrimary(wf, s, k);
    Execution(wf, s, k, node);
    hide Runnable, Own, Leads, PrimaryKey, InOrder, FindNode;
  }

  lemma ResumeIsNew(wf: Workflow, s: State, k: JobKey, node: Node)
    requires PlainIds(wf) && Own(wf, s) && k in s.jobs && Resumed(k.node) !in s.jobs && k.node != ROOT_NODE
    requires FindNode(wf.nodes, k.node) == Some(node) && node.kind.Delay?
    ensures !Taken(s.stamps, s.jobs, Resumed(k.node))
  {
    JobsAreOwn(wf, s);
    DelayKey(wf, s, k, node);
    hide PlainKey, Contained, KeyOk, Taken;
    TakenByItself(wf, s.stamps, s.jobs, Resumed(k.node));
  }

  lemma DelayKey(wf: Workflow, s: State, k: JobKey, node: Node)
    requires Own(wf, s) && k in s.jobs && FindNode(wf.nodes, k.node) == Some(node) && node.kind.Delay? && k.node != ROOT_NODE
    ensures KeyOk(wf, Resumed(k.node))
  {
    OwnIsContained(wf, s);
    hide Contained, Live, Fed, Timestamps;
    ActiveJob(wf, s, k);
  }

  /** The initial job has returned, the resume job is queued and can start. */
  ghost predicate Rests(s: State, s': State, k: JobKey, d: int) {
    && s'.jobs == s.jobs[Resumed(k.node) := Waiting(s.now + d)][k := Returned(DelayedMarker(s.now + d, d))]
    && s'.now == s.now + d && s'.results == s.results && s'.status == s.status && s'.lock == s.lock
    && s'.cancelling == s.cancelling && s'.starting == s.starting
  }

  lemma HandedOnRests(s: State, k: JobKey, d: int)
    requires !Taken(s.stamps, s.jobs, Resumed(k.node))
    ensures Rests(s, HandedOn(s, k, d), k, d)
  {
    hide Taken, DelayedMarker, FirstStart;
  }

  lemma RestsInOrder(wf: Workflow, s: State, s': State, k: JobKey, d: int)
    requires Rests(s, s', k, d) && InOrder(wf, s) && k in s.jobs
    ensures InOrder(wf, s')
  {
    hide PrimaryKey, DelayedMarker, Ready;
  }

  lemma RestsCalm(s: State, s': State, k: JobKey, d: int, k': JobKey)
    requires Rests(s, s', k, d) && d >= 0 && k' in s'.jobs && k'.node != k.node && (k' in s.jobs ==> JobCalm(s, k'))
    ensures JobCalm(s', k')
  {
    hide DelayedMarker;
  }

  lemma RestsCanStart(wf: Workflow, s: State, s': State, k: JobKey, node: Node, d: int)
    requires Rests(s, s', k, d) && CanStart(wf, s, k, node) && !k.Resumed?
    ensures CanStart(wf, s', Resumed(k.node), node)
  {
    hide DelayedMarker, FindNode;
  }

  lemma RestsJobs(s: State, s': State, k: JobKey, d: int)
    requires Rests(s, s', k, d) && k in s.jobs && !k.Resumed?
    requires forall k' :: k' in s.jobs && k'.node == k.node ==> k' == k
    ensures s'.jobs.Keys == s.jobs.Keys + {Resumed(k.node)} && s'.results == s.results
    ensures forall k' :: k' in s'.jobs && k' != Resumed(k.node) && k'.node == k.node ==> s'.jobs[k'].Returned? && s'.jobs[k'].r.Resolved()
  {
  }

  lemma ResumedIsWriting(wf: Workflow, s: State, s': State, k: JobKey, node: Node, d: int)
    requires Rests(s, s', k, d) && d >= 0 && Calm(wf, s) && k in s.jobs && PrimaryKey(wf, k.node) == k && !k.Resumed?
    requires forall k' :: k' in s.jobs && k'.node == k.node ==> k' == k
    requires CanStart(wf, s', Resumed(k.node), node)
    requires Leads(wf, WithPc(s', Resumed(k.node), WriteResult(DelayOutput(s', node))))
    ensures Writing(wf, s', Resumed(k.node), DelayOutput(s', node))
  {
    hide Leads, PrimaryKey, FindNode, InOrder, DelayOutput, DelayedMarker, JobCalm;
    RestsJobs(s, s', k, d);
    RestsInOrder(wf, s, s', k, d);
    DelayOutputSucceeds(s', node);
    hide Rests;
    forall k' | k' in s'.jobs && k'.node != k.node ensures JobCalm(s', k') {
      RestsCalm(s, s', k, d, k');
    }
  }

  lemma DelayToWrite(wf: Workflow, s: State, k: JobKey, node: Node) returns (s': State)
    requires Runnable(wf) && Own(wf, s) && Calm(wf, s) && k in s.jobs && s.jobs[k].Waiting?
    requires Leads(wf, s) && CanStart(wf, s, k, node) && node.kind.Delay? && ValidDuration(DelayOf(node))
    ensures Writing(wf, s', Resumed(k.node), DelayOutput(s', node))
    ensures s'.jobs.Keys == s.jobs.Keys + {Resumed(k.node)} && s'.results == s.results
  {
    var d := DelayOf(node).value;
    s' := HandedOn(s, k, d);
    RunnableIsLinked(wf);
    WaitingIsPrimary(wf, s, k);
    OnlyPrimaryWaits(wf, s, k, node);
    assert s.lock.None?;
    hide Runnable, Own, Leads, PrimaryKey, FindNode, HandedOn, DelayOutput, Rests, WellLinked, PlainIds, NoRoot, Taken, Calm, CanStart, Writing;
    HandOn(wf, s, k, node, d);
    ResumeIsNew(wf, s, k, node);
    HandedOnRests(s, k, d);
    RestsCanStart(wf, s, s', k, node, d);
    RestsJobs(s, s', k, d);
    Resumption(wf, s', Resumed(k.node), node);
    ResumedIsWriting(wf, s, s', k, node, d);
  }

  lemma OnlyPrimaryWaits(wf: Workflow, s: State, k: JobKey, node: Node)
    requires CanStart(wf, s, k, node) && !k.Resumed? && forall k' :: k' in s.jobs && k'.node == k.node ==> k' == k
    ensures Resumed(k.node) !in s.jobs && FindNode(wf.nodes, k.node) == Some(node) && k.node != ROOT_NODE
  {
  }

  lemma RunnableIsLinked(wf: Workflow)
    requires Runnable(wf)
    ensures WellLinked(wf) && PlainIds(wf) && NoRoot(wf)
  {
  }

  /** Any waiting job's node can be processed up to the writing of its result. */
  lemma ToWrite(wf: Workflow, s: State, k: JobKey) returns (s': State, k': JobKey, r: ExecutionResult)
    requires Runnable(wf) && Leads(wf, s) && Calm(wf, s) && k in s.jobs && s.jobs[k].Waiting?
    ensures Writing(wf, s', k', r) && k'.node == k.node && k.node in Ids(wf.nodes)
    ensures s'.jobs.Keys == s.jobs.Keys + {k'} && s'.results == s.results
  {
    hide Runnable, Own, Accounted, Leads, Calm, CanStart, Writing, FindNode, DelayOf;
    LeadsWhere(wf, s);
    var node := WaitingCanStart(wf, s, k);
    StartsNode(wf, s, k, node);
    if node.kind.Regular? {
      RegularToWrite(wf, s, k, node);
      s', k', r := s, k, DONE;
    } else {
      s' := DelayToWrite(wf, s, k, node);
      k', r := Resumed(k.node), DelayOutput(s', node);
    }
  }

  lemma StartsNode(wf: Workflow, s: State, k: JobKey, node: Node)
    requires CanStart(wf, s, k, node)
    ensures k.node in Ids(wf.nodes)
  {
  }

  // ------------------------------------------------------------ whole runs

  /** Entry jobs are enqueued, one after the other. */
  ghost predicate Enqueueing(wf: Workflow, s: State, i: nat) {
    && i <= |EntryNodes(wf)| && s.starting == EntryNodes(wf)[i..]
    && s.lock.None? && !s.cancelling && s.results == map[] && s.status == Running
    && forall k :: k in s.jobs ==> k.Entry? && s.jobs[k] == Waiting(s.now)
  }

  lemma EntryEnqueued(wf: Workflow, s: State, i: nat, t: string)
    requires Enqueueing(wf, s, i) && i < |EntryNodes(wf)| && IsDigits(t)
    ensures Enabled(wf, s, EnqueueEntry(t)) && Enqueueing(wf, Apply(wf, s, EnqueueEntry(t)), i + 1)
  {
    hide Taken, EntryNodes;
  }

  lemma {:induction false} EnqueueAll(wf: Workflow, i: nat) returns (s: State)
    requires i <= |EntryNodes(wf)|
    ensures Leads(wf, s) && Enqueueing(wf, s, i)
  {
    if i == 0 {
      s := Init(wf);
      LeadsInit(wf);
    } else {
      hide Leads, Enqueueing, Apply, Enabled, EntryNodes;
      var s0 := EnqueueAll(wf, i - 1);
      EntryEnqueued(wf, s0, i - 1, "0");
      Then(wf, s0, EnqueueEntry("0"));
      s := Apply(wf, s0, EnqueueEntry("0"));
    }
  }

  lemma Started(wf: Workflow) returns (s: State)
    requires Runnable(wf)
    ensures Leads(wf, s) && Calm(wf, s) && s.results == map[] && forall k :: k in s.jobs ==> k.Entry?
  {
    hide Leads, EntryNodes, WellLinked, PlainIds, EveryNodeReachable, NoRoot;
    s := EnqueueAll(wf, |EntryNodes(wf)|);
  }

  /** If no job waits for its turn, all are done. */
  lemma NoneWaiting(wf: Workflow, s: State)
    requires Runnable(wf) && Leads(wf, s) && Calm(wf, s) && forall k :: k in s.jobs ==> !s.jobs[k].Waiting?
    ensures Drained(s) && forall n :: n in Ids(wf.nodes) ==> ResolvedIn(s.results, n)
    ensures |s.results| == |wf.nodes| && s.status == Completed
  {
    hide Runnable, Leads, Ready, PrimaryKey;
    assert forall k :: k in s.jobs ==> JobCalm(s, k);
    LeadsDrained(wf, s);
  }

  lemma OneMore<K, V>(m: map<K, V>, k: K, v: V)
    requires k !in m
    ensures |m[k := v]| == |m| + 1
  {
    assert m[k := v].Keys == m.Keys + {k};
  }

  lemma Counted(wf: Workflow, s: State, k: JobKey, r: ExecutionResult)
    requires Runnable(wf) && Leads(wf, s) && Calm(wf, s) && k in s.jobs && s.jobs[k].Waiting?
    requires k.node in Ids(wf.nodes)
    ensures |s.results| < |wf.nodes| && |s.results[k.node := r]| == |s.results| + 1
  {
    assert JobCalm(s, k);
    hide Runnable, Leads, Calm, Own, Accounted;
    LeadsWhere(wf, s);
    StillRunning(wf, s, k.node);
    OneMore(s.results, k.node, r);
  }

  lemma {:induction false} RunToEnd(wf: Workflow, s: State) returns (s': State)
    requires Runnable(wf) && Leads(wf, s) && Calm(wf, s) && |s.results| <= |wf.nodes|
    ensures Leads(wf, s') && Drained(s') && s'.status == Completed
    ensures forall n :: n in Ids(wf.nodes) ==> ResolvedIn(s'.results, n)
    decreases |wf.nodes| - |s.results|
  {
    hide Runnable, Leads, Calm, Drained, Writing, Processed;
    if k :| k in s.jobs && s.jobs[k].Waiting? {
      var s1, k1, r := ToWrite(wf, s, k);
      WriteOut(wf, s1, k1, r);
      Counted(wf, s, k, r);
      s' := RunToEnd(wf, Processed(wf, s1, k1, r));
    } else {
      NoneWaiting(wf, s);
      s' := s;
    }
  }

  /**
   * The scheduler never blocks: every such workflow has a run, without any failure, at whose
   * end all jobs have returned, every node has a result and the execution is completed.
   */
  lemma CanComplete(wf: Workflow) returns (states: seq<State>, steps: seq<Action>)
    requires Runnable(wf)
    ensures IsRun(wf, states, steps) && Drained(states[|steps|]) && states[|steps|].status == Completed
    ensures (forall i :: 0 <= i < |steps| ==> Peaceful(steps[i])) && NoTimeLocked(states, steps)
    ensures forall n :: n in Ids(wf.nodes) ==> ResolvedIn(states[|steps|].results, n)
  {
    var s := Started(wf);
    assert |s.results| == 0;
    hide Runnable, Calm, Drained;
    var s' := RunToEnd(wf, s);
    states, steps :| IsPeacefulRun(wf, states, steps, s');
  }
}
