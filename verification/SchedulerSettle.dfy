/** Runs of workflows whose nodes are called anything: the queue always drains. */
module SchedulerSettle {
  import opened Graphs
  import opened Workflows
  import opened GraphValidation
  import opened JobIds
  import opened NodeInputs
  import opened Scheduler
  import opened SchedulerEffects
  import opened SchedulerContainment
  import opened SchedulerIds
  import opened SchedulerOnce
  import opened SchedulerJoin
  import opened SchedulerDrain
  import opened SchedulerRuns
  import opened SchedulerCompletion

  predicate JobQuiet(s: State, k: JobKey)
    requires k in s.jobs
  {
    || (s.jobs[k].Returned? && s.jobs[k].r.Resolved())
    || (s.jobs[k].Waiting? && s.jobs[k].readyAt <= s.now && !k.Resumed? && k.node !in s.results)
  }

  /** Jobs wait for their turn or have returned, and nothing was skipped. */
  ghost predicate Quiet(wf: Workflow, s: State) {
    && InOrder(wf, s) && s.hist.skipped == {}
    && (forall k :: k in s.jobs ==> JobQuiet(s, k))
    && s.status == (if |s.results| == |wf.nodes| then Completed else Running)
  }

  /** Nothing that has returned goes back, one more job has returned, and entries keep their ids. */
  ghost predicate Onward(s: State, s': State, k: JobKey) {
    && s'.stamps == s.stamps && k in s'.jobs && s'.jobs[k].Returned?
    && forall k' :: k' in s.jobs ==> k' in s'.jobs && (s.jobs[k'].Returned? ==> s'.jobs[k'].Returned?)
  }

  lemma LeadsOwn(wf: Workflow, s: State)
    requires Leads(wf, s)
    ensures Own(wf, s)
  {
    var states, steps :| IsPeacefulRun(wf, states, steps, s);
    hide Contained, Timestamps, Enabled, Apply;
    RunContained(wf, states, steps, |steps|);
    RunTimestamps(wf, states, steps, |steps|);
  }

  // ------------------------------------------------------ one job's turn

  lemma QuietJob(wf: Workflow, s: State, k: JobKey) returns (node: Node)
    requires Sound(wf) && Own(wf, s) && k in s.jobs
    ensures FindNode(wf.nodes, k.node) == Some(node) && KeyOk(wf, k)
    ensures node.kind.Delay? ==> ValidDuration(DelayOf(node))
  {
    LinkedIsAccepted(wf);
    JobsAreOwn(wf, s);
    hide WellLinked, Accepted, EveryNodeReachable, KeyOk, Contained, Own;
    KeyIsNode(wf, k);
    node := FindNode(wf.nodes, k.node).value;
  }

  lemma QuietRuns(wf: Workflow, s: State, k: JobKey)
    requires Sound(wf) && Own(wf, s) && Quiet(wf, s) && k in s.jobs && s.jobs[k].Waiting? && k.node in Ids(wf.nodes)
    ensures s.status == Running && |s.results| < |wf.nodes|
  {
    assert JobQuiet(s, k);
    LinkedIsAccepted(wf);
    OwnIsContained(wf, s);
    UniqueCount(wf.nodes);
    hide Accepted, Contained, WellLinked, EveryNodeReachable, InOrder;
    ResultsAreNodes(wf, s);
    SubsetSize(s.results.Keys, Ids(wf.nodes) - {k.node});
    assert |Ids(wf.nodes) - {k.node}| == |wf.nodes| - 1;
  }

  /** A waiting job is the only one of its node that waits. */
  lemma WaitsAlone(wf: Workflow, s: State, k: JobKey)
    requires WellLinked(wf) && Own(wf, s) && Quiet(wf, s) && k in s.jobs && s.jobs[k].Waiting?
    ensures PrimaryKey(wf, k.node) == k && !k.Resumed? && k.node !in s.results && s.jobs[k].readyAt <= s.now
    ensures forall k' :: k' in s.jobs && k' != k && k'.node == k.node ==> s.jobs[k'].Returned? && s.jobs[k'].r.Resolved()
  {
    hide WellLinked, KeyOk, Contained, IsDelay, PrimaryKey, InOrder;
    JobsAreOwn(wf, s);
    assert JobQuiet(s, k);
    OnlyPrimary(wf, k);
    forall k' | k' in s.jobs && k' != k && k'.node == k.node ensures s.jobs[k'].Returned? && s.jobs[k'].r.Resolved() {
      assert JobQuiet(s, k');
      OnlyPrimary(wf, k');
    }
  }

  /** A job of the name that returns at once. */
  lemma RootReturns(wf: Workflow, s: State, k: JobKey)
    requires Leads(wf, s) && k in s.jobs && s.jobs[k].Waiting? && s.jobs[k].readyAt <= s.now && k.node == ROOT_NODE
    requires FindNode(wf.nodes, k.node).Some?
    ensures Leads(wf, WithJob(s, k, Returned(ROOT_RESULT)))
  {
    hide Leads, CanTake, FindNode, ROOT_RESULT;
    RootSteps(wf, s, k);
    ReturnStep(wf, s, k, ROOT_RESULT);
    ThenTo(wf, s, Begin(k), WithPc(s, k, ReadOwn));
    ThenTo(wf, WithPc(s, k, ReadOwn), Proceed(k), WithPc(s, k, Finish(ROOT_RESULT)));
    ThenTo(wf, WithPc(s, k, Finish(ROOT_RESULT)), Proceed(k), WithJob(s, k, Returned(ROOT_RESULT)));
  }

  lemma RootSteps(wf: Workflow, s: State, k: JobKey)
    requires k in s.jobs && s.jobs[k].Waiting? && s.jobs[k].readyAt <= s.now && k.node == ROOT_NODE
    requires FindNode(wf.nodes, k.node).Some?
    ensures CanTake(wf, s, Begin(k), WithPc(s, k, ReadOwn))
    ensures CanTake(wf, WithPc(s, k, ReadOwn), Proceed(k), WithPc(s, k, Finish(ROOT_RESULT)))
  {
    hide FindNode, ROOT_RESULT;
  }

  /** A job that only returns leaves the others as they are. */
  lemma ReturnedIsQuiet(wf: Workflow, s: State, s': State, k: JobKey, r: ExecutionResult)
    requires Quiet(wf, s) && k in s.jobs && r.Resolved() && s'.jobs == s.jobs[k := Returned(r)]
    requires s'.results == s.results && s'.status == s.status && s'.lock == s.lock && s'.starting == s.starting
    requires s'.cancelling == s.cancelling && s'.now == s.now && s'.stamps == s.stamps && s'.hist.skipped == s.hist.skipped
    ensures Quiet(wf, s') && Onward(s, s', k)
  {
    hide PrimaryKey, Ready;
    assert forall k' :: k' in s.jobs ==> JobQuiet(s, k');
  }

  /** A job whose node gets its result. */
  ghost predicate AboutToWrite(wf: Workflow, s: State, k: JobKey, r: ExecutionResult) {
    && InOrder(wf, s) && s.status == Running && s.hist.skipped == {} && r.success && r.nextNodes.None?
    && (forall k' :: k' in s.jobs && k'.node != k.node ==> JobQuiet(s, k'))
    && k in s.jobs && PrimaryKey(wf, k.node) in s.jobs && k.node !in s.results && FindNode(wf.nodes, k.node).Some?
    && (forall k' :: k' in s.jobs && k' != k && k'.node == k.node ==> s.jobs[k'].Returned? && s.jobs[k'].r.Resolved())
    && Leads(wf, WithPc(s, k, WriteResult(r)))
  }

  lemma ProcessedQuietJobs(wf: Workflow, s: State, k: JobKey, r: ExecutionResult)
    requires WellLinked(wf) && AboutToWrite(wf, s, k, r) && Own(wf, Processed(wf, s, k, r))
    ensures var s' := Processed(wf, s, k, r); forall k' :: k' in s'.jobs ==> JobQuiet(s', k')
  {
    hide WellLinked, Own, PrimaryKey, Released, OutputsOf, Ready, Leads, FindNode;
    var written, s' := WithResult(s, k.node, r), Processed(wf, s, k, r);
    ReleasedKeeps(wf, written, OutputsOf(wf, k.node));
    forall k' | k' in s'.jobs ensures JobQuiet(s', k') {
      if k' !in s.jobs {
        NewJobHasNoResult(wf, s, s', k');
      }
    }
  }

  lemma ProcessedOnward(wf: Workflow, s: State, k: JobKey, r: ExecutionResult)
    requires k in s.jobs
    ensures Onward(s, Processed(wf, s, k, r), k) && Processed(wf, s, k, r).hist.skipped == s.hist.skipped
  {
    ReleasedKeeps(wf, WithResult(s, k.node, r), OutputsOf(wf, k.node));
    hide Released, OutputsOf, Ready;
  }

  lemma WriteQuietly(wf: Workflow, s: State, k: JobKey, r: ExecutionResult)
    requires WellLinked(wf) && AboutToWrite(wf, s, k, r)
    ensures var s' := Processed(wf, s, k, r); Leads(wf, s') && Quiet(wf, s') && Onward(s, s', k)
  {
    WriteAndRelease(wf, s, k, r);
    hide WellLinked, Processed, Leads, InOrder, Own, JobQuiet, Onward, PrimaryKey, FindNode;
    LeadsOwn(wf, Processed(wf, s, k, r));
    ProcessedQuietJobs(wf, s, k, r);
    ProcessedStatus(wf, s, k, r);
    ProcessedInOrder(wf, s, k, r);
    ProcessedOnward(wf, s, k, r);
  }

  lemma RegularTurn(wf: Workflow, s: State, k: JobKey, node: Node) returns (s': State)
    requires WellLinked(wf) && Own(wf, s) && Quiet(wf, s) && k in s.jobs && s.jobs[k].Waiting? && Leads(wf, s)
    requires CanStart(wf, s, k, node) && node.kind.Regular?
    ensures Leads(wf, s') && Quiet(wf, s') && Onward(s, s', k)
  {
    hide WellLinked, Own, Leads, Quiet, AboutToWrite, CanStart, Processed, Onward, PrimaryKey;
    WaitsAlone(wf, s, k);
    Execution(wf, s, k, node);
    RegularIsAboutToWrite(wf, s, k, node);
    WriteQuietly(wf, s, k, DONE);
    s' := Processed(wf, s, k, DONE);
  }

  lemma RegularIsAboutToWrite(wf: Workflow, s: State, k: JobKey, node: Node)
    requires Quiet(wf, s) && CanStart(wf, s, k, node) && PrimaryKey(wf, k.node) == k && Leads(wf, WithPc(s, k, WriteResult(DONE)))
    requires forall k' :: k' in s.jobs && k' != k && k'.node == k.node ==> s.jobs[k'].Returned? && s.jobs[k'].r.Resolved()
    ensures AboutToWrite(wf, s, k, DONE)
  {
    hide Leads, PrimaryKey, InOrder, FindNode;
  }

  lemma DelayIsAboutToWrite(wf: Workflow, s: State, s': State, k: JobKey, node: Node, d: int)
    requires Rests(s, s', k, d) && d >= 0 && Quiet(wf, s) && k in s.jobs && PrimaryKey(wf, k.node) == k && !k.Resumed?
    requires forall k' :: k' in s.jobs && k' != k && k'.node == k.node ==> s.jobs[k'].Returned? && s.jobs[k'].r.Resolved()
    requires CanStart(wf, s', Resumed(k.node), node) && s'.hist.skipped == s.hist.skipped
    requires Leads(wf, WithPc(s', Resumed(k.node), WriteResult(DelayOutput(s', node))))
    ensures AboutToWrite(wf, s', Resumed(k.node), DelayOutput(s', node))
  {
    hide Leads, PrimaryKey, FindNode, InOrder, DelayOutput;
    MarkerSucceeds(s.now + d, d);
    RestsInOrder(wf, s, s', k, d);
    DelayOutputSucceeds(s', node);
    hide DelayedMarker;
    assert forall k' :: k' in s.jobs ==> JobQuiet(s, k');
  }

  lemma MarkerSucceeds(t: int, d: int)
    ensures DelayedMarker(t, d).Resolved()
  {
  }

  lemma HandedOnSkips(s: State, k: JobKey, d: int)
    ensures HandedOn(s, k, d).hist.skipped == s.hist.skipped && HandedOn(s, k, d).stamps == s.stamps
  {
  }

  /** A delay node's turn, when the resume job's id is free. */
  lemma DelayTurn(wf: Workflow, s: State, k: JobKey, node: Node) returns (s': State)
    requires WellLinked(wf) && Own(wf, s) && Quiet(wf, s) && k in s.jobs && s.jobs[k].Waiting? && Leads(wf, s)
    requires CanStart(wf, s, k, node) && node.kind.Delay? && ValidDuration(DelayOf(node))
    requires !Taken(s.stamps, s.jobs, Resumed(k.node))
    ensures Leads(wf, s') && Quiet(wf, s') && Onward(s, s', k)
  {
    var d, resumed := DelayOf(node).value, Resumed(k.node);
    var s1 := HandedOn(s, k, d);
    assert s.lock.None?;
    WaitsAlone(wf, s, k);
    hide WellLinked, Own, Leads, PrimaryKey, FindNode, HandedOn, DelayOutput, Rests, Taken, Quiet, CanStart, AboutToWrite, Processed, Onward;
    HandOn(wf, s, k, node, d);
    HandedOnRests(s, k, d);
    HandedOnSkips(s, k, d);
    RestsCanStart(wf, s, s1, k, node, d);
    Resumption(wf, s1, resumed, node);
    DelayIsAboutToWrite(wf, s, s1, k, node, d);
    s' := Processed(wf, s1, resumed, DelayOutput(s1, node));
    WriteQuietly(wf, s1, resumed, DelayOutput(s1, node));
    RestsOnward(s, s1, s', k, d);
  }

  lemma RestsOnward(s: State, s1: State, s': State, k: JobKey, d: int)
    requires Rests(s, s1, k, d) && s1.stamps == s.stamps && Onward(s1, s', Resumed(k.node)) && k in s.jobs && s.jobs[k].Waiting?
    ensures Onward(s, s', k)
  {
    hide DelayedMarker;
  }

  /** And when it is taken: the node is never resumed. */
  lemma StuckTurn(wf: Workflow, s: State, k: JobKey, node: Node) returns (s': State)
    requires WellLinked(wf) && Own(wf, s) && Quiet(wf, s) && k in s.jobs && s.jobs[k].Waiting? && Leads(wf, s)
    requires CanStart(wf, s, k, node) && node.kind.Delay? && ValidDuration(DelayOf(node))
    requires Taken(s.stamps, s.jobs, Resumed(k.node))
    ensures Leads(wf, s') && Quiet(wf, s') && Onward(s, s', k)
  {
    var d := DelayOf(node).value;
    WaitsAlone(wf, s, k);
    hide WellLinked, Own, Leads, PrimaryKey, FindNode, Quiet, CanStart, Taken, DelayedMarker, Onward;
    var marker := DelayedMarker(s.now + d, d);
    Defer(wf, s, k, node, d);
    s' := WithJob(StartDelay(s, k.node, d), k, Returned(marker));
    MarkerSucceeds(s.now + d, d);
    ReturnedIsQuiet(wf, s, s', k, marker);
  }

  /** Any waiting job can have its turn. */
  lemma Turn(wf: Workflow, s: State, k: JobKey) returns (s': State)
    requires Sound(wf) && Leads(wf, s) && Quiet(wf, s) && k in s.jobs && s.jobs[k].Waiting?
    ensures Leads(wf, s') && Quiet(wf, s') && Onward(s, s', k)
  {
    hide Sound, Own, Leads, Quiet, Onward, CanStart, Taken, PrimaryKey, FindNode, ROOT_RESULT, KeyOk, WellLinked, DelayOf;
    LeadsOwn(wf, s);
    var node := QuietJob(wf, s, k);
    SoundIsLinked(wf);
    WaitsAlone(wf, s, k);
    if k.node == ROOT_NODE {
      RootReturns(wf, s, k);
      s' := WithJob(s, k, Returned(ROOT_RESULT));
      RootResolves();
      ReturnedIsQuiet(wf, s, s', k, ROOT_RESULT);
    } else {
      QuietRuns(wf, s, k);
      QuietStarts(wf, s, k, node);
      if node.kind.Regular? {
        s' := RegularTurn(wf, s, k, node);
      } else if Taken(s.stamps, s.jobs, Resumed(k.node)) {
        s' := StuckTurn(wf, s, k, node);
      } else {
        s' := DelayTurn(wf, s, k, node);
      }
    }
  }

  lemma RootResolves()
    ensures ROOT_RESULT.Resolved()
  {
  }

  lemma SoundIsLinked(wf: Workflow)
    requires Sound(wf)
    ensures WellLinked(wf)
  {
  }

  lemma QuietStarts(wf: Workflow, s: State, k: JobKey, node: Node)
    requires k in s.jobs && s.jobs[k].Waiting? && s.jobs[k].readyAt <= s.now && k.node !in s.results && k.node != ROOT_NODE
    requires FindNode(wf.nodes, k.node) == Some(node) && s.status == Running
    ensures CanStart(wf, s, k, node)
  {
  }

  // ------------------------------------------------------ all jobs' turns

  /** The jobs that a workflow's nodes can have. */
  function AllKeys(wf: Workflow): set<JobKey> {
    (set n | n in Ids(wf.nodes) :: Entry(n)) + (set n | n in Ids(wf.nodes) :: Child(n)) + (set n | n in Ids(wf.nodes) :: Resumed(n))
  }

  function Unfinished(wf: Workflow, s: State): set<JobKey> {
    set k | k in AllKeys(wf) && !(k in s.jobs && s.jobs[k].Returned?)
  }

  lemma FewerUnfinished(wf: Workflow, s: State, s': State, k: JobKey)
    requires Onward(s, s', k) && k.node in Ids(wf.nodes) && k in s.jobs && s.jobs[k].Waiting?
    ensures |Unfinished(wf, s')| < |Unfinished(wf, s)|
  {
    KeyOfNode(wf, k);
    hide AllKeys;
    SubsetSize(Unfinished(wf, s'), Unfinished(wf, s) - {k});
  }

  lemma KeyOfNode(wf: Workflow, k: JobKey)
    requires k.node in Ids(wf.nodes)
    ensures k in AllKeys(wf)
  {
  }

  lemma JobIsNodes(wf: Workflow, s: State, k: JobKey)
    requires Sound(wf) && Leads(wf, s) && k in s.jobs
    ensures k.node in Ids(wf.nodes)
  {
    hide Sound, Leads, Own;
    LeadsOwn(wf, s);
    var node := QuietJob(wf, s, k);
  }

  lemma {:induction false} Settle(wf: Workflow, s: State) returns (s': State)
    requires Sound(wf) && Leads(wf, s) && Quiet(wf, s)
    ensures Leads(wf, s') && Quiet(wf, s') && Drained(s') && s'.stamps == s.stamps
    ensures forall k :: k in s.jobs ==> k in s'.jobs
    decreases |Unfinished(wf, s)|
  {
    hide Sound, Leads, Quiet, Drained, Unfinished;
    if k :| k in s.jobs && s.jobs[k].Waiting? {
      JobIsNodes(wf, s, k);
      var s1 := Turn(wf, s, k);
      FewerUnfinished(wf, s, s1, k);
      s' := Settle(wf, s1);
    } else {
      s' := s;
      QuietIsDrained(wf, s);
    }
  }

  lemma QuietIsDrained(wf: Workflow, s: State)
    requires Quiet(wf, s) && forall k :: k in s.jobs ==> !s.jobs[k].Waiting?
    ensures Drained(s)
  {
    hide PrimaryKey, Ready;
    assert forall k :: k in s.jobs ==> JobQuiet(s, k);
  }

  // --------------------------------------------------------- from the start

  ghost predicate Stamped(wf: Workflow, s: State, i: nat, t: string) {
    i <= |EntryNodes(wf)| && forall j :: 0 <= j < i ==>
      Entry(EntryNodes(wf)[j]) in s.jobs && EntryNodes(wf)[j] in s.stamps && s.stamps[EntryNodes(wf)[j]] == t
  }

  ghost predicate OnlyStamp(s: State, t: string) {
    && (forall n :: n in s.stamps ==> s.stamps[n] == t) && InDigits(s.stamps) && s.hist.skipped == {}
    && forall k :: k in s.jobs ==> k.node in s.stamps
  }

  lemma EntryIsNew(s: State, n: Id, t: string)
    requires IsDigits(t) && InDigits(s.stamps) && Entry(n) !in s.jobs && forall k :: k in s.jobs ==> k.Entry?
    ensures !Taken(s.stamps[n := t], s.jobs, Entry(n))
  {
    forall k | k in s.jobs && JobIdOf(s.stamps[n := t], k) == JobIdOf(s.stamps[n := t], Entry(n)) ensures false {
      OneEntry(s.stamps[n := t], k.node, n);
    }
  }

  lemma StampNext(wf: Workflow, s: State, i: nat, t: string)
    requires Enqueueing(wf, s, i) && i < |EntryNodes(wf)| && IsDigits(t) && Stamped(wf, s, i, t) && OnlyStamp(s, t)
    ensures Enabled(wf, s, EnqueueEntry(t))
    ensures var s' := Apply(wf, s, EnqueueEntry(t)); Stamped(wf, s', i + 1, t) && OnlyStamp(s', t)
  {
    var n := EntryNodes(wf)[i];
    var s1 := WithStamp(s, n, t);
    if Entry(n) !in s.jobs {
      EntryIsNew(s, n, t);
    } else {
      TakenBySelf(s.stamps, s.jobs, Entry(n));
    }
    hide Taken, EntryNodes, IsDigits, JobIdOf;
    assert Apply(wf, s, EnqueueEntry(t)).stamps == s1.stamps;
  }

  lemma {:induction false} StampAll(wf: Workflow, i: nat, t: string) returns (s: State)
    requires i <= |EntryNodes(wf)| && IsDigits(t)
    ensures Leads(wf, s) && Enqueueing(wf, s, i) && Stamped(wf, s, i, t) && OnlyStamp(s, t)
  {
    if i == 0 {
      s := Init(wf);
      LeadsInit(wf);
    } else {
      hide Leads, Enqueueing, Apply, Enabled, EntryNodes, Stamped, OnlyStamp, IsDigits;
      var s0 := StampAll(wf, i - 1, t);
      StillEnqueueing(wf, s0, i - 1);
      EntryEnqueued(wf, s0, i - 1, t);
      StampNext(wf, s0, i - 1, t);
      Then(wf, s0, EnqueueEntry(t));
      s := Apply(wf, s0, EnqueueEntry(t));
    }
  }

  lemma StillEnqueueing(wf: Workflow, s: State, i: nat)
    requires Enqueueing(wf, s, i)
    ensures i <= |EntryNodes(wf)|
  {
  }

  /** Every entry has a job with this timestamp in its id. */
  ghost predicate AllStamped(wf: Workflow, s: State, t: string) {
    forall e :: e in EntryNodes(wf) ==> Entry(e) in s.jobs && e in s.stamps && s.stamps[e] == t
  }

  lemma StartQuietly(wf: Workflow, t: string) returns (s: State)
    requires Sound(wf) && IsDigits(t)
    ensures Leads(wf, s) && Quiet(wf, s) && AllStamped(wf, s, t)
  {
    hide Leads, EntryNodes, WellLinked, EveryNodeReachable, IsDigits;
    s := StampAll(wf, |EntryNodes(wf)|, t);
  }

  /**
   * Whatever the nodes are called, there is a run without any failure or skip, with this
   * timestamp in all entry ids, at whose end the queue has drained.
   */
  lemma CanDrain(wf: Workflow, t: string) returns (s: State)
    requires Sound(wf) && IsDigits(t)
    ensures Leads(wf, s) && Drained(s) && s.hist.skipped == {} && AllStamped(wf, s, t)
  {
    hide Sound, Leads, EntryNodes, IsDigits, Drained, InOrder, JobQuiet;
    var s0 := StartQuietly(wf, t);
    s := Settle(wf, s0);
  }
}
