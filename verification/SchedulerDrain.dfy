/** A drained queue leaves no node behind. */
module SchedulerDrain {
  import opened Graphs
  import opened Workflows
  import opened GraphValidation
  import opened Scheduler
  import opened SchedulerEffects
  import opened SchedulerContainment
  import opened SchedulerIds
  import opened SchedulerOnce
  import opened SchedulerJoin

  // ----------------------------------------------------- what jobs account for

  /**
   * A job with a resolved result to return has it in the store, or has queued the resume job.
   * JobRecorded excuses any result that looks like the marker, which an executor may return too.
   */
  predicate PcAccounted(resolved: bool, resuming: bool, pc: Pc) {
    match pc
    case WriteResult(r) => r.skipped ==> r.success
    case MarkFailed(r) => !r.Resolved()
    case Releasing(r, _) => resolved
    case AcquireLock(r) => resolved
    case LockedStatus(r) => resolved
    case LockedCount(r) => resolved
    case LockedComplete(r) => resolved
    case Unlock(r) => resolved
    case Finish(r) => r.Resolved() ==> resolved || resuming
    case _ => true
  }

  predicate JobAccounted(resolved: bool, resuming: bool, j: JobState) {
    match j
    case Active(pc) => PcAccounted(resolved, resuming, pc)
    case Returned(r) => r.Resolved() ==> resolved || resuming
    case _ => true
  }

  ghost predicate Resuming(added: set<JobKey>, k: JobKey) {
    !k.Resumed? && Resumed(k.node) in added
  }

  ghost predicate Accounted(wf: Workflow, s: State) {
    && (forall k :: k in s.jobs && k.node != ROOT_NODE ==>
          JobAccounted(ResolvedIn(s.results, k.node), Resuming(s.hist.added, k), s.jobs[k]))
    && (forall e :: e in EntryNodes(wf) ==> e in s.starting || Entry(e) in s.hist.added)
    && (!s.cancelling ==> forall k :: k in s.hist.added ==> k in s.jobs)
    && (forall n :: n in s.results && !ResolvedIn(s.results, n) ==> HasJob(s.hist.added, n))
  }

  /** What holds of every state of a run. */
  ghost predicate Own(wf: Workflow, s: State) {
    Contained(wf, s) && Timestamps(s)
  }

  ghost predicate AllRecorded(wf: Workflow, s: State) {
    forall m :: m != ROOT_NODE ==> Recorded(wf, s, m)
  }

  /** Without such a node, no job is of the name that returns at once. */
  lemma JobIsNotRoot(wf: Workflow, s: State, k: JobKey)
    requires WellLinked(wf) && NoRoot(wf) && Own(wf, s) && k in s.jobs
    ensures k.node != ROOT_NODE
  {
    LinkedIsAccepted(wf);
    JobsAreOwn(wf, s);
    hide WellLinked, Accepted, Contained, KeyOk;
    KeyIsNode(wf, k);
  }

  lemma OwnIsContained(wf: Workflow, s: State)
    requires Own(wf, s)
    ensures Contained(wf, s)
  {
  }

  ghost predicate HasJob(added: set<JobKey>, n: Id) {
    exists k :: k in added && k.node == n
  }

  lemma MovedStaysAccounted(wf: Workflow, s: State, a: Action, k: JobKey, before: bool, after: bool)
    requires Enabled(wf, s, a) && Moves(a, k) && k in s.jobs && k.node != ROOT_NODE
    requires JobAccounted(ResolvedIn(s.results, k.node), before, s.jobs[k])
    requires before || StartsDelay(s, a) ==> after
    ensures JobAccounted(ResolvedIn(Written(s.results, WriteOf(s, a)), k.node), after, MovedJob(wf, s, a, k))
  {
    hide AfterTask, FindNode, Tasks, DelayedMarker;
  }

  lemma OnlyInitialStarts(wf: Workflow, s: State, a: Action)
    requires Contained(wf, s) && StartsDelay(s, a)
    ensures !a.k.Resumed?
  {
    ActiveJob(wf, s, a.k);
  }

  lemma MoreAccounted(j: JobState, resolved: bool, resuming: bool)
    requires JobAccounted(resolved, resuming, j)
    ensures JobAccounted(true, resuming, j) && JobAccounted(resolved, true, j)
  {
  }

  lemma UnresolvedReturn(j: JobState, resuming: bool)
    requires j.Returned? && !j.r.Resolved()
    ensures JobAccounted(false, resuming, j)
  {
  }

  lemma HandedOverAccounted(s: State, k: JobKey)
    requires HandedOver(s, k)
    ensures JobAccounted(false, true, s.jobs[k])
  {
  }

  lemma UnmovedStaysAccounted(wf: Workflow, s: State, a: Action, k: JobKey)
    requires WellLinked(wf) && Contained(wf, s) && Recorded(wf, s, k.node) && Enabled(wf, s, a)
    requires k in s.jobs && !Moves(a, k) && JobAccounted(ResolvedIn(s.results, k.node), Resuming(s.hist.added, k), s.jobs[k])
    ensures JobAccounted(ResolvedIn(Written(s.results, WriteOf(s, a)), k.node), Resuming(s.hist.added, k), s.jobs[k])
  {
    hide WellLinked, Contained, Enabled, WriteOf, PrimaryKey, JobAccounted, HandedOver, JobRecorded;
    var w := WriteOf(s, a);
    MoreAccounted(s.jobs[k], ResolvedIn(s.results, k.node), Resuming(s.hist.added, k));
    if w.Writes? && w.node == k.node && !w.r.Resolved() {
      UnresolvedWriter(wf, s, a);
      if a.k != k {
        TwoKeys(wf, s, k, a.k);
        PrimaryIsNotResumed(wf, k.node);
        HandedOverAccounted(s, k);
      } else {
        UnresolvedReturn(s.jobs[k], Resuming(s.hist.added, k));
      }
    }
  }

  lemma PrimaryIsNotResumed(wf: Workflow, n: Id)
    ensures !PrimaryKey(wf, n).Resumed? && PrimaryKey(wf, n).node == n
  {
  }

  lemma AddedByStart(wf: Workflow, s: State, a: Action)
    requires Enabled(wf, s, a) && StartsDelay(s, a)
    ensures a.Proceed? && AddOf(wf, s, a).Adds? && AddOf(wf, s, a).k == Resumed(a.k.node)
  {
    hide FindNode;
  }

  lemma ResumingGrows(s: State, s': State, k: JobKey)
    requires s.hist.added <= s'.hist.added
    ensures Resuming(s.hist.added, k) ==> Resuming(s'.hist.added, k)
  {
  }

  lemma JobsStayAccounted(wf: Workflow, s: State, a: Action, k: JobKey)
    requires WellLinked(wf) && PlainIds(wf) && Own(wf, s) && AllRecorded(wf, s) && Accounted(wf, s) && Enabled(wf, s, a)
    requires k in Apply(wf, s, a).jobs && k.node != ROOT_NODE
    ensures var s' := Apply(wf, s, a);
      JobAccounted(ResolvedIn(s'.results, k.node), Resuming(s'.hist.added, k), s'.jobs[k])
  {
    var s' := Apply(wf, s, a);
    ResultEffect(wf, s, a);
    QueueChanges(wf, s, a);
    AddedStays(wf, s, a);
    ResumingGrows(s, s', k);
    OwnIsContained(wf, s);
    hide WellLinked, PlainIds, Own, Contained, Recorded, Enabled, Apply, WriteOf, AddOf, MovedJob, JobAccounted, ResolvedIn, Resuming, Written, StartsDelay;
    if Moves(a, k) {
      if StartsDelay(s, a) {
        StartIsResuming(wf, s, a, k);
      }
      MovedStaysAccounted(wf, s, a, k, Resuming(s.hist.added, k), Resuming(s'.hist.added, k));
      JobMoves(wf, s, a, k);
    } else if k in s.jobs {
      UnmovedStaysAccounted(wf, s, a, k);
      if Resuming(s'.hist.added, k) && !Resuming(s.hist.added, k) {
        MoreAccounted(s.jobs[k], ResolvedIn(s'.results, k.node), false);
      }
    } else {
      WaitingAccounted(s', k);
    }
  }

  lemma AddedStays(wf: Workflow, s: State, a: Action)
    requires WellLinked(wf) && PlainIds(wf) && Own(wf, s) && Enabled(wf, s, a)
    ensures s.hist.added <= Apply(wf, s, a).hist.added
    ensures AddOf(wf, s, a).Adds? ==> AddOf(wf, s, a).k in Apply(wf, s, a).hist.added
  {
    QueueChanges(wf, s, a);
    hide Apply, Enabled, AddOf, WellLinked, Contained, KeyOk, PlainKey, Timestamps;
    if AddOf(wf, s, a).Adds? {
      AddsOwnKey(wf, s, a);
      assert PlainKey(wf, AddOf(wf, s, a).k);
      AddsAreAdded(wf, s, a);
    }
  }

  lemma StartIsResuming(wf: Workflow, s: State, a: Action, k: JobKey)
    requires WellLinked(wf) && PlainIds(wf) && Own(wf, s) && Enabled(wf, s, a) && StartsDelay(s, a) && Moves(a, k)
    ensures Resuming(Apply(wf, s, a).hist.added, k)
  {
    OwnIsContained(wf, s);
    hide WellLinked, PlainIds, Own, Apply, Enabled, Contained, StartsDelay, AddOf;
    AddedByStart(wf, s, a);
    OnlyInitialStarts(wf, s, a);
    AddedStays(wf, s, a);
  }

  lemma WaitingAccounted(s: State, k: JobKey)
    requires k in s.jobs && s.jobs[k].Waiting?
    ensures JobAccounted(ResolvedIn(s.results, k.node), Resuming(s.hist.added, k), s.jobs[k])
  {
  }

  lemma EntriesStay(wf: Workflow, s: State, a: Action, e: Id)
    requires WellLinked(wf) && PlainIds(wf) && Own(wf, s) && Enabled(wf, s, a) && (e in s.starting || Entry(e) in s.hist.added)
    ensures e in Apply(wf, s, a).starting || Entry(e) in Apply(wf, s, a).hist.added
  {
    AddedStays(wf, s, a);
    StartingChanges(wf, s, a);
    hide WellLinked, PlainIds, Own, Apply, Enabled;
  }

  lemma JobsStay(wf: Workflow, s: State, a: Action, k: JobKey)
    requires Enabled(wf, s, a) && !Apply(wf, s, a).cancelling && k in Apply(wf, s, a).hist.added
    requires k in s.hist.added ==> k in s.jobs
    ensures k in Apply(wf, s, a).jobs && !s.cancelling
  {
    QueueChanges(wf, s, a);
    NotCancelling(wf, s, a);
    hide Apply, Enabled, AddOf;
  }

  lemma UnresolvedHasJob(wf: Workflow, s: State, a: Action, n: Id)
    requires WellLinked(wf) && PlainIds(wf) && Own(wf, s) && Enabled(wf, s, a)
    requires n in s.results && !ResolvedIn(s.results, n) ==> HasJob(s.hist.added, n)
    requires n in Apply(wf, s, a).results && !ResolvedIn(Apply(wf, s, a).results, n)
    ensures HasJob(Apply(wf, s, a).hist.added, n)
  {
    ResultEffect(wf, s, a);
    AddedStays(wf, s, a);
    OwnIsContained(wf, s);
    hide WellLinked, PlainIds, Own, Contained, Enabled, Apply, WriteOf, AddOf, JobAccounted, Resuming;
    var w := WriteOf(s, a);
    if w.Writes? && w.node == n {
      UnresolvedWriter(wf, s, a);
      QueuedIsAdded(wf, s, a.k);
      assert HasJob(Apply(wf, s, a).hist.added, n);
    } else {
      var k :| k in s.hist.added && k.node == n;
      assert k in Apply(wf, s, a).hist.added;
    }
  }

  lemma AccountedStep(wf: Workflow, s: State, a: Action)
    requires WellLinked(wf) && PlainIds(wf) && Own(wf, s) && AllRecorded(wf, s) && Accounted(wf, s) && Enabled(wf, s, a)
    ensures Accounted(wf, Apply(wf, s, a))
  {
    hide WellLinked, PlainIds, Own, AllRecorded, Enabled, Apply, JobAccounted, Resuming, HasJob, ResolvedIn, EntryNodes;
    var s' := Apply(wf, s, a);
    forall k | k in s'.jobs && k.node != ROOT_NODE ensures JobAccounted(ResolvedIn(s'.results, k.node), Resuming(s'.hist.added, k), s'.jobs[k]) {
      JobsStayAccounted(wf, s, a, k);
    }
    forall e | e in EntryNodes(wf) ensures e in s'.starting || Entry(e) in s'.hist.added {
      EntriesStay(wf, s, a, e);
    }
    if !s'.cancelling {
      NotCancelling(wf, s, a);
      forall k | k in s'.hist.added ensures k in s'.jobs {
        JobsStay(wf, s, a, k);
      }
    }
    forall n | n in s'.results && !ResolvedIn(s'.results, n) ensures HasJob(s'.hist.added, n) {
      UnresolvedHasJob(wf, s, a, n);
    }
  }

  /** No throw in the run makes a worker forget a node or starts a handed-over delay again. */
  ghost predicate AllKept(wf: Workflow, states: seq<State>, steps: seq<Action>) {
    && |states| == |steps| + 1
    && (forall i, n :: 0 <= i < |steps| ==> !Drops(wf, states[i], steps[i], n))
    && (forall i, m :: 0 <= i < |steps| ==> !RepeatsHandOver(wf, states[i], steps[i], m))
  }

  lemma EachKept(wf: Workflow, states: seq<State>, steps: seq<Action>, n: Id)
    requires AllKept(wf, states, steps)
    ensures Kept(wf, states, steps, n)
  {
    hide Drops, RepeatsHandOver;
  }

  lemma RunOwn(wf: Workflow, states: seq<State>, steps: seq<Action>, i: nat)
    requires WellLinked(wf) && IsRun(wf, states, steps) && AllKept(wf, states, steps) && i < |states|
    ensures Own(wf, states[i]) && AllRecorded(wf, states[i])
  {
    hide WellLinked, Contained, Timestamps, Recorded, Drops, RepeatsHandOver, Apply, Enabled;
    RunContained(wf, states, steps, i);
    RunTimestamps(wf, states, steps, i);
    forall m | m != ROOT_NODE ensures Recorded(wf, states[i], m) {
      RunRecorded(wf, states, steps, i, m);
    }
  }

  lemma {:induction false} RunAccounted(wf: Workflow, states: seq<State>, steps: seq<Action>, i: nat)
    requires WellLinked(wf) && PlainIds(wf) && IsRun(wf, states, steps) && AllKept(wf, states, steps) && i < |states|
    ensures Accounted(wf, states[i])
  {
    hide WellLinked, PlainIds, Enabled, Apply, Own, AllRecorded, AllKept;
    if i > 0 {
      hide Accounted;
      RunAccounted(wf, states, steps, i - 1);
      RunOwn(wf, states, steps, i - 1);
      AccountedStep(wf, states[i-1], steps[i-1]);
    }
  }

  // ------------------------------------------------------ the drained queue

  /** Entries are enqueued, nothing was removed, and every job returned a resolved result. */
  ghost predicate Drained(s: State) {
    s.starting == [] && !s.cancelling && forall k :: k in s.jobs ==> s.jobs[k].Returned? && s.jobs[k].r.Resolved()
  }

  lemma JobResolves(wf: Workflow, s: State, k: JobKey)
    requires Accounted(wf, s) && Drained(s) && k in s.hist.added && k.node != ROOT_NODE
    ensures ResolvedIn(s.results, k.node)
  {
    assert k in s.jobs && JobAccounted(ResolvedIn(s.results, k.node), Resuming(s.hist.added, k), s.jobs[k]);
    if Resuming(s.hist.added, k) {
      var resumed := Resumed(k.node);
      assert resumed in s.jobs && JobAccounted(ResolvedIn(s.results, k.node), Resuming(s.hist.added, resumed), s.jobs[resumed]);
    }
  }

  lemma EntryResolves(wf: Workflow, s: State, e: Id)
    requires Accounted(wf, s) && Drained(s) && e in EntryNodes(wf) && e != ROOT_NODE
    ensures ResolvedIn(s.results, e)
  {
    hide EntryNodes;
    assert Entry(e) in s.hist.added;
    JobResolves(wf, s, Entry(e));
  }

  lemma ReadyResolves(wf: Workflow, s: State, n: Id)
    requires Accounted(wf, s) && Joined(wf, s, n) && Drained(s) && HasInputs(wf, n) && Ready(wf, s.results, n) && n != ROOT_NODE
    ensures ResolvedIn(s.results, n)
  {
    hide HasInputs, Ready;
    assert Handled(wf, s, n) && forall k :: !Holds(wf, s, k, n);
    if Child(n) in s.hist.added {
      JobResolves(wf, s, Child(n));
    } else if Entry(n) in s.hist.added {
      JobResolves(wf, s, Entry(n));
    } else if !ResolvedIn(s.results, n) {
      var k :| k in s.hist.added && k.node == n;
      JobResolves(wf, s, k);
    }
  }

  /** With a named entry, the validator finds no unreachable node. */
  ghost predicate EveryNodeReachable(wf: Workflow) {
    wf.entryNodeId != "" ==> UnreachableIds(FirstOutputGraph(wf.nodes), wf.entryNodeId, wf.nodes) == []
  }

  lemma SourceIsEntry(wf: Workflow, node: Node)
    requires WellLinked(wf) && EveryNodeReachable(wf) && node in wf.nodes && node.inputs == []
    ensures node.id in EntryNodes(wf)
  {
    if wf.entryNodeId == "" {
      WithoutInputsAreNodes(wf.nodes, node.id);
    } else {
      UnreachableIdsMember(FirstOutputGraph(wf.nodes), wf.entryNodeId, wf.nodes, node.id);
      ReachedSource(wf, wf.entryNodeId, node);
      UniqueNode(wf.nodes, node);
    }
  }

  /** A node without inputs is reached from itself only. */
  lemma ReachedSource(wf: Workflow, e: Id, node: Node)
    requires WellLinked(wf) && node in wf.nodes && node.inputs == [] && Reaches(FirstOutputGraph(wf.nodes), e, node.id)
    ensures node.id == e
  {
    var g := FirstOutputGraph(wf.nodes);
    var p :| IsPathBetween(g, p, e, node.id);
    UniqueNode(wf.nodes, node);
    if |p| > 1 {
      FirstOutputs(wf.nodes, p[|p|-2]);
      ParentIsInput(wf, node.id, p[|p|-2]);
    }
  }

  /** Nothing waits for a node of the name that returns at once. */
  predicate RootIsLast(wf: Workflow) {
    OutputsOf(wf, ROOT_NODE) == []
  }

  /** Going up a topological order, inputs before their nodes. */
  lemma {:induction false} OrderResolves(wf: Workflow, s: State, order: seq<Id>, i: nat)
    requires WellLinked(wf) && EveryNodeReachable(wf) && Accounted(wf, s) && Drained(s) && forall n :: Joined(wf, s, n)
    requires IsOrder(wf, order) && i < |order| && RootIsLast(wf) && order[i] != ROOT_NODE
    ensures ResolvedIn(s.results, order[i])
    decreases |order| - i
  {
    OrderedNode(wf, order, i);
    hide WellLinked, EveryNodeReachable, Accounted, Joined, Drained, ResolvedIn, IsOrder, FindNode, Ready, HasInputs;
    var node := FindNode(wf.nodes, order[i]).value;
    forall m | m in node.inputs ensures ResolvedIn(s.results, m) {
      LinkedBack(wf, order[i], m);
      var j := InputIsLater(wf, order, i, m);
      OrderResolves(wf, s, order, j);
    }
    if node.inputs == [] {
      SourceIsEntry(wf, node);
      EntryResolves(wf, s, node.id);
    } else {
      InputsReady(wf, s, order[i]);
      ReadyResolves(wf, s, order[i]);
    }
  }

  lemma OrderedNode(wf: Workflow, order: seq<Id>, i: nat)
    requires IsOrder(wf, order) && i < |order|
    ensures var node := FindNode(wf.nodes, order[i]); node.Some? && node.value in wf.nodes && node.value.id == order[i]
  {
  }

  lemma InputsReady(wf: Workflow, s: State, n: Id)
    requires FindNode(wf.nodes, n).Some? && FindNode(wf.nodes, n).value.inputs != []
    requires forall m :: m in FindNode(wf.nodes, n).value.inputs ==> ResolvedIn(s.results, m)
    ensures HasInputs(wf, n) && Ready(wf, s.results, n)
  {
  }

  lemma InputIsLater(wf: Workflow, order: seq<Id>, i: nat, m: Id) returns (j: nat)
    requires WellLinked(wf) && IsOrder(wf, order) && i < |order|
    requires FindNode(wf.nodes, order[i]).Some? && m in FindNode(wf.nodes, order[i]).value.inputs
    ensures i < j < |order| && order[j] == m
  {
    LinkedBack(wf, order[i], m);
    ParentIsNode(wf, m, order[i]);
    hide WellLinked, OutputsFirst;
    j :| 0 <= j < |order| && order[j] == m;
    OutputsBefore(wf, order, j, order[i]);
  }

  lemma ParentIsNode(wf: Workflow, m: Id, n: Id)
    requires n in OutputsOf(wf, m)
    ensures m in Ids(wf.nodes)
  {
  }

  lemma OutputsBefore(wf: Workflow, order: seq<Id>, j: nat, n: Id)
    requires IsOrder(wf, order) && j < |order| && n in OutputsOf(wf, order[j])
    ensures exists x :: 0 <= x < j && order[x] == n
  {
    var parent := FindNode(wf.nodes, order[j]).value;
    assert parent in wf.nodes && parent.id == order[j] && n in order[..j];
  }

  /** A topological order of the nodes, outputs first. */
  ghost predicate IsOrder(wf: Workflow, order: seq<Id>) {
    NoDup(order) && OutputsFirst(wf.nodes, order) && forall x :: x in order <==> x in Ids(wf.nodes)
  }

  lemma PlainForAll(wf: Workflow, n: Id)
    requires WellLinked(wf) && PlainIds(wf) && RootIsLast(wf)
    ensures PlainFor(wf, n)
  {
    hide WellLinked, KeyOk, PlainKey;
    if ROOT_NODE in InputsOf(wf, n) {
      LinkedBack(wf, n, ROOT_NODE);
    }
  }

  /**
   * When the queue has drained with resolved results only, and nothing was cut short or
   * cancelled, every node of the workflow has a resolved result: no pending node is left. Only a
   * node of the name that returns at once has to wait for the listener.
   */
  lemma DrainedIsResolved(wf: Workflow, states: seq<State>, steps: seq<Action>, i: nat)
    requires WellLinked(wf) && PlainIds(wf) && RootIsLast(wf) && EveryNodeReachable(wf)
    requires IsRun(wf, states, steps) && AllKept(wf, states, steps) && i < |states| && Drained(states[i])
    ensures forall n :: n in Ids(wf.nodes) && n != ROOT_NODE ==> ResolvedIn(states[i].results, n)
    ensures NoRoot(wf) ==> |states[i].results| == |wf.nodes|
  {
    var s := states[i];
    var order := SomeOrder(wf);
    hide IsOrder, FindNode, Accounted, Joined, Contained, WellLinked, PlainIds, PlainFor, IsRun, AllKept, Kept, EveryNodeReachable, Drained, ResolvedIn, RootIsLast;
    RunAccounted(wf, states, steps, i);
    forall n ensures Joined(wf, s, n) {
      EachKept(wf, states, steps, n);
      PlainForAll(wf, n);
      RunJoined(wf, states, steps, i, n);
    }
    RunContained(wf, states, steps, i);
    forall n | n in Ids(wf.nodes) && n != ROOT_NODE ensures ResolvedIn(s.results, n) {
      var j := PlaceOf(wf, order, n);
      OrderResolves(wf, s, order, j);
    }
    if NoRoot(wf) {
      AllCounted(wf, s);
    }
  }

  lemma SomeOrder(wf: Workflow) returns (order: seq<Id>)
    requires WellLinked(wf)
    ensures IsOrder(wf, order)
  {
    order := AcceptedHasOrder(wf);
  }

  lemma PlaceOf(wf: Workflow, order: seq<Id>, n: Id) returns (j: nat)
    requires IsOrder(wf, order) && n in Ids(wf.nodes)
    ensures j < |order| && order[j] == n
  {
    assert n in order;
    j :| 0 <= j < |order| && order[j] == n;
  }

  lemma AllCounted(wf: Workflow, s: State)
    requires WellLinked(wf) && Contained(wf, s) && forall n :: n in Ids(wf.nodes) ==> ResolvedIn(s.results, n)
    ensures |s.results| == |wf.nodes|
  {
    ResultsAreNodes(wf, s);
    assert s.results.Keys == Ids(wf.nodes);
    UniqueCount(wf.nodes);
  }
}
