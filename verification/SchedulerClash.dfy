/** What jobs of one id do to each other, in every run, and what can be checked of the names. */
module SchedulerClash {
  import opened Graphs
  import opened Workflows
  import opened GraphValidation
  import opened JobIds
  import opened Scheduler
  import opened SchedulerEffects
  import opened SchedulerContainment
  import opened SchedulerIds
  import opened SchedulerOnce
  import opened SchedulerOrder
  import opened SchedulerJoin
  import opened SchedulerDrain
  import opened SchedulerDelay

  // ------------------------------------------------------ checkable names

  lemma ClashIsNamed(wf: Workflow, k: JobKey, c: JobKey)
    requires WellLinked(wf) && KeyOk(wf, k) && KeyOk(wf, c) && Clash(k, c)
    ensures !PlainNames(wf)
  {
    LinkedIsAccepted(wf);
    KeyIsNode(wf, k);
    KeyIsNode(wf, c);
    EntryIsNotChild(wf, c);
    hide WellLinked, Accepted, Live, Fed, EntryNodes, CanShareManualId;
    var child := FindNode(wf.nodes, c.node).value;
    if k.Resumed? {
      assert FindNode(wf.nodes, k.node).value in wf.nodes;
    }
  }

  lemma EntryIsNotChild(wf: Workflow, c: JobKey)
    requires WellLinked(wf) && KeyOk(wf, c) && c.Child?
    ensures c.node !in EntryNodes(wf)
  {
    if c.node in EntryNodes(wf) {
      EntryNotFed(wf, c.node);
    }
  }

  lemma PlainNamesSuffice(wf: Workflow)
    requires WellLinked(wf) && PlainNames(wf)
    ensures PlainIds(wf)
  {
    hide WellLinked, PlainNames, KeyOk, Clash;
    forall k, c | KeyOk(wf, k) && KeyOk(wf, c) ensures !Clash(k, c) {
      if Clash(k, c) {
        ClashIsNamed(wf, k, c);
      }
    }
  }

  /** When every node is reachable, each is reachable from an entry, and fed unless it is one. */
  lemma {:induction false} OrderIsLive(wf: Workflow, order: seq<Id>, i: nat)
    requires WellLinked(wf) && wf.entryNodeId == "" && IsOrder(wf, order) && i < |order|
    ensures Live(wf, order[i]) && (order[i] !in EntryNodes(wf) ==> Fed(wf, order[i]))
    decreases |order| - i
  {
    OrderedNode(wf, order, i);
    hide WellLinked, IsOrder, FindNode;
    var node := FindNode(wf.nodes, order[i]).value;
    if node.inputs == [] {
      WithoutInputsAreNodes(wf.nodes, order[i]);
      ReachesSelf(FirstOutputGraph(wf.nodes), order[i]);
    } else {
      var m := node.inputs[0];
      var j := InputIsLater(wf, order, i, m);
      OrderIsLive(wf, order, j);
      LinkedBack(wf, order[i], m);
      assert Fed(wf, order[i]);
      FedIsLive(wf, order[i]);
    }
  }

  lemma PathIsLive(wf: Workflow, e: Id, p: seq<Id>)
    requires e in EntryNodes(wf) && |p| > 1 && IsPathBetween(FirstOutputGraph(wf.nodes), p, e, p[|p|-1])
    ensures Fed(wf, p[|p|-1])
  {
    hide EntryNodes, FirstOutputGraph;
    var g, m := FirstOutputGraph(wf.nodes), p[|p|-2];
    assert p[|p|-2+1] in Succ(g, m);
    assert IsPathBetween(g, p[..|p|-1], e, m);
    FirstOutputs(wf.nodes, m);
    assert Live(wf, m);
  }

  lemma NamedIsLive(wf: Workflow, n: Id)
    requires WellLinked(wf) && EveryNodeReachable(wf) && wf.entryNodeId != "" && n in Ids(wf.nodes)
    ensures Live(wf, n) && (n !in EntryNodes(wf) ==> Fed(wf, n))
  {
    var g, e := FirstOutputGraph(wf.nodes), wf.entryNodeId;
    assert UnreachableIds(g, e, wf.nodes) == [];
    hide WellLinked, EveryNodeReachable, FirstOutputGraph, UnreachableIds;
    UnreachableIdsMember(g, e, wf.nodes, n);
    NamedIsEntry(wf);
    var p :| IsPathBetween(g, p, e, n);
    hide EntryNodes, Fed;
    if |p| > 1 {
      PathIsLive(wf, e, p);
    }
  }

  lemma NamedIsEntry(wf: Workflow)
    requires WellLinked(wf) && wf.entryNodeId != ""
    ensures wf.entryNodeId in EntryNodes(wf)
  {
  }

  lemma NodeIsLive(wf: Workflow, n: Id)
    requires WellLinked(wf) && EveryNodeReachable(wf) && n in Ids(wf.nodes)
    ensures Live(wf, n) && (n !in EntryNodes(wf) ==> Fed(wf, n))
  {
    if wf.entryNodeId != "" {
      NamedIsLive(wf, n);
    } else {
      hide WellLinked, EveryNodeReachable, IsOrder, Live, Fed;
      var order := SomeOrder(wf);
      var j := PlaceOf(wf, order, n);
      OrderIsLive(wf, order, j);
    }
  }

  /** So a caller can check before the start whether jobs are kept apart. */
  lemma PlainIsCheckable(wf: Workflow)
    requires WellLinked(wf) && EveryNodeReachable(wf)
    ensures PlainIds(wf) <==> PlainNames(wf)
  {
    if PlainNames(wf) {
      PlainNamesSuffice(wf);
    }
    if PlainIds(wf) {
      hide WellLinked, EveryNodeReachable, EntryNodes, CanShareManualId, PlainIds, Live, Fed;
      forall c | c in wf.nodes && c.id !in EntryNodes(wf)
        ensures forall d :: d in wf.nodes && d.kind.Delay? && d.id != ROOT_NODE ==> c.id != d.id + RESUMED_MARK
        ensures forall e :: e in EntryNodes(wf) ==> !CanShareManualId(e, c.id)
      {
        NodeIsLive(wf, c.id);
        forall d | d in wf.nodes && d.kind.Delay? && d.id != ROOT_NODE ensures c.id != d.id + RESUMED_MARK {
          NodeIsLive(wf, d.id);
          DelayNode(wf, d);
          NoClash(wf, Resumed(d.id), Child(c.id));
        }
        forall e | e in EntryNodes(wf) ensures !CanShareManualId(e, c.id) {
          NoClash(wf, Entry(e), Child(c.id));
        }
      }
    }
  }

  lemma DelayNode(wf: Workflow, d: Node)
    requires WellLinked(wf) && d in wf.nodes && d.kind.Delay?
    ensures IsDelay(wf, d.id)
  {
    UniqueNode(wf.nodes, d);
  }

  lemma NoClash(wf: Workflow, k: JobKey, c: JobKey)
    requires PlainIds(wf) && KeyOk(wf, k) && KeyOk(wf, c)
    ensures !Clash(k, c)
  {
    assert PlainKey(wf, k);
  }

  // -------------------------------------------------- one job for each id

  /** The jobs in the queue have different ids. */
  ghost predicate Distinct(s: State) {
    forall k, k' :: k in s.jobs && k' in s.jobs && JobIdOf(s.stamps, k) == JobIdOf(s.stamps, k') ==> k == k'
  }

  /** The id of a job in the queue does not change. */
  lemma IdStays(wf: Workflow, s: State, a: Action, k: JobKey)
    requires Enabled(wf, s, a) && k in s.jobs
    ensures JobIdOf(Apply(wf, s, a).stamps, k) == JobIdOf(s.stamps, k)
  {
    QueueChanges(wf, s, a);
    hide Apply, AddOf, ManualJobId, GenerateNodeJobId;
  }

  lemma AddedIsNew(wf: Workflow, s: State, a: Action, k: JobKey)
    requires Enabled(wf, s, a) && k !in s.jobs && k in Apply(wf, s, a).jobs
    ensures !Taken(Apply(wf, s, a).stamps, s.jobs, k)
  {
    QueueChanges(wf, s, a);
    hide JobIdOf, NextJob, FindNode, FirstStart, DelayOf, ResolvedIn;
  }

  lemma DistinctStep(wf: Workflow, s: State, a: Action)
    requires Enabled(wf, s, a) && Distinct(s)
    ensures Distinct(Apply(wf, s, a))
  {
    QueueChanges(wf, s, a);
    hide Apply, Enabled, AddOf, JobIdOf;
    var s' := Apply(wf, s, a);
    forall k, k' | k in s'.jobs && k' in s'.jobs && JobIdOf(s'.stamps, k) == JobIdOf(s'.stamps, k') ensures k == k' {
      if k in s.jobs {
        IdStays(wf, s, a, k);
      } else {
        AddedIsNew(wf, s, a, k);
      }
      if k' in s.jobs {
        IdStays(wf, s, a, k');
      } else {
        AddedIsNew(wf, s, a, k');
      }
    }
  }

  lemma {:induction false} RunDistinct(wf: Workflow, states: seq<State>, steps: seq<Action>, i: nat)
    requires IsRun(wf, states, steps) && i < |states|
    ensures Distinct(states[i])
  {
    hide Apply, Enabled;
    if i > 0 {
      hide Distinct;
      RunDistinct(wf, states, steps, i - 1);
      DistinctStep(wf, states[i-1], steps[i-1]);
    }
  }

  /** While nothing was cancelled, every job that was added is in the queue. */
  lemma {:induction false} RunStays(wf: Workflow, states: seq<State>, steps: seq<Action>, i: nat)
    requires IsRun(wf, states, steps) && i < |states| && !states[i].cancelling
    ensures states[i].hist.added <= states[i].jobs.Keys
  {
    hide Apply, Enabled;
    if i > 0 {
      NotCancelling(wf, states[i-1], steps[i-1]);
      RunStays(wf, states, steps, i - 1);
      forall k | k in states[i].hist.added ensures k in states[i].jobs {
        JobsStay(wf, states[i-1], steps[i-1], k);
      }
    }
  }

  /** Of two jobs of one id, only one is ever added. */
  lemma OnlyOneIsAdded(wf: Workflow, states: seq<State>, steps: seq<Action>, i: nat, k: JobKey, k': JobKey)
    requires IsRun(wf, states, steps) && i < |states| && !states[i].cancelling
    requires k != k' && JobIdOf(states[i].stamps, k) == JobIdOf(states[i].stamps, k')
    ensures !(k in states[i].hist.added && k' in states[i].hist.added)
  {
    hide IsRun;
    RunDistinct(wf, states, steps, i);
    RunStays(wf, states, steps, i);
  }

  // ------------------------------------------------- whose job a result has

  /** A resolved node that was not skipped had the job that can write its result. */
  ghost predicate HadJob(wf: Workflow, s: State, m: Id) {
    && (m in s.hist.resolved && m !in s.hist.skipped && m != ROOT_NODE ==>
          PrimaryKey(wf, m) in s.hist.added && (IsDelay(wf, m) ==> Resumed(m) in s.hist.added))
    && (Resumed(m) in s.hist.added ==> PrimaryKey(wf, m) in s.hist.added)
  }

  lemma WhoResolvesFirst(wf: Workflow, s: State, a: Action, m: Id)
    requires Contained(wf, s) && Timed(wf, s) && Enabled(wf, s, a) && m != ROOT_NODE
    requires m !in s.hist.resolved && WriteOf(s, a).Writes? && WriteOf(s, a).node == m && WriteOf(s, a).r.Resolved()
    ensures SkippedAt(s, a, m) || (a.k in s.jobs && a.k.node == m && (IsDelay(wf, m) ==> a.k == Resumed(m)))
  {
    hide FindNode, Due, DueWhenReady, KeyOk, Live, IsDelay, TasksOk;
    if !Skips(s, a) {
      ActiveJob(wf, s, a.k);
      assert JobRecorded(RecordedSoFar(s, a.k.node), s.jobs[a.k]);
    }
  }

  lemma ResumedHasPrimary(wf: Workflow, s: State, a: Action, m: Id)
    requires WellLinked(wf) && Contained(wf, s) && Enabled(wf, s, a) && HadJob(wf, s, m)
    requires Resumed(m) in Apply(wf, s, a).hist.added
    ensures PrimaryKey(wf, m) in Apply(wf, s, a).hist.added
  {
    QueueChanges(wf, s, a);
    hide WellLinked, Contained, Enabled, Apply, AddOf, PrimaryKey, IsDelay, StartsDelay;
    if Resumed(m) !in s.hist.added {
      HandOver(wf, s, a, m);
      StartMoves(s, a);
      QueuedIsAdded(wf, s, a.k);
      assert Moves(a, a.k);
    }
  }

  lemma ResolvedHadJobs(wf: Workflow, s: State, a: Action, m: Id)
    requires WellLinked(wf) && Contained(wf, s) && Timed(wf, s) && Enabled(wf, s, a) && HadJob(wf, s, m) && m != ROOT_NODE
    requires m in Apply(wf, s, a).hist.resolved && m !in Apply(wf, s, a).hist.skipped
    ensures PrimaryKey(wf, m) in s.hist.added && (IsDelay(wf, m) ==> Resumed(m) in s.hist.added)
  {
    ResultEffect(wf, s, a);
    HistoryChanges(wf, s, a);
    hide WellLinked, Contained, Timed, Enabled, Apply, WriteOf, PrimaryKey, IsDelay, StartsDelay;
    if m !in s.hist.resolved {
      WhoResolvesFirst(wf, s, a, m);
      WriterHadJobs(wf, s, a.k);
    }
  }

  lemma WriterHadJobs(wf: Workflow, s: State, k: JobKey)
    requires WellLinked(wf) && Contained(wf, s) && HadJob(wf, s, k.node) && k in s.jobs
    ensures PrimaryKey(wf, k.node) in s.hist.added && k in s.hist.added
  {
    ActiveJob(wf, s, k);
    QueuedIsAdded(wf, s, k);
    hide WellLinked, Contained, PrimaryKey, KeyOk, JobOk, IsDelay;
    OnlyPrimary(wf, k);
  }

  lemma HadJobStep(wf: Workflow, s: State, a: Action, m: Id)
    requires WellLinked(wf) && Contained(wf, s) && Timed(wf, s) && Enabled(wf, s, a) && HadJob(wf, s, m)
    ensures HadJob(wf, Apply(wf, s, a), m)
  {
    hide WellLinked, Contained, Timed, Enabled, Apply, PrimaryKey, IsDelay;
    var s' := Apply(wf, s, a);
    AddedGrows(wf, s, a);
    if m in s'.hist.resolved && m !in s'.hist.skipped && m != ROOT_NODE {
      ResolvedHadJobs(wf, s, a, m);
    }
    if Resumed(m) in s'.hist.added {
      ResumedHasPrimary(wf, s, a, m);
    }
  }

  lemma AddedGrows(wf: Workflow, s: State, a: Action)
    requires Enabled(wf, s, a)
    ensures s.hist.added <= Apply(wf, s, a).hist.added
  {
    QueueChanges(wf, s, a);
    hide Apply, Enabled, AddOf;
  }

  lemma {:induction false} RunHadJobs(wf: Workflow, states: seq<State>, steps: seq<Action>, i: nat, m: Id)
    requires WellLinked(wf) && IsRun(wf, states, steps) && i < |states|
    ensures HadJob(wf, states[i], m)
  {
    hide WellLinked, Contained, Timed, Enabled, Apply;
    if i > 0 {
      hide HadJob;
      RunHadJobs(wf, states, steps, i - 1, m);
      RunContained(wf, states, steps, i - 1);
      RunTimed(wf, states, steps, i - 1);
      HadJobStep(wf, states[i-1], steps[i-1], m);
    }
  }

  // ------------------------------------------------ names that lose a node

  /** A node and the child job called like its resume job. */
  ghost predicate ResumeTwins(wf: Workflow, d: Id, c: Id) {
    IsDelay(wf, d) && d != ROOT_NODE && c == d + RESUMED_MARK && c !in EntryNodes(wf)
  }

  lemma TwinIsNotRoot(d: Id)
    ensures d + RESUMED_MARK != ROOT_NODE
  {
    assert (d + RESUMED_MARK)[|d + RESUMED_MARK| - 1] == 'd' && ROOT_NODE[|ROOT_NODE| - 1] == '_';
  }

  /**
   * In no run that is not cancelled do both get a result, unless one of them was skipped: wherever
   * they are in the workflow, whatever else they wait for and whatever goes wrong or well.
   */
  lemma ResumeTwinsExclude(wf: Workflow, states: seq<State>, steps: seq<Action>, i: nat, d: Id, c: Id)
    requires WellLinked(wf) && IsRun(wf, states, steps) && i < |states| && !states[i].cancelling && ResumeTwins(wf, d, c)
    requires !WasSkipped(states, steps, i, d) && !WasSkipped(states, steps, i, c)
    ensures !(WasResolved(states, i, d) && WasResolved(states, i, c))
  {
    hide IsRun, WellLinked, EntryNodes, WasSkipped, WasResolved, IsDelay, JobIdOf;
    ResumeJobTwin(states[i].stamps, d);
    TwinIsNotRoot(d);
    OnlyOneIsAdded(wf, states, steps, i, Resumed(d), Child(c));
    RunHadJobs(wf, states, steps, i, d);
    RunHadJobs(wf, states, steps, i, c);
    ResolvedHistory(wf, states, steps, i, d);
    ResolvedHistory(wf, states, steps, i, c);
    SkippedHistory(wf, states, steps, i, d);
    SkippedHistory(wf, states, steps, i, c);
    assert c !in EntryNodes(wf);
  }

  /** What was added once has inputs that were all resolved before. */
  lemma ChildWaited(wf: Workflow, states: seq<State>, steps: seq<Action>, i: nat, m: Id, c: Id)
    requires WellLinked(wf) && IsRun(wf, states, steps) && i < |states|
    requires c in OutputsOf(wf, m) && Child(c) in states[i].hist.added
    ensures m in states[i].hist.resolved
  {
    hide IsRun, WellLinked, OutputsOf;
    RunOrdered(wf, states, steps, i);
    assert InputsResolved(wf, states[i].hist.resolved, c);
    ParentIsInput(wf, c, m);
  }

  /** And if the child waits for the delay node itself, it is never enqueued at all. */
  lemma ResumeTwinIsLost(wf: Workflow, states: seq<State>, steps: seq<Action>, i: nat, d: Id, c: Id)
    requires WellLinked(wf) && IsRun(wf, states, steps) && i < |states| && !states[i].cancelling && ResumeTwins(wf, d, c)
    requires c in OutputsOf(wf, d) && !WasSkipped(states, steps, i, d)
    ensures !WasQueued(states, i, Child(c))
    ensures WasResolved(states, i, c) ==> WasSkipped(states, steps, i, c)
  {
    hide IsRun, WellLinked, EntryNodes, WasSkipped, WasResolved, WasQueued, IsDelay, JobIdOf, OutputsOf;
    ResumeJobTwin(states[i].stamps, d);
    TwinIsNotRoot(d);
    OnlyOneIsAdded(wf, states, steps, i, Resumed(d), Child(c));
    RunHadJobs(wf, states, steps, i, d);
    RunHadJobs(wf, states, steps, i, c);
    AddedHistory(wf, states, steps, i, Child(c));
    ResolvedHistory(wf, states, steps, i, c);
    SkippedHistory(wf, states, steps, i, d);
    SkippedHistory(wf, states, steps, i, c);
    if Child(c) in states[i].hist.added {
      ChildWaited(wf, states, steps, i, d, c);
    }
    assert c !in EntryNodes(wf);
  }

  // ---------------------------------------- a child called like an entry's job

  ghost predicate NoEntrySkipped(wf: Workflow, s: State) {
    forall e :: e in s.hist.skipped ==> Fed(wf, e)
  }

  lemma SkippedIsFed(wf: Workflow, s: State, a: Action)
    requires Contained(wf, s) && NoEntrySkipped(wf, s) && Enabled(wf, s, a)
    ensures NoEntrySkipped(wf, Apply(wf, s, a))
  {
    HistoryChanges(wf, s, a);
    hide Apply, Enabled, StartsDelay, Fed, KeyOk, Live;
    if Skips(s, a) {
      ActiveJob(wf, s, a.k);
    }
  }

  /** Nobody skips an entry. */
  lemma {:induction false} RunSkips(wf: Workflow, states: seq<State>, steps: seq<Action>, i: nat)
    requires IsRun(wf, states, steps) && i < |states|
    ensures NoEntrySkipped(wf, states[i])
  {
    hide Apply, Enabled, Contained;
    if i > 0 {
      hide NoEntrySkipped;
      RunSkips(wf, states, steps, i - 1);
      RunContained(wf, states, steps, i - 1);
      SkippedIsFed(wf, states[i-1], steps[i-1]);
    }
  }

  lemma EntryNotSkipped(wf: Workflow, states: seq<State>, steps: seq<Action>, i: nat, e: Id)
    requires WellLinked(wf) && IsRun(wf, states, steps) && i < |states| && e in EntryNodes(wf)
    ensures e !in states[i].hist.skipped
  {
    EntryNotFed(wf, e);
    hide WellLinked, IsRun, EntryNodes, Fed;
    RunSkips(wf, states, steps, i);
  }

  /** An entry whose job's id, at this time, is that of the node's job. */
  ghost predicate EntryTwins(wf: Workflow, s: State, e: Id, c: Id) {
    && e in EntryNodes(wf) && c !in EntryNodes(wf) && c != ROOT_NODE
    && e in s.stamps && IsDigits(s.stamps[e]) && ManualTwins(e, s.stamps[e], c)
  }

  lemma EntryTwinsShare(wf: Workflow, s: State, e: Id, c: Id)
    requires EntryTwins(wf, s, e, c)
    ensures JobIdOf(s.stamps, Entry(e)) == JobIdOf(s.stamps, Child(c))
  {
    SharedManualId("", e, s.stamps[e], "", c, false);
  }

  /** Once the entry is in the queue, the node gets no job and, unless it is skipped, no result. */
  lemma EntryTwinIsLost(wf: Workflow, states: seq<State>, steps: seq<Action>, i: nat, e: Id, c: Id)
    requires WellLinked(wf) && IsRun(wf, states, steps) && i < |states| && !states[i].cancelling
    requires EntryTwins(wf, states[i], e, c) && (WasQueued(states, i, Entry(e)) || (c in OutputsOf(wf, e) && e != ROOT_NODE))
    ensures !WasQueued(states, i, Child(c))
    ensures WasResolved(states, i, c) ==> WasSkipped(states, steps, i, c)
  {
    EntryTwinsShare(wf, states[i], e, c);
    hide IsRun, WellLinked, EntryNodes, WasSkipped, WasResolved, WasQueued, JobIdOf, OutputsOf, ManualTwins;
    OnlyOneIsAdded(wf, states, steps, i, Entry(e), Child(c));
    RunHadJobs(wf, states, steps, i, e);
    RunHadJobs(wf, states, steps, i, c);
    AddedHistory(wf, states, steps, i, Child(c));
    AddedHistory(wf, states, steps, i, Entry(e));
    ResolvedHistory(wf, states, steps, i, c);
    SkippedHistory(wf, states, steps, i, c);
    EntryNotSkipped(wf, states, steps, i, e);
    if Child(c) in states[i].hist.added && Entry(e) !in states[i].hist.added {
      ChildWaited(wf, states, steps, i, e, c);
    }
    assert PrimaryKey(wf, c) == Child(c) && PrimaryKey(wf, e) == Entry(e);
  }
}
