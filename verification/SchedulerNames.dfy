/** Exactly which names lose nodes. */
module SchedulerNames {
  import opened Graphs
  import opened Workflows
  import opened GraphValidation
  import opened JobIds
  import opened Scheduler
  import opened SchedulerEffects
  import opened SchedulerContainment
  import opened SchedulerIds
  import opened SchedulerOnce
  import opened SchedulerOrder
  import opened SchedulerJoin
  import opened SchedulerDrain
  import opened SchedulerDelay
  import opened SchedulerClash
  import opened SchedulerRuns
  import opened SchedulerCompletion
  import opened SchedulerSettle

  /** Nothing goes wrong, and the listener stores what jobs return. */
  predicate Undisturbed(a: Action) {
    Peaceful(a) || a.CacheReturned?
  }

  /** The listener has stored what it stores. */
  ghost predicate Heard(s: State) {
    forall k :: k in s.jobs && s.jobs[k].Returned? ==> IsDelayedMarker(s.jobs[k].r) || ResolvedIn(s.results, k.node)
  }

  /** An undisturbed run at whose end all jobs have returned and the listener has nothing left to store. */
  ghost predicate Finishes(wf: Workflow, states: seq<State>, steps: seq<Action>) {
    && IsRun(wf, states, steps) && (forall i :: 0 <= i < |steps| ==> Undisturbed(steps[i]))
    && Drained(states[|steps|]) && Heard(states[|steps|])
  }

  ghost predicate AllHaveResults(wf: Workflow, s: State) {
    forall n :: n in Ids(wf.nodes) ==> ResolvedIn(s.results, n)
  }

  /** In the last state of the run every node has a result. */
  ghost predicate EndsWithAll(wf: Workflow, states: seq<State>, steps: seq<Action>) {
    |states| == |steps| + 1 && AllHaveResults(wf, states[|steps|])
  }

  // ------------------------------------------------- harmless names lose nothing

  /** What a job of the name that returns at once returns. */
  ghost predicate RootKept(s: State) {
    forall k :: k in s.jobs && k.node == ROOT_NODE ==>
      && (s.jobs[k].Active? && s.jobs[k].pc.Finish? ==> s.jobs[k].pc.r == ROOT_RESULT)
      && (s.jobs[k].Returned? ==> s.jobs[k].r == ROOT_RESULT)
  }

  lemma RootMoves(wf: Workflow, s: State, a: Action, k: JobKey)
    requires Enabled(wf, s, a) && Moves(a, k) && k in s.jobs && k.node == ROOT_NODE && RootKept(s)
    requires s.jobs[k].Active? ==> s.jobs[k].pc.ReadOwn? || s.jobs[k].pc.Finish?
    ensures var j := MovedJob(wf, s, a, k);
      (j.Active? && j.pc.Finish? ==> j.pc.r == ROOT_RESULT) && (j.Returned? ==> j.r == ROOT_RESULT)
  {
    hide FindNode, ROOT_RESULT;
  }

  lemma RootKeptStep(wf: Workflow, s: State, a: Action)
    requires Contained(wf, s) && Enabled(wf, s, a) && RootKept(s)
    ensures RootKept(Apply(wf, s, a))
  {
    QueueChanges(wf, s, a);
    hide Contained, Enabled, Apply, AddOf, MovedJob, ROOT_RESULT;
    var s' := Apply(wf, s, a);
    forall k | k in s'.jobs && k.node == ROOT_NODE
      ensures s'.jobs[k].Active? && s'.jobs[k].pc.Finish? ==> s'.jobs[k].pc.r == ROOT_RESULT
      ensures s'.jobs[k].Returned? ==> s'.jobs[k].r == ROOT_RESULT
    {
      if Moves(a, k) {
        RootFits(wf, s, k);
        RootMoves(wf, s, a, k);
        JobMoves(wf, s, a, k);
      }
    }
  }

  lemma RootFits(wf: Workflow, s: State, k: JobKey)
    requires Contained(wf, s) && k in s.jobs && k.node == ROOT_NODE
    ensures s.jobs[k].Active? ==> s.jobs[k].pc.ReadOwn? || s.jobs[k].pc.Finish?
  {
    hide KeyOk, TasksOk, Live;
    ActiveJob(wf, s, k);
  }

  lemma {:induction false} RunRootKept(wf: Workflow, states: seq<State>, steps: seq<Action>, i: nat)
    requires IsRun(wf, states, steps) && i < |states|
    ensures RootKept(states[i])
  {
    hide Apply, Enabled, Contained;
    if i > 0 {
      hide RootKept;
      RunRootKept(wf, states, steps, i - 1);
      RunContained(wf, states, steps, i - 1);
      RootKeptStep(wf, states[i-1], steps[i-1]);
    }
  }

  lemma RootIsNoMarker()
    ensures !IsDelayedMarker(ROOT_RESULT)
  {
    var message := map["message" := Str("Virtual root node")];
    assert "delayed" !in message by {
      assert |"delayed"| == |"message"| && "delayed"[0] != "message"[0];
    }
  }

  lemma RootJobResolves(wf: Workflow, s: State, k: JobKey)
    requires Accounted(wf, s) && Drained(s) && Heard(s) && RootKept(s) && k in s.hist.added && k.node == ROOT_NODE
    ensures ResolvedIn(s.results, ROOT_NODE)
  {
    hide ROOT_RESULT, IsDelayedMarker, JobAccounted, EntryNodes;
    RootIsNoMarker();
    assert k in s.jobs && s.jobs[k].Returned?;
  }

  lemma RootResolvesToo(wf: Workflow, s: State)
    requires WellLinked(wf) && EveryNodeReachable(wf) && RootIsLast(wf) && Accounted(wf, s) && Joined(wf, s, ROOT_NODE)
    requires Drained(s) && Heard(s) && RootKept(s) && ROOT_NODE in Ids(wf.nodes)
    requires forall n :: n in Ids(wf.nodes) && n != ROOT_NODE ==> ResolvedIn(s.results, n)
    ensures ResolvedIn(s.results, ROOT_NODE)
  {
    var node := FindNode(wf.nodes, ROOT_NODE).value;
    hide WellLinked, EveryNodeReachable, Heard, RootKept, ResolvedIn, FindNode, ROOT_RESULT;
    if node.inputs == [] {
      SourceIsEntry(wf, node);
      EntryAdded(wf, s, ROOT_NODE);
      RootJobResolves(wf, s, Entry(ROOT_NODE));
    } else {
      forall m | m in node.inputs ensures ResolvedIn(s.results, m) {
        LinkedBack(wf, ROOT_NODE, m);
        ParentIsNode(wf, m, ROOT_NODE);
      }
      InputsReady(wf, s, ROOT_NODE);
      hide RootIsLast;
      if !ResolvedIn(s.results, ROOT_NODE) {
        var k := SomeRootJob(wf, s);
        RootJobResolves(wf, s, k);
      }
    }
  }

  lemma EntryAdded(wf: Workflow, s: State, e: Id)
    requires Accounted(wf, s) && Drained(s) && e in EntryNodes(wf)
    ensures Entry(e) in s.hist.added
  {
    hide EntryNodes, JobAccounted;
  }

  lemma SomeRootJob(wf: Workflow, s: State) returns (k: JobKey)
    requires Accounted(wf, s) && Joined(wf, s, ROOT_NODE) && Drained(s) && HasInputs(wf, ROOT_NODE) && Ready(wf, s.results, ROOT_NODE)
    requires !ResolvedIn(s.results, ROOT_NODE)
    ensures k in s.hist.added && k.node == ROOT_NODE
  {
    hide HasInputs, Ready, JobAccounted, EntryNodes;
    assert Handled(wf, s, ROOT_NODE) && forall k' :: !Holds(wf, s, k', ROOT_NODE);
    if Child(ROOT_NODE) in s.hist.added {
      k := Child(ROOT_NODE);
    } else if Entry(ROOT_NODE) in s.hist.added {
      k := Entry(ROOT_NODE);
    } else {
      k :| k in s.hist.added && k.node == ROOT_NODE;
    }
  }

  lemma UndisturbedIsKept(wf: Workflow, states: seq<State>, steps: seq<Action>)
    requires |states| == |steps| + 1 && forall i :: 0 <= i < |steps| ==> Undisturbed(steps[i])
    ensures AllKept(wf, states, steps)
  {
  }

  /** With plain ids, and nothing behind a node that returns at once, every such run is complete. */
  lemma PlainLosesNothing(wf: Workflow, states: seq<State>, steps: seq<Action>)
    requires Sound(wf) && PlainIds(wf) && RootIsLast(wf) && Finishes(wf, states, steps)
    ensures EndsWithAll(wf, states, steps)
  {
    var s := states[|steps|];
    UndisturbedIsKept(wf, states, steps);
    hide WellLinked, PlainIds, RootIsLast, EveryNodeReachable, IsRun, AllKept, Kept, PlainFor, Drained, Heard, RootKept, Accounted, Joined, ResolvedIn;
    DrainedIsResolved(wf, states, steps, |steps|);
    if ROOT_NODE in Ids(wf.nodes) {
      RunAccounted(wf, states, steps, |steps|);
      RunRootKept(wf, states, steps, |steps|);
      EachKept(wf, states, steps, ROOT_NODE);
      PlainForAll(wf, ROOT_NODE);
      RunJoined(wf, states, steps, |steps|, ROOT_NODE);
      RootResolvesToo(wf, s);
    }
  }

  // --------------------------------------------------- the listener's turn

  /** A run that has drained, of which the listener has heard all jobs but these. */
  ghost predicate Hearing(wf: Workflow, states: seq<State>, steps: seq<Action>, s: State, rest: set<JobKey>) {
    && IsRun(wf, states, steps) && (forall i :: 0 <= i < |steps| ==> Undisturbed(steps[i]))
    && var s' := states[|steps|];
    && s'.jobs == s.jobs && s'.stamps == s.stamps && s'.hist.added == s.hist.added && s'.hist.skipped == s.hist.skipped
    && s'.starting == s.starting && s'.cancelling == s.cancelling && Drained(s')
    && rest <= s'.jobs.Keys
    && forall k :: k in s'.jobs && k !in rest ==> IsDelayedMarker(s'.jobs[k].r) || ResolvedIn(s'.results, k.node)
  }

  lemma HearNext(wf: Workflow, states: seq<State>, steps: seq<Action>, s: State, rest: set<JobKey>, k: JobKey)
    returns (states': seq<State>, steps': seq<Action>)
    requires Hearing(wf, states, steps, s, rest) && k in rest
    ensures Hearing(wf, states', steps', s, rest - {k})
  {
    var s1, a := states[|steps|], CacheReturned(k);
    assert k in s1.jobs && s1.jobs[k].Returned? && s1.jobs[k].r.Resolved();
    if IsDelayedMarker(s1.jobs[k].r) {
      states', steps' := states, steps;
    } else {
      var s2 := WithResult(s1, k.node, s1.jobs[k].r);
      assert Enabled(wf, s1, a) && Apply(wf, s1, a) == s2;
      states', steps' := states + [s2], steps + [a];
      assert IsRun(wf, states', steps') by { hide Enabled, Apply, Drained; }
      hide IsRun, Enabled, Apply, IsDelayedMarker;
      assert states'[|steps'|] == s2;
    }
  }

  lemma {:induction false} HearAll(wf: Workflow, states: seq<State>, steps: seq<Action>, s: State, rest: set<JobKey>)
    returns (states': seq<State>, steps': seq<Action>)
    requires Hearing(wf, states, steps, s, rest)
    ensures Hearing(wf, states', steps', s, {})
    decreases |rest|
  {
    hide Hearing;
    if rest == {} {
      states', steps' := states, steps;
    } else {
      var k :| k in rest;
      states', steps' := HearNext(wf, states, steps, s, rest, k);
      states', steps' := HearAll(wf, states', steps', s, rest - {k});
    }
  }

  /** A finished run after this one, with the same jobs. */
  lemma Finish(wf: Workflow, s: State) returns (states: seq<State>, steps: seq<Action>)
    requires Leads(wf, s) && Drained(s)
    ensures Finishes(wf, states, steps)
    ensures var s' := states[|steps|];
      s'.jobs == s.jobs && s'.stamps == s.stamps && s'.hist.added == s.hist.added && s'.hist.skipped == s.hist.skipped && !s'.cancelling
  {
    states, steps := RunTo(wf, s);
    assert Hearing(wf, states, steps, s, s.jobs.Keys) by { hide IsRun, IsDelayedMarker, ResolvedIn; }
    hide Leads, IsRun;
    states, steps := HearAll(wf, states, steps, s, s.jobs.Keys);
  }

  // ----------------------------------------------------- other names lose one

  lemma NothingSkipped(wf: Workflow, states: seq<State>, steps: seq<Action>, n: Id)
    requires IsRun(wf, states, steps) && states[|steps|].hist.skipped == {}
    ensures !WasSkipped(states, steps, |steps|, n)
  {
    SkippedHistory(wf, states, steps, |steps|, n);
  }

  lemma ResolvedNow(states: seq<State>, i: nat, n: Id)
    requires i < |states| && ResolvedIn(states[i].results, n)
    ensures WasResolved(states, i, n)
  {
  }

  /** Wherever it is and whatever else waits for what: one of the two has no result in the end. */
  lemma ResumeTwinsLoseOne(wf: Workflow, d: Id, c: Id) returns (states: seq<State>, steps: seq<Action>)
    requires Sound(wf) && ResumeTwins(wf, d, c)
    ensures Finishes(wf, states, steps)
    ensures !(ResolvedIn(states[|steps|].results, d) && ResolvedIn(states[|steps|].results, c))
  {
    SoundIsLinked(wf);
    hide Sound, WellLinked, Leads, EntryNodes, ResumeTwins, WasSkipped, WasResolved, ResolvedIn, Drained, Heard, AllStamped;
    var s := CanDrain(wf, "0");
    states, steps := Finish(wf, s);
    var i := |steps|;
    NothingSkipped(wf, states, steps, d);
    NothingSkipped(wf, states, steps, c);
    ResumeTwinsExclude(wf, states, steps, i, d, c);
    if ResolvedIn(states[i].results, d) && ResolvedIn(states[i].results, c) {
      ResolvedNow(states, i, d);
      ResolvedNow(states, i, c);
    }
  }

  /** For a time at which their ids are equal, the entry's job keeps the node's from being added. */
  lemma EntryTwinLoses(wf: Workflow, e: Id, c: Id, t: string) returns (states: seq<State>, steps: seq<Action>)
    requires Sound(wf) && e in EntryNodes(wf) && c !in EntryNodes(wf) && IsDigits(t) && ManualTwins(e, t, c)
    ensures Finishes(wf, states, steps) && !ResolvedIn(states[|steps|].results, c)
  {
    SoundIsLinked(wf);
    TwinIsNotNamedRoot(e, t, c);
    hide Sound, WellLinked, Leads, EntryNodes, WasSkipped, WasResolved, WasQueued, ResolvedIn, Drained, Heard, IsDigits, ManualTwins;
    var s := CanDrain(wf, t);
    states, steps := Finish(wf, s);
    var i := |steps|;
    assert e in EntryNodes(wf) && Entry(e) in states[i].jobs;
    assert EntryTwins(wf, states[i], e, c);
    NowQueued(states, i, Entry(e));
    NothingSkipped(wf, states, steps, c);
    EntryTwinIsLost(wf, states, steps, i, e, c);
    if ResolvedIn(states[i].results, c) {
      ResolvedNow(states, i, c);
    }
  }

  lemma NowQueued(states: seq<State>, i: nat, k: JobKey)
    requires i < |states| && k in states[i].jobs
    ensures WasQueued(states, i, k)
  {
  }

  lemma TwinIsNotNamedRoot(e: Id, t: string, c: Id)
    requires IsDigits(t) && ManualTwins(e, t, c)
    ensures c != ROOT_NODE
  {
    assert '0' <= t[|t|-1] <= '9' && c[|c|-1] == t[|t|-1] && ROOT_NODE[|ROOT_NODE|-1] == '_';
  }

  // In a run without skips, nobody but the listener stores a result of a node that returns at once.

  lemma RootUnwritten(wf: Workflow, s: State, a: Action)
    requires Contained(wf, s) && Enabled(wf, s, a) && Peaceful(a)
    requires WriteOf(s, a).Writes? && WriteOf(s, a).node == ROOT_NODE
    ensures Skips(s, a) && s.jobs[a.k].pc.tasks[0].child == ROOT_NODE
  {
    hide FindNode, Contained;
    if a.k.node == ROOT_NODE {
      RootFits(wf, s, a.k);
    }
  }

  lemma RootStep(wf: Workflow, s: State, a: Action)
    requires Contained(wf, s) && Enabled(wf, s, a) && Peaceful(a)
    requires ROOT_NODE in s.hist.resolved ==> ROOT_NODE in s.hist.skipped
    ensures ROOT_NODE in Apply(wf, s, a).hist.resolved ==> ROOT_NODE in Apply(wf, s, a).hist.skipped
  {
    ResultEffect(wf, s, a);
    HistoryChanges(wf, s, a);
    hide Contained, Enabled, Apply, WriteOf, StartsDelay, Skips;
    if WriteOf(s, a).Writes? && WriteOf(s, a).node == ROOT_NODE {
      RootUnwritten(wf, s, a);
    }
  }

  lemma {:induction false} RunRootUnresolved(wf: Workflow, states: seq<State>, steps: seq<Action>, i: nat)
    requires IsRun(wf, states, steps) && i < |states| && forall j :: 0 <= j < |steps| ==> Peaceful(steps[j])
    ensures ROOT_NODE in states[i].hist.resolved ==> ROOT_NODE in states[i].hist.skipped
  {
    hide Apply, Enabled, Contained;
    if i > 0 {
      RunRootUnresolved(wf, states, steps, i - 1);
      RunContained(wf, states, steps, i - 1);
      RootStep(wf, states[i-1], steps[i-1]);
    }
  }

  lemma RootChild(wf: Workflow, c: Id)
    requires Sound(wf) && c in OutputsOf(wf, ROOT_NODE)
    ensures c !in EntryNodes(wf) && c != ROOT_NODE
  {
    SoundIsLinked(wf);
    NodeIsLive(wf, ROOT_NODE);
    FirstOutputs(wf.nodes, ROOT_NODE);
    ReachesSelf(FirstOutputGraph(wf.nodes), ROOT_NODE);
    NoWayBack(wf, ROOT_NODE, ROOT_NODE);
    assert Fed(wf, c);
    hide Sound, WellLinked, EntryNodes, Live, Fed;
    if c in EntryNodes(wf) {
      EntryNotFed(wf, c);
    }
  }

  /** Whatever else it waits for, a child of a node that returns at once is lost if the listener comes last. */
  lemma RootLosesChild(wf: Workflow, c: Id) returns (states: seq<State>, steps: seq<Action>)
    requires Sound(wf) && c in OutputsOf(wf, ROOT_NODE)
    ensures Finishes(wf, states, steps) && !ResolvedIn(states[|steps|].results, c)
  {
    RootChild(wf, c);
    SoundIsLinked(wf);
    hide Sound, WellLinked, Leads, EntryNodes, WasSkipped, WasResolved, ResolvedIn, Drained, Heard, OutputsOf, AllStamped;
    var s := CanDrain(wf, "0");
    RootChildNotAdded(wf, s, c);
    states, steps := Finish(wf, s);
    var i := |steps|;
    RunHadJobs(wf, states, steps, i, c);
    ResolvedHistory(wf, states, steps, i, c);
    if ResolvedIn(states[i].results, c) {
      ResolvedNow(states, i, c);
    }
  }

  lemma RootChildNotAdded(wf: Workflow, s: State, c: Id)
    requires WellLinked(wf) && Leads(wf, s) && s.hist.skipped == {} && c in OutputsOf(wf, ROOT_NODE)
    ensures Child(c) !in s.hist.added
  {
    var states, steps := RunTo(wf, s);
    hide IsRun, WellLinked, OutputsOf, Peaceful;
    RunRootUnresolved(wf, states, steps, |steps|);
    if Child(c) in s.hist.added {
      ChildWaited(wf, states, steps, |steps|, ROOT_NODE, c);
    }
  }

  // -------------------------------------------------------------- exactly

  lemma ClashLosesOne(wf: Workflow, k: JobKey, c: JobKey) returns (states: seq<State>, steps: seq<Action>)
    requires Sound(wf) && KeyOk(wf, k) && KeyOk(wf, c) && Clash(k, c)
    ensures Finishes(wf, states, steps) && !EndsWithAll(wf, states, steps)
  {
    SoundIsLinked(wf);
    LinkedIsAccepted(wf);
    EntryIsNotChild(wf, c);
    hide Sound, WellLinked, Accepted, Finishes, ResolvedIn, EntryNodes, CanShareManualId, ManualTwins, IsDigits, Live, Fed, IsDelay;
    KeyIsNode(wf, c);
    KeyIsNode(wf, k);
    if k.Resumed? {
      states, steps := ResumeTwinsLoseOne(wf, k.node, c.node);
      assert k.node in Ids(wf.nodes) && c.node in Ids(wf.nodes);
    } else {
      SharingIsCheckable(k.node, c.node);
      var t :| IsDigits(t) && ManualTwins(k.node, t, c.node);
      states, steps := EntryTwinLoses(wf, k.node, c.node, t);
    }
  }

  /**
   * Names are harmless exactly if no two jobs of the workflow can have one id and nothing waits
   * for a node that returns at once: then, and only then, every undisturbed run that has finished
   * has a result for every node.
   */
  lemma NamesAreHarmlessIff(wf: Workflow)
    requires Sound(wf)
    ensures PlainIds(wf) && RootIsLast(wf) <==>
      forall states, steps :: Finishes(wf, states, steps) ==> EndsWithAll(wf, states, steps)
  {
    hide Sound, Finishes, EndsWithAll, KeyOk, Clash;
    if PlainIds(wf) && RootIsLast(wf) {
      hide PlainIds, RootIsLast;
      forall states, steps | Finishes(wf, states, steps) ensures EndsWithAll(wf, states, steps) {
        PlainLosesNothing(wf, states, steps);
      }
    } else if !RootIsLast(wf) {
      var states, steps := SomeRootChild(wf);
    } else {
      var k, c := SomeClash(wf);
      var states, steps := ClashLosesOne(wf, k, c);
    }
  }

  lemma SomeRootChild(wf: Workflow) returns (states: seq<State>, steps: seq<Action>)
    requires Sound(wf) && !RootIsLast(wf)
    ensures Finishes(wf, states, steps) && !EndsWithAll(wf, states, steps)
  {
    var c := OutputsOf(wf, ROOT_NODE)[0];
    SoundIsLinked(wf);
    OutputIsNode(wf, ROOT_NODE, c);
    hide Sound, Finishes, ResolvedIn, OutputsOf;
    states, steps := RootLosesChild(wf, c);
  }

  lemma OutputIsNode(wf: Workflow, m: Id, c: Id)
    requires WellLinked(wf) && c in OutputsOf(wf, m)
    ensures c in Ids(wf.nodes)
  {
    hide HasCycle, SymmetricLinks, UniqueIds;
  }

  lemma SomeClash(wf: Workflow) returns (k: JobKey, c: JobKey)
    requires !PlainIds(wf)
    ensures KeyOk(wf, k) && KeyOk(wf, c) && Clash(k, c)
  {
    hide KeyOk, Clash;
    k :| KeyOk(wf, k) && !PlainKey(wf, k);
    c :| KeyOk(wf, c) && (Clash(k, c) || Clash(c, k));
    if !Clash(k, c) {
      k, c := c, k;
    }
  }
}
