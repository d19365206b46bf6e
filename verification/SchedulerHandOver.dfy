/** Why a delay node's initial job must not fail once the resume job is queued. */
module SchedulerHandOver {
  import opened Graphs
  import opened Workflows
  import opened GraphValidation
  import opened JobIds
  import opened NodeInputs
  import opened Scheduler
  import opened SchedulerEffects
  import opened SchedulerContainment
  import opened SchedulerIds
  import opened SchedulerOnce
  import opened SchedulerJoin
  import opened SchedulerDrain
  import opened SchedulerRuns
  import opened SchedulerCompletion
  import opened SchedulerLoss

  /** A node that waits for the two entries, a delay node and a regular one. */
  ghost predicate Fork(wf: Workflow, d: Id, p: Id, n: Id) {
    && Runnable(wf) && EntryNodes(wf) == [d, p] && d != p && n != d && n != p
    && FindNode(wf.nodes, d).Some? && FindNode(wf.nodes, d).value.kind.Delay? && InputsOf(wf, d) == [] && OutputsOf(wf, d) == [n]
    && FindNode(wf.nodes, p).Some? && FindNode(wf.nodes, p).value.kind.Regular? && InputsOf(wf, p) == [] && OutputsOf(wf, p) == [n]
    && FindNode(wf.nodes, n).Some? && d in InputsOf(wf, n) && p in InputsOf(wf, n)
    && forall m :: m in InputsOf(wf, n) ==> m == d || m == p
  }

  // ------------------------------------------------ runs that drop nothing

  ghost predicate IsKeptRun(wf: Workflow, states: seq<State>, steps: seq<Action>, s: State, n: Id) {
    && IsRun(wf, states, steps) && states[|steps|] == s
    && forall i :: 0 <= i < |steps| ==> !Drops(wf, states[i], steps[i], n)
  }

  /** Some run leads here in which no throw made a worker forget the node. */
  ghost predicate LeadsKept(wf: Workflow, s: State, n: Id) {
    exists states, steps :: IsKeptRun(wf, states, steps, s, n)
  }

  lemma PeacefulIsKept(wf: Workflow, s: State, n: Id)
    requires Leads(wf, s)
    ensures LeadsKept(wf, s, n)
  {
    var states, steps :| IsPeacefulRun(wf, states, steps, s);
    hide IsRun;
    assert IsKeptRun(wf, states, steps, s, n);
  }

  lemma KeptThen(wf: Workflow, s: State, a: Action, s': State, n: Id)
    requires LeadsKept(wf, s, n) && Enabled(wf, s, a) && Apply(wf, s, a) == s' && !Drops(wf, s, a, n)
    ensures LeadsKept(wf, s', n)
  {
    hide Apply, Enabled, Drops;
    var states, steps :| IsKeptRun(wf, states, steps, s, n);
    assert IsKeptRun(wf, states + [s'], steps + [a], s', n);
  }

  lemma KeptTo(wf: Workflow, s: State, a: Action, s': State, n: Id)
    requires LeadsKept(wf, s, n) && CanTake(wf, s, a, s')
    ensures LeadsKept(wf, s', n)
  {
    hide Apply, Enabled, LeadsKept;
    KeptThen(wf, s, a, s', n);
  }

  // --------------------------------------------------- the run, job by job

  /** Where the three jobs are, and which results there are. */
  ghost predicate Scene(wf: Workflow, s: State, d: Id, p: Id, jd: JobState, jr: JobState, jp: JobState, results: map<Id, ExecutionResult>) {
    && s.lock.None? && s.status == Running && s.starting == [] && s.results == results
    && s.jobs == map[Entry(d) := jd, Resumed(d) := jr, Entry(p) := jp]
    && forall k :: k in s.hist.added ==> k in s.jobs
  }

  ghost predicate BothWaiting(s: State, d: Id, p: Id) {
    && s.lock.None? && s.status == Running && s.starting == [] && s.results == map[]
    && s.jobs == map[Entry(d) := Waiting(s.now), Entry(p) := Waiting(s.now)]
    && forall k :: k in s.hist.added ==> k in s.jobs
  }

  lemma BothQueued(wf: Workflow, d: Id, p: Id) returns (s: State)
    requires Runnable(wf) && EntryNodes(wf) == [d, p]
    ensures Leads(wf, s) && Own(wf, s) && BothWaiting(s, d, p)
  {
    s := EnqueueAll(wf, |EntryNodes(wf)|);
    LeadsWhere(wf, s);
    hide Runnable, Leads, EntryNodes, JobAccounted;
    OwnIsContained(wf, s);
    JobsAreOwn(wf, s);
    hide Own, Contained;
    assert d in EntryNodes(wf) && p in EntryNodes(wf);
    forall k | k in s.jobs ensures k in {Entry(d), Entry(p)} {
      assert KeyOk(wf, k) && k.Entry?;
    }
  }

  lemma ForkNodes(wf: Workflow, d: Id, p: Id, n: Id) returns (delay: Node, parent: Node, w: int)
    requires Fork(wf, d, p, n)
    ensures FindNode(wf.nodes, d) == Some(delay) && delay.kind.Delay? && DelayOf(delay) == Some(w) && w >= 0
    ensures FindNode(wf.nodes, p) == Some(parent) && parent.kind.Regular?
    ensures d != ROOT_NODE && p != ROOT_NODE && delay.inputs == [] && |wf.nodes| > 2
  {
    delay, parent := FindNode(wf.nodes, d).value, FindNode(wf.nodes, p).value;
    w := DelayOf(delay).value;
    assert delay in wf.nodes && parent in wf.nodes;
    hide EveryNodeReachable, FindNode, DelayOf, HasCycle, SymmetricLinks, EntryNodes, CanShareManualId;
    ThreeNodes(wf.nodes, d, p, n);
  }

  lemma ThreeNodes(nodes: seq<Node>, d: Id, p: Id, n: Id)
    requires UniqueIds(nodes) && d in Ids(nodes) && p in Ids(nodes) && n in Ids(nodes) && d != p && n != d && n != p
    ensures |nodes| > 2
  {
    UniqueCount(nodes);
    hide Ids, UniqueIds;
    SubsetSize({d, p, n}, Ids(nodes));
  }

  /** The initial job is about to return the marker; the delay is over. */
  function HandingOver(s: State, d: Id, w: int): State {
    var s1 := WithPc(StartDelay(s, d, w), Entry(d), Finish(DelayedMarker(s.now + w, w)));
    s1.(now := s1.now + w)
  }

  lemma HandsOver(wf: Workflow, s: State, d: Id, p: Id, delay: Node, w: int)
    requires Leads(wf, s) && BothWaiting(s, d, p) && d != ROOT_NODE && FindNode(wf.nodes, d) == Some(delay)
    requires delay.kind.Delay? && DelayOf(delay) == Some(w) && w >= 0
    ensures Leads(wf, HandingOver(s, d, w))
  {
    hide Leads, CanTake, FindNode, DelayOf, CanStart, StartDelay, DelayedMarker, WithPc, BothWaiting;
    var k := Entry(d);
    WaitsForDelay(s, d, p);
    AboutToStart(wf, s, k, delay);
    PastTheGate(wf, s, k, delay);
    DelayRoutes(wf, s, k, delay, w);
    DelayStep(wf, s, k, delay, w);
    ThenTo(wf, WithPc(s, k, DelayEnqueue), Proceed(k), WithPc(StartDelay(s, d, w), k, Finish(DelayedMarker(s.now + w, w))));
    PcLock(s, k, d, w, Finish(DelayedMarker(s.now + w, w)));
    TickStep(wf, WithPc(StartDelay(s, d, w), k, Finish(DelayedMarker(s.now + w, w))), w);
  }

  lemma PcLock(s: State, k: JobKey, d: Id, w: int, pc: Pc)
    ensures WithPc(StartDelay(s, d, w), k, pc).lock == s.lock
  {
  }

  lemma WaitsForDelay(s: State, d: Id, p: Id)
    requires BothWaiting(s, d, p)
    ensures Entry(d) in s.jobs && s.jobs[Entry(d)] == Waiting(s.now) && s.status == Running && d !in s.results && Resumed(d) !in s.jobs
    ensures s.lock.None?
  {
  }

  lemma HandingOverScene(wf: Workflow, s: State, d: Id, p: Id, w: int)
    requires BothWaiting(s, d, p) && d != p && !Taken(s.stamps, s.jobs, Resumed(d))
    ensures Scene(wf, HandingOver(s, d, w), d, p, Active(Finish(DelayedMarker(s.now + w, w))), Waiting(s.now + w), Waiting(s.now), map[])
    ensures HandingOver(s, d, w).now == s.now + w
  {
    HandingOverJobs(s, d, w);
    ThreeJobs(d, p, Waiting(s.now), Waiting(s.now + w), Active(Finish(DelayedMarker(s.now + w, w))));
    hide Taken, DelayedMarker, HandingOver;
  }

  lemma ThreeJobs(d: Id, p: Id, wait: JobState, jr: JobState, jd: JobState)
    requires d != p
    ensures map[Entry(d) := wait, Entry(p) := wait][Resumed(d) := jr][Entry(d) := jd]
         == map[Entry(d) := jd, Resumed(d) := jr, Entry(p) := wait]
  {
  }

  lemma HandingOverJobs(s: State, d: Id, w: int)
    requires !Taken(s.stamps, s.jobs, Resumed(d))
    ensures var s' := HandingOver(s, d, w);
      && s'.jobs == s.jobs[Resumed(d) := Waiting(s.now + w)][Entry(d) := Active(Finish(DelayedMarker(s.now + w, w)))]
      && s'.hist.added == s.hist.added + {Resumed(d)} && s'.now == s.now + w
      && s'.lock == s.lock && s'.status == s.status && s'.starting == s.starting && s'.results == s.results
  {
    hide Taken, DelayedMarker, FirstStart;
  }

  lemma NotReadyNotReleased(wf: Workflow, s: State, n: Id)
    requires !Ready(wf, s.results, n)
    ensures Released(wf, s, [n]) == s
  {
    assert [n][1..] == [];
    assert Released(wf, s, [][..]) == s;
  }

  lemma NotReadyWithout(wf: Workflow, d: Id, p: Id, n: Id, m: Id, results: map<Id, ExecutionResult>)
    requires Fork(wf, d, p, n) && (m == d || m == p) && !ResolvedIn(results, m)
    ensures !Ready(wf, results, n)
  {
    hide Runnable, EntryNodes;
    var i :| 0 <= i < |InputsOf(wf, n)| && InputsOf(wf, n)[i] == m;
    assert !ResolvedIn(results, InputsOf(wf, n)[i]);
  }

  lemma ReadyWithBoth(wf: Workflow, d: Id, p: Id, n: Id, results: map<Id, ExecutionResult>)
    requires Fork(wf, d, p, n) && ResolvedIn(results, d) && ResolvedIn(results, p)
    ensures Ready(wf, results, n)
  {
    hide Runnable, EntryNodes, ResolvedIn;
    forall i | 0 <= i < |InputsOf(wf, n)| ensures ResolvedIn(results, InputsOf(wf, n)[i]) {
      assert InputsOf(wf, n)[i] in InputsOf(wf, n);
    }
  }

  const GATHERED := SuccessResult(Some(Obj(map[])))

  // Moves and writes within the scene.

  lemma DelayMoves(wf: Workflow, s: State, d: Id, p: Id, jd: JobState, jr: JobState, jp: JobState, results: map<Id, ExecutionResult>, j: JobState)
    requires Scene(wf, s, d, p, jd, jr, jp, results) && d != p
    ensures Scene(wf, WithJob(s, Entry(d), j), d, p, j, jr, jp, results)
  {
  }

  lemma ResumeMoves(wf: Workflow, s: State, d: Id, p: Id, jd: JobState, jr: JobState, jp: JobState, results: map<Id, ExecutionResult>, j: JobState)
    requires Scene(wf, s, d, p, jd, jr, jp, results)
    ensures Scene(wf, WithJob(s, Resumed(d), j), d, p, jd, j, jp, results)
  {
  }

  lemma ParentMoves(wf: Workflow, s: State, d: Id, p: Id, jd: JobState, jr: JobState, jp: JobState, results: map<Id, ExecutionResult>, j: JobState)
    requires Scene(wf, s, d, p, jd, jr, jp, results) && d != p
    ensures Scene(wf, WithJob(s, Entry(p), j), d, p, jd, jr, j, results)
    ensures j == jp ==> WithJob(s, Entry(p), j) == s
  {
    if j == jp {
      assert s.jobs[Entry(p) := j] == s.jobs;
    }
  }

  lemma SceneWrites(wf: Workflow, s: State, d: Id, p: Id, jd: JobState, jr: JobState, jp: JobState, results: map<Id, ExecutionResult>,
                    m: Id, r: ExecutionResult)
    requires Scene(wf, s, d, p, jd, jr, jp, results)
    ensures Scene(wf, WithResult(s, m, r), d, p, jd, jr, jp, results[m := r])
  {
  }

  lemma SceneIs(wf: Workflow, s: State, d: Id, p: Id, jd: JobState, jr: JobState, jp: JobState, results: map<Id, ExecutionResult>)
    requires Scene(wf, s, d, p, jd, jr, jp, results)
    ensures s.results == results && s.lock.None? && s.status == Running
    ensures Entry(d) in s.jobs && Resumed(d) in s.jobs && Entry(p) in s.jobs && s.jobs[Resumed(d)] == jr
    ensures d != p ==> s.jobs[Entry(d)] == jd && s.jobs[Entry(p)] == jp
  {
  }

  lemma AboutToStart(wf: Workflow, s: State, k: JobKey, node: Node)
    requires k in s.jobs && s.jobs[k].Waiting? && s.jobs[k].readyAt <= s.now && s.status == Running && k.node !in s.results
    requires k.node != ROOT_NODE && FindNode(wf.nodes, k.node) == Some(node)
    ensures CanStart(wf, s, k, node)
  {
    hide FindNode;
  }

  /** A job that releases nothing and completes nothing. */
  lemma ProcessedAlone(wf: Workflow, s: State, k: JobKey, r: ExecutionResult, n: Id)
    requires OutputsOf(wf, k.node) == [n] && !Ready(wf, s.results[k.node := r], n) && |s.results[k.node := r]| != |wf.nodes|
    ensures Processed(wf, s, k, r) == WithJob(WithResult(s, k.node, r), k, Returned(r))
  {
    NotReadyNotReleased(wf, WithResult(s, k.node, r), n);
    hide Released, Ready, OutputsOf;
  }

  lemma ForkOutputs(wf: Workflow, d: Id, p: Id, n: Id)
    requires Fork(wf, d, p, n)
    ensures OutputsOf(wf, d) == [n] && OutputsOf(wf, p) == [n]
  {
  }

  /** The resume job is through: it has looked at the node before the other parent wrote. */
  lemma ResumeRuns(wf: Workflow, s: State, d: Id, p: Id, n: Id, jd: JobState, t: int, jp: JobState, delay: Node) returns (s': State)
    requires Fork(wf, d, p, n) && FindNode(wf.nodes, d) == Some(delay) && delay.kind.Delay? && ValidDuration(DelayOf(delay))
    requires delay.inputs == [] && d != ROOT_NODE && |wf.nodes| > 2 && p != d
    requires Leads(wf, s) && Scene(wf, s, d, p, jd, Waiting(t), jp, map[]) && t <= s.now
    ensures Leads(wf, s') && Scene(wf, s', d, p, jd, Returned(GATHERED), jp, map[d := GATHERED]) && s'.now == s.now
  {
    hide Leads, FindNode, DelayOf, CanStart, Fork, OutputsOf, Scene, Processed, Ready;
    var k := Resumed(d);
    ForkOutputs(wf, d, p, n);
    SceneIs(wf, s, d, p, jd, Waiting(t), jp, map[]);
    AboutToStart(wf, s, k, delay);
    assert DelayOutput(s, delay) == GATHERED;
    Resumption(wf, s, k, delay);
    WriteAndRelease(wf, s, k, GATHERED);
    NotReadyWithout(wf, d, p, n, p, map[d := GATHERED]);
    ProcessedAlone(wf, s, k, GATHERED, n);
    SceneWrites(wf, s, d, p, jd, Waiting(t), jp, map[], d, GATHERED);
    ResumeMoves(wf, WithResult(s, d, GATHERED), d, p, jd, Waiting(t), jp, map[d := GATHERED], Returned(GATHERED));
    s' := Processed(wf, s, k, GATHERED);
  }

  /** The other parent has written its result and is about to look at the node. */
  lemma ParentWrites(wf: Workflow, s: State, d: Id, p: Id, n: Id, jd: JobState, jr: JobState, t: int, parent: Node) returns (s': State)
    requires Fork(wf, d, p, n) && FindNode(wf.nodes, p) == Some(parent) && parent.kind.Regular? && p != ROOT_NODE
    requires Leads(wf, s) && Scene(wf, s, d, p, jd, jr, Waiting(t), map[d := GATHERED]) && t <= s.now && p != d
    ensures Leads(wf, s')
    ensures Scene(wf, s', d, p, jd, jr, Active(Releasing(DONE, [Consider(n, true)])), map[d := GATHERED, p := DONE])
  {
    hide Leads, FindNode, CanStart, Fork, OutputsOf, CanTake, Tasks, Scene;
    var k, j := Entry(p), Active(Releasing(DONE, [Consider(n, true)]));
    ForkOutputs(wf, d, p, n);
    SceneIs(wf, s, d, p, jd, jr, Waiting(t), map[d := GATHERED]);
    AboutToStart(wf, s, k, parent);
    Execution(wf, s, k, parent);
    WriteFirst(wf, s, k, DONE);
    assert Tasks([n], None) == [Consider(n, true)];
    SceneWrites(wf, s, d, p, jd, jr, Waiting(t), map[d := GATHERED], p, DONE);
    ParentMoves(wf, WithResult(s, p, DONE), d, p, jd, jr, Waiting(t), map[d := GATHERED, p := DONE], j);
    s' := WithPc(WithResult(s, p, DONE), k, Releasing(DONE, [Consider(n, true)]));
    ThenTo(wf, WithPc(s, k, WriteResult(DONE)), Proceed(k), s');
  }

  // ------------------------------------------------------ what goes wrong

  /** The initial job throws at its return, for the last time, and the listener records that. */
  lemma FailsLate(wf: Workflow, s: State, d: Id, p: Id, n: Id, marker: ExecutionResult, jr: JobState, jp: JobState,
                  results: map<Id, ExecutionResult>) returns (s': State)
    requires LeadsKept(wf, s, n) && Scene(wf, s, d, p, Active(Finish(marker)), jr, jp, results) && p != d
    ensures LeadsKept(wf, s', n)
    ensures Scene(wf, s', d, p, Exhausted(ResultRecorded), jr, jp, results[d := ErrorResult("Node execution failed")])
  {
    var k, error := Entry(d), ErrorResult("Node execution failed");
    var s1 := WithJob(s, k, Exhausted(Unrecorded));
    s' := WithJob(WithResult(s1, d, error), k, Exhausted(ResultRecorded));
    SceneIs(wf, s, d, p, Active(Finish(marker)), jr, jp, results);
    FailureSteps(wf, s, k, marker, n);
    OnlyThrowsDrop(wf, s1, RecordFailure(k), n);
    hide LeadsKept, Enabled, Apply, Drops, Scene, WithJob;
    KeptThen(wf, s, Throw(k, false, false), s1, n);
    KeptThen(wf, s1, RecordFailure(k), s', n);
    DelayMoves(wf, s, d, p, Active(Finish(marker)), jr, jp, results, Exhausted(Unrecorded));
    SceneWrites(wf, s1, d, p, Exhausted(Unrecorded), jr, jp, results, d, error);
    DelayMoves(wf, WithResult(s1, d, error), d, p, Exhausted(Unrecorded), jr, jp, results[d := error], Exhausted(ResultRecorded));
  }

  lemma FailureSteps(wf: Workflow, s: State, k: JobKey, marker: ExecutionResult, n: Id)
    requires k in s.jobs && s.jobs[k] == Active(Finish(marker)) && s.lock.None?
    ensures var s1 := WithJob(s, k, Exhausted(Unrecorded));
      && Enabled(wf, s, Throw(k, false, false)) && Apply(wf, s, Throw(k, false, false)) == s1
      && Enabled(wf, s1, RecordFailure(k))
      && Apply(wf, s1, RecordFailure(k))
         == WithJob(WithResult(s1, k.node, ErrorResult("Node execution failed")), k, Exhausted(ResultRecorded))
    ensures !Drops(wf, s, Throw(k, false, false), n)
  {
    hide FindNode, OutputsOf;
  }

  lemma OnlyThrowsDrop(wf: Workflow, s: State, a: Action, n: Id)
    requires !a.Throw?
    ensures !Drops(wf, s, a, n)
  {
  }

  /** The other parent looks at the node in vain, finds nodes without results, and returns. */
  lemma ParentReturns(wf: Workflow, s: State, k: JobKey, n: Id)
    requires LeadsKept(wf, WithPc(s, k, Releasing(DONE, [Consider(n, true)])), n)
    requires k in s.jobs && FindNode(wf.nodes, k.node).Some? && s.lock.None? && s.status == Running
    requires !Ready(wf, s.results, n) && |s.results| != |wf.nodes|
    ensures LeadsKept(wf, WithJob(s, k, Returned(DONE)), n)
  {
    var held, r := s.(lock := Some(k)), DONE;
    hide LeadsKept, CanTake, FindNode, WithPc, WithJob, Ready;
    assert [Consider(n, true)] + [] == [Consider(n, true)];
    LookAtChild(wf, s, k, r, n, []);
    AcquireSteps(wf, s, k, r);
    StatusRead(wf, held, k, r);
    CountStep(wf, held, k, r);
    LastSteps(wf, s, k, r);
    KeptTo(wf, WithPc(s, k, Releasing(r, [Consider(n, true)])), Proceed(k), WithPc(s, k, Releasing(r, [])), n);
    KeptTo(wf, WithPc(s, k, Releasing(r, [])), Proceed(k), WithPc(s, k, AcquireLock(r)), n);
    KeptTo(wf, WithPc(s, k, AcquireLock(r)), Proceed(k), WithPc(held, k, LockedStatus(r)), n);
    KeptTo(wf, WithPc(held, k, LockedStatus(r)), Proceed(k), WithPc(held, k, LockedCount(r)), n);
    KeptTo(wf, WithPc(held, k, LockedCount(r)), Proceed(k), WithPc(held, k, Unlock(r)), n);
    KeptTo(wf, WithPc(held, k, Unlock(r)), Proceed(k), WithPc(s, k, Finish(r)), n);
    KeptTo(wf, WithPc(s, k, Finish(r)), Proceed(k), WithJob(s, k, Returned(r)), n);
  }

  lemma ParentEnds(wf: Workflow, s: State, d: Id, p: Id, n: Id, jd: JobState, jr: JobState, results: map<Id, ExecutionResult>)
    returns (s': State)
    requires Fork(wf, d, p, n) && LeadsKept(wf, s, n) && p != d
    requires Scene(wf, s, d, p, jd, jr, Active(Releasing(DONE, [Consider(n, true)])), results)
    requires !ResolvedIn(results, d) && |results| != |wf.nodes| && FindNode(wf.nodes, p).Some?
    ensures LeadsKept(wf, s', n) && Scene(wf, s', d, p, jd, jr, Returned(DONE), results)
  {
    hide Fork, LeadsKept, FindNode, Ready, Scene, WithJob;
    var k, j := Entry(p), Active(Releasing(DONE, [Consider(n, true)]));
    SceneIs(wf, s, d, p, jd, jr, j, results);
    ParentMoves(wf, s, d, p, jd, jr, j, results, j);
    ParentMoves(wf, s, d, p, jd, jr, j, results, Returned(DONE));
    NotReadyWithout(wf, d, p, n, d, results);
    s' := WithJob(s, k, Returned(DONE));
    ParentReturns(wf, s, k, n);
  }

  /** The listener stores what the resume job returned. */
  lemma ListenerStores(wf: Workflow, s: State, d: Id, p: Id, n: Id, jd: JobState, jp: JobState, results: map<Id, ExecutionResult>)
    returns (s': State)
    requires LeadsKept(wf, s, n) && Scene(wf, s, d, p, jd, Returned(GATHERED), jp, results) && p != d
    ensures LeadsKept(wf, s', n) && Scene(wf, s', d, p, jd, Returned(GATHERED), jp, results[d := GATHERED])
  {
    var a := CacheReturned(Resumed(d));
    s' := WithResult(s, d, GATHERED);
    SceneIs(wf, s, d, p, jd, Returned(GATHERED), jp, results);
    assert Enabled(wf, s, a) && Apply(wf, s, a) == s';
    OnlyThrowsDrop(wf, s, a, n);
    hide LeadsKept, Enabled, Apply, Drops, Scene;
    KeptThen(wf, s, a, s', n);
    SceneWrites(wf, s, d, p, jd, Returned(GATHERED), jp, results, d, GATHERED);
  }

  lemma OnlyTwoParents(wf: Workflow, d: Id, p: Id, n: Id, m: Id)
    requires Fork(wf, d, p, n)
    ensures n in OutputsOf(wf, m) ==> m == d || m == p
    ensures d !in OutputsOf(wf, m) && p !in OutputsOf(wf, m)
  {
    RunnableIsLinked(wf);
    hide Runnable, WellLinked, OutputsOf, EntryNodes;
    if n in OutputsOf(wf, m) {
      ParentIsInput(wf, n, m);
    }
    if d in OutputsOf(wf, m) {
      ParentIsInput(wf, d, m);
    }
    if p in OutputsOf(wf, m) {
      ParentIsInput(wf, p, m);
    }
  }

  lemma OnlyTwoAbove(wf: Workflow, d: Id, p: Id, n: Id, m: Id)
    requires Fork(wf, d, p, n) && Above(wf, m, n) && m != n
    ensures m == d || m == p
  {
    hide Fork, FindNode, FirstOutputGraph;
    var g := FirstOutputGraph(wf.nodes);
    var q :| IsPathBetween(g, q, m, n);
    var i := |q| - 2;
    assert q[i+1] in Succ(g, q[i]);
    FirstOutputs(wf.nodes, q[i]);
    OnlyTwoParents(wf, d, p, n, q[i]);
    if i > 0 {
      assert q[i-1+1] in Succ(g, q[i-1]);
      FirstOutputs(wf.nodes, q[i-1]);
      OnlyTwoParents(wf, d, p, n, q[i-1]);
    }
  }

  lemma BothOver(wf: Workflow, s: State, d: Id, p: Id, results: map<Id, ExecutionResult>)
    requires EntryNodes(wf) == [d, p] && d != p
    requires Scene(wf, s, d, p, Exhausted(ResultRecorded), Returned(GATHERED), Returned(DONE), results)
    ensures Over(wf, s, d) && Over(wf, s, p)
  {
    hide EntryNodes;
    assert d in EntryNodes(wf) && p in EntryNodes(wf);
  }

  lemma NoneOfIt(wf: Workflow, s: State, d: Id, p: Id, n: Id, results: map<Id, ExecutionResult>)
    requires n != d && n != p && n !in results
    requires Scene(wf, s, d, p, Exhausted(ResultRecorded), Returned(GATHERED), Returned(DONE), results)
    ensures n !in s.starting && n !in s.results && forall k :: k in s.hist.added ==> k.node != n
    ensures forall k, i, m :: !HasTask(s, k, i, m)
  {
  }

  lemma LostInTheEnd(wf: Workflow, s: State, d: Id, p: Id, n: Id, results: map<Id, ExecutionResult>)
    requires Fork(wf, d, p, n) && n !in results
    requires Scene(wf, s, d, p, Exhausted(ResultRecorded), Returned(GATHERED), Returned(DONE), results)
    ensures Forgotten(wf, s, n)
  {
    hide Fork, Over, Above, Scene, EntryNodes, HasTask;
    ForkIs(wf, d, p, n);
    BothOver(wf, s, d, p, results);
    NoneOfIt(wf, s, d, p, n, results);
    forall m | m != n && Above(wf, m, n) ensures Over(wf, s, m) {
      OnlyTwoAbove(wf, d, p, n, m);
    }
  }

  /** Up to the moment at which both parents have results and one is about to look at the node. */
  lemma BothWritten(wf: Workflow, d: Id, p: Id, n: Id) returns (s: State, marker: ExecutionResult)
    requires Fork(wf, d, p, n)
    ensures LeadsKept(wf, s, n) && |wf.nodes| > 2 && FindNode(wf.nodes, p).Some?
    ensures Scene(wf, s, d, p, Active(Finish(marker)), Returned(GATHERED), Active(Releasing(DONE, [Consider(n, true)])),
                  map[d := GATHERED, p := DONE])
  {
    hide Fork, Runnable, Leads, LeadsKept, FindNode, DelayOf, Scene, BothWaiting, HandingOver, WellLinked, Taken, Own, DelayedMarker;
    var delay, parent, w := ForkNodes(wf, d, p, n);
    ForkIs(wf, d, p, n);
    var s0 := BothQueued(wf, d, p);
    WaitsForDelay(s0, d, p);
    ResumeIsNew(wf, s0, Entry(d), delay);
    HandsOver(wf, s0, d, p, delay, w);
    HandingOverScene(wf, s0, d, p, w);
    marker := DelayedMarker(s0.now + w, w);
    s := ResumeRuns(wf, HandingOver(s0, d, w), d, p, n, Active(Finish(marker)), s0.now + w, Waiting(s0.now), delay);
    s := ParentWrites(wf, s, d, p, n, Active(Finish(marker)), Returned(GATHERED), s0.now, parent);
    PeacefulIsKept(wf, s, n);
  }

  /**
   * Nothing was dropped, but the initial job of a delay node failed at its return, after it had
   * queued the resume job: that loses a node with the delay node among its inputs as well.
   */
  lemma LateFailureLoses(wf: Workflow, d: Id, p: Id, n: Id) returns (states: seq<State>, steps: seq<Action>)
    requires Fork(wf, d, p, n)
    ensures IsRun(wf, states, steps) && forall i :: 0 <= i < |steps| ==> !Drops(wf, states[i], steps[i], n)
    ensures exists i, m :: 0 <= i < |steps| && m in InputsOf(wf, n) && RepeatsHandOver(wf, states[i], steps[i], m)
    ensures Ready(wf, states[|steps|].results, n) && Forgotten(wf, states[|steps|], n)
  {
    hide Fork, Runnable, LeadsKept, FindNode, Scene, Ready, Forgotten, WellLinked, PlainIds, PlainFor, Kept, HasInputs, Drops, RepeatsHandOver;
    ForkIs(wf, d, p, n);
    var s, marker := BothWritten(wf, d, p, n);
    var results := map[d := GATHERED, p := DONE];
    var failed := results[d := ErrorResult("Node execution failed")];
    FailedResults(d, p);
    s := FailsLate(wf, s, d, p, n, marker, Returned(GATHERED), Active(Releasing(DONE, [Consider(n, true)])), results);
    s := ParentEnds(wf, s, d, p, n, Exhausted(ResultRecorded), Returned(GATHERED), failed);
    s := ListenerStores(wf, s, d, p, n, Exhausted(ResultRecorded), Returned(DONE), failed);
    LostInTheEnd(wf, s, d, p, n, results);
    ReadyWithBoth(wf, d, p, n, results);
    SceneIs(wf, s, d, p, Exhausted(ResultRecorded), Returned(GATHERED), Returned(DONE), results);
    states, steps := KeptRun(wf, s, n);
    ForgottenIsNotKept(wf, states, steps, n);
    SomeHandOver(wf, states, steps, n);
  }

  lemma SomeHandOver(wf: Workflow, states: seq<State>, steps: seq<Action>, n: Id)
    requires |states| == |steps| + 1 && !Kept(wf, states, steps, n)
    requires forall i :: 0 <= i < |steps| ==> !Drops(wf, states[i], steps[i], n)
    ensures exists i, m :: 0 <= i < |steps| && m in InputsOf(wf, n) && RepeatsHandOver(wf, states[i], steps[i], m)
  {
    hide Drops, RepeatsHandOver, InputsOf;
    var i :| 0 <= i < |steps| && !Harmless(wf, states[i], steps[i], n);
    var m :| m in InputsOf(wf, n) && RepeatsHandOver(wf, states[i], steps[i], m);
  }

  lemma KeptRun(wf: Workflow, s: State, n: Id) returns (states: seq<State>, steps: seq<Action>)
    requires LeadsKept(wf, s, n)
    ensures IsRun(wf, states, steps) && states[|steps|] == s && forall i :: 0 <= i < |steps| ==> !Drops(wf, states[i], steps[i], n)
  {
    states, steps :| IsKeptRun(wf, states, steps, s, n);
  }

  lemma FailedResults(d: Id, p: Id)
    requires d != p
    ensures var results := map[d := GATHERED, p := DONE];
      var failed := results[d := ErrorResult("Node execution failed")];
      |failed| == 2 && !ResolvedIn(failed, d) && failed[d := GATHERED] == results
      && ResolvedIn(results, d) && ResolvedIn(results, p)
  {
    var results := map[d := GATHERED, p := DONE];
    var failed := results[d := ErrorResult("Node execution failed")];
    assert failed.Keys == {d, p};
  }

  lemma ForkIs(wf: Workflow, d: Id, p: Id, n: Id)
    requires Fork(wf, d, p, n)
    ensures Runnable(wf) && WellLinked(wf) && PlainIds(wf) && PlainFor(wf, n) && EntryNodes(wf) == [d, p] && d != p && n != d && n != p
    ensures HasInputs(wf, n)
  {
  }
}
