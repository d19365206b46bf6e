/** The bound on announcements is met, and a paused execution has none. */
module SchedulerAnnounce {
  import opened Graphs
  import opened Workflows
  import opened GraphValidation
  import opened JobIds
  import opened Scheduler
  import opened SchedulerEffects
  import opened SchedulerContainment
  import opened SchedulerIds
  import opened SchedulerOnce
  import opened SchedulerJoin
  import opened SchedulerDrain
  import opened SchedulerLock
  import opened SchedulerRuns
  import opened SchedulerCompletion
  import opened SchedulerClash

  // ------------------------------------------------------ counting runs

  ghost predicate IsTally(wf: Workflow, states: seq<State>, steps: seq<Action>, s: State, announced: nat, paused: nat, expiries: nat) {
    && IsRun(wf, states, steps) && states[|steps|] == s
    && Announcements(states, steps, |steps|) == announced
    && PausedAnnouncements(states, steps, |steps|) == paused
    && Expiries(states, steps, |steps|) == expiries
  }

  /** A run leads here with so many announcements and expired locks. */
  ghost predicate Tally(wf: Workflow, s: State, announced: nat, paused: nat, expiries: nat) {
    exists states, steps :: IsTally(wf, states, steps, s, announced, paused, expiries)
  }

  lemma {:induction false} CountsPrefix(states: seq<State>, steps: seq<Action>, s: State, a: Action, i: nat)
    requires i <= |steps| < |states|
    ensures Announcements(states + [s], steps + [a], i) == Announcements(states, steps, i)
    ensures PausedAnnouncements(states + [s], steps + [a], i) == PausedAnnouncements(states, steps, i)
    ensures Expiries(states + [s], steps + [a], i) == Expiries(states, steps, i)
  {
    hide Announces, TakesLock;
    if i > 0 {
      CountsPrefix(states, steps, s, a, i - 1);
    }
  }

  lemma TallyThen(wf: Workflow, s: State, a: Action, s': State, announced: nat, paused: nat, e: nat)
    requires Tally(wf, s, announced, paused, e) && Enabled(wf, s, a) && Apply(wf, s, a) == s'
    ensures Tally(wf, s', announced + One(Announces(s, a) && s.status != Paused),
                  paused + One(Announces(s, a) && s.status == Paused), e + One(TakesLock(s, a)))
  {
    hide Apply, Enabled, Announces, TakesLock;
    var states, steps :| IsTally(wf, states, steps, s, announced, paused, e);
    CountsPrefix(states, steps, s', a, |steps|);
    assert IsRun(wf, states + [s'], steps + [a]);
    assert IsTally(wf, states + [s'], steps + [a], s', announced + One(Announces(s, a) && s.status != Paused),
                   paused + One(Announces(s, a) && s.status == Paused), e + One(TakesLock(s, a)));
  }

  lemma {:induction false} PeacefulExpiries(states: seq<State>, steps: seq<Action>, i: nat)
    requires i <= |steps| < |states| && forall j :: 0 <= j < |steps| ==> Peaceful(steps[j])
    ensures Expiries(states, steps, i) == 0
  {
    if i > 0 {
      PeacefulExpiries(states, steps, i - 1);
    }
  }

  lemma NothingYet(wf: Workflow, s: State)
    requires Leads(wf, s) && s.status == Running
    ensures Tally(wf, s, 0, 0, 0)
  {
    var states, steps :| IsPeacefulRun(wf, states, steps, s);
    PeacefulExpiries(states, steps, |steps|);
    RunAccountable(wf, states, steps, |steps|);
    hide IsRun, Peaceful, Bounded, Announcements, PausedAnnouncements, Expiries;
    assert IsTally(wf, states, steps, s, 0, 0, 0);
  }

  /** A step of a worker that announces nothing. */
  lemma Quietly(wf: Workflow, s: State, k: JobKey, pc: Pc, s': State, announced: nat, paused: nat, e: nat)
    requires Tally(wf, WithPc(s, k, pc), announced, paused, e) && CanTake(wf, WithPc(s, k, pc), Proceed(k), s')
    requires !pc.LockedComplete?
    ensures Tally(wf, s', announced, paused, e)
  {
    TallyThen(wf, WithPc(s, k, pc), Proceed(k), s', announced, paused, e);
    hide Apply, Enabled, Tally;
  }

  lemma Loudly(wf: Workflow, s: State, k: JobKey, r: ExecutionResult, s': State, announced: nat, paused: nat, e: nat)
    requires Tally(wf, WithPc(s, k, LockedComplete(r)), announced, paused, e)
    requires CanTake(wf, WithPc(s, k, LockedComplete(r)), Proceed(k), s')
    ensures if s.status == Paused then Tally(wf, s', announced, paused + 1, e) else Tally(wf, s', announced + 1, paused, e)
  {
    TallyThen(wf, WithPc(s, k, LockedComplete(r)), Proceed(k), s', announced, paused, e);
    hide Apply, Enabled, Tally;
  }

  /** A worker counts as many results as nodes and is about to announce. */
  lemma UpToAnnounce(wf: Workflow, s: State, k: JobKey, announced: nat, paused: nat, e: nat)
    requires Tally(wf, WithPc(s, k, Releasing(DONE, [])), announced, paused, e)
    requires k in s.jobs && FindNode(wf.nodes, k.node).Some? && s.lock.None? && !Terminal(s.status) && |s.results| == |wf.nodes|
    ensures Tally(wf, WithPc(s.(lock := Some(k)), k, LockedComplete(DONE)), announced, paused, e)
  {
    var held, r := s.(lock := Some(k)), DONE;
    AcquireSteps(wf, s, k, r);
    StatusRead(wf, held, k, r);
    CountStep(wf, held, k, r);
    hide Tally, CanTake, WithPc, FindNode;
    Quietly(wf, s, k, Releasing(r, []), WithPc(s, k, AcquireLock(r)), announced, paused, e);
    Quietly(wf, s, k, AcquireLock(r), WithPc(held, k, LockedStatus(r)), announced, paused, e);
    Quietly(wf, held, k, LockedStatus(r), WithPc(held, k, LockedCount(r)), announced, paused, e);
    Quietly(wf, held, k, LockedCount(r), WithPc(held, k, LockedComplete(r)), announced, paused, e);
  }

  // ------------------------------------------------------- flat workflows

  /** Independent regular nodes. */
  ghost predicate Flat(wf: Workflow) {
    && Runnable(wf) && wf.entryNodeId == ""
    && forall n :: n in wf.nodes ==> n.kind.Regular? && n.inputs == [] && n.outputs == []
  }

  function KeyAt(wf: Workflow, j: nat): JobKey
    requires j < |wf.nodes|
  {
    Entry(wf.nodes[j].id)
  }

  /** The jobs of the first nodes are at one point, those of the others at another. */
  ghost predicate Split(wf: Workflow, s: State, i: nat, done: JobState, todo: JobState) {
    i <= |wf.nodes|
    && forall j :: 0 <= j < |wf.nodes| ==> KeyAt(wf, j) in s.jobs && s.jobs[KeyAt(wf, j)] == if j < i then done else todo
  }

  lemma FlatNode(wf: Workflow, j: nat)
    requires Flat(wf) && j < |wf.nodes|
    ensures FindNode(wf.nodes, KeyAt(wf, j).node) == Some(wf.nodes[j]) && OutputsOf(wf, KeyAt(wf, j).node) == []
    ensures wf.nodes[j].kind.Regular? && KeyAt(wf, j).node != ROOT_NODE && KeyAt(wf, j).node in EntryNodes(wf)
    ensures forall x :: 0 <= x < |wf.nodes| && x != j ==> KeyAt(wf, x) != KeyAt(wf, j)
  {
    hide HasCycle, FirstOutputGraph, SymmetricLinks, CanShareManualId, EveryNodeReachable;
    UniqueNode(wf.nodes, wf.nodes[j]);
    WithoutInputsAreNodes(wf.nodes, wf.nodes[j].id);
    forall x | 0 <= x < |wf.nodes| && x != j ensures KeyAt(wf, x) != KeyAt(wf, j) {
      assert if x < j then wf.nodes[x].id != wf.nodes[j].id else wf.nodes[j].id != wf.nodes[x].id;
    }
  }

  lemma NextIsDone(wf: Workflow, s: State, s': State, i: nat, done: JobState, todo: JobState)
    requires Flat(wf) && Split(wf, s, i, done, todo) && i < |wf.nodes| && s'.jobs == s.jobs[KeyAt(wf, i) := done]
    ensures Split(wf, s', i + 1, done, todo)
  {
    FlatNode(wf, i);
    hide Flat, FindNode, OutputsOf;
  }

  lemma NextJobIs(wf: Workflow, s: State, i: nat, done: JobState, todo: JobState)
    requires Split(wf, s, i, done, todo) && i < |wf.nodes|
    ensures KeyAt(wf, i) in s.jobs && s.jobs[KeyAt(wf, i)] == todo
    ensures todo.Active? ==> WithPc(s, KeyAt(wf, i), todo.pc) == s
  {
    assert s.jobs[KeyAt(wf, i) := todo] == s.jobs;
  }

  // ---------------------------------------------- everything but the checks

  const CHECKING := Active(Releasing(DONE, []))

  ghost predicate HasWritten(wf: Workflow, s: State, i: nat) {
    && Split(wf, s, i, CHECKING, Waiting(s.now)) && s.lock.None? && s.status == Running && |s.results| == i
    && forall j :: i <= j < |wf.nodes| ==> KeyAt(wf, j).node !in s.results
  }

  lemma AllQueued(wf: Workflow) returns (s: State)
    requires Flat(wf)
    ensures Leads(wf, s) && HasWritten(wf, s, 0)
  {
    assert Runnable(wf);
    hide Flat, Runnable, Leads, Own, JobAccounted, EntryNodes, PlainIds;
    s := EnqueueAll(wf, |EntryNodes(wf)|);
    LeadsWhere(wf, s);
    forall j | 0 <= j < |wf.nodes| ensures KeyAt(wf, j) in s.jobs && s.jobs[KeyAt(wf, j)] == Waiting(s.now) {
      FlatNode(wf, j);
    }
  }

  lemma WriteNext(wf: Workflow, s: State, i: nat) returns (s': State)
    requires Flat(wf) && Leads(wf, s) && HasWritten(wf, s, i) && i < |wf.nodes|
    ensures Leads(wf, s') && HasWritten(wf, s', i + 1)
  {
    hide Flat, Leads, FindNode, OutputsOf, CanTake;
    var k, node := KeyAt(wf, i), wf.nodes[i];
    FlatNode(wf, i);
    NextJobIs(wf, s, i, CHECKING, Waiting(s.now));
    hide Split;
    Execution(wf, s, k, node);
    WriteFirst(wf, s, k, DONE);
    s' := WithPc(WithResult(s, k.node, DONE), k, Releasing(DONE, []));
    assert Tasks([], None) == [];
    ThenTo(wf, WithPc(s, k, WriteResult(DONE)), Proceed(k), s');
    NextIsDone(wf, s, s', i, CHECKING, Waiting(s.now));
    OneMore(s.results, k.node, DONE);
  }

  lemma {:induction false} WriteAll(wf: Workflow, i: nat) returns (s: State)
    requires Flat(wf) && i <= |wf.nodes|
    ensures Leads(wf, s) && HasWritten(wf, s, i)
  {
    hide Flat, Leads, HasWritten;
    if i == 0 {
      s := AllQueued(wf);
    } else {
      var s0 := WriteAll(wf, i - 1);
      s := WriteNext(wf, s0, i - 1);
    }
  }

  /** All results are written, and every worker is about to check for completion. */
  lemma AllCheck(wf: Workflow, done: JobState) returns (s: State)
    requires Flat(wf)
    ensures Tally(wf, s, 0, 0, 0) && Split(wf, s, 0, done, CHECKING)
    ensures s.lock.None? && s.status == Running && |s.results| == |wf.nodes|
  {
    s := WriteAll(wf, |wf.nodes|);
    hide Flat, Leads, Tally;
    NothingYet(wf, s);
  }

  // ------------------------------------------------------ a paused execution

  ghost predicate PausedChecks(wf: Workflow, s: State, i: nat) {
    && Split(wf, s, i, Returned(DONE), CHECKING)
    && s.lock.None? && s.status == Paused && |s.results| == |wf.nodes| && Tally(wf, s, 0, i, 0)
  }

  lemma PausedNext(wf: Workflow, s: State, i: nat) returns (s': State)
    requires Flat(wf) && PausedChecks(wf, s, i) && i < |wf.nodes|
    ensures PausedChecks(wf, s', i + 1)
  {
    hide Flat, Tally, FindNode, OutputsOf, CanTake;
    var k, r := KeyAt(wf, i), DONE;
    var held := s.(lock := Some(k));
    FlatNode(wf, i);
    NextJobIs(wf, s, i, Returned(r), CHECKING);
    CountStep(wf, held, k, r);
    LastSteps(wf, s, k, r);
    s' := WithJob(s, k, Returned(r));
    NextIsDone(wf, s, s', i, Returned(r), CHECKING);
    assert held.(status := Guarded(held.status, Completed)) == held;
    hide WithPc, WithJob, Split;
    UpToAnnounce(wf, s, k, 0, i, 0);
    Loudly(wf, held, k, r, WithPc(held, k, Unlock(r)), 0, i, 0);
    Quietly(wf, held, k, Unlock(r), WithPc(s, k, Finish(r)), 0, i + 1, 0);
    Quietly(wf, s, k, Finish(r), s', 0, i + 1, 0);
  }

  lemma {:induction false} PausedFrom(wf: Workflow, s: State, i: nat) returns (s': State)
    requires Flat(wf) && PausedChecks(wf, s, i) && i <= |wf.nodes|
    ensures PausedChecks(wf, s', |wf.nodes|)
    decreases |wf.nodes| - i
  {
    hide Flat, PausedChecks;
    s' := s;
    if i < |wf.nodes| {
      s' := PausedNext(wf, s, i);
      s' := PausedFrom(wf, s', i + 1);
    }
  }

  lemma PauseAll(wf: Workflow) returns (s: State)
    requires Flat(wf)
    ensures PausedChecks(wf, s, 0)
  {
    var s0 := AllCheck(wf, Returned(DONE));
    s := s0.(status := Paused);
    assert Apply(wf, s0, Pause) == s && Enabled(wf, s0, Pause);
    hide Flat, Tally, Apply, Enabled;
    TallyThen(wf, s0, Pause, s, 0, 0, 0);
  }

  /**
   * While an execution is paused, every worker that checks announces its completion: of as many
   * nodes as one likes, once each, and the execution is not completed.
   */
  lemma PausedAnnouncesEach(wf: Workflow) returns (states: seq<State>, steps: seq<Action>)
    requires Flat(wf)
    ensures IsRun(wf, states, steps) && states[|steps|].status == Paused
    ensures PausedAnnouncements(states, steps, |steps|) == |wf.nodes| && Expiries(states, steps, |steps|) == 0
  {
    hide Flat;
    var s := PauseAll(wf);
    s := PausedFrom(wf, s, 0);
    states, steps :| IsTally(wf, states, steps, s, 0, |wf.nodes|, 0);
  }

  // --------------------------------------------------------- expired locks

  const ABOUT := Active(LockedComplete(DONE))

  ghost predicate ExpiredChecks(wf: Workflow, s: State, i: nat) {
    && Split(wf, s, i, ABOUT, CHECKING)
    && s.lock.None? && s.status == Running && |s.results| == |wf.nodes| && Tally(wf, s, 0, 0, i)
  }

  /** The next worker is about to announce and still holds the lock. */
  lemma LockNext(wf: Workflow, s: State, i: nat) returns (s': State)
    requires Flat(wf) && ExpiredChecks(wf, s, i) && i < |wf.nodes|
    ensures Split(wf, s', i + 1, ABOUT, CHECKING) && s'.lock.Some? && s'.status == Running && s'.results == s.results
    ensures Tally(wf, s', 0, 0, i)
  {
    var k := KeyAt(wf, i);
    FlatNode(wf, i);
    NextJobIs(wf, s, i, ABOUT, CHECKING);
    s' := WithPc(s.(lock := Some(k)), k, LockedComplete(DONE));
    NextIsDone(wf, s, s', i, ABOUT, CHECKING);
    hide Flat, Tally, FindNode, OutputsOf, Split;
    UpToAnnounce(wf, s, k, 0, 0, i);
  }

  lemma ExpireNext(wf: Workflow, s: State, i: nat) returns (s': State)
    requires Flat(wf) && ExpiredChecks(wf, s, i) && i < |wf.nodes|
    ensures ExpiredChecks(wf, s', i + 1)
  {
    var s0 := LockNext(wf, s, i);
    s' := s0.(now := s0.now + LOCK_TIMEOUT_MS, lock := None);
    hide Flat, Tally, Split;
    Expires(wf, s0, 0, 0, i);
    SplitWithoutLock(wf, s0, i + 1, ABOUT, CHECKING);
  }

  /** How long a completion lock lasts. */
  const LOCK_TIMEOUT_MS := 5000


  /** The lock's time passes, and it expires. */
  lemma Expires(wf: Workflow, s: State, announced: nat, paused: nat, e: nat)
    requires Tally(wf, s, announced, paused, e) && s.lock.Some?
    ensures Tally(wf, s.(now := s.now + LOCK_TIMEOUT_MS, lock := None), announced, paused, e + 1)
  {
    hide Tally;
    var s1 := s.(now := s.now + LOCK_TIMEOUT_MS);
    TallyThen(wf, s, Tick(LOCK_TIMEOUT_MS), s1, announced, paused, e);
    TallyThen(wf, s1, ExpireLock, s1.(lock := None), announced, paused, e);
  }

  lemma SplitWithoutLock(wf: Workflow, s: State, i: nat, done: JobState, todo: JobState)
    requires Split(wf, s, i, done, todo)
    ensures Split(wf, s.(now := s.now + LOCK_TIMEOUT_MS, lock := None), i, done, todo)
  {
  }

  lemma {:induction false} ExpireAll(wf: Workflow, i: nat) returns (s: State)
    requires Flat(wf) && i <= |wf.nodes|
    ensures ExpiredChecks(wf, s, i)
  {
    hide Flat, ExpiredChecks;
    if i == 0 {
      s := NoneExpired(wf);
    } else {
      s := ExpireAll(wf, i - 1);
      s := ExpireNext(wf, s, i - 1);
    }
  }

  lemma NoneExpired(wf: Workflow) returns (s: State)
    requires Flat(wf)
    ensures ExpiredChecks(wf, s, 0)
  {
    s := AllCheck(wf, ABOUT);
    hide Flat, Tally;
  }

  ghost predicate Announced(wf: Workflow, s: State, i: nat, e: nat) {
    Split(wf, s, i, Active(Unlock(DONE)), ABOUT) && s.status != Paused && Tally(wf, s, i, 0, e)
  }

  lemma AnnounceNext(wf: Workflow, s: State, i: nat, e: nat) returns (s': State)
    requires Flat(wf) && Announced(wf, s, i, e) && i < |wf.nodes|
    ensures Announced(wf, s', i + 1, e)
  {
    var k, r := KeyAt(wf, i), DONE;
    FlatNode(wf, i);
    NextJobIs(wf, s, i, Active(Unlock(r)), ABOUT);
    CountStep(wf, s, k, r);
    s' := WithPc(s.(status := Guarded(s.status, Completed)), k, Unlock(r));
    NextIsDone(wf, s, s', i, Active(Unlock(r)), ABOUT);
    hide Flat, Tally, FindNode, OutputsOf, CanTake, Split;
    Loudly(wf, s, k, r, s', i, 0, e);
  }

  lemma {:induction false} AnnounceFrom(wf: Workflow, s: State, i: nat, e: nat) returns (s': State)
    requires Flat(wf) && Announced(wf, s, i, e) && i <= |wf.nodes|
    ensures Announced(wf, s', |wf.nodes|, e)
    decreases |wf.nodes| - i
  {
    hide Flat, Announced;
    s' := s;
    if i < |wf.nodes| {
      s' := AnnounceNext(wf, s, i, e);
      s' := AnnounceFrom(wf, s', i + 1, e);
    }
  }

  lemma AllAbout(wf: Workflow) returns (s: State)
    requires Flat(wf) && wf.nodes != []
    ensures Announced(wf, s, 0, |wf.nodes| - 1)
  {
    hide Flat, Tally;
    var s0 := ExpireAll(wf, |wf.nodes| - 1);
    s := LockNext(wf, s0, |wf.nodes| - 1);
  }

  /**
   * The bound is met: if the lock expires on all workers that check but the last, every one of
   * them announces the completion, one more than locks expired.
   */
  lemma EveryExpiryAnnounces(wf: Workflow) returns (states: seq<State>, steps: seq<Action>)
    requires Flat(wf)
    ensures IsRun(wf, states, steps)
    ensures Announcements(states, steps, |steps|) == |wf.nodes| == 1 + Expiries(states, steps, |steps|)
  {
    assert wf.nodes != [];
    hide Flat;
    var s := AllAbout(wf);
    s := AnnounceFrom(wf, s, 0, |wf.nodes| - 1);
    states, steps :| IsTally(wf, states, steps, s, |wf.nodes|, 0, |wf.nodes| - 1);
  }

  // ------------------------------------------- there are flat workflows of any size

  function As(j: nat): (s: string)
    ensures |s| == j + 1 && s[0] == 'a'
  {
    seq(j + 1, _ => 'a')
  }

  function FlatNodes(m: nat): (nodes: seq<Node>)
    ensures |nodes| == m && forall j :: 0 <= j < m ==> nodes[j] == Node(As(j), Regular(false), [], [])
  {
    seq(m, j requires 0 <= j < m => Node(As(j), Regular(false), [], []))
  }

  lemma NoOutputsNoCycle(g: Graph)
    requires forall u :: u in g ==> g[u] == []
    ensures !HasCycle(g)
  {
    if HasCycle(g) {
      var p :| IsCycle(g, p);
      PathHead(g, p);
    }
  }

  lemma FlatOfAnySize(m: nat)
    requires m > 0
    ensures Flat(Workflow("w", FlatNodes(m), "", true))
  {
    var wf := Workflow("w", FlatNodes(m), "", true);
    hide As;
    FlatIsLinked(wf);
    hide WellLinked;
    forall n | n in wf.nodes ensures n.id[..1] == "a" && n.id != ROOT_NODE {}
    FlatIsPlain(wf);
  }

  lemma FlatIsLinked(wf: Workflow)
    requires wf.entryNodeId == "" && wf.hasTriggers
    requires forall j :: 0 <= j < |wf.nodes| ==> wf.nodes[j] == Node(As(j), Regular(false), [], [])
    ensures WellLinked(wf)
  {
    hide As, HasCycle;
    forall i, j | 0 <= i < j < |wf.nodes| ensures wf.nodes[i].id != wf.nodes[j].id {
      assert |wf.nodes[i].id| != |wf.nodes[j].id|;
    }
    NoOutputsNoCycle(FirstOutputGraph(wf.nodes));
  }

  lemma FlatIsPlain(wf: Workflow)
    requires WellLinked(wf) && wf.entryNodeId == "" && forall n :: n in wf.nodes ==> |n.id| > 0 && n.id[0] == 'a' && n.kind.Regular?
    ensures PlainIds(wf)
  {
    hide WellLinked, EntryNodes, CanShareManualId;
    forall e, c | e in EntryNodes(wf) && c in wf.nodes ensures !CanShareManualId(e, c.id) {
      FlatEntry(wf, e, c.id);
    }
    PlainNamesSuffice(wf);
  }

  lemma FlatEntry(wf: Workflow, e: Id, c: Id)
    requires wf.entryNodeId == "" && e in EntryNodes(wf) && forall n :: n in wf.nodes ==> |n.id| > 0 && n.id[0] == 'a'
    ensures !CanShareManualId(e, c)
  {
    WithoutInputsAreNodes(wf.nodes, e);
    assert e[0] == 'a' && (e + MANUAL_MARK)[0] == 'a' && ("node-" + c)[0] == 'n';
  }
}
