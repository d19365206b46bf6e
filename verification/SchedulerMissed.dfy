/** The completion that nobody declares: the last node finishes while another worker holds the lock. */
module SchedulerMissed {
  import opened Graphs
  import opened Workflows
  import opened GraphValidation
  import opened NodeInputs
  import opened Scheduler
  import opened SchedulerEffects
  import opened SchedulerContainment
  import opened SchedulerIds
  import opened SchedulerOnce
  import opened SchedulerStatus
  import opened SchedulerJoin
  import opened SchedulerDrain
  import opened SchedulerRuns
  import opened SchedulerCompletion

  // ---------------------------------------------------- what completes it

  /** A worker counts, under the lock, as many results as nodes. */
  predicate CountsAll(wf: Workflow, s: State, a: Action) {
    a.Proceed? && AtPc(s, a.k) && s.jobs[a.k].pc.LockedCount? && |wf.nodes| - |s.results| == 0
  }

  /** A worker that counted so sets the status of an execution that is running. */
  ghost predicate Completes(s: State, a: Action) {
    a.Proceed? && AboutToComplete(s, a.k) && s.status == Running
  }

  lemma WhoCounts(wf: Workflow, s: State, a: Action, k: JobKey)
    requires Enabled(wf, s, a) && AboutToComplete(Apply(wf, s, a), k) && !AboutToComplete(s, k)
    ensures CountsAll(wf, s, a) && a.k == k
  {
    QueueChanges(wf, s, a);
    hide Apply, Enabled, AddOf, MovedJob;
    if Moves(a, k) {
      JobMoves(wf, s, a, k);
      MovesByCount(wf, s, a, k);
    }
  }

  lemma MovesByCount(wf: Workflow, s: State, a: Action, k: JobKey)
    requires Enabled(wf, s, a) && Moves(a, k)
    requires MovedJob(wf, s, a, k).Active? && MovedJob(wf, s, a, k).pc.LockedComplete?
    ensures CountsAll(wf, s, a)
  {
    hide FindNode, AfterTask, ContinueOnFailResult;
  }

  lemma {:induction false} CountedBefore(wf: Workflow, states: seq<State>, steps: seq<Action>, j: nat, k: JobKey) returns (c: nat)
    requires IsRun(wf, states, steps) && j < |states| && AboutToComplete(states[j], k)
    ensures c < j && CountsAll(wf, states[c], steps[c]) && steps[c].k == k
  {
    hide Apply, Enabled, CountsAll, AboutToComplete;
    InitIsIdle(wf, k);
    if AboutToComplete(states[j-1], k) {
      c := CountedBefore(wf, states, steps, j - 1, k);
    } else {
      c := j - 1;
      WhoCounts(wf, states[c], steps[c], k);
    }
  }

  lemma InitIsIdle(wf: Workflow, k: JobKey)
    ensures !AboutToComplete(Init(wf), k) && Init(wf).status == Running
  {
  }

  lemma WhoChanges(wf: Workflow, s: State, a: Action)
    requires Enabled(wf, s, a)
    ensures s.status != Completed && Apply(wf, s, a).status == Completed <==> Completes(s, a)
  {
    StatusChanges(wf, s, a);
    hide Apply, Enabled;
  }

  lemma {:induction false} CompletedBy(wf: Workflow, states: seq<State>, steps: seq<Action>, i: nat) returns (j: nat)
    requires IsRun(wf, states, steps) && i < |states| && states[i].status == Completed
    ensures j < i && Completes(states[j], steps[j])
  {
    hide Apply, Enabled, Completes;
    InitIsIdle(wf, Entry(""));
    if states[i-1].status == Completed {
      j := CompletedBy(wf, states, steps, i - 1);
    } else {
      j := i - 1;
      WhoChanges(wf, states[j], steps[j]);
    }
  }

  /**
   * An execution is completed exactly if some worker counted, under the lock, as many results as
   * nodes, and the execution was still running when that worker set the status.
   */
  lemma CompletedExactlyIf(wf: Workflow, states: seq<State>, steps: seq<Action>, i: nat)
    requires IsRun(wf, states, steps) && i < |states|
    ensures states[i].status == Completed <==>
      exists c, j :: 0 <= c < j < i && steps[c].Proceed? && steps[j] == steps[c]
        && CountsAll(wf, states[c], steps[c]) && Completes(states[j], steps[j])
  {
    assert |states| == |steps| + 1;
    hide Apply, Enabled, IsRun, CountsAll, Completes;
    if states[i].status == Completed {
      var j := CompletedBy(wf, states, steps, i);
      CompletesAt(states[j], steps[j]);
      var c := CountedBefore(wf, states, steps, j, steps[j].k);
      CountsAt(wf, states[c], steps[c]);
      assert steps[c] == steps[j];
    }
    forall j | 0 <= j < i && Completes(states[j], steps[j]) ensures states[i].status == Completed {
      CompletesNow(wf, states, steps, j);
      StatusIsFinal(wf, states, steps, j + 1, i);
    }
  }

  lemma CompletesAt(s: State, a: Action)
    requires Completes(s, a)
    ensures a.Proceed? && AboutToComplete(s, a.k)
  {
  }

  lemma CountsAt(wf: Workflow, s: State, a: Action)
    requires CountsAll(wf, s, a)
    ensures a.Proceed?
  {
  }

  lemma CompletesNow(wf: Workflow, states: seq<State>, steps: seq<Action>, j: nat)
    requires IsRun(wf, states, steps) && j < |steps| && Completes(states[j], steps[j])
    ensures states[j + 1].status == Completed
  {
    WhoChanges(wf, states[j], steps[j]);
    hide Apply, Enabled, Completes;
  }

  // ------------------------------------------------- nobody completes it

  /** One worker has released its children and not yet taken the lock; nothing else is going on. */
  ghost predicate Lingering(wf: Workflow, s: State, k: JobKey, r: ExecutionResult) {
    && s.lock.None? && !s.cancelling && s.starting == [] && s.status == Running
    && k in s.jobs && s.jobs[k] == Active(Releasing(r, [])) && r.Resolved() && k.node in s.results
    && FindNode(wf.nodes, k.node).Some?
    && (forall m :: m in s.results ==> PrimaryKey(wf, m) in s.jobs)
    && (forall k' :: k' in s.jobs && k' != k ==> JobCalm(s, k'))
    && Leads(wf, s)
  }

  function Held(wf: Workflow, s: State, k: JobKey, r: ExecutionResult): State {
    WithPc(Handed(wf, s, k, r), k, Releasing(r, []))
  }

  lemma HeldIs(wf: Workflow, s: State, k: JobKey, r: ExecutionResult)
    requires |s.results[k.node := r]| != |wf.nodes|
    ensures var s', held := Processed(wf, s, k, r), Held(wf, s, k, r);
      && s'.jobs == held.jobs[k := Returned(r)] && s'.results == held.results && s'.status == held.status
      && s'.cancelling == held.cancelling && s'.starting == held.starting && s'.now == held.now
      && held.results == s.results[k.node := r]
      && held.jobs == s'.jobs[k := Active(Releasing(r, []))] && held.lock == s.lock
  {
    ReleasedKeeps(wf, WithResult(s, k.node, r), OutputsOf(wf, k.node));
    hide Released, OutputsOf;
  }

  lemma CalmIsLingering(wf: Workflow, s: State, s': State, k: JobKey, r: ExecutionResult)
    requires Calm(wf, s') && |s'.results| != |wf.nodes| && Leads(wf, s)
    requires s'.jobs == s.jobs[k := Returned(r)] && s'.results == s.results && s'.status == s.status
    requires s'.cancelling == s.cancelling && s'.starting == s.starting && s'.now == s.now
    requires s.jobs == s'.jobs[k := Active(Releasing(r, []))] && s.lock.None?
    requires r.Resolved() && k.node in s.results && FindNode(wf.nodes, k.node).Some?
    ensures Lingering(wf, s, k, r)
  {
    hide Leads, FindNode, PrimaryKey, Ready;
    forall k' | k' in s.jobs && k' != k ensures JobCalm(s, k') {
      assert JobCalm(s', k') && s'.jobs[k'] == s.jobs[k'];
    }
  }

  lemma NowLingering(wf: Workflow, s: State, k: JobKey, r: ExecutionResult)
    requires Runnable(wf) && Writing(wf, s, k, r) && |s.results[k.node := r]| != |wf.nodes|
    ensures Lingering(wf, Held(wf, s, k, r), k, r)
  {
    HeldIs(wf, s, k, r);
    WriteOut(wf, s, k, r);
    WritesOwn(wf, s, k, r);
    WriteAndLook(wf, s, k, r);
    hide Runnable, Leads, Processed, Calm, Writing, Lingering;
    CalmIsLingering(wf, Held(wf, s, k, r), Processed(wf, s, k, r), k, r);
  }

  lemma WritesOwn(wf: Workflow, s: State, k: JobKey, r: ExecutionResult)
    requires Writing(wf, s, k, r)
    ensures FindNode(wf.nodes, k.node).Some? && r.Resolved() && r.success && r.nextNodes.None? && k in s.jobs && s.lock.None?
    ensures Leads(wf, WithPc(s, k, WriteResult(r)))
  {
  }

  // ------------------------------------------------------ the last node

  /** Apart from two jobs, those of a node with a result and of the last node have returned. */
  ghost predicate OthersReturned(s: State, k: JobKey, k2: JobKey) {
    forall k' :: k' in s.jobs && k' != k && k' != k2 && (k'.node in s.results || k'.node == k2.node) ==>
      s.jobs[k'].Returned? && s.jobs[k'].r.Resolved()
  }

  /** Besides the worker that checks, one is about to write its node's result. */
  ghost predicate WritingLast(wf: Workflow, s: State, k: JobKey, r: ExecutionResult, k2: JobKey, r2: ExecutionResult, locked: bool) {
    && s.lock == (if locked then Some(k) else None) && !s.cancelling && s.starting == [] && s.status == Running
    && k in s.jobs && s.jobs[k] == Active(if locked then Unlock(r) else Releasing(r, [])) && r.Resolved() && k2 != k
    && FindNode(wf.nodes, k.node).Some? && FindNode(wf.nodes, k2.node).Some?
    && k2 in s.jobs && k2.node !in s.results && r2.success && r2.nextNodes.None?
    && (forall m :: m in s.results ==> PrimaryKey(wf, m) in s.jobs) && PrimaryKey(wf, k2.node) in s.jobs
    && OthersReturned(s, k, k2)
    && Leads(wf, WithPc(s, k2, WriteResult(r2)))
  }

  lemma LingeringJob(wf: Workflow, s: State, k: JobKey, r: ExecutionResult, k2: JobKey) returns (node: Node)
    requires Runnable(wf) && Lingering(wf, s, k, r) && k2 in s.jobs && s.jobs[k2].Waiting?
    ensures CanStart(wf, s, k2, node) && (node.kind.Delay? ==> ValidDuration(DelayOf(node))) && k2 != k && !k2.Resumed?
    ensures PrimaryKey(wf, k2.node) == k2 && forall k' :: k' in s.jobs && k'.node == k2.node ==> k' == k2
    ensures Own(wf, s)
  {
    assert JobCalm(s, k2);
    LeadsWhere(wf, s);
    node := JobNode(wf, s, k2);
    JobsAreOwn(wf, s);
    RunnableIsLinked(wf);
    hide Runnable, Own, Accounted, DelayOf, FindNode, PrimaryKey, Leads, KeyOk, WellLinked, IsDelay;
    OnlyPrimary(wf, k2);
    forall k' | k' in s.jobs && k'.node == k2.node ensures k' == k2 {
      assert JobCalm(s, k');
      OnlyPrimary(wf, k');
    }
  }

  lemma LastRegular(wf: Workflow, s: State, k: JobKey, r: ExecutionResult, k2: JobKey, node: Node)
    requires Lingering(wf, s, k, r) && CanStart(wf, s, k2, node) && node.kind.Regular? && k2 != k
    requires PrimaryKey(wf, k2.node) == k2 && forall k' :: k' in s.jobs && k'.node == k2.node ==> k' == k2
    ensures WritingLast(wf, s, k, r, k2, DONE, false)
  {
    Execution(wf, s, k2, node);
    hide Leads, PrimaryKey, FindNode;
    forall k' | k' in s.jobs && k' != k && k' != k2 && (k'.node in s.results || k'.node == k2.node)
      ensures s.jobs[k'].Returned? && s.jobs[k'].r.Resolved()
    {
      assert JobCalm(s, k');
    }
  }

  lemma CalmHasReturned(s: State, s': State, k: JobKey, d: int, k': JobKey)
    requires Rests(s, s', k, d) && k' in s'.jobs && k'.node != k.node && k'.node in s.results
    requires k' in s.jobs ==> JobCalm(s, k')
    ensures s'.jobs[k'].Returned? && s'.jobs[k'].r.Resolved()
  {
  }

  lemma LastResumed(wf: Workflow, s: State, s': State, k: JobKey, r: ExecutionResult, k2: JobKey, d: int, r2: ExecutionResult)
    requires Lingering(wf, s, k, r) && Rests(s, s', k2, d) && k2 in s.jobs && k2 != k && !k2.Resumed?
    requires PrimaryKey(wf, k2.node) == k2 && forall k' :: k' in s.jobs && k'.node == k2.node ==> k' == k2
    requires k2.node !in s.results && FindNode(wf.nodes, k2.node).Some? && r2.success && r2.nextNodes.None?
    requires Leads(wf, WithPc(s', Resumed(k2.node), WriteResult(r2)))
    ensures WritingLast(wf, s', k, r, Resumed(k2.node), r2, false)
  {
    hide Leads, PrimaryKey, FindNode, DelayedMarker, OthersReturned;
    RestsOthers(s, s', k, k2, d);
  }

  lemma RestsOthers(s: State, s': State, k: JobKey, k2: JobKey, d: int)
    requires Rests(s, s', k2, d) && k2 in s.jobs && !k2.Resumed?
    requires forall k' :: k' in s.jobs && k'.node == k2.node ==> k' == k2
    requires forall k' :: k' in s.jobs && k' != k ==> JobCalm(s, k')
    ensures OthersReturned(s', k, Resumed(k2.node))
  {
    RestsJobs(s, s', k2, d);
    hide Rests, JobCalm;
    forall k' | k' in s'.jobs && k' != k && k'.node in s.results && k'.node != k2.node
      ensures s'.jobs[k'].Returned? && s'.jobs[k'].r.Resolved()
    {
      CalmHasReturned(s, s', k2, d, k');
    }
  }

  lemma LastDelay(wf: Workflow, s: State, k: JobKey, r: ExecutionResult, k2: JobKey, node: Node) returns (s': State)
    requires Runnable(wf) && Own(wf, s) && Lingering(wf, s, k, r) && CanStart(wf, s, k2, node) && node.kind.Delay?
    requires ValidDuration(DelayOf(node)) && k2 != k && !k2.Resumed?
    requires PrimaryKey(wf, k2.node) == k2 && forall k' :: k' in s.jobs && k'.node == k2.node ==> k' == k2
    ensures WritingLast(wf, s', k, r, Resumed(k2.node), DelayOutput(s', node), false) && s'.results == s.results
  {
    var d := DelayOf(node).value;
    s' := HandedOn(s, k2, d);
    RunnableIsLinked(wf);
    OnlyPrimaryWaits(wf, s, k2, node);
    assert Leads(wf, s) && k2 in s.jobs && k2.node !in s.results && s.lock.None?;
    hide Runnable, Own, Leads, PlainIds, NoRoot, PrimaryKey, FindNode, HandedOn, DelayOutput, Rests, WellLinked, Taken, Lingering, CanStart, WritingLast;
    HandOn(wf, s, k2, node, d);
    ResumeIsNew(wf, s, k2, node);
    HandedOnRests(s, k2, d);
    RestsCanStart(wf, s, s', k2, node, d);
    RestsJobs(s, s', k2, d);
    Resumption(wf, s', Resumed(k2.node), node);
    DelayOutputSucceeds(s', node);
    LastResumed(wf, s, s', k, r, k2, d, DelayOutput(s', node));
  }

  lemma NoResultYet(wf: Workflow, s: State, k: JobKey, node: Node)
    requires CanStart(wf, s, k, node)
    ensures k.node !in s.results
  {
  }

  lemma ToLastWrite(wf: Workflow, s: State, k: JobKey, r: ExecutionResult, k2: JobKey)
    returns (s': State, k2': JobKey, r2: ExecutionResult)
    requires Runnable(wf) && Lingering(wf, s, k, r) && k2 in s.jobs && s.jobs[k2].Waiting?
    ensures WritingLast(wf, s', k, r, k2', r2, false) && k2'.node !in s.results && s'.results == s.results
  {
    hide Runnable, Own, Leads, PrimaryKey, FindNode, Lingering, WritingLast, CanStart;
    var node := LingeringJob(wf, s, k, r, k2);
    NoResultYet(wf, s, k2, node);
    if node.kind.Regular? {
      LastRegular(wf, s, k, r, k2, node);
      s', k2', r2 := s, k2, DONE;
    } else {
      s' := LastDelay(wf, s, k, r, k2, node);
      k2', r2 := Resumed(k2.node), DelayOutput(s', node);
    }
  }

  lemma PcsSwap(s: State, k: JobKey, k2: JobKey, pc: Pc, pc2: Pc)
    requires k != k2
    ensures WithPc(WithPc(s, k2, pc2), k, pc) == WithPc(WithPc(s, k, pc), k2, pc2)
  {
    assert s.jobs[k2 := Active(pc2)][k := Active(pc)] == s.jobs[k := Active(pc)][k2 := Active(pc2)];
  }

  lemma PcStays(s: State, k: JobKey, pc: Pc)
    requires k in s.jobs && s.jobs[k] == Active(pc)
    ensures WithPc(s, k, pc) == s
  {
    assert s.jobs[k := Active(pc)] == s.jobs;
  }

  /** The first worker takes the lock, counts too early, and is about to release the lock. */
  function Counting(s: State, k: JobKey, r: ExecutionResult): State {
    WithPc(s.(lock := Some(k)), k, Unlock(r))
  }

  lemma CountLeads(wf: Workflow, s: State, k: JobKey, r: ExecutionResult, k2: JobKey, r2: ExecutionResult)
    requires WritingLast(wf, s, k, r, k2, r2, false) && |s.results| != |wf.nodes|
    ensures Leads(wf, WithPc(Counting(s, k, r), k2, WriteResult(r2)))
  {
    var u := WithPc(s, k2, WriteResult(r2));
    PcStays(u, k, Releasing(r, []));
    UpToUnlock(wf, u, k, r);
    PcsSwap(s.(lock := Some(k)), k, k2, Unlock(r), WriteResult(r2));
    hide Leads, FindNode, PrimaryKey;
  }

  lemma CountsTooEarly(wf: Workflow, s: State, k: JobKey, r: ExecutionResult, k2: JobKey, r2: ExecutionResult)
    requires WritingLast(wf, s, k, r, k2, r2, false) && |s.results| != |wf.nodes|
    ensures WritingLast(wf, Counting(s, k, r), k, r, k2, r2, true) && Counting(s, k, r).results == s.results
  {
    CountLeads(wf, s, k, r, k2, r2);
    hide Leads, FindNode, PrimaryKey;
  }

  // ------------------------------------------------------- it gives up

  lemma GiveUpSteps(wf: Workflow, s: State, k: JobKey, r: ExecutionResult)
    requires k in s.jobs && FindNode(wf.nodes, k.node).Some? && s.lock.Some?
    ensures CanTake(wf, WithPc(s, k, Releasing(r, [])), Proceed(k), WithPc(s, k, AcquireLock(r)))
    ensures CanTake(wf, WithPc(s, k, AcquireLock(r)), Proceed(k), WithPc(s, k, Finish(r)))
  {
    hide FindNode;
  }

  lemma GivesUp(wf: Workflow, s: State, k: JobKey, r: ExecutionResult)
    requires Leads(wf, WithPc(s, k, Releasing(r, []))) && k in s.jobs && FindNode(wf.nodes, k.node).Some? && s.lock.Some?
    ensures Leads(wf, WithJob(s, k, Returned(r)))
  {
    GiveUpSteps(wf, s, k, r);
    ReturnStep(wf, s, k, r);
    hide Leads, CanTake, FindNode, WithPc, WithJob;
    ThenTo(wf, WithPc(s, k, Releasing(r, [])), Proceed(k), WithPc(s, k, AcquireLock(r)));
    ThenTo(wf, WithPc(s, k, AcquireLock(r)), Proceed(k), WithPc(s, k, Finish(r)));
    ThenTo(wf, WithPc(s, k, Finish(r)), Proceed(k), WithJob(s, k, Returned(r)));
  }

  /** The last worker has given up, the other has released the lock, and both have returned. */
  function Missed(wf: Workflow, s: State, k: JobKey, r: ExecutionResult, k2: JobKey, r2: ExecutionResult): State {
    WithJob(WithJob(Handed(wf, s, k2, r2), k2, Returned(r2)).(lock := None), k, Returned(r))
  }

  lemma StillHeld(s: State, k: JobKey, r: ExecutionResult)
    requires s.lock == Some(k) && k in s.jobs && s.jobs[k] == Active(Unlock(r))
    ensures s == WithPc(s.(lock := None).(lock := Some(k)), k, Unlock(r))
  {
    assert s.jobs[k := Active(Unlock(r))] == s.jobs;
  }

  lemma HandedKeeps(wf: Workflow, s: State, k: JobKey, r: ExecutionResult, k2: JobKey, r2: ExecutionResult)
    requires WritingLast(wf, s, k, r, k2, r2, true)
    ensures var s' := WithJob(Handed(wf, s, k2, r2), k2, Returned(r2));
      s'.lock == Some(k) && k in s'.jobs && s'.jobs[k] == Active(Unlock(r)) && Handed(wf, s, k2, r2).lock.Some?
  {
    ReleasedKeeps(wf, WithResult(s, k2.node, r2), OutputsOf(wf, k2.node));
    hide Released, OutputsOf, Leads, PrimaryKey, FindNode;
  }

  lemma LastLeads(wf: Workflow, s: State, k: JobKey, r: ExecutionResult, k2: JobKey, r2: ExecutionResult)
    requires WritingLast(wf, s, k, r, k2, r2, true)
    ensures Leads(wf, Missed(wf, s, k, r, k2, r2))
  {
    HandedKeeps(wf, s, k, r, k2, r2);
    WriteAndLook(wf, s, k2, r2);
    hide Leads, Handed, FindNode;
    GivesUp(wf, Handed(wf, s, k2, r2), k2, r2);
    var s' := WithJob(Handed(wf, s, k2, r2), k2, Returned(r2));
    StillHeld(s', k, r);
    FromUnlock(wf, s'.(lock := None), k, r);
  }

  /** What the last two workers change. */
  ghost predicate Follows(s: State, s': State, k: JobKey, r: ExecutionResult, k2: JobKey, r2: ExecutionResult) {
    && s'.results == s.results[k2.node := r2] && s'.status == Running && !s'.cancelling && s'.starting == []
    && k in s'.jobs && k2 in s'.jobs && s'.jobs[k] == Returned(r) && s'.jobs[k2] == Returned(r2)
    && (forall k' :: k' in s.jobs ==> k' in s'.jobs && (k' != k && k' != k2 ==> s'.jobs[k'] == s.jobs[k']))
    && (forall k' :: k' in s'.jobs && k' !in s.jobs ==> k'.Child?)
  }

  lemma MissedFollows(wf: Workflow, s: State, k: JobKey, r: ExecutionResult, k2: JobKey, r2: ExecutionResult)
    requires WritingLast(wf, s, k, r, k2, r2, true)
    ensures Follows(s, Missed(wf, s, k, r, k2, r2), k, r, k2, r2)
  {
    ReleasedKeeps(wf, WithResult(s, k2.node, r2), OutputsOf(wf, k2.node));
    hide Released, OutputsOf, Leads, PrimaryKey, FindNode, Ready;
  }

  lemma AllResults(wf: Workflow, s: State)
    requires Runnable(wf) && Own(wf, s) && |s.results| == |wf.nodes|
    ensures forall k :: k in s.jobs ==> k.node in s.results
  {
    RunnableIsLinked(wf);
    LinkedIsAccepted(wf);
    OwnIsContained(wf, s);
    hide Runnable, Own, WellLinked, Accepted;
    CountIsComplete(wf, s);
    forall k | k in s.jobs ensures k.node in s.results {
      JobsAreOwn(wf, s);
      hide Contained, KeyOk;
      KeyIsNode(wf, k);
    }
  }

  lemma NothingNew(wf: Workflow, s: State, s': State, k: JobKey, r: ExecutionResult, k2: JobKey, r2: ExecutionResult, k': JobKey)
    requires Runnable(wf) && WritingLast(wf, s, k, r, k2, r2, true) && Follows(s, s', k, r, k2, r2) && Own(wf, s')
    requires k' in s'.jobs && k'.node in s'.results
    ensures k' in s.jobs
  {
    hide Runnable, WellLinked, Leads, Own, PrimaryKey, FindNode;
    RunnableIsLinked(wf);
    if k' !in s.jobs {
      NewJobHasNoResult(wf, s, s', k');
    }
  }

  lemma AllReturned(wf: Workflow, s: State, s': State, k: JobKey, r: ExecutionResult, k2: JobKey, r2: ExecutionResult, k': JobKey)
    requires WritingLast(wf, s, k, r, k2, r2, true) && Follows(s, s', k, r, k2, r2)
    requires k' in s.jobs && k'.node in s'.results
    ensures s'.jobs[k'].Returned? && s'.jobs[k'].r.Resolved()
  {
    hide Leads, PrimaryKey, FindNode;
  }

  lemma MissedIsDrained(wf: Workflow, s: State, k: JobKey, r: ExecutionResult, k2: JobKey, r2: ExecutionResult)
    requires Runnable(wf) && WritingLast(wf, s, k, r, k2, r2, true) && k2.node !in s.results && |s.results| + 1 == |wf.nodes|
    ensures var s' := Missed(wf, s, k, r, k2, r2); Leads(wf, s') && Drained(s') && s'.status == Running
  {
    hide Runnable, Leads, Missed, Own, Accounted, WritingLast;
    var s' := Missed(wf, s, k, r, k2, r2);
    LastLeads(wf, s, k, r, k2, r2);
    MissedFollows(wf, s, k, r, k2, r2);
    LeadsWhere(wf, s');
    OneMore(s.results, k2.node, r2);
    AllResults(wf, s');
    forall k' | k' in s'.jobs ensures s'.jobs[k'].Returned? && s'.jobs[k'].r.Resolved() {
      NothingNew(wf, s, s', k, r, k2, r2, k');
      AllReturned(wf, s, s', k, r, k2, r2, k');
    }
  }

  // ------------------------------------------------------------ whole runs

  /** Nodes are processed one after the other until two are left. */
  lemma {:induction false} UntilTwo(wf: Workflow, s: State) returns (s': State, k: JobKey, r: ExecutionResult)
    requires Runnable(wf) && Leads(wf, s) && Calm(wf, s) && |s.results| + 2 <= |wf.nodes|
    ensures Writing(wf, s', k, r) && |s'.results| + 2 == |wf.nodes| && |s'.results[k.node := r]| == |s'.results| + 1
    decreases |wf.nodes| - |s.results|
  {
    hide Runnable, Leads, Calm, Writing, Processed;
    var k0 := SomeWaiting(wf, s);
    s', k, r := ToWrite(wf, s, k0);
    Counted(wf, s, k0, r);
    if |s.results| + 2 < |wf.nodes| {
      WriteOut(wf, s', k, r);
      s', k, r := UntilTwo(wf, Processed(wf, s', k, r));
    }
  }

  lemma SomeWaiting(wf: Workflow, s: State) returns (k: JobKey)
    requires Runnable(wf) && Leads(wf, s) && Calm(wf, s) && |s.results| < |wf.nodes|
    ensures k in s.jobs && s.jobs[k].Waiting?
  {
    hide Runnable, Leads, Calm;
    k := Entry("");
    if k' :| k' in s.jobs && s.jobs[k'].Waiting? {
      k := k';
    } else {
      NoneWaiting(wf, s);
    }
  }

  lemma WaitingIsHeld(wf: Workflow, s: State, k: JobKey, r: ExecutionResult) returns (k2: JobKey)
    requires Runnable(wf) && Writing(wf, s, k, r) && |s.results[k.node := r]| < |wf.nodes|
    ensures k2 in Held(wf, s, k, r).jobs && Held(wf, s, k, r).jobs[k2].Waiting?
  {
    hide Runnable, Leads, Calm, Writing, Processed, Held;
    WriteOut(wf, s, k, r);
    HeldIs(wf, s, k, r);
    k2 := SomeWaiting(wf, Processed(wf, s, k, r));
  }

  /** Nothing is queued or active. */
  ghost predicate Idle(s: State) {
    s.starting == [] && forall k :: k in s.jobs ==> s.jobs[k].Returned?
  }

  lemma IdleStep(wf: Workflow, s: State, a: Action)
    requires Idle(s) && s.status != Completed && Enabled(wf, s, a)
    ensures Idle(Apply(wf, s, a)) && Apply(wf, s, a).status != Completed && Apply(wf, s, a).hist.added == s.hist.added
  {
    QueueChanges(wf, s, a);
    StartingChanges(wf, s, a);
    WhoChanges(wf, s, a);
    assert !AddOf(wf, s, a).Adds? && forall k :: !Moves(a, k);
    hide Apply, Enabled, AddOf;
  }

  /** An execution that was not completed when everything had returned never is, and no job is added. */
  lemma {:induction false} MissedForGood(wf: Workflow, states: seq<State>, steps: seq<Action>, i: nat, j: nat)
    requires IsRun(wf, states, steps) && i <= j < |states| && Idle(states[i]) && states[i].status != Completed
    ensures Idle(states[j]) && states[j].status != Completed && states[j].hist.added == states[i].hist.added
    decreases j
  {
    hide Apply, Enabled, Idle;
    if i < j {
      MissedForGood(wf, states, steps, i, j - 1);
      IdleStep(wf, states[j-1], steps[j-1]);
    }
  }

  /**
   * The completion check can be missed: a workflow of at least two nodes has a run without any
   * failure in which a worker counts before the last result is written, the last worker does
   * not get the lock, and all jobs return with all results there and nobody left to count. No
   * time passes while the lock is held.
   */
  lemma CanMissCompletion(wf: Workflow) returns (states: seq<State>, steps: seq<Action>)
    requires Runnable(wf) && |wf.nodes| >= 2
    ensures IsRun(wf, states, steps) && Drained(states[|steps|]) && states[|steps|].status == Running
    ensures (forall i :: 0 <= i < |steps| ==> Peaceful(steps[i])) && NoTimeLocked(states, steps)
    ensures forall n :: n in Ids(wf.nodes) ==> ResolvedIn(states[|steps|].results, n)
  {
    var s0 := Started(wf);
    assert |s0.results| == 0;
    hide Runnable, Calm, Drained, Writing, WritingLast, Held, Lingering, Leads, Missed, Counting;
    var s, k, r := UntilTwo(wf, s0);
    NowLingering(wf, s, k, r);
    var k2 := WaitingIsHeld(wf, s, k, r);
    HeldIs(wf, s, k, r);
    var s', k2', r2 := ToLastWrite(wf, Held(wf, s, k, r), k, r, k2);
    CountsTooEarly(wf, s', k, r, k2', r2);
    s' := Counting(s', k, r);
    MissedIsDrained(wf, s', k, r, k2', r2);
    LeadsDrained(wf, Missed(wf, s', k, r, k2', r2));
    states, steps := RunTo(wf, Missed(wf, s', k, r, k2', r2));
  }
}
