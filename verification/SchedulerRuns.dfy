/** Building runs: what an undisturbed worker does with one job, and that executions can complete. */
module SchedulerRuns {
  import opened Graphs
  import opened Workflows
  import opened GraphValidation
  import opened JobIds
  import opened NodeInputs
  import opened Scheduler
  import opened SchedulerEffects
  import opened SchedulerContainment
  import opened SchedulerIds
  import opened SchedulerOnce
  import opened SchedulerOrder
  import opened SchedulerJoin
  import opened SchedulerDrain

  /** The steps of engine and workers when nothing goes wrong, and time passing. */
  predicate Peaceful(a: Action) {
    a.EnqueueEntry? || a.Begin? || a.Proceed? || a.ExecutorReturns? || a.Tick?
  }

  /** A peaceful run leads from the initial state to this one. */
  ghost predicate Leads(wf: Workflow, s: State) {
    exists states, steps :: IsPeacefulRun(wf, states, steps, s)
  }

  ghost predicate IsPeacefulRun(wf: Workflow, states: seq<State>, steps: seq<Action>, s: State) {
    && IsRun(wf, states, steps) && states[|steps|] == s
    && (forall i :: 0 <= i < |steps| ==> Peaceful(steps[i]))
    && NoTimeLocked(states, steps)
  }

  /** No time passes while a worker holds the completion lock. */
  ghost predicate NoTimeLocked(states: seq<State>, steps: seq<Action>) {
    |states| == |steps| + 1 && forall i :: 0 <= i < |steps| && steps[i].Tick? ==> states[i].lock.None?
  }

  lemma LeadsInit(wf: Workflow)
    ensures Leads(wf, Init(wf))
  {
    assert IsPeacefulRun(wf, [Init(wf)], [], Init(wf));
  }

  lemma Then(wf: Workflow, s: State, a: Action)
    requires Leads(wf, s) && Enabled(wf, s, a) && Peaceful(a) && (a.Tick? ==> s.lock.None?)
    ensures Leads(wf, Apply(wf, s, a))
  {
    hide Apply, Enabled;
    var states, steps :| IsPeacefulRun(wf, states, steps, s);
    assert IsPeacefulRun(wf, states + [Apply(wf, s, a)], steps + [a], Apply(wf, s, a));
  }

  lemma RunTo(wf: Workflow, s: State) returns (states: seq<State>, steps: seq<Action>)
    requires Leads(wf, s)
    ensures IsPeacefulRun(wf, states, steps, s)
    ensures IsRun(wf, states, steps) && states[|steps|] == s && forall i :: 0 <= i < |steps| ==> Peaceful(steps[i])
  {
    states, steps :| IsPeacefulRun(wf, states, steps, s);
  }

  lemma OneStepMore(wf: Workflow, s: State, a: Action) returns (states: seq<State>, steps: seq<Action>)
    requires Leads(wf, s) && Enabled(wf, s, a)
    ensures IsRun(wf, states, steps) && states[|steps|] == Apply(wf, s, a)
    ensures steps != [] && steps[|steps|-1] == a && states[|steps|-1] == s && forall i :: 0 <= i < |steps| - 1 ==> Peaceful(steps[i])
  {
    hide Leads, Enabled, Apply, Peaceful;
    states, steps := RunTo(wf, s);
    states, steps := states + [Apply(wf, s, a)], steps + [a];
  }

  // --------------------------------------------------- one job, step by step

  ghost predicate CanTake(wf: Workflow, s: State, a: Action, s': State) {
    Enabled(wf, s, a) && Peaceful(a) && (a.Tick? ==> s.lock.None?) && Apply(wf, s, a) == s'
  }

  lemma ThenTo(wf: Workflow, s: State, a: Action, s': State)
    requires Leads(wf, s) && CanTake(wf, s, a, s')
    ensures Leads(wf, s')
  {
    hide Apply, Enabled, Leads;
    Then(wf, s, a);
  }

  /** A running execution, a job of a node without a result ready to start. */
  ghost predicate CanStart(wf: Workflow, s: State, k: JobKey, node: Node) {
    && k in s.jobs && s.jobs[k].Waiting? && s.jobs[k].readyAt <= s.now
    && s.status == Running && k.node !in s.results && k.node != ROOT_NODE
    && FindNode(wf.nodes, k.node) == Some(node)
  }

  lemma FirstSteps(wf: Workflow, s: State, k: JobKey, node: Node)
    requires CanStart(wf, s, k, node) && (node.kind.Delay? ==> ValidDuration(DelayOf(node)))
    ensures CanTake(wf, s, Begin(k), WithPc(s, k, ReadOwn))
    ensures CanTake(wf, WithPc(s, k, ReadOwn), Proceed(k), WithPc(s, k, ReadStatus))
    ensures CanTake(wf, WithPc(s, k, ReadStatus), Proceed(k), WithPc(s, k, Route(k, node)))
  {
    hide FindNode, DelayOf, Route, Taken;
  }

  /** Any job of a node without a result gets past the status gate. */
  lemma PastTheGate(wf: Workflow, s: State, k: JobKey, node: Node)
    requires Leads(wf, s) && CanStart(wf, s, k, node) && (node.kind.Delay? ==> ValidDuration(DelayOf(node)))
    ensures Leads(wf, WithPc(s, k, Route(k, node)))
  {
    hide Leads, CanTake, CanStart, Route, DelayOf;
    FirstSteps(wf, s, k, node);
    ThenTo(wf, s, Begin(k), WithPc(s, k, ReadOwn));
    ThenTo(wf, WithPc(s, k, ReadOwn), Proceed(k), WithPc(s, k, ReadStatus));
    ThenTo(wf, WithPc(s, k, ReadStatus), Proceed(k), WithPc(s, k, Route(k, node)));
  }

  const DONE := SuccessResult(None)

  lemma UpToExecutor(wf: Workflow, s: State, k: JobKey, node: Node)
    requires Leads(wf, s) && CanStart(wf, s, k, node) && node.kind.Regular?
    ensures Leads(wf, WithPc(s, k, Execute))
  {
    PastTheGate(wf, s, k, node);
  }

  lemma ExecutorStep(wf: Workflow, s: State, k: JobKey, node: Node, r: ExecutionResult)
    requires CanStart(wf, s, k, node) && node.kind.Regular? && !r.skipped
    ensures CanTake(wf, WithPc(s, k, Execute), ExecutorReturns(k, r), WithPc(s, k, WriteResult(r)))
  {
    hide FindNode, Taken;
  }

  /** A regular node's executor returns. */
  lemma ExecutionReturns(wf: Workflow, s: State, k: JobKey, node: Node, r: ExecutionResult)
    requires Leads(wf, s) && CanStart(wf, s, k, node) && node.kind.Regular? && !r.skipped
    ensures Leads(wf, WithPc(s, k, WriteResult(r)))
  {
    hide Leads, CanTake, CanStart;
    UpToExecutor(wf, s, k, node);
    ExecutorStep(wf, s, k, node, r);
    ThenTo(wf, WithPc(s, k, Execute), ExecutorReturns(k, r), WithPc(s, k, WriteResult(r)));
  }

  lemma Execution(wf: Workflow, s: State, k: JobKey, node: Node)
    requires Leads(wf, s) && CanStart(wf, s, k, node) && node.kind.Regular?
    ensures Leads(wf, WithPc(s, k, WriteResult(DONE)))
  {
    ExecutionReturns(wf, s, k, node, DONE);
  }

  /** The first entry job is in the queue, with this timestamp in its id. */
  function FirstQueued(wf: Workflow, d: Id, timestamp: string): State
    requires EntryNodes(wf) != []
  {
    State(0, EntryNodes(wf)[1..], map[], Running, map[Entry(d) := Waiting(0)], map[d := timestamp], None, false,
          History({Entry(d)}, {}, {}, map[]))
  }

  lemma QueueFirst(wf: Workflow, d: Id, timestamp: string)
    requires EntryNodes(wf) != [] && EntryNodes(wf)[0] == d && IsDigits(timestamp)
    ensures Leads(wf, FirstQueued(wf, d, timestamp))
  {
    assert CanTake(wf, Init(wf), EnqueueEntry(timestamp), FirstQueued(wf, d, timestamp));
    hide Leads, CanTake;
    LeadsInit(wf);
    ThenTo(wf, Init(wf), EnqueueEntry(timestamp), FirstQueued(wf, d, timestamp));
  }

  lemma FirstCanStart(wf: Workflow, d: Id, timestamp: string)
    requires EntryNodes(wf) != [] && FindNode(wf.nodes, d).Some? && d != ROOT_NODE
    ensures CanStart(wf, FirstQueued(wf, d, timestamp), Entry(d), FindNode(wf.nodes, d).value)
  {
    hide EntryNodes, FindNode;
  }

  // ------------------------------------------------------- releasing children

  /** The queue after all of these outputs were looked at. */
  function Released(wf: Workflow, s: State, outputs: seq<Id>): State
    decreases |outputs|
  {
    if outputs == [] then s
    else Released(wf, if Ready(wf, s.results, outputs[0]) then WithAdded(s, Child(outputs[0]), s.now) else s, outputs[1..])
  }

  lemma SameKeysTaken(stamps: map<Id, string>, jobs: map<JobKey, JobState>, jobs': map<JobKey, JobState>, k: JobKey)
    requires jobs.Keys == jobs'.Keys
    ensures Taken(stamps, jobs, k) == Taken(stamps, jobs', k)
  {
    hide JobIdOf;
    if Taken(stamps, jobs, k) {
      var k' :| k' in jobs && JobIdOf(stamps, k') == JobIdOf(stamps, k);
      assert k' in jobs';
    }
    if Taken(stamps, jobs', k) {
      var k' :| k' in jobs' && JobIdOf(stamps, k') == JobIdOf(stamps, k);
      assert k' in jobs;
    }
  }

  /** Adding a job and moving another one can change places. */
  lemma AddThenMove(s: State, k: JobKey, pc: Pc, added: JobKey, t: int)
    requires k in s.jobs
    ensures WithAdded(WithPc(s, k, pc), added, t) == WithPc(WithAdded(s, added, t), k, pc)
    ensures k in WithAdded(s, added, t).jobs
  {
    SameKeysTaken(s.stamps, s.jobs, s.jobs[k := Active(pc)], added);
    TakenBySelf(s.stamps, s.jobs, added);
    hide Taken;
    assert added != k ==> s.jobs[k := Active(pc)][added := Waiting(t)] == s.jobs[added := Waiting(t)][k := Active(pc)];
  }

  lemma MoveTwice(s: State, k: JobKey, pc: Pc, pc': Pc)
    ensures WithPc(WithPc(s, k, pc), k, pc') == WithPc(s, k, pc')
  {
  }

  lemma LookAtChild(wf: Workflow, s: State, k: JobKey, r: ExecutionResult, c: Id, rest: seq<Task>)
    requires k in s.jobs && FindNode(wf.nodes, k.node).Some?
    ensures CanTake(wf, WithPc(s, k, Releasing(r, [Consider(c, true)] + rest)), Proceed(k),
                  WithPc(s, k, Releasing(r, if Ready(wf, s.results, c) then [Enqueue(c)] + rest else rest)))
  {
    assert ([Consider(c, true)] + rest)[1..] == rest;
    hide FindNode, Ready;
  }

  lemma EnqueueChild(wf: Workflow, s: State, k: JobKey, r: ExecutionResult, c: Id, rest: seq<Task>)
    requires k in s.jobs && FindNode(wf.nodes, k.node).Some?
    ensures CanTake(wf, WithPc(s, k, Releasing(r, [Enqueue(c)] + rest)), Proceed(k),
                  WithPc(WithAdded(s, Child(c), s.now), k, Releasing(r, rest)))
  {
    var pc := Releasing(r, [Enqueue(c)] + rest);
    assert ([Enqueue(c)] + rest)[1..] == rest;
    AddThenMove(s, k, pc, Child(c), s.now);
    MoveTwice(WithAdded(s, Child(c), s.now), k, pc, Releasing(r, rest));
    hide FindNode, Ready, Taken, WithAdded;
  }

  lemma {:induction false} ReleaseAll(wf: Workflow, s: State, k: JobKey, r: ExecutionResult, outputs: seq<Id>)
    requires Leads(wf, WithPc(s, k, Releasing(r, Tasks(outputs, None)))) && k in s.jobs && FindNode(wf.nodes, k.node).Some?
    ensures Leads(wf, WithPc(Released(wf, s, outputs), k, Releasing(r, [])))
    ensures k in Released(wf, s, outputs).jobs
    decreases |outputs|
  {
    if outputs == [] {
      assert Tasks(outputs, None) == [];
    } else {
      hide Leads, CanTake, FindNode, WithPc, WithAdded, Ready;
      var c, rest := outputs[0], Tasks(outputs[1..], None);
      assert Tasks(outputs, None) == [Consider(c, true)] + rest;
      LookAtChild(wf, s, k, r, c, rest);
      EnqueueChild(wf, s, k, r, c, rest);
      AddThenMove(s, k, Releasing(r, []), Child(c), s.now);
      if Ready(wf, s.results, c) {
        ThenTo(wf, WithPc(s, k, Releasing(r, [Consider(c, true)] + rest)), Proceed(k), WithPc(s, k, Releasing(r, [Enqueue(c)] + rest)));
        ThenTo(wf, WithPc(s, k, Releasing(r, [Enqueue(c)] + rest)), Proceed(k), WithPc(WithAdded(s, Child(c), s.now), k, Releasing(r, rest)));
        ReleaseAll(wf, WithAdded(s, Child(c), s.now), k, r, outputs[1..]);
      } else {
        ThenTo(wf, WithPc(s, k, Releasing(r, [Consider(c, true)] + rest)), Proceed(k), WithPc(s, k, Releasing(r, rest)));
        ReleaseAll(wf, s, k, r, outputs[1..]);
      }
    }
  }

  // --------------------------------------------------------- completion check

  /** The status after a completion check that nobody disturbs. */
  function Concluded(wf: Workflow, s: State): State {
    if |wf.nodes| - |s.results| == 0 then s.(status := Guarded(s.status, Completed)) else s
  }

  lemma AcquireSteps(wf: Workflow, s: State, k: JobKey, r: ExecutionResult)
    requires k in s.jobs && FindNode(wf.nodes, k.node).Some? && s.lock.None?
    ensures CanTake(wf, WithPc(s, k, Releasing(r, [])), Proceed(k), WithPc(s, k, AcquireLock(r)))
    ensures CanTake(wf, WithPc(s, k, AcquireLock(r)), Proceed(k), WithPc(s.(lock := Some(k)), k, LockedStatus(r)))
  {
    hide FindNode;
  }

  lemma StatusRead(wf: Workflow, held: State, k: JobKey, r: ExecutionResult)
    requires k in held.jobs && FindNode(wf.nodes, k.node).Some? && !Terminal(held.status)
    ensures CanTake(wf, WithPc(held, k, LockedStatus(r)), Proceed(k), WithPc(held, k, LockedCount(r)))
  {
    hide FindNode;
  }

  lemma CountStep(wf: Workflow, held: State, k: JobKey, r: ExecutionResult)
    requires k in held.jobs && FindNode(wf.nodes, k.node).Some?
    ensures CanTake(wf, WithPc(held, k, LockedCount(r)), Proceed(k),
                  WithPc(held, k, if |wf.nodes| - |held.results| == 0 then LockedComplete(r) else Unlock(r)))
    ensures CanTake(wf, WithPc(held, k, LockedComplete(r)), Proceed(k),
                  WithPc(held.(status := Guarded(held.status, Completed)), k, Unlock(r)))
  {
    hide FindNode;
  }

  lemma LastSteps(wf: Workflow, s: State, k: JobKey, r: ExecutionResult)
    requires k in s.jobs && FindNode(wf.nodes, k.node).Some? && s.lock.None?
    ensures CanTake(wf, WithPc(s.(lock := Some(k)), k, Unlock(r)), Proceed(k), WithPc(s, k, Finish(r)))
    ensures CanTake(wf, WithPc(s, k, Finish(r)), Proceed(k), WithJob(s, k, Returned(r)))
  {
    hide FindNode;
  }

  /** Up to the release of the lock. */
  lemma UpToUnlock(wf: Workflow, s: State, k: JobKey, r: ExecutionResult)
    requires Leads(wf, WithPc(s, k, Releasing(r, [])))
    requires k in s.jobs && FindNode(wf.nodes, k.node).Some? && s.lock.None? && s.status == Running
    ensures Leads(wf, WithPc(Concluded(wf, s).(lock := Some(k)), k, Unlock(r)))
  {
    var held := s.(lock := Some(k));
    AcquireSteps(wf, s, k, r);
    StatusRead(wf, held, k, r);
    CountStep(wf, held, k, r);
    hide Leads, CanTake, FindNode, WithPc;
    ThenTo(wf, WithPc(s, k, Releasing(r, [])), Proceed(k), WithPc(s, k, AcquireLock(r)));
    ThenTo(wf, WithPc(s, k, AcquireLock(r)), Proceed(k), WithPc(held, k, LockedStatus(r)));
    ThenTo(wf, WithPc(held, k, LockedStatus(r)), Proceed(k), WithPc(held, k, LockedCount(r)));
    if |wf.nodes| - |s.results| == 0 {
      ThenTo(wf, WithPc(held, k, LockedCount(r)), Proceed(k), WithPc(held, k, LockedComplete(r)));
      ThenTo(wf, WithPc(held, k, LockedComplete(r)), Proceed(k), WithPc(Concluded(wf, s).(lock := Some(k)), k, Unlock(r)));
    } else {
      ThenTo(wf, WithPc(held, k, LockedCount(r)), Proceed(k), WithPc(Concluded(wf, s).(lock := Some(k)), k, Unlock(r)));
    }
  }

  /** The lock is released and the job returns. */
  lemma FromUnlock(wf: Workflow, s: State, k: JobKey, r: ExecutionResult)
    requires Leads(wf, WithPc(s.(lock := Some(k)), k, Unlock(r)))
    requires k in s.jobs && FindNode(wf.nodes, k.node).Some? && s.lock.None?
    ensures Leads(wf, WithJob(s, k, Returned(r)))
  {
    LastSteps(wf, s, k, r);
    hide Leads, CanTake, FindNode, WithPc, WithJob;
    ThenTo(wf, WithPc(s.(lock := Some(k)), k, Unlock(r)), Proceed(k), WithPc(s, k, Finish(r)));
    ThenTo(wf, WithPc(s, k, Finish(r)), Proceed(k), WithJob(s, k, Returned(r)));
  }

  // ------------------------------------------------------------- a whole job

  /** What a job leaves behind that writes a success without selecting a branch. */
  function Processed(wf: Workflow, s: State, k: JobKey, r: ExecutionResult): State {
    WithJob(Concluded(wf, Handed(wf, s, k, r)), k, Returned(r))
  }

  lemma {:induction false} ReleasedKeeps(wf: Workflow, s: State, outputs: seq<Id>)
    ensures var s' := Released(wf, s, outputs);
      && s'.results == s.results && s'.status == s.status && s'.lock == s.lock && s'.starting == s.starting
      && s'.cancelling == s.cancelling && s'.now == s.now && s'.stamps == s.stamps && s'.hist.resolved == s.hist.resolved
      && s'.hist.skipped == s.hist.skipped && s'.hist.delayStart == s.hist.delayStart
      && (forall k :: k in s.jobs ==> k in s'.jobs && s'.jobs[k] == s.jobs[k])
      && (forall k :: k in s'.jobs && k !in s.jobs ==>
            k.Child? && k.node in outputs && Ready(wf, s.results, k.node) && s'.jobs[k] == Waiting(s.now))
    decreases |outputs|
  {
    if outputs != [] {
      var c := outputs[0];
      var s1 := if Ready(wf, s.results, c) then WithAdded(s, Child(c), s.now) else s;
      TakenBySelf(s.stamps, s.jobs, Child(c));
      ReleasedKeeps(wf, s1, outputs[1..]);
      hide Ready, Taken;
    }
  }

  lemma WriteFirst(wf: Workflow, s: State, k: JobKey, r: ExecutionResult)
    requires k in s.jobs && FindNode(wf.nodes, k.node).Some? && r.success && r.nextNodes.None?
    ensures CanTake(wf, WithPc(s, k, WriteResult(r)), Proceed(k),
                  WithPc(WithResult(s, k.node, r), k, Releasing(r, Tasks(OutputsOf(wf, k.node), None))))
  {
    FindNodeId(wf, k.node);
    hide FindNode, Tasks;
  }

  /** What the write and the release of the children leave behind. */
  function Handed(wf: Workflow, s: State, k: JobKey, r: ExecutionResult): State {
    Released(wf, WithResult(s, k.node, r), OutputsOf(wf, k.node))
  }

  lemma WriteAndLook(wf: Workflow, s: State, k: JobKey, r: ExecutionResult)
    requires Leads(wf, WithPc(s, k, WriteResult(r)))
    requires k in s.jobs && FindNode(wf.nodes, k.node).Some? && r.success && r.nextNodes.None?
    ensures Leads(wf, WithPc(Handed(wf, s, k, r), k, Releasing(r, []))) && k in Handed(wf, s, k, r).jobs
  {
    var written := WithResult(s, k.node, r);
    WriteFirst(wf, s, k, r);
    hide Leads, CanTake, FindNode, WithPc, Released, Tasks, OutputsOf;
    ThenTo(wf, WithPc(s, k, WriteResult(r)), Proceed(k), WithPc(written, k, Releasing(r, Tasks(OutputsOf(wf, k.node), None))));
    ReleaseAll(wf, written, k, r, OutputsOf(wf, k.node));
  }

  lemma WriteAndRelease(wf: Workflow, s: State, k: JobKey, r: ExecutionResult)
    requires Leads(wf, WithPc(s, k, WriteResult(r)))
    requires k in s.jobs && FindNode(wf.nodes, k.node).Some? && s.lock.None? && s.status == Running
    requires r.success && r.nextNodes.None?
    ensures Leads(wf, Processed(wf, s, k, r))
  {
    var handed := Handed(wf, s, k, r);
    ReleasedKeeps(wf, WithResult(s, k.node, r), OutputsOf(wf, k.node));
    hide Leads, FindNode, WithPc, WithJob, Released, OutputsOf;
    WriteAndLook(wf, s, k, r);
    UpToUnlock(wf, handed, k, r);
    FromUnlock(wf, Concluded(wf, handed), k, r);
  }

  // ------------------------------------------------------------ a delay node

  /** The initial job has handed over and the delay is over. */
  function HandedOn(s: State, k: JobKey, duration: int): State {
    var s1 := WithJob(StartDelay(s, k.node, duration), k, Returned(DelayedMarker(s.now + duration, duration)));
    s1.(now := s1.now + duration)
  }

  lemma StartThenMove(s: State, k: JobKey, n: Id, d: int, pc: Pc)
    requires k in s.jobs
    ensures StartDelay(WithPc(s, k, pc), n, d) == WithPc(StartDelay(s, n, d), k, pc)
    ensures k in StartDelay(s, n, d).jobs
  {
    AddThenMove(s, k, pc, Resumed(n), s.now + d);
    hide WithAdded, FirstStart;
  }

  lemma StartOperation(wf: Workflow, s: State, k: JobKey, node: Node, d: int)
    requires DelayOf(node) == Some(d) && node.id == k.node
    ensures Effect(s, k, node, DelayEnqueue) == StartDelay(s, k.node, d)
    ensures NextJob(wf, s, k, node, DelayEnqueue) == Active(Finish(DelayedMarker(s.now + d, d)))
  {
    hide DelayOf, DelayedMarker, StartDelay;
  }

  lemma ProceedIs(wf: Workflow, s: State, k: JobKey, node: Node, pc: Pc)
    requires k in s.jobs && s.jobs[k] == Active(pc) && !pc.Execute? && FindNode(wf.nodes, k.node) == Some(node)
    requires pc.DelayEnqueue? ==> ValidDuration(DelayOf(node))
    ensures CanTake(wf, s, Proceed(k), WithJob(Effect(s, k, node, pc), k, NextJob(wf, s, k, node, pc)))
  {
    hide FindNode, DelayOf, Effect, NextJob;
  }

  lemma DelayStep(wf: Workflow, s: State, k: JobKey, node: Node, d: int)
    requires k in s.jobs && !k.Resumed? && FindNode(wf.nodes, k.node) == Some(node) && DelayOf(node) == Some(d) && d >= 0
    ensures CanTake(wf, WithPc(s, k, DelayEnqueue), Proceed(k),
                  WithPc(StartDelay(s, k.node, d), k, Finish(DelayedMarker(s.now + d, d))))
    ensures k in StartDelay(s, k.node, d).jobs
  {
    var s0, marker := WithPc(s, k, DelayEnqueue), DelayedMarker(s.now + d, d);
    hide FindNode, DelayOf, DelayedMarker, StartDelay, CanTake, Effect, NextJob, WithJob;
    FindNodeId(wf, k.node);
    StandsAt(s, k, DelayEnqueue);
    StartThenMove(s, k, k.node, d, DelayEnqueue);
    MoveTwice(StartDelay(s, k.node, d), k, DelayEnqueue, Finish(marker));
    StartOperation(wf, s0, k, node, d);
    ProceedIs(wf, s0, k, node, DelayEnqueue);
  }

  lemma StandsAt(s: State, k: JobKey, pc: Pc)
    ensures k in WithPc(s, k, pc).jobs && WithPc(s, k, pc).jobs[k] == Active(pc) && WithPc(s, k, pc).now == s.now
  {
  }

  lemma ReturnStep(wf: Workflow, s: State, k: JobKey, r: ExecutionResult)
    requires k in s.jobs && FindNode(wf.nodes, k.node).Some?
    ensures CanTake(wf, WithPc(s, k, Finish(r)), Proceed(k), WithJob(s, k, Returned(r)))
  {
    hide FindNode;
  }

  lemma TickStep(wf: Workflow, s: State, d: int)
    requires Leads(wf, s) && d >= 0 && s.lock.None?
    ensures Leads(wf, s.(now := s.now + d))
  {
    if d > 0 {
      hide Leads;
      Then(wf, s, Tick(d));
    } else {
      assert s.(now := s.now + d) == s;
    }
  }

  lemma DelayRoutes(wf: Workflow, s: State, k: JobKey, node: Node, d: int)
    requires CanStart(wf, s, k, node) && node.kind.Delay? && DelayOf(node) == Some(d) && d >= 0
    ensures Route(k, node) == if k.Resumed? then ResumedStatus else DelayEnqueue
    ensures k in s.jobs && FindNode(wf.nodes, k.node) == Some(node)
  {
    hide FindNode;
  }

  lemma LockStays(s: State, k: JobKey, d: int, j: JobState)
    ensures WithJob(StartDelay(s, k.node, d), k, j).lock == s.lock
  {
  }

  /** The initial job asks for the resume job and returns the marker. */
  lemma Defer(wf: Workflow, s: State, k: JobKey, node: Node, d: int)
    requires Leads(wf, s) && CanStart(wf, s, k, node) && node.kind.Delay? && !k.Resumed?
    requires DelayOf(node) == Some(d) && d >= 0
    ensures Leads(wf, WithJob(StartDelay(s, k.node, d), k, Returned(DelayedMarker(s.now + d, d))))
  {
    hide Leads, CanTake, StartDelay, DelayedMarker, WithPc, WithJob, FindNode, DelayOf, CanStart, Route;
    var s1, marker := StartDelay(s, k.node, d), DelayedMarker(s.now + d, d);
    DelayRoutes(wf, s, k, node, d);
    PastTheGate(wf, s, k, node);
    DelayStep(wf, s, k, node, d);
    ReturnStep(wf, s1, k, marker);
    ThenTo(wf, WithPc(s, k, DelayEnqueue), Proceed(k), WithPc(s1, k, Finish(marker)));
    ThenTo(wf, WithPc(s1, k, Finish(marker)), Proceed(k), WithJob(s1, k, Returned(marker)));
  }

  /** And the delay passes. */
  lemma HandOn(wf: Workflow, s: State, k: JobKey, node: Node, d: int)
    requires Leads(wf, s) && CanStart(wf, s, k, node) && node.kind.Delay? && !k.Resumed?
    requires DelayOf(node) == Some(d) && d >= 0 && s.lock.None?
    ensures Leads(wf, HandedOn(s, k, d))
  {
    hide Leads, StartDelay, DelayedMarker, WithJob, FindNode, DelayOf, CanStart;
    Defer(wf, s, k, node, d);
    LockStays(s, k, d, Returned(DelayedMarker(s.now + d, d)));
    TickStep(wf, WithJob(StartDelay(s, k.node, d), k, Returned(DelayedMarker(s.now + d, d))), d);
  }

  lemma ResumeSteps(wf: Workflow, s: State, k: JobKey, node: Node)
    requires k in s.jobs && FindNode(wf.nodes, k.node) == Some(node) && s.status == Running
    ensures CanTake(wf, WithPc(s, k, ResumedStatus), Proceed(k), WithPc(s, k, ResumedGather))
    ensures CanTake(wf, WithPc(s, k, ResumedGather), Proceed(k), WithPc(s, k, WriteResult(DelayOutput(s, node))))
  {
    hide FindNode;
  }

  function DelayOutput(s: State, node: Node): ExecutionResult {
    SuccessResult(NodeInputData(Some(Obj(map[])), node.inputs, s.results))
  }

  /** A resumed delay job gathers what its inputs produced. */
  lemma Resumption(wf: Workflow, s: State, k: JobKey, node: Node)
    requires Leads(wf, s) && CanStart(wf, s, k, node) && node.kind.Delay? && k.Resumed? && ValidDuration(DelayOf(node))
    ensures Leads(wf, WithPc(s, k, WriteResult(DelayOutput(s, node))))
  {
    PastTheGate(wf, s, k, node);
    ResumeSteps(wf, s, k, node);
    hide Leads, CanTake, DelayOutput;
    ThenTo(wf, WithPc(s, k, ResumedStatus), Proceed(k), WithPc(s, k, ResumedGather));
    ThenTo(wf, WithPc(s, k, ResumedGather), Proceed(k), WithPc(s, k, WriteResult(DelayOutput(s, node))));
  }

  lemma DelayOutputSucceeds(s: State, node: Node)
    ensures DelayOutput(s, node).success && DelayOutput(s, node).nextNodes.None?
  {
  }
}
