/** What becomes of a job's result, failure or skip, in the terms of the store and the queue. */
module SchedulerLaws {
  import opened Graphs
  import opened Workflows
  import opened NodeInputs
  import opened Scheduler
  import opened SchedulerEffects
  import opened SchedulerContainment
  import opened SchedulerOrder
  import opened SchedulerDelay
  import opened SchedulerSelection

  /** A successful or skipped result. */
  predicate Good(results: map<Id, ExecutionResult>, n: Id) {
    n in results && (results[n].success || results[n].skipped)
  }

  // ------------------------------------------------ from one move to the next

  /** Between these states nobody moves the job, which is being processed. */
  ghost predicate Untouched(wf: Workflow, states: seq<State>, steps: seq<Action>, i: nat, j: nat, k: JobKey) {
    && IsRun(wf, states, steps) && i <= j < |states| && AtPc(states[i], k)
    && forall x :: i <= x < j ==> !Moves(steps[x], k)
  }

  lemma {:induction false} StandsStill(wf: Workflow, states: seq<State>, steps: seq<Action>, i: nat, j: nat, k: JobKey)
    requires Untouched(wf, states, steps, i, j, k)
    ensures AtPc(states[j], k) && states[j].jobs[k] == states[i].jobs[k]
    decreases j
  {
    hide Apply, Enabled;
    if i < j {
      StandsStill(wf, states, steps, i, j - 1, k);
      QueueChanges(wf, states[j-1], steps[j-1]);
    }
  }

  lemma Moved(wf: Workflow, states: seq<State>, steps: seq<Action>, j: nat, k: JobKey)
    requires IsRun(wf, states, steps) && j < |steps| && Moves(steps[j], k)
    ensures k in states[j].jobs && k in states[j+1].jobs && states[j+1] == Apply(wf, states[j], steps[j])
    ensures Enabled(wf, states[j], steps[j]) && states[j+1].jobs[k] == MovedJob(wf, states[j], steps[j], k)
  {
    JobMoves(wf, states[j], steps[j], k);
  }

  // ---------------------------------------------------- an executor's result

  lemma WriteMoves(wf: Workflow, s: State, k: JobKey, r: ExecutionResult)
    requires CanProceed(wf, s, k) && s.jobs[k].pc == WriteResult(r)
    ensures var s' := Apply(wf, s, Proceed(k));
      && s'.results == s.results[k.node := r] && s'.status == s.status && s'.jobs.Keys == s.jobs.Keys
      && (!r.success ==> s'.jobs[k] == Active(MarkFailed(r)))
      && (r.success ==> s'.jobs[k].Active? && s'.jobs[k].pc.Releasing? && s'.jobs[k].pc.r == r)
  {
    FindNodeId(wf, k.node);
    hide FindNode, Tasks;
  }

  lemma FailMoves(wf: Workflow, s: State, k: JobKey, r: ExecutionResult)
    requires CanProceed(wf, s, k) && s.jobs[k].pc == MarkFailed(r)
    ensures var s' := Apply(wf, s, Proceed(k));
      && s'.results == s.results && s'.status == (if s.status == Running then Failed else s.status)
      && s'.jobs == s.jobs[k := Active(Finish(r))]
  {
    hide FindNode;
  }

  /**
   * What the executor returns is what is stored for its node, by the job's next move; a failure
   * then fails the execution, if it is running, and no child is looked at.
   */
  lemma ExecutorResultIsStored(wf: Workflow, states: seq<State>, steps: seq<Action>, i: nat, j: nat, k: JobKey, r: ExecutionResult)
    requires IsRun(wf, states, steps) && i < j < |steps| && steps[i] == ExecutorReturns(k, r) && steps[j] == Proceed(k)
    requires forall x :: i < x < j ==> !Moves(steps[x], k)
    ensures states[j+1].results == states[j].results[k.node := r]
    ensures k in states[j+1].jobs && states[j+1].jobs[k].Active?
    ensures if r.success then ReleasesAt(states[j+1], k) && states[j+1].jobs[k].pc.r == r
            else states[j+1].jobs[k] == Active(MarkFailed(r))
  {
    Moved(wf, states, steps, i, k);
    assert states[i+1].jobs[k] == Active(WriteResult(r));
    StandsStill(wf, states, steps, i + 1, j, k);
    Moved(wf, states, steps, j, k);
    hide IsRun, MovedJob, Apply;
    WriteMoves(wf, states[j], k, r);
  }

  lemma FailedNodeFailsExecution(wf: Workflow, states: seq<State>, steps: seq<Action>, j: nat, k: JobKey, r: ExecutionResult)
    requires IsRun(wf, states, steps) && j < |steps| && steps[j] == Proceed(k) && AtPc(states[j], k) && states[j].jobs[k].pc == MarkFailed(r)
    ensures states[j+1].status == if states[j].status == Running then Failed else states[j].status
    ensures states[j+1].jobs == states[j].jobs[k := Active(Finish(r))] && states[j+1].results == states[j].results
  {
    Moved(wf, states, steps, j, k);
    hide IsRun, MovedJob, Apply;
    FailMoves(wf, states[j], k, r);
  }

  // ------------------------------------------------------------- exceptions

  /** How a failing node that continues on fail is recorded: as a success that selects no branch. */
  lemma ContinuedFailure(message: string)
    ensures var r := ContinueOnFailResult(message);
      && r.success && !r.skipped && r.nextNodes == None && r.error == Some(message)
      && r.data.Some? && r.data.value.Obj? && r.data.value.fields.Keys == {"error", "_metadata"}
      && r.data.value.fields["error"] == Str(message)
      && r.data.value.fields["_metadata"] == Obj(map["continuedOnFail" := Bool(true), "originalError" := Str(message)])
  {
    assert |"error"| != |"_metadata"|;
  }

  /** The handler of a node is running, or what it calls. */
  predicate InHandler(pc: Pc) {
    match pc
    case Execute => true
    case WriteResult(_) => true
    case MarkFailed(_) => true
    case Releasing(_, _) => true
    case AcquireLock(_) => true
    case LockedStatus(_) => true
    case LockedCount(_) => true
    case LockedComplete(_) => true
    case Unlock(_) => true
    case _ => false
  }

  /**
   * An exception becomes a result only for a node that continues on fail and only in its handler;
   * otherwise the job is retried at once, or is exhausted. A throw under the lock releases it.
   */
  lemma ThrowDecides(wf: Workflow, states: seq<State>, steps: seq<Action>, j: nat, k: JobKey, safe: bool, retry: bool)
    requires IsRun(wf, states, steps) && j < |steps| && steps[j] == Throw(k, safe, retry)
    ensures AtPc(states[j], k) && states[j+1].results == states[j].results && states[j+1].status == states[j].status
    ensures states[j+1].jobs == states[j].jobs[k :=
      if safe then Active(WriteResult(ContinueOnFailResult("Node execution failed")))
      else if retry then Waiting(states[j].now)
      else Exhausted(Unrecorded)]
    ensures safe ==> InHandler(states[j].jobs[k].pc) && FindNode(wf.nodes, k.node).Some? && FindNode(wf.nodes, k.node).value.kind == Regular(true)
    ensures var pc := states[j].jobs[k].pc;
      var underLock := pc.LockedStatus? || pc.LockedCount? || pc.LockedComplete?;
      states[j+1].lock == if underLock && states[j].lock == Some(k) then None else states[j].lock
  {
    assert Enabled(wf, states[j], steps[j]) && states[j+1] == Apply(wf, states[j], steps[j]);
    hide IsRun, FindNode, ContinueOnFailResult;
  }

  /**
   * After the last attempt the listener stores an error as the node's result and then fails the
   * execution, if it is running.
   */
  lemma ExhaustionIsRecorded(wf: Workflow, states: seq<State>, steps: seq<Action>, j: nat, k: JobKey)
    requires IsRun(wf, states, steps) && j < |steps| && steps[j] == RecordFailure(k)
    ensures k in states[j].jobs && states[j].jobs[k].Exhausted?
    ensures states[j].jobs[k].stage == Unrecorded ==>
      && states[j+1].results == states[j].results[k.node := ExecutionResult(false, None, Some("Node execution failed"), None, false)]
      && states[j+1].status == states[j].status && states[j+1].jobs == states[j].jobs[k := Exhausted(ResultRecorded)]
    ensures states[j].jobs[k].stage != Unrecorded ==>
      && states[j+1].results == states[j].results && states[j+1].jobs == states[j].jobs[k := Exhausted(StatusRecorded)]
      && states[j+1].status == (if states[j].status == Running then Failed else states[j].status)
  {
    assert Enabled(wf, states[j], steps[j]) && states[j+1] == Apply(wf, states[j], steps[j]);
    hide IsRun;
  }

  /** The listener stores what a job returned, but not the marker of a delay. */
  lemma ReturnedIsStored(wf: Workflow, states: seq<State>, steps: seq<Action>, j: nat, k: JobKey)
    requires IsRun(wf, states, steps) && j < |steps| && steps[j] == CacheReturned(k)
    ensures k in states[j].jobs && states[j].jobs[k].Returned?
    ensures states[j+1].results == states[j].results[k.node := states[j].jobs[k].r]
    ensures states[j+1].jobs == states[j].jobs && states[j+1].status == states[j].status
    ensures forall t, d :: states[j].jobs[k].r != DelayedMarker(t, d)
  {
    assert Enabled(wf, states[j], steps[j]) && states[j+1] == Apply(wf, states[j], steps[j]);
    forall t, d ensures states[j].jobs[k].r != DelayedMarker(t, d) {
      MarkerIsDelayed(t, d);
    }
    hide IsRun, DelayedMarker;
  }

  lemma MarkerIsDelayed(t: int, d: int)
    ensures IsDelayedMarker(DelayedMarker(t, d))
  {
    assert |"delayed"| != |"duration"| && |"delayed"| != |"expectedResumeTime"|;
  }

  /** The marker says when the node resumes. Nothing else is taken for one. */
  lemma MarkerMeans(t: int, d: int, r: ExecutionResult)
    ensures var m := DelayedMarker(t, d);
      && m.success && !m.skipped && m.error == None && m.nextNodes == None && m.data.Some? && m.data.value.Obj?
      && m.data.value.fields.Keys == {"delayed", "expectedResumeTime", "duration"}
      && m.data.value.fields["delayed"] == Bool(true)
      && m.data.value.fields["expectedResumeTime"] == Num(t) && m.data.value.fields["duration"] == Num(d)
    ensures IsDelayedMarker(r) <==> match r.data
      case Some(Obj(fields)) => "delayed" in fields && fields["delayed"] == Bool(true)
      case _ => false
  {
    assert |"delayed"| != |"duration"| && |"delayed"| != |"expectedResumeTime"| && |"duration"| != |"expectedResumeTime"|;
  }

  /** What a job ends with is what it returns. */
  lemma FinishReturns(wf: Workflow, states: seq<State>, steps: seq<Action>, j: nat, k: JobKey, r: ExecutionResult)
    requires IsRun(wf, states, steps) && j < |steps| && steps[j] == Proceed(k) && AtPc(states[j], k) && states[j].jobs[k].pc == Finish(r)
    ensures states[j+1].jobs == states[j].jobs[k := Returned(r)] && states[j+1].results == states[j].results
    ensures states[j+1].status == states[j].status && states[j+1].lock == states[j].lock
  {
    assert Enabled(wf, states[j], steps[j]) && states[j+1] == Apply(wf, states[j], steps[j]);
    hide IsRun, FindNode;
  }

  /**
   * Entry and child jobs are ready at once; the engine adds the first, and a job that goes through
   * the children of a finished node the second. A job with a free id is indeed added.
   */
  lemma AddedJobsAreReady(wf: Workflow, states: seq<State>, steps: seq<Action>, j: nat, k: JobKey, n: Id)
    requires IsRun(wf, states, steps) && j < |steps|
    ensures Child(n) !in states[j].jobs && Child(n) in states[j+1].jobs ==>
      states[j+1].jobs[Child(n)] == Waiting(states[j].now) && exists k :: EnqueuesChild(states[j], steps[j], k, n)
    ensures Entry(n) !in states[j].jobs && Entry(n) in states[j+1].jobs ==>
      states[j+1].jobs[Entry(n)] == Waiting(states[j].now) && steps[j].EnqueueEntry? && states[j].starting[..1] == [n]
    ensures EnqueuesChild(states[j], steps[j], k, n) && !Taken(states[j].stamps, states[j].jobs, Child(n)) ==>
      Child(n) in states[j+1].jobs && states[j+1].jobs[Child(n)] == Waiting(states[j].now)
  {
    var s, a := states[j], steps[j];
    assert Enabled(wf, s, a) && states[j+1] == Apply(wf, s, a);
    QueueChanges(wf, s, a);
    if Child(n) !in s.jobs && Child(n) in states[j+1].jobs {
      assert EnqueuesChild(s, a, a.k, n);
    }
    hide IsRun, Apply, Enabled, FindNode, Taken, CanProceed;
  }

  /** A job looks at its node's name first: the virtual root's success is returned whatever is stored. */
  lemma RootJobReturns(wf: Workflow, states: seq<State>, steps: seq<Action>, j: nat, k: JobKey)
    requires IsRun(wf, states, steps) && j < |steps| && steps[j] == Proceed(k) && AtPc(states[j], k) && states[j].jobs[k].pc.ReadOwn?
    requires k.node == "__root__"
    ensures var r := ExecutionResult(true, Some(Obj(map["message" := Str("Virtual root node")])), None, None, false);
      states[j+1].jobs == states[j].jobs[k := Active(Finish(r))]
    ensures states[j+1].results == states[j].results && states[j+1].status == states[j].status
  {
    assert Enabled(wf, states[j], steps[j]) && states[j+1] == Apply(wf, states[j], steps[j]);
    hide IsRun, FindNode;
  }

  // ------------------------------------------------------------------ skips

  /** A skip is stored as a successful, skipped result with null data, and all of the node's outputs are to be looked at. */
  lemma SkipReleasesAll(wf: Workflow, states: seq<State>, steps: seq<Action>, j: nat, c: Id)
    requires IsRun(wf, states, steps) && j < |steps| && SkippedAt(states[j], steps[j], c)
    ensures c in states[j+1].results && states[j+1].results == states[j].results[c := states[j+1].results[c]]
    ensures var r := states[j+1].results[c]; r.success && r.skipped && r.data == Some(Null) && r.error == None && r.nextNodes == None
    ensures ReleasesAt(states[j+1], steps[j].k) && states[j+1].status == states[j].status
    ensures FindNode(wf.nodes, c).Some? ==>
      forall o :: o in FindNode(wf.nodes, c).value.outputs ==> Consider(o, true) in Pending(states[j+1], steps[j].k)
  {
    var s, k := states[j], steps[j].k;
    assert Enabled(wf, s, steps[j]) && states[j+1] == Apply(wf, s, steps[j]);
    Moved(wf, states, steps, j, k);
    ResultEffect(wf, s, steps[j]);
    StatusChanges(wf, s, steps[j]);
    SkipTasks(wf, s, k, c);
    hide IsRun, Apply, FindNode, AfterTask;
  }

  lemma SkipTasks(wf: Workflow, s: State, k: JobKey, c: Id)
    requires ReleasesAt(s, k) && Pending(s, k) != [] && Pending(s, k)[0] == Consider(c, false)
    ensures forall o :: o in OutputsOf(wf, c) ==> Consider(o, true) in AfterTask(wf, s.results, Pending(s, k))
  {
    var outputs := OutputsOf(wf, c);
    hide OutputsOf;
    forall o | o in outputs ensures Consider(o, true) in AfterTask(wf, s.results, Pending(s, k)) {
      SkipsFromWrite(wf, outputs, None, o);
    }
    hide Tasks;
  }

  // ------------------------------------------------------------- the order

  /** A child's job exists only if each of the child's inputs had a successful or skipped result before. */
  lemma InputsCameFirst(wf: Workflow, states: seq<State>, steps: seq<Action>, i: nat, c: Id, m: Id)
    requires IsRun(wf, states, steps) && i < |states| && Child(c) in states[i].jobs
    requires FindNode(wf.nodes, c).Some? && m in FindNode(wf.nodes, c).value.inputs
    ensures exists j :: 0 <= j <= i && Good(states[j].results, m)
  {
    hide IsRun;
    DependencyOrder(wf, states, steps, i, c);
    var j :| 0 <= j <= i && ResolvedIn(states[j].results, m);
    assert Good(states[j].results, m);
  }

  /** The named entry if there is a node of that name, nothing if there is not; without a name all nodes without inputs. */
  lemma EntriesAre(wf: Workflow, e: Id)
    ensures e in EntryNodes(wf) <==>
      if wf.entryNodeId != "" then e == wf.entryNodeId && exists n :: n in wf.nodes && n.id == e
      else exists n :: n in wf.nodes && n.id == e && n.inputs == []
    ensures wf.entryNodeId != "" ==> |EntryNodes(wf)| <= 1
  {
    WithoutInputsAreNodes(wf.nodes, e);
  }

  lemma {:induction false} WithoutInputsLast(nodes: seq<Node>, last: Node)
    ensures WithoutInputs(nodes + [last]) == WithoutInputs(nodes) + if last.inputs == [] then [last.id] else []
  {
    if nodes == [] {
      assert nodes + [last] == [last] && WithoutInputs([last][1..]) == [];
    } else {
      WithoutInputsLast(nodes[1..], last);
      assert (nodes + [last])[1..] == nodes[1..] + [last];
    }
  }

  /** Without a name, each entry comes once for each time it is in the array, in the order of the array. */
  lemma {:induction false} EntriesInOrder(nodes: seq<Node>) returns (at: seq<int>)
    ensures |at| == |WithoutInputs(nodes)|
    ensures forall i :: 0 <= i < |at| ==> 0 <= at[i] < |nodes| && WithoutInputs(nodes)[i] == nodes[at[i]].id
    ensures forall i, j :: 0 <= i < j < |at| ==> at[i] < at[j]
    ensures forall x :: 0 <= x < |nodes| ==> (x in at <==> nodes[x].inputs == [])
  {
    at := [];
    if nodes != [] {
      var last := |nodes| - 1;
      at := EntriesInOrder(nodes[..last]);
      WithoutInputsLast(nodes[..last], nodes[last]);
      assert nodes == nodes[..last] + [nodes[last]];
      hide WithoutInputs;
      assert last !in at;
      if nodes[last].inputs == [] {
        at := at + [last];
      }
    }
  }

  /** A run starts with all entries to be enqueued and nothing else. */
  lemma StartsEmpty(wf: Workflow, states: seq<State>, steps: seq<Action>)
    requires IsRun(wf, states, steps)
    ensures states[0].starting == EntryNodes(wf) && states[0].results == map[] && states[0].jobs == map[]
    ensures states[0].status == Running && states[0].lock == None && !states[0].cancelling
  {
  }

  /** Only a waiting job whose time has come is started. */
  lemma StartsWhenReady(wf: Workflow, states: seq<State>, steps: seq<Action>, j: nat, k: JobKey)
    requires IsRun(wf, states, steps) && j < |steps| && steps[j] == Begin(k)
    ensures k in states[j].jobs && states[j].jobs[k].Waiting? && states[j].jobs[k].readyAt <= states[j].now
    ensures states[j+1].jobs == states[j].jobs[k := Active(ReadOwn)] && states[j+1].results == states[j].results
  {
    assert Enabled(wf, states[j], steps[j]) && states[j+1] == Apply(wf, states[j], steps[j]);
    hide IsRun;
  }
}
