/** No lost join: a node whose inputs are all resolved is never forgotten. */
module SchedulerJoin {
  import opened Graphs
  import opened Workflows
  import opened GraphValidation
  import opened NodeInputs
  import opened Scheduler
  import opened SchedulerEffects
  import opened SchedulerContainment
  import opened SchedulerIds
  import opened SchedulerOnce
  import opened SchedulerOrder

  // ----------------------------------------------- what a job has recorded

  /** A job past its write, or with a resolved result to return, has it in the store. */
  predicate PcRecorded(resolved: bool, pc: Pc) {
    match pc
    case WriteResult(r) => r.skipped ==> r.success
    case MarkFailed(r) => !r.Resolved()
    case Releasing(r, _) => resolved
    case AcquireLock(r) => resolved
    case LockedStatus(r) => resolved
    case LockedCount(r) => resolved
    case LockedComplete(r) => resolved
    case Unlock(r) => resolved
    case Finish(r) => r.Resolved() && !IsDelayedMarker(r) ==> resolved
    case _ => true
  }

  predicate JobRecorded(resolved: bool, j: JobState) {
    match j
    case Active(pc) => PcRecorded(resolved, pc)
    case Returned(r) => r.Resolved() && !IsDelayedMarker(r) ==> resolved
    case _ => true
  }

  /** The initial delay job once the resume job is queued. */
  predicate HandedOver(s: State, k: JobKey) {
    && k in s.jobs
    && ((s.jobs[k].Active? && s.jobs[k].pc.Finish? && IsDelayedMarker(s.jobs[k].pc.r))
        || (s.jobs[k].Returned? && IsDelayedMarker(s.jobs[k].r)))
  }

  /** For one node: what its jobs have recorded, and that a queued resume job has been handed over to. */
  ghost predicate Recorded(wf: Workflow, s: State, m: Id) {
    && (forall k :: k in s.jobs && k.node == m ==> JobRecorded(ResolvedIn(s.results, m), s.jobs[k]))
    && (Resumed(m) in s.hist.added ==> HandedOver(s, PrimaryKey(wf, m)))
  }

  /** A throw that starts the initial job of a delay node again after it queued the resume job. */
  predicate RepeatsHandOver(wf: Workflow, s: State, a: Action, m: Id) {
    && a.Throw? && a.k.node == m && IsDelay(wf, m)
    && AtPc(s, a.k) && s.jobs[a.k].pc.Finish? && IsDelayedMarker(s.jobs[a.k].pc.r)
  }

  lemma MarkerIsMarker(t: int, d: int)
    ensures IsDelayedMarker(DelayedMarker(t, d))
  {
    var fields := map["delayed" := Bool(true), "expectedResumeTime" := Num(t), "duration" := Num(d)];
    assert "delayed" != "duration" && fields["delayed"] == Bool(true) by {
      assert |"delayed"| != |"duration"| && |"delayed"| != |"expectedResumeTime"|;
    }
  }

  lemma MovedStaysRecorded(wf: Workflow, s: State, a: Action, k: JobKey)
    requires Enabled(wf, s, a) && Moves(a, k) && k in s.jobs && k.node != ROOT_NODE
    requires JobRecorded(ResolvedIn(s.results, k.node), s.jobs[k])
    ensures JobRecorded(ResolvedIn(Written(s.results, WriteOf(s, a)), k.node), MovedJob(wf, s, a, k))
  {
    if StartsDelay(s, a) {
      var d := DelayOf(FindNode(wf.nodes, k.node).value).value;
      MarkerIsMarker(s.now + d, d);
    }
    hide AfterTask, FindNode, Tasks, DelayedMarker, IsDelayedMarker, DelayOf, NodeInputData;
  }

  lemma UnresolvedWriter(wf: Workflow, s: State, a: Action)
    requires Enabled(wf, s, a) && WriteOf(s, a).Writes? && !WriteOf(s, a).r.Resolved()
    ensures a.Proceed? || a.RecordFailure? || a.CacheReturned?
    ensures a.k in s.jobs && a.k.node == WriteOf(s, a).node
    ensures a.CacheReturned? ==> s.jobs[a.k] == Returned(WriteOf(s, a).r)
    ensures !HandedOver(s, a.k)
  {
    hide FindNode;
  }

  lemma TwoKeys(wf: Workflow, s: State, k: JobKey, k': JobKey)
    requires WellLinked(wf) && Contained(wf, s) && k in s.jobs && k' in s.jobs && k.node == k'.node && k != k'
    ensures k == PrimaryKey(wf, k.node) || k' == PrimaryKey(wf, k.node)
    ensures Resumed(k.node) in s.hist.added
  {
    ActiveJob(wf, s, k);
    ActiveJob(wf, s, k');
    hide WellLinked, PrimaryKey, KeyOk, JobOk, IsDelay;
    OnlyPrimary(wf, k);
    OnlyPrimary(wf, k');
  }

  lemma StaysRecorded(j: JobState)
    ensures JobRecorded(false, j) ==> JobRecorded(true, j)
    ensures j.Returned? && !j.r.Resolved() ==> JobRecorded(false, j)
  {
  }

  lemma HandedOverRecorded(s: State, k: JobKey)
    requires HandedOver(s, k)
    ensures JobRecorded(false, s.jobs[k])
  {
  }

  /** A job that does not move keeps what it recorded when another job of the node writes. */
  lemma UnmovedStaysRecorded(wf: Workflow, s: State, a: Action, k: JobKey)
    requires WellLinked(wf) && Contained(wf, s) && Recorded(wf, s, k.node) && Enabled(wf, s, a)
    requires k in s.jobs && !Moves(a, k)
    ensures JobRecorded(ResolvedIn(Written(s.results, WriteOf(s, a)), k.node), s.jobs[k])
  {
    hide WellLinked, Contained, Enabled, WriteOf, PrimaryKey, JobRecorded, HandedOver;
    var w := WriteOf(s, a);
    StaysRecorded(s.jobs[k]);
    if w.Writes? && w.node == k.node && !w.r.Resolved() {
      UnresolvedWriter(wf, s, a);
      if a.k != k {
        TwoKeys(wf, s, k, a.k);
        HandedOverRecorded(s, k);
      }
    }
  }

  lemma HandedOverStays(wf: Workflow, s: State, a: Action, k: JobKey)
    requires Enabled(wf, s, a) && Moves(a, k) && HandedOver(s, k) && IsDelay(wf, k.node) && !RepeatsHandOver(wf, s, a, k.node)
    ensures MovedJob(wf, s, a, k).Returned? && IsDelayedMarker(MovedJob(wf, s, a, k).r)
  {
    hide FindNode, IsDelayedMarker;
  }

  lemma StartHandsOver(wf: Workflow, s: State, a: Action)
    requires Enabled(wf, s, a) && StartsDelay(s, a)
    ensures var j := MovedJob(wf, s, a, a.k); j.Active? && j.pc.Finish? && IsDelayedMarker(j.pc.r)
  {
    hide FindNode, DelayedMarker, IsDelayedMarker;
    var d := DelayOf(FindNode(wf.nodes, a.k.node).value).value;
    MarkerIsMarker(s.now + d, d);
  }

  /** The resume job is added by the step that hands the primary job over, and by no other. */
  lemma HandOver(wf: Workflow, s: State, a: Action, n: Id)
    requires WellLinked(wf) && Contained(wf, s) && Enabled(wf, s, a)
    requires AddOf(wf, s, a).Adds? && AddOf(wf, s, a).k == Resumed(n)
    ensures StartsDelay(s, a) && a.k == PrimaryKey(wf, n)
  {
    hide WellLinked, PrimaryKey, KeyOk, FindNode, DelayOf, IsDelay, Contained;
    ActiveJob(wf, s, a.k);
    OnlyPrimary(wf, a.k);
  }

  lemma HandedOverStep(wf: Workflow, s: State, a: Action, n: Id)
    requires WellLinked(wf) && Contained(wf, s) && Recorded(wf, s, n) && Enabled(wf, s, a) && !RepeatsHandOver(wf, s, a, n)
    requires Resumed(n) in Apply(wf, s, a).hist.added
    ensures HandedOver(Apply(wf, s, a), PrimaryKey(wf, n))
  {
    hide WellLinked, Contained, Apply, Enabled, RepeatsHandOver, PrimaryKey, AddOf, IsDelayedMarker, MovedJob, StartsDelay, JobRecorded, IsDelay;
    QueueChanges(wf, s, a);
    var k := PrimaryKey(wf, n);
    if Resumed(n) !in s.hist.added {
      HandOver(wf, s, a, n);
      StartMoves(s, a);
      StartHandsOver(wf, s, a);
      JobMoves(wf, s, a, k);
    } else if Moves(a, k) {
      ResumedIsDelay(wf, s, n);
      HandedOverStays(wf, s, a, k);
      JobMoves(wf, s, a, k);
    }
  }

  lemma ResumedIsDelay(wf: Workflow, s: State, n: Id)
    requires Contained(wf, s) && Resumed(n) in s.hist.added
    ensures IsDelay(wf, n) && PrimaryKey(wf, n).node == n
  {
    assert KeyOk(wf, Resumed(n));
  }

  lemma StartMoves(s: State, a: Action)
    requires StartsDelay(s, a)
    ensures a.Proceed?
  {
  }

  lemma RecordedStep(wf: Workflow, s: State, a: Action, m: Id)
    requires WellLinked(wf) && Contained(wf, s) && Recorded(wf, s, m) && Enabled(wf, s, a)
    requires m != ROOT_NODE && !RepeatsHandOver(wf, s, a, m)
    ensures Recorded(wf, Apply(wf, s, a), m)
  {
    hide WellLinked, Contained, Apply, Enabled, RepeatsHandOver, PrimaryKey, AddOf, WriteOf, HandedOver, MovedJob, JobRecorded, ResolvedIn, Written;
    var s' := Apply(wf, s, a);
    ResultEffect(wf, s, a);
    QueueChanges(wf, s, a);
    forall k | k in s'.jobs && k.node == m ensures JobRecorded(ResolvedIn(s'.results, m), s'.jobs[k]) {
      if Moves(a, k) {
        MovedStaysRecorded(wf, s, a, k);
        JobMoves(wf, s, a, k);
      } else if k in s.jobs {
        UnmovedStaysRecorded(wf, s, a, k);
      } else {
        WaitingRecorded(s', k);
      }
    }
    if Resumed(m) in s'.hist.added {
      HandedOverStep(wf, s, a, m);
    }
  }

  lemma WaitingRecorded(s: State, k: JobKey)
    requires k in s.jobs && s.jobs[k].Waiting?
    ensures JobRecorded(ResolvedIn(s.results, k.node), s.jobs[k])
  {
  }

  // ------------------------------------------------------- ready children

  /** A worker has the node among the children to look at. */
  predicate HasTask(s: State, k: JobKey, i: nat, n: Id) {
    && AtPc(s, k) && s.jobs[k].pc.Releasing?
    && i < |s.jobs[k].pc.tasks| && s.jobs[k].pc.tasks[i].child == n
  }

  ghost predicate Releases(s: State, k: JobKey, n: Id) {
    exists i :: HasTask(s, k, i, n)
  }

  /** A worker is about to write a success of a parent, and then to look at the node. */
  predicate WillRelease(wf: Workflow, s: State, k: JobKey, n: Id) {
    AtPc(s, k) && s.jobs[k].pc.WriteResult? && s.jobs[k].pc.r.success && n in OutputsOf(wf, k.node)
  }

  ghost predicate Holds(wf: Workflow, s: State, k: JobKey, n: Id) {
    Releases(s, k, n) || WillRelease(wf, s, k, n)
  }

  ghost predicate Handled(wf: Workflow, s: State, n: Id) {
    Child(n) in s.hist.added || Entry(n) in s.hist.added || n in s.results || exists k :: Holds(wf, s, k, n)
  }

  /** If all its inputs are resolved, the node has a job, a result or a worker that will look at it. */
  ghost predicate Joined(wf: Workflow, s: State, n: Id) {
    HasInputs(wf, n) && Ready(wf, s.results, n) ==> Handled(wf, s, n)
  }

  /**
   * A throw that makes a worker forget the node: while the node is among the outputs to look at,
   * or while a parent's success is written that is in the store already. If continueOnFail turns
   * the throw into a result of a parent, the parent's outputs are looked at after all.
   */
  ghost predicate Drops(wf: Workflow, s: State, a: Action, n: Id) {
    && a.Throw? && !(a.safe && n in OutputsOf(wf, a.k.node))
    && (Releases(s, a.k, n) || (WillRelease(wf, s, a.k, n) && ResolvedIn(s.results, a.k.node)))
  }

  /** A step that neither drops the node nor repeats a handed-over delay among its inputs. */
  ghost predicate Harmless(wf: Workflow, s: State, a: Action, n: Id) {
    !Drops(wf, s, a, n) && forall m :: m in InputsOf(wf, n) ==> !RepeatsHandOver(wf, s, a, m)
  }

  function InputsOf(wf: Workflow, n: Id): seq<Id> {
    match FindNode(wf.nodes, n) case None => [] case Some(node) => node.inputs
  }

  predicate HasInputs(wf: Workflow, n: Id) {
    FindNode(wf.nodes, n).Some? && FindNode(wf.nodes, n).value.inputs != []
  }

  lemma AfterTaskKeeps(wf: Workflow, results: map<Id, ExecutionResult>, tasks: seq<Task>, i: nat)
    requires 0 < i < |tasks|
    ensures exists j :: 0 <= j < |AfterTask(wf, results, tasks)| && AfterTask(wf, results, tasks)[j] == tasks[i]
  {
    var after := AfterTask(wf, results, tasks);
    assert tasks[1..][i-1] == tasks[i];
    assert after[|after| - (|tasks| - i)] == tasks[i];
  }

  /** Looking at a ready child enqueues it, or skips it. */
  lemma FirstTask(wf: Workflow, s: State, a: Action, k: JobKey, n: Id)
    requires Enabled(wf, s, a) && a == Proceed(k) && HasTask(s, k, 0, n) && Ready(wf, s.results, n)
    requires k in Apply(wf, s, a).jobs && Apply(wf, s, a).jobs[k] == MovedJob(wf, s, a, k)
    ensures WriteOf(s, a) == Writes(n, SKIPPED_RESULT) || HasTask(Apply(wf, s, a), k, 0, n)
         || (AddOf(wf, s, a).Adds? && AddOf(wf, s, a).k == Child(n))
  {
    hide Apply, FindNode, Tasks;
  }

  /** A worker that releases goes on, or turns a throw into a result that releases again. */
  lemma ReleasingMoves(wf: Workflow, s: State, a: Action, k: JobKey, i: nat, n: Id)
    requires Enabled(wf, s, a) && Moves(a, k) && HasTask(s, k, i, n) && !Drops(wf, s, a, n)
    ensures a == Proceed(k)
      || (MovedJob(wf, s, a, k).Active? && MovedJob(wf, s, a, k).pc.WriteResult? && MovedJob(wf, s, a, k).pc.r.success
          && n in OutputsOf(wf, k.node))
  {
    assert Releases(s, k, n);
    hide FindNode, OutputsOf;
  }

  lemma LaterTask(wf: Workflow, s: State, a: Action, k: JobKey, i: nat, n: Id)
    requires Enabled(wf, s, a) && a == Proceed(k) && i > 0 && HasTask(s, k, i, n)
    requires k in Apply(wf, s, a).jobs && Apply(wf, s, a).jobs[k] == MovedJob(wf, s, a, k)
    ensures Releases(Apply(wf, s, a), k, n)
  {
    AfterTaskKeeps(wf, s.results, s.jobs[k].pc.tasks, i);
    hide Apply, FindNode, AfterTask;
    var after := AfterTask(wf, s.results, s.jobs[k].pc.tasks);
    var j :| 0 <= j < |after| && after[j] == s.jobs[k].pc.tasks[i];
    assert HasTask(Apply(wf, s, a), k, j, n);
  }

  lemma LinkedIsAccepted(wf: Workflow)
    requires WellLinked(wf)
    ensures Accepted(wf)
  {
  }

  /** The id of the node's job is no other job's, and no input's jobs return without having been looked at. */
  ghost predicate PlainFor(wf: Workflow, n: Id) {
    (KeyOk(wf, Child(n)) ==> PlainKey(wf, Child(n))) && ROOT_NODE !in InputsOf(wf, n)
  }

  lemma ChildIsPlain(wf: Workflow, n: Id)
    requires PlainFor(wf, n) && KeyOk(wf, Child(n))
    ensures PlainKey(wf, Child(n))
  {
  }

  /** What a worker has among the outputs to look at ends as a job or a result. */
  lemma ReleaseStep(wf: Workflow, s: State, a: Action, k: JobKey, i: nat, n: Id)
    requires WellLinked(wf) && PlainFor(wf, n) && Contained(wf, s) && Timestamps(s) && Enabled(wf, s, a)
    requires !Drops(wf, s, a, n) && Ready(wf, s.results, n) && HasTask(s, k, i, n)
    ensures Handled(wf, Apply(wf, s, a), n)
  {
    hide WellLinked, PlainFor, PlainKey, KeyOk, Contained, Timestamps, Enabled, Apply, Drops, Ready, HasTask, WriteOf, AddOf, MovedJob, OutputsOf;
    var s' := Apply(wf, s, a);
    ResultEffect(wf, s, a);
    QueueChanges(wf, s, a);
    TaskJob(s, k, i, n);
    if Moves(a, k) {
      ReleasingMoves(wf, s, a, k, i, n);
      JobMoves(wf, s, a, k);
      if a != Proceed(k) {
        assert WillRelease(wf, s', k, n) && Holds(wf, s', k, n);
      } else if i > 0 {
        LaterTask(wf, s, a, k, i, n);
        assert Holds(wf, s', k, n);
      } else {
        FirstTask(wf, s, a, k, n);
        if HasTask(s', k, 0, n) {
          assert Releases(s', k, n) && Holds(wf, s', k, n);
        } else if AddOf(wf, s, a).Adds? && AddOf(wf, s, a).k == Child(n) {
          AddsOwnKey(wf, s, a);
          ChildIsPlain(wf, n);
          AddsAreAdded(wf, s, a);
        }
      }
    } else {
      SameTask(s, s', k, i, n);
      assert Releases(s', k, n) && Holds(wf, s', k, n);
    }
  }

  lemma WritingMoves(wf: Workflow, s: State, a: Action, k: JobKey, n: Id)
    requires Enabled(wf, s, a) && Moves(a, k) && WillRelease(wf, s, k, n) && ResolvedIn(s.results, k.node) && !Drops(wf, s, a, n)
    ensures a == Proceed(k)
      || (MovedJob(wf, s, a, k).Active? && MovedJob(wf, s, a, k).pc.WriteResult? && MovedJob(wf, s, a, k).pc.r.success)
    ensures s.jobs[k].pc.WriteResult? && s.jobs[k].pc.r.success
  {
    hide FindNode, OutputsOf;
  }

  /** A parent whose success is written again looks at the node afterwards. */
  lemma WriteStep(wf: Workflow, s: State, a: Action, k: JobKey, n: Id)
    requires WellLinked(wf) && Enabled(wf, s, a) && !Drops(wf, s, a, n)
    requires Ready(wf, s.results, n) && WillRelease(wf, s, k, n)
    ensures Handled(wf, Apply(wf, s, a), n)
  {
    QueueChanges(wf, s, a);
    ParentIsInput(wf, n, k.node);
    ReadyInput(wf, s.results, n, k.node);
    hide WellLinked, Enabled, Apply, Drops, Ready, AddOf, MovedJob, OutputsOf, FindNode;
    var s' := Apply(wf, s, a);
    if Moves(a, k) {
      WritingMoves(wf, s, a, k, n);
      JobMoves(wf, s, a, k);
      if a == Proceed(k) {
        WriteLooksAt(wf, s, a, k);
        assert Holds(wf, s', k, n);
      } else {
        assert WillRelease(wf, s', k, n) && Holds(wf, s', k, n);
      }
    } else {
      assert WillRelease(wf, s', k, n) && Holds(wf, s', k, n);
    }
  }

  lemma ReadyInput(wf: Workflow, results: map<Id, ExecutionResult>, n: Id, m: Id)
    requires Ready(wf, results, n) && m in InputsOf(wf, n)
    ensures ResolvedIn(results, m)
  {
    var i :| 0 <= i < |InputsOf(wf, n)| && InputsOf(wf, n)[i] == m;
  }

  lemma ParentIsInput(wf: Workflow, n: Id, m: Id)
    requires WellLinked(wf) && FindNode(wf.nodes, n).Some? && n in OutputsOf(wf, m)
    ensures m in InputsOf(wf, n)
  {
    hide HasCycle, EntryAcceptable, FirstOutputGraph, ClosedReferences, UniqueIds;
    var parent, node := FindNode(wf.nodes, m).value, FindNode(wf.nodes, n).value;
    assert parent in wf.nodes && node in wf.nodes;
  }

  lemma TaskJob(s: State, k: JobKey, i: nat, n: Id)
    requires HasTask(s, k, i, n)
    ensures k in s.jobs && !s.jobs[k].Waiting?
  {
  }

  lemma SameTask(s: State, s': State, k: JobKey, i: nat, n: Id)
    requires HasTask(s, k, i, n) && k in s'.jobs && s'.jobs[k] == s.jobs[k]
    ensures HasTask(s', k, i, n)
  {
  }

  lemma HandledStep(wf: Workflow, s: State, a: Action, n: Id)
    requires WellLinked(wf) && PlainFor(wf, n) && Contained(wf, s) && Timestamps(s) && Enabled(wf, s, a)
    requires !Drops(wf, s, a, n) && Ready(wf, s.results, n) && Handled(wf, s, n)
    ensures Handled(wf, Apply(wf, s, a), n)
  {
    hide WellLinked, PlainFor, Contained, Timestamps, Enabled, Apply, Drops, Ready, HasTask, WriteOf, AddOf, WillRelease;
    ResultEffect(wf, s, a);
    QueueChanges(wf, s, a);
    if exists k :: Holds(wf, s, k, n) {
      var k :| Holds(wf, s, k, n);
      if Releases(s, k, n) {
        var i :| HasTask(s, k, i, n);
        ReleaseStep(wf, s, a, k, i, n);
      } else {
        WriteStep(wf, s, a, k, n);
      }
    }
  }

  // ------------------------------------------- the last input is resolved

  /** A step that resolves a node is going to look at all of its outputs. */
  ghost predicate LooksAt(s: State, k: JobKey, outputs: seq<Id>) {
    forall n :: n in outputs ==> Releases(s, k, n)
  }

  lemma TasksPending(wf: Workflow, s: State, k: JobKey, r: ExecutionResult, outputs: seq<Id>, nextNodes: Option<seq<Id>>, rest: seq<Task>)
    requires k in s.jobs && s.jobs[k] == Active(Releasing(r, Tasks(outputs, nextNodes) + rest))
    ensures LooksAt(s, k, outputs)
  {
    forall n | n in outputs ensures Releases(s, k, n) {
      var i :| 0 <= i < |outputs| && outputs[i] == n;
      assert HasTask(s, k, i, n);
    }
  }

  lemma WriteLooksAt(wf: Workflow, s: State, a: Action, k: JobKey)
    requires Enabled(wf, s, a) && a == Proceed(k) && s.jobs[k].pc.WriteResult? && s.jobs[k].pc.r.success
    requires k in Apply(wf, s, a).jobs && Apply(wf, s, a).jobs[k] == MovedJob(wf, s, a, k)
    ensures LooksAt(Apply(wf, s, a), k, OutputsOf(wf, k.node))
  {
    hide Apply, FindNode, LooksAt, Tasks;
    var r, node := s.jobs[k].pc.r, FindNode(wf.nodes, k.node).value;
    assert Tasks(node.outputs, r.nextNodes) + [] == Tasks(node.outputs, r.nextNodes);
    TasksPending(wf, Apply(wf, s, a), k, r, node.outputs, r.nextNodes, []);
  }

  lemma SkipLooksAt(wf: Workflow, s: State, a: Action)
    requires Enabled(wf, s, a) && Skips(s, a)
    requires a.k in Apply(wf, s, a).jobs && Apply(wf, s, a).jobs[a.k] == MovedJob(wf, s, a, a.k)
    ensures LooksAt(Apply(wf, s, a), a.k, OutputsOf(wf, s.jobs[a.k].pc.tasks[0].child))
  {
    hide Apply, FindNode, LooksAt, Tasks;
    var pc := s.jobs[a.k].pc;
    TasksPending(wf, Apply(wf, s, a), a.k, pc.r, OutputsOf(wf, pc.tasks[0].child), None, pc.tasks[1..]);
  }

  datatype Resolver = ByWrite | BySkip | ByListener

  /** The three ways a node can get a resolved result. */
  lemma WhoResolves(wf: Workflow, s: State, a: Action) returns (how: Resolver)
    requires Enabled(wf, s, a) && WriteOf(s, a).Writes? && WriteOf(s, a).r.Resolved() && Recorded(wf, s, WriteOf(s, a).node)
    ensures how == ByWrite ==> a.Proceed? && a.k.node == WriteOf(s, a).node && s.jobs[a.k].pc.WriteResult? && s.jobs[a.k].pc.r.success
    ensures how == BySkip ==> Skips(s, a) && s.jobs[a.k].pc.tasks[0].child == WriteOf(s, a).node
    ensures how == ByListener ==> ResolvedIn(s.results, WriteOf(s, a).node)
  {
    hide FindNode, HandedOver;
    if Skips(s, a) {
      how := BySkip;
    } else {
      assert JobRecorded(ResolvedIn(s.results, a.k.node), s.jobs[a.k]);
      how := if a.Proceed? then ByWrite else ByListener;
    }
  }

  lemma ResolvedLooksAt(wf: Workflow, s: State, a: Action, m: Id) returns (k: JobKey)
    requires Recorded(wf, s, m) && Enabled(wf, s, a)
    requires !ResolvedIn(s.results, m) && ResolvedIn(Apply(wf, s, a).results, m)
    ensures LooksAt(Apply(wf, s, a), k, OutputsOf(wf, m))
  {
    ResultEffect(wf, s, a);
    hide Apply, Enabled, WriteOf, Recorded, LooksAt, OutputsOf, Skips;
    var how := WhoResolves(wf, s, a);
    k := if how == ByListener then Child(m) else a.k;
    if how == ByWrite {
      JobMoves(wf, s, a, a.k);
      WriteLooksAt(wf, s, a, a.k);
    } else if how == BySkip {
      SkipMoves(s, a);
      JobMoves(wf, s, a, a.k);
      SkipLooksAt(wf, s, a);
    }
  }

  lemma SkipMoves(s: State, a: Action)
    requires Skips(s, a)
    ensures a.Proceed?
  {
  }

  lemma LinkedBack(wf: Workflow, n: Id, m: Id)
    requires WellLinked(wf) && FindNode(wf.nodes, n).Some? && m in FindNode(wf.nodes, n).value.inputs
    ensures n in OutputsOf(wf, m)
  {
    hide HasCycle, OutputGraph, EntryAcceptable;
    var node := FindNode(wf.nodes, n).value;
    assert m in Ids(wf.nodes);
    var parent := FindNode(wf.nodes, m).value;
    assert parent in wf.nodes && node in wf.nodes;
  }

  lemma NewlyReady(wf: Workflow, s: State, a: Action, n: Id)
    requires WellLinked(wf) && Enabled(wf, s, a) && forall m :: m in InputsOf(wf, n) ==> Recorded(wf, s, m)
    requires !Ready(wf, s.results, n) && Ready(wf, Apply(wf, s, a).results, n)
    ensures Handled(wf, Apply(wf, s, a), n)
  {
    hide WellLinked, Recorded, Enabled, Apply, ResolvedIn, FindNode, OutputsOf;
    var inputs := FindNode(wf.nodes, n).value.inputs;
    var i :| 0 <= i < |inputs| && !ResolvedIn(s.results, inputs[i]);
    LinkedBack(wf, n, inputs[i]);
    var k := ResolvedLooksAt(wf, s, a, inputs[i]);
    assert Holds(wf, Apply(wf, s, a), k, n);
  }

  lemma JoinedStep(wf: Workflow, s: State, a: Action, n: Id)
    requires WellLinked(wf) && PlainFor(wf, n) && Contained(wf, s) && Timestamps(s) && Enabled(wf, s, a)
    requires forall m :: m in InputsOf(wf, n) ==> Recorded(wf, s, m)
    requires Joined(wf, s, n) && !Drops(wf, s, a, n)
    ensures Joined(wf, Apply(wf, s, a), n)
  {
    hide WellLinked, PlainFor, Contained, Timestamps, Recorded, Enabled, Apply, Drops, Ready, Handled, HasInputs;
    if HasInputs(wf, n) && Ready(wf, Apply(wf, s, a).results, n) {
      if Ready(wf, s.results, n) {
        HandledStep(wf, s, a, n);
      } else {
        NewlyReady(wf, s, a, n);
      }
    }
  }

  // ---------------------------------------------------- over whole runs

  /** No step of the run makes a worker forget the node. */
  ghost predicate Kept(wf: Workflow, states: seq<State>, steps: seq<Action>, n: Id) {
    |states| == |steps| + 1 && forall i :: 0 <= i < |steps| ==> Harmless(wf, states[i], steps[i], n)
  }

  lemma {:induction false} RunRecorded(wf: Workflow, states: seq<State>, steps: seq<Action>, i: nat, m: Id)
    requires WellLinked(wf) && m != ROOT_NODE && IsRun(wf, states, steps) && i < |states|
    requires forall j :: 0 <= j < |steps| ==> !RepeatsHandOver(wf, states[j], steps[j], m)
    ensures Recorded(wf, states[i], m)
  {
    hide WellLinked, Enabled, Apply, RepeatsHandOver;
    if i > 0 {
      hide Recorded;
      RunRecorded(wf, states, steps, i - 1, m);
      RunContained(wf, states, steps, i - 1);
      RecordedStep(wf, states[i-1], steps[i-1], m);
    }
  }

  lemma {:induction false} RunJoined(wf: Workflow, states: seq<State>, steps: seq<Action>, i: nat, n: Id)
    requires WellLinked(wf) && PlainFor(wf, n) && IsRun(wf, states, steps) && Kept(wf, states, steps, n) && i < |states|
    ensures Joined(wf, states[i], n)
  {
    hide WellLinked, PlainKey, KeyOk, Contained, Timestamps, Enabled, Apply, Drops, RepeatsHandOver, Recorded, Joined;
    if i == 0 {
      InitJoined(wf, n);
    } else {
      assert ROOT_NODE !in InputsOf(wf, n);
      RunJoined(wf, states, steps, i - 1, n);
      RunContained(wf, states, steps, i - 1);
      RunTimestamps(wf, states, steps, i - 1);
      forall m | m in InputsOf(wf, n) ensures Recorded(wf, states[i-1], m) {
        RunRecorded(wf, states, steps, i - 1, m);
      }
      assert Harmless(wf, states[i-1], steps[i-1], n);
      JoinedStep(wf, states[i-1], steps[i-1], n);
    }
  }

  lemma InitJoined(wf: Workflow, n: Id)
    ensures Joined(wf, Init(wf), n)
  {
    if HasInputs(wf, n) {
      assert !ResolvedIn(Init(wf).results, FindNode(wf.nodes, n).value.inputs[0]);
    }
  }

  /**
   * No lost join: whatever the interleaving and whatever else is thrown, if no throw makes a
   * worker forget the node, then whenever its inputs are all resolved and no worker has it among
   * the outputs to look at, a job was added for it or it has a result.
   */
  lemma NoLostJoin(wf: Workflow, states: seq<State>, steps: seq<Action>, i: nat, n: Id)
    requires WellLinked(wf) && PlainFor(wf, n) && IsRun(wf, states, steps) && Kept(wf, states, steps, n) && i < |states|
    requires HasInputs(wf, n) && Ready(wf, states[i].results, n) && forall k :: !Holds(wf, states[i], k, n)
    ensures WasQueued(states, i, Child(n)) || WasQueued(states, i, Entry(n)) || n in states[i].results
  {
    hide WellLinked, PlainFor, IsRun, Kept, Holds, Ready, HasInputs, WasQueued;
    RunJoined(wf, states, steps, i, n);
    AddedHistory(wf, states, steps, i, Child(n));
    AddedHistory(wf, states, steps, i, Entry(n));
  }
}
