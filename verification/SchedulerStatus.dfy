/** The execution status leaves running at most once, and what a cancellation stops. */
module SchedulerStatus {
  import opened Graphs
  import opened Workflows
  import opened Scheduler
  import opened SchedulerEffects

  lemma StatusStep(wf: Workflow, s: State, a: Action)
    requires Enabled(wf, s, a) && s.status != Running
    ensures Apply(wf, s, a).status == s.status
  {
    StatusChanges(wf, s, a);
    hide Apply, Enabled, StatusWanted;
  }

  /** Whatever status first replaces running is the execution's status ever after. */
  lemma {:induction false} StatusIsFinal(wf: Workflow, states: seq<State>, steps: seq<Action>, i: nat, j: nat)
    requires IsRun(wf, states, steps) && i <= j < |states| && states[i].status != Running
    ensures states[j].status == states[i].status
  {
    hide Apply, Enabled;
    if i < j {
      StatusIsFinal(wf, states, steps, i, j - 1);
      StatusStep(wf, states[j-1], steps[j-1]);
    }
  }

  // -------------------------------------------------------- cancellation

  /** Processing has passed its last status read and is not about to return. */
  predicate PastGate(pc: Pc) {
    !pc.ReadOwn? && !pc.ReadStatus? && !pc.ResumedStatus? && !pc.Finish?
  }

  predicate Working(s: State, k: JobKey) {
    AtPc(s, k) && PastGate(s.jobs[k].pc)
  }

  lemma GateStops(wf: Workflow, s: State, a: Action, k: JobKey)
    requires Enabled(wf, s, a) && Moves(a, k) && s.status == Cancelled && !Working(s, k)
    ensures MovedJob(wf, s, a, k).Active? ==> !PastGate(MovedJob(wf, s, a, k).pc)
  {
    hide FindNode, AfterTask, Tasks;
  }

  lemma StaysStopped(wf: Workflow, s: State, a: Action, k: JobKey)
    requires Enabled(wf, s, a) && s.status == Cancelled && !Working(s, k)
    ensures !Working(Apply(wf, s, a), k)
  {
    hide Apply, Enabled, AddOf, MovedJob, PastGate;
    QueueChanges(wf, s, a);
    if Moves(a, k) {
      GateStops(wf, s, a, k);
      JobMoves(wf, s, a, k);
    }
  }

  lemma {:induction false} StoppedForGood(wf: Workflow, states: seq<State>, steps: seq<Action>, k: JobKey, i: nat, j: nat)
    requires IsRun(wf, states, steps) && i <= j < |states|
    requires states[i].status == Cancelled && !Working(states[i], k)
    ensures !Working(states[j], k)
  {
    hide Apply, Enabled, Working;
    if i < j {
      StoppedForGood(wf, states, steps, k, i, j - 1);
      StatusIsFinal(wf, states, steps, i, j - 1);
      StaysStopped(wf, states[j-1], steps[j-1], k);
    }
  }

  lemma StoppedDoesNothing(wf: Workflow, s: State, a: Action, k: JobKey)
    requires Enabled(wf, s, a) && Moves(a, k) && !Working(s, k) && !a.RecordFailure?
    ensures !a.ExecutorReturns? && WriteOf(s, a) == NoWrite && AddOf(wf, s, a) == NoAdd
  {
    hide FindNode;
  }

  lemma NothingDone(wf: Workflow, s: State, a: Action, k: JobKey)
    requires Enabled(wf, s, a) && Moves(a, k) && WriteOf(s, a) == NoWrite && AddOf(wf, s, a) == NoAdd
    ensures Apply(wf, s, a).results == s.results && Apply(wf, s, a).jobs.Keys == s.jobs.Keys
  {
    ResultEffect(wf, s, a);
    QueueChanges(wf, s, a);
    hide Apply, Enabled, WriteOf, AddOf;
  }

  /**
   * After a cancellation, a job that was not already past its status read never runs an
   * executor, never writes a result by itself and never adds a job. That includes jobs that are
   * still waiting, being retried, or added later.
   */
  lemma CancellationStops(wf: Workflow, states: seq<State>, steps: seq<Action>, k: JobKey, i: nat, j: nat)
    requires IsRun(wf, states, steps) && i <= j < |steps|
    requires states[i].status == Cancelled && !Working(states[i], k)
    requires Moves(steps[j], k) && !steps[j].RecordFailure?
    ensures !steps[j].ExecutorReturns?
    ensures states[j+1].results == states[j].results && states[j+1].jobs.Keys == states[j].jobs.Keys
  {
    StoppedForGood(wf, states, steps, k, i, j);
    hide Working, WriteOf, AddOf, Apply;
    StoppedDoesNothing(wf, states[j], steps[j], k);
    NothingDone(wf, states[j], steps[j], k);
  }

  // -------------------------------------------------------------- a pause

  /** Processing has not come past its first status read, or is about to return. */
  predicate BeforeGate(s: State, k: JobKey) {
    AtPc(s, k) ==> s.jobs[k].pc.ReadOwn? || s.jobs[k].pc.ReadStatus? || s.jobs[k].pc.Finish?
  }

  lemma GateHolds(wf: Workflow, s: State, a: Action, k: JobKey)
    requires Enabled(wf, s, a) && Moves(a, k) && s.status == Paused && BeforeGate(s, k)
    ensures var j := MovedJob(wf, s, a, k); j.Active? ==> j.pc.ReadOwn? || j.pc.ReadStatus? || j.pc.Finish?
  {
    hide FindNode;
  }

  lemma StaysHeld(wf: Workflow, s: State, a: Action, k: JobKey)
    requires Enabled(wf, s, a) && s.status == Paused && BeforeGate(s, k)
    ensures BeforeGate(Apply(wf, s, a), k)
  {
    hide Apply, Enabled, AddOf, MovedJob;
    QueueChanges(wf, s, a);
    if Moves(a, k) {
      GateHolds(wf, s, a, k);
      JobMoves(wf, s, a, k);
    }
  }

  /** Once an execution is paused, a job that is not past its first status read never gets past it. */
  lemma {:induction false} HeldForGood(wf: Workflow, states: seq<State>, steps: seq<Action>, k: JobKey, i: nat, j: nat)
    requires IsRun(wf, states, steps) && i <= j < |states|
    requires states[i].status == Paused && BeforeGate(states[i], k)
    ensures BeforeGate(states[j], k)
  {
    hide Apply, Enabled, BeforeGate;
    if i < j {
      HeldForGood(wf, states, steps, k, i, j - 1);
      StatusIsFinal(wf, states, steps, i, j - 1);
      StaysHeld(wf, states[j-1], steps[j-1], k);
    }
  }

  lemma HeldDoesNothing(wf: Workflow, s: State, a: Action, k: JobKey)
    requires Enabled(wf, s, a) && Moves(a, k) && BeforeGate(s, k) && !a.RecordFailure?
    ensures !a.ExecutorReturns? && WriteOf(s, a) == NoWrite && AddOf(wf, s, a) == NoAdd
  {
    hide FindNode;
  }

  /**
   * So from then on it never runs an executor, never writes a result by itself and never adds a
   * job, also when it is retried or was added later.
   */
  lemma PauseHolds(wf: Workflow, states: seq<State>, steps: seq<Action>, k: JobKey, i: nat, j: nat)
    requires IsRun(wf, states, steps) && i <= j < |steps|
    requires states[i].status == Paused && BeforeGate(states[i], k)
    requires Moves(steps[j], k) && !steps[j].RecordFailure?
    ensures !steps[j].ExecutorReturns?
    ensures states[j+1].results == states[j].results && states[j+1].jobs.Keys == states[j].jobs.Keys
  {
    HeldForGood(wf, states, steps, k, i, j);
    hide BeforeGate, WriteOf, AddOf, Apply;
    HeldDoesNothing(wf, states[j], steps[j], k);
    NothingDone(wf, states[j], steps[j], k);
  }

  // -------------------------------------------------- what the gate decides

  /** The job reads the execution's status for the first time. */
  predicate ReadsStatus(s: State, a: Action, k: JobKey) {
    a == Proceed(k) && AtPc(s, k) && s.jobs[k].pc.ReadStatus?
  }

  /**
   * A cancelled execution makes the job return an error; a paused one makes it wait for five
   * seconds; in any other the job goes on to its node: an executor's call, the error of an
   * invalid delay, the enqueueing of the resume job, or the second look of the resume job.
   */
  lemma GateDecides(wf: Workflow, states: seq<State>, steps: seq<Action>, j: nat, k: JobKey)
    requires IsRun(wf, states, steps) && j < |steps| && ReadsStatus(states[j], steps[j], k)
    ensures k in states[j+1].jobs && FindNode(wf.nodes, k.node).Some?
    ensures var after, node := states[j+1].jobs[k], FindNode(wf.nodes, k.node).value;
      match states[j].status
      case Cancelled => after == Active(Finish(ErrorResult("Workflow execution cancelled")))
      case Paused => after == Waiting(states[j].now + 5000)
      case _ =>
        if node.kind.Regular? then after == Active(Execute)
        else if !(DelayOf(node).Some? && DelayOf(node).value >= 0) then after == Active(Finish(ErrorResult("Invalid delay duration")))
        else after == Active(if k.Resumed? then ResumedStatus else DelayEnqueue)
  {
    assert Enabled(wf, states[j], steps[j]) && states[j+1] == Apply(wf, states[j], steps[j]);
    JobMoves(wf, states[j], steps[j], k);
    hide IsRun, Apply, FindNode, DelayOf;
  }
}
