/** A delay node is resolved no earlier than its duration after the step that started it. */
module SchedulerDelay {
  import opened Graphs
  import opened Workflows
  import opened NodeInputs
  import opened Scheduler
  import opened SchedulerEffects
  import opened SchedulerContainment
  import opened SchedulerOrder
  import opened SchedulerJoin

  /** The duration of a delay node, 0 when it has none. */
  function DurationOf(wf: Workflow, n: Id): int {
    match FindNode(wf.nodes, n)
    case None => 0
    case Some(node) => if DelayOf(node).Some? then DelayOf(node).value else 0
  }

  /** The delay has started and its duration is over. */
  predicate Due(wf: Workflow, s: State, n: Id) {
    n in s.hist.delayStart && s.hist.delayStart[n] + DurationOf(wf, n) <= s.now
  }

  predicate DueWhenReady(wf: Workflow, s: State, n: Id, j: JobState) {
    && n in s.hist.delayStart
    && (Due(wf, s, n) || (j.Waiting? && s.hist.delayStart[n] + DurationOf(wf, n) <= j.readyAt))
  }

  ghost predicate Timed(wf: Workflow, s: State) {
    && (forall n :: n in s.hist.delayStart ==> s.hist.delayStart[n] <= s.now)
    && (forall n :: Resumed(n) in s.jobs ==> DueWhenReady(wf, s, n, s.jobs[Resumed(n)]))
    && (forall n :: IsDelay(wf, n) && n != ROOT_NODE && n in s.hist.resolved && n !in s.hist.skipped ==> Due(wf, s, n))
    && (forall k :: k in s.jobs ==> JobRecorded(RecordedSoFar(s, k.node), s.jobs[k]))
  }

  /** The node was resolved once, unless its name makes its jobs return at once. */
  predicate RecordedSoFar(s: State, n: Id) {
    n in s.hist.resolved || n == ROOT_NODE
  }

  /** The clock and the recorded start times only grow. */
  lemma DueStays(wf: Workflow, s: State, a: Action, n: Id)
    requires Enabled(wf, s, a)
    ensures Due(wf, s, n) ==> Due(wf, Apply(wf, s, a), n)
    ensures n in s.hist.delayStart ==> n in Apply(wf, s, a).hist.delayStart && Apply(wf, s, a).hist.delayStart[n] == s.hist.delayStart[n]
    ensures s.now <= Apply(wf, s, a).now
  {
    HistoryChanges(wf, s, a);
    TicksForward(wf, s, a);
    hide Apply, Enabled, DurationOf, Skips, StartsDelay;
  }

  lemma TicksForward(wf: Workflow, s: State, a: Action)
    requires Enabled(wf, s, a)
    ensures a.Tick? ==> a.dt > 0
  {
  }

  lemma StartsBounded(wf: Workflow, s: State, a: Action)
    requires Timed(wf, s) && Enabled(wf, s, a)
    ensures forall n :: n in Apply(wf, s, a).hist.delayStart ==> Apply(wf, s, a).hist.delayStart[n] <= Apply(wf, s, a).now
  {
    HistoryChanges(wf, s, a);
    TicksForward(wf, s, a);
    hide Apply, Enabled, Skips, StartsDelay, DueWhenReady, JobRecorded, Due, IsDelay;
  }

  // ------------------------------------------------------- the resume job

  lemma ResumeJobMoves(wf: Workflow, s: State, a: Action, n: Id)
    requires Contained(wf, s) && Enabled(wf, s, a) && Moves(a, Resumed(n)) && Resumed(n) in s.jobs
    requires DueWhenReady(wf, s, n, s.jobs[Resumed(n)])
    ensures Due(wf, s, n)
  {
    hide Contained, FindNode, DurationOf;
  }

  /** A resume job is added with the whole duration ahead. */
  lemma ResumeJobAdded(wf: Workflow, s: State, a: Action, n: Id)
    requires Enabled(wf, s, a) && AddOf(wf, s, a).Adds? && AddOf(wf, s, a).k == Resumed(n)
    ensures StartsDelay(s, a) && a.k.node == n
    ensures AddOf(wf, s, a).readyAt == s.now + DurationOf(wf, n)
  {
    hide FindNode;
  }

  lemma ResumeStep(wf: Workflow, s: State, a: Action, n: Id)
    requires Contained(wf, s) && Timed(wf, s) && Enabled(wf, s, a) && Resumed(n) in Apply(wf, s, a).jobs
    ensures DueWhenReady(wf, Apply(wf, s, a), n, Apply(wf, s, a).jobs[Resumed(n)])
  {
    QueueChanges(wf, s, a);
    DueStays(wf, s, a, n);
    hide Contained, Enabled, Apply, AddOf, DurationOf, JobRecorded, IsDelay, StartsDelay;
    if Moves(a, Resumed(n)) {
      ResumeJobMoves(wf, s, a, n);
    } else if Resumed(n) !in s.jobs {
      ResumeJobAdded(wf, s, a, n);
      StartedBy(wf, s, a, n);
      StartsBounded(wf, s, a);
    }
  }

  lemma StartedBy(wf: Workflow, s: State, a: Action, n: Id)
    requires Enabled(wf, s, a) && StartsDelay(s, a) && a.k.node == n
    requires forall m :: m in s.hist.delayStart ==> s.hist.delayStart[m] <= s.now
    ensures n in Apply(wf, s, a).hist.delayStart && Apply(wf, s, a).hist.delayStart[n] <= s.now
  {
    HistoryChanges(wf, s, a);
    hide Apply, Enabled, StartsDelay;
  }

  // ------------------------------------------------- what jobs have recorded

  lemma MovedRecordedSoFar(wf: Workflow, s: State, a: Action, k: JobKey, after: bool)
    requires Enabled(wf, s, a) && Moves(a, k) && k in s.jobs
    requires Ordered(wf, s) && JobRecorded(RecordedSoFar(s, k.node), s.jobs[k])
    requires k.node in NowResolved(s.hist.resolved, WriteOf(s, a)) || k.node == ROOT_NODE ==> after
    ensures JobRecorded(after, MovedJob(wf, s, a, k))
  {
    assert ResolvedIn(s.results, k.node) ==> k.node in s.hist.resolved;
    hide AfterTask, FindNode, Tasks, DelayedMarker, IsDelayedMarker, Ordered, ResolvedIn;
    if StartsDelay(s, a) {
      StartHandsOver(wf, s, a);
    }
  }

  lemma RecordedSoFarStep(wf: Workflow, s: State, a: Action, k: JobKey)
    requires Ordered(wf, s) && Timed(wf, s) && Enabled(wf, s, a) && k in Apply(wf, s, a).jobs
    ensures JobRecorded(RecordedSoFar(Apply(wf, s, a), k.node), Apply(wf, s, a).jobs[k])
  {
    var s' := Apply(wf, s, a);
    ResultEffect(wf, s, a);
    QueueChanges(wf, s, a);
    hide Ordered, Enabled, Apply, AddOf, WriteOf, JobRecorded, Due, DueWhenReady, IsDelay, MovedJob;
    if Moves(a, k) {
      MovedRecordedSoFar(wf, s, a, k, RecordedSoFar(s', k.node));
      JobMoves(wf, s, a, k);
    } else if k in s.jobs {
      StaysRecorded(s.jobs[k]);
    } else {
      WaitingAlways(s'.jobs[k]);
    }
  }

  lemma WaitingAlways(j: JobState)
    requires j.Waiting?
    ensures JobRecorded(false, j) && JobRecorded(true, j)
  {
  }

  // --------------------------------------------------- the delay's result

  /** A delay node gets its first resolved result from its resume job or from a skip. */
  lemma WhoResolvesDelay(wf: Workflow, s: State, a: Action, n: Id)
    requires Contained(wf, s) && Timed(wf, s) && Enabled(wf, s, a) && IsDelay(wf, n) && n != ROOT_NODE
    requires n !in s.hist.resolved && WriteOf(s, a).Writes? && WriteOf(s, a).node == n && WriteOf(s, a).r.Resolved()
    ensures (Skips(s, a) && s.jobs[a.k].pc.tasks[0].child == n) || (Resumed(n) in s.jobs && Moves(a, Resumed(n)))
  {
    hide Contained, FindNode, Due, DueWhenReady, KeyOk, Live, IsDelay;
    if !Skips(s, a) {
      ActiveJob(wf, s, a.k);
      assert JobRecorded(RecordedSoFar(s, a.k.node), s.jobs[a.k]);
    }
  }

  lemma ResolvedStep(wf: Workflow, s: State, a: Action, n: Id)
    requires Contained(wf, s) && Timed(wf, s) && Enabled(wf, s, a) && IsDelay(wf, n) && n != ROOT_NODE
    requires n in Apply(wf, s, a).hist.resolved && n !in Apply(wf, s, a).hist.skipped
    ensures Due(wf, Apply(wf, s, a), n)
  {
    ResultEffect(wf, s, a);
    HistoryChanges(wf, s, a);
    DueStays(wf, s, a, n);
    hide Contained, Enabled, Apply, WriteOf, Due, DueWhenReady, JobRecorded, IsDelay, Skips, StartsDelay, Moves;
    if n !in s.hist.resolved {
      WhoResolvesDelay(wf, s, a, n);
      if !(Skips(s, a) && s.jobs[a.k].pc.tasks[0].child == n) {
        ResumeJobMoves(wf, s, a, n);
      }
    }
  }

  lemma TimedStep(wf: Workflow, s: State, a: Action)
    requires Contained(wf, s) && Ordered(wf, s) && Timed(wf, s) && Enabled(wf, s, a)
    ensures Timed(wf, Apply(wf, s, a))
  {
    hide Contained, Ordered, Enabled, Apply, Due, DueWhenReady, JobRecorded, IsDelay;
    var s' := Apply(wf, s, a);
    StartsBounded(wf, s, a);
    forall n | Resumed(n) in s'.jobs ensures DueWhenReady(wf, s', n, s'.jobs[Resumed(n)]) {
      ResumeStep(wf, s, a, n);
    }
    forall n | IsDelay(wf, n) && n != ROOT_NODE && n in s'.hist.resolved && n !in s'.hist.skipped ensures Due(wf, s', n) {
      ResolvedStep(wf, s, a, n);
    }
    forall k | k in s'.jobs ensures JobRecorded(RecordedSoFar(s', k.node), s'.jobs[k]) {
      RecordedSoFarStep(wf, s, a, k);
    }
  }

  // ---------------------------------------------------- over whole runs

  lemma {:induction false} RunTimed(wf: Workflow, states: seq<State>, steps: seq<Action>, i: nat)
    requires IsRun(wf, states, steps) && i < |states|
    ensures Timed(wf, states[i])
  {
    hide Contained, Ordered, Enabled, Apply;
    if i == 0 {
      assert Timed(wf, Init(wf));
    } else {
      hide Timed;
      RunTimed(wf, states, steps, i - 1);
      RunContained(wf, states, steps, i - 1);
      RunOrdered(wf, states, steps, i - 1);
      TimedStep(wf, states[i-1], steps[i-1]);
    }
  }

  /** The node was skipped by branching before i. */
  ghost predicate WasSkipped(states: seq<State>, steps: seq<Action>, i: nat, n: Id)
    requires i <= |steps| < |states|
  {
    exists j :: 0 <= j < i && SkippedAt(states[j], steps[j], n)
  }

  predicate SkippedAt(s: State, a: Action, n: Id) {
    Skips(s, a) && s.jobs[a.k].pc.tasks[0].child == n
  }

  lemma {:induction false} SkippedHistory(wf: Workflow, states: seq<State>, steps: seq<Action>, i: nat, n: Id)
    requires IsRun(wf, states, steps) && i < |states|
    ensures n in states[i].hist.skipped <==> WasSkipped(states, steps, i, n)
  {
    hide Apply, Enabled, Skips, StartsDelay;
    if i > 0 {
      SkippedHistory(wf, states, steps, i - 1, n);
      HistoryChanges(wf, states[i-1], steps[i-1]);
      if WasSkipped(states, steps, i - 1, n) {
        var j :| 0 <= j < i - 1 && SkippedAt(states[j], steps[j], n);
        assert WasSkipped(states, steps, i, n);
      } else if SkippedAt(states[i-1], steps[i-1], n) {
        assert WasSkipped(states, steps, i, n);
      }
    }
  }

  predicate StartedAt(s: State, a: Action, n: Id) {
    StartsDelay(s, a) && a.k.node == n
  }

  lemma {:induction false} DelayHistory(wf: Workflow, states: seq<State>, steps: seq<Action>, i: nat, n: Id) returns (j: nat)
    requires IsRun(wf, states, steps) && i < |states| && n in states[i].hist.delayStart
    ensures j < i && StartedAt(states[j], steps[j], n) && states[j].now == states[i].hist.delayStart[n]
  {
    hide Apply, Enabled, StartsDelay, Skips;
    HistoryChanges(wf, states[i-1], steps[i-1]);
    if n in states[i-1].hist.delayStart {
      j := DelayHistory(wf, states, steps, i - 1, n);
    } else {
      j := i - 1;
    }
  }

  /** At least as long as the node's configuration says. */
  predicate LongEnough(wf: Workflow, n: Id, elapsed: int) {
    FindNode(wf.nodes, n).Some? && FindNode(wf.nodes, n).value.kind.Delay? && FindNode(wf.nodes, n).value.kind.config.Some? ==>
      var c := FindNode(wf.nodes, n).value.kind.config.value;
      && (c.duration.Some? ==> elapsed >= c.duration.value)
      && (c.duration.None? && c.durationSeconds.Some? ==> elapsed >= 1000 * c.durationSeconds.value)
      && (c.duration.None? && c.durationSeconds.None? && c.durationMinutes.Some? ==> elapsed >= 60 * 1000 * c.durationMinutes.value)
  }

  lemma DurationIsConfigured(wf: Workflow, n: Id, elapsed: int)
    requires DurationOf(wf, n) <= elapsed
    ensures LongEnough(wf, n, elapsed)
  {
    hide FindNode;
  }

  /** The resume job becomes ready exactly the configured time after the step that adds it. */
  lemma ResumedWhenConfigured(wf: Workflow, states: seq<State>, steps: seq<Action>, i: nat, n: Id)
    requires IsRun(wf, states, steps) && i < |steps| && Resumed(n) !in states[i].jobs && Resumed(n) in states[i+1].jobs
    ensures FindNode(wf.nodes, n).Some? && FindNode(wf.nodes, n).value.kind.Delay? && FindNode(wf.nodes, n).value.kind.config.Some?
    ensures states[i+1].jobs[Resumed(n)].Waiting?
    ensures Lasts(FindNode(wf.nodes, n).value.kind.config.value, states[i+1].jobs[Resumed(n)].readyAt - states[i].now)
  {
    var s, a := states[i], steps[i];
    assert Enabled(wf, s, a) && states[i+1] == Apply(wf, s, a);
    QueueChanges(wf, s, a);
    ResumeJobAdded(wf, s, a, n);
    assert CanProceed(wf, s, a.k);
    DurationInMilliseconds(FindNode(wf.nodes, n).value.kind.config);
    hide IsRun, Apply, FindNode, ResolveDuration, Lasts;
  }

  /**
   * Delay timing: a delay node that was not skipped has a resolved result only after some
   * initial step at least its duration earlier scheduled its resumption.
   */
  lemma DelayTiming(wf: Workflow, states: seq<State>, steps: seq<Action>, i: nat, n: Id) returns (j: nat)
    requires IsRun(wf, states, steps) && i < |states| && IsDelay(wf, n) && n != ROOT_NODE
    requires WasResolved(states, i, n) && !WasSkipped(states, steps, i, n)
    ensures j < i && StartedAt(states[j], steps[j], n) && states[j].now + DurationOf(wf, n) <= states[i].now
    ensures LongEnough(wf, n, states[i].now - states[j].now)
  {
    hide IsRun, IsDelay, DurationOf, LongEnough, WasResolved, WasSkipped, StartedAt, DueWhenReady, JobRecorded;
    RunTimed(wf, states, steps, i);
    ResolvedHistory(wf, states, steps, i, n);
    SkippedHistory(wf, states, steps, i, n);
    j := DelayHistory(wf, states, steps, i, n);
    DurationIsConfigured(wf, n, states[i].now - states[j].now);
  }

  /** So no child of the delay node is enqueued before that. */
  lemma ChildrenWaitForDelay(wf: Workflow, states: seq<State>, steps: seq<Action>, i: nat, c: Id, n: Id) returns (j: nat)
    requires IsRun(wf, states, steps) && i < |states| && Child(c) in states[i].jobs
    requires FindNode(wf.nodes, c).Some? && n in FindNode(wf.nodes, c).value.inputs
    requires IsDelay(wf, n) && n != ROOT_NODE && !WasSkipped(states, steps, i, n)
    ensures j < i && StartedAt(states[j], steps[j], n) && states[j].now + DurationOf(wf, n) <= states[i].now
    ensures LongEnough(wf, n, states[i].now - states[j].now)
  {
    DependencyOrder(wf, states, steps, i, c);
    j := DelayTiming(wf, states, steps, i, n);
  }
}
