/** What the completion lock is for: one worker at a time decides, and completion is announced once. */
module SchedulerLock {
  import opened Graphs
  import opened Workflows
  import opened Scheduler
  import opened SchedulerEffects

  /** Between acquiring the completion lock and releasing it. */
  predicate InSection(pc: Pc) {
    pc.LockedStatus? || pc.LockedCount? || pc.LockedComplete? || pc.Unlock?
  }

  predicate Inside(s: State, k: JobKey) {
    AtPc(s, k) && InSection(s.jobs[k].pc)
  }

  /** About to count, or to complete. */
  predicate Deciding(s: State, k: JobKey) {
    AtPc(s, k) && (s.jobs[k].pc.LockedCount? || s.jobs[k].pc.LockedComplete?)
  }

  ghost predicate Exclusive(s: State) {
    forall k :: Inside(s, k) ==> s.lock == Some(k)
  }

  lemma EffectLock(s: State, k: JobKey, node: Node, pc: Pc)
    requires pc.DelayEnqueue? ==> DelayOf(node).Some?
    ensures Effect(s, k, node, pc).lock ==
      if pc.AcquireLock? && s.lock.None? then Some(k) else if pc.Unlock? && s.lock == Some(k) then None else s.lock
  {
    hide DelayOf, Taken, FirstStart;
  }

  /** What a step does to the lock: only its holder, or an expiry, frees it. */
  lemma LockChanges(wf: Workflow, s: State, a: Action)
    requires Enabled(wf, s, a)
    ensures var s' := Apply(wf, s, a);
      || s'.lock == s.lock
      || (s.lock.None? && a.Proceed? && s'.lock == Some(a.k))
      || (s'.lock.None? && (a.ExpireLock? || ((a.Proceed? || a.Throw?) && s.lock == Some(a.k))))
  {
    if a.Proceed? {
      EffectLock(s, a.k, FindNode(wf.nodes, a.k.node).value, s.jobs[a.k].pc);
    }
    hide NextJob, FindNode, Taken, AfterThrow, Effect, ErrorResult, DelayOf;
  }

  /** Who moves into the section holds the lock; who gives it up has left. */
  lemma MovedExclusively(wf: Workflow, s: State, a: Action, k: JobKey)
    requires Enabled(wf, s, a) && Moves(a, k) && (Inside(s, k) ==> s.lock == Some(k))
    requires MovedJob(wf, s, a, k).Active? && InSection(MovedJob(wf, s, a, k).pc)
    ensures Apply(wf, s, a).lock == Some(k)
  {
    hide FindNode, AfterTask, Tasks, ContinueOnFailResult, ReleaseEffect, StartDelay, WithResult;
  }

  lemma ExclusiveStep(wf: Workflow, s: State, a: Action)
    requires Enabled(wf, s, a) && Exclusive(s) && !a.ExpireLock?
    ensures Exclusive(Apply(wf, s, a))
  {
    var s' := Apply(wf, s, a);
    QueueChanges(wf, s, a);
    LockChanges(wf, s, a);
    hide Apply, Enabled, AddOf, MovedJob, InSection;
    forall k | Inside(s', k) ensures s'.lock == Some(k) {
      if Moves(a, k) {
        JobMoves(wf, s, a, k);
        MovedExclusively(wf, s, a, k);
      } else {
        assert Inside(s, k);
      }
    }
  }

  /** No lock expires in the first i steps. */
  ghost predicate NoExpiry(steps: seq<Action>, i: nat)
    requires i <= |steps|
  {
    forall j :: 0 <= j < i ==> !steps[j].ExpireLock?
  }

  lemma {:induction false} RunExclusive(wf: Workflow, states: seq<State>, steps: seq<Action>, i: nat)
    requires IsRun(wf, states, steps) && i < |states| && NoExpiry(steps, i)
    ensures Exclusive(states[i])
  {
    hide Apply, Enabled, Exclusive;
    if i == 0 {
      NobodyInside(wf);
    } else {
      RunExclusive(wf, states, steps, i - 1);
      ExclusiveStep(wf, states[i-1], steps[i-1]);
    }
  }

  lemma NobodyInside(wf: Workflow)
    ensures Exclusive(Init(wf))
  {
  }

  /** While no lock expires, at most one worker is in the completion check at a time. */
  lemma OneDecides(wf: Workflow, states: seq<State>, steps: seq<Action>, i: nat, k: JobKey, k': JobKey)
    requires IsRun(wf, states, steps) && i < |states| && NoExpiry(steps, i)
    requires Inside(states[i], k) && Inside(states[i], k')
    ensures k == k'
  {
    RunExclusive(wf, states, steps, i);
  }

  // ------------------------------------------------- how often it is announced

  /** A worker found nothing pending, sets the status and emits the completion event. */
  predicate Announces(s: State, a: Action) {
    a.Proceed? && AtPc(s, a.k) && s.jobs[a.k].pc.LockedComplete?
  }

  /** A lock expires while somebody holds it. */
  predicate TakesLock(s: State, a: Action) {
    a.ExpireLock? && s.lock.Some?
  }

  function One(b: bool): nat {
    if b then 1 else 0
  }

  /** Announcements so far of an execution that was not paused at that moment. */
  function Announcements(states: seq<State>, steps: seq<Action>, i: nat): nat
    requires i <= |steps| < |states|
  {
    if i == 0 then 0
    else Announcements(states, steps, i - 1) + One(Announces(states[i-1], steps[i-1]) && states[i-1].status != Paused)
  }

  /** Announcements so far of one that was paused. */
  function PausedAnnouncements(states: seq<State>, steps: seq<Action>, i: nat): nat
    requires i <= |steps| < |states|
  {
    if i == 0 then 0
    else PausedAnnouncements(states, steps, i - 1) + One(Announces(states[i-1], steps[i-1]) && states[i-1].status == Paused)
  }

  function Expiries(states: seq<State>, steps: seq<Action>, i: nat): nat
    requires i <= |steps| < |states|
  {
    if i == 0 then 0 else Expiries(states, steps, i - 1) + One(TakesLock(states[i-1], steps[i-1]))
  }

  function InsideSet(s: State): set<JobKey> {
    set k | k in s.jobs && Inside(s, k)
  }

  function DecidingSet(s: State): set<JobKey> {
    set k | k in s.jobs && Deciding(s, k)
  }

  /** At most one worker is in the section for the lock that is held, and one for each that expired. */
  ghost predicate Bounded(s: State, expiries: nat) {
    |InsideSet(s)| <= expiries + One(s.lock.Some?)
  }

  /** Who moves into the section takes the lock; only who leaves it may free it. */
  lemma SectionMoves(wf: Workflow, s: State, a: Action, k: JobKey)
    requires Enabled(wf, s, a) && Moves(a, k)
    ensures var s', j := Apply(wf, s, a), MovedJob(wf, s, a, k);
      var inside := j.Active? && InSection(j.pc);
      && (inside && !Inside(s, k) ==> s.lock.None? && s'.lock == Some(k))
      && (inside && Inside(s, k) ==> s'.lock == s.lock)
      && (!inside && Inside(s, k) && s'.lock != s.lock ==> s.lock == Some(k) && s'.lock.None?)
      && (!inside && !Inside(s, k) ==> s'.lock == s.lock)
  {
    if a.Proceed? {
      EffectLock(s, k, FindNode(wf.nodes, k.node).value, s.jobs[k].pc);
    }
    hide FindNode, AfterTask, Tasks, ContinueOnFailResult, Effect, ErrorResult, DelayOf;
  }

  lemma UnmovedLock(wf: Workflow, s: State, a: Action)
    requires Enabled(wf, s, a) && forall k :: !Moves(a, k)
    ensures Apply(wf, s, a).lock == if a.ExpireLock? then None else s.lock
  {
    assert a.Begin? || a.Proceed? || a.ExecutorReturns? || a.Throw? || a.RecordFailure? ==> Moves(a, a.k);
    hide Taken;
  }

  /** What a step does to who is inside. */
  lemma InsideChanges(wf: Workflow, s: State, a: Action, k: JobKey)
    requires Enabled(wf, s, a) && !Moves(a, k)
    ensures Inside(Apply(wf, s, a), k) <==> Inside(s, k)
    ensures Deciding(Apply(wf, s, a), k) <==> Deciding(s, k)
  {
    QueueChanges(wf, s, a);
    hide Apply, Enabled, AddOf, InSection;
  }

  lemma MovedInside(wf: Workflow, s: State, a: Action, k: JobKey)
    requires Enabled(wf, s, a) && Moves(a, k)
    ensures Inside(Apply(wf, s, a), k) <==> MovedJob(wf, s, a, k).Active? && InSection(MovedJob(wf, s, a, k).pc)
    ensures k in s.jobs
  {
    JobMoves(wf, s, a, k);
    hide Apply, Enabled, MovedJob, InSection;
  }

  lemma InsideSetChanges(wf: Workflow, s: State, a: Action)
    requires Enabled(wf, s, a)
    ensures forall k :: Moves(a, k) ==>
      InsideSet(Apply(wf, s, a)) == if Inside(Apply(wf, s, a), k) then InsideSet(s) + {k} else InsideSet(s) - {k}
    ensures (forall k :: !Moves(a, k)) ==> InsideSet(Apply(wf, s, a)) == InsideSet(s)
  {
    hide Apply, Enabled;
    var s' := Apply(wf, s, a);
    forall k | !Moves(a, k) ensures Inside(s', k) <==> Inside(s, k) {
      InsideChanges(wf, s, a, k);
    }
    hide Inside;
    assert forall k :: k in InsideSet(s') <==> Inside(s', k) by { InsideMember(s'); }
    assert forall k :: k in InsideSet(s) <==> Inside(s, k) by { InsideMember(s); }
  }

  lemma InsideMember(s: State)
    ensures forall k :: k in InsideSet(s) <==> Inside(s, k)
    ensures forall k :: k in DecidingSet(s) <==> Deciding(s, k)
    ensures DecidingSet(s) <= InsideSet(s)
  {
  }

  lemma BoundedStep(wf: Workflow, s: State, a: Action, e: nat)
    requires Enabled(wf, s, a) && Bounded(s, e)
    ensures Bounded(Apply(wf, s, a), e + One(TakesLock(s, a)))
  {
    hide Apply, Enabled, MovedJob, InSection, Inside, InsideSet;
    var s' := Apply(wf, s, a);
    InsideSetChanges(wf, s, a);
    InsideMember(s);
    if k :| Moves(a, k) {
      SectionMoves(wf, s, a, k);
      MovedInside(wf, s, a, k);
    } else {
      UnmovedLock(wf, s, a);
    }
  }

  // -------------------------------------------------------- the bound

  /**
   * Nothing has been announced while the execution runs; a paused one has no other announcements;
   * and in a terminal one, each worker that can still announce is one of those allowed inside.
   */
  ghost predicate Accountable(s: State, announced: nat, paused: nat, expiries: nat) {
    match s.status
    case Running => announced == 0 && paused == 0
    case Paused => announced == 0
    case _ => paused == 0 && announced + |DecidingSet(s)| <= expiries + 1
  }

  /** A terminal status read under the lock leads to its release. */
  lemma MovedDecides(wf: Workflow, s: State, a: Action, k: JobKey)
    requires Enabled(wf, s, a) && Moves(a, k)
    requires MovedJob(wf, s, a, k).Active? && (MovedJob(wf, s, a, k).pc.LockedCount? || MovedJob(wf, s, a, k).pc.LockedComplete?)
    ensures Inside(s, k) && !Announces(s, a) && (Terminal(s.status) ==> Deciding(s, k))
  {
    hide FindNode, AfterTask, ContinueOnFailResult;
  }

  lemma DecidingShrinks(wf: Workflow, s: State, a: Action)
    requires Enabled(wf, s, a)
    ensures DecidingSet(Apply(wf, s, a)) <= InsideSet(s)
    ensures Terminal(s.status) ==> DecidingSet(Apply(wf, s, a)) <= DecidingSet(s)
    ensures Announces(s, a) ==> a.k !in DecidingSet(Apply(wf, s, a)) && a.k in DecidingSet(s)
  {
    hide Apply, Enabled, MovedJob, InSection, Terminal;
    var s' := Apply(wf, s, a);
    forall k | Deciding(s', k) ensures Inside(s, k) && (Terminal(s.status) ==> Deciding(s, k)) && !(Announces(s, a) && a.k == k) {
      if Moves(a, k) {
        JobMoves(wf, s, a, k);
        MovedDecides(wf, s, a, k);
      } else {
        InsideChanges(wf, s, a, k);
        DecidingIsInside(s, k);
      }
    }
  }

  lemma DecidingIsInside(s: State, k: JobKey)
    ensures Deciding(s, k) ==> Inside(s, k)
  {
  }

  lemma AccountableStep(wf: Workflow, s: State, a: Action, announced: nat, paused: nat, e: nat)
    requires Enabled(wf, s, a) && Bounded(s, e) && Accountable(s, announced, paused, e)
    ensures Accountable(Apply(wf, s, a), announced + One(Announces(s, a) && s.status != Paused),
                        paused + One(Announces(s, a) && s.status == Paused), e + One(TakesLock(s, a)))
  {
    var s' := Apply(wf, s, a);
    StatusChanges(wf, s, a);
    AnnouncesCompleted(s, a);
    DecidingShrinks(wf, s, a);
    hide Apply, Enabled, StatusWanted, DecidingSet, InsideSet, Announces, Inside;
    InsideMember(s);
    SubsetSize(DecidingSet(s'), if Announces(s, a) then InsideSet(s) - {a.k} else InsideSet(s));
    if Terminal(s.status) {
      SubsetSize(DecidingSet(s'), if Announces(s, a) then DecidingSet(s) - {a.k} else DecidingSet(s));
    }
  }

  lemma AnnouncesCompleted(s: State, a: Action)
    ensures Announces(s, a) ==> StatusWanted(s, a) == Some(Completed)
    ensures StatusWanted(s, a) != Some(Running)
    ensures StatusWanted(s, a) == Some(Paused) ==> !Announces(s, a)
  {
  }

  lemma {:induction false} RunAccountable(wf: Workflow, states: seq<State>, steps: seq<Action>, i: nat)
    requires IsRun(wf, states, steps) && i < |states|
    ensures Bounded(states[i], Expiries(states, steps, i))
    ensures Accountable(states[i], Announcements(states, steps, i), PausedAnnouncements(states, steps, i), Expiries(states, steps, i))
  {
    hide Apply, Enabled, Bounded, Accountable, Announces, TakesLock;
    if i == 0 {
      NothingAnnounced(wf);
    } else {
      RunAccountable(wf, states, steps, i - 1);
      BoundedStep(wf, states[i-1], steps[i-1], Expiries(states, steps, i - 1));
      AccountableStep(wf, states[i-1], steps[i-1], Announcements(states, steps, i - 1),
                      PausedAnnouncements(states, steps, i - 1), Expiries(states, steps, i - 1));
    }
  }

  lemma NothingAnnounced(wf: Workflow)
    ensures Bounded(Init(wf), 0) && Accountable(Init(wf), 0, 0, 0)
  {
    assert InsideSet(Init(wf)) == {};
  }

  /**
   * Unless an execution is paused, its completion is announced at most once more than locks
   * expired on their holders, however many workers check at the same time.
   */
  lemma AnnouncedAtMost(wf: Workflow, states: seq<State>, steps: seq<Action>, i: nat)
    requires IsRun(wf, states, steps) && i < |states|
    ensures Announcements(states, steps, i) <= 1 + Expiries(states, steps, i)
    ensures Announcements(states, steps, i) > 0 ==> PausedAnnouncements(states, steps, i) == 0
    ensures PausedAnnouncements(states, steps, i) > 0 ==> states[i].status == Paused
  {
    RunAccountable(wf, states, steps, i);
  }
}
