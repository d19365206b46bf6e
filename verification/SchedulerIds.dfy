/** When the id strings of an execution's jobs tell them apart. */
module SchedulerIds {
  import opened Graphs
  import opened Workflows
  import opened GraphValidation
  import opened JobIds
  import opened Scheduler
  import opened SchedulerEffects
  import opened SchedulerContainment

  /** A child's job has the id of a resume job, or of an entry's job at some timestamp. */
  predicate Clash(k: JobKey, c: JobKey) {
    && c.Child?
    && ((k.Resumed? && c.node == k.node + RESUMED_MARK) || (k.Entry? && CanShareManualId(k.node, c.node)))
  }

  /** No other job of the workflow can have the id of this one. */
  ghost predicate PlainKey(wf: Workflow, k: JobKey) {
    forall k' :: KeyOk(wf, k') ==> !Clash(k, k') && !Clash(k', k)
  }

  /** Node ids that keep the workflow's jobs apart. */
  ghost predicate PlainIds(wf: Workflow) {
    forall k :: KeyOk(wf, k) ==> PlainKey(wf, k)
  }

  /** No node has the name whose jobs return without having been looked at. */
  predicate NoRoot(wf: Workflow) {
    ROOT_NODE !in Ids(wf.nodes)
  }

  /** The execution id in front of all ids of an execution makes no difference. */
  lemma ExecutionIdInFront(e: string, stamps: map<Id, string>, k: JobKey)
    ensures e + JobIdOf(stamps, k) == match k
      case Entry(n) => ManualJobId(e, n, if n in stamps then stamps[n] else "0")
      case Child(n) => GenerateNodeJobId(e, n, false)
      case Resumed(n) => GenerateNodeJobId(e, n, true)
  {
    match k
    case Entry(n) =>
      var t := if n in stamps then stamps[n] else "0";
      assert e + ("" + "-" + n + MANUAL_MARK + t) == e + "-" + n + MANUAL_MARK + t;
    case Child(n) =>
      assert e + ("" + NODE_MARK + n) == e + NODE_MARK + n;
    case Resumed(n) =>
      assert e + ("" + NODE_MARK + n + RESUMED_MARK) == e + NODE_MARK + n + RESUMED_MARK;
  }

  ghost predicate InDigits(stamps: map<Id, string>) {
    forall n :: n in stamps ==> IsDigits(stamps[n])
  }

  ghost predicate Timestamps(s: State) {
    InDigits(s.stamps)
  }

  lemma TimestampsStep(wf: Workflow, s: State, a: Action)
    requires Enabled(wf, s, a) && Timestamps(s)
    ensures Timestamps(Apply(wf, s, a))
  {
    QueueChanges(wf, s, a);
    hide Apply, AddOf, IsDigits;
  }

  lemma {:induction false} RunTimestamps(wf: Workflow, states: seq<State>, steps: seq<Action>, i: nat)
    requires IsRun(wf, states, steps) && i < |states|
    ensures Timestamps(states[i])
  {
    hide Apply, Enabled;
    if i > 0 {
      RunTimestamps(wf, states, steps, i - 1);
      TimestampsStep(wf, states[i-1], steps[i-1]);
    }
  }

  /** A child or resume key of an accepted workflow is a node's. */
  lemma KeyIsNode(wf: Workflow, k: JobKey)
    requires Accepted(wf) && KeyOk(wf, k)
    ensures FindNode(wf.nodes, k.node).Some? && FindNode(wf.nodes, k.node).value in wf.nodes
    ensures FindNode(wf.nodes, k.node).value.id == k.node
    ensures k.Resumed? ==> FindNode(wf.nodes, k.node).value.kind.Delay?
  {
    KeyIsLive(wf, k);
    hide HasCycle, UniqueIds, FirstOutputGraph, Live, Fed;
    LiveIsNode(wf, k.node);
  }

  /** An entry's job and a job of another kind share an id only if they clash. */
  lemma EntryShares(stamps: map<Id, string>, e: Id, k: JobKey)
    requires InDigits(stamps) && !k.Entry? && JobIdOf(stamps, Entry(e)) == JobIdOf(stamps, k)
    ensures Clash(Entry(e), k)
  {
    var timestamp := if e in stamps then stamps[e] else "0";
    assert IsDigits(timestamp);
    hide CanShareManualId, ManualTwins, IsDigits, GenerateNodeJobId, ManualJobId;
    SharedManualId("", e, timestamp, "", k.node, k.Resumed?);
    SharingIsCheckable(e, k.node);
  }

  /** Two different jobs share an id only if they clash. */
  lemma SharingIsClashing(stamps: map<Id, string>, k: JobKey, k': JobKey)
    requires InDigits(stamps) && JobIdOf(stamps, k) == JobIdOf(stamps, k') && k != k'
    ensures Clash(k, k') || Clash(k', k)
  {
    if k.Entry? && k'.Entry? {
      OneEntry(stamps, k.node, k'.node);
    } else if k.Entry? {
      EntryShares(stamps, k.node, k');
    } else if k'.Entry? {
      EntryShares(stamps, k'.node, k);
    } else {
      SharedJobId("", k.node, k.Resumed?, "", k'.node, k'.Resumed?);
    }
  }

  /** And jobs that clash do share one, an entry's for a timestamp of its own. */
  lemma ClashingIsSharing(k: JobKey, c: JobKey) returns (timestamp: string)
    requires Clash(k, c)
    ensures IsDigits(timestamp)
    ensures forall stamps: map<Id, string> ::
      (k.Entry? ==> k.node in stamps && stamps[k.node] == timestamp) ==> JobIdOf(stamps, k) == JobIdOf(stamps, c)
  {
    hide CanShareManualId, ManualTwins, GenerateNodeJobId, ManualJobId;
    if k.Entry? {
      SharingIsCheckable(k.node, c.node);
      timestamp :| IsDigits(timestamp) && ManualTwins(k.node, timestamp, c.node);
      SharedManualId("", k.node, timestamp, "", c.node, false);
    } else {
      timestamp := "0";
      SharedJobId("", k.node, true, "", c.node, false);
    }
  }

  lemma ResumeJobTwin(stamps: map<Id, string>, d: Id)
    ensures JobIdOf(stamps, Child(d + RESUMED_MARK)) == JobIdOf(stamps, Resumed(d))
  {
    SharedJobId("", d + RESUMED_MARK, false, "", d, true);
  }

  lemma OneEntry(stamps: map<Id, string>, n: Id, n': Id)
    requires InDigits(stamps)
    requires JobIdOf(stamps, Entry(n)) == JobIdOf(stamps, Entry(n'))
    ensures n == n'
  {
    SharedManualIds("", n, if n in stamps then stamps[n] else "0", "", n', if n' in stamps then stamps[n'] else "0");
  }

  /** So the id of a job that clashes with no other is taken by this job only. */
  lemma TakenByItself(wf: Workflow, stamps: map<Id, string>, jobs: map<JobKey, JobState>, k: JobKey)
    requires PlainKey(wf, k) && forall k' :: k' in jobs ==> KeyOk(wf, k')
    requires InDigits(stamps)
    ensures Taken(stamps, jobs, k) <==> k in jobs
  {
    TakenBySelf(stamps, jobs, k);
    if Taken(stamps, jobs, k) {
      var k' :| k' in jobs && JobIdOf(stamps, k') == JobIdOf(stamps, k);
      hide KeyOk, InDigits, Clash;
      if k' != k {
        SharingIsClashing(stamps, k', k);
      }
    }
  }

  /** The job a step wants to add is one of the workflow's. */
  lemma AddsOwnKey(wf: Workflow, s: State, a: Action)
    requires Contained(wf, s) && Enabled(wf, s, a) && AddOf(wf, s, a).Adds?
    ensures KeyOk(wf, AddOf(wf, s, a).k)
  {
    if a.Proceed? {
      ActiveJob(wf, s, a.k);
      hide Contained, Fed, Live, FindNode;
      if s.jobs[a.k].pc.DelayEnqueue? {
        DelayKeyOk(wf, a.k);
      }
    }
  }

  lemma JobsAreOwn(wf: Workflow, s: State)
    requires Contained(wf, s)
    ensures forall k :: k in s.jobs ==> KeyOk(wf, k)
  {
  }

  /** Every such job a step wants to add has been added afterwards, by this step or before. */
  lemma AddsAreAdded(wf: Workflow, s: State, a: Action)
    requires Contained(wf, s) && Timestamps(s) && Enabled(wf, s, a)
    requires AddOf(wf, s, a).Adds? && PlainKey(wf, AddOf(wf, s, a).k)
    ensures AddOf(wf, s, a).k in Apply(wf, s, a).hist.added
  {
    hide PlainKey, Contained, Enabled, Apply, AddOf, KeyOk, Taken, IsDigits;
    var k, s' := AddOf(wf, s, a).k, Apply(wf, s, a);
    QueueChanges(wf, s, a);
    QueuedIsAdded(wf, s, k);
    JobsAreOwn(wf, s);
    TimestampsStep(wf, s, a);
    TakenByItself(wf, s'.stamps, s.jobs, k);
  }

  // ------------------------------------------------- checked before the start

  /** What a caller can check of the names. */
  predicate PlainNames(wf: Workflow) {
    forall c :: c in wf.nodes && c.id !in EntryNodes(wf) ==>
      && (forall d :: d in wf.nodes && d.kind.Delay? && d.id != ROOT_NODE ==> c.id != d.id + RESUMED_MARK)
      && (forall e :: e in EntryNodes(wf) ==> !CanShareManualId(e, c.id))
  }
}
