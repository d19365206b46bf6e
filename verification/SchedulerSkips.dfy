/** A skip releases: children of skipped nodes run. */
module SchedulerSkips {
  import opened Graphs
  import opened Workflows
  import opened GraphValidation
  import opened JobIds
  import opened Scheduler
  import opened SchedulerEffects
  import opened SchedulerContainment
  import opened SchedulerIds
  import opened SchedulerOnce
  import opened SchedulerOrder
  import opened SchedulerJoin
  import opened SchedulerRuns

  /** All inputs of the node were skipped. */
  predicate InputsSkipped(wf: Workflow, s: State, n: Id) {
    forall m :: m in InputsOf(wf, n) ==> m in s.results && s.results[m] == SKIPPED_RESULT
  }

  lemma SkippedIsReady(wf: Workflow, s: State, n: Id)
    requires HasInputs(wf, n) && InputsSkipped(wf, s, n)
    ensures Ready(wf, s.results, n)
  {
    hide FindNode;
    var inputs := InputsOf(wf, n);
    forall i | 0 <= i < |inputs| ensures ResolvedIn(s.results, inputs[i]) {
      assert inputs[i] in inputs;
    }
  }

  /** A skip does not spread: a node whose inputs were all skipped gets a job like any other. */
  lemma SkippedParentsRelease(wf: Workflow, states: seq<State>, steps: seq<Action>, i: nat, n: Id)
    requires WellLinked(wf) && PlainFor(wf, n) && IsRun(wf, states, steps) && Kept(wf, states, steps, n) && i < |states|
    requires HasInputs(wf, n) && InputsSkipped(wf, states[i], n) && forall k :: !Holds(wf, states[i], k, n)
    requires n !in states[i].results
    ensures WasQueued(states, i, Child(n)) || WasQueued(states, i, Entry(n))
  {
    hide WellLinked, PlainFor, IsRun, Kept, Holds, HasInputs, InputsSkipped, WasQueued, Ready;
    SkippedIsReady(wf, states[i], n);
    NoLostJoin(wf, states, steps, i, n);
  }

  // ------------------------------------------------------------- a run

  /** An entry with one child, which has one child that waits for it alone. */
  ghost predicate Chain(wf: Workflow, a: Id, b: Id, c: Id) {
    && EntryNodes(wf) != [] && EntryNodes(wf)[0] == a && a != ROOT_NODE && c != ROOT_NODE
    && a != b && b != c && a != c && !CanShareManualId(a, c)
    && FindNode(wf.nodes, a).Some? && FindNode(wf.nodes, a).value.kind.Regular? && OutputsOf(wf, a) == [b]
    && OutputsOf(wf, b) == [c]
    && FindNode(wf.nodes, c).Some? && FindNode(wf.nodes, c).value.kind.Regular?
    && HasInputs(wf, c) && forall m :: m in InputsOf(wf, c) ==> m == b
  }

  /** The entry selects none of its children. */
  const NONE_SELECTED := ExecutionResult(true, None, None, Some([]), false)

  /** The entry's result and the skip are recorded. */
  function EntryAndSkip(s: State, a: Id, b: Id): State {
    Skip(WithResult(s, a, NONE_SELECTED), b)
  }

  lemma WriteSelection(wf: Workflow, s: State, a: Id, b: Id)
    requires Entry(a) in s.jobs && FindNode(wf.nodes, a).Some? && OutputsOf(wf, a) == [b]
    ensures var k, r := Entry(a), NONE_SELECTED;
      CanTake(wf, WithPc(s, k, WriteResult(r)), Proceed(k), WithPc(WithResult(s, a, r), k, Releasing(r, [Consider(b, false)])))
  {
    FindNodeId(wf, a);
    assert Tasks([b], Some([])) == [Consider(b, false)];
    hide FindNode, Tasks;
  }

  lemma SkipStep(wf: Workflow, s: State, k: JobKey, r: ExecutionResult, b: Id, c: Id)
    requires k in s.jobs && FindNode(wf.nodes, k.node).Some? && OutputsOf(wf, b) == [c]
    ensures CanTake(wf, WithPc(s, k, Releasing(r, [Consider(b, false)])), Proceed(k),
                    WithPc(Skip(s, b), k, Releasing(r, [Consider(c, true)])))
  {
    assert Tasks([c], None) + [Consider(b, false)][1..] == [Consider(c, true)];
    hide FindNode, Tasks, OutputsOf;
  }

  lemma ReadyByC(wf: Workflow, s: State, a: Id, b: Id, c: Id)
    requires Chain(wf, a, b, c)
    ensures Ready(wf, EntryAndSkip(s, a, b).results, c)
  {
    var s' := EntryAndSkip(s, a, b);
    hide FindNode, EntryNodes, OutputsOf;
    assert InputsSkipped(wf, s', c);
    SkippedIsReady(wf, s', c);
  }

  /** The grandchild's job is in the queue. */
  function Grandchild(wf: Workflow, a: Id, b: Id, c: Id): State
    requires EntryNodes(wf) != []
  {
    WithAdded(EntryAndSkip(FirstQueued(wf, a, "0"), a, b), Child(c), 0)
  }

  lemma UpToGrandchild(wf: Workflow, a: Id, b: Id, c: Id)
    requires Chain(wf, a, b, c)
    ensures Leads(wf, WithPc(Grandchild(wf, a, b, c), Entry(a), Releasing(NONE_SELECTED, [])))
  {
    var k, r, s := Entry(a), NONE_SELECTED, FirstQueued(wf, a, "0");
    var written, skipped := WithResult(s, a, r), EntryAndSkip(s, a, b);
    QueueFirst(wf, a, "0");
    FirstCanStart(wf, a, "0");
    WriteSelection(wf, s, a, b);
    SkipStep(wf, written, k, r, b, c);
    LookAtChild(wf, skipped, k, r, c, []);
    EnqueueChild(wf, skipped, k, r, c, []);
    ReadyByC(wf, s, a, b, c);
    assert [Consider(c, true)] + [] == [Consider(c, true)];
    hide Leads, CanTake, WithPc, WithAdded, FindNode, OutputsOf, Ready, CanStart, EntryNodes, CanShareManualId;
    ExecutionReturns(wf, s, k, FindNode(wf.nodes, a).value, r);
    ThenTo(wf, WithPc(s, k, WriteResult(r)), Proceed(k), WithPc(written, k, Releasing(r, [Consider(b, false)])));
    ThenTo(wf, WithPc(written, k, Releasing(r, [Consider(b, false)])), Proceed(k), WithPc(skipped, k, Releasing(r, [Consider(c, true)])));
    ThenTo(wf, WithPc(skipped, k, Releasing(r, [Consider(c, true)])), Proceed(k), WithPc(skipped, k, Releasing(r, [Enqueue(c)] + [])));
    ThenTo(wf, WithPc(skipped, k, Releasing(r, [Enqueue(c)] + [])), Proceed(k),
           WithPc(WithAdded(skipped, Child(c), skipped.now), k, Releasing(r, [])));
  }

  lemma IdIsFree(a: Id, c: Id)
    requires !CanShareManualId(a, c)
    ensures !Taken(map[a := "0"], map[Entry(a) := Waiting(0)], Child(c))
  {
    SharedManualId("", a, "0", "", c, false);
    SharingIsCheckable(a, c);
    assert IsDigits("0");
  }

  lemma GrandchildCanStart(wf: Workflow, a: Id, b: Id, c: Id)
    requires Chain(wf, a, b, c)
    ensures var s := WithPc(Grandchild(wf, a, b, c), Entry(a), Releasing(NONE_SELECTED, []));
      CanStart(wf, s, Child(c), FindNode(wf.nodes, c).value) && InputsSkipped(wf, s, c)
  {
    IdIsFree(a, c);
    hide FindNode, EntryNodes, OutputsOf, Taken, CanShareManualId;
  }

  /** A node whose inputs were all skipped, and nothing else ever resolved one, is executed. */
  lemma RunsAfterSkip(wf: Workflow, a: Id, b: Id, c: Id) returns (states: seq<State>, steps: seq<Action>)
    requires Chain(wf, a, b, c)
    ensures IsRun(wf, states, steps) && steps != [] && steps[|steps|-1] == ExecutorReturns(Child(c), DONE)
    ensures InputsSkipped(wf, states[|steps|-1], c)
  {
    var s := WithPc(Grandchild(wf, a, b, c), Entry(a), Releasing(NONE_SELECTED, []));
    var node := FindNode(wf.nodes, c).value;
    UpToGrandchild(wf, a, b, c);
    GrandchildCanStart(wf, a, b, c);
    IsRegular(wf, a, b, c);
    hide Leads, Chain, CanStart, Grandchild, FindNode, Enabled, Apply, InputsSkipped;
    UpToExecutor(wf, s, Child(c), node);
    CanReturn(wf, s, Child(c), node);
    SameResults(wf, s, Child(c), c);
    states, steps := OneStepMore(wf, WithPc(s, Child(c), Execute), ExecutorReturns(Child(c), DONE));
  }

  lemma IsRegular(wf: Workflow, a: Id, b: Id, c: Id)
    requires Chain(wf, a, b, c)
    ensures FindNode(wf.nodes, c).value.kind.Regular?
  {
  }

  lemma CanReturn(wf: Workflow, s: State, k: JobKey, node: Node)
    requires CanStart(wf, s, k, node) && node.kind.Regular?
    ensures Enabled(wf, WithPc(s, k, Execute), ExecutorReturns(k, DONE))
  {
    hide FindNode;
  }

  lemma SameResults(wf: Workflow, s: State, k: JobKey, c: Id)
    requires InputsSkipped(wf, s, c)
    ensures InputsSkipped(wf, WithPc(s, k, Execute), c)
  {
  }
}
