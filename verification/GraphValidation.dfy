/** Workflow graph validation: cycle search, reachability, references, duplicates. */
module GraphValidation {
  import opened Graphs
  import opened Workflows
  import opened JsSets

  datatype ErrorKind = CycleFound | Unreachable | MissingRef | DuplicateId | NoEntryNode

  datatype Severity = Error | Warning

  /** The message text is not modelled. */
  datatype ValidationError = ValidationError(kind: ErrorKind, severity: Severity, nodeIds: Option<seq<Id>>)

  datatype ValidationResult = ValidationResult(valid: bool, errors: seq<ValidationError>)

  // ---------------------------------------------------------------- cycles

  /**
   * The state of the depth-first search: `stack` is the path being explored, `done` the
   * vertices finished so far, each after all its successors.
   */
  ghost predicate Exploring(g: Graph, visited: seq<Id>, stack: seq<Id>, done: seq<Id>) {
    && (stack != [] ==> IsPath(g, stack))
    && NoDup(stack)
    && Postorder(g, done)
    && (forall x :: x in stack ==> x !in done)
    && (forall x :: x in visited <==> x in stack || x in done)
  }

  /** A path without repetitions whose last vertex has an edge back into the path. */
  ghost predicate ClosesOnItself(g: Graph, p: seq<Id>) {
    IsPath(g, p) && NoDup(p) && exists v :: v in p && v in Succ(g, p[|p|-1])
  }

  lemma FinishVertex(g: Graph, visited: seq<Id>, stack: seq<Id>, id: Id, done: seq<Id>)
    requires Exploring(g, visited, stack + [id], done)
    requires AllFinished(Succ(g, id), |Succ(g, id)|, done)
    ensures Exploring(g, visited, stack, done + [id])
  {
    var p := stack + [id];
    forall i | 0 <= i < |stack| ensures p[i] == stack[i] && stack[i] != id {
      assert p[i] != p[|stack|];
    }
    forall i | 0 <= i < |stack| - 1 ensures stack[i+1] in Succ(g, stack[i]) {
      assert p[i+1] in Succ(g, p[i]);
    }
    forall i, v | 0 <= i < |done + [id]| && v in Succ(g, (done + [id])[i])
      ensures v in (done + [id])[..i]
    {
      assert (done + [id])[..i] == done[..i];
      if i == |done| { assert done[..i] == done; }
    }
  }

  lemma PushVertex(g: Graph, visited: seq<Id>, stack: seq<Id>, id: Id, done: seq<Id>)
    requires Exploring(g, visited, stack, done) && id !in visited
    requires stack != [] ==> id in Succ(g, stack[|stack|-1])
    ensures Exploring(g, visited + [id], stack + [id], done) && id !in stack
  {
  }

  /** How the search leaves the stack when it found a cycle below nodeId. */
  ghost predicate FoundBelow(g: Graph, before: seq<Id>, nodeId: Id, stack: seq<Id>) {
    && ClosesOnItself(g, stack)
    && (before + [nodeId] <= stack || (nodeId in before && stack == before))
  }

  function Elements(s: seq<Id>): set<Id> {
    set x | x in s
  }

  /** The measure of the searches: how much of a finite universe is still to be visited. */
  ghost function Unvisited(universe: set<Id>, visited: seq<Id>): nat {
    |universe - Elements(visited)|
  }

  ghost predicate Grows(before: seq<Id>, now: seq<Id>) {
    Elements(before) <= Elements(now)
  }

  lemma FewerUnvisited(universe: set<Id>, visited: seq<Id>, id: Id)
    requires id in universe && id !in visited
    ensures Unvisited(universe, visited + [id]) < Unvisited(universe, visited)
    ensures Grows(visited, visited + [id])
  {
    SubsetSize(universe - Elements(visited + [id]), universe - Elements(visited) - {id});
  }

  lemma GrowsFurther(universe: set<Id>, a: seq<Id>, b: seq<Id>, c: seq<Id>)
    requires Grows(a, b) && Grows(b, c)
    ensures Grows(a, c) && Unvisited(universe, c) <= Unvisited(universe, a)
  {
    SubsetSize(universe - Elements(c), universe - Elements(a));
  }

  /**
   * Searches depth first from nodeId. When it answers true the recursion stack is left as it
   * stood when an edge back into it was met; when it answers false the stack is restored and
   * nodeId is finished.
   */
  method HasCycleFromNode(nodeId: Id, nodeMap: map<Id, Node>, visited: JsSet, recursionStack: JsSet,
                          ghost universe: set<Id>, ghost done: seq<Id>)
    returns (found: bool, ghost done': seq<Id>)
    requires visited.Valid() && recursionStack.Valid() && visited != recursionStack
    requires Exploring(Outputs(nodeMap), visited.items, recursionStack.items, done)
    requires recursionStack.items != [] ==>
               nodeId in Succ(Outputs(nodeMap), recursionStack.items[|recursionStack.items|-1])
    requires nodeId in universe && ClosedUniverse(Outputs(nodeMap), universe)
    modifies visited, recursionStack
    ensures visited.Valid() && recursionStack.Valid()
    ensures Grows(old(visited.items), visited.items)
    ensures !found ==>
              && recursionStack.items == old(recursionStack.items)
              && Exploring(Outputs(nodeMap), visited.items, recursionStack.items, done')
              && nodeId in done'
    ensures found ==> FoundBelow(Outputs(nodeMap), old(recursionStack.items), nodeId, recursionStack.items)
    decreases Unvisited(universe, visited.items), 0
  {
    ghost var g := Outputs(nodeMap);
    ghost var stack := recursionStack.items;
    if recursionStack.Has(nodeId) {
      BackEdge(g, visited.items, stack, nodeId, done);
      return true, done;
    }
    if visited.Has(nodeId) {
      return false, done;
    }
    hide Exploring, FoundBelow, LeftAbove, Unvisited, Grows, Without, ClosedUniverse, NoDup;
    PushVertex(g, visited.items, stack, nodeId, done);
    FewerUnvisited(universe, visited.items, nodeId);
    visited.Add(nodeId);
    recursionStack.Add(nodeId);
    if nodeId !in nodeMap {
      FinishVertex(g, visited.items, stack, nodeId, done);
      WithoutLast(stack, nodeId);
      recursionStack.Delete(nodeId);
      return false, done + [nodeId];
    }
    ghost var visited1 := visited.items;
    found, done' := AnyOutputHasCycle(nodeId, nodeMap, visited, recursionStack, universe, done);
    GrowsFurther(universe, old(visited.items), visited1, visited.items);
    if found {
      FoundBelowOutput(g, stack, nodeId, recursionStack.items);
      return true, done';
    }
    FinishVertex(g, visited.items, stack, nodeId, done');
    WithoutLast(stack, nodeId);
    recursionStack.Delete(nodeId);
    return false, done' + [nodeId];
  }

  lemma BackEdge(g: Graph, visited: seq<Id>, stack: seq<Id>, nodeId: Id, done: seq<Id>)
    requires Exploring(g, visited, stack, done) && nodeId in stack
    requires nodeId in Succ(g, stack[|stack|-1])
    ensures FoundBelow(g, stack, nodeId, stack)
  {
  }

  ghost predicate LeftAbove(g: Graph, before: seq<Id>, stack: seq<Id>) {
    ClosesOnItself(g, stack) && before <= stack
  }

  lemma LeftAboveOutput(g: Graph, before: seq<Id>, child: Id, stack: seq<Id>)
    requires FoundBelow(g, before, child, stack)
    ensures LeftAbove(g, before, stack)
  {
  }

  lemma FoundBelowOutput(g: Graph, stack: seq<Id>, nodeId: Id, left: seq<Id>)
    requires LeftAbove(g, stack + [nodeId], left)
    ensures FoundBelow(g, stack, nodeId, left)
  {
  }

  /** The loop over the outputs of the vertex on top of the stack. */
  method AnyOutputHasCycle(nodeId: Id, nodeMap: map<Id, Node>, visited: JsSet, recursionStack: JsSet,
                           ghost universe: set<Id>, ghost done: seq<Id>)
    returns (found: bool, ghost done': seq<Id>)
    requires nodeId in nodeMap
    requires visited.Valid() && recursionStack.Valid() && visited != recursionStack
    requires recursionStack.items != [] && recursionStack.items[|recursionStack.items|-1] == nodeId
    requires Exploring(Outputs(nodeMap), visited.items, recursionStack.items, done)
    requires ClosedUniverse(Outputs(nodeMap), universe)
    modifies visited, recursionStack
    ensures visited.Valid() && recursionStack.Valid()
    ensures Grows(old(visited.items), visited.items)
    ensures !found ==>
              && recursionStack.items == old(recursionStack.items)
              && Exploring(Outputs(nodeMap), visited.items, recursionStack.items, done')
              && AllFinished(nodeMap[nodeId].outputs, |nodeMap[nodeId].outputs|, done')
    ensures found ==> LeftAbove(Outputs(nodeMap), old(recursionStack.items), recursionStack.items)
    decreases Unvisited(universe, visited.items), 1
  {
    ghost var g := Outputs(nodeMap);
    ghost var stack := recursionStack.items;
    assert Succ(g, nodeId) == nodeMap[nodeId].outputs;
    assert forall v :: v in Succ(g, nodeId) ==> v in universe;
    var outputs := nodeMap[nodeId].outputs;
    assert Midway(g, visited.items, visited.items, stack, done, outputs, 0);
    hide Exploring, FoundBelow, LeftAbove, Unvisited, Grows, ClosedUniverse, NoDup, Outputs, Midway, AllFinished;
    done' := done;
    var i := 0;
    while i < |outputs|
      invariant 0 <= i <= |outputs|
      invariant visited.Valid() && recursionStack.Valid() && recursionStack.items == stack
      invariant Midway(g, old(visited.items), visited.items, stack, done', outputs, i)
    {
      ghost var doneBefore, visitedBefore := done', visited.items;
      MidwayState(g, universe, old(visited.items), visited.items, stack, done', outputs, i);
      found, done' := HasCycleFromNode(outputs[i], nodeMap, visited, recursionStack, universe, done');
      if found {
        LeftAboveOutput(g, stack, outputs[i], recursionStack.items);
        GrowsFurther(universe, old(visited.items), visitedBefore, visited.items);
        return;
      }
      KeepFinished(g, old(visited.items), visitedBefore, visited.items, stack, doneBefore, done', outputs, i);
      i := i + 1;
    }
    MidwayState(g, universe, old(visited.items), visited.items, stack, done', outputs, i);
    found := false;
  }

  /** The search between two outputs: the first n are finished. */
  ghost predicate Midway(g: Graph, visited0: seq<Id>, visited: seq<Id>, stack: seq<Id>, done: seq<Id>, ids: seq<Id>, n: nat) {
    Exploring(g, visited, stack, done) && Grows(visited0, visited) && AllFinished(ids, n, done)
  }

  lemma MidwayState(g: Graph, universe: set<Id>, visited0: seq<Id>, visited: seq<Id>, stack: seq<Id>, done: seq<Id>, ids: seq<Id>, n: nat)
    requires Midway(g, visited0, visited, stack, done, ids, n)
    ensures Exploring(g, visited, stack, done) && Grows(visited0, visited) && AllFinished(ids, n, done)
    ensures Unvisited(universe, visited) <= Unvisited(universe, visited0)
  {
    GrowsFurther(universe, visited0, visited, visited);
  }

  /** The first n of the ids are finished. */
  ghost predicate AllFinished(ids: seq<Id>, n: nat, done: seq<Id>) {
    n <= |ids| && forall j :: 0 <= j < n ==> ids[j] in done
  }

  /** With the stack unchanged, what was visited and finished stays finished. */
  lemma KeepFinished(g: Graph, visited0: seq<Id>, visited: seq<Id>, visited': seq<Id>, stack: seq<Id>,
                     done: seq<Id>, done': seq<Id>, ids: seq<Id>, n: nat)
    requires Midway(g, visited0, visited, stack, done, ids, n)
    requires Exploring(g, visited', stack, done') && n < |ids| && ids[n] in done'
    requires Grows(visited, visited')
    ensures Midway(g, visited0, visited', stack, done', ids, n + 1)
  {
    forall x | x in done ensures x in done' {
      assert x in Elements(visited);
    }
  }

  lemma ClosingPathReachesCycle(g: Graph, p: seq<Id>)
    requires ClosesOnItself(g, p)
    ensures HasCycle(g) && ReachesCycle(g, p[0])
  {
    var v :| v in p && v in Succ(g, p[|p|-1]);
    var i :| 0 <= i < |p| && p[i] == v;
    var c := p[i..] + [v];
    forall k | 0 <= k < |c| - 1 ensures c[k+1] in Succ(g, c[k]) {
      if k + 1 < |p| - i { assert p[i+k+1] in Succ(g, p[i+k]); }
    }
    assert IsCycle(g, c);
    assert IsPathBetween(g, p[..i+1], p[0], c[0]);
  }

  /** The path reported for the stack left by the search. */
  function FindCyclePath(startNodeId: Id, recursionStack: seq<Id>): seq<Id> {
    if recursionStack == [] || recursionStack[0] == "" then [startNodeId]
    else [recursionStack[0]] + recursionStack
  }

  /**
   * What a cycle report says: it names the first node, in array order, from which a cycle can
   * be reached, then a simple path from that node whose last vertex has an edge back into it.
   * An empty start id reads as "not found", and then only the start is named.
   */
  ghost predicate CycleReport(nodes: seq<Node>, nodeIds: seq<Id>) {
    var g := OutputGraph(nodes);
    exists i :: 0 <= i < |nodes|
      && ReachesCycle(g, nodes[i].id)
      && (forall j :: 0 <= j < i ==> !ReachesCycle(g, nodes[j].id))
      && |nodeIds| > 0 && nodeIds[0] == nodes[i].id
      && if nodes[i].id == "" then |nodeIds| == 1
         else ClosesOnItself(g, nodeIds[1..]) && nodeIds[1] == nodes[i].id
  }

  lemma CycleReachedFromNode(nodes: seq<Node>)
    requires HasCycle(OutputGraph(nodes))
    ensures exists i :: 0 <= i < |nodes| && ReachesCycle(OutputGraph(nodes), nodes[i].id)
  {
    var g := OutputGraph(nodes);
    var c :| IsCycle(g, c);
    assert c[1] in Succ(g, c[0]);
    ReachesSelf(g, c[0]);
    var n := NodeMap(nodes)[c[0]];
    var i :| 0 <= i < |nodes| && nodes[i] == n;
    assert ReachesCycle(g, nodes[i].id);
  }

  method DetectCycle(workflow: Workflow) returns (r: Option<ValidationError>)
    ensures r.Some? <==> HasCycle(OutputGraph(workflow.nodes))
    ensures r.Some? ==> r.value.nodeIds.Some? && CycleReport(workflow.nodes, r.value.nodeIds.value)
    ensures Reports(workflow, CycleFound, r)
  {
    var nodes := workflow.nodes;
    var nodeMap := NodeMap(nodes);
    ghost var g := OutputGraph(nodes);
    ghost var universe := FiniteUniverse(g, "");
    hide ReachesCycle, ClosedUniverse, HasCycle;
    var i := 0;
    while i < |nodes|
      invariant 0 <= i <= |nodes|
      invariant forall j :: 0 <= j < i ==> !ReachesCycle(g, nodes[j].id)
    {
      var visited := new JsSet();
      var recursionStack := new JsSet();
      ghost var done: seq<Id> := [];
      var found;
      found, done := HasCycleFromNode(nodes[i].id, nodeMap, visited, recursionStack, universe, []);
      if found {
        var stack := recursionStack.items;
        assert stack[0] == nodes[i].id;
        ClosingPathReachesCycle(g, stack);
        var cyclePath := FindCyclePath(nodes[i].id, stack);
        assert stack[0] != "" ==> cyclePath[1..] == stack;
        return Some(ValidationError(CycleFound, Error, Some(cyclePath)));
      }
      PostorderNoCycle(g, done, nodes[i].id);
      i := i + 1;
    }
    if HasCycle(g) {
      CycleReachedFromNode(nodes);
    }
    return None;
  }

  // ---------------------------------------------------------- reachability

  /** The ids, in array order, that no path of outputs from the entry reaches. */
  ghost function UnreachableIds(g: Graph, entry: Id, nodes: seq<Node>): seq<Id> {
    if nodes == [] then []
    else UnreachableIds(g, entry, nodes[..|nodes|-1]) +
         if Reaches(g, entry, nodes[|nodes|-1].id) then [] else [nodes[|nodes|-1].id]
  }

  /** The breadth-first search: what is reached or queued is reachable, and nothing is missed. */
  ghost predicate Searched(g: Graph, entry: Id, universe: set<Id>, reached: seq<Id>, queue: seq<Id>) {
    && entry in Elements(reached) + Elements(queue)
    && (forall x :: x in Elements(reached) + Elements(queue) ==> Reaches(g, entry, x) && x in universe)
    && (forall u, v :: u in reached && v in Succ(g, u) ==> v in Elements(reached) + Elements(queue))
  }

  lemma SearchedSkip(g: Graph, entry: Id, universe: set<Id>, reached: seq<Id>, queue: seq<Id>)
    requires Searched(g, entry, universe, reached, queue) && queue != [] && queue[0] in reached
    ensures Searched(g, entry, universe, reached, queue[1..])
  {
    assert queue == [queue[0]] + queue[1..];
    assert Elements(reached) + Elements(queue) == Elements(reached) + Elements(queue[1..]);
  }

  lemma SearchedExpand(g: Graph, entry: Id, universe: set<Id>, reached: seq<Id>, queue: seq<Id>, pushed: seq<Id>)
    requires Searched(g, entry, universe, reached, queue) && queue != []
    requires pushed == Succ(g, queue[0]) && ClosedUniverse(g, universe)
    ensures Searched(g, entry, universe, reached + [queue[0]], queue[1..] + pushed)
    ensures queue[0] in universe
  {
    var reached', queue' := reached + [queue[0]], queue[1..] + pushed;
    assert queue == [queue[0]] + queue[1..];
    assert Elements(reached') + Elements(queue') == Elements(reached) + Elements(queue) + Elements(pushed);
    assert queue[0] in Elements(queue);
    forall v | v in pushed ensures Reaches(g, entry, v) && v in universe {
      ReachesStep(g, entry, queue[0], v);
    }
  }

  method FindUnreachableNodes(workflow: Workflow) returns (r: seq<Id>)
    ensures r == if workflow.entryNodeId == "" then []
                 else UnreachableIds(FirstOutputGraph(workflow.nodes), workflow.entryNodeId, workflow.nodes)
  {
    if workflow.entryNodeId == "" {
      return [];
    }
    var nodes, entry := workflow.nodes, workflow.entryNodeId;
    ghost var g := FirstOutputGraph(nodes);
    ghost var universe := FiniteUniverse(g, entry);
    var reachable := new JsSet();
    var queue := [entry];
    ReachesSelf(g, entry);
    assert Searched(g, entry, universe, reachable.items, queue);
    hide Searched, FindNode, Reaches, Unvisited, Grows, ClosedUniverse, FirstOutputGraph, Ids;
    while |queue| > 0
      invariant reachable.Valid() && fresh(reachable)
      invariant Searched(g, entry, universe, reachable.items, queue)
      decreases Unvisited(universe, reachable.items), |queue|
    {
      var nodeId := queue[0];
      ghost var queueBefore, reachedBefore := queue, reachable.items;
      queue := queue[1..];
      if reachable.Has(nodeId) {
        SearchedSkip(g, entry, universe, reachedBefore, queueBefore);
        continue;
      }
      reachable.Add(nodeId);
      SearchedExpand(g, entry, universe, reachedBefore, queueBefore, Succ(g, nodeId));
      FewerUnvisited(universe, reachedBefore, nodeId);
      FirstOutputs(nodes, nodeId);
      var node := FindNode(nodes, nodeId);
      if node.Some? {
        queue := queue + node.value.outputs;
      }
      assert queue == queueBefore[1..] + Succ(g, nodeId);
    }
    r := NotIn(g, entry, nodes, reachable);
  }

  method NotIn(ghost g: Graph, ghost entry: Id, nodes: seq<Node>, reachable: JsSet) returns (r: seq<Id>)
    requires exists universe :: Searched(g, entry, universe, reachable.items, [])
    ensures r == UnreachableIds(g, entry, nodes)
  {
    ghost var visited := reachable.items;
    r := [];
    var i := 0;
    while i < |nodes|
      invariant 0 <= i <= |nodes|
      invariant reachable.items == visited
      invariant r == UnreachableIds(g, entry, nodes[..i])
    {
      VisitedIffReachable(g, entry, visited, nodes[i].id);
      assert nodes[..i+1][..i] == nodes[..i];
      if !reachable.Has(nodes[i].id) {
        r := r + [nodes[i].id];
      }
      i := i + 1;
    }
    assert nodes[..|nodes|] == nodes;
  }

  lemma VisitedIffReachable(g: Graph, entry: Id, visited: seq<Id>, x: Id)
    requires exists universe :: Searched(g, entry, universe, visited, [])
    ensures x in visited <==> Reaches(g, entry, x)
  {
    var universe :| Searched(g, entry, universe, visited, []);
    assert Elements(visited) + Elements([]) == Elements(visited);
    if Reaches(g, entry, x) {
      var p :| IsPathBetween(g, p, entry, x);
      ClosedContainsReachable(g, Elements(visited), p);
    }
  }

  lemma {:induction false} UnreachableIdsMember(g: Graph, entry: Id, nodes: seq<Node>, x: Id)
    ensures x in UnreachableIds(g, entry, nodes) <==> x in Ids(nodes) && !Reaches(g, entry, x)
  {
    if nodes != [] {
      UnreachableIdsMember(g, entry, nodes[..|nodes|-1], x);
      assert Ids(nodes) == Ids(nodes[..|nodes|-1]) + {nodes[|nodes|-1].id};
    }
  }

  lemma UnreachableLast(g: Graph, entry: Id, nodes: seq<Node>, last: Node)
    ensures UnreachableIds(g, entry, []) == []
    ensures UnreachableIds(g, entry, nodes + [last])
         == UnreachableIds(g, entry, nodes) + if Reaches(g, entry, last.id) then [] else [last.id]
  {
    hide Reaches;
    assert (nodes + [last])[..|nodes|] == nodes;
  }

  /** The list keeps the order of the array, with each unreachable node as often as it is there. */
  lemma {:induction false} UnreachableInOrder(g: Graph, entry: Id, nodes: seq<Node>, more: seq<Node>)
    ensures UnreachableIds(g, entry, nodes + more) == UnreachableIds(g, entry, nodes) + UnreachableIds(g, entry, more)
  {
    hide Reaches, UnreachableIds;
    if more == [] {
      assert nodes + more == nodes;
      UnreachableLast(g, entry, [], Node("", Regular(false), [], []));
    } else {
      var front, last := more[..|more|-1], more[|more|-1];
      UnreachableInOrder(g, entry, nodes, front);
      UnreachableLast(g, entry, nodes + front, last);
      UnreachableLast(g, entry, front, last);
      assert more == front + [last] && nodes + more == nodes + front + [last];
    }
  }

  // ------------------------------------------------ references, duplicates

  ghost predicate Mentions(nodes: seq<Node>, x: Id) {
    exists n :: n in nodes && (x in n.inputs || x in n.outputs)
  }

  method FindMissingReferences(workflow: Workflow) returns (r: seq<Id>)
    ensures NoDup(r)
    ensures forall x :: x in r <==> Mentions(workflow.nodes, x) && x !in Ids(workflow.nodes)
  {
    var nodes := workflow.nodes;
    var nodeIds := Ids(nodes);
    var missingRefs := new JsSet();
    var i := 0;
    while i < |nodes|
      invariant 0 <= i <= |nodes|
      invariant missingRefs.Valid() && fresh(missingRefs)
      invariant forall x :: x in missingRefs.items <==> Mentions(nodes[..i], x) && x !in nodeIds
    {
      AddMissing(nodes[i].inputs, nodeIds, missingRefs);
      AddMissing(nodes[i].outputs, nodeIds, missingRefs);
      assert nodes[..i+1] == nodes[..i] + [nodes[i]];
      assert nodes[i] in nodes[..i+1];
      i := i + 1;
    }
    assert nodes[..|nodes|] == nodes;
    return missingRefs.items;
  }

  method AddMissing(refs: seq<Id>, nodeIds: set<Id>, missingRefs: JsSet)
    requires missingRefs.Valid()
    modifies missingRefs
    ensures missingRefs.Valid()
    ensures forall x :: x in missingRefs.items <==> x in old(missingRefs.items) || (x in refs && x !in nodeIds)
  {
    var j := 0;
    while j < |refs|
      invariant 0 <= j <= |refs| && missingRefs.Valid()
      invariant forall x :: x in missingRefs.items <==>
                  x in old(missingRefs.items) || (x in refs[..j] && x !in nodeIds)
    {
      if refs[j] !in nodeIds {
        missingRefs.Add(refs[j]);
      }
      j := j + 1;
    }
  }

  /** x is the id of one of the first n nodes. */
  ghost predicate Seen(nodes: seq<Node>, n: nat, x: Id)
    requires n <= |nodes|
  {
    exists i :: 0 <= i < n && nodes[i].id == x
  }

  /** x is the id of two of the first n nodes. */
  ghost predicate SeenTwice(nodes: seq<Node>, n: nat, x: Id)
    requires n <= |nodes|
  {
    exists j :: 0 <= j < n && nodes[j].id == x && Seen(nodes, j, x)
  }

  ghost predicate Duplicated(nodes: seq<Node>, x: Id) {
    SeenTwice(nodes, |nodes|, x)
  }

  lemma SeenNext(nodes: seq<Node>, n: nat, x: Id)
    requires n < |nodes|
    ensures Seen(nodes, n + 1, x) <==> Seen(nodes, n, x) || nodes[n].id == x
    ensures SeenTwice(nodes, n + 1, x) <==> SeenTwice(nodes, n, x) || (nodes[n].id == x && Seen(nodes, n, x))
  {
  }

  method FindDuplicateNodeIds(workflow: Workflow) returns (r: seq<Id>)
    ensures NoDup(r)
    ensures forall x :: x in r <==> Duplicated(workflow.nodes, x)
  {
    hide Seen, SeenTwice;
    var nodes := workflow.nodes;
    var seen := new JsSet();
    var duplicates := new JsSet();
    forall x ensures !Seen(nodes, 0, x) && !SeenTwice(nodes, 0, x) { NothingSeen(nodes, x); }
    var k := 0;
    while k < |nodes|
      invariant 0 <= k <= |nodes|
      invariant seen.Valid() && duplicates.Valid() && fresh(seen) && fresh(duplicates) && seen != duplicates
      invariant forall x :: x in seen.items <==> Seen(nodes, k, x)
      invariant forall x :: x in duplicates.items <==> SeenTwice(nodes, k, x)
    {
      forall x
        ensures Seen(nodes, k + 1, x) <==> Seen(nodes, k, x) || nodes[k].id == x
        ensures SeenTwice(nodes, k + 1, x) <==> SeenTwice(nodes, k, x) || (nodes[k].id == x && Seen(nodes, k, x))
      {
        SeenNext(nodes, k, x);
      }
      if seen.Has(nodes[k].id) {
        duplicates.Add(nodes[k].id);
      } else {
        seen.Add(nodes[k].id);
      }
      k := k + 1;
    }
    return duplicates.items;
  }

  lemma NothingSeen(nodes: seq<Node>, x: Id)
    ensures !Seen(nodes, 0, x) && !SeenTwice(nodes, 0, x)
  {
  }

  // ------------------------------------------------------------ validation

  ghost predicate EntryAcceptable(workflow: Workflow) {
    if workflow.entryNodeId == "" then workflow.hasTriggers else workflow.entryNodeId in Ids(workflow.nodes)
  }

  function ValidateEntryNode(workflow: Workflow): (r: Option<ValidationError>)
    ensures Reports(workflow, NoEntryNode, r)
  {
    if workflow.entryNodeId == "" && !workflow.hasTriggers then
      Some(ValidationError(NoEntryNode, Error, None))
    else if workflow.entryNodeId != "" && FindNode(workflow.nodes, workflow.entryNodeId).None? then
      Some(ValidationError(NoEntryNode, Error, Some([workflow.entryNodeId])))
    else
      None
  }

  /** What acceptance means, stated without the searches. */
  ghost predicate Accepted(workflow: Workflow) {
    && EntryAcceptable(workflow)
    && UniqueIds(workflow.nodes)
    && ClosedReferences(workflow.nodes)
    && !HasCycle(FirstOutputGraph(workflow.nodes))
  }

  /** With unique ids it does not matter which definition of an id is followed. */
  lemma AcceptedIsAcyclic(workflow: Workflow)
    requires UniqueIds(workflow.nodes)
    ensures HasCycle(FirstOutputGraph(workflow.nodes)) <==> HasCycle(OutputGraph(workflow.nodes))
  {
    UniqueGraphsAgree(workflow.nodes);
  }

  ghost predicate UnreachableNode(workflow: Workflow, x: Id) {
    x in Ids(workflow.nodes) && !Reaches(FirstOutputGraph(workflow.nodes), workflow.entryNodeId, x)
  }

  ghost predicate Violated(workflow: Workflow, kind: ErrorKind) {
    match kind
    case NoEntryNode => !EntryAcceptable(workflow)
    case CycleFound => HasCycle(OutputGraph(workflow.nodes))
    case DuplicateId => !UniqueIds(workflow.nodes)
    case MissingRef => !ClosedReferences(workflow.nodes)
    case Unreachable => workflow.entryNodeId != "" && exists x :: UnreachableNode(workflow, x)
  }

  /** The nodes a report of each kind must name. */
  ghost predicate Names(workflow: Workflow, e: ValidationError) {
    match e.kind
    case NoEntryNode => e.nodeIds ==
        if workflow.entryNodeId == "" then None else Some([workflow.entryNodeId])
    case CycleFound => e.nodeIds.Some? && CycleReport(workflow.nodes, e.nodeIds.value)
    case DuplicateId => e.nodeIds.Some? && NoDup(e.nodeIds.value)
        && forall x :: x in e.nodeIds.value <==> Duplicated(workflow.nodes, x)
    case MissingRef => e.nodeIds.Some? && NoDup(e.nodeIds.value)
        && forall x :: x in e.nodeIds.value <==> Mentions(workflow.nodes, x) && x !in Ids(workflow.nodes)
    case Unreachable => e.nodeIds == Some(
        UnreachableIds(FirstOutputGraph(workflow.nodes), workflow.entryNodeId, workflow.nodes))
  }

  function Append<T>(s: seq<T>, o: Option<T>): seq<T> {
    if o.Some? then s + [o.value] else s
  }

  /** An optional report that is there exactly when its kind of violation is, and names it. */
  ghost predicate Reports(workflow: Workflow, kind: ErrorKind, o: Option<ValidationError>) {
    && (o.Some? <==> Violated(workflow, kind))
    && (o.Some? ==> o.value.kind == kind && ReportOk(workflow, o.value))
  }

  ghost predicate ReportOk(workflow: Workflow, e: ValidationError) {
    Names(workflow, e) && (e.severity == Warning <==> e.kind == Unreachable)
  }

  ghost predicate HasReport(errors: seq<ValidationError>, kind: ErrorKind) {
    exists i :: 0 <= i < |errors| && errors[i].kind == kind
  }

  lemma AppendReport(workflow: Workflow, errors: seq<ValidationError>, kinds: set<ErrorKind>, kind: ErrorKind, o: Option<ValidationError>)
    requires ListsExactly(workflow, errors, kinds) && Reports(workflow, kind, o) && kind !in kinds
    ensures ListsExactly(workflow, Append(errors, o), kinds + {kind})
  {
    var errors' := Append(errors, o);
    forall k | k in kinds + {kind} ensures HasReport(errors', k) <==> Violated(workflow, k) {
      if k in kinds && Violated(workflow, k) {
        var i :| 0 <= i < |errors| && errors[i].kind == k;
        assert errors'[i].kind == k;
      }
      if k == kind && o.Some? {
        assert errors'[|errors|].kind == k;
      }
    }
  }

  /** Of the given kinds, exactly the violated ones are reported, and correctly. */
  ghost predicate ListsExactly(workflow: Workflow, errors: seq<ValidationError>, kinds: set<ErrorKind>) {
    && (forall i :: 0 <= i < |errors| ==> errors[i].kind in kinds && ReportOk(workflow, errors[i]))
    && (forall k :: k in kinds ==> (HasReport(errors, k) <==> Violated(workflow, k)))
  }

  lemma NothingChecked(workflow: Workflow)
    ensures ListsExactly(workflow, [], {})
  {
  }

  lemma AcceptedIffNoneViolated(workflow: Workflow)
    ensures Accepted(workflow) <==>
      !Violated(workflow, NoEntryNode) && !Violated(workflow, CycleFound)
      && !Violated(workflow, DuplicateId) && !Violated(workflow, MissingRef)
  {
    if UniqueIds(workflow.nodes) {
      AcceptedIsAcyclic(workflow);
    }
    hide UniqueIds, ClosedReferences, HasCycle, FirstOutputGraph, OutputGraph;
  }

  lemma AcceptedIffNoError(workflow: Workflow, errors: seq<ValidationError>)
    requires ListsExactly(workflow, errors, {NoEntryNode, CycleFound, DuplicateId, MissingRef, Unreachable})
    ensures Accepted(workflow) <==> forall j :: 0 <= j < |errors| ==> errors[j].severity != Error
  {
    AcceptedIffNoneViolated(workflow);
    hide Accepted, Violated, Names;
    if !Accepted(workflow) {
      var k := if Violated(workflow, NoEntryNode) then NoEntryNode
               else if Violated(workflow, CycleFound) then CycleFound
               else if Violated(workflow, DuplicateId) then DuplicateId else MissingRef;
      assert HasReport(errors, k);
    } else {
      forall j | 0 <= j < |errors| ensures errors[j].severity != Error {
        assert HasReport(errors, errors[j].kind);
      }
    }
  }

  method CheckDuplicates(workflow: Workflow) returns (r: Option<ValidationError>)
    ensures Reports(workflow, DuplicateId, r)
  {
    var duplicateIds := FindDuplicateNodeIds(workflow);
    if |duplicateIds| > 0 {
      assert duplicateIds[0] in duplicateIds;
      return Some(ValidationError(DuplicateId, Error, Some(duplicateIds)));
    }
    forall i, j | 0 <= i < j < |workflow.nodes| ensures workflow.nodes[i].id != workflow.nodes[j].id {
      assert !Duplicated(workflow.nodes, workflow.nodes[j].id);
      assert !Seen(workflow.nodes, j, workflow.nodes[j].id);
    }
    return None;
  }

  method CheckReferences(workflow: Workflow) returns (r: Option<ValidationError>)
    ensures Reports(workflow, MissingRef, r)
  {
    var missingRefs := FindMissingReferences(workflow);
    if |missingRefs| > 0 {
      assert missingRefs[0] in missingRefs;
      return Some(ValidationError(MissingRef, Error, Some(missingRefs)));
    }
    forall n, x | n in workflow.nodes && (x in n.inputs || x in n.outputs) ensures x in Ids(workflow.nodes) {
      assert Mentions(workflow.nodes, x);
    }
    return None;
  }

  method CheckReachability(workflow: Workflow) returns (r: Option<ValidationError>)
    ensures Reports(workflow, Unreachable, r)
  {
    var unreachableNodes := FindUnreachableNodes(workflow);
    ghost var g, entry := FirstOutputGraph(workflow.nodes), workflow.entryNodeId;
    forall x ensures x in UnreachableIds(g, entry, workflow.nodes) <==> UnreachableNode(workflow, x) {
      UnreachableIdsMember(g, entry, workflow.nodes, x);
    }
    if |unreachableNodes| > 0 {
      assert unreachableNodes[0] in unreachableNodes;
      return Some(ValidationError(Unreachable, Warning, Some(unreachableNodes)));
    }
    return None;
  }

  method NoErrors(errors: seq<ValidationError>) returns (valid: bool)
    ensures valid <==> forall j :: 0 <= j < |errors| ==> errors[j].severity != Error
  {
    valid := true;
    var i := 0;
    while i < |errors|
      invariant 0 <= i <= |errors|
      invariant valid <==> forall j :: 0 <= j < i ==> errors[j].severity != Error
    {
      if errors[i].severity == Error {
        valid := false;
      }
      i := i + 1;
    }
  }

  /**
   * Accepts exactly the workflows that meet the four conditions of Accepted. There is a report
   * of a kind if and only if there is a violation of that kind, and it names what is wrong.
   */
  method ValidateWorkflow(workflow: Workflow) returns (r: ValidationResult)
    ensures r.valid <==> Accepted(workflow)
    ensures ListsExactly(workflow, r.errors, {NoEntryNode, CycleFound, DuplicateId, MissingRef, Unreachable})
  {
    hide Append, Reports, ListsExactly, Violated, CycleReport, Names, Accepted, HasCycle;
    var errors: seq<ValidationError> := [];
    ghost var checked: set<ErrorKind> := {};
    NothingChecked(workflow);
    var entryError := ValidateEntryNode(workflow);
    AppendReport(workflow, errors, checked, NoEntryNode, entryError);
    errors, checked := Append(errors, entryError), checked + {NoEntryNode};
    var cycleError := DetectCycle(workflow);
    AppendReport(workflow, errors, checked, CycleFound, cycleError);
    errors, checked := Append(errors, cycleError), checked + {CycleFound};
    var duplicateError := CheckDuplicates(workflow);
    AppendReport(workflow, errors, checked, DuplicateId, duplicateError);
    errors, checked := Append(errors, duplicateError), checked + {DuplicateId};
    var referenceError := CheckReferences(workflow);
    AppendReport(workflow, errors, checked, MissingRef, referenceError);
    errors, checked := Append(errors, referenceError), checked + {MissingRef};
    var reachabilityError := CheckReachability(workflow);
    AppendReport(workflow, errors, checked, Unreachable, reachabilityError);
    errors, checked := Append(errors, reachabilityError), checked + {Unreachable};
    assert checked == {NoEntryNode, CycleFound, DuplicateId, MissingRef, Unreachable};
    var valid := NoErrors(errors);
    AcceptedIffNoError(workflow, errors);
    return ValidationResult(valid, errors);
  }

  /** Every output of a node stands before it. */
  ghost predicate OutputsFirst(nodes: seq<Node>, order: seq<Id>) {
    forall i, n, v :: 0 <= i < |order| && n in nodes && n.id == order[i] && v in n.outputs ==> v in order[..i]
  }

  /**
   * An accepted workflow has a topological order: all its nodes, once each, every output of a
   * node standing before it, so the distance from the end is a rank that grows along outputs.
   */
  lemma AcceptedHasOrder(workflow: Workflow) returns (order: seq<Id>)
    requires Accepted(workflow)
    ensures NoDup(order) && forall x :: x in order <==> x in Ids(workflow.nodes)
    ensures OutputsFirst(workflow.nodes, order)
  {
    AcceptedIsAcyclic(workflow);
    var nodes := workflow.nodes;
    order := TopologicalOrder(OutputGraph(nodes), Ids(nodes));
    forall i, n, v | 0 <= i < |order| && n in nodes && n.id == order[i] && v in n.outputs ensures v in order[..i] {
      UniqueNode(nodes, n);
    }
  }

  /** Conversely, a workflow with such an order has no cycle. */
  lemma OrderedHasNoCycle(workflow: Workflow, order: seq<Id>)
    requires forall x :: x in Ids(workflow.nodes) ==> x in order
    requires OutputsFirst(workflow.nodes, order) && forall x :: x in order ==> x in Ids(workflow.nodes)
    ensures !HasCycle(OutputGraph(workflow.nodes))
  {
    var nodes := workflow.nodes;
    var g := OutputGraph(nodes);
    assert Postorder(g, order) by {
      forall i, v | 0 <= i < |order| && v in Succ(g, order[i]) ensures v in order[..i] {
        assert NodeMap(nodes)[order[i]] in nodes;
      }
    }
    forall c ensures !IsCycle(g, c) {
      if IsPath(g, c) && |c| > 1 {
        assert c[0+1] in Succ(g, c[0]);
        var i :| 0 <= i < |order| && order[i] == c[0];
        NoCycleAt(g, order, c, i);
      }
    }
  }
}
