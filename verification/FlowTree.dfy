/** Conversion of a workflow DAG into the trees a BullMQ flow is made of. */
module FlowTree {
  import opened Graphs
  import opened Workflows
  import opened GraphValidation

  datatype FlowConfig = FlowConfig(executionId: string, workflowId: Id, inputData: Json, continueOnFail: bool)

  /** No children stands for the absent property. Children run before their parent. */
  datatype FlowJob = FlowJob(
    executionId: string,
    workflowId: Id,
    nodeId: Id,
    inputData: Option<Json>,
    jobId: string,
    failParentOnFailure: bool,
    ignoreDependencyOnFailure: bool,
    children: seq<FlowJob>)

  function InputGraph(nodeMap: map<Id, Node>): Graph {
    map id | id in nodeMap :: nodeMap[id].inputs
  }

  /** The same edges by first definitions. */
  function FirstInputGraph(nodes: seq<Node>): Graph {
    map id | id in Ids(nodes) :: FindNode(nodes, id).value.inputs
  }

  lemma InputGraphsAgree(nodes: seq<Node>)
    requires UniqueIds(nodes)
    ensures InputGraph(NodeMap(nodes)) == FirstInputGraph(nodes)
  {
    forall id | id in Ids(nodes) ensures InputGraph(NodeMap(nodes))[id] == FirstInputGraph(nodes)[id] {
      UniqueNode(nodes, NodeMap(nodes)[id]);
    }
  }

  /** The inputs that name a node. */
  function Known(nodeMap: map<Id, Node>, inputs: seq<Id>): seq<Id> {
    KnownUpTo(nodeMap, inputs, |inputs|)
  }

  function KnownUpTo(nodeMap: map<Id, Node>, inputs: seq<Id>, n: nat): seq<Id>
    requires n <= |inputs|
  {
    if n == 0 then []
    else if inputs[n-1] in nodeMap then KnownUpTo(nodeMap, inputs, n - 1) + [inputs[n-1]]
    else KnownUpTo(nodeMap, inputs, n - 1)
  }

  lemma {:induction false} KnownMembers(nodeMap: map<Id, Node>, inputs: seq<Id>, n: nat)
    requires n <= |inputs|
    ensures forall x :: x in KnownUpTo(nodeMap, inputs, n) <==> x in inputs[..n] && x in nodeMap
  {
    if n != 0 {
      KnownMembers(nodeMap, inputs, n - 1);
      assert inputs[..n] == inputs[..n-1] + [inputs[n-1]];
    }
  }

  /** The job of one node, apart from its dependencies. */
  ghost predicate IsJobOf(cfg: FlowConfig, node: Node, t: FlowJob) {
    && t.executionId == cfg.executionId && t.workflowId == cfg.workflowId && t.nodeId == node.id
    && t.inputData == (if node.inputs == [] then Some(cfg.inputData) else None)
    && t.jobId == cfg.executionId + "-" + node.id
    && t.failParentOnFailure == !cfg.continueOnFail
    && t.ignoreDependencyOnFailure == cfg.continueOnFail
  }

  function NewFlowJob(cfg: FlowConfig, node: Node, children: seq<FlowJob>): (t: FlowJob)
    ensures IsJobOf(cfg, node, t) && t.children == children
  {
    FlowJob(cfg.executionId, cfg.workflowId, node.id,
            if node.inputs == [] then Some(cfg.inputData) else None,
            cfg.executionId + "-" + node.id,
            !cfg.continueOnFail, cfg.continueOnFail, children)
  }

  function NodeIds(flows: seq<FlowJob>): (ids: seq<Id>)
    ensures |ids| == |flows| && forall i :: 0 <= i < |flows| ==> ids[i] == flows[i].nodeId
  {
    seq(|flows|, i requires 0 <= i < |flows| => flows[i].nodeId)
  }

  /** t is the full unfolding of its node along inputs, nothing shared. */
  ghost predicate IsUnfolding(cfg: FlowConfig, nodeMap: map<Id, Node>, t: FlowJob)
    decreases t
  {
    && t.nodeId in nodeMap
    && IsJobOf(cfg, nodeMap[t.nodeId], t)
    && NodeIds(t.children) == Known(nodeMap, nodeMap[t.nodeId].inputs)
    && forall i :: 0 <= i < |t.children| ==> IsUnfolding(cfg, nodeMap, t.children[i])
  }

  /** A node has only one unfolding. */
  lemma {:induction false} UnfoldingUnique(cfg: FlowConfig, nodeMap: map<Id, Node>, t: FlowJob, u: FlowJob)
    requires IsUnfolding(cfg, nodeMap, t) && IsUnfolding(cfg, nodeMap, u) && t.nodeId == u.nodeId
    ensures t == u
    decreases t
  {
    forall i | 0 <= i < |t.children| ensures t.children[i] == u.children[i] {
      UnfoldingUnique(cfg, nodeMap, t.children[i], u.children[i]);
    }
    assert t.children == u.children;
  }

  ghost predicate Occurs(t: FlowJob, id: Id)
    decreases t
  {
    t.nodeId == id || exists i :: 0 <= i < |t.children| && Occurs(t.children[i], id)
  }

  lemma {:induction false} OccursInput(cfg: FlowConfig, nodeMap: map<Id, Node>, t: FlowJob, id: Id, input: Id)
    requires IsUnfolding(cfg, nodeMap, t) && Occurs(t, id)
    requires id in nodeMap && input in nodeMap && input in nodeMap[id].inputs
    ensures Occurs(t, input)
    decreases t
  {
    if t.nodeId == id {
      KnownMembers(nodeMap, nodeMap[id].inputs, |nodeMap[id].inputs|);
      assert nodeMap[id].inputs[..|nodeMap[id].inputs|] == nodeMap[id].inputs;
      var i :| 0 <= i < |t.children| && t.children[i].nodeId == input;
      assert Occurs(t.children[i], input);
    } else {
      var i :| 0 <= i < |t.children| && Occurs(t.children[i], id);
      OccursInput(cfg, nodeMap, t.children[i], id, input);
    }
  }

  /** A job waits, directly or not, for exactly its node and the ancestors of its node. */
  lemma OccursIffAncestor(cfg: FlowConfig, nodeMap: map<Id, Node>, t: FlowJob, id: Id)
    requires IsUnfolding(cfg, nodeMap, t)
    requires forall n, x :: n in nodeMap && x in nodeMap[n].inputs ==> x in nodeMap
    ensures Occurs(t, id) <==> Reaches(InputGraph(nodeMap), t.nodeId, id)
  {
    if Occurs(t, id) {
      OccursIsReached(cfg, nodeMap, t, id);
    }
    if Reaches(InputGraph(nodeMap), t.nodeId, id) {
      var p :| IsPathBetween(InputGraph(nodeMap), p, t.nodeId, id);
      ReachedOccurs(cfg, nodeMap, t, p);
    }
  }

  lemma {:induction false} OccursIsReached(cfg: FlowConfig, nodeMap: map<Id, Node>, t: FlowJob, id: Id)
    requires IsUnfolding(cfg, nodeMap, t) && Occurs(t, id)
    ensures Reaches(InputGraph(nodeMap), t.nodeId, id)
    decreases t
  {
    ReachesSelf(InputGraph(nodeMap), t.nodeId);
    if t.nodeId != id {
      var i :| 0 <= i < |t.children| && Occurs(t.children[i], id);
      OccursIsReached(cfg, nodeMap, t.children[i], id);
      var inputs := nodeMap[t.nodeId].inputs;
      KnownMembers(nodeMap, inputs, |inputs|);
      assert inputs[..|inputs|] == inputs;
      ReachesStep(InputGraph(nodeMap), t.nodeId, t.nodeId, t.children[i].nodeId);
      ReachesTransitive(InputGraph(nodeMap), t.nodeId, t.children[i].nodeId, id);
    }
  }

  lemma {:induction false} ReachedOccurs(cfg: FlowConfig, nodeMap: map<Id, Node>, t: FlowJob, p: seq<Id>)
    requires IsUnfolding(cfg, nodeMap, t)
    requires forall n, x :: n in nodeMap && x in nodeMap[n].inputs ==> x in nodeMap
    requires IsPath(InputGraph(nodeMap), p) && p[0] == t.nodeId
    ensures p[|p|-1] in nodeMap && Occurs(t, p[|p|-1])
    decreases |p|
  {
    if |p| > 1 {
      var q := p[..|p|-1];
      ReachedOccurs(cfg, nodeMap, t, q);
      assert p[|p|-2+1] in Succ(InputGraph(nodeMap), p[|p|-2]);
      OccursInput(cfg, nodeMap, t, p[|p|-2], p[|p|-1]);
    }
  }

  /** Throughout t, the leaves are the nodes without inputs, and only they carry the input data. */
  ghost predicate EntriesAreLeaves(nodeMap: map<Id, Node>, t: FlowJob)
    decreases t
  {
    && t.nodeId in nodeMap
    && (t.children == [] <==> nodeMap[t.nodeId].inputs == [])
    && (t.inputData.Some? <==> nodeMap[t.nodeId].inputs == [])
    && forall i :: 0 <= i < |t.children| ==> EntriesAreLeaves(nodeMap, t.children[i])
  }

  lemma {:induction false} UnfoldingLeaves(cfg: FlowConfig, nodeMap: map<Id, Node>, t: FlowJob)
    requires IsUnfolding(cfg, nodeMap, t)
    requires forall n, x :: n in nodeMap && x in nodeMap[n].inputs ==> x in nodeMap
    ensures EntriesAreLeaves(nodeMap, t)
    decreases t
  {
    var inputs := nodeMap[t.nodeId].inputs;
    KnownMembers(nodeMap, inputs, |inputs|);
    assert inputs[..|inputs|] == inputs;
    if inputs != [] {
      assert inputs[0] in Known(nodeMap, inputs);
    }
    forall i | 0 <= i < |t.children| ensures EntriesAreLeaves(nodeMap, t.children[i]) {
      UnfoldingLeaves(cfg, nodeMap, t.children[i]);
    }
  }

  lemma {:induction false} AllKnown(nodeMap: map<Id, Node>, inputs: seq<Id>, n: nat)
    requires n <= |inputs| && forall x :: x in inputs ==> x in nodeMap
    ensures KnownUpTo(nodeMap, inputs, n) == inputs[..n]
  {
    if n != 0 {
      AllKnown(nodeMap, inputs, n - 1);
    }
  }

  /** A job waits for one job per input, in order, and carries the flow's ids and failure policy. */
  lemma ChildPerInput(cfg: FlowConfig, nodeMap: map<Id, Node>, t: FlowJob)
    requires IsUnfolding(cfg, nodeMap, t)
    requires forall x :: x in nodeMap[t.nodeId].inputs ==> x in nodeMap
    ensures |t.children| == |nodeMap[t.nodeId].inputs|
    ensures forall i :: 0 <= i < |t.children| ==> t.children[i].nodeId == nodeMap[t.nodeId].inputs[i]
    ensures t.executionId == cfg.executionId && t.workflowId == cfg.workflowId && t.jobId == cfg.executionId + "-" + t.nodeId
    ensures t.inputData == (if t.children == [] then Some(cfg.inputData) else None)
    ensures if cfg.continueOnFail then t.ignoreDependencyOnFailure && !t.failParentOnFailure
            else t.failParentOnFailure && !t.ignoreDependencyOnFailure
  {
    var inputs := nodeMap[t.nodeId].inputs;
    AllKnown(nodeMap, inputs, |inputs|);
    assert inputs[..|inputs|] == inputs;
  }

  /** The inputs of every node rank below it: what makes the recursion end. */
  ghost predicate InputsRankLower(nodeMap: map<Id, Node>, rank: map<Id, nat>) {
    && nodeMap.Keys <= rank.Keys
    && (forall id :: id in nodeMap ==> nodeMap[id].id == id)
    && forall id, x :: id in nodeMap && x in nodeMap[id].inputs && x in nodeMap ==> rank[x] < rank[id]
  }

  class FlowBuilder {
    const cfg: FlowConfig
    const nodeMap: map<Id, Node>
    ghost const rank: map<Id, nat>
    var addedToFlow: map<Id, FlowJob>
    /** How many jobs were constructed: the memo table makes it one per node. */
    ghost var constructed: nat

    constructor (cfg: FlowConfig, nodeMap: map<Id, Node>, ghost rank: map<Id, nat>)
      requires InputsRankLower(nodeMap, rank)
      ensures Valid() && this.cfg == cfg && this.nodeMap == nodeMap && addedToFlow == map[]
    {
      this.cfg, this.nodeMap, this.rank := cfg, nodeMap, rank;
      addedToFlow := map[];
      constructed := 0;
    }

    ghost predicate Valid()
      reads this
    {
      && InputsRankLower(nodeMap, rank)
      && MemoOk(cfg, nodeMap, addedToFlow)
      && constructed == |addedToFlow|
    }

    /** A tree for each of the nodes. */
    method BuildFlows(rootNodes: seq<Node>) returns (flows: seq<FlowJob>)
      requires Valid()
      requires forall i :: 0 <= i < |rootNodes| ==> rootNodes[i].id in nodeMap && nodeMap[rootNodes[i].id] == rootNodes[i]
      modifies this
      ensures Valid() && AllUnfoldings(cfg, nodeMap, flows, IdsUpTo(rootNodes, |rootNodes|))
    {
      IdsUpToNext(rootNodes, 0);
      NoFlows(cfg, nodeMap);
      hide *;
      flows := [];
      for i := 0 to |rootNodes|
        invariant Valid() && AllUnfoldings(cfg, nodeMap, flows, IdsUpTo(rootNodes, i))
      {
        IdsUpToNext(rootNodes, i);
        flows := BuildNextFlow(flows, IdsUpTo(rootNodes, i), rootNodes[i]);
      }
    }

    method BuildNextFlow(flows: seq<FlowJob>, ghost ids: seq<Id>, node: Node) returns (more: seq<FlowJob>)
      requires Valid() && AllUnfoldings(cfg, nodeMap, flows, ids)
      requires node.id in nodeMap && nodeMap[node.id] == node
      modifies this
      ensures Valid() && AllUnfoldings(cfg, nodeMap, more, ids + [node.id])
    {
      hide *;
      var t := BuildNodeFlow(node);
      AddFlow(cfg, nodeMap, flows, ids, t);
      more := flows + [t];
    }

    method BuildNodeFlow(node: Node) returns (t: FlowJob)
      requires Valid()
      requires node.id in nodeMap && nodeMap[node.id] == node
      modifies this
      ensures Valid() && Grown(old(addedToFlow), addedToFlow, rank, rank[node.id] + 1)
      ensures t.nodeId == node.id && IsUnfolding(cfg, nodeMap, t)
      decreases rank[node.id], 1
    {
      assert node.id in rank;
      hide IsUnfolding, MemoOk, AllUnfoldings, NewFlowJob, InputsRankLower, IsJobOf, Grown;
      if node.id in addedToFlow {
        NothingGrown(addedToFlow, rank, rank[node.id] + 1);
        MemoHit(cfg, nodeMap, addedToFlow, node.id);
        return addedToFlow[node.id];
      }
      var childFlows := BuildInputFlows(node);
      GrownByOne(old(addedToFlow), addedToFlow, rank, node.id, NewFlowJob(cfg, node, childFlows));
      t := AddToFlow(node, childFlows);
    }

    /** Constructs the job of a node and remembers it. */
    method AddToFlow(node: Node, childFlows: seq<FlowJob>) returns (t: FlowJob)
      requires Valid() && node.id in nodeMap && nodeMap[node.id] == node && node.id !in addedToFlow
      requires AllUnfoldings(cfg, nodeMap, childFlows, Known(nodeMap, node.inputs))
      modifies this
      ensures Valid() && t == NewFlowJob(cfg, node, childFlows) && addedToFlow == old(addedToFlow)[node.id := t]
      ensures t.nodeId == node.id && IsUnfolding(cfg, nodeMap, t)
    {
      hide IsUnfolding, MemoOk, AllUnfoldings, NewFlowJob, InputsRankLower;
      t := NewFlowJob(cfg, node, childFlows);
      FlowComplete(cfg, nodeMap, node, childFlows, addedToFlow);
      OneMoreFlow(addedToFlow, node.id, t);
      constructed := constructed + 1;
      addedToFlow := addedToFlow[node.id := t];
    }

    /** The loop over the inputs of a node. */
    method BuildInputFlows(node: Node) returns (childFlows: seq<FlowJob>)
      requires Valid()
      requires node.id in nodeMap && nodeMap[node.id] == node
      modifies this
      ensures Valid() && Grown(old(addedToFlow), addedToFlow, rank, rank[node.id])
      ensures AllUnfoldings(cfg, nodeMap, childFlows, Known(nodeMap, node.inputs))
      decreases rank[node.id], 0
    {
      hide IsUnfolding, MemoOk, AllUnfoldings;
      childFlows := [];
      NoFlows(cfg, nodeMap);
      var i := 0;
      while i < |node.inputs|
        invariant 0 <= i <= |node.inputs|
        invariant Valid() && Grown(old(addedToFlow), addedToFlow, rank, rank[node.id])
        invariant AllUnfoldings(cfg, nodeMap, childFlows, KnownUpTo(nodeMap, node.inputs, i))
      {
        var inputNodeId := node.inputs[i];
        if inputNodeId in nodeMap {
          assert rank[inputNodeId] < rank[node.id];
          var child := BuildNodeFlow(nodeMap[inputNodeId]);
          AddFlow(cfg, nodeMap, childFlows, KnownUpTo(nodeMap, node.inputs, i), child);
          childFlows := childFlows + [child];
        }
        i := i + 1;
      }
    }
  }

  /** What one call may add to the memo table: jobs of nodes ranked below `limit`. */
  ghost predicate Grown(before: map<Id, FlowJob>, after: map<Id, FlowJob>, rank: map<Id, nat>, limit: nat) {
    && before.Keys <= after.Keys
    && forall id :: id in after && id !in before ==> id in rank && rank[id] < limit
  }

  lemma NothingGrown(memo: map<Id, FlowJob>, rank: map<Id, nat>, limit: nat)
    ensures Grown(memo, memo, rank, limit)
  {
  }

  lemma GrownByOne(before: map<Id, FlowJob>, after: map<Id, FlowJob>, rank: map<Id, nat>, id: Id, t: FlowJob)
    requires id in rank && id !in before && Grown(before, after, rank, rank[id])
    ensures id !in after && Grown(before, after[id := t], rank, rank[id] + 1)
  {
    assert id !in after;
  }

  lemma OneMoreFlow(memo: map<Id, FlowJob>, id: Id, t: FlowJob)
    requires id !in memo
    ensures |memo[id := t]| == |memo| + 1
  {
    assert memo[id := t].Keys == memo.Keys + {id};
  }

  ghost predicate MemoOk(cfg: FlowConfig, nodeMap: map<Id, Node>, memo: map<Id, FlowJob>) {
    forall id :: id in memo ==> memo[id].nodeId == id && IsUnfolding(cfg, nodeMap, memo[id])
  }

  lemma MemoHit(cfg: FlowConfig, nodeMap: map<Id, Node>, memo: map<Id, FlowJob>, id: Id)
    requires MemoOk(cfg, nodeMap, memo) && id in memo
    ensures memo[id].nodeId == id && IsUnfolding(cfg, nodeMap, memo[id])
  {
  }

  ghost predicate AllUnfoldings(cfg: FlowConfig, nodeMap: map<Id, Node>, flows: seq<FlowJob>, ids: seq<Id>) {
    NodeIds(flows) == ids && forall i :: 0 <= i < |flows| ==> IsUnfolding(cfg, nodeMap, flows[i])
  }

  lemma NoFlows(cfg: FlowConfig, nodeMap: map<Id, Node>)
    ensures AllUnfoldings(cfg, nodeMap, [], [])
  {
  }

  lemma AddFlow(cfg: FlowConfig, nodeMap: map<Id, Node>, flows: seq<FlowJob>, ids: seq<Id>, t: FlowJob)
    requires AllUnfoldings(cfg, nodeMap, flows, ids) && IsUnfolding(cfg, nodeMap, t)
    ensures AllUnfoldings(cfg, nodeMap, flows + [t], ids + [t.nodeId])
  {
  }

  lemma FlowComplete(cfg: FlowConfig, nodeMap: map<Id, Node>, node: Node, children: seq<FlowJob>, memo: map<Id, FlowJob>)
    requires node.id in nodeMap && nodeMap[node.id] == node && MemoOk(cfg, nodeMap, memo)
    requires AllUnfoldings(cfg, nodeMap, children, Known(nodeMap, node.inputs))
    ensures IsUnfolding(cfg, nodeMap, NewFlowJob(cfg, node, children))
    ensures NewFlowJob(cfg, node, children).nodeId == node.id
    ensures MemoOk(cfg, nodeMap, memo[node.id := NewFlowJob(cfg, node, children)])
  {
  }

  function Final(nodes: seq<Node>): seq<Node> {
    if nodes == [] then []
    else Final(nodes[..|nodes|-1]) + if nodes[|nodes|-1].outputs == [] then [nodes[|nodes|-1]] else []
  }

  lemma {:induction false} FinalMembers(nodes: seq<Node>)
    ensures forall n :: n in Final(nodes) <==> n in nodes && n.outputs == []
  {
    if nodes != [] {
      FinalMembers(nodes[..|nodes|-1]);
      assert nodes == nodes[..|nodes|-1] + [nodes[|nodes|-1]];
    }
  }

  /** Each node without outputs once for each time it is in the array, in the order of the array. */
  lemma {:induction false} FinalInOrder(nodes: seq<Node>) returns (at: seq<int>)
    ensures |at| == |Final(nodes)|
    ensures forall i :: 0 <= i < |at| ==> 0 <= at[i] < |nodes| && Final(nodes)[i] == nodes[at[i]] && nodes[at[i]].outputs == []
    ensures forall i, j :: 0 <= i < j < |at| ==> at[i] < at[j]
    ensures forall x :: 0 <= x < |nodes| && nodes[x].outputs == [] ==> x in at
  {
    at := [];
    if nodes != [] {
      var last := |nodes| - 1;
      at := FinalInOrder(nodes[..last]);
      assert Final(nodes) == Final(nodes[..last]) + if nodes[last].outputs == [] then [nodes[last]] else [];
      hide Final;
      if nodes[last].outputs == [] {
        at := at + [last];
      }
    }
  }

  /** The direct children of the aggregator: the final nodes, or all nodes when there is none. */
  function Roots(nodes: seq<Node>): seq<Node> {
    if Final(nodes) != [] then Final(nodes) else nodes
  }

  function IdsUpTo(nodes: seq<Node>, n: nat): seq<Id>
    requires n <= |nodes|
  {
    if n == 0 then [] else IdsUpTo(nodes, n - 1) + [nodes[n-1].id]
  }

  lemma RootsAreFinal(nodes: seq<Node>)
    ensures (forall n :: n in nodes ==> n.outputs != []) ==> Roots(nodes) == nodes
    ensures (exists n :: n in nodes && n.outputs == []) ==> forall n :: n in Roots(nodes) <==> n in nodes && n.outputs == []
  {
    FinalMembers(nodes);
    if n :| n in nodes && n.outputs == [] {
      assert n in Final(nodes);
      assert Roots(nodes) == Final(nodes);
    } else if Final(nodes) != [] {
      assert Final(nodes)[0] in Final(nodes);
    }
  }

  /** The result of the conversion: one full unfolding per root, in order. */
  ghost predicate IsForest(cfg: FlowConfig, nodes: seq<Node>, flows: seq<FlowJob>) {
    AllUnfoldings(cfg, NodeMap(nodes), flows, IdsUpTo(Roots(nodes), |Roots(nodes)|))
  }

  lemma IdsUpToNext(nodes: seq<Node>, n: nat)
    requires n <= |nodes|
    ensures IdsUpTo(nodes, 0) == []
    ensures n < |nodes| ==> IdsUpTo(nodes, n + 1) == IdsUpTo(nodes, n) + [nodes[n].id]
  {
  }

  lemma {:induction false} IdsUpToAt(nodes: seq<Node>, n: nat)
    requires n <= |nodes|
    ensures |IdsUpTo(nodes, n)| == n && forall i :: 0 <= i < n ==> IdsUpTo(nodes, n)[i] == nodes[i].id
  {
    if n != 0 {
      IdsUpToAt(nodes, n - 1);
    }
  }

  /**
   * The recursion ends exactly because no cycle runs along inputs, which is all the code asks
   * of its caller. Sharing through the memo table does not show in the result.
   */
  method BuildFlowTreeFromEntryNodes(workflow: Workflow, executionId: string, inputData: Json, continueOnFail: bool)
    returns (flows: seq<FlowJob>)
    requires UniqueIds(workflow.nodes) && !HasCycle(FirstInputGraph(workflow.nodes))
    ensures IsForest(FlowConfig(executionId, workflow.id, inputData, continueOnFail), workflow.nodes, flows)
  {
    hide HasCycle, UniqueIds, FirstInputGraph, InputsRankLower, AllUnfoldings, Roots, IdsUpTo;
    var cfg := FlowConfig(executionId, workflow.id, inputData, continueOnFail);
    ghost var rank := InputRank(workflow.nodes);
    var builder := new FlowBuilder(cfg, NodeMap(workflow.nodes), rank);
    var rootNodes := Roots(workflow.nodes);
    RootsAreNodes(workflow.nodes);
    flows := builder.BuildFlows(rootNodes);
  }

  lemma InputRank(nodes: seq<Node>) returns (rank: map<Id, nat>)
    requires UniqueIds(nodes) && !HasCycle(FirstInputGraph(nodes))
    ensures InputsRankLower(NodeMap(nodes), rank)
  {
    InputGraphsAgree(nodes);
    var m := NodeMap(nodes);
    var g := InputGraph(m);
    var order := TopologicalOrder(g, m.Keys);
    rank := map id | id in m.Keys :: Position(order, id);
    forall id, x | id in m && x in m[id].inputs && x in m ensures rank[x] < rank[id] {
      assert x in Succ(g, order[Position(order, id)]);
      assert x in order[..Position(order, id)];
      var k :| 0 <= k < Position(order, id) && order[k] == x;
    }
  }

  ghost function Position(order: seq<Id>, id: Id): (k: nat)
    ensures id in order ==> k < |order| && order[k] == id && forall j :: 0 <= j < k ==> order[j] != id
  {
    if order == [] || order[0] == id then 0 else 1 + Position(order[1..], id)
  }

  lemma RootsAreNodes(nodes: seq<Node>)
    requires UniqueIds(nodes)
    ensures forall i :: 0 <= i < |Roots(nodes)| ==>
      Roots(nodes)[i].id in NodeMap(nodes) && NodeMap(nodes)[Roots(nodes)[i].id] == Roots(nodes)[i]
  {
    FinalMembers(nodes);
    forall i | 0 <= i < |Roots(nodes)|
      ensures Roots(nodes)[i].id in NodeMap(nodes) && NodeMap(nodes)[Roots(nodes)[i].id] == Roots(nodes)[i]
    {
      assert Roots(nodes)[i] in nodes;
      UniqueNode(nodes, Roots(nodes)[i]);
    }
  }

  // ------------------------------------------------- what validation gives

  lemma ReversedEdge(nodes: seq<Node>, a: Id, b: Id)
    requires ClosedReferences(nodes) && SymmetricLinks(nodes) && b in Succ(InputGraph(NodeMap(nodes)), a)
    ensures a in Succ(OutputGraph(nodes), b)
  {
    var m := NodeMap(nodes);
    assert m[a] in nodes && b in m[a].inputs && b in Ids(nodes) && m[b] in nodes;
  }

  lemma {:induction false} ReversedPath(nodes: seq<Node>, p: seq<Id>) returns (q: seq<Id>)
    requires ClosedReferences(nodes) && SymmetricLinks(nodes)
    requires IsPath(InputGraph(NodeMap(nodes)), p)
    ensures IsPath(OutputGraph(nodes), q) && |q| == |p| && q[0] == p[|p|-1] && q[|q|-1] == p[0]
    decreases |p|
  {
    q := p;
    if |p| > 1 {
      hide *;
      PathHead(InputGraph(NodeMap(nodes)), p);
      ReversedEdge(nodes, p[0], p[1]);
      var r := ReversedPath(nodes, p[1..]);
      PathAppend(OutputGraph(nodes), r, p[0]);
      q := r + [p[0]];
    }
  }

  lemma InputCycleIsOutputCycle(nodes: seq<Node>)
    requires ClosedReferences(nodes) && SymmetricLinks(nodes)
    requires HasCycle(InputGraph(NodeMap(nodes)))
    ensures HasCycle(OutputGraph(nodes))
  {
    var p :| IsCycle(InputGraph(NodeMap(nodes)), p);
    var q := ReversedPath(nodes, p);
    assert IsCycle(OutputGraph(nodes), q);
  }

  /** An accepted workflow with symmetric links has no cycle along inputs, so the builder ends. */
  lemma AcceptedInputsAcyclic(workflow: Workflow)
    requires Accepted(workflow) && SymmetricLinks(workflow.nodes)
    ensures !HasCycle(FirstInputGraph(workflow.nodes))
  {
    AcceptedIsAcyclic(workflow);
    InputGraphsAgree(workflow.nodes);
    if HasCycle(InputGraph(NodeMap(workflow.nodes))) {
      InputCycleIsOutputCycle(workflow.nodes);
    }
  }

  lemma HasMember<T>(s: seq<T>)
    requires s != []
    ensures exists x :: x in s
  {
    assert s[0] in s;
  }

  lemma FirstHasNoOutputs(nodes: seq<Node>, order: seq<Id>, n: Node)
    requires OutputsFirst(nodes, order) && order != [] && n in nodes && n.id == order[0]
    ensures n.outputs == []
  {
    assert forall v :: v in n.outputs ==> v in order[..0];
    if n.outputs != [] {
      HasMember(n.outputs);
    }
  }

  /** A nonempty accepted workflow has a final node, so the fallback is never taken. */
  lemma AcceptedHasFinalNode(workflow: Workflow)
    requires Accepted(workflow) && workflow.nodes != []
    ensures Final(workflow.nodes) != [] && Roots(workflow.nodes) == Final(workflow.nodes)
    ensures forall n :: n in Roots(workflow.nodes) <==> n in workflow.nodes && n.outputs == []
  {
    var order := AcceptedHasOrder(workflow);
    assert workflow.nodes[0].id in Ids(workflow.nodes);
    var n := NodeMap(workflow.nodes)[order[0]];
    FirstHasNoOutputs(workflow.nodes, order, n);
    FinalMembers(workflow.nodes);
    assert n in Final(workflow.nodes);
  }

  /** Every node of an accepted, symmetrically linked workflow has a job in some tree. */
  lemma ForestCoversEveryNode(workflow: Workflow, cfg: FlowConfig, flows: seq<FlowJob>, n: Node)
    requires Accepted(workflow) && SymmetricLinks(workflow.nodes) && n in workflow.nodes
    requires IsForest(cfg, workflow.nodes, flows)
    ensures exists i :: 0 <= i < |flows| && Occurs(flows[i], n.id)
  {
    var order := AcceptedHasOrder(workflow);
    assert n.id in order;
    var k :| 0 <= k < |order| && order[k] == n.id;
    CoveredAt(workflow, cfg, flows, order, k, n);
  }

  lemma FinalNodeOccurs(workflow: Workflow, cfg: FlowConfig, flows: seq<FlowJob>, n: Node)
    requires Accepted(workflow) && n in workflow.nodes && n.outputs == []
    requires IsForest(cfg, workflow.nodes, flows)
    ensures exists i :: 0 <= i < |flows| && Occurs(flows[i], n.id)
  {
    AcceptedHasFinalNode(workflow);
    hide Accepted, IsUnfolding, NodeMap, Roots, IdsUpTo, Occurs;
    var i :| 0 <= i < |Roots(workflow.nodes)| && Roots(workflow.nodes)[i] == n;
    IdsUpToAt(Roots(workflow.nodes), |Roots(workflow.nodes)|);
    assert flows[i].nodeId == n.id;
    RootOccurs(flows[i]);
  }

  lemma RootOccurs(t: FlowJob)
    ensures Occurs(t, t.nodeId)
  {
  }

  lemma {:induction false} CoveredAt(workflow: Workflow, cfg: FlowConfig, flows: seq<FlowJob>, order: seq<Id>, k: nat, n: Node)
    requires Accepted(workflow) && SymmetricLinks(workflow.nodes) && n in workflow.nodes
    requires IsForest(cfg, workflow.nodes, flows)
    requires OutputsFirst(workflow.nodes, order)
    requires k < |order| && order[k] == n.id
    ensures exists i :: 0 <= i < |flows| && Occurs(flows[i], n.id)
    decreases k
  {
    hide HasCycle, FirstOutputGraph, EntryAcceptable;
    var nodeMap := NodeMap(workflow.nodes);
    UniqueNode(workflow.nodes, n);
    if n.outputs == [] {
      FinalNodeOccurs(workflow, cfg, flows, n);
    } else {
      var child := n.outputs[0];
      assert child in order[..k];
      var j :| 0 <= j < k && order[j] == child;
      CoveredAt(workflow, cfg, flows, order, j, nodeMap[child]);
      var i :| 0 <= i < |flows| && Occurs(flows[i], child);
      assert n.id in nodeMap[child].inputs;
      OccursInput(cfg, nodeMap, flows[i], child, n.id);
    }
  }
}
