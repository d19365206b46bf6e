/** Workflow definitions, execution results and the values nodes exchange. */
module Workflows {
  import opened Graphs

  datatype Option<+T> = None | Some(value: T)

  /** JSON-serializable data. Object keys are kept in no particular order. */
  datatype Json =
    | Null
    | Bool(b: bool)
    | Num(n: int)
    | Str(s: string)
    | Arr(elements: seq<Json>)
    | Obj(fields: map<string, Json>)

  /** JavaScript truthiness of a JSON value. */
  predicate Truthy(j: Json)
    ensures Truthy(j) <==> j !in {Null, Bool(false), Num(0), Str("")}
  {
    match j
    case Null => false
    case Bool(b) => b
    case Num(n) => n != 0
    case Str(s) => s != ""
    case Arr(_) => true
    case Obj(_) => true
  }

  datatype ExecutionResult = ExecutionResult(
    success: bool,
    data: Option<Json>,
    error: Option<string>,
    nextNodes: Option<seq<Id>>,
    skipped: bool)
  {
    /** The test that releases children and makes a job idempotent. */
    predicate Resolved() { success || skipped }
  }

  function SuccessResult(data: Option<Json>): ExecutionResult {
    ExecutionResult(true, data, None, None, false)
  }

  function ErrorResult(error: string): ExecutionResult {
    ExecutionResult(false, None, Some(error), None, false)
  }

  const SKIPPED_RESULT := ExecutionResult(true, Some(Null), None, None, true)

  datatype DelayConfig = DelayConfig(
    duration: Option<int>,
    durationSeconds: Option<int>,
    durationMinutes: Option<int>)

  /** How the processor routes a node. Sub-workflow nodes are not part of the run model. */
  datatype NodeKind =
    | Regular(continueOnFail: bool)
    | Delay(config: Option<DelayConfig>)

  datatype Node = Node(id: Id, kind: NodeKind, inputs: seq<Id>, outputs: seq<Id>)

  datatype Workflow = Workflow(id: Id, nodes: seq<Node>, entryNodeId: Id, hasTriggers: bool)

  function Ids(nodes: seq<Node>): set<Id> {
    set n | n in nodes :: n.id
  }

  /** Array.find: the first node with the id. */
  function FindNode(nodes: seq<Node>, id: Id): (r: Option<Node>)
    ensures r.Some? <==> id in Ids(nodes)
    ensures r.Some? ==> r.value in nodes && r.value.id == id
  {
    if nodes == [] then None
    else if nodes[0].id == id then Some(nodes[0])
    else FindNode(nodes[1..], id)
  }

  /** A Map filled in array order: the last node with an id wins. */
  function NodeMap(nodes: seq<Node>): (m: map<Id, Node>)
    ensures m.Keys == Ids(nodes)
    ensures forall id :: id in m ==> m[id] in nodes && m[id].id == id
  {
    if nodes == [] then map[]
    else NodeMap(nodes[..|nodes|-1])[nodes[|nodes|-1].id := nodes[|nodes|-1]]
  }

  lemma {:induction false} FirstWins(nodes: seq<Node>, i: nat)
    requires i < |nodes| && forall j :: 0 <= j < i ==> nodes[j].id != nodes[i].id
    ensures FindNode(nodes, nodes[i].id) == Some(nodes[i])
  {
    if i > 0 {
      FirstWins(nodes[1..], i - 1);
    }
  }

  lemma {:induction false} LastWins(nodes: seq<Node>, i: nat)
    requires i < |nodes| && forall j :: i < j < |nodes| ==> nodes[j].id != nodes[i].id
    ensures NodeMap(nodes)[nodes[i].id] == nodes[i]
  {
    if i < |nodes| - 1 {
      LastWins(nodes[..|nodes|-1], i);
    }
  }

  /** The edges the cycle search follows. */
  function OutputGraph(nodes: seq<Node>): Graph {
    Outputs(NodeMap(nodes))
  }

  function Outputs(m: map<Id, Node>): Graph {
    map id | id in m :: m[id].outputs
  }

  /** The edges the reachability search and the scheduler follow. */
  function FirstOutputGraph(nodes: seq<Node>): Graph {
    map id | id in Ids(nodes) :: FindNode(nodes, id).value.outputs
  }

  lemma FirstOutputs(nodes: seq<Node>, id: Id)
    ensures Succ(FirstOutputGraph(nodes), id)
         == match FindNode(nodes, id) case None => [] case Some(n) => n.outputs
  {
  }

  ghost predicate UniqueIds(nodes: seq<Node>) {
    forall i, j :: 0 <= i < j < |nodes| ==> nodes[i].id != nodes[j].id
  }

  /** Every id a node mentions is the id of a node. */
  ghost predicate ClosedReferences(nodes: seq<Node>) {
    forall n :: n in nodes ==>
      (forall x :: x in n.inputs ==> x in Ids(nodes)) &&
      (forall x :: x in n.outputs ==> x in Ids(nodes))
  }

  /** Each link is declared at both ends. The validator does not check this. */
  ghost predicate SymmetricLinks(nodes: seq<Node>) {
    forall a, b :: a in nodes && b in nodes ==> (b.id in a.outputs <==> a.id in b.inputs)
  }

  lemma UniqueNode(nodes: seq<Node>, n: Node)
    requires UniqueIds(nodes) && n in nodes
    ensures FindNode(nodes, n.id) == Some(n)
    ensures NodeMap(nodes)[n.id] == n
  {
  }

  lemma UniqueGraphsAgree(nodes: seq<Node>)
    requires UniqueIds(nodes)
    ensures OutputGraph(nodes) == FirstOutputGraph(nodes)
  {
    forall id | id in Ids(nodes) ensures OutputGraph(nodes)[id] == FirstOutputGraph(nodes)[id] {
      UniqueNode(nodes, NodeMap(nodes)[id]);
    }
  }

  lemma {:induction false} UniqueCount(nodes: seq<Node>)
    requires UniqueIds(nodes)
    ensures |Ids(nodes)| == |nodes|
  {
    if nodes != [] {
      var front, last := nodes[..|nodes|-1], nodes[|nodes|-1];
      UniqueCount(front);
      assert Ids(nodes) == Ids(front) + {last.id};
    }
  }
}
