/** Finite directed graphs given by adjacency lists, as the engine's node definitions give them. */
module Graphs {
  type Id = string

  /** Vertex to successor list. A successor need not be a key: references may dangle. */
  type Graph = map<Id, seq<Id>>

  function Succ(g: Graph, u: Id): seq<Id> {
    if u in g then g[u] else []
  }

  ghost predicate IsPath(g: Graph, p: seq<Id>) {
    |p| > 0 && forall i :: 0 <= i < |p| - 1 ==> p[i+1] in Succ(g, p[i])
  }

  ghost predicate IsPathBetween(g: Graph, p: seq<Id>, a: Id, b: Id) {
    IsPath(g, p) && p[0] == a && p[|p|-1] == b
  }

  ghost predicate Reaches(g: Graph, a: Id, b: Id) {
    exists p :: IsPathBetween(g, p, a, b)
  }

  ghost predicate IsCycle(g: Graph, p: seq<Id>) {
    |p| > 1 && IsPathBetween(g, p, p[0], p[0])
  }

  ghost predicate HasCycle(g: Graph) {
    exists p :: IsCycle(g, p)
  }

  /** Some cycle can be reached from a. */
  ghost predicate ReachesCycle(g: Graph, a: Id) {
    exists p :: IsCycle(g, p) && Reaches(g, a, p[0])
  }

  predicate NoDup<T(==)>(s: seq<T>) {
    forall i, j :: 0 <= i < j < |s| ==> s[i] != s[j]
  }

  /** s without the first occurrence of x. */
  function Without<T(==)>(s: seq<T>, x: T): seq<T> {
    if s == [] then []
    else if s[0] == x then s[1..]
    else [s[0]] + Without(s[1..], x)
  }

  lemma {:induction false} WithoutLast<T>(s: seq<T>, x: T)
    requires x !in s
    ensures Without(s + [x], x) == s
  {
    if s != [] {
      WithoutLast(s[1..], x);
      assert (s + [x])[1..] == s[1..] + [x];
    }
  }

  lemma {:induction false} WithoutKeepsNoDup<T>(s: seq<T>, x: T)
    requires NoDup(s)
    ensures NoDup(Without(s, x)) && forall y :: y in Without(s, x) <==> y in s && y != x
  {
    if s != [] && s[0] != x {
      WithoutKeepsNoDup(s[1..], x);
      assert forall y :: y in s <==> y == s[0] || y in s[1..];
      assert s[0] !in Without(s[1..], x);
    }
  }

  lemma {:induction false} WithoutAt<T>(s: seq<T>, x: T, i: nat)
    requires i <= |s| && (forall j :: 0 <= j < i ==> s[j] != x) && (i < |s| ==> s[i] == x)
    ensures Without(s, x) == if i < |s| then s[..i] + s[i+1..] else s
  {
    if i > 0 {
      WithoutAt(s[1..], x, i - 1);
    }
  }

  /** Every finite graph has a finite set of vertices closed under successors. */
  lemma FiniteUniverse(g: Graph, a: Id) returns (universe: set<Id>)
    ensures a in universe && g.Keys <= universe && ClosedUniverse(g, universe)
  {
    universe := {a} + g.Keys + set u, v | u in g && v in g[u] :: v;
  }

  ghost predicate ClosedUniverse(g: Graph, universe: set<Id>) {
    forall u, v :: v in Succ(g, u) ==> v in universe
  }

  /** Every successor of an element stands before it. */
  ghost predicate Postorder(g: Graph, order: seq<Id>) {
    forall i :: 0 <= i < |order| ==> forall v :: v in Succ(g, order[i]) ==> v in order[..i]
  }

  lemma PathAppend(g: Graph, p: seq<Id>, v: Id)
    requires IsPath(g, p) && v in Succ(g, p[|p|-1])
    ensures IsPath(g, p + [v])
  {
  }

  lemma PathHead(g: Graph, p: seq<Id>)
    requires IsPath(g, p) && |p| > 1
    ensures p[1] in Succ(g, p[0]) && IsPath(g, p[1..])
  {
    assert p[0+1] in Succ(g, p[0]);
  }

  lemma ReachesSelf(g: Graph, a: Id)
    ensures Reaches(g, a, a)
  {
    assert IsPathBetween(g, [a], a, a);
  }

  lemma ReachesStep(g: Graph, a: Id, b: Id, c: Id)
    requires Reaches(g, a, b) && c in Succ(g, b)
    ensures Reaches(g, a, c)
  {
    var p :| IsPathBetween(g, p, a, b);
    assert IsPathBetween(g, p + [c], a, c);
  }

  lemma ReachesTransitive(g: Graph, a: Id, b: Id, c: Id)
    requires Reaches(g, a, b) && Reaches(g, b, c)
    ensures Reaches(g, a, c)
  {
    var p :| IsPathBetween(g, p, a, b);
    var q :| IsPathBetween(g, q, b, c);
    assert IsPathBetween(g, p + q[1..], a, c) by {
      var r := p + q[1..];
      forall i | 0 <= i < |r| - 1 ensures r[i+1] in Succ(g, r[i]) {
        if i >= |p| - 1 {
          assert r[i] == q[i - (|p| - 1)];
          assert r[i+1] == q[i + 1 - (|p| - 1)];
        }
      }
      assert r[|r|-1] == q[|q|-1];
    }
  }

  /** A set that contains a and is closed under successors contains whatever a reaches. */
  lemma {:induction false} ClosedContainsReachable(g: Graph, closed: set<Id>, p: seq<Id>)
    requires IsPath(g, p) && p[0] in closed
    requires forall u, v :: u in closed && v in Succ(g, u) ==> v in closed
    ensures p[|p|-1] in closed
    decreases |p|
  {
    if |p| > 1 {
      ClosedContainsReachable(g, closed, p[1..]);
    }
  }

  /** Positions strictly decrease along a path inside a postorder. */
  lemma {:induction false} PathDescends(g: Graph, order: seq<Id>, p: seq<Id>, i: nat) returns (j: nat)
    requires Postorder(g, order) && IsPath(g, p)
    requires i < |order| && order[i] == p[0]
    ensures j <= i && order[j] == p[|p|-1]
    ensures |p| > 1 ==> j < i
    decreases |p|
  {
    j := i;
    if |p| > 1 {
      assert p[1] in Succ(g, p[0]);
      var k :| 0 <= k < i && order[k] == p[1];
      j := PathDescends(g, order, p[1..], k);
    }
  }

  lemma {:induction false} NoCycleAt(g: Graph, order: seq<Id>, c: seq<Id>, i: nat)
    requires |c| > 1
    requires Postorder(g, order) && i < |order| && order[i] == c[0]
    ensures !IsCycle(g, c)
    decreases i
  {
    if IsCycle(g, c) {
      var j := PathDescends(g, order, c, i);
      NoCycleAt(g, order, c, j);
    }
  }

  /** No cycle can be reached from an element of a postorder. */
  lemma PostorderNoCycle(g: Graph, order: seq<Id>, a: Id)
    requires Postorder(g, order) && a in order
    ensures !ReachesCycle(g, a)
  {
    forall c | |c| > 1 && Reaches(g, a, c[0]) ensures !IsCycle(g, c) {
      var p :| IsPathBetween(g, p, a, c[0]);
      var i :| 0 <= i < |order| && order[i] == a;
      var j := PathDescends(g, order, p, i);
      NoCycleAt(g, order, c, j);
    }
  }

  /**
   * From any vertex of a nonempty set, following successors inside the set ends in a vertex
   * with no successor in the set, or closes a cycle. `p` is the walk so far.
   */
  lemma FindSink(g: Graph, s: set<Id>, p: seq<Id>) returns (sink: Id)
    requires !HasCycle(g)
    requires IsPath(g, p) && NoDup(p) && forall x :: x in p ==> x in s
    ensures sink in s && Reaches(g, p[0], sink)
    ensures forall v :: v in Succ(g, sink) ==> v !in s
    decreases |s| - |p|
  {
    sink := p[|p|-1];
    assert IsPathBetween(g, p, p[0], sink);
    if v :| v in Succ(g, sink) && v in s {
      if v in p {
        var i :| 0 <= i < |p| && p[i] == v;
        var c := p[i..] + [v];
        assert IsCycle(g, c) by {
          forall k | 0 <= k < |c| - 1 ensures c[k+1] in Succ(g, c[k]) {
            if k + 1 < |p| - i { assert p[i+k+1] in Succ(g, p[i+k]); }
          }
        }
      } else {
        NoDupBound(p + [v], s);
        sink := FindSink(g, s, p + [v]);
      }
    }
  }

  lemma {:induction false} NoDupBound<T>(p: seq<T>, s: set<T>)
    requires NoDup(p) && forall x :: x in p ==> x in s
    ensures |p| <= |s|
  {
    if p != [] {
      var x := p[|p|-1];
      var q := p[..|p|-1];
      NoDupBound(q, s - {x});
    }
  }

  /** An acyclic graph has a topological order of every finite set of vertices, sinks first. */
  lemma {:induction false} TopologicalOrder(g: Graph, s: set<Id>) returns (order: seq<Id>)
    requires !HasCycle(g)
    ensures NoDup(order) && forall x :: x in order <==> x in s
    ensures forall i :: 0 <= i < |order| ==> forall v :: v in Succ(g, order[i]) && v in s ==> v in order[..i]
    decreases s
  {
    order := [];
    if s != {} {
      var a :| a in s;
      assert IsPath(g, [a]);
      var sink := FindSink(g, s, [a]);
      var rest := TopologicalOrder(g, s - {sink});
      order := [sink] + rest;
      forall i, v | 0 <= i < |order| && v in Succ(g, order[i]) && v in s ensures v in order[..i] {
        if i > 0 {
          assert order[..i] == [sink] + rest[..i-1];
        }
      }
    }
  }

  lemma {:induction false} SubsetSize<T>(a: set<T>, b: set<T>)
    requires a <= b
    ensures |a| <= |b|
  {
    if a != {} {
      var x :| x in a;
      SubsetSize(a - {x}, b - {x});
    }
  }

  lemma {:induction false} SameSize<T>(a: set<T>, b: set<T>)
    requires a <= b && |a| == |b|
    ensures a == b
  {
    if a != b {
      assert exists x :: x in b && x !in a;
      var x :| x in b && x !in a;
      SubsetSize(a, b - {x});
    }
  }
}
