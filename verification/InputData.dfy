/** The walk that rejects input data whose objects are not a tree. */
module InputData {
  import opened Graphs

  type Ref = nat

  /** A JavaScript value: a primitive, or a reference to an object or array. */
  datatype Value = Primitive | Object(ref: Ref)

  /** The values an object holds, in property order. */
  type Heap = map<Ref, seq<Value>>

  ghost predicate Closed(heap: Heap) {
    forall o, i :: o in heap && 0 <= i < |heap[o]| && heap[o][i].Object? ==> heap[o][i].ref in heap
  }

  predicate InHeap(heap: Heap, v: Value) {
    v.Object? ==> v.ref in heap
  }

  /** Following an access path from a value ends at the object. */
  ghost predicate Leads(heap: Heap, v: Value, path: seq<nat>, o: Ref)
    decreases |path|
  {
    v.Object? && v.ref in heap &&
    if path == [] then v.ref == o
    else path[0] < |heap[v.ref]| && Leads(heap, heap[v.ref][path[0]], path[1..], o)
  }

  /** No object is met twice: different access paths end at different objects. */
  ghost predicate IsTree(heap: Heap, v: Value) {
    forall p, q, o :: Leads(heap, v, p, o) && Leads(heap, v, q, o) ==> p == q
  }

  ghost predicate Meets(heap: Heap, v: Value, o: Ref) {
    exists p :: Leads(heap, v, p, o)
  }

  class WeakSet {
    var items: set<Ref>

    constructor ()
      ensures items == {}
    {
      items := {};
    }

    predicate Has(o: Ref)
      reads this
    {
      o in items
    }

    method Add(o: Ref)
      modifies this
      ensures items == old(items) + {o}
    {
      items := items + {o};
    }
  }

  /** The walk from a value met exactly what it leads to, each object once and none of them before. */
  ghost predicate Walked(heap: Heap, v: Value, before: set<Ref>, after: set<Ref>) {
    && IsTree(heap, v)
    && (forall o :: o in after <==> o in before || Meets(heap, v, o))
    && (forall o :: o in before ==> !Meets(heap, v, o))
  }

  /** Some object is met a second time. */
  ghost predicate Repeats(heap: Heap, v: Value, before: set<Ref>) {
    !IsTree(heap, v) || exists o :: o in before && Meets(heap, v, o)
  }

  /** The same for the first n values held by an object. */
  ghost predicate WalkedUpTo(heap: Heap, values: seq<Value>, n: nat, before: set<Ref>, after: set<Ref>) {
    && n <= |values|
    && (forall i :: 0 <= i < n ==> IsTree(heap, values[i]))
    && (forall o :: o in after <==> o in before || exists i :: 0 <= i < n && Meets(heap, values[i], o))
    && (forall i, o :: 0 <= i < n && o in before ==> !Meets(heap, values[i], o))
    && (forall i, j, o :: 0 <= i < j < n && Meets(heap, values[i], o) ==> !Meets(heap, values[j], o))
  }

  lemma WalkedNext(heap: Heap, values: seq<Value>, n: nat, before: set<Ref>, mid: set<Ref>, after: set<Ref>)
    requires n < |values| && WalkedUpTo(heap, values, n, before, mid) && Walked(heap, values[n], mid, after)
    ensures WalkedUpTo(heap, values, n + 1, before, after)
  {
    hide IsTree, Meets;
  }

  /** A path from an object goes through one of its values. */
  lemma Through(heap: Heap, o: Ref, path: seq<nat>, x: Ref)
    requires o in heap && path != []
    ensures Leads(heap, Object(o), path, x) <==>
      path[0] < |heap[o]| && Leads(heap, heap[o][path[0]], path[1..], x)
  {
  }

  lemma Into(heap: Heap, o: Ref, i: nat, path: seq<nat>, x: Ref)
    requires o in heap && i < |heap[o]| && Leads(heap, heap[o][i], path, x)
    ensures Leads(heap, Object(o), [i] + path, x)
  {
    assert ([i] + path)[1..] == path;
  }

  lemma MeetsThrough(heap: Heap, o: Ref, x: Ref)
    requires o in heap
    ensures Meets(heap, Object(o), x) <==> x == o || exists i :: 0 <= i < |heap[o]| && Meets(heap, heap[o][i], x)
  {
    if Meets(heap, Object(o), x) {
      var p :| Leads(heap, Object(o), p, x);
      if p != [] {
        Through(heap, o, p, x);
        assert Meets(heap, heap[o][p[0]], x);
      }
    }
    if x == o {
      assert Leads(heap, Object(o), [], x);
    }
    forall i | 0 <= i < |heap[o]| && Meets(heap, heap[o][i], x) ensures Meets(heap, Object(o), x) {
      var p :| Leads(heap, heap[o][i], p, x);
      Into(heap, o, i, p, x);
    }
  }

  /** All values walked: the object itself is walked. */
  lemma ObjectWalked(heap: Heap, o: Ref, before: set<Ref>, after: set<Ref>)
    requires o in heap && o !in before
    requires WalkedUpTo(heap, heap[o], |heap[o]|, before + {o}, after)
    ensures Walked(heap, Object(o), before, after)
  {
    forall p, q, x | Leads(heap, Object(o), p, x) && Leads(heap, Object(o), q, x) ensures p == q {
      SamePath(heap, o, before, after, p, q, x);
    }
    forall x ensures x in after <==> x in before || Meets(heap, Object(o), x) {
      MeetsThrough(heap, o, x);
    }
    forall x | x in before ensures !Meets(heap, Object(o), x) {
      MeetsThrough(heap, o, x);
    }
  }

  lemma SamePath(heap: Heap, o: Ref, before: set<Ref>, after: set<Ref>, p: seq<nat>, q: seq<nat>, x: Ref)
    requires o in heap && WalkedUpTo(heap, heap[o], |heap[o]|, before + {o}, after)
    requires Leads(heap, Object(o), p, x) && Leads(heap, Object(o), q, x)
    ensures p == q
  {
    if p != [] {
      Through(heap, o, p, x);
      assert Meets(heap, heap[o][p[0]], x);
    }
    if q != [] {
      Through(heap, o, q, x);
      assert Meets(heap, heap[o][q[0]], x);
    }
    if p != [] && q != [] {
      assert p == [p[0]] + p[1..] && q == [q[0]] + q[1..];
    }
  }

  lemma ObjectRepeats(heap: Heap, o: Ref, n: nat, before: set<Ref>, mid: set<Ref>)
    requires o in heap && n < |heap[o]| && WalkedUpTo(heap, heap[o], n, before + {o}, mid)
    requires Repeats(heap, heap[o][n], mid)
    ensures Repeats(heap, Object(o), before)
  {
    var v := heap[o][n];
    if !IsTree(heap, v) {
      var p, q, x :| Leads(heap, v, p, x) && Leads(heap, v, q, x) && p != q;
      Into(heap, o, n, p, x);
      Into(heap, o, n, q, x);
      assert ([n] + p)[1..] == p && ([n] + q)[1..] == q;
    } else {
      var x :| x in mid && Meets(heap, v, x);
      var p :| Leads(heap, v, p, x);
      Into(heap, o, n, p, x);
      if x == o {
        assert Leads(heap, Object(o), [], x);
      } else if x !in before {
        var i :| 0 <= i < n && Meets(heap, heap[o][i], x);
        var q :| Leads(heap, heap[o][i], q, x);
        Into(heap, o, i, q, x);
        assert ([n] + p)[0] != ([i] + q)[0];
      }
    }
  }

  lemma FewerUnseen(all: set<Ref>, seen: set<Ref>, o: Ref)
    requires o in all && o !in seen
    ensures |all - (seen + {o})| < |all - seen|
  {
    assert all - (seen + {o}) == all - seen - {o};
  }

  /** Accepts a value exactly if nothing it leads to is met twice or was seen before. */
  method Validate(heap: Heap, data: Value, seen: WeakSet) returns (valid: bool)
    requires Closed(heap) && InHeap(heap, data)
    modifies seen
    ensures old(seen.items) <= seen.items
    ensures valid ==> Walked(heap, data, old(seen.items), seen.items)
    ensures !valid ==> Repeats(heap, data, old(seen.items))
    decreases |heap.Keys - seen.items|, 0
  {
    hide Walked, Repeats, WalkedUpTo;
    if data == Primitive {
      PrimitiveWalked(heap, seen.items);
      return true;
    }
    var o := data.ref;
    if seen.Has(o) {
      SeenRepeats(heap, o, seen.items);
      return false;
    }
    ghost var before := seen.items;
    FewerUnseen(heap.Keys, before, o);
    seen.Add(o);
    NothingWalked(heap, heap[o], seen.items);
    for i := 0 to |heap[o]|
      invariant before + {o} <= seen.items
      invariant WalkedUpTo(heap, heap[o], i, before + {o}, seen.items)
    {
      ghost var mid := seen.items;
      StillFewer(heap.Keys, before, o, mid);
      var validation := Validate(heap, heap[o][i], seen);
      if !validation {
        ObjectRepeats(heap, o, i, before, mid);
        return false;
      }
      WalkedNext(heap, heap[o], i, before + {o}, mid, seen.items);
    }
    ObjectWalked(heap, o, before, seen.items);
    return true;
  }

  lemma StillFewer(all: set<Ref>, seen: set<Ref>, o: Ref, more: set<Ref>)
    requires o in all && o !in seen && seen + {o} <= more
    ensures |all - more| < |all - seen|
  {
    FewerUnseen(all, seen, o);
    SubsetSize(all - more, all - (seen + {o}));
  }

  lemma PrimitiveWalked(heap: Heap, before: set<Ref>)
    ensures Walked(heap, Primitive, before, before)
  {
  }

  lemma NothingWalked(heap: Heap, values: seq<Value>, before: set<Ref>)
    ensures WalkedUpTo(heap, values, 0, before, before)
  {
  }

  lemma SeenRepeats(heap: Heap, o: Ref, before: set<Ref>)
    requires o in heap && o in before
    ensures Repeats(heap, Object(o), before)
  {
    assert Leads(heap, Object(o), [], o);
  }

  /** The validator: a walk with nothing seen. */
  method ValidateInputData(heap: Heap, data: Value) returns (valid: bool)
    requires Closed(heap) && InHeap(heap, data)
    ensures valid <==> IsTree(heap, data)
  {
    var seen := new WeakSet();
    valid := Validate(heap, data, seen);
  }

  lemma LeadsOn(heap: Heap, v: Value, p: seq<nat>, q: seq<nat>, o: Ref, x: Ref)
    requires Leads(heap, v, p, o) && Leads(heap, Object(o), q, x)
    ensures Leads(heap, v, p + q, x)
    decreases |p|
  {
    if p == [] {
      assert p + q == q;
    } else {
      assert (p + q)[1..] == p[1..] + q;
      LeadsOn(heap, heap[v.ref][p[0]], p[1..], q, o, x);
    }
  }

  /** Accepted data has no cycle; and an object held in two places is enough for a rejection. */
  lemma TreesAreAcyclic(heap: Heap, v: Value, p: seq<nat>, o: Ref, q: seq<nat>)
    requires Leads(heap, v, p, o) && q != [] && Leads(heap, Object(o), q, o)
    ensures !IsTree(heap, v)
  {
    LeadsOn(heap, v, p, q, o, o);
    assert p != p + q;
  }

  lemma SharingIsRejected(heap: Heap, o: Ref, i: nat, j: nat, x: Ref)
    requires o in heap && i < j < |heap[o]| && heap[o][i] == heap[o][j] == Object(x) && x in heap
    ensures !IsTree(heap, Object(o))
  {
    assert Leads(heap, heap[o][i], [], x);
    Into(heap, o, i, [], x);
    Into(heap, o, j, [], x);
    assert ([i] + [])[0] != ([j] + [])[0];
  }
}
