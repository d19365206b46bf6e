/** The mutable, insertion-ordered Set of JavaScript. */
module JsSets {
  import opened Graphs

  class JsSet {
    var items: seq<Id>

    ghost predicate Valid()
      reads this
    {
      NoDup(items)
    }

    constructor ()
      ensures Valid() && items == []
    {
      items := [];
    }

    predicate Has(x: Id)
      reads this
    {
      x in items
    }

    method Add(x: Id)
      requires Valid()
      modifies this
      ensures Valid()
      ensures items == if x in old(items) then old(items) else old(items) + [x]
    {
      if x !in items {
        items := items + [x];
      }
    }

    method Delete(x: Id)
      requires Valid()
      modifies this
      ensures Valid()
      ensures items == Without(old(items), x)
    {
      hide Without;
      var i := 0;
      while i < |items| && items[i] != x
        invariant 0 <= i <= |items|
        invariant forall j :: 0 <= j < i ==> items[j] != x
      {
        i := i + 1;
      }
      WithoutAt(items, x, i);
      WithoutKeepsNoDup(items, x);
      if i < |items| {
        items := items[..i] + items[i+1..];
      }
    }
  }
}
