/** Sets of numbers listed in ascending order, and the sizes of sets. */
module Sorting {

  predicate Ascending(indexes: seq<nat>) {
    forall i, j :: 0 <= i < j < |indexes| ==> indexes[i] < indexes[j]
  }

  method InOrder(keys: set<nat>) returns (sorted: seq<nat>)
    ensures Ascending(sorted) && forall i :: i in sorted <==> i in keys
  {
    sorted := [];
    var left := keys;
    while left != {}
      invariant left <= keys && Ascending(sorted)
      invariant forall i :: i in keys <==> i in left || i in sorted
      invariant forall i, j :: i in sorted && j in left ==> i < j
      decreases |left|
    {
      var least :| least in left;
      var rest := left - {least};
      while rest != {}
        invariant rest <= left && least in left && forall j :: j in left && j !in rest ==> least <= j
        decreases |rest|
      {
        var other :| other in rest;
        least := if other < least then other else least;
        rest := rest - {other};
      }
      assert forall i :: 0 <= i < |sorted| ==> sorted[i] in sorted;
      sorted := sorted + [least];
      left := left - {least};
    }
  }

  lemma AscendingLast(a: seq<nat>, last: nat)
    requires Ascending(a) && a != [] && last == a[|a| - 1]
    ensures last in a && Ascending(a[..|a| - 1]) && a == a[..|a| - 1] + [last]
    ensures forall i :: i in a ==> i <= last
    ensures forall i :: i in a[..|a| - 1] <==> i in a && i != last
  {
  }

  lemma {:induction false} AscendingIsUnique(a: seq<nat>, b: seq<nat>)
    requires Ascending(a) && Ascending(b) && forall i :: i in a <==> i in b
    ensures a == b
    decreases |a|
  {
    assert a != [] ==> a[0] in b;
    assert b != [] ==> b[0] in a;
    if a != [] && b != [] {
      hide Ascending;
      AscendingLast(a, a[|a| - 1]);
      AscendingLast(b, b[|b| - 1]);
      assert a[|a| - 1] in b && b[|b| - 1] in a;
      var front, others := a[..|a| - 1], b[..|b| - 1];
      assert forall i :: i in front <==> i in others by {
        assert forall i :: i in front ==> i in a && i in b;
        assert forall i :: i in others ==> i in b && i in a;
      }
      AscendingIsUnique(a[..|a| - 1], b[..|b| - 1]);
    }
  }

  lemma SubsetIsNoLarger<T>(a: set<T>, b: set<T>)
    requires a <= b
    ensures |a| <= |b|
  {
    assert b == a + (b - a);
  }
}
