/** The orders in which a Go map may be ranged over. */
module MapOrder {
  /** `order` visits every element of `s` exactly once. */
  ghost predicate Enumerates<T(!new)>(order: seq<T>, s: set<T>) {
    && (forall i, j :: 0 <= i < j < |order| ==> order[i] != order[j])
    && (forall x :: x in order <==> x in s)
  }

  ghost function SomeOrder<T(!new)>(s: set<T>): (order: seq<T>)
    ensures Enumerates(order, s)
  {
    if s == {} then [] else
    var x :| x in s;
    SomeOrder(s - {x}) + [x]
  }

  lemma Joined<T(!new)>(o: seq<T>, s: set<T>, o': seq<T>, s': set<T>)
    requires Enumerates(o, s) && Enumerates(o', s') && s !! s'
    ensures Enumerates(o + o', s + s')
  {
    var all := o + o';
    forall i, j | 0 <= i < j < |all|
      ensures all[i] != all[j]
    {
      if i < |o| && |o| <= j {
        assert all[i] in s && o'[j - |o|] in s';
      }
    }
  }

  lemma Shorter<T(!new)>(order: seq<T>, s: set<T>)
    requires Enumerates(order, s) && order != []
    ensures Enumerates(order[..|order| - 1], s - {order[|order| - 1]})
    ensures order[|order| - 1] in s
  {
    var n := |order| - 1;
    assert order == order[..n] + [order[n]];
    forall x
      ensures x in order[..n] <==> x in s - {order[n]}
    {
      if x in order[..n] {
        var i :| 0 <= i < n && order[..n][i] == x;
        assert order[i] == x;
      }
    }
  }
}
