/** The orders in which a Go map may be ranged over. */
module MapOrders {

  predicate Once<K(==)>(order: seq<K>) {
    forall i, j :: 0 <= i < j < |order| ==> order[i] != order[j]
  }

  /** The orders in which a map that gets no new keys is ranged over. */
  ghost predicate Ranges<K(!new)>(keys: set<K>, order: seq<K>) {
    Once(order) && forall k :: k in keys <==> k in order
  }

  /** What has been visited, once each, while the rest of the keys is still to be visited. */
  ghost predicate Visited<K(!new)>(order: seq<K>, keys: set<K>, unvisited: set<K>) {
    && unvisited <= keys && Once(order)
    && (forall k :: k in order <==> k in keys && k !in unvisited)
  }

  lemma VisitedNext<K(!new)>(order: seq<K>, keys: set<K>, unvisited: set<K>, k: K)
    requires Visited(order, keys, unvisited) && k in unvisited
    ensures Visited(order + [k], keys, unvisited - {k})
  {
  }

  lemma AllVisited<K(!new)>(order: seq<K>, keys: set<K>)
    requires Visited(order, keys, {})
    ensures Ranges(keys, order)
  {
  }

  /** The first n keys of an order. */
  ghost function SeenIn<K>(order: seq<K>, n: nat): set<K>
    requires n <= |order|
  {
    if n == 0 then {} else SeenIn(order, n - 1) + {order[n - 1]}
  }

  lemma {:induction false} SeenHas<K>(order: seq<K>, n: nat, k: K)
    requires n <= |order|
    ensures k in SeenIn(order, n) <==> exists i :: 0 <= i < n && order[i] == k
  {
    if n > 0 {
      SeenHas(order, n - 1, k);
    }
  }

  lemma SeenNext<K>(order: seq<K>, n: nat)
    requires 0 < n <= |order| && Once(order)
    ensures SeenIn(order, n) == SeenIn(order, n - 1) + {order[n - 1]}
    ensures order[n - 1] !in SeenIn(order, n - 1) && order[n - 1] in order
  {
    SeenHas(order, n - 1, order[n - 1]);
  }

  lemma {:induction false} SeenAllKeys<K(!new)>(keys: set<K>, order: seq<K>)
    requires Ranges(keys, order)
    ensures SeenIn(order, |order|) == keys
  {
    forall k ensures k in SeenIn(order, |order|) <==> k in keys {
      SeenHas(order, |order|, k);
    }
  }

  /** A map may be ranged over starting with any of its keys. */
  lemma {:induction false} StartingWith<K(!new)>(keys: set<K>, k: K) returns (order: seq<K>)
    requires k in keys
    ensures Ranges(keys, order) && order[0] == k
  {
    var rest := keys - {k};
    if rest == {} {
      order := [k];
    } else {
      var j :| j in rest;
      var order1 := StartingWith(rest, j);
      order := [k] + order1;
      assert forall i :: i in order <==> i == k || i in order1;
    }
  }

  /** Every map can be ranged over. */
  lemma SomeOrder<K(!new)>(keys: set<K>) returns (order: seq<K>)
    ensures Ranges(keys, order)
  {
    if keys == {} {
      order := [];
    } else {
      var k :| k in keys;
      order := StartingWith(keys, k);
    }
  }

  lemma OneAfterTheOther<K(!new)>(a: set<K>, order: seq<K>, b: set<K>, order1: seq<K>)
    requires Ranges(a, order) && Ranges(b, order1) && a !! b
    ensures Ranges(a + b, order + order1)
  {
    var both := order + order1;
    forall k ensures k in a + b <==> k in both {
      assert k in both <==> k in order || k in order1;
    }
    forall i, j | 0 <= i < j < |both| ensures both[i] != both[j] {
      if i < |order| <= j {
        assert order[i] in order && order1[j - |order|] in order1;
      }
    }
  }
}
