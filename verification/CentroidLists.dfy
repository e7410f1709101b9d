/** Sorting centroids by bound, and listing a map of counts as a sorted slice of centroids. */
module CentroidLists {
  import opened WeightedSums
  import opened Buckets

  // ---- sort.Slice ------------------------------------------------------------------------------

  ghost predicate SortedPermutation(before: seq<Centroid>, after: seq<Centroid>) {
    Sorted(after) && multiset(before) == multiset(after)
  }

  function Insert(c: Centroid, s: seq<Centroid>): seq<Centroid> {
    if s == [] || !s[0].value.Less(c.value) then [c] + s else [s[0]] + Insert(c, s[1..])
  }

  function Sort(s: seq<Centroid>): seq<Centroid> {
    if s == [] then [] else Insert(s[0], Sort(s[1..]))
  }

  lemma {:induction false} InsertKeepsElements(c: Centroid, s: seq<Centroid>)
    ensures multiset(Insert(c, s)) == multiset{c} + multiset(s)
  {
    if s != [] {
      InsertKeepsElements(c, s[1..]);
      assert s == [s[0]] + s[1..];
    }
  }

  lemma {:induction false} InsertKeepsSorted(c: Centroid, s: seq<Centroid>)
    requires Sorted(s)
    ensures Sorted(Insert(c, s))
  {
    if s != [] && s[0].value.Less(c.value) {
      InsertKeepsSorted(c, s[1..]);
      InsertKeepsElements(c, s[1..]);
      var rest := Insert(c, s[1..]);
      forall j | 0 <= j < |rest|
        ensures !rest[j].value.Less(s[0].value)
      {
        assert rest[j] in multiset(rest);
        assert rest[j] == c || rest[j] in s[1..];
      }
    }
  }

  lemma {:induction false} SortSorts(s: seq<Centroid>)
    ensures SortedPermutation(s, Sort(s))
  {
    if s != [] {
      SortSorts(s[1..]);
      InsertKeepsElements(s[0], Sort(s[1..]));
      InsertKeepsSorted(s[0], Sort(s[1..]));
      assert s == [s[0]] + s[1..];
    }
  }

  lemma {:induction false} SortKeepsSorted(s: seq<Centroid>)
    requires Sorted(s)
    ensures Sort(s) == s
  {
    if s != [] {
      SortKeepsSorted(s[1..]);
      assert |s| > 1 ==> s[1..][0] == s[1];
    }
  }

  lemma {:induction false} SortLength(s: seq<Centroid>)
    ensures |Sort(s)| == |s|
  {
    SortSorts(s);
    assert |multiset(Sort(s))| == |multiset(s)|;
  }

  /** Rearranges the slice in place. */
  method SortByValue(a: array<Centroid>)
    modifies a
    ensures a[..] == Sort(old(a[..]))
  {
    var s := Sort(a[..]);
    SortLength(a[..]);
    forall i | 0 <= i < a.Length {
      a[i] := s[i];
    }
    assert a[..] == s;
  }

  /** With distinct bounds there is only one sorted order. */
  lemma {:induction false} SortedPermutationUnique(s: seq<Centroid>, t: seq<Centroid>)
    requires StrictlyIncreasing(s) && SortedPermutation(s, t)
    ensures s == t
  {
    assert |s| == |multiset(s)| == |multiset(t)| == |t|;
    if s != [] {
      assert s[0] in multiset(t) && t[0] in multiset(s);
      var i :| 0 <= i < |s| && s[i] == t[0];
      var j :| 0 <= j < |t| && t[j] == s[0];
      assert !t[j].value.Less(t[0].value);
      assert i == 0;
      TailElements(s);
      TailElements(t);
      SortedPermutationUnique(s[1..], t[1..]);
    }
  }

  lemma TailElements(s: seq<Centroid>)
    requires s != []
    ensures multiset(s[1..]) == multiset(s) - multiset{s[0]}
  {
    assert s == [s[0]] + s[1..];
  }

  lemma FrontElements(s: seq<Centroid>)
    requires s != []
    ensures multiset(s[..|s| - 1]) == multiset(s) - multiset{s[|s| - 1]}
  {
    assert s == s[..|s| - 1] + [s[|s| - 1]];
  }

  /** No element occurs at two places when none has multiplicity two. */
  lemma NoRepeats(s: seq<Centroid>, i: nat, j: nat)
    requires i < j < |s|
    requires multiset(s)[s[i]] <= 1
    ensures s[i] != s[j]
  {
    assert s == s[..i] + [s[i]] + s[i + 1..];
    assert multiset(s)[s[i]] == multiset(s[..i])[s[i]] + 1 + multiset(s[i + 1..])[s[i]];
    assert s[i] !in s[i + 1..];
    assert s[j] == s[i + 1..][j - i - 1];
  }

  // ---- centroidMapToSlice ----------------------------------------------------------------------

  function Items(m: map<Bound, real>): set<Centroid> {
    set v | v in m :: Centroid(v, m[v])
  }

  ghost predicate Lists(s: seq<Centroid>, m: map<Bound, real>) {
    multiset(s) == multiset(Items(m))
  }

  lemma ItemsWithout(m: map<Bound, real>, v: Bound)
    requires v in m
    ensures Items(m) == Items(m - {v}) + {Centroid(v, m[v])}
    ensures Centroid(v, m[v]) !in Items(m - {v})
    ensures multiset(Items(m)) == multiset(Items(m - {v})) + multiset{Centroid(v, m[v])}
  {
    var rest, c := Items(m - {v}), Centroid(v, m[v]);
    assert Items(m) == rest + {c} by {
      forall x ensures x in Items(m) <==> x in rest + {c} {
        if x in Items(m) {
          assert x.value in m && x == Centroid(x.value, m[x.value]);
          if x.value != v {
            assert x.value in m - {v};
          }
        }
      }
    }
  }

  /** The map may be visited in any order; the slice lists every entry once. */
  method CentroidMapToSlice(counts: map<Bound, real>) returns (centroids: array<Centroid>)
    ensures fresh(centroids) && Lists(centroids[..], counts)
  {
    var out: seq<Centroid> := [];
    var rest := counts;
    while rest != map[]
      invariant multiset(out) + multiset(Items(rest)) == multiset(Items(counts))
      decreases |rest|
    {
      var v :| v in rest;
      ItemsWithout(rest, v);
      out := out + [Centroid(v, rest[v])];
      rest := rest - {v};
    }
    assert Items(rest) == {};
    centroids := new Centroid[|out|](i requires 0 <= i < |out| => out[i]);
    assert centroids[..] == out;
  }

  ghost function WeightOf(s: seq<Centroid>, f: (Bound, real) -> real): real {
    if s == [] then 0.0 else WeightOf(s[..|s| - 1], f) + f(s[|s| - 1].value, s[|s| - 1].count)
  }

  lemma {:induction false} ListWeighsMap(s: seq<Centroid>, m: map<Bound, real>, f: (Bound, real) -> real)
    requires Lists(s, m)
    ensures WeightOf(s, f) == WeightedSum(m, f)
  {
    if m == map[] {
      assert Items(m) == {};
      assert |s| == |multiset(s)| == 0;
    } else {
      var v :| v in m;
      assert Centroid(v, m[v]) in multiset(Items(m));
      var front, c := s[..|s| - 1], s[|s| - 1];
      FrontElements(s);
      assert c in multiset(Items(m));
      assert c in Items(m) && c.value in m && m[c.value] == c.count;
      ItemsWithout(m, c.value);
      ListWeighsMap(front, m - {c.value}, f);
      WeightedSumRemove(m, f, c.value);
    }
  }

  /** A sorted listing of a map has strictly increasing bounds, hence is unique. */
  lemma SortedListingIsStrict(s: seq<Centroid>, m: map<Bound, real>)
    requires Lists(s, m) && Sorted(s)
    ensures StrictlyIncreasing(s)
  {
    forall i, j | 0 <= i < j < |s|
      ensures s[i].value.Less(s[j].value)
    {
      assert s[i] in multiset(Items(m)) && s[j] in multiset(Items(m));
      assert s[i] in Items(m) && s[j] in Items(m);
      NoRepeats(s, i, j);
      assert s[i].value != s[j].value;
    }
  }

  lemma SortedListingUnique(s: seq<Centroid>, t: seq<Centroid>, m: map<Bound, real>)
    requires Lists(s, m) && Sorted(s) && Lists(t, m) && Sorted(t)
    ensures s == t
  {
    SortedListingIsStrict(s, m);
    SortedPermutationUnique(s, t);
  }
}
