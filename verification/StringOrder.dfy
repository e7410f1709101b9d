/** The order of Go strings, and sorting by it. */
module StringOrder {
  import opened MapOrders

  /** a <= b, letter by letter. */
  predicate AtMost(a: string, b: string) {
    a == [] || (b != [] && (a[0] < b[0] || (a[0] == b[0] && AtMost(a[1..], b[1..]))))
  }

  lemma {:induction false} Total(a: string, b: string)
    ensures AtMost(a, b) || AtMost(b, a)
  {
    if a != [] && b != [] {
      Total(a[1..], b[1..]);
    }
  }

  lemma {:induction false} Antisymmetric(a: string, b: string)
    requires AtMost(a, b) && AtMost(b, a)
    ensures a == b
  {
    if a != [] {
      Antisymmetric(a[1..], b[1..]);
      assert a == [a[0]] + a[1..] && b == [b[0]] + b[1..];
    }
  }

  lemma {:induction false} Transitive(a: string, b: string, c: string)
    requires AtMost(a, b) && AtMost(b, c)
    ensures AtMost(a, c)
  {
    if a != [] && a[0] == b[0] && b[0] == c[0] {
      Transitive(a[1..], b[1..], c[1..]);
    }
  }

  /** At the first letter where they differ, that of a is the smaller one. */
  ghost predicate Earlier(a: string, b: string) {
    exists i :: 0 <= i < |a| && i < |b| && a[..i] == b[..i] && a[i] < b[i]
  }

  /** It is the lexicographic order. */
  lemma {:induction false} AtMostIs(a: string, b: string)
    ensures AtMost(a, b) <==> a <= b || Earlier(a, b)
  {
    if a != [] && b != [] {
      var a1, b1 := a[1..], b[1..];
      AtMostIs(a1, b1);
      if a[0] < b[0] {
        assert a[..0] == b[..0];
      }
      if i :| 0 <= i < |a1| && i < |b1| && a1[..i] == b1[..i] && a1[i] < b1[i] {
        assert a[0] == b[0] ==> a[..i + 1] == [a[0]] + a1[..i] == b[..i + 1];
        assert a[i + 1] < b[i + 1];
      }
      if i :| 0 <= i < |a| && i < |b| && a[..i] == b[..i] && a[i] < b[i] && i > 0 {
        assert a[0] == a[..i][0] == b[0];
        assert a1[..i - 1] == a[..i][1..] == b1[..i - 1];
        assert a1[i - 1] < b1[i - 1];
      }
    }
  }

  predicate Sorted(s: seq<string>) {
    forall i, j :: 0 <= i < j < |s| ==> AtMost(s[i], s[j])
  }

  function Insert(x: string, s: seq<string>): seq<string> {
    if s == [] || AtMost(x, s[0]) then [x] + s else [s[0]] + Insert(x, s[1..])
  }

  function Sort(s: seq<string>): seq<string> {
    if s == [] then [] else Insert(s[0], Sort(s[1..]))
  }

  lemma {:induction false} InsertKeepsElements(x: string, s: seq<string>)
    ensures multiset(Insert(x, s)) == multiset{x} + multiset(s)
  {
    if s != [] {
      InsertKeepsElements(x, s[1..]);
      assert s == [s[0]] + s[1..];
    }
  }

  lemma {:induction false} InsertKeepsSorted(x: string, s: seq<string>)
    requires Sorted(s)
    ensures Sorted(Insert(x, s))
  {
    if s != [] {
      Total(x, s[0]);
      if AtMost(x, s[0]) {
        forall j | 0 <= j < |s| ensures AtMost(x, s[j]) {
          if j > 0 {
            Transitive(x, s[0], s[j]);
          }
        }
      } else {
        InsertKeepsSorted(x, s[1..]);
        InsertKeepsElements(x, s[1..]);
        var rest := Insert(x, s[1..]);
        forall j | 0 <= j < |rest| ensures AtMost(s[0], rest[j]) {
          assert rest[j] in multiset(rest);
          assert rest[j] == x || rest[j] in s[1..];
        }
      }
    }
  }

  lemma {:induction false} SortSorts(s: seq<string>)
    ensures Sorted(Sort(s)) && multiset(Sort(s)) == multiset(s)
  {
    if s != [] {
      SortSorts(s[1..]);
      InsertKeepsElements(s[0], Sort(s[1..]));
      InsertKeepsSorted(s[0], Sort(s[1..]));
      assert s == [s[0]] + s[1..];
    }
  }

  /** There is only one sorted order. */
  lemma {:induction false} SortedUnique(s: seq<string>, t: seq<string>)
    requires Sorted(s) && Sorted(t) && multiset(s) == multiset(t)
    ensures s == t
  {
    assert |s| == |multiset(s)| == |multiset(t)| == |t|;
    if s != [] {
      FirstsEqual(s, t);
      assert s == [s[0]] + s[1..] && t == [t[0]] + t[1..];
      assert multiset(s[1..]) == multiset(s) - multiset{s[0]} == multiset(t[1..]);
      SortedUnique(s[1..], t[1..]);
    }
  }

  lemma FirstsEqual(s: seq<string>, t: seq<string>)
    requires s != [] && t != [] && Sorted(s) && Sorted(t) && multiset(s) == multiset(t)
    ensures s[0] == t[0]
  {
    assert s[0] in multiset(t) && t[0] in multiset(s);
    var i :| 0 <= i < |s| && s[i] == t[0];
    var j :| 0 <= j < |t| && t[j] == s[0];
    Total(s[0], s[0]);
    assert AtMost(s[0], t[0]) && AtMost(t[0], s[0]);
    Antisymmetric(s[0], t[0]);
  }

  /** The sorted sequence of a bag of strings. */
  ghost function Listed(bag: multiset<string>): seq<string>
    decreases |bag|
  {
    if bag == multiset{} then []
    else
      var x :| x in bag;
      Insert(x, Listed(bag - multiset{x}))
  }

  lemma {:induction false} ListedSorts(bag: multiset<string>)
    ensures Sorted(Listed(bag)) && multiset(Listed(bag)) == bag
    decreases |bag|
  {
    if bag != multiset{} {
      var x :| x in bag && Listed(bag) == Insert(x, Listed(bag - multiset{x}));
      ListedSorts(bag - multiset{x});
      InsertKeepsSorted(x, Listed(bag - multiset{x}));
      InsertKeepsElements(x, Listed(bag - multiset{x}));
    }
  }

  lemma {:induction false} SortIsListed(s: seq<string>)
    ensures Sort(s) == Listed(multiset(s))
  {
    SortSorts(s);
    ListedSorts(multiset(s));
    SortedUnique(Sort(s), Listed(multiset(s)));
  }

  // ---- The names of a map, sorted ------------------------------------------------------------------------

  method SortedKeys(m: map<string, string>) returns (names: seq<string>)
    ensures Sorted(names) && |names| == |m| && forall k :: k in names <==> k in m
    ensures Once(names)
  {
    names := [];
    var unvisited := m.Keys;
    while unvisited != {}
      invariant forall k :: k in names <==> k in m && k !in unvisited
      invariant unvisited <= m.Keys && |names| + |unvisited| == |m|
      invariant Once(names)
      decreases unvisited
    {
      var k :| k in unvisited;
      names := names + [k];
      unvisited := unvisited - {k};
    }
    SortSorts(names);
    SortedDistinct(names);
    names := Sort(names);
  }

  lemma {:induction false} SortedDistinct(names: seq<string>)
    requires Once(names)
    ensures var s := Sort(names);
      |s| == |names| && (forall k :: k in s <==> k in names) && Once(s)
  {
    var s := Sort(names);
    SortSorts(names);
    assert |multiset(s)| == |multiset(names)|;
    forall k ensures k in s <==> k in names {
      assert k in multiset(s) <==> k in multiset(names);
    }
    forall i, j | 0 <= i < j < |s| ensures s[i] != s[j] {
      AtMostOnce(names, s[i]);
      if s[i] == s[j] {
        TwiceIn(s, i, j);
      }
    }
  }

  lemma {:induction false} AtMostOnce(s: seq<string>, x: string)
    requires Once(s)
    ensures multiset(s)[x] <= 1
  {
    if s != [] {
      AtMostOnce(s[1..], x);
      assert s == [s[0]] + s[1..];
      assert s[0] == x ==> x !in s[1..];
    }
  }

  lemma TwiceIn(s: seq<string>, i: nat, j: nat)
    requires i < j < |s| && s[i] == s[j]
    ensures multiset(s)[s[i]] >= 2
  {
    assert s == s[..j] + [s[j]] + s[j + 1..];
    assert s[i] in s[..j];
  }
}
