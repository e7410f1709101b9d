/** cleanTags, which deletes tags from a map in place and says which it deleted and why. */
module TagCleaners {
  import opened MapOrders
  import opened StringOrder
  import opened TagCleaning

  predicate IsAnEmptyTag(value: string) { value == "" || value == "/" || value == "-" }

  /** The names removed, each once, and the tags left are what there was. */
  ghost predicate Parts(before: Tags, after: Tags, removed: seq<string>) {
    && Once(removed)
    && (forall k :: k in before <==> k in after || k in removed)
    && (forall k :: k in after ==> k !in removed && after[k] == before[k])
  }

  lemma PartsTogether(a: Tags, b: Tags, c: Tags, r: seq<string>, s: seq<string>)
    requires Parts(a, b, r) && Parts(b, c, s)
    ensures Parts(a, c, r + s)
  {
    forall i, j | 0 <= i < j < |r + s| ensures (r + s)[i] != (r + s)[j] {
      if i < |r| <= j {
        assert r[i] in r && s[j - |r|] in s;
      }
    }
  }

  lemma OneMore(before: Tags, after: Tags, removed: seq<string>, name: string)
    requires Parts(before, after, removed) && name in after
    ensures Parts(before, after - {name}, removed + [name])
  {
  }

  /** The names that match. */
  function Matches(tags: Tags, pattern: Pattern): set<string> {
    set k | k in tags && pattern(k)
  }

  /** The names removed match, and come before those that match and are left. */
  ghost predicate TheLeast(pattern: Pattern, removed: seq<string>, left: Tags) {
    && (forall k :: k in removed ==> pattern(k))
    && (forall k, j :: k in removed && j in left && pattern(j) ==> AtMost(k, j))
  }

  /** How many names are removed for a number asked for: at least one if any match, even for none. */
  function Removals(matching: nat, numberToRemove: int): nat {
    if matching == 0 then 0 else if numberToRemove <= 1 then 1 else if matching < numberToRemove then matching else numberToRemove
  }

  /** What deduplication leaves, in some order of the tags. */
  ghost predicate IsDeduped(alphaBeta: Pattern, before: Tags, after: Tags) {
    exists order :: RangesOver(before, order) && after == Run(alphaBeta, before, order, |order|).tags
  }

  /** The reasons for removal, with the names. */
  datatype Reasons = Reasons(empty: seq<string>, excluded: seq<string>, deduped: seq<string>, alphaBeta: seq<string>, iaas: seq<string>)

  function AllRemoved(r: Reasons): seq<string> { r.empty + r.excluded + r.deduped + r.alphaBeta + r.iaas }

  class TagCleaner {
    const alphaBetaRegex: Pattern
    const iaasNameRegex: Pattern
    const excludeTagList: seq<string>
    var tags: Tags

    constructor (alphaBetaRegex: Pattern, iaasNameRegex: Pattern, tags: Tags)
      ensures this.alphaBetaRegex == alphaBetaRegex && this.iaasNameRegex == iaasNameRegex && this.tags == tags
      ensures excludeTagList == ["namespace_id", "host_id", "pod_id", "hostname"]
    {
      this.alphaBetaRegex, this.iaasNameRegex, this.tags := alphaBetaRegex, iaasNameRegex, tags;
      excludeTagList := ["namespace_id", "host_id", "pod_id", "hostname"];
    }

    method RemoveEmptyTags() returns (removed: seq<string>)
      modifies this
      ensures Parts(old(tags), tags, removed) && forall k :: k in removed <==> k in old(tags) && IsAnEmptyTag(old(tags)[k])
    {
      removed := [];
      var unvisited := tags.Keys;
      while unvisited != {}
        invariant unvisited <= tags.Keys && Parts(old(tags), tags, removed)
        invariant forall k :: k in removed <==> k in old(tags) && k !in unvisited && IsAnEmptyTag(old(tags)[k])
        decreases unvisited
      {
        var name :| name in unvisited;
        if IsAnEmptyTag(tags[name]) {
          OneMore(old(tags), tags, removed, name);
          removed := removed + [name];
          tags := tags - {name};
        }
        unvisited := unvisited - {name};
      }
    }

    method ExcludeTags() returns (removed: seq<string>)
      modifies this
      ensures Parts(old(tags), tags, removed) && forall k :: k in removed <==> k in old(tags) && k in excludeTagList
    {
      removed := [];
      var unvisited := tags.Keys;
      while unvisited != {}
        invariant unvisited <= tags.Keys && Parts(old(tags), tags, removed)
        invariant forall k :: k in removed <==> k in old(tags) && k !in unvisited && k in excludeTagList
        decreases unvisited
      {
        var name :| name in unvisited;
        if name in excludeTagList {
          OneMore(old(tags), tags, removed, name);
          removed := removed + [name];
          tags := tags - {name};
        }
        unvisited := unvisited - {name};
      }
    }

    /** The tags are ranged over in any order while some are deleted. */
    method DedupeTagValues() returns (removed: seq<string>, ghost order: seq<string>)
      modifies this
      ensures RangesOver(old(tags), order)
      ensures var st := Run(alphaBetaRegex, old(tags), order, |order|); tags == st.tags && removed == st.removed
    {
      removed, order := [], [];
      var invertedTags: map<string, string> := map[];
      var all := tags;
      var unvisited := all.Keys;
      while unvisited != {}
        invariant Ranging(all, order, unvisited)
        invariant Run(alphaBetaRegex, all, order, |order|) == Deduping(tags, invertedTags, removed)
        decreases unvisited
      {
        var name :| name in unvisited;
        var value := all[name];
        RunNext(alphaBetaRegex, all, order, name);
        if Long(value) {
          if value !in invertedTags || |invertedTags[value]| == 0 {
            invertedTags := invertedTags[value := name];
          } else if IsWinningName(alphaBetaRegex, name, invertedTags[value]) {
            removed := removed + [invertedTags[value]];
            tags := tags - {invertedTags[value]};
            invertedTags := invertedTags[value := name];
          } else {
            removed := removed + [name];
            tags := tags - {name};
          }
        }
        RangingNext(all, order, unvisited, name);
        order := order + [name];
        unvisited := unvisited - {name};
      }
    }

    /**
     * cleanTags. Included is what is left without empty and excluded tags, deduped what is left after the
     * values have been deduplicated, trimmed what is left after the alpha and beta tags have gone.
     */
    method CleanTags(maxCapacity: int) returns (r: Reasons, ghost included: Tags, ghost deduped: Tags, ghost trimmed: Tags)
      modifies this
      ensures included == map k | k in old(tags) && old(tags)[k] !in {"", "/", "-"} && k !in excludeTagList :: old(tags)[k]
      ensures forall k :: k in r.empty <==> k in old(tags) && old(tags)[k] in {"", "/", "-"}
      ensures Parts(included, deduped, r.deduped) && Parts(deduped, trimmed, r.alphaBeta) && Parts(trimmed, tags, r.iaas)
      ensures TheLeast(alphaBetaRegex, r.alphaBeta, trimmed) && TheLeast(iaasNameRegex, r.iaas, tags)
      ensures if |included| <= maxCapacity then deduped == included else IsDeduped(alphaBetaRegex, included, deduped)
      ensures Parts(old(tags), tags, AllRemoved(r))
      ensures |deduped| <= maxCapacity ==> tags == deduped == trimmed
      ensures |deduped| > maxCapacity ==>
        && |trimmed| == |deduped| - Removals(|Matches(deduped, alphaBetaRegex)|, |deduped| - maxCapacity)
        && |tags| == SizeLeft(|deduped|, |Matches(deduped, alphaBetaRegex)|, |Matches(trimmed, iaasNameRegex)|, maxCapacity)
      ensures |deduped| > maxCapacity ==>
        var a, i := |Matches(deduped, alphaBetaRegex)|, |Matches(trimmed, iaasNameRegex)|;
        && (|tags| <= maxCapacity <==> a + i >= |deduped| - maxCapacity)
        && |tags| >= maxCapacity - 1
        && (|tags| == maxCapacity - 1 <==> a >= |deduped| - maxCapacity && i > 0)
    {
      ghost var before := tags;
      var empty, excluded := RemoveUnwanted();
      included := tags;
      var removed := [];
      PartsOfItself(included);
      if |tags| > maxCapacity {
        ghost var order;
        removed, order := DedupeTagValues();
        DedupeParts(alphaBetaRegex, included, order);
      }
      deduped, trimmed := tags, tags;
      var alphaBeta, iaas := [], [];
      PartsOfItself(deduped);
      if |tags| > maxCapacity {
        alphaBeta, iaas, trimmed := Trim(maxCapacity);
      }
      r := Reasons(empty, excluded, removed, alphaBeta, iaas);
      AllParts(before, included, deduped, tags, r);
      if |deduped| > maxCapacity {
        TrimmedToCapacity(|deduped|, |Matches(deduped, alphaBetaRegex)|, |Matches(trimmed, iaasNameRegex)|, maxCapacity);
      }
    }

    method RemoveUnwanted() returns (empty: seq<string>, excluded: seq<string>)
      modifies this
      ensures Parts(old(tags), tags, empty + excluded)
      ensures tags == map k | k in old(tags) && old(tags)[k] !in {"", "/", "-"} && k !in excludeTagList :: old(tags)[k]
      ensures forall k :: k in empty <==> k in old(tags) && old(tags)[k] in {"", "/", "-"}
    {
      ghost var before := tags;
      empty := RemoveEmptyTags();
      ghost var full := tags;
      excluded := ExcludeTags();
      PartsTogether(before, full, tags, empty, excluded);
      SameTags(tags, map k | k in before && before[k] !in {"", "/", "-"} && k !in excludeTagList :: before[k]);
    }

    method Trim(maxCapacity: int) returns (alphaBeta: seq<string>, iaas: seq<string>, ghost trimmed: Tags)
      requires |tags| > maxCapacity
      modifies this
      ensures Parts(old(tags), tags, alphaBeta + iaas)
      ensures Parts(old(tags), trimmed, alphaBeta) && Parts(trimmed, tags, iaas)
      ensures TheLeast(alphaBetaRegex, alphaBeta, trimmed) && TheLeast(iaasNameRegex, iaas, tags)
      ensures |trimmed| == |old(tags)| - Removals(|Matches(old(tags), alphaBetaRegex)|, |old(tags)| - maxCapacity)
      ensures |tags| == SizeLeft(|old(tags)|, |Matches(old(tags), alphaBetaRegex)|, |Matches(trimmed, iaasNameRegex)|, maxCapacity)
    {
      ghost var before := tags;
      alphaBeta := RemoveTagsLabelsMatching(alphaBetaRegex, |tags| - maxCapacity);
      PartsSize(before, tags, alphaBeta);
      trimmed := tags;
      iaas := RemoveTagsLabelsMatching(iaasNameRegex, |tags| - maxCapacity);
      PartsSize(trimmed, tags, iaas);
      PartsTogether(before, trimmed, tags, alphaBeta, iaas);
    }

    /** The first names in their order that match, up to the number; the number is only looked at after a removal. */
    method RemoveTagsLabelsMatching(pattern: Pattern, numberToRemove: int) returns (removed: seq<string>)
      modifies this
      ensures Parts(old(tags), tags, removed) && |removed| == Removals(|Matches(old(tags), pattern)|, numberToRemove)
      ensures TheLeast(pattern, removed, tags)
    {
      removed := [];
      var tagNames := SortedKeys(tags);
      var i := 0;
      while i < |tagNames|
        invariant MatchingGone(old(tags), tags, pattern, tagNames, i, removed)
        invariant |removed| == 0 || |removed| < numberToRemove
        decreases |tagNames| - i
      {
        var name := tagNames[i];
        NextName(old(tags), tags, pattern, tagNames, i, removed);
        if pattern(name) {
          removed := removed + [name];
          tags := tags - {name};
          if |removed| >= numberToRemove {
            RemovedMatching(old(tags), tags, pattern, tagNames, i + 1, removed);
            return;
          }
        }
        i := i + 1;
      }
      RemovedMatching(old(tags), tags, pattern, tagNames, i, removed);
    }
  }

  /** Of the first n names in their order, those that match are removed. */
  ghost predicate MatchingGone(all: Tags, tags: Tags, pattern: Pattern, names: seq<string>, n: nat, removed: seq<string>) {
    && n <= |names| && Parts(all, tags, removed)
    && forall k :: k in removed <==> k in names[..n] && pattern(k)
  }

  lemma NextName(all: Tags, tags: Tags, pattern: Pattern, names: seq<string>, n: nat, removed: seq<string>)
    requires MatchingGone(all, tags, pattern, names, n, removed) && n < |names| && Once(names) && names[n] in all
    ensures pattern(names[n]) ==> MatchingGone(all, tags - {names[n]}, pattern, names, n + 1, removed + [names[n]])
    ensures !pattern(names[n]) ==> MatchingGone(all, tags, pattern, names, n + 1, removed)
  {
    var name := names[n];
    assert names[..n + 1] == names[..n] + [name] && name !in names[..n];
    assert name in tags;
    if pattern(name) {
      OneMore(all, tags, removed, name);
    }
  }

  /** How many of d tags are left over a capacity, when a and i of them match the two patterns. */
  function SizeLeft(d: nat, alphaBeta: nat, iaas: nat, maxCapacity: int): int {
    if d <= maxCapacity then d
    else
      var trimmed := d - Removals(alphaBeta, d - maxCapacity);
      trimmed - Removals(iaas, trimmed - maxCapacity)
  }

  /**
   * Trimming ends within the capacity if and only if enough tags match. It never ends more than one
   * below, and one below just when alpha and beta tags are enough and there are IaaS tags besides: being
   * asked to remove none, the second step still removes one.
   */
  lemma TrimmedToCapacity(d: nat, alphaBeta: nat, iaas: nat, maxCapacity: int)
    requires d > maxCapacity
    ensures var left := SizeLeft(d, alphaBeta, iaas, maxCapacity);
      && (left <= maxCapacity <==> alphaBeta + iaas >= d - maxCapacity)
      && left >= maxCapacity - 1
      && (left == maxCapacity - 1 <==> alphaBeta >= d - maxCapacity && iaas > 0)
  {
  }

  lemma PartsOfItself(tags: Tags)
    ensures Parts(tags, tags, [])
  {
  }

  lemma AllParts(before: Tags, included: Tags, deduped: Tags, after: Tags, r: Reasons)
    requires Parts(before, included, r.empty + r.excluded) && Parts(included, deduped, r.deduped) && Parts(deduped, after, r.alphaBeta + r.iaas)
    ensures Parts(before, after, AllRemoved(r))
  {
    PartsTogether(before, included, deduped, r.empty + r.excluded, r.deduped);
    PartsTogether(before, deduped, after, r.empty + r.excluded + r.deduped, r.alphaBeta + r.iaas);
    assert r.empty + r.excluded + r.deduped + (r.alphaBeta + r.iaas) == AllRemoved(r);
  }

  lemma PartsSize(before: Tags, after: Tags, removed: seq<string>)
    requires Parts(before, after, removed)
    ensures |after| == |before| - |removed|
  {
    OnceSize(removed);
    assert before.Keys == after.Keys + (set k | k in removed);
  }

  /** Each leader is a name already met that has the value and has not been removed. */
  ghost predicate LeadersThere(tags: Tags, order: seq<string>, n: nat, st: Deduping)
    requires n <= |order|
  {
    && (forall value :: value in st.winners ==> LeaderThere(tags, order, n, st, value))
    && (forall k :: k in st.removed ==> k in order[..n])
  }

  predicate LeaderThere(tags: Tags, order: seq<string>, n: nat, st: Deduping, value: string)
    requires n <= |order| && value in st.winners
  {
    var w := st.winners[value];
    w in order[..n] && w in tags && tags[w] == value && w in st.tags
  }

  ghost predicate PartsSoFar(tags: Tags, order: seq<string>, n: nat, st: Deduping)
    requires n <= |order|
  {
    Parts(tags, st.tags, st.removed) && LeadersThere(tags, order, n, st)
  }

  lemma VisitParts(alphaBeta: Pattern, tags: Tags, order: seq<string>, n: nat, st: Deduping, st1: Deduping)
    requires RangesOver(tags, order) && 0 < n <= |order| && PartsSoFar(tags, order, n - 1, st)
    requires st1 == Visit(alphaBeta, st, order[n - 1], tags[order[n - 1]])
    ensures PartsSoFar(tags, order, n, st1)
  {
    var name, value := order[n - 1], tags[order[n - 1]];
    NotYetMet(tags, order, n - 1);
    assert order[..n] == order[..n - 1] + [name];
    if Long(value) && value in st.winners && |st.winners[value]| != 0 {
      assert LeaderThere(tags, order, n - 1, st, value);
      OneMore(tags, st.tags, st.removed, if IsWinningName(alphaBeta, name, st.winners[value]) then st.winners[value] else name);
    }
    forall v | v in st1.winners ensures LeaderThere(tags, order, n, st1, v) {
      assert v in st.winners ==> LeaderThere(tags, order, n - 1, st, v);
    }
  }

  lemma {:induction false} RunParts(alphaBeta: Pattern, tags: Tags, order: seq<string>, n: nat)
    requires RangesOver(tags, order) && n <= |order|
    ensures PartsSoFar(tags, order, n, Run(alphaBeta, tags, order, n))
  {
    if n == 0 {
      PartsOfItself(tags);
    } else {
      RunParts(alphaBeta, tags, order, n - 1);
      VisitParts(alphaBeta, tags, order, n, Run(alphaBeta, tags, order, n - 1), Run(alphaBeta, tags, order, n));
    }
  }

  lemma {:induction false} DedupeParts(alphaBeta: Pattern, tags: Tags, order: seq<string>)
    requires RangesOver(tags, order)
    ensures var st := Run(alphaBeta, tags, order, |order|); Parts(tags, st.tags, st.removed)
  {
    RunParts(alphaBeta, tags, order, |order|);
  }

  ghost predicate Ranging(all: Tags, order: seq<string>, unvisited: set<string>) {
    Visited(order, all.Keys, unvisited) && forall i :: 0 <= i < |order| ==> order[i] in all
  }

  lemma RangingNext(all: Tags, order: seq<string>, unvisited: set<string>, name: string)
    requires Ranging(all, order, unvisited) && name in unvisited
    ensures Ranging(all, order + [name], unvisited - {name})
  {
  }

  lemma {:induction false} RunNext(alphaBeta: Pattern, all: Tags, order: seq<string>, name: string)
    requires (forall i :: 0 <= i < |order| ==> order[i] in all) && name in all
    ensures Run(alphaBeta, all, order + [name], |order + [name]|) == Visit(alphaBeta, Run(alphaBeta, all, order, |order|), name, all[name])
  {
    RunPrefix(alphaBeta, all, order, name, |order|);
  }

  lemma {:induction false} RunPrefix(alphaBeta: Pattern, all: Tags, order: seq<string>, name: string, n: nat)
    requires (forall i :: 0 <= i < |order| ==> order[i] in all) && name in all && n <= |order|
    ensures Run(alphaBeta, all, order + [name], n) == Run(alphaBeta, all, order, n)
  {
    if n > 0 {
      RunPrefix(alphaBeta, all, order, name, n - 1);
    }
  }

  /** The names removed are those of the first n that match: all that match, or the least of them. */
  lemma RemovedMatching(all: Tags, tags: Tags, pattern: Pattern, names: seq<string>, n: nat, removed: seq<string>)
    requires MatchingGone(all, tags, pattern, names, n, removed) && Sorted(names) && Once(names) && (forall k :: k in names <==> k in all)
    ensures |removed| <= |Matches(all, pattern)| && (n == |names| ==> |removed| == |Matches(all, pattern)|)
    ensures forall k, j :: k in removed && j in tags && pattern(j) ==> AtMost(k, j)
  {
    var some := set k | k in removed;
    OnceSize(removed);
    assert some <= Matches(all, pattern);
    Smaller(some, Matches(all, pattern));
    if n == |names| {
      assert names[..n] == names;
      assert some == Matches(all, pattern);
    }
    forall k, j | k in removed && j in tags && pattern(j) ensures AtMost(k, j) {
      var a :| 0 <= a < n && names[a] == k;
      var b :| 0 <= b < |names| && names[b] == j;
      assert b >= n;
    }
  }

  lemma Smaller(a: set<string>, b: set<string>)
    requires a <= b
    ensures |a| <= |b|
  {
    if a != {} {
      var x :| x in a;
      Smaller(a - {x}, b - {x});
    }
  }

  lemma {:induction false} OnceSize(s: seq<string>)
    requires Once(s)
    ensures |(set k | k in s)| == |s|
  {
    if s != [] {
      var front := s[..|s| - 1];
      OnceSize(front);
      assert s == front + [s[|s| - 1]];
      assert (set k | k in s) == (set k | k in front) + {s[|s| - 1]};
    }
  }
}
