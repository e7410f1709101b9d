/** Cutting tags down to a capacity, plugins/sinks/wavefront/utils.go. */
module TagCleaning {
  import opened MapOrders
  import opened StringOrder

  type Tags = map<string, string>

  /** Whether a name matches a pattern; the patterns themselves are not part of this model. */
  type Pattern = string -> bool

  const MIN_DEDUPE_TAG_VALUE_LEN := 5

  predicate Long(value: string) { |value| >= MIN_DEDUPE_TAG_VALUE_LEN }

  /** Shorter, or of the same length and first in the order of strings. */
  predicate Less(a: string, b: string) {
    |a| < |b| || (|a| == |b| && a != b && AtMost(a, b))
  }

  lemma LessTotal(a: string, b: string)
    ensures a == b || Less(a, b) || Less(b, a)
    ensures !(Less(a, b) && Less(b, a)) && !Less(a, a)
  {
    Total(a, b);
    if AtMost(a, b) && AtMost(b, a) {
      Antisymmetric(a, b);
    }
  }

  /** It is the shorter of two names, or of names that are equally long the first in the alphabet. */
  ghost predicate ShorterOrEarlier(a: string, b: string) {
    |a| < |b| || (|a| == |b| && Earlier(a, b))
  }

  lemma LessIs(a: string, b: string)
    ensures Less(a, b) <==> ShorterOrEarlier(a, b)
  {
    AtMostIs(a, b);
    assert |a| == |b| && a <= b ==> a == b;
  }

  lemma LessTransitive(a: string, b: string, c: string)
    requires Less(a, b) && Less(b, c)
    ensures Less(a, c)
  {
    if |a| == |b| == |c| {
      Transitive(a, b, c);
      if a == c {
        Antisymmetric(a, b);
      }
    }
  }

  /** isWinningName. */
  predicate IsWinningName(alphaBeta: Pattern, name: string, prevWinner: string) {
    !alphaBeta(name) && (alphaBeta(prevWinner) || Less(name, prevWinner))
  }

  // ---- Removing duplicate values ------------------------------------------------------------------------

  /** The tags left, the name that leads for each value, and the names removed. */
  datatype Deduping = Deduping(tags: Tags, winners: map<string, string>, removed: seq<string>)

  function Visit(alphaBeta: Pattern, st: Deduping, name: string, value: string): Deduping {
    if !Long(value) then st
    else if value !in st.winners || |st.winners[value]| == 0 then st.(winners := st.winners[value := name])
    else if IsWinningName(alphaBeta, name, st.winners[value]) then
      Deduping(st.tags - {st.winners[value]}, st.winners[value := name], st.removed + [st.winners[value]])
    else Deduping(st.tags - {name}, st.winners, st.removed + [name])
  }

  /** The state after the first n names of an order. */
  function Run(alphaBeta: Pattern, tags: Tags, order: seq<string>, n: nat): Deduping
    requires n <= |order| && forall i :: 0 <= i < |order| ==> order[i] in tags
  {
    if n == 0 then Deduping(tags, map[], []) else Visit(alphaBeta, Run(alphaBeta, tags, order, n - 1), order[n - 1], tags[order[n - 1]])
  }

  /** The orders in which the tags may be ranged over; only names already reached are deleted on the way. */
  ghost predicate RangesOver(tags: Tags, order: seq<string>) {
    Ranges(tags.Keys, order) && forall i :: 0 <= i < |order| ==> order[i] in tags
  }

  /** No name is visited after an empty one that has the same long value. */
  predicate EmptyLast(tags: Tags, order: seq<string>, n: nat)
    requires n <= |order| && forall i :: 0 <= i < |order| ==> order[i] in tags
  {
    forall i, j :: 0 <= i < j < n && order[i] == "" && Long(tags[order[i]]) ==> tags[order[j]] != tags[order[i]]
  }

  /** The name at i is one of those with this value. */
  predicate Candidate(tags: Tags, order: seq<string>, value: string, i: int) {
    0 <= i < |order| && order[i] in tags && tags[order[i]] == value
  }

  /** Of the first n names, the one at p is the best for its value. */
  ghost predicate Best(alphaBeta: Pattern, tags: Tags, order: seq<string>, n: nat, value: string, p: int) {
    && p < n && Candidate(tags, order, value, p)
    && (forall i :: 0 <= i < n && Candidate(tags, order, value, i) ==> Beats(alphaBeta, order, p, i))
  }

  /** No name but alpha or beta loses to an alpha or beta one; among the others the least wins; else the first does. */
  predicate Beats(alphaBeta: Pattern, order: seq<string>, p: int, i: int)
    requires 0 <= p < |order| && 0 <= i < |order|
  {
    if alphaBeta(order[i]) then alphaBeta(order[p]) ==> p <= i
    else !alphaBeta(order[p]) && (p == i || Less(order[p], order[i]))
  }

  /** Each value met so far has its best name as leader. */
  ghost predicate Led(alphaBeta: Pattern, tags: Tags, order: seq<string>, n: nat, winners: map<string, string>, value: string) {
    if Long(value) && exists i :: i < n && Candidate(tags, order, value, i)
    then value in winners && exists p :: Best(alphaBeta, tags, order, n, value, p) && winners[value] == order[p]
    else value !in winners
  }

  /** A name is gone when it was met and does not lead its long value. */
  ghost predicate Kept(tags: Tags, order: seq<string>, n: nat, st: Deduping, k: string)
    requires n <= |order|
  {
    && (k in st.tags <==> k in tags && (k in order[..n] && Long(tags[k]) ==> tags[k] in st.winners && st.winners[tags[k]] == k))
    && (k in st.tags ==> st.tags[k] == tags[k])
    && (k in st.removed <==> k in tags && k !in st.tags)
  }

  ghost predicate Deduped(alphaBeta: Pattern, tags: Tags, order: seq<string>, n: nat, st: Deduping)
    requires n <= |order|
  {
    && (forall value :: Led(alphaBeta, tags, order, n, st.winners, value))
    && (forall k :: Kept(tags, order, n, st, k))
    && Once(st.removed)
  }

  lemma FirstLeads(alphaBeta: Pattern, tags: Tags, order: seq<string>, n: nat, value: string)
    requires RangesOver(tags, order) && n < |order| && tags[order[n]] == value
    requires forall i :: i < n ==> !Candidate(tags, order, value, i)
    ensures Best(alphaBeta, tags, order, n + 1, value, n)
  {
  }

  /** A new name takes the lead exactly when it wins over the leader. */
  lemma BestNext(alphaBeta: Pattern, tags: Tags, order: seq<string>, n: nat, value: string, p: int)
    requires RangesOver(tags, order) && n < |order| && tags[order[n]] == value && Best(alphaBeta, tags, order, n, value, p)
    ensures Best(alphaBeta, tags, order, n + 1, value, if IsWinningName(alphaBeta, order[n], order[p]) then n else p)
  {
    var q := if IsWinningName(alphaBeta, order[n], order[p]) then n else p;
    LessTotal(order[n], order[p]);
    forall i | 0 <= i < n + 1 && Candidate(tags, order, value, i) ensures Beats(alphaBeta, order, q, i) {
      if i < n {
        assert Beats(alphaBeta, order, p, i);
        if q == n && !alphaBeta(order[i]) && i != p {
          LessTransitive(order[n], order[p], order[i]);
        }
      }
    }
  }

  /** Names of other values are none of the leader's business. */
  lemma BestOther(alphaBeta: Pattern, tags: Tags, order: seq<string>, n: nat, value: string)
    requires n < |order| && order[n] in tags && tags[order[n]] != value
    ensures forall p :: Best(alphaBeta, tags, order, n, value, p) ==> Best(alphaBeta, tags, order, n + 1, value, p)
    ensures (exists i :: i < n + 1 && Candidate(tags, order, value, i)) <==> exists i :: i < n && Candidate(tags, order, value, i)
  {
  }

  lemma LedNext(alphaBeta: Pattern, tags: Tags, order: seq<string>, n: nat, st: Deduping, value: string)
    requires RangesOver(tags, order) && n < |order| && EmptyLast(tags, order, n + 1) && Led(alphaBeta, tags, order, n, st.winners, value)
    ensures Led(alphaBeta, tags, order, n + 1, Visit(alphaBeta, st, order[n], tags[order[n]]).winners, value)
  {
    var name := order[n];
    if tags[name] != value {
      BestOther(alphaBeta, tags, order, n, value);
    } else if Long(value) {
      assert Candidate(tags, order, value, n);
      if value in st.winners {
        var p :| Best(alphaBeta, tags, order, n, value, p) && st.winners[value] == order[p];
        assert order[p] != "";
        BestNext(alphaBeta, tags, order, n, value, p);
      } else {
        FirstLeads(alphaBeta, tags, order, n, value);
      }
    }
  }

  /** The leader of a value is a name already met that has the value, and is still there. */
  lemma LeaderMet(alphaBeta: Pattern, tags: Tags, order: seq<string>, n: nat, st: Deduping, value: string)
    requires RangesOver(tags, order) && n < |order| && EmptyLast(tags, order, n + 1) && Led(alphaBeta, tags, order, n, st.winners, value) && value in st.winners
    requires forall k :: Kept(tags, order, n, st, k)
    ensures var w := st.winners[value];
      w in order[..n] && w in tags && tags[w] == value && Long(value) && w in st.tags && w != order[n] && w !in st.removed
      && (tags[order[n]] == value ==> w != "")
  {
    var p :| Best(alphaBeta, tags, order, n, value, p) && st.winners[value] == order[p];
    assert order[p] in order[..n];
    assert Kept(tags, order, n, st, order[p]);
  }

  lemma KeptNext(alphaBeta: Pattern, tags: Tags, order: seq<string>, n: nat, st: Deduping, k: string)
    requires RangesOver(tags, order) && n < |order| && EmptyLast(tags, order, n + 1) && Deduped(alphaBeta, tags, order, n, st)
    ensures Kept(tags, order, n + 1, Visit(alphaBeta, st, order[n], tags[order[n]]), k)
  {
    var name, value := order[n], tags[order[n]];
    assert Kept(tags, order, n, st, k) && Kept(tags, order, n, st, name);
    assert order[..n + 1] == order[..n] + [name];
    NotYetMet(tags, order, n);
    assert Led(alphaBeta, tags, order, n, st.winners, value);
    if Long(value) && value in st.winners {
      LeaderMet(alphaBeta, tags, order, n, st, value);
      assert Kept(tags, order, n, st, st.winners[value]);
    }
  }

  lemma NotYetMet(tags: Tags, order: seq<string>, n: nat)
    requires RangesOver(tags, order) && n < |order|
    ensures order[n] !in order[..n]
  {
  }

  lemma OnceNext(alphaBeta: Pattern, tags: Tags, order: seq<string>, n: nat, st: Deduping)
    requires RangesOver(tags, order) && n < |order| && EmptyLast(tags, order, n + 1) && Deduped(alphaBeta, tags, order, n, st)
    ensures Once(Visit(alphaBeta, st, order[n], tags[order[n]]).removed)
  {
    var name, value := order[n], tags[order[n]];
    assert Kept(tags, order, n, st, name);
    NotYetMet(tags, order, n);
    assert Led(alphaBeta, tags, order, n, st.winners, value);
    if Long(value) && value in st.winners {
      LeaderMet(alphaBeta, tags, order, n, st, value);
    }
  }

  lemma {:induction false} RunDedupes(alphaBeta: Pattern, tags: Tags, order: seq<string>, n: nat)
    requires RangesOver(tags, order) && n <= |order| && EmptyLast(tags, order, n)
    ensures Deduped(alphaBeta, tags, order, n, Run(alphaBeta, tags, order, n))
  {
    if n > 0 {
      RunDedupes(alphaBeta, tags, order, n - 1);
      var st := Run(alphaBeta, tags, order, n - 1);
      OnceNext(alphaBeta, tags, order, n - 1, st);
      forall value ensures Led(alphaBeta, tags, order, n, Run(alphaBeta, tags, order, n).winners, value) {
        LedNext(alphaBeta, tags, order, n - 1, st, value);
      }
      forall k ensures Kept(tags, order, n, Run(alphaBeta, tags, order, n), k) {
        KeptNext(alphaBeta, tags, order, n - 1, st, k);
      }
    }
  }

  // ---- What is left ---------------------------------------------------------------------------------------

  /** The name has the value, is neither alpha nor beta, and is the shortest such name, or the first of these. */
  ghost predicate Minimum(alphaBeta: Pattern, tags: Tags, value: string, name: string) {
    && name in tags && tags[name] == value && !alphaBeta(name)
    && forall k :: k in tags && tags[k] == value && !alphaBeta(k) ==> k == name || ShorterOrEarlier(name, k)
  }

  /** The name has the value and comes first of those that do. */
  ghost predicate First(tags: Tags, order: seq<string>, value: string, name: string) {
    exists p :: Candidate(tags, order, value, p) && order[p] == name && forall i :: Candidate(tags, order, value, i) ==> p <= i
  }

  ghost predicate SomePlain(alphaBeta: Pattern, tags: Tags, value: string) {
    exists k :: k in tags && tags[k] == value && !alphaBeta(k)
  }

  /**
   * Of the names with one value of five letters or more just one is left, and shorter values are left
   * alone. It is the shortest of those that are neither alpha nor beta, whatever the order, or the first
   * when all are alpha or beta.
   */
  lemma {:induction false} OneNamePerValue(alphaBeta: Pattern, tags: Tags, order: seq<string>, k: string)
    requires RangesOver(tags, order) && EmptyLast(tags, order, |order|) && k in tags
    ensures var left := Run(alphaBeta, tags, order, |order|).tags;
      if |tags[k]| < 5 then k in left
      else if SomePlain(alphaBeta, tags, tags[k]) then k in left <==> Minimum(alphaBeta, tags, tags[k], k)
      else k in left <==> First(tags, order, tags[k], k)
    ensures var left := Run(alphaBeta, tags, order, |order|).tags;
      k in left ==> left[k] == tags[k]
  {
    var st := Run(alphaBeta, tags, order, |order|);
    RunDedupes(alphaBeta, tags, order, |order|);
    assert Kept(tags, order, |order|, st, k);
    assert order[..|order|] == order;
    var value := tags[k];
    if Long(value) {
      var j :| 0 <= j < |order| && order[j] == k;
      assert Candidate(tags, order, value, j);
      assert Led(alphaBeta, tags, order, |order|, st.winners, value);
      var p :| Best(alphaBeta, tags, order, |order|, value, p) && st.winners[value] == order[p];
      BestIsMinimumOrFirst(alphaBeta, tags, order, value, p);
      if SomePlain(alphaBeta, tags, value) {
        if Minimum(alphaBeta, tags, value, k) {
          LessTotal(k, order[p]);
          LessIs(k, order[p]);
          LessIs(order[p], k);
        }
      }
    }
  }

  lemma BestIsMinimumOrFirst(alphaBeta: Pattern, tags: Tags, order: seq<string>, value: string, p: int)
    requires RangesOver(tags, order) && Best(alphaBeta, tags, order, |order|, value, p)
    ensures if SomePlain(alphaBeta, tags, value) then Minimum(alphaBeta, tags, value, order[p]) else First(tags, order, value, order[p])
  {
    if SomePlain(alphaBeta, tags, value) {
      forall k | k in tags && tags[k] == value && !alphaBeta(k) ensures !alphaBeta(order[p]) && (k == order[p] || ShorterOrEarlier(order[p], k)) {
        LessIs(order[p], k);
        var i :| 0 <= i < |order| && order[i] == k;
        assert Candidate(tags, order, value, i);
        assert Beats(alphaBeta, order, p, i);
      }
    } else {
      assert alphaBeta(order[p]);
      forall i | Candidate(tags, order, value, i) ensures p <= i {
        assert Beats(alphaBeta, order, p, i);
      }
    }
  }

  lemma SameTags(m: Tags, m1: Tags)
    requires forall k :: (k in m <==> k in m1) && (k in m ==> m[k] == m1[k])
    ensures m == m1
  {
  }

  lemma {:induction false} LeftAreTags(alphaBeta: Pattern, tags: Tags, order: seq<string>)
    requires RangesOver(tags, order) && EmptyLast(tags, order, |order|)
    ensures forall k :: k in Run(alphaBeta, tags, order, |order|).tags ==> k in tags
  {
    RunDedupes(alphaBeta, tags, order, |order|);
    forall k | k in Run(alphaBeta, tags, order, |order|).tags ensures k in tags {
      assert Kept(tags, order, |order|, Run(alphaBeta, tags, order, |order|), k);
    }
  }

  // ---- Empty names ------------------------------------------------------------------------------------------

  /** Of the names with a value, one alone is left. */
  ghost predicate OneLeft(tags: Tags, left: Tags, value: string) {
    exists k :: Stays(tags, left, value, k) && forall j :: Stays(tags, left, value, j) ==> j == k
  }

  predicate Stays(tags: Tags, left: Tags, value: string, k: string) { k in left && k in tags && tags[k] == value }

  ghost predicate OneLeftEach(tags: Tags, left: Tags) {
    forall k :: k in tags && Long(tags[k]) ==> OneLeft(tags, left, tags[k])
  }

  /** An empty name shares no long value with another name. */
  predicate EmptyIsAlone(tags: Tags) {
    "" in tags && Long(tags[""]) ==> forall k :: k in tags && tags[k] == tags[""] ==> k == ""
  }

  lemma {:induction false} OneIsLeft(alphaBeta: Pattern, tags: Tags, order: seq<string>)
    requires RangesOver(tags, order) && EmptyLast(tags, order, |order|)
    ensures OneLeftEach(tags, Run(alphaBeta, tags, order, |order|).tags)
  {
    var st := Run(alphaBeta, tags, order, |order|);
    RunDedupes(alphaBeta, tags, order, |order|);
    assert order[..|order|] == order;
    forall k | k in tags && Long(tags[k]) ensures OneLeft(tags, st.tags, tags[k]) {
      LeaderIsLeft(alphaBeta, tags, order, st, k);
    }
  }

  lemma LeaderIsLeft(alphaBeta: Pattern, tags: Tags, order: seq<string>, st: Deduping, k: string)
    requires RangesOver(tags, order) && Deduped(alphaBeta, tags, order, |order|, st) && k in tags && Long(tags[k]) && order[..|order|] == order
    ensures OneLeft(tags, st.tags, tags[k])
  {
    var value := tags[k];
    var i :| 0 <= i < |order| && order[i] == k;
    assert Candidate(tags, order, value, i) && Led(alphaBeta, tags, order, |order|, st.winners, value);
    var p :| Best(alphaBeta, tags, order, |order|, value, p) && st.winners[value] == order[p];
    assert Kept(tags, order, |order|, st, order[p]);
    assert Stays(tags, st.tags, value, order[p]);
    forall j | Stays(tags, st.tags, value, j) ensures j == order[p] {
      assert Kept(tags, order, |order|, st, j);
    }
  }

  /** Each leader has its value, and what has not been visited is still there; this needs nothing of empty names. */
  ghost predicate Basic(tags: Tags, order: seq<string>, n: nat, st: Deduping)
    requires n <= |order|
  {
    && (forall v :: v in st.winners ==> st.winners[v] in tags && tags[st.winners[v]] == v && st.winners[v] in order[..n])
    && (forall k :: k in tags && k !in order[..n] ==> k in st.tags)
  }

  lemma {:induction false} RunBasic(alphaBeta: Pattern, tags: Tags, order: seq<string>, n: nat)
    requires RangesOver(tags, order) && n <= |order|
    ensures Basic(tags, order, n, Run(alphaBeta, tags, order, n))
  {
    if n > 0 {
      RunBasic(alphaBeta, tags, order, n - 1);
      assert order[..n] == order[..n - 1] + [order[n - 1]];
    }
  }

  /** An empty name that is visited first stays, beside the name that leads its value in the end. */
  ghost predicate EmptyStays(tags: Tags, order: seq<string>, n: nat, st: Deduping)
    requires n <= |order| && "" in tags
  {
    var v := tags[""];
    && "" in st.tags && v in st.winners && st.winners[v] in st.tags
    && ((exists k :: k in order[..n] && k in tags && k != "" && tags[k] == v) ==> st.winners[v] != "")
  }

  lemma {:induction false} RunWithEmpty(alphaBeta: Pattern, tags: Tags, order: seq<string>, n: nat)
    requires RangesOver(tags, order) && 0 < n <= |order| && order[0] == "" && Long(tags[""])
    ensures EmptyStays(tags, order, n, Run(alphaBeta, tags, order, n))
  {
    if n == 1 {
      assert Run(alphaBeta, tags, order, 0) == Deduping(tags, map[], []);
    } else {
      RunWithEmpty(alphaBeta, tags, order, n - 1);
      RunBasic(alphaBeta, tags, order, n - 1);
      EmptyStaysNext(alphaBeta, tags, order, n - 1, Run(alphaBeta, tags, order, n - 1));
    }
  }

  lemma EmptyStaysNext(alphaBeta: Pattern, tags: Tags, order: seq<string>, n: nat, st: Deduping)
    requires RangesOver(tags, order) && 0 < n < |order| && order[0] == "" && Long(tags[""])
    requires Basic(tags, order, n, st) && EmptyStays(tags, order, n, st)
    ensures EmptyStays(tags, order, n + 1, Visit(alphaBeta, st, order[n], tags[order[n]]))
  {
    NotYetMet(tags, order, n);
    assert order[..n + 1] == order[..n] + [order[n]];
    assert order[n] != "";
  }

  lemma {:induction false} EmptyFirst(alphaBeta: Pattern, tags: Tags, order: seq<string>, k: string)
    requires RangesOver(tags, order) && order != [] && order[0] == "" && Long(tags[""])
    requires k in tags && k != "" && tags[k] == tags[""]
    ensures !OneLeft(tags, Run(alphaBeta, tags, order, |order|).tags, tags[k])
  {
    var st := Run(alphaBeta, tags, order, |order|);
    RunWithEmpty(alphaBeta, tags, order, |order|);
    RunBasic(alphaBeta, tags, order, |order|);
    assert order[..|order|] == order;
    assert k in order[..|order|] && k in tags && k != "" && tags[k] == tags[""];
    assert Stays(tags, st.tags, tags[k], "") && Stays(tags, st.tags, tags[k], st.winners[tags[k]]);
  }

  /**
   * Every order leaves one name alone for each long value, if and only if an empty name shares none: the
   * program does not see an empty name as a leader, and keeps it beside the next one.
   */
  lemma {:induction false} OneNameInAnyOrder(alphaBeta: Pattern, tags: Tags)
    ensures EmptyIsAlone(tags) <==> forall order :: RangesOver(tags, order) ==> OneLeftEach(tags, Run(alphaBeta, tags, order, |order|).tags)
  {
    if EmptyIsAlone(tags) {
      forall order | RangesOver(tags, order) ensures OneLeftEach(tags, Run(alphaBeta, tags, order, |order|).tags) {
        AloneIsLast(tags, order);
        OneIsLeft(alphaBeta, tags, order);
      }
    } else {
      var k :| k in tags && tags[k] == tags[""] && k != "";
      var order := StartingWith(tags.Keys, "");
      EmptyFirst(alphaBeta, tags, order, k);
    }
  }

  lemma AloneIsLast(tags: Tags, order: seq<string>)
    requires RangesOver(tags, order) && EmptyIsAlone(tags)
    ensures EmptyLast(tags, order, |order|)
  {
  }

  // ---- The order of the map -------------------------------------------------------------------------------

  /** When all names of a long value are alpha or beta, the one that is left is the one visited first. */
  lemma {:induction false} OrderMatters(alphaBeta: Pattern, tags: Tags, order: seq<string>, k: string)
    requires RangesOver(tags, order) && EmptyLast(tags, order, |order|) && k in tags && Long(tags[k]) && !SomePlain(alphaBeta, tags, tags[k])
    requires order[0] == k
    ensures k in Run(alphaBeta, tags, order, |order|).tags
    ensures forall j :: j in tags && j != k && tags[j] == tags[k] ==> j !in Run(alphaBeta, tags, order, |order|).tags
  {
    OneNamePerValue(alphaBeta, tags, order, k);
    assert Candidate(tags, order, tags[k], 0);
    assert First(tags, order, tags[k], k);
    forall j | j in tags && j != k && tags[j] == tags[k] ensures j !in Run(alphaBeta, tags, order, |order|).tags {
      OneNamePerValue(alphaBeta, tags, order, j);
    }
  }

  /** A long value that several names share has one that is neither alpha nor beta. */
  ghost predicate SharedHavePlain(alphaBeta: Pattern, tags: Tags) {
    forall j, k :: j in tags && k in tags && j != k && tags[j] == tags[k] && Long(tags[k]) ==> SomePlain(alphaBeta, tags, tags[k])
  }

  ghost predicate SameInAnyOrder(alphaBeta: Pattern, tags: Tags) {
    forall order, order1 :: RangesOver(tags, order) && RangesOver(tags, order1)
      ==> Run(alphaBeta, tags, order, |order|).tags == Run(alphaBeta, tags, order1, |order1|).tags
  }

  /** All orders leave the same tags if and only if an empty name shares no long value, and no value is shared by alphas and betas only. */
  lemma OrderDoesNotMatter(alphaBeta: Pattern, tags: Tags)
    ensures SameInAnyOrder(alphaBeta, tags) <==> EmptyIsAlone(tags) && SharedHavePlain(alphaBeta, tags)
  {
    if !EmptyIsAlone(tags) {
      EmptyMatters(alphaBeta, tags);
    } else if SharedHavePlain(alphaBeta, tags) {
      forall order, order1 | RangesOver(tags, order) && RangesOver(tags, order1)
        ensures Run(alphaBeta, tags, order, |order|).tags == Run(alphaBeta, tags, order1, |order1|).tags
      {
        SameLeft(alphaBeta, tags, order, order1);
      }
    } else {
      SharedMatters(alphaBeta, tags);
    }
  }

  lemma SharedMatters(alphaBeta: Pattern, tags: Tags)
    requires EmptyIsAlone(tags) && !SharedHavePlain(alphaBeta, tags)
    ensures !SameInAnyOrder(alphaBeta, tags)
  {
    var j, k :| j in tags && k in tags && j != k && tags[j] == tags[k] && Long(tags[k]) && !SomePlain(alphaBeta, tags, tags[k]);
    var order := StartingWith(tags.Keys, j);
    var order1 := StartingWith(tags.Keys, k);
    AloneIsLast(tags, order);
    AloneIsLast(tags, order1);
    OrderMatters(alphaBeta, tags, order, j);
    OrderMatters(alphaBeta, tags, order1, k);
    assert k !in Run(alphaBeta, tags, order, |order|).tags && k in Run(alphaBeta, tags, order1, |order1|).tags;
  }

  /** An empty name that is visited first is left beside another; visited last, it is not. */
  lemma EmptyMatters(alphaBeta: Pattern, tags: Tags)
    requires !EmptyIsAlone(tags)
    ensures !SameInAnyOrder(alphaBeta, tags)
  {
    var k :| k in tags && tags[k] == tags[""] && k != "";
    var order := StartingWith(tags.Keys, "");
    EmptyFirst(alphaBeta, tags, order, k);
    var rest := SomeOrder(tags.Keys - {""});
    OneAfterTheOther(tags.Keys - {""}, rest, {""}, [""]);
    var order1 := rest + [""];
    assert tags.Keys - {""} + {""} == tags.Keys;
    assert EmptyLast(tags, order1, |order1|) by {
      forall i | 0 <= i < |order1| - 1 ensures order1[i] != "" {
        assert order1[i] in rest;
      }
    }
    OneIsLeft(alphaBeta, tags, order1);
    assert OneLeft(tags, Run(alphaBeta, tags, order1, |order1|).tags, tags[k]);
  }

  lemma {:induction false} SameLeft(alphaBeta: Pattern, tags: Tags, order: seq<string>, order1: seq<string>)
    requires RangesOver(tags, order) && RangesOver(tags, order1) && EmptyIsAlone(tags) && SharedHavePlain(alphaBeta, tags)
    ensures Run(alphaBeta, tags, order, |order|).tags == Run(alphaBeta, tags, order1, |order1|).tags
  {
    var left, left1 := Run(alphaBeta, tags, order, |order|).tags, Run(alphaBeta, tags, order1, |order1|).tags;
    AloneIsLast(tags, order);
    AloneIsLast(tags, order1);
    LeftAreTags(alphaBeta, tags, order);
    LeftAreTags(alphaBeta, tags, order1);
    forall k ensures (k in left <==> k in left1) && (k in left ==> left[k] == left1[k]) {
      if k in tags {
        OneNamePerValue(alphaBeta, tags, order, k);
        OneNamePerValue(alphaBeta, tags, order1, k);
        if !SomePlain(alphaBeta, tags, tags[k]) && Long(tags[k]) {
          OnlyIsFirst(tags, order, k);
          OnlyIsFirst(tags, order1, k);
        }
      }
    }
    SameTags(left, left1);
  }

  lemma OnlyIsFirst(tags: Tags, order: seq<string>, k: string)
    requires RangesOver(tags, order) && k in tags && forall j :: j in tags && tags[j] == tags[k] ==> j == k
    ensures First(tags, order, tags[k], k)
  {
    var i :| 0 <= i < |order| && order[i] == k;
    assert Candidate(tags, order, tags[k], i);
  }
}
