/**
 * Kubernetes labels written into one text, internal/util/label_copier.go, and read back from it as tags,
 * plugins/sources/summary/wavefront_converter.go.
 */
module LabelTexts {
  import opened MapOrders
  import opened StringOrder

  const LABELS := "labels"
  const PREFIX := "label."

  function Entry(k: string, v: string): string { k + ":" + v }

  /** The entries of a map. */
  ghost function Entries(m: map<string, string>): multiset<string>
    decreases |m|
  {
    if m == map[] then multiset{}
    else
      var k :| k in m;
      Entries(m - {k}) + multiset{Entry(k, m[k])}
  }

  lemma {:induction false} EntriesRemove(m: map<string, string>, k: string)
    requires k in m
    ensures Entries(m) == Entries(m - {k}) + multiset{Entry(k, m[k])}
    decreases |m|
  {
    var j :| j in m && Entries(m) == Entries(m - {j}) + multiset{Entry(j, m[j])};
    if j != k {
      EntriesRemove(m - {j}, k);
      assert m - {j} - {k} == m - {k} - {j};
      EntriesRemove(m - {k}, j);
      Swap(Entries(m - {j} - {k}), Entry(j, m[j]), Entry(k, m[k]));
    }
  }

  lemma Swap(b: multiset<string>, x: string, y: string)
    ensures b + multiset{y} + multiset{x} == b + multiset{x} + multiset{y}
  {
  }

  lemma EntryTaken(unvisited: map<string, string>, ignored: set<string>, k: string, texts: seq<string>)
    requires k in unvisited
    ensures multiset(texts) + Entries(unvisited - ignored)
            == multiset(if k in ignored then texts else texts + [Entry(k, unvisited[k])]) + Entries(unvisited - {k} - ignored)
  {
    if k in ignored {
      assert unvisited - ignored == unvisited - {k} - ignored;
    } else {
      EntriesRemove(unvisited - ignored, k);
      assert unvisited - ignored - {k} == unvisited - {k} - ignored;
      Regroup(multiset(texts), Entries(unvisited - {k} - ignored), Entry(k, unvisited[k]));
    }
  }

  lemma Regroup(a: multiset<string>, b: multiset<string>, x: string)
    ensures a + (b + multiset{x}) == a + multiset{x} + b
  {
  }

  function Join(s: seq<string>, separator: string): string {
    if |s| == 0 then "" else if |s| == 1 then s[0] else s[0] + separator + Join(s[1..], separator)
  }

  /** The text of some labels. */
  ghost function Encoded(m: map<string, string>, separator: string): string {
    Join(Listed(Entries(m)), separator)
  }

  class LabelCopier {
    const labelSeparator: string
    const storedLabels: map<string, string>
    const ignoredLabels: set<string>

    constructor (labelSeparator: string, storedLabels: map<string, string>, ignoredLabels: set<string>)
      ensures this.labelSeparator == labelSeparator && this.storedLabels == storedLabels && this.ignoredLabels == ignoredLabels
    {
      this.labelSeparator, this.storedLabels, this.ignoredLabels := labelSeparator, storedLabels, ignoredLabels;
    }

    /** The label at k has been visited, and is to be stored under l. */
    predicate Stores(labels: map<string, string>, visited: set<string>, k: string, l: string) {
      k in visited && k in labels && k in storedLabels && storedLabels[k] == l
    }

    /** What stands under l: the value of a label that is stored there, or what stood there before. */
    ghost predicate Stored(labels: map<string, string>, visited: set<string>, out: map<string, string>, out1: map<string, string>,
                           l: string) {
      if exists k :: Stores(labels, visited, k, l)
      then l in out1 && exists k :: Stores(labels, visited, k, l) && out1[l] == labels[k]
      else (l in out1 <==> l in out) && (l in out1 ==> out1[l] == out[l])
    }

    lemma OneStored(labels: map<string, string>, visited: set<string>, out: map<string, string>, out1: map<string, string>,
                    k: string, l: string)
      requires Stored(labels, visited, out, out1, l) && k in labels
      ensures Stored(labels, visited + {k}, out, if k in storedLabels then out1[storedLabels[k] := labels[k]] else out1, l)
    {
      if k in storedLabels && storedLabels[k] == l {
        assert Stores(labels, visited + {k}, k, l);
      } else {
        assert forall j :: Stores(labels, visited + {k}, j, l) <==> Stores(labels, visited, j, l);
      }
    }

    method StoreOne(labels: map<string, string>, ghost visited: set<string>, ghost out: map<string, string>,
                    out1: map<string, string>, key: string)
      returns (out2: map<string, string>)
      requires key in labels && forall l :: Stored(labels, visited, out, out1, l)
      ensures forall l :: Stored(labels, visited + {key}, out, out2, l)
    {
      out2 := out1;
      if key in storedLabels {
        out2 := out1[storedLabels[key] := labels[key]];
      }
      forall l ensures Stored(labels, visited + {key}, out, out2, l) {
        OneStored(labels, visited, out, out1, key, l);
      }
    }

    lemma KeyTaken(labels: map<string, string>, unvisited: map<string, string>, visited: set<string>, key: string)
      requires key in unvisited && key in labels && visited == labels.Keys - unvisited.Keys
      ensures visited + {key} == labels.Keys - (unvisited - {key}).Keys
    {
    }

    method CopyEach(labels: map<string, string>, out: map<string, string>) returns (texts: seq<string>, out1: map<string, string>)
      ensures multiset(texts) == Entries(labels - ignoredLabels)
      ensures forall l :: Stored(labels, labels.Keys, out, out1, l)
    {
      texts, out1 := [], out;
      var unvisited := labels;
      ghost var visited: set<string> := {};
      while unvisited != map[]
        invariant multiset(texts) + Entries(unvisited - ignoredLabels) == Entries(labels - ignoredLabels)
        invariant visited == labels.Keys - unvisited.Keys && forall k :: k in unvisited ==> k in labels && unvisited[k] == labels[k]
        invariant forall l :: Stored(labels, visited, out, out1, l)
        decreases unvisited.Keys
      {
        var key :| key in unvisited.Keys;
        var value := unvisited[key];
        out1 := StoreOne(labels, visited, out, out1, key);
        KeyTaken(labels, unvisited, visited, key);
        visited := visited + {key};
        EntryTaken(unvisited, ignoredLabels, key, texts);
        if key !in ignoredLabels {
          texts := texts + [Entry(key, value)];
        }
        unvisited := unvisited - {key};
      }
      assert unvisited - ignoredLabels == map[];
      assert unvisited.Keys == {} && visited == labels.Keys;
    }

    lemma StoredElsewhere(labels: map<string, string>, out: map<string, string>, out1: map<string, string>, text: string, l: string)
      requires Stored(labels, labels.Keys, out, out1, l) && l != LABELS
      ensures Stored(labels, labels.Keys, out, out1[LABELS := text], l)
    {
    }

    /** Copy: the labels are ranged over in any order, but the text does not tell which. */
    method Copy(labels: map<string, string>, out: map<string, string>) returns (out1: map<string, string>)
      ensures "labels" in out1 && out1["labels"] == Encoded(labels - ignoredLabels, labelSeparator)
      ensures forall l :: l != "labels" ==> Stored(labels, labels.Keys, out, out1, l)
    {
      var texts, out2 := CopyEach(labels, out);
      SortIsListed(texts);
      var text := Join(Sort(texts), labelSeparator);
      out1 := out2[LABELS := text];
      forall l | l != LABELS ensures Stored(labels, labels.Keys, out, out1, l) {
        StoredElsewhere(labels, out, out2, text, l);
      }
    }
  }

  // ---- Reading ----------------------------------------------------------------------------------------

  /** The part of a string before the first c. */
  function Before(s: string, c: char): string
    requires c in s
  {
    if s[0] == c then "" else [s[0]] + Before(s[1..], c)
  }

  lemma {:induction false} BeforeIs(s: string, c: char)
    requires c in s
    ensures |Before(s, c)| < |s| && s == Before(s, c) + [c] + s[|Before(s, c)| + 1..] && c !in Before(s, c)
  {
    if s[0] != c {
      BeforeIs(s[1..], c);
      assert s == [s[0]] + s[1..];
    }
  }

  /** strings.Split on one character. */
  function Split(s: string, c: char): seq<string>
    decreases |s|
  {
    if c !in s then [s]
    else
      BeforeIs(s, c);
      [Before(s, c)] + Split(s[|Before(s, c)| + 1..], c)
  }

  /** One piece of the text, split at its first colon into a name and a value; without a colon it is dropped. */
  function AddPiece(piece: string, tags: map<string, string>): map<string, string> {
    if ':' in piece then
      BeforeIs(piece, ':');
      tags[PREFIX + Before(piece, ':') := piece[|Before(piece, ':')| + 1..]]
    else tags
  }

  function AddPieces(pieces: seq<string>, n: nat, tags: map<string, string>): map<string, string>
    requires n <= |pieces|
  {
    if n == 0 then tags else AddPiece(pieces[n - 1], AddPieces(pieces, n - 1, tags))
  }

  /** The tags that a text of labels stands for. */
  function Decoded(text: string): map<string, string> {
    AddPieces(Split(text, ','), |Split(text, ',')|, map[])
  }

  lemma {:induction false} PiecesOver(pieces: seq<string>, n: nat, tags: map<string, string>)
    requires n <= |pieces|
    ensures AddPieces(pieces, n, tags) == tags + AddPieces(pieces, n, map[])
    ensures forall t :: t in AddPieces(pieces, n, map[]) ==> PREFIX <= t
  {
    if n > 0 {
      PiecesOver(pieces, n - 1, tags);
      var piece := pieces[n - 1];
      if ':' in piece {
        BeforeIs(piece, ':');
        assert PREFIX <= PREFIX + Before(piece, ':');
      }
    }
  }

  /** What the labels become: the text of labels its tags, and all others tags of their own. */
  function TagsOf(labels: map<string, string>): map<string, string> {
    labels - {LABELS} + if LABELS in labels then Decoded(labels[LABELS]) else map[]
  }

  /** The labels with the first n names. */
  function Named(labels: map<string, string>, names: seq<string>, n: nat): map<string, string>
    requires n <= |names|
  {
    map l | l in names[..n] && l in labels :: labels[l]
  }

  /** A name that starts like the tags of labels comes before the text of labels. */
  lemma {:induction false} PrefixedComeFirst(name: string)
    requires PREFIX <= name
    ensures !AtMost(LABELS, name)
  {
    assert LABELS == "label" + "s" && name == "label" + name[5..] && name[5..][0] == PREFIX[5];
    SamePrefix("label", "s", name[5..]);
  }

  lemma {:induction false} SamePrefix(p: string, a: string, b: string)
    ensures AtMost(p + a, p + b) <==> AtMost(a, b)
  {
    if p == "" {
      assert p + a == a && p + b == b;
    } else {
      SamePrefix(p[1..], a, b);
      assert (p + a)[1..] == p[1..] + a && (p + b)[1..] == p[1..] + b;
    }
  }

  lemma NameAdded(labels: map<string, string>, names: seq<string>, i: nat)
    requires i < |names| && names[i] in labels
    requires names[i] == LABELS || (LABELS in names[..i] ==> AtMost(LABELS, names[i]))
    requires names[i] !in names[..i]
    ensures TagsOf(Named(labels, names, i + 1))
            == if names[i] == LABELS then TagsOf(Named(labels, names, i)) + Decoded(labels[LABELS]) else TagsOf(Named(labels, names, i))[names[i] := labels[names[i]]]
  {
    var name, before := names[i], Named(labels, names, i);
    assert names[..i + 1] == names[..i] + [name];
    assert Named(labels, names, i + 1) == before[name := labels[name]];
    if name == LABELS {
      assert before[LABELS := labels[LABELS]] - {LABELS} == before - {LABELS} == before;
    } else {
      assert before[name := labels[name]] - {LABELS} == (before - {LABELS})[name := labels[name]];
      if LABELS in before {
        var text := labels[LABELS];
        PiecesOver(Split(text, ','), |Split(text, ',')|, map[]);
        if PREFIX <= name {
          PrefixedComeFirst(name);
        }
        assert name !in Decoded(text);
      }
    }
  }

  /** addLabelTags, over the names in their order. */
  method AddLabelTags(labels: map<string, string>, tags: map<string, string>) returns (tags1: map<string, string>)
    ensures tags1 == tags + TagsOf(labels)
    ensures tags1 == tags + (labels - {"labels"}) + if "labels" in labels then Decoded(labels["labels"]) else map[]
  {
    var names := SortedKeys(labels);
    tags1 := tags;
    for i := 0 to |names|
      invariant tags1 == tags + TagsOf(Named(labels, names, i))
    {
      tags1 := AddName(labels, names, i, tags1, tags);
    }
    assert Named(labels, names, |names|) == labels;
    PlusPlus(tags, labels - {LABELS}, "", "", if LABELS in labels then Decoded(labels[LABELS]) else map[]);
  }

  method AddName(labels: map<string, string>, names: seq<string>, i: nat, tags: map<string, string>, ghost start: map<string, string>)
    returns (tags1: map<string, string>)
    requires i < |names| && names[i] in labels && Sorted(names) && names[i] !in names[..i]
    requires tags == start + TagsOf(Named(labels, names, i))
    ensures tags1 == start + TagsOf(Named(labels, names, i + 1))
  {
    var name := names[i];
    assert LABELS in names[..i] ==> AtMost(LABELS, name);
    NameAdded(labels, names, i);
    PlusPlus(start, TagsOf(Named(labels, names, i)), name, labels[name], if LABELS in labels then Decoded(labels[LABELS]) else map[]);
    if name == LABELS {
      tags1 := AddText(labels[LABELS], tags);
    } else {
      tags1 := tags[name := labels[name]];
    }
  }

  lemma PlusPlus(a: map<string, string>, b: map<string, string>, k: string, v: string, c: map<string, string>)
    ensures (a + b)[k := v] == a + b[k := v] && a + b + c == a + (b + c)
  {
  }

  method AddText(text: string, tags: map<string, string>) returns (tags1: map<string, string>)
    ensures tags1 == tags + Decoded(text)
  {
    var pieces := Split(text, ',');
    tags1 := tags;
    for j := 0 to |pieces|
      invariant tags1 == AddPieces(pieces, j, tags)
    {
      tags1 := AddPiece(pieces[j], tags1);
    }
    PiecesOver(pieces, |pieces|, tags);
  }

  // ---- The round trip ---------------------------------------------------------------------------------

  /** Names without colons and commas, values without commas. */
  predicate LabelsOk(m: map<string, string>) {
    forall k :: k in m ==> ':' !in k && ',' !in k && ',' !in m[k]
  }

  /** The tags that the labels are meant to give. */
  function LabelTags(m: map<string, string>): map<string, string> {
    map t | t in (set k | k in m :: "label." + k) :: if "label." <= t && t[6..] in m then m[t[6..]] else ""
  }

  lemma TagOfLabel(m: map<string, string>, k: string)
    requires k in m
    ensures PREFIX + k in LabelTags(m) && LabelTags(m)[PREFIX + k] == m[k]
  {
    assert (PREFIX + k)[|PREFIX|..] == k;
  }

  lemma {:induction false} EntriesHold(m: map<string, string>, x: string)
    ensures x in Entries(m) <==> exists k :: k in m && x == Entry(k, m[k])
    decreases |m|
  {
    if m != map[] {
      var k :| k in m && Entries(m) == Entries(m - {k}) + multiset{Entry(k, m[k])};
      EntriesHold(m - {k}, x);
      if x in Entries(m) && x != Entry(k, m[k]) {
        var j :| j in m - {k} && x == Entry(j, (m - {k})[j]);
        assert j in m && x == Entry(j, m[j]);
      }
      if j :| j in m && x == Entry(j, m[j]) && j != k {
        assert j in m - {k} && x == Entry(j, (m - {k})[j]);
      }
    }
  }

  lemma {:induction false} BeforeFirst(a: string, c: char, b: string)
    requires c !in a
    ensures c in a + [c] + b && Before(a + [c] + b, c) == a && (a + [c] + b)[|a| + 1..] == b
    decreases a
  {
    assert (a + [c] + b)[|a|] == c;
    if a != "" {
      BeforeFirst(a[1..], c, b);
      assert (a + [c] + b)[1..] == a[1..] + [c] + b;
    }
  }

  /** Splitting undoes joining when no piece holds the separator. */
  lemma {:induction false} SplitJoin(s: seq<string>)
    requires forall i :: 0 <= i < |s| ==> ',' !in s[i]
    ensures Split(Join(s, ","), ',') == if s == [] then [""] else s
  {
    if |s| > 1 {
      SplitJoin(s[1..]);
      BeforeFirst(s[0], ',', Join(s[1..], ","));
      assert s[0] + "," + Join(s[1..], ",") == s[0] + [','] + Join(s[1..], ",");
      assert s == [s[0]] + s[1..];
    }
  }

  lemma OnePiece(m: map<string, string>, k: string, tags: map<string, string>)
    requires k in m && ':' !in k
    ensures AddPiece(Entry(k, m[k]), tags) == tags[PREFIX + k := m[k]]
  {
    BeforeFirst(k, ':', m[k]);
    assert Entry(k, m[k]) == k + [':'] + m[k];
  }

  /** The tags of the first n pieces, each the entry of a label. */
  lemma {:induction false} PiecesGiveTags(m: map<string, string>, s: seq<string>, n: nat)
    requires n <= |s| && LabelsOk(m) && forall x :: x in s ==> x in Entries(m)
    ensures forall t :: t in AddPieces(s, n, map[]) ==> t in LabelTags(m) && AddPieces(s, n, map[])[t] == LabelTags(m)[t]
    ensures forall k :: k in m && Entry(k, m[k]) in s[..n] ==> PREFIX + k in AddPieces(s, n, map[])
  {
    if n > 0 {
      PiecesGiveTags(m, s, n - 1);
      EntriesHold(m, s[n - 1]);
      var k :| k in m && s[n - 1] == Entry(k, m[k]);
      OnePiece(m, k, AddPieces(s, n - 1, map[]));
      TagOfLabel(m, k);
      assert s[..n] == s[..n - 1] + [s[n - 1]];
      forall j | j in m && Entry(j, m[j]) == s[n - 1] ensures j == k {
        OnePiece(m, j, map[]);
        OnePiece(m, k, map[]);
        BeforeFirst(j, ':', m[j]);
        BeforeFirst(k, ':', m[k]);
        assert Entry(j, m[j]) == j + [':'] + m[j] && Entry(k, m[k]) == k + [':'] + m[k];
      }
    }
  }

  lemma {:induction false} ListedEntries(m: map<string, string>, s: seq<string>)
    requires s == Listed(Entries(m))
    ensures forall x :: x in s <==> x in Entries(m)
  {
    ListedSorts(Entries(m));
    forall x ensures x in s <==> x in Entries(m) {
      assert x in multiset(s) <==> x in s;
    }
  }

  lemma {:induction false} AllPieces(m: map<string, string>, s: seq<string>)
    requires LabelsOk(m) && forall x :: x in s <==> x in Entries(m)
    ensures AddPieces(s, |s|, map[]) == LabelTags(m)
  {
    PiecesGiveTags(m, s, |s|);
    assert s[..|s|] == s;
    forall t | t in LabelTags(m) ensures t in AddPieces(s, |s|, map[]) {
      var k :| k in m && t == PREFIX + k;
      EntriesHold(m, Entry(k, m[k]));
    }
  }

  lemma GoodLabels(m: map<string, string>)
    requires LabelsOk(m)
    ensures Decoded(Encoded(m, ",")) == LabelTags(m)
  {
    var s := Listed(Entries(m));
    ListedEntries(m, s);
    forall i | 0 <= i < |s| ensures ',' !in s[i] {
      assert s[i] in s;
      EntriesHold(m, s[i]);
    }
    SplitJoin(s);
    AllPieces(m, s);
    NoPieces();
  }

  lemma NoPieces()
    ensures AddPieces([""], 1, map[]) == map[]
  {
    assert AddPieces([""], 0, map[]) == map[];
  }

  lemma {:induction false} PiecesHaveNoCommas(text: string)
    ensures forall i :: 0 <= i < |Split(text, ',')| ==> ',' !in Split(text, ',')[i]
    decreases |text|
  {
    if ',' in text {
      BeforeIs(text, ',');
      PiecesHaveNoCommas(text[|Before(text, ',')| + 1..]);
    }
  }

  /** No tag's name holds a colon or a comma, and no tag's value a comma. */
  predicate Clean(tags: map<string, string>) {
    forall t :: t in tags ==> PREFIX <= t && ':' !in t[|PREFIX|..] && ',' !in t[|PREFIX|..] && ',' !in tags[t]
  }

  lemma {:induction false} PiecesGiveCleanTags(pieces: seq<string>, n: nat)
    requires n <= |pieces| && forall i :: 0 <= i < |pieces| ==> ',' !in pieces[i]
    ensures Clean(AddPieces(pieces, n, map[]))
  {
    if n > 0 {
      PiecesGiveCleanTags(pieces, n - 1);
      var piece := pieces[n - 1];
      if ':' in piece {
        BeforeIs(piece, ':');
        assert (PREFIX + Before(piece, ':'))[|PREFIX|..] == Before(piece, ':');
      }
    }
  }

  /**
   * Labels come back as tags, each under its own name with its own value, in whatever order they were
   * written down, if and only if no name holds a colon or a comma and no value a comma.
   */
  lemma RoundTrip(m: map<string, string>)
    ensures Decoded(Encoded(m, ",")) == LabelTags(m) <==> LabelsOk(m)
  {
    if LabelsOk(m) {
      GoodLabels(m);
    }
    var text := Encoded(m, ",");
    PiecesHaveNoCommas(text);
    PiecesGiveCleanTags(Split(text, ','), |Split(text, ',')|);
    if Decoded(text) == LabelTags(m) {
      forall k | k in m ensures ':' !in k && ',' !in k && ',' !in m[k] {
        TagOfLabel(m, k);
        assert (PREFIX + k)[|PREFIX|..] == k;
      }
    }
  }
}
