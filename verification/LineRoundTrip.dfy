/** A printed metric line parses, and parses to what was printed, exactly when its first tag cannot pass for a timestamp. */
module LineRoundTrip {
  import opened Peg
  import opened MetricGrammar
  import opened ParseActions
  import opened Reading
  import opened MetricLines
  import opened TagLines

  // ---- tag, tags -------------------------------------------------------------------------------

  predicate TagOk(t: TagText) {
    TagNameOk(t.quoted, t.name) && ValueOk(t.value)
  }

  function PrintTag(t: TagText): seq<Rune> {
    Quoted(t.quoted, t.name) + [R('=')] + Quoted(true, t.value)
  }

  function AfterTag(t: TagText, st: Parsed): Parsed {
    st.(text := t.value, currentTag := t.name, tags := st.tags[t.name := t.value])
  }

  lemma TagParts(buf: seq<Rune>, p: nat, t: TagText)
    requires HasAt(buf, p, PrintTag(t))
    ensures var name := Quoted(t.quoted, t.name); var q := p + |name|;
      && HasAt(buf, p, name) && q < |buf| && buf[q] == R('=') && HasAt(buf, q + 1, Quoted(true, t.value))
      && |PrintTag(t)| == |name| + 1 + |t.value| + 2
  {
    var name, value := Quoted(t.quoted, t.name), Quoted(true, t.value);
    HasParts(buf, p, name + [R('=')], value);
    HasParts(buf, p, name, [R('=')]);
    HasRunes(buf, p + |name|, [R('=')]);
  }

  lemma TagReads(buf: seq<Rune>, p: nat, t: TagText, st: Parsed)
    requires TagOk(t) && HasAt(buf, p, PrintTag(t))
    ensures Reads(TAG, buf, p, p + |PrintTag(t)|, st, AfterTag(t, st))
  {
    var q, r := p + |Quoted(t.quoted, t.name)|, p + |PrintTag(t)|;
    var st1 := st.(text := t.name, currentTag := t.name);
    TagParts(buf, p, t);
    TagNameReads(buf, p, t.quoted, t.name, st);
    ChrReads(R('='), buf, q, st1);
    TagValueReads(buf, q + 1, t.value, st1);
    Cat3Reads(TAG_NAME, Chr(R('=')), TAG_VALUE, buf, p, q, q + 1, r, st, st1, st1, AfterTag(t, st));
    NodeReads(Tag, TAG_CAT, buf, p, r, st, AfterTag(t, st));
  }

  /** Tags from the j-th on, each after a space. */
  function PrintRest(tags: seq<TagText>, j: nat): seq<Rune>
    requires j <= |tags|
    decreases |tags| - j
  {
    if j == |tags| then [] else PrintSpaceTag(tags[j]) + PrintRest(tags, j + 1)
  }

  function AfterRest(tags: seq<TagText>, j: nat, st: Parsed): Parsed
    requires j <= |tags|
    decreases |tags| - j
  {
    if j == |tags| then st else AfterRest(tags, j + 1, AfterTag(tags[j], st))
  }

  function PrintSpaceTag(t: TagText): seq<Rune> { [R(' ')] + PrintTag(t) }

  lemma SpaceTagReads(buf: seq<Rune>, p: nat, t: TagText, st: Parsed)
    requires TagOk(t) && HasAt(buf, p, PrintSpaceTag(t))
    ensures Reads(SPACE_TAG, buf, p, p + |PrintSpaceTag(t)|, st, AfterTag(t, st))
  {
    HasParts(buf, p, [R(' ')], PrintTag(t));
    HasRunes(buf, p, [R(' ')]);
    ChrReads(R(' '), buf, p, st);
    TagReads(buf, p + 1, t, st);
    Cat2Reads(SPACE, TAG, buf, p, p + 1, p + |PrintSpaceTag(t)|, st, st, AfterTag(t, st));
  }

  lemma NoMoreTags(buf: seq<Rune>, p: nat, r: nat, st: Parsed)
    requires r == p < |buf| && buf[p] == END_SYMBOL
    ensures Reads(Star(SPACE_TAG), buf, p, r, st, st)
  {
    CatStart(SPACE_TAG, buf, p, st);
    CatBreaks(SPACE_TAG, 0, buf, p, p, st, st);
  }

  lemma RestParts(buf: seq<Rune>, p: nat, tags: seq<TagText>, j: nat)
    requires j < |tags| && HasAt(buf, p, PrintRest(tags, j))
    ensures HasAt(buf, p, PrintSpaceTag(tags[j])) && HasAt(buf, p + |PrintSpaceTag(tags[j])|, PrintRest(tags, j + 1))
    ensures |PrintRest(tags, j)| == |PrintSpaceTag(tags[j])| + |PrintRest(tags, j + 1)|
  {
    HasParts(buf, p, PrintSpaceTag(tags[j]), PrintRest(tags, j + 1));
  }

  lemma {:induction false} MoreTagsRead(buf: seq<Rune>, p: nat, r: nat, tags: seq<TagText>, j: nat, st: Parsed)
    requires j <= |tags| && (forall i :: 0 <= i < |tags| ==> TagOk(tags[i])) && HasAt(buf, p, PrintRest(tags, j))
    requires r == p + |PrintRest(tags, j)| && r < |buf| && buf[r] == END_SYMBOL
    ensures Reads(Star(SPACE_TAG), buf, p, r, st, AfterRest(tags, j, st))
    decreases |tags| - j
  {
    if j == |tags| {
      NoMoreTags(buf, p, r, st);
    } else {
      var m, st1 := p + |PrintSpaceTag(tags[j])|, AfterTag(tags[j], st);
      RestParts(buf, p, tags, j);
      SpaceTagReads(buf, p, tags[j], st);
      MoreTagsRead(buf, m, r, tags, j + 1, st1);
      StarStep(SPACE_TAG, buf, p, m, r, st, st1, AfterRest(tags, j + 1, st1));
    }
  }

  /** The tags of a line: the first one without its space. */
  function PrintTags(tags: seq<TagText>): seq<Rune>
    requires tags != []
  {
    PrintTag(tags[0]) + PrintRest(tags, 1)
  }

  predicate TagsOk(tags: seq<TagText>) {
    tags != [] && forall i :: 0 <= i < |tags| ==> TagOk(tags[i])
  }

  lemma {:induction false} TagsRead(buf: seq<Rune>, p: nat, r: nat, tags: seq<TagText>, st: Parsed, st2: Parsed)
    requires TagsOk(tags) && HasAt(buf, p, PrintTags(tags)) && st2 == AfterRest(tags, 0, st.(tags := map[]))
    requires r == p + |PrintTags(tags)| && r < |buf| && buf[r] == END_SYMBOL
    ensures Reads(TAGS, buf, p, r, st, st2)
  {
    var q, st1 := p + |PrintTag(tags[0])|, AfterTag(tags[0], st.(tags := map[]));
    TagListReads(buf, p, q, r, tags, st.(tags := map[]), st1, st2);
    TagsReadFrom(buf, p, q, r, st, st1, st2);
  }

  lemma TagsReadFrom(buf: seq<Rune>, p: nat, q: nat, r: nat, st: Parsed, st1: Parsed, st2: Parsed)
    requires p <= |buf| && Reads(TAG, buf, p, q, st.(tags := map[]), st1) && Reads(Star(SPACE_TAG), buf, q, r, st1, st2)
    ensures Reads(TAGS, buf, p, r, st, st2)
  {
    ActReads(Action1, buf, p, st);
    Cat3Reads(Act(Action1), TAG, Star(SPACE_TAG), buf, p, p, q, r, st, st.(tags := map[]), st1, st2);
    NodeReads(Tags, TAGS_CAT, buf, p, r, st, st2);
  }

  lemma {:induction false} TagListReads(buf: seq<Rune>, p: nat, q: nat, r: nat, tags: seq<TagText>, st: Parsed, st1: Parsed, st2: Parsed)
    requires TagsOk(tags) && HasAt(buf, p, PrintTags(tags)) && st1 == AfterTag(tags[0], st) && st2 == AfterRest(tags, 0, st)
    requires q == p + |PrintTag(tags[0])| && r == p + |PrintTags(tags)| && r < |buf| && buf[r] == END_SYMBOL
    ensures Reads(TAG, buf, p, q, st, st1) && Reads(Star(SPACE_TAG), buf, q, r, st1, st2)
  {
    HasParts(buf, p, PrintTag(tags[0]), PrintRest(tags, 1));
    TagReads(buf, p, tags[0], st);
    MoreTagsRead(buf, q, r, tags, 1, st1);
  }

  // ---- A whole line ----------------------------------------------------------------------------

  datatype Line = Line(quoted: bool, name: Text, value: Number, timestamp: Text, tags: seq<TagText>)

  predicate LineOk(l: Line) {
    NameOk(l.name) && NumberOk(l.value) && (l.timestamp == [] || TimestampOk(l.timestamp)) && TagsOk(l.tags)
  }

  function SpaceTimestampText(t: Text): Text { if t == [] then [] else [R(' ')] + t }

  function Print(l: Line): seq<Rune>
    requires l.tags != []
  {
    Quoted(l.quoted, l.name) + [R(' ')] + NumberText(l.value) + SpaceTimestampText(l.timestamp) + [R(' ')] + PrintTags(l.tags)
  }

  /** Without a timestamp, a first tag name that starts with ten digits would be taken for one. */
  predicate LooksLikeTimestamp(first: TagText) {
    !first.quoted && |first.name| >= 10 && AllDigits(first.name[..10])
  }

  predicate Ambiguous(l: Line)
    requires l.tags != []
  {
    l.timestamp == [] && LooksLikeTimestamp(l.tags[0])
  }

  /** Where the parts of a printed line are: a, b and c are the positions of the spaces. */
  ghost predicate Layout(l: Line, buf: seq<Rune>, a: nat, b: nat, c: nat) {
    l.tags != [] && a < b <= c < |buf| && buf[|buf| - 1] == END_SYMBOL &&
    HasAt(buf, 0, Quoted(l.quoted, l.name)) && a == |Quoted(l.quoted, l.name)| && buf[a] == R(' ') &&
    HasAt(buf, a + 1, NumberText(l.value)) && b == a + 1 + |NumberText(l.value)| && buf[b] == R(' ') &&
    HasAt(buf, b, SpaceTimestampText(l.timestamp)) && c == b + |SpaceTimestampText(l.timestamp)| && buf[c] == R(' ') &&
    HasAt(buf, c + 1, PrintTags(l.tags)) && c + 1 + |PrintTags(l.tags)| == |buf| - 1
  }

  lemma PrintedLayout(l: Line, buf: seq<Rune>) returns (a: nat, b: nat, c: nat)
    requires l.tags != [] && buf == Print(l) + [END_SYMBOL]
    ensures Layout(l, buf, a, b, c)
  {
    var name, number, time := Quoted(l.quoted, l.name), NumberText(l.value), SpaceTimestampText(l.timestamp);
    a := |name|;
    b := a + 1 + |number|;
    c := b + |time|;
    ConcatLayout(name, number, time, PrintTags(l.tags), buf);
  }

  lemma ConcatLayout(name: Text, number: Text, time: Text, tags: Text, buf: seq<Rune>)
    requires buf == name + [R(' ')] + number + time + [R(' ')] + tags + [END_SYMBOL]
    ensures var a := |name|; var b := a + 1 + |number|; var c := b + |time|;
      && c + 1 + |tags| == |buf| - 1 && buf[|buf| - 1] == END_SYMBOL && buf[a] == R(' ') && buf[c] == R(' ')
      && HasAt(buf, 0, name) && HasAt(buf, a + 1, number) && HasAt(buf, b, time) && HasAt(buf, c + 1, tags)
      && (time != [] ==> buf[b] == time[0])
  {
    var head := name + [R(' ')] + number;
    assert HasAt(buf, 0, head + time + [R(' ')] + tags);
    HasParts(buf, 0, head + time + [R(' ')], tags);
    HasParts(buf, 0, head + time, [R(' ')]);
    HasRunes(buf, |head + time|, [R(' ')]);
    HasParts(buf, 0, head, time);
    HasRunes(buf, |head|, time);
    HeadLayout(name, number, buf);
  }

  lemma HeadLayout(name: Text, number: Text, buf: seq<Rune>)
    requires HasAt(buf, 0, name + [R(' ')] + number)
    ensures |name| < |buf| && buf[|name|] == R(' ') && HasAt(buf, 0, name) && HasAt(buf, |name| + 1, number)
  {
    HasParts(buf, 0, name + [R(' ')], number);
    HasParts(buf, 0, name, [R(' ')]);
    HasRunes(buf, |name|, [R(' ')]);
  }

  function AfterTimestamp(t: Text, st: Parsed): Parsed {
    if t == [] then st else st.(text := t, timestamp := t)
  }

  /** Without a timestamp, the option is skipped and the space is left for the tags. */
  lemma NoTimestampReads(buf: seq<Rune>, b: nat, c: nat, tags: seq<TagText>, st: Parsed, st1: Parsed)
    requires c == b && st1 == st && tags != [] && !LooksLikeTimestamp(tags[0])
    requires b < |buf| && buf[b] == R(' ') && HasAt(buf, b + 1, PrintTags(tags))
    ensures Reads(Opt(SPACE_TIMESTAMP), buf, b, c, st, st1)
  {
    NoTimestampAt(buf, b + 1, tags);
    NoTimestampSkipped(buf, b, c, st, st1);
  }

  lemma NoTimestampAt(buf: seq<Rune>, p: nat, tags: seq<TagText>)
    requires tags != [] && !LooksLikeTimestamp(tags[0]) && HasAt(buf, p, PrintTags(tags))
    ensures Fails(TIMESTAMP, buf, p)
  {
    FirstTag(buf, p, tags);
    TooFewDigits(buf, p, tags[0].quoted, tags[0].name);
  }

  lemma SpaceTimestampReads(buf: seq<Rune>, b: nat, c: nat, t: Text, st: Parsed, st1: Parsed)
    requires TimestampOk(t) && HasAt(buf, b, SpaceTimestampText(t)) && st1 == AfterTimestamp(t, st)
    requires c == b + 1 + |t| && c < |buf| && buf[c] == R(' ')
    ensures Reads(Opt(SPACE_TIMESTAMP), buf, b, c, st, st1)
  {
    HasParts(buf, b, [R(' ')], t);
    HasRunes(buf, b, [R(' ')]);
    ChrReads(R(' '), buf, b, st);
    TimestampReads(buf, b + 1, t, st);
    Cat2Reads(SPACE, TIMESTAMP, buf, b, b + 1, c, st, st, st1);
    OptReads(SPACE_TIMESTAMP, buf, b, c, st, st1);
  }

  lemma NoTimestampSkipped(buf: seq<Rune>, b: nat, c: nat, st: Parsed, st1: Parsed)
    requires c == b && st1 == st && b < |buf| && buf[b] == R(' ') && Fails(TIMESTAMP, buf, b + 1)
    ensures Reads(Opt(SPACE_TIMESTAMP), buf, b, c, st, st1)
  {
    CatStart(SPACE_TIMESTAMP, buf, b, st);
    ChrReads(R(' '), buf, b, st);
    CatNext(SPACE_TIMESTAMP, 0, buf, b, b, b + 1, st, st, st);
    CatBreaks(SPACE_TIMESTAMP, 1, buf, b, b + 1, st, st);
    OptSkips(SPACE_TIMESTAMP, buf, b, st);
  }

  /** Where the digits that s starts with, from k on, end. */
  function LeadingDigits(s: Text, k: nat): (d: nat)
    requires k <= |s|
    ensures k <= d <= |s| && (forall i :: k <= i < d ==> IsDigit(s[i])) && (d < |s| ==> !IsDigit(s[d]))
    decreases |s| - k
  {
    if k < |s| && IsDigit(s[k]) then LeadingDigits(s, k + 1) else k
  }

  lemma FirstTag(buf: seq<Rune>, p: nat, tags: seq<TagText>)
    requires tags != [] && HasAt(buf, p, PrintTags(tags))
    ensures var name := Quoted(tags[0].quoted, tags[0].name);
      HasAt(buf, p, name) && p + |name| < |buf| && buf[p + |name|] == R('=')
  {
    HasParts(buf, p, PrintTag(tags[0]), PrintRest(tags, 1));
    TagParts(buf, p, tags[0]);
  }

  lemma TooFewDigits(buf: seq<Rune>, p: nat, quoted: bool, name: Text)
    requires HasAt(buf, p, Quoted(quoted, name)) && p + |Quoted(quoted, name)| < |buf| && buf[p + |Quoted(quoted, name)|] == R('=')
    requires !quoted ==> |name| < 10 || !AllDigits(name[..10])
    ensures Fails(TIMESTAMP, buf, p)
  {
    if quoted {
      QuotedParts(buf, p, name);
      TimestampFails(buf, p, 0);
    } else {
      HasRunes(buf, p, name);
      var d := LeadingDigits(name, 0);
      forall i | p <= i < p + d ensures IsDigit(buf[i]) {
        assert IsDigit(name[i - p]);
      }
      assert d < 10;
      TimestampFails(buf, p, d);
    }
  }

  // ---- The round trip --------------------------------------------------------------------------

  function AfterName(l: Line, st: Parsed): Parsed { st.(text := l.name, name := l.name) }
  function AfterValue(l: Line, st: Parsed): Parsed { st.(text := NumberText(l.value), value := NumberText(l.value)) }

  lemma NameAndValueRead(l: Line, buf: seq<Rune>, a: nat, b: nat, c: nat)
    requires LineOk(l) && Layout(l, buf, a, b, c)
    ensures Reads(METRIC_NAME, buf, 0, a, START, AfterName(l, START))
    ensures Reads(METRIC_VALUE, buf, a + 1, b, AfterName(l, START), AfterValue(l, AfterName(l, START)))
  {
    MetricNameReads(buf, 0, a, l.quoted, l.name, START, AfterName(l, START));
    MetricValueReads(buf, a + 1, b, l.value, AfterName(l, START), AfterValue(l, AfterName(l, START)));
  }

  lemma TimestampPartReads(buf: seq<Rune>, b: nat, c: nat, t: Text, tags: seq<TagText>, st: Parsed, st1: Parsed)
    requires tags != [] && (if t == [] then !LooksLikeTimestamp(tags[0]) else TimestampOk(t)) && st1 == AfterTimestamp(t, st)
    requires b <= c < |buf| && buf[b] == R(' ') == buf[c] && c == b + |SpaceTimestampText(t)|
    requires HasAt(buf, b, SpaceTimestampText(t)) && HasAt(buf, c + 1, PrintTags(tags))
    ensures Reads(Opt(SPACE_TIMESTAMP), buf, b, c, st, st1)
  {
    if t == [] {
      NoTimestampReads(buf, b, c, tags, st, st1);
    } else {
      SpaceTimestampReads(buf, b, c, t, st, st1);
    }
  }

  lemma SpacesRead(l: Line, buf: seq<Rune>, a: nat, b: nat, c: nat, st1: Parsed, st3: Parsed)
    requires Layout(l, buf, a, b, c)
    ensures Reads(SPACE, buf, a, a + 1, st1, st1) && Reads(SPACE, buf, c, c + 1, st3, st3)
  {
    ChrReads(R(' '), buf, a, st1);
    ChrReads(R(' '), buf, c, st3);
  }

  lemma TagsPartReads(buf: seq<Rune>, c: nat, tags: seq<TagText>, st: Parsed, st1: Parsed)
    requires TagsOk(tags) && st1 == AfterRest(tags, 0, st.(tags := map[])) && buf != [] && buf[|buf| - 1] == END_SYMBOL
    requires HasAt(buf, c + 1, PrintTags(tags)) && c + 1 + |PrintTags(tags)| == |buf| - 1
    ensures Reads(TAGS, buf, c + 1, |buf| - 1, st, st1)
  {
    TagsRead(buf, c + 1, |buf| - 1, tags, st, st1);
  }

  lemma LastPartsRead(l: Line, buf: seq<Rune>, a: nat, b: nat, c: nat, st2: Parsed, st3: Parsed, st4: Parsed)
    requires LineOk(l) && Layout(l, buf, a, b, c) && !Ambiguous(l)
    requires st3 == AfterTimestamp(l.timestamp, st2) && st4 == AfterRest(l.tags, 0, st3.(tags := map[]))
    ensures Reads(Opt(SPACE_TIMESTAMP), buf, b, c, st2, st3) && Reads(TAGS, buf, c + 1, |buf| - 1, st3, st4)
  {
    TimestampPartReads(buf, b, c, l.timestamp, l.tags, st2, st3);
    TagsPartReads(buf, c, l.tags, st3, st4);
  }

  lemma PartsRead(l: Line, buf: seq<Rune>, a: nat, b: nat, c: nat, st1: Parsed, st2: Parsed, st3: Parsed, st4: Parsed)
    requires LineOk(l) && Layout(l, buf, a, b, c) && !Ambiguous(l)
    requires st1 == AfterName(l, START) && st2 == AfterValue(l, st1) && st3 == AfterTimestamp(l.timestamp, st2)
    requires st4 == AfterRest(l.tags, 0, st3.(tags := map[]))
    ensures Reads(METRIC_NAME, buf, 0, a, START, st1) && Reads(METRIC_VALUE, buf, a + 1, b, st1, st2)
    ensures Reads(Opt(SPACE_TIMESTAMP), buf, b, c, st2, st3) && Reads(TAGS, buf, c + 1, |buf| - 1, st3, st4)
  {
    NameAndValueRead(l, buf, a, b, c);
    LastPartsRead(l, buf, a, b, c, st2, st3, st4);
  }

  lemma LineReads(l: Line, buf: seq<Rune>, a: nat, b: nat, c: nat)
    requires LineOk(l) && Layout(l, buf, a, b, c) && !Ambiguous(l)
    ensures Reads(METRIC_LINE, buf, 0, |buf| - 1, START, AfterLine(l))
  {
    var st1 := AfterName(l, START);
    var st2 := AfterValue(l, st1);
    var st3 := AfterTimestamp(l.timestamp, st2);
    PartsRead(l, buf, a, b, c, st1, st2, st3, AfterLine(l));
    SpacesRead(l, buf, a, b, c, st1, st3);
    AssembleLine(buf, a, b, c, st1, st2, st3, AfterLine(l));
  }

  function AfterLine(l: Line): Parsed {
    AfterRest(l.tags, 0, AfterTimestamp(l.timestamp, AfterValue(l, AfterName(l, START))).(tags := map[]))
  }

  lemma AssembleLine(buf: seq<Rune>, a: nat, b: nat, c: nat, st1: Parsed, st2: Parsed, st3: Parsed, st4: Parsed)
    requires a < |buf| && b < |buf| && c < |buf| && buf[|buf| - 1] == END_SYMBOL
    requires Reads(METRIC_NAME, buf, 0, a, START, st1) && Reads(SPACE, buf, a, a + 1, st1, st1)
    requires Reads(METRIC_VALUE, buf, a + 1, b, st1, st2) && Reads(Opt(SPACE_TIMESTAMP), buf, b, c, st2, st3)
    requires Reads(SPACE, buf, c, c + 1, st3, st3) && Reads(TAGS, buf, c + 1, |buf| - 1, st3, st4)
    ensures Reads(METRIC_LINE, buf, 0, |buf| - 1, START, st4)
  {
    var n := |buf| - 1;
    assert Reads(Not(Dot), buf, n, n, st4, st4);
    Cat7Begins(METRIC_NAME, SPACE, METRIC_VALUE, Opt(SPACE_TIMESTAMP), SPACE, TAGS, Not(Dot), buf,
               0, a, a + 1, b, c, START, st1, st1, st2, st3);
    Cat7Ends(METRIC_NAME, SPACE, METRIC_VALUE, Opt(SPACE_TIMESTAMP), SPACE, TAGS, Not(Dot), buf,
             0, c, c + 1, n, n, START, st3, st3, st4, st4);
  }

  /** A line that does not start with an exclamation mark is not a histogram line. */
  lemma NotHistogram(buf: seq<Rune>)
    requires buf != [] && buf[0] != R('!')
    ensures Fails(HISTOGRAM_LINE, buf, 0)
  {
    NoIntervalFails(buf);
    CatStart(HISTOGRAM_LINE, buf, 0, START);
    CatBreaks(HISTOGRAM_LINE, 0, buf, 0, 0, START, START);
  }

  lemma NoIntervalFails(buf: seq<Rune>)
    requires buf != [] && buf[0] != R('!')
    ensures Fails(AGGREGATION_INTERVAL, buf, 0)
  {
    CatStart(INTERVAL_CAT, buf, 0, START);
    CatBreaks(INTERVAL_CAT, 0, buf, 0, 0, START, START);
  }

  lemma FirstRune(l: Line, buf: seq<Rune>, a: nat, b: nat, c: nat)
    requires LineOk(l) && Layout(l, buf, a, b, c)
    ensures buf[0] != R('!')
  {
    HasRunes(buf, 0, Quoted(l.quoted, l.name));
    assert IsNameRune(l.name[NameBody(l.name)]);
  }

  // ---- An ambiguous line -----------------------------------------------------------------------

  /** Three more digits if there are three. */
  lemma OptThree(buf: seq<Rune>, p: nat, st: Parsed) returns (q: nat)
    requires p < |buf| && !IsDigit(buf[|buf| - 1])
    ensures p <= q < |buf| && (forall i :: p <= i < q ==> IsDigit(buf[i])) && Reads(Opt(THREE_DIGITS), buf, p, q, st, st)
  {
    DigitTakes(buf, p, st);
    if !IsDigit(buf[p]) {
      OptThreeReads(buf, p, false, st);
      return p;
    }
    DigitTakes(buf, p + 1, st);
    CatStart(THREE_DIGITS, buf, p, st);
    CatNext(THREE_DIGITS, 0, buf, p, p, p + 1, st, st, st);
    if !IsDigit(buf[p + 1]) {
      CatBreaks(THREE_DIGITS, 1, buf, p, p + 1, st, st);
      return p;
    }
    DigitTakes(buf, p + 2, st);
    CatNext(THREE_DIGITS, 1, buf, p, p + 1, p + 2, st, st, st);
    if !IsDigit(buf[p + 2]) {
      CatBreaks(THREE_DIGITS, 2, buf, p, p + 2, st, st);
      return p;
    }
    OptThreeReads(buf, p, true, st);
    return p + 3;
  }

  /** Ten digits are taken for a timestamp, with three or six more if they are there. */
  lemma TimestampTakes(buf: seq<Rune>, p: nat, st: Parsed) returns (q: nat, st1: Parsed)
    requires p + 10 < |buf| && !IsDigit(buf[|buf| - 1]) && forall i :: p <= i < p + 10 ==> IsDigit(buf[i])
    ensures p + 10 <= q < |buf| && (forall i :: p <= i < q ==> IsDigit(buf[i])) && Reads(TIMESTAMP, buf, p, q, st, st1)
  {
    TenDigits(buf, p, 10, st);
    var m := OptThree(buf, p + 10, st);
    CatNext(TIMESTAMP_DIGITS, 10, buf, p, p + 10, m, st, st, st);
    q := OptThree(buf, m, st);
    CatNext(TIMESTAMP_DIGITS, 11, buf, p, m, q, st, st, st);
    st1 := TimestampTextDone(buf, p, q, st);
  }

  lemma TimestampTextDone(buf: seq<Rune>, p: nat, q: nat, st: Parsed) returns (st1: Parsed)
    requires ReadsCat(TIMESTAMP_DIGITS, 12, buf, p, q, st, st)
    ensures Reads(TIMESTAMP, buf, p, q, st, st1)
  {
    CatEnd(TIMESTAMP_DIGITS, buf, p, q, st, st);
    NodeReads(PegText, TIMESTAMP_DIGITS, buf, p, q, st, st);
    var st0 := ExecToken(Token(PegText, p, q), buf, st);
    ActReads(Action4, buf, q, st0);
    st1 := st0.(timestamp := st0.text);
    Cat2Reads(Node(PegText, TIMESTAMP_DIGITS), Act(Action4), buf, p, q, q, st, st0, st1);
    NodeReads(Timestamp, TIMESTAMP_CAT, buf, p, q, st, st1);
  }

  /** Digits that start the first tag end inside its name or at its equals sign, where there is no space. */
  lemma DigitsInTag(buf: seq<Rune>, p: nat, tags: seq<TagText>)
    requires TagsOk(tags) && LooksLikeTimestamp(tags[0]) && HasAt(buf, p, PrintTags(tags))
    ensures p + 10 < |buf| && (forall i :: p <= i < p + 10 ==> IsDigit(buf[i]))
    ensures forall q :: p <= q < |buf| && (forall i :: p <= i < q ==> IsDigit(buf[i])) ==> buf[q] != R(' ')
  {
    FirstTag(buf, p, tags);
    assert TagOk(tags[0]);
    DigitsInName(buf, p, tags[0].name);
  }

  lemma DigitsInName(buf: seq<Rune>, p: nat, name: Text)
    requires TagNameOk(false, name) && |name| >= 10 && AllDigits(name[..10])
    requires HasAt(buf, p, name) && p + |name| < |buf| && buf[p + |name|] == R('=')
    ensures forall i :: p <= i < p + 10 ==> IsDigit(buf[i])
    ensures forall q :: p <= q < |buf| && (forall i :: p <= i < q ==> IsDigit(buf[i])) ==> buf[q] != R(' ')
  {
    HasRunes(buf, p, name);
    forall i | p <= i < p + 10 ensures IsDigit(buf[i]) {
      assert IsDigit(name[..10][i - p]);
    }
    forall i | p <= i < p + |name| ensures buf[i] != R(' ') {
      assert buf[i] == name[i - p];
    }
    NoSpaceAmongDigits(buf, p, p + |name|);
  }

  lemma NoSpaceAmongDigits(buf: seq<Rune>, p: nat, e: nat)
    requires p <= e < |buf| && !IsDigit(buf[e]) && forall i :: p <= i <= e ==> buf[i] != R(' ')
    ensures forall q :: p <= q < |buf| && (forall i :: p <= i < q ==> IsDigit(buf[i])) ==> buf[q] != R(' ')
  {
    forall q | p <= q < |buf| && (forall i :: p <= i < q ==> IsDigit(buf[i])) ensures buf[q] != R(' ') {
      assert q <= e;
    }
  }

  lemma AmbiguousTagTaken(buf: seq<Rune>, b: nat, tags: seq<TagText>, st: Parsed) returns (q: nat, st1: Parsed)
    requires TagsOk(tags) && LooksLikeTimestamp(tags[0]) && b < |buf| && !IsDigit(buf[|buf| - 1])
    requires buf[b] == R(' ') && HasAt(buf, b + 1, PrintTags(tags))
    ensures Reads(Opt(SPACE_TIMESTAMP), buf, b, q, st, st1) && q < |buf| && buf[q] != R(' ')
  {
    DigitsInTag(buf, b + 1, tags);
    q, st1 := SpaceTimestampTaken(buf, b, st);
  }

  lemma SpaceTimestampTaken(buf: seq<Rune>, b: nat, st: Parsed) returns (q: nat, st1: Parsed)
    requires b + 11 < |buf| && buf[b] == R(' ') && !IsDigit(buf[|buf| - 1]) && forall i :: b + 1 <= i < b + 11 ==> IsDigit(buf[i])
    ensures b + 1 <= q < |buf| && (forall i :: b + 1 <= i < q ==> IsDigit(buf[i])) && Reads(Opt(SPACE_TIMESTAMP), buf, b, q, st, st1)
  {
    q, st1 := TimestampTakes(buf, b + 1, st);
    ChrReads(R(' '), buf, b, st);
    Cat2Reads(SPACE, TIMESTAMP, buf, b, b + 1, q, st, st, st1);
    OptReads(SPACE_TIMESTAMP, buf, b, q, st, st1);
  }

  lemma AmbiguousLineFails(l: Line, buf: seq<Rune>, a: nat, b: nat, c: nat)
    requires LineOk(l) && Layout(l, buf, a, b, c) && Ambiguous(l)
    ensures Fails(METRIC_LINE, buf, 0)
  {
    var st1 := AfterName(l, START);
    var st2 := AfterValue(l, st1);
    NameAndValueRead(l, buf, a, b, c);
    ChrReads(R(' '), buf, a, st1);
    var q, st3 := AmbiguousTagTaken(buf, b, l.tags, st2);
    BreakLine(buf, a, b, q, st1, st2, st3);
  }

  lemma BreakLine(buf: seq<Rune>, a: nat, b: nat, q: nat, st1: Parsed, st2: Parsed, st3: Parsed)
    requires a < |buf| && q < |buf| && buf[q] != R(' ')
    requires Reads(METRIC_NAME, buf, 0, a, START, st1) && Reads(SPACE, buf, a, a + 1, st1, st1)
    requires Reads(METRIC_VALUE, buf, a + 1, b, st1, st2) && Reads(Opt(SPACE_TIMESTAMP), buf, b, q, st2, st3)
    ensures Fails(METRIC_LINE, buf, 0)
  {
    Cat7Begins(METRIC_NAME, SPACE, METRIC_VALUE, Opt(SPACE_TIMESTAMP), SPACE, TAGS, Not(Dot), buf,
               0, a, a + 1, b, q, START, st1, st1, st2, st3);
    CatBreaks(METRIC_LINE, 4, buf, 0, q, START, st3);
  }
}
