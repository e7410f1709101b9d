/** Which lines are histogram lines, and printed ones among them. */
module HistogramLines {
  import opened Peg
  import opened MetricGrammar
  import opened ParseActions
  import opened Reading
  import opened MetricLines
  import opened TagLines
  import opened LineRoundTrip
  import opened ParseMetrics

  // ---- The flag ------------------------------------------------------------------------------------

  /** The expression does not hold that action. */
  predicate Silent(e: Exp) {
    match e
    case Cat(es) => forall i :: 0 <= i < |es| ==> Silent(es[i])
    case Alt(a, b) => Silent(a) && Silent(b)
    case Opt(a) => Silent(a)
    case Star(a) => Silent(a)
    case Node(rule, a) => rule != Action0 && Silent(a)
    case Act(rule) => rule != Action0
    case _ => true
  }

  predicate NoFlag(ts: seq<Token>) {
    forall i :: 0 <= i < |ts| ==> ts[i].rule != Action0
  }

  lemma {:induction false} SilentTokens(e: Exp, buf: seq<Rune>, p: nat)
    requires Silent(e) && p <= |buf| && Eval(e, buf, p).Match?
    ensures NoFlag(Eval(e, buf, p).tokens)
    decreases |buf| - p, e, if e.Cat? then |e.es| + 1 else 0
  {
    match e
    case Cat(es) => SilentCat(e, |es|, buf, p);
    case Alt(a, b) => if Eval(a, buf, p).Match? { SilentTokens(a, buf, p); } else { SilentTokens(b, buf, p); }
    case Opt(a) => if Eval(a, buf, p).Match? { SilentTokens(a, buf, p); }
    case Star(a) =>
      var r := Eval(a, buf, p);
      if r.Match? && r.pos > p {
        SilentTokens(a, buf, p);
        SilentTokens(e, buf, r.pos);
      }
    case Node(rule, a) => SilentTokens(a, buf, p);
    case _ =>
  }

  lemma {:induction false} SilentCat(e: Exp, n: nat, buf: seq<Rune>, p: nat)
    requires e.Cat? && Silent(e) && n <= |e.es| && p <= |buf| && EvalCat(e, n, buf, p).Match?
    ensures NoFlag(EvalCat(e, n, buf, p).tokens)
    decreases |buf| - p, e, n
  {
    if n > 0 {
      SilentCat(e, n - 1, buf, p);
      SilentTokens(e.es[n - 1], buf, EvalCat(e, n - 1, buf, p).pos);
    }
  }

  lemma CatSilent(e: Exp)
    requires e.Cat? && forall i :: 0 <= i < |e.es| ==> Silent(e.es[i])
    ensures Silent(e)
  {
  }

  lemma TokensSilent()
    ensures Silent(DIGIT) && Silent(ALNUM) && Silent(SPACE) && Silent(QUOTE)
  {
    assert Silent(DIGIT) && Silent(ALNUM);
  }

  lemma NameSilent()
    ensures Silent(METRIC_NAME)
  {
    TokensSilent();
    assert Silent(NAME_CHAR);
    CatSilent(NAME_CAT);
    assert Silent(NAME_TEXT);
    CatSilent(QUOTED_NAME);
    CatSilent(METRIC_NAME_CAT);
    assert Silent(METRIC_NAME);
  }

  lemma ValueSilent()
    ensures Silent(METRIC_VALUE)
  {
    TokensSilent();
    CatSilent(FRACTION);
    CatSilent(VALUE_CAT);
    CatSilent(METRIC_VALUE_CAT);
    assert Silent(METRIC_VALUE);
  }

  lemma TimestampSilent()
    ensures Silent(SPACE_TIMESTAMP)
  {
    TokensSilent();
    CatSilent(THREE_DIGITS);
    CatSilent(TIMESTAMP_DIGITS);
    CatSilent(TIMESTAMP_CAT);
    assert Silent(TIMESTAMP);
    CatSilent(SPACE_TIMESTAMP);
  }

  lemma TagNameSilent()
    ensures Silent(TAG_NAME)
  {
    TokensSilent();
    assert Silent(QUOTED_TAG_CHAR) && Silent(TAG_CHAR);
    CatSilent(QUOTED_TAG_TEXT);
    CatSilent(TAG_TEXT);
    CatSilent(QUOTED_TAG_NAME);
    assert Silent(Alt(QUOTED_TAG_NAME, Node(PegText, TAG_TEXT)));
    CatSilent(TAG_NAME_CAT);
    assert Silent(TAG_NAME);
  }

  lemma TagValueSilent()
    ensures Silent(TAG_VALUE)
  {
    TokensSilent();
    CatSilent(ESCAPED_QUOTE);
    CatSilent(UNQUOTED);
    assert Silent(VALUE_UNIT);
    CatSilent(VALUE_UNITS);
    CatSilent(TAG_VALUE_CAT);
    assert Silent(TAG_VALUE);
  }

  lemma TagsSilent()
    ensures Silent(TAGS)
  {
    TagNameSilent();
    TagValueSilent();
    CatSilent(TAG_CAT);
    assert Silent(TAG);
    CatSilent(SPACE_TAG);
    CatSilent(TAGS_CAT);
    assert Silent(TAGS);
  }

  /** A metric line does not raise the flag. */
  lemma MetricLineSilent()
    ensures Silent(METRIC_LINE)
  {
    TokensSilent();
    NameSilent();
    ValueSilent();
    TimestampSilent();
    TagsSilent();
    CatSilent(METRIC_LINE);
  }

  lemma {:induction false} CatKeepsTokens(e: Exp, k: nat, n: nat, buf: seq<Rune>, p: nat)
    requires e.Cat? && k <= n <= |e.es| && p <= |buf| && EvalCat(e, n, buf, p).Match?
    ensures EvalCat(e, k, buf, p).Match? && EvalCat(e, k, buf, p).tokens <= EvalCat(e, n, buf, p).tokens
  {
    if k < n {
      CatKeepsTokens(e, k, n - 1, buf, p);
    }
  }

  /** Its first token but one comes from the aggregation interval. */
  lemma IntervalRaises(buf: seq<Rune>, p: nat)
    requires p <= |buf| && Eval(AGGREGATION_INTERVAL, buf, p).Match?
    ensures exists i :: 0 <= i < |Eval(AGGREGATION_INTERVAL, buf, p).tokens| && Eval(AGGREGATION_INTERVAL, buf, p).tokens[i].rule == Action0
  {
    var q := EvalCat(INTERVAL_CAT, 2, buf, p);
    CatKeepsTokens(INTERVAL_CAT, 2, 3, buf, p);
    var t := EvalCat(INTERVAL_CAT, 3, buf, p).tokens;
    assert t == q.tokens + [Token(Action0, q.pos, q.pos)];
    assert t[|t| - 1].rule == Action0;
    assert Eval(AGGREGATION_INTERVAL, buf, p).tokens[|t| - 1] == t[|t| - 1];
  }

  lemma HistogramLineRaises(buf: seq<Rune>)
    requires Eval(HISTOGRAM_LINE, buf, 0).Match?
    ensures !NoFlag(Eval(HISTOGRAM_LINE, buf, 0).tokens)
  {
    CatKeepsTokens(HISTOGRAM_LINE, 1, 9, buf, 0);
    assert EvalCat(HISTOGRAM_LINE, 0, buf, 0) == Match(0, []);
    var t := EvalCat(HISTOGRAM_LINE, 1, buf, 0).tokens;
    assert t == Eval(AGGREGATION_INTERVAL, buf, 0).tokens;
    IntervalRaises(buf, 0);
    var i :| 0 <= i < |t| && t[i].rule == Action0;
    assert Eval(HISTOGRAM_LINE, buf, 0).tokens[i] == t[i];
  }

  /** A line means a histogram if and only if the rule of histogram lines matches it. */
  lemma HistogramsRecognised(line: Text)
    ensures Meaning(line) == HistogramLine <==> Eval(HISTOGRAM_LINE, line + [END_SYMBOL], 0).Match?
  {
    var buf := line + [END_SYMBOL];
    var r := Eval(GRAMMAR, buf, 0);
    if r.Match? {
      FlagRaised(r.tokens, |r.tokens|, buf, START);
      GrammarTokensAre(buf);
      if Eval(HISTOGRAM_LINE, buf, 0).Match? {
        HistogramLineRaises(buf);
        var t := Eval(HISTOGRAM_LINE, buf, 0).tokens;
        var i :| 0 <= i < |t| && t[i].rule == Action0;
        assert r.tokens[i] == t[i];
      } else {
        MetricLineSilent();
        SilentTokens(METRIC_LINE, buf, 0);
      }
    } else {
      assert Eval(Alt(HISTOGRAM_LINE, METRIC_LINE), buf, 0).Fail?;
    }
  }

  lemma GrammarTokensAre(buf: seq<Rune>)
    requires Eval(GRAMMAR, buf, 0).Match?
    ensures var r := if Eval(HISTOGRAM_LINE, buf, 0).Match? then Eval(HISTOGRAM_LINE, buf, 0) else Eval(METRIC_LINE, buf, 0);
      r.Match? && Eval(GRAMMAR, buf, 0).tokens == r.tokens + [Token(MetricGrammarRule, 0, r.pos)]
  {
    assert Eval(Alt(HISTOGRAM_LINE, METRIC_LINE), buf, 0)
        == if Eval(HISTOGRAM_LINE, buf, 0).Match? then Eval(HISTOGRAM_LINE, buf, 0) else Eval(METRIC_LINE, buf, 0);
  }

  // ---- Printed histogram lines -----------------------------------------------------------------------

  datatype Point = Point(count: Text, value: Number)

  datatype Histogram = Histogram(interval: Rune, timestamp: Text, points: seq<Point>, quoted: bool, name: Text, tags: seq<TagText>)

  predicate PointOk(pt: Point) { pt.count != [] && AllDigits(pt.count) && NumberOk(pt.value) }

  predicate HistogramOk(h: Histogram) {
    && h.interval in [R('M'), R('H'), R('D')] && (h.timestamp == [] || TimestampOk(h.timestamp))
    && h.points != [] && (forall i :: 0 <= i < |h.points| ==> PointOk(h.points[i]))
    && NameOk(h.name) && TagsOk(h.tags)
  }

  function PrintPoint(pt: Point): Text { [R('#')] + pt.count + [R(' ')] + NumberText(pt.value) }

  /** Points from the j-th on, each after a space. */
  function PrintPoints(points: seq<Point>, j: nat): Text
    requires j <= |points|
    decreases |points| - j
  {
    if j == |points| then [] else [R(' ')] + PrintPoint(points[j]) + PrintPoints(points, j + 1)
  }

  function PrintHistogram(h: Histogram): Text
    requires h.tags != []
  {
    [R('!'), h.interval] + SpaceTimestampText(h.timestamp) + PrintPoints(h.points, 0) + [R(' ')] + Quoted(h.quoted, h.name) + [R(' ')] + PrintTags(h.tags)
  }

  function AfterPoint(pt: Point, st: Parsed): Parsed { st.(text := NumberText(pt.value), value := NumberText(pt.value)) }

  function AfterPoints(points: seq<Point>, j: nat, st: Parsed): Parsed
    requires j <= |points|
    decreases |points| - j
  {
    if j == |points| then st else AfterPoints(points, j + 1, AfterPoint(points[j], st))
  }

  lemma PointParts(buf: seq<Rune>, p: nat, pt: Point)
    requires PointOk(pt) && HasAt(buf, p, PrintPoint(pt))
    ensures var q := p + 1 + |pt.count|;
      && buf[p] == R('#') && (forall i :: p < i < q ==> IsDigit(buf[i])) && q < |buf| && buf[q] == R(' ')
      && HasAt(buf, q + 1, NumberText(pt.value)) && |PrintPoint(pt)| == 2 + |pt.count| + |NumberText(pt.value)|
  {
    HasParts(buf, p, [R('#')] + pt.count + [R(' ')], NumberText(pt.value));
    HasRunes(buf, p, [R('#')] + pt.count + [R(' ')]);
    forall i | p < i < p + 1 + |pt.count| ensures IsDigit(buf[i]) {
      assert IsDigit(pt.count[i - p - 1]);
    }
  }

  lemma PointReads(buf: seq<Rune>, p: nat, r: nat, pt: Point, st: Parsed, st1: Parsed)
    requires PointOk(pt) && HasAt(buf, p, PrintPoint(pt)) && r == p + |PrintPoint(pt)| && r < |buf| && buf[r] == R(' ')
    requires st1 == AfterPoint(pt, st)
    ensures Reads(HISTOGRAM_VALUE, buf, p, r, st, st1)
  {
    var q := p + 1 + |pt.count|;
    PointParts(buf, p, pt);
    ChrReads(R('#'), buf, p, st);
    DigitTakes(buf, p + 1, st);
    DigitsRead(buf, p + 2, q, st);
    ChrReads(R(' '), buf, q, st);
    MetricValueReads(buf, q + 1, r, pt.value, st, st1);
    AssemblePoint(buf, p, q, r, st, st1);
  }

  lemma AssemblePoint(buf: seq<Rune>, p: nat, q: nat, r: nat, st: Parsed, st1: Parsed)
    requires Reads(Chr(R('#')), buf, p, p + 1, st, st) && Reads(DIGIT, buf, p + 1, p + 2, st, st) && Reads(Star(DIGIT), buf, p + 2, q, st, st)
    requires Reads(SPACE, buf, q, q + 1, st, st) && Reads(METRIC_VALUE, buf, q + 1, r, st, st1)
    ensures Reads(HISTOGRAM_VALUE, buf, p, r, st, st1)
  {
    var e := HISTOGRAM_VALUE_CAT;
    CatStart(e, buf, p, st);
    CatNext(e, 0, buf, p, p, p + 1, st, st, st);
    CatNext(e, 1, buf, p, p + 1, p + 2, st, st, st);
    CatNext(e, 2, buf, p, p + 2, q, st, st, st);
    CatNext(e, 3, buf, p, q, q + 1, st, st, st);
    CatNext(e, 4, buf, p, q + 1, r, st, st, st1);
    CatEnd(e, buf, p, r, st, st1);
    NodeReads(HistogramValue, e, buf, p, r, st, st1);
  }

  lemma NoMorePoints(buf: seq<Rune>, p: nat, st: Parsed)
    requires p + 1 < |buf| && buf[p] == R(' ') && buf[p + 1] != R('#')
    ensures Reads(Star(SPACE_HISTOGRAM_VALUE), buf, p, p, st, st)
  {
    CatStart(HISTOGRAM_VALUE_CAT, buf, p + 1, st);
    CatBreaks(HISTOGRAM_VALUE_CAT, 0, buf, p + 1, p + 1, st, st);
    CatStart(SPACE_HISTOGRAM_VALUE, buf, p, st);
    ChrReads(R(' '), buf, p, st);
    CatNext(SPACE_HISTOGRAM_VALUE, 0, buf, p, p, p + 1, st, st, st);
    CatBreaks(SPACE_HISTOGRAM_VALUE, 1, buf, p, p + 1, st, st);
  }

  /** After each point comes a space. */
  lemma PointsParts(buf: seq<Rune>, p: nat, points: seq<Point>, j: nat)
    requires j < |points| && HasAt(buf, p, PrintPoints(points, j)) && p + |PrintPoints(points, j)| < |buf|
    requires buf[p + |PrintPoints(points, j)|] == R(' ')
    ensures var q := p + 1 + |PrintPoint(points[j])|;
      && buf[p] == R(' ') && HasAt(buf, p + 1, PrintPoint(points[j])) && HasAt(buf, q, PrintPoints(points, j + 1))
      && q < |buf| && buf[q] == R(' ') && |PrintPoints(points, j)| == 1 + |PrintPoint(points[j])| + |PrintPoints(points, j + 1)|
  {
    var text, rest := PrintPoint(points[j]), PrintPoints(points, j + 1);
    HasParts(buf, p, [R(' ')] + text, rest);
    HasParts(buf, p, [R(' ')], text);
    HasRunes(buf, p, [R(' ')]);
    HasRunes(buf, p + 1 + |text|, rest);
  }

  lemma {:induction false} MorePointsRead(buf: seq<Rune>, p: nat, r: nat, points: seq<Point>, j: nat, st: Parsed)
    requires j <= |points| && (forall i :: 0 <= i < |points| ==> PointOk(points[i])) && HasAt(buf, p, PrintPoints(points, j))
    requires r == p + |PrintPoints(points, j)| && r + 1 < |buf| && buf[r] == R(' ') && buf[r + 1] != R('#')
    ensures Reads(Star(SPACE_HISTOGRAM_VALUE), buf, p, r, st, AfterPoints(points, j, st))
    decreases |points| - j
  {
    if j == |points| {
      NoMorePoints(buf, p, st);
    } else {
      var q, st1 := p + 1 + |PrintPoint(points[j])|, AfterPoint(points[j], st);
      PointsParts(buf, p, points, j);
      ChrReads(R(' '), buf, p, st);
      PointReads(buf, p + 1, q, points[j], st, st1);
      Cat2Reads(SPACE, HISTOGRAM_VALUE, buf, p, p + 1, q, st, st, st1);
      MorePointsRead(buf, q, r, points, j + 1, st1);
      StarStep(SPACE_HISTOGRAM_VALUE, buf, p, q, r, st, st1, AfterPoints(points, j + 1, st1));
    }
  }

  /** The points: the space before the first one belongs to the line. */
  lemma {:induction false} PointsRead(buf: seq<Rune>, p: nat, r: nat, points: seq<Point>, st: Parsed, st2: Parsed)
    requires points != [] && (forall i :: 0 <= i < |points| ==> PointOk(points[i])) && HasAt(buf, p, PrintPoints(points, 0))
    requires r == p + |PrintPoints(points, 0)| && r + 1 < |buf| && buf[r] == R(' ') && buf[r + 1] != R('#') && st2 == AfterPoints(points, 0, st)
    ensures buf[p] == R(' ') && Reads(HISTOGRAM_VALUES, buf, p + 1, r, st, st2)
  {
    var q, st1 := p + 1 + |PrintPoint(points[0])|, AfterPoint(points[0], st);
    PointsParts(buf, p, points, 0);
    PointReads(buf, p + 1, q, points[0], st, st1);
    MorePointsRead(buf, q, r, points, 1, st1);
    Cat2Reads(HISTOGRAM_VALUE, Star(SPACE_HISTOGRAM_VALUE), buf, p + 1, q, r, st, st1, st2);
    NodeReads(HistogramValues, HISTOGRAM_VALUES_CAT, buf, p + 1, r, st, st2);
  }

  lemma IntervalReads(buf: seq<Rune>, st: Parsed)
    requires 2 <= |buf| && buf[0] == R('!') && buf[1] in [R('M'), R('H'), R('D')]
    ensures Reads(AGGREGATION_INTERVAL, buf, 0, 2, st, st.(histogram := true))
  {
    var letters := OneOf([R('D'), R('H'), R('M')]);
    ChrReads(R('!'), buf, 0, st);
    assert Reads(letters, buf, 1, 2, st, st);
    ActReads(Action0, buf, 2, st);
    Cat3Reads(Chr(R('!')), letters, Act(Action0), buf, 0, 1, 2, 2, st, st, st, st.(histogram := true));
    NodeReads(AggregationInterval, INTERVAL_CAT, buf, 0, 2, st, st.(histogram := true));
  }

  /** Where the parts of a printed line are: after the interval, and from the spaces at b, c and d on. */
  ghost predicate TimeLaid(buf: seq<Rune>, b: nat, t: Text) {
    HasAt(buf, 2, SpaceTimestampText(t)) && b == 2 + |SpaceTimestampText(t)|
  }

  ghost predicate PointsLaid(buf: seq<Rune>, b: nat, c: nat, points: seq<Point>) {
    HasAt(buf, b, PrintPoints(points, 0)) && c == b + |PrintPoints(points, 0)| && c + 1 < |buf| && buf[c] == R(' ')
  }

  ghost predicate NameLaid(buf: seq<Rune>, c: nat, d: nat, quoted: bool, name: Text) {
    HasAt(buf, c + 1, Quoted(quoted, name)) && d == c + 1 + |Quoted(quoted, name)| && d < |buf| && buf[d] == R(' ')
  }

  ghost predicate TagsLaid(buf: seq<Rune>, d: nat, tags: seq<TagText>)
    requires tags != []
  {
    HasAt(buf, d + 1, PrintTags(tags)) && d + 1 + |PrintTags(tags)| == |buf| - 1 && buf[|buf| - 1] == END_SYMBOL
  }

  lemma HistogramConcat(start: Text, time: Text, points: Text, name: Text, tags: Text, buf: seq<Rune>, b: nat, c: nat, d: nat)
    requires |start| == 2 && buf == start + time + points + [R(' ')] + name + [R(' ')] + tags + [END_SYMBOL]
    requires b == 2 + |time| && c == b + |points| && d == c + 1 + |name|
    ensures
      && d + 1 + |tags| == |buf| - 1 && buf[|buf| - 1] == END_SYMBOL && buf[0] == start[0] && buf[1] == start[1] && buf[c] == R(' ') && buf[d] == R(' ')
      && HasAt(buf, 2, time) && HasAt(buf, b, points) && HasAt(buf, c + 1, name) && HasAt(buf, d + 1, tags)
  {
    var head := start + time + points;
    var first := head + [R(' ')] + name;
    assert HasAt(buf, 0, first + [R(' ')] + tags);
    HasParts(buf, 0, first + [R(' ')], tags);
    HasParts(buf, 0, first, [R(' ')]);
    HasRunes(buf, |first|, [R(' ')]);
    HasParts(buf, 0, head + [R(' ')], name);
    HasParts(buf, 0, head, [R(' ')]);
    HasRunes(buf, |head|, [R(' ')]);
    HasParts(buf, 0, start + time, points);
    HasParts(buf, 0, start, time);
    HasRunes(buf, 0, start);
  }

  lemma PointsFollow(buf: seq<Rune>, b: nat, c: nat, points: seq<Point>)
    requires points != [] && PointOk(points[0]) && PointsLaid(buf, b, c, points)
    ensures b + 1 < |buf| && buf[b] == R(' ') && buf[b + 1] == R('#')
  {
    PointsParts(buf, b, points, 0);
    PointParts(buf, b + 1, points[0]);
  }

  lemma TimestampBeforePoints(buf: seq<Rune>, b: nat, t: Text, st: Parsed, st1: Parsed)
    requires (t == [] || TimestampOk(t)) && st1 == AfterTimestamp(t, st) && TimeLaid(buf, b, t)
    requires b + 1 < |buf| && buf[b] == R(' ') && buf[b + 1] == R('#')
    ensures Reads(Opt(SPACE_TIMESTAMP), buf, 2, b, st, st1)
  {
    if t == [] {
      TimestampFails(buf, 3, 0);
      NoTimestampSkipped(buf, 2, b, st, st1);
    } else {
      SpaceTimestampReads(buf, 2, b, t, st, st1);
    }
  }

  lemma NameStarts(buf: seq<Rune>, c: nat, d: nat, quoted: bool, name: Text)
    requires NameOk(name) && NameLaid(buf, c, d, quoted, name)
    ensures c + 1 < |buf| && buf[c + 1] != R('#')
  {
    HasRunes(buf, c + 1, Quoted(quoted, name));
    var first := Quoted(quoted, name)[0];
    assert buf[c + 1] == first;
    if !quoted && NameBody(name) == 0 {
      assert IsNameRune(name[0]);
    }
  }

  lemma Cat9Begins(e: Exp, buf: seq<Rune>, b: nat, c: nat, st: Parsed, st1: Parsed, st2: Parsed, st3: Parsed)
    requires e.Cat? && |e.es| == 9
    requires Reads(e.es[0], buf, 0, 2, st, st1) && Reads(e.es[1], buf, 2, b, st1, st2)
    requires Reads(e.es[2], buf, b, b + 1, st2, st2) && Reads(e.es[3], buf, b + 1, c, st2, st3)
    ensures ReadsCat(e, 4, buf, 0, c, st, st3)
  {
    CatStart(e, buf, 0, st);
    CatNext(e, 0, buf, 0, 0, 2, st, st, st1);
    CatNext(e, 1, buf, 0, 2, b, st, st1, st2);
    CatNext(e, 2, buf, 0, b, b + 1, st, st2, st2);
    CatNext(e, 3, buf, 0, b + 1, c, st, st2, st3);
  }

  lemma Cat9Ends(e: Exp, buf: seq<Rune>, c: nat, d: nat, n: nat, st: Parsed, st3: Parsed, st4: Parsed, st5: Parsed)
    requires e.Cat? && |e.es| == 9 && ReadsCat(e, 4, buf, 0, c, st, st3)
    requires Reads(e.es[4], buf, c, c + 1, st3, st3) && Reads(e.es[5], buf, c + 1, d, st3, st4) && Reads(e.es[6], buf, d, d + 1, st4, st4)
    requires Reads(e.es[7], buf, d + 1, n, st4, st5) && Reads(e.es[8], buf, n, n, st5, st5)
    ensures Reads(e, buf, 0, n, st, st5)
  {
    CatNext(e, 4, buf, 0, c, c + 1, st, st3, st3);
    CatNext(e, 5, buf, 0, c + 1, d, st, st3, st4);
    CatNext(e, 6, buf, 0, d, d + 1, st, st4, st4);
    CatNext(e, 7, buf, 0, d + 1, n, st, st4, st5);
    CatNext(e, 8, buf, 0, n, n, st, st5, st5);
    CatEnd(e, buf, 0, n, st, st5);
  }

  lemma AssembleHistogram(buf: seq<Rune>, b: nat, c: nat, d: nat, st1: Parsed, st2: Parsed, st3: Parsed, st4: Parsed, st5: Parsed)
    requires b < |buf| && c < |buf| && d < |buf| && buf[|buf| - 1] == END_SYMBOL && buf[b] == buf[c] == buf[d] == R(' ')
    requires Reads(AGGREGATION_INTERVAL, buf, 0, 2, START, st1) && Reads(Opt(SPACE_TIMESTAMP), buf, 2, b, st1, st2)
    requires Reads(HISTOGRAM_VALUES, buf, b + 1, c, st2, st3) && Reads(METRIC_NAME, buf, c + 1, d, st3, st4)
    requires Reads(TAGS, buf, d + 1, |buf| - 1, st4, st5)
    ensures Reads(HISTOGRAM_LINE, buf, 0, |buf| - 1, START, st5)
  {
    var n := |buf| - 1;
    ChrReads(R(' '), buf, b, st2);
    ChrReads(R(' '), buf, c, st3);
    ChrReads(R(' '), buf, d, st4);
    assert Reads(Not(Dot), buf, n, n, st5, st5);
    Cat9Begins(HISTOGRAM_LINE, buf, b, c, START, st1, st2, st3);
    Cat9Ends(HISTOGRAM_LINE, buf, c, d, n, START, st3, st4, st5);
  }

  lemma NameRead(buf: seq<Rune>, c: nat, d: nat, quoted: bool, name: Text, st3: Parsed, st4: Parsed)
    requires NameOk(name) && NameLaid(buf, c, d, quoted, name) && st4 == st3.(text := name, name := name)
    ensures Reads(METRIC_NAME, buf, c + 1, d, st3, st4)
  {
    MetricNameReads(buf, c + 1, d, quoted, name, st3, st4);
  }

  lemma {:induction false} TagsAtEnd(buf: seq<Rune>, d: nat, tags: seq<TagText>, st4: Parsed, st5: Parsed)
    requires TagsOk(tags) && TagsLaid(buf, d, tags) && st5 == AfterRest(tags, 0, st4.(tags := map[]))
    ensures Reads(TAGS, buf, d + 1, |buf| - 1, st4, st5)
  {
    TagsPartReads(buf, d, tags, st4, st5);
  }

  lemma {:induction false} PointsBetween(buf: seq<Rune>, b: nat, c: nat, points: seq<Point>, st2: Parsed, st3: Parsed)
    requires points != [] && (forall i :: 0 <= i < |points| ==> PointOk(points[i])) && PointsLaid(buf, b, c, points)
    requires buf[c + 1] != R('#') && st3 == AfterPoints(points, 0, st2)
    ensures Reads(HISTOGRAM_VALUES, buf, b + 1, c, st2, st3)
  {
    PointsRead(buf, b, c, points, st2, st3);
  }

  lemma {:induction false} HistogramReads(h: Histogram, buf: seq<Rune>, b: nat, c: nat, d: nat)
    requires HistogramOk(h) && 2 <= |buf| && buf[0] == R('!') && buf[1] == h.interval && buf[|buf| - 1] == END_SYMBOL
    requires TimeLaid(buf, b, h.timestamp) && PointsLaid(buf, b, c, h.points)
    requires NameLaid(buf, c, d, h.quoted, h.name) && TagsLaid(buf, d, h.tags)
    ensures Eval(HISTOGRAM_LINE, buf, 0).Match?
  {
    var st1 := START.(histogram := true);
    var st2 := AfterTimestamp(h.timestamp, st1);
    var st3 := AfterPoints(h.points, 0, st2);
    var st4 := st3.(text := h.name, name := h.name);
    var st5 := AfterRest(h.tags, 0, st4.(tags := map[]));
    PointsFollow(buf, b, c, h.points);
    NameStarts(buf, c, d, h.quoted, h.name);
    IntervalReads(buf, START);
    TimestampBeforePoints(buf, b, h.timestamp, st1, st2);
    PointsBetween(buf, b, c, h.points, st2, st3);
    NameRead(buf, c, d, h.quoted, h.name, st3, st4);
    TagsAtEnd(buf, d, h.tags, st4, st5);
    AssembleHistogram(buf, b, c, d, st1, st2, st3, st4, st5);
  }

  lemma PrintedHistogramLaid(h: Histogram, buf: seq<Rune>) returns (b: nat, c: nat, d: nat)
    requires h.tags != [] && buf == PrintHistogram(h) + [END_SYMBOL]
    ensures 2 <= |buf| && buf[0] == R('!') && buf[1] == h.interval && buf[|buf| - 1] == END_SYMBOL
    ensures TimeLaid(buf, b, h.timestamp) && PointsLaid(buf, b, c, h.points)
    ensures NameLaid(buf, c, d, h.quoted, h.name) && TagsLaid(buf, d, h.tags)
  {
    var time, points, name := SpaceTimestampText(h.timestamp), PrintPoints(h.points, 0), Quoted(h.quoted, h.name);
    b := 2 + |time|;
    c := b + |points|;
    d := c + 1 + |name|;
    HistogramConcat([R('!'), h.interval], time, points, name, PrintTags(h.tags), buf, b, c, d);
  }

  lemma {:induction false} PrintedHistogramMatches(h: Histogram)
    requires HistogramOk(h)
    ensures Eval(HISTOGRAM_LINE, PrintHistogram(h) + [END_SYMBOL], 0).Match?
  {
    var buf := PrintHistogram(h) + [END_SYMBOL];
    var b, c, d := PrintedHistogramLaid(h, buf);
    HistogramReads(h, buf, b, c, d);
  }

  /** A printed histogram line is recognised as one, and yields no metric. */
  lemma {:induction false} HistogramRoundTrip(h: Histogram)
    requires HistogramOk(h)
    ensures Meaning(PrintHistogram(h)) == HistogramLine
  {
    PrintedHistogramMatches(h);
    HistogramsRecognised(PrintHistogram(h));
  }
}
