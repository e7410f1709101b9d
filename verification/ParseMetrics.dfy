/** ParseMetric of internal/testproxy/metrics/metric.go, and its round trip with the printer. */
module ParseMetrics {
  import opened Peg
  import opened MetricGrammar
  import opened MetricParser
  import opened ParseActions
  import opened Reading
  import opened MetricLines
  import opened TagLines
  import opened LineRoundTrip

  datatype ParseResult = ParseError | HistogramLine | Metric(name: Text, value: Text, timestamp: Text, tags: map<Text, Text>)

  /** What a line means according to the grammar and its actions. */
  function Meaning(line: Text): ParseResult {
    match Eval(GRAMMAR, line + [END_SYMBOL], 0)
    case Fail => ParseError
    case Match(_, tokens) => ResultOf(Exec(tokens, |tokens|, line + [END_SYMBOL], START))
  }

  function ResultOf(st: Parsed): ParseResult {
    if st.histogram then HistogramLine else Metric(st.name, st.value, st.timestamp, st.tags)
  }

  method ParseMetric(line: Text) returns (r: ParseResult)
    requires END_SYMBOL !in line
    ensures r == Meaning(line)
  {
    var g := new Parser(line);
    var ok := g.Parse();
    if !ok {
      return ParseError;
    }
    TokensNest(GRAMMAR, g.buffer, 0);
    var st := Execute(g.tree, g.buffer);
    r := ResultOf(st);
  }

  /** The tokens that Parse leaves make a tree: the grammar rule is its one root. */
  method SyntaxTree(line: Text) returns (ok: bool, root: Tree)
    requires END_SYMBOL !in line
    ensures ok <==> Meaning(line) != ParseError
    ensures ok ==>
      var tokens := Eval(GRAMMAR, line + [END_SYMBOL], 0).tokens;
      && root.Tree? && root.token == Token(MetricGrammarRule, 0, |line|) && root.next == Nil
      && Postorder(root) == Nonempty(tokens, |tokens|) && Nests(root, 0, |line|)
  {
    var g := new Parser(line);
    ok := g.Parse();
    root := Nil;
    if ok {
      GrammarTokens(line);
      root := AST(g.tree);
    }
  }

  /** A successful parse covers the whole line, and its last token says so. */
  lemma {:induction false} GrammarTokens(line: Text)
    requires END_SYMBOL !in line && Eval(GRAMMAR, line + [END_SYMBOL], 0).Match?
    ensures var r := Eval(GRAMMAR, line + [END_SYMBOL], 0);
      r.pos == |line| && r.tokens != [] && r.tokens[|r.tokens| - 1] == Token(MetricGrammarRule, 0, |line|) && Covered(r.tokens)
  {
    var buf := line + [END_SYMBOL];
    TokensNest(GRAMMAR, buf, 0);
    WholeLine(buf);
  }

  /** Both kinds of line end with !. and contain a space. */
  lemma {:induction false} WholeLine(buf: seq<Rune>)
    requires buf != [] && Eval(GRAMMAR, buf, 0).Match?
    requires forall i :: 0 <= i < |buf| ==> (buf[i] == END_SYMBOL <==> i == |buf| - 1)
    ensures Eval(GRAMMAR, buf, 0).pos == |buf| - 1 > 0
  {
    GrammarStops(buf);
    GrammarEnds(buf);
  }

  lemma {:induction false} GrammarEnds(buf: seq<Rune>)
    requires Eval(GRAMMAR, buf, 0).Match?
    ensures var q := Eval(GRAMMAR, buf, 0).pos; q > 0 && (q == |buf| || buf[q] == END_SYMBOL)
  {
    var e := LineMatched(buf);
    LineEnds(e, buf);
  }

  lemma {:induction false} GrammarStops(buf: seq<Rune>)
    requires buf != [] && buf[|buf| - 1] == END_SYMBOL && Eval(GRAMMAR, buf, 0).Match?
    ensures Eval(GRAMMAR, buf, 0).pos < |buf|
  {
    GrammarIsSound();
    StopsAtEnd(GRAMMAR, buf, 0);
  }

  lemma LineMatched(buf: seq<Rune>) returns (e: Exp)
    requires Eval(GRAMMAR, buf, 0).Match?
    ensures Eval(e, buf, 0).Match? && Eval(e, buf, 0).pos == Eval(GRAMMAR, buf, 0).pos
    ensures e.Cat? && |e.es| >= 1 && e.es[|e.es| - 1] == Not(Dot) && exists i :: 0 <= i < |e.es| && e.es[i] == SPACE
  {
    if Eval(HISTOGRAM_LINE, buf, 0).Match? {
      e := HISTOGRAM_LINE;
      assert e.es[2] == SPACE;
    } else {
      e := METRIC_LINE;
      assert e.es[1] == SPACE;
    }
  }

  lemma {:induction false} LineEnds(e: Exp, buf: seq<Rune>)
    requires e.Cat? && |e.es| >= 1 && e.es[|e.es| - 1] == Not(Dot)
    requires Eval(e, buf, 0).Match? && exists i :: 0 <= i < |e.es| && e.es[i] == SPACE
    ensures var q := Eval(e, buf, 0).pos; q > 0 && (q == |buf| || buf[q] == END_SYMBOL)
  {
    var i :| 0 <= i < |e.es| && e.es[i] == SPACE;
    CatConsumesInput(e, i, |e.es|, buf, 0);
    var r := EvalCat(e, |e.es| - 1, buf, 0);
    assert Eval(Not(Dot), buf, r.pos).Match? && Eval(Dot, buf, r.pos).Fail?;
  }

  // ---- The round trip --------------------------------------------------------------------------

  /** Name to value, the last tag of a name winning. */
  function TagMap(tags: seq<TagText>, j: nat, m: map<Text, Text>): map<Text, Text>
    requires j <= |tags|
    decreases |tags| - j
  {
    if j == |tags| then m else TagMap(tags, j + 1, m[tags[j].name := tags[j].value])
  }

  function MetricOf(l: Line): ParseResult {
    Metric(l.name, NumberText(l.value), l.timestamp, TagMap(l.tags, 0, map[]))
  }

  lemma {:induction false} RestKeepsFields(tags: seq<TagText>, j: nat, st: Parsed)
    requires j <= |tags|
    ensures var st1 := AfterRest(tags, j, st);
      st1.histogram == st.histogram && st1.name == st.name && st1.value == st.value && st1.timestamp == st.timestamp &&
      st1.tags == TagMap(tags, j, st.tags)
    decreases |tags| - j
  {
    if j < |tags| {
      RestKeepsFields(tags, j + 1, AfterTag(tags[j], st));
    }
  }

  /**
   * Parsing a printed line gives back its name, value, timestamp and tags, if and only if it has a
   * timestamp or its first tag cannot be taken for one; otherwise parsing fails.
   */
  lemma RoundTrip(l: Line)
    requires LineOk(l)
    ensures Meaning(Print(l)) == if Ambiguous(l) then ParseError else MetricOf(l)
    ensures Meaning(Print(l)) == MetricOf(l) <==> !Ambiguous(l)
  {
    var buf := Print(l) + [END_SYMBOL];
    var a, b, c := PrintedLayout(l, buf);
    FirstRune(l, buf, a, b, c);
    NotHistogram(buf);
    if Ambiguous(l) {
      AmbiguousLineFails(l, buf, a, b, c);
      GrammarFails(buf);
    } else {
      LineReads(l, buf, a, b, c);
      GrammarReads(buf, AfterLine(l));
      RestKeepsFields(l.tags, 0, AfterTimestamp(l.timestamp, AfterValue(l, AfterName(l, START))).(tags := map[]));
    }
  }

  /** m 1 0123456789="v" */
  function AmbiguousLine(): Line {
    Line(false, [R('m')], Number(false, [R('1')], []), [], [TagText(false, seq(10, (i: nat) => R('0') + i), [R('v')])])
  }

  /** Such a line is printed as the grammar wants it, and does not parse. */
  lemma AmbiguousExample()
    ensures var l := AmbiguousLine(); LineOk(l) && Meaning(Print(l)) == ParseError
  {
    var l := AmbiguousLine();
    assert |l.tags[0].name| == 10 && l.tags[0].name[..10] == l.tags[0].name;
    assert LineOk(l) && Ambiguous(l);
    RoundTrip(l);
  }

  lemma GrammarReads(buf: seq<Rune>, st: Parsed)
    requires buf != [] && Fails(HISTOGRAM_LINE, buf, 0) && Reads(METRIC_LINE, buf, 0, |buf| - 1, START, st)
    ensures Reads(GRAMMAR, buf, 0, |buf| - 1, START, st)
  {
    assert Reads(Alt(HISTOGRAM_LINE, METRIC_LINE), buf, 0, |buf| - 1, START, st);
    NodeReads(MetricGrammarRule, Alt(HISTOGRAM_LINE, METRIC_LINE), buf, 0, |buf| - 1, START, st);
  }

  lemma GrammarFails(buf: seq<Rune>)
    requires Fails(HISTOGRAM_LINE, buf, 0) && Fails(METRIC_LINE, buf, 0)
    ensures Fails(GRAMMAR, buf, 0)
  {
    assert Fails(Alt(HISTOGRAM_LINE, METRIC_LINE), buf, 0);
  }

  /** The parsed tags are exactly the printed ones; of several with one name the last counts. */
  lemma {:induction false} TagMapHoldsTags(tags: seq<TagText>, j: nat, m: map<Text, Text>, name: Text)
    requires j <= |tags|
    ensures name in TagMap(tags, j, m) <==> name in m || exists i :: j <= i < |tags| && tags[i].name == name
    ensures forall i :: j <= i < |tags| && tags[i].name == name && (forall k :: i < k < |tags| ==> tags[k].name != name)
              ==> TagMap(tags, j, m)[name] == tags[i].value
    ensures (forall i :: j <= i < |tags| ==> tags[i].name != name) && name in m ==> TagMap(tags, j, m)[name] == m[name]
    decreases |tags| - j
  {
    if j < |tags| {
      TagMapHoldsTags(tags, j + 1, m[tags[j].name := tags[j].value], name);
    }
  }
}
