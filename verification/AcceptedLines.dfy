/** The lines that parse are the printed ones: what each rule of the grammar has matched can be printed. */
module AcceptedLines {
  import opened Peg
  import opened MetricGrammar
  import opened ParseActions
  import opened Reading
  import opened MetricLines
  import opened TagLines
  import opened LineRoundTrip
  import opened ParseMetrics
  import opened HistogramLines

  /** e matches buf[p..q]. */
  ghost predicate Covers(e: Exp, buf: seq<Rune>, p: nat, q: nat) {
    p <= q <= |buf| && Eval(e, buf, p).Match? && Eval(e, buf, p).pos == q
  }

  // ---- Sequences, options and repetitions ----------------------------------------------------------

  ghost predicate CoversCat(e: Exp, k: nat, buf: seq<Rune>, p: nat, q: nat) {
    e.Cat? && k <= |e.es| && p <= q <= |buf| && EvalCat(e, k, buf, p).Match? && EvalCat(e, k, buf, p).pos == q
  }

  lemma CatLast(e: Exp, k: nat, buf: seq<Rune>, p: nat, q: nat) returns (m: nat)
    requires k > 0 && CoversCat(e, k, buf, p, q)
    ensures CoversCat(e, k - 1, buf, p, m) && Covers(e.es[k - 1], buf, m, q)
  {
    m := EvalCat(e, k - 1, buf, p).pos;
  }

  lemma CatFirst(e: Exp, buf: seq<Rune>, p: nat, q: nat)
    requires CoversCat(e, 0, buf, p, q)
    ensures q == p
  {
  }

  lemma Cat2Covers(a: Exp, b: Exp, buf: seq<Rune>, p: nat, q: nat) returns (p1: nat)
    requires Covers(Cat([a, b]), buf, p, q)
    ensures Covers(a, buf, p, p1) && Covers(b, buf, p1, q)
  {
    var e := Cat([a, b]);
    p1 := CatLast(e, 2, buf, p, q);
    var p0 := CatLast(e, 1, buf, p, p1);
    CatFirst(e, buf, p, p0);
  }

  lemma Cat3Covers(a: Exp, b: Exp, c: Exp, buf: seq<Rune>, p: nat, q: nat) returns (p1: nat, p2: nat)
    requires Covers(Cat([a, b, c]), buf, p, q)
    ensures Covers(a, buf, p, p1) && Covers(b, buf, p1, p2) && Covers(c, buf, p2, q)
  {
    var e := Cat([a, b, c]);
    p2 := CatLast(e, 3, buf, p, q);
    p1 := CatLast(e, 2, buf, p, p2);
    var p0 := CatLast(e, 1, buf, p, p1);
    CatFirst(e, buf, p, p0);
  }

  lemma Cat4Covers(a: Exp, b: Exp, c: Exp, d: Exp, buf: seq<Rune>, p: nat, q: nat) returns (p1: nat, p2: nat, p3: nat)
    requires Covers(Cat([a, b, c, d]), buf, p, q)
    ensures Covers(a, buf, p, p1) && Covers(b, buf, p1, p2) && Covers(c, buf, p2, p3) && Covers(d, buf, p3, q)
  {
    var e := Cat([a, b, c, d]);
    p3 := CatLast(e, 4, buf, p, q);
    p2 := CatLast(e, 3, buf, p, p3);
    p1 := CatLast(e, 2, buf, p, p2);
    var p0 := CatLast(e, 1, buf, p, p1);
    CatFirst(e, buf, p, p0);
  }

  lemma NodeCovers(rule: Rule, e: Exp, buf: seq<Rune>, p: nat, q: nat)
    requires Covers(Node(rule, e), buf, p, q)
    ensures Covers(e, buf, p, q)
  {
  }

  lemma ActCovers(rule: Rule, buf: seq<Rune>, p: nat, q: nat)
    requires Covers(Act(rule), buf, p, q)
    ensures q == p
  {
  }

  lemma ChrCovers(c: Rune, buf: seq<Rune>, p: nat, q: nat)
    requires Covers(Chr(c), buf, p, q)
    ensures q == p + 1 && buf[p] == c
  {
  }

  lemma OptCovers(e: Exp, buf: seq<Rune>, p: nat, q: nat)
    requires Covers(Opt(e), buf, p, q)
    ensures if Eval(e, buf, p).Match? then Covers(e, buf, p, q) else q == p
  {
  }

  lemma AltCovers(a: Exp, b: Exp, buf: seq<Rune>, p: nat, q: nat)
    requires Covers(Alt(a, b), buf, p, q)
    ensures Covers(a, buf, p, q) || Covers(b, buf, p, q)
  {
  }

  /** A repetition has matched nothing, or its body once and then itself. */
  lemma StarCovers(e: Exp, buf: seq<Rune>, p: nat, q: nat) returns (m: nat)
    requires Covers(Star(e), buf, p, q)
    ensures p <= m <= q && (m == p ==> q == p) && (m > p ==> Covers(e, buf, p, m) && Covers(Star(e), buf, m, q))
  {
    var r := Eval(e, buf, p);
    m := p;
    if r.Match? && r.pos > p {
      m := r.pos;
      assert Eval(Star(e), buf, p).pos == Eval(Star(e), buf, m).pos;
    }
  }

  /** A prefix goes on with the slice that follows. */
  lemma Extend(buf: seq<Rune>, p: nat, i: nat, j: nat, s: Text)
    requires p <= i <= j <= |buf| && s == buf[i..j]
    ensures buf[p..i] + s == buf[p..j]
  {
  }

  // ---- Runs of single runes --------------------------------------------------------------------------

  lemma RangeCovers(lo: Rune, hi: Rune, buf: seq<Rune>, p: nat, q: nat)
    requires Covers(Range(lo, hi), buf, p, q)
    ensures q == p + 1 && lo <= buf[p] <= hi
  {
  }

  lemma AlnumIs(buf: seq<Rune>, p: nat, q: nat)
    requires Covers(ALNUM, buf, p, q)
    ensures q == p + 1 && IsAlnum(buf[p])
  {
    var digit, upper, lower := Range(R('0'), R('9')), Range(R('A'), R('Z')), Range(R('a'), R('z'));
    NodeCovers(Alnum, Alt(digit, Alt(upper, lower)), buf, p, q);
    AltCovers(digit, Alt(upper, lower), buf, p, q);
    if Covers(digit, buf, p, q) {
      RangeCovers(R('0'), R('9'), buf, p, q);
    } else {
      AltCovers(upper, lower, buf, p, q);
      if Covers(upper, buf, p, q) {
        RangeCovers(R('A'), R('Z'), buf, p, q);
      } else {
        RangeCovers(R('a'), R('z'), buf, p, q);
      }
    }
  }

  lemma OneOfCovers(cs: seq<Rune>, buf: seq<Rune>, p: nat, q: nat)
    requires Covers(OneOf(cs), buf, p, q)
    ensures q == p + 1 && buf[p] in cs
  {
  }

  lemma DigitIs(buf: seq<Rune>, p: nat, q: nat)
    requires Covers(DIGIT, buf, p, q)
    ensures q == p + 1 && IsDigit(buf[p])
  {
    NodeCovers(Digit, Range(R('0'), R('9')), buf, p, q);
    RangeCovers(R('0'), R('9'), buf, p, q);
  }

  lemma {:induction false} DigitsAre(buf: seq<Rune>, p: nat, q: nat)
    requires Covers(Star(DIGIT), buf, p, q)
    ensures forall i :: p <= i < q ==> IsDigit(buf[i])
    decreases q - p
  {
    var m := StarCovers(DIGIT, buf, p, q);
    if m > p {
      DigitIs(buf, p, m);
      DigitsAre(buf, m, q);
    }
  }

  predicate InClass(cs: seq<Rune>, c: Rune) { IsAlnum(c) || c in cs }

  lemma NameCharIs(cs: seq<Rune>, buf: seq<Rune>, p: nat, q: nat)
    requires Covers(Alt(ALNUM, OneOf(cs)), buf, p, q)
    ensures q == p + 1 && InClass(cs, buf[p])
  {
    AltCovers(ALNUM, OneOf(cs), buf, p, q);
    if Covers(ALNUM, buf, p, q) {
      AlnumIs(buf, p, q);
    } else {
      OneOfCovers(cs, buf, p, q);
    }
  }

  lemma {:induction false} NameCharsAre(cs: seq<Rune>, buf: seq<Rune>, p: nat, q: nat)
    requires Covers(Star(Alt(ALNUM, OneOf(cs))), buf, p, q)
    ensures forall i :: p <= i < q ==> InClass(cs, buf[i])
    decreases q - p
  {
    var m := StarCovers(Alt(ALNUM, OneOf(cs)), buf, p, q);
    if m > p {
      NameCharIs(cs, buf, p, m);
      NameCharsAre(cs, buf, m, q);
    }
  }

  /** One or more of a class. */
  lemma RunOf(cs: seq<Rune>, buf: seq<Rune>, p: nat, q: nat)
    requires var c := Alt(ALNUM, OneOf(cs)); Covers(Cat([c, Star(c)]), buf, p, q)
    ensures p < q && forall i :: p <= i < q ==> InClass(cs, buf[i])
  {
    var c := Alt(ALNUM, OneOf(cs));
    var p1 := Cat2Covers(c, Star(c), buf, p, q);
    NameCharIs(cs, buf, p, p1);
    NameCharsAre(cs, buf, p1, q);
  }

  lemma OptChrCovers(c: Rune, buf: seq<Rune>, p: nat, q: nat)
    requires Covers(Opt(Chr(c)), buf, p, q)
    ensures q == if p < |buf| && buf[p] == c then p + 1 else p
  {
    assert Eval(Chr(c), buf, p) == Step(p < |buf| && buf[p] == c, p);
  }

  lemma QuoteCovers(text: Exp, buf: seq<Rune>, p: nat, q: nat)
    requires Covers(Cat([QUOTE, text, QUOTE]), buf, p, q)
    ensures q >= p + 2 && buf[p] == R('"') && Covers(text, buf, p + 1, q - 1) && buf[q - 1] == R('"')
  {
    var p1, p2 := Cat3Covers(QUOTE, text, QUOTE, buf, p, q);
    ChrCovers(R('"'), buf, p, p1);
    ChrCovers(R('"'), buf, p2, q);
  }

  lemma QuotedSlice(buf: seq<Rune>, p: nat, q: nat)
    requires p + 2 <= q <= |buf| && buf[p] == R('"') && buf[q - 1] == R('"')
    ensures buf[p..q] == Quoted(true, buf[p + 1..q - 1])
  {
  }

  // ---- metricName --------------------------------------------------------------------------------------

  lemma NameTextIs(buf: seq<Rune>, p: nat, q: nat)
    requires Covers(NAME_TEXT, buf, p, q)
    ensures NameOk(buf[p..q])
  {
    NodeCovers(PegText, NAME_CAT, buf, p, q);
    var p1, p2, p3 := Cat4Covers(Opt(Chr(INCREMENT)), Opt(Chr(R('~'))), NAME_CHAR, Star(NAME_CHAR), buf, p, q);
    OptChrCovers(INCREMENT, buf, p, p1);
    OptChrCovers(R('~'), buf, p1, p2);
    NameCharIs(NAME_RUNES, buf, p2, p3);
    NameCharsAre(NAME_RUNES, buf, p3, q);
    NameSlice(buf, p, p1, p2, q);
  }

  lemma NameSlice(buf: seq<Rune>, p: nat, p1: nat, p2: nat, q: nat)
    requires p <= p1 <= p2 < q <= |buf| && p1 == (if buf[p] == INCREMENT then p + 1 else p) && p2 == (if buf[p1] == R('~') then p1 + 1 else p1)
    requires forall i :: p2 <= i < q ==> InClass(NAME_RUNES, buf[i])
    ensures NameOk(buf[p..q])
  {
    var name := buf[p..q];
    assert NameBody(name) == p2 - p;
    forall i | p2 - p <= i < |name| ensures IsNameRune(name[i]) {
      assert InClass(NAME_RUNES, buf[p + i]);
    }
  }

  lemma MetricNameIs(buf: seq<Rune>, p: nat, q: nat) returns (quoted: bool, name: Text)
    requires Covers(METRIC_NAME, buf, p, q)
    ensures NameOk(name) && buf[p..q] == Quoted(quoted, name)
  {
    NodeCovers(MetricName, METRIC_NAME_CAT, buf, p, q);
    var p1 := Cat2Covers(Alt(QUOTED_NAME, NAME_TEXT), Act(Action6), buf, p, q);
    ActCovers(Action6, buf, p1, q);
    AltCovers(QUOTED_NAME, NAME_TEXT, buf, p, q);
    quoted := Eval(QUOTED_NAME, buf, p).Match? && Eval(QUOTED_NAME, buf, p).pos == q;
    if quoted {
      QuoteCovers(NAME_TEXT, buf, p, q);
      NameTextIs(buf, p + 1, q - 1);
      QuotedSlice(buf, p, q);
      name := buf[p + 1..q - 1];
    } else {
      NameTextIs(buf, p, q);
      name := buf[p..q];
    }
  }

  // ---- metricValue -------------------------------------------------------------------------------------

  lemma DigitSlice(buf: seq<Rune>, p: nat, q: nat)
    requires p <= q <= |buf| && forall i :: p <= i < q ==> IsDigit(buf[i])
    ensures AllDigits(buf[p..q])
  {
    forall i | 0 <= i < q - p ensures IsDigit(buf[p..q][i]) {
      assert IsDigit(buf[p + i]);
    }
  }

  lemma FractionIs(buf: seq<Rune>, p: nat, q: nat) returns (fraction: Text)
    requires Covers(Opt(FRACTION), buf, p, q)
    ensures AllDigits(fraction) && buf[p..q] == if fraction == [] then [] else [R('.')] + fraction
  {
    OptCovers(FRACTION, buf, p, q);
    if q == p {
      fraction := [];
    } else {
      var p1, p2 := Cat3Covers(Chr(R('.')), DIGIT, Star(DIGIT), buf, p, q);
      ChrCovers(R('.'), buf, p, p1);
      DigitIs(buf, p1, p2);
      DigitsAre(buf, p2, q);
      fraction := buf[p + 1..q];
      DigitSlice(buf, p + 1, q);
      assert buf[p..q] == [buf[p]] + buf[p + 1..q];
    }
  }

  lemma ValueDigitsAre(buf: seq<Rune>, p: nat, q: nat) returns (n: Number)
    requires Covers(VALUE_CAT, buf, p, q)
    ensures NumberOk(n) && NumberText(n) == buf[p..q]
  {
    var p1, p2, p3 := Cat4Covers(Opt(Chr(R('-'))), DIGIT, Star(DIGIT), Opt(FRACTION), buf, p, q);
    OptChrCovers(R('-'), buf, p, p1);
    DigitIs(buf, p1, p2);
    DigitsAre(buf, p2, p3);
    var fraction := FractionIs(buf, p3, q);
    n := Number(p1 > p, buf[p1..p3], fraction);
    DigitSlice(buf, p1, p3);
    NumberSlice(buf, p, p1, p3, q, n);
  }

  lemma SignSlice(buf: seq<Rune>, p: nat, p1: nat, n: Number)
    requires p <= p1 <= |buf| && p < |buf| && p1 == (if buf[p] == R('-') then p + 1 else p) && n.negative == (p1 > p)
    ensures buf[p..p1] == Sign(n)
  {
  }

  lemma NumberSlice(buf: seq<Rune>, p: nat, p1: nat, p3: nat, q: nat, n: Number)
    requires p <= p1 < p3 <= q <= |buf| && p1 == (if buf[p] == R('-') then p + 1 else p)
    requires n.negative == (p1 > p) && n.whole == buf[p1..p3] && buf[p3..q] == FractionText(n)
    ensures NumberText(n) == buf[p..q]
  {
    SignSlice(buf, p, p1, n);
    Extend(buf, p, p1, p3, n.whole);
    Extend(buf, p, p3, q, FractionText(n));
  }

  lemma MetricValueIs(buf: seq<Rune>, p: nat, q: nat) returns (n: Number)
    requires Covers(METRIC_VALUE, buf, p, q)
    ensures NumberOk(n) && NumberText(n) == buf[p..q]
  {
    NodeCovers(MetricValue, METRIC_VALUE_CAT, buf, p, q);
    var p1 := Cat2Covers(Node(PegText, VALUE_CAT), Act(Action5), buf, p, q);
    ActCovers(Action5, buf, p1, q);
    NodeCovers(PegText, VALUE_CAT, buf, p, q);
    n := ValueDigitsAre(buf, p, q);
  }

  // ---- timestamp ---------------------------------------------------------------------------------------

  lemma {:induction false} TenDigitsAre(buf: seq<Rune>, p: nat, k: nat, q: nat)
    requires k <= 10 && CoversCat(TIMESTAMP_DIGITS, k, buf, p, q)
    ensures q == p + k && forall i :: p <= i < q ==> IsDigit(buf[i])
  {
    if k == 0 {
      CatFirst(TIMESTAMP_DIGITS, buf, p, q);
    } else {
      var m := CatLast(TIMESTAMP_DIGITS, k, buf, p, q);
      TenDigitsAre(buf, p, k - 1, m);
      MandatoryDigit(k - 1);
      DigitIs(buf, m, q);
    }
  }

  lemma OptThreeIs(buf: seq<Rune>, p: nat, q: nat)
    requires Covers(Opt(THREE_DIGITS), buf, p, q)
    ensures (q == p || q == p + 3) && forall i :: p <= i < q ==> IsDigit(buf[i])
  {
    OptCovers(THREE_DIGITS, buf, p, q);
    if q != p {
      var p1, p2 := Cat3Covers(DIGIT, DIGIT, DIGIT, buf, p, q);
      DigitIs(buf, p, p1);
      DigitIs(buf, p1, p2);
      DigitIs(buf, p2, q);
    }
  }

  lemma TimestampDigitsAre(buf: seq<Rune>, p: nat, q: nat)
    requires CoversCat(TIMESTAMP_DIGITS, 12, buf, p, q)
    ensures TimestampOk(buf[p..q])
  {
    var p2 := CatLast(TIMESTAMP_DIGITS, 12, buf, p, q);
    var p1 := CatLast(TIMESTAMP_DIGITS, 11, buf, p, p2);
    TenDigitsAre(buf, p, 10, p1);
    assert TIMESTAMP_DIGITS.es[10] == Opt(THREE_DIGITS) == TIMESTAMP_DIGITS.es[11];
    OptThreeIs(buf, p1, p2);
    OptThreeIs(buf, p2, q);
  }

  lemma SpaceTimestampIs(buf: seq<Rune>, p: nat, q: nat) returns (t: Text)
    requires Covers(Opt(SPACE_TIMESTAMP), buf, p, q)
    ensures (t == [] || TimestampOk(t)) && buf[p..q] == SpaceTimestampText(t)
  {
    OptCovers(SPACE_TIMESTAMP, buf, p, q);
    if q == p {
      t := [];
    } else {
      var p1 := Cat2Covers(SPACE, TIMESTAMP, buf, p, q);
      ChrCovers(R(' '), buf, p, p1);
      TimestampIs(buf, p1, q);
      t := buf[p1..q];
      assert buf[p..q] == [R(' ')] + t;
    }
  }

  lemma TimestampIs(buf: seq<Rune>, p: nat, q: nat)
    requires Covers(TIMESTAMP, buf, p, q)
    ensures TimestampOk(buf[p..q])
  {
    NodeCovers(Timestamp, TIMESTAMP_CAT, buf, p, q);
    var p1 := Cat2Covers(Node(PegText, TIMESTAMP_DIGITS), Act(Action4), buf, p, q);
    ActCovers(Action4, buf, p1, q);
    NodeCovers(PegText, TIMESTAMP_DIGITS, buf, p, q);
    TimestampDigitsAre(buf, p, q);
  }

  // ---- tags ----------------------------------------------------------------------------------------------

  lemma TagTextIs(cs: seq<Rune>, quoted: bool, buf: seq<Rune>, p: nat, q: nat)
    requires cs == if quoted then QUOTED_TAG_RUNES else TAG_RUNES
    requires var c := Alt(ALNUM, OneOf(cs)); Covers(Node(PegText, Cat([c, Star(c)])), buf, p, q)
    ensures TagNameOk(quoted, buf[p..q])
  {
    var c := Alt(ALNUM, OneOf(cs));
    NodeCovers(PegText, Cat([c, Star(c)]), buf, p, q);
    RunOf(cs, buf, p, q);
    forall i | 0 <= i < q - p ensures InClass(cs, buf[p..q][i]) {
      assert InClass(cs, buf[p + i]);
    }
  }

  lemma TagNameIs(buf: seq<Rune>, p: nat, q: nat) returns (quoted: bool, name: Text)
    requires Covers(TAG_NAME, buf, p, q)
    ensures TagNameOk(quoted, name) && buf[p..q] == Quoted(quoted, name)
  {
    NodeCovers(TagName, TAG_NAME_CAT, buf, p, q);
    var p1 := Cat2Covers(Alt(QUOTED_TAG_NAME, Node(PegText, TAG_TEXT)), Act(Action2), buf, p, q);
    ActCovers(Action2, buf, p1, q);
    AltCovers(QUOTED_TAG_NAME, Node(PegText, TAG_TEXT), buf, p, q);
    quoted := Eval(QUOTED_TAG_NAME, buf, p).Match? && Eval(QUOTED_TAG_NAME, buf, p).pos == q;
    if quoted {
      QuoteCovers(Node(PegText, QUOTED_TAG_TEXT), buf, p, q);
      TagTextIs(QUOTED_TAG_RUNES, true, buf, p + 1, q - 1);
      QuotedSlice(buf, p, q);
      name := buf[p + 1..q - 1];
    } else {
      TagTextIs(TAG_RUNES, false, buf, p, q);
      name := buf[p..q];
    }
  }

  /** One unit: an escaped quote, or a rune that is no quote and not the backslash of one. */
  lemma UnitIs(buf: seq<Rune>, p: nat, q: nat)
    requires Covers(VALUE_UNIT, buf, p, q)
    ensures p < |buf| && buf[p] != END_SYMBOL && buf[p] != R('"')
    ensures if p + 1 < |buf| && buf[p] == R('\\') && buf[p + 1] == R('"') then q == p + 2 else q == p + 1
  {
    if Eval(ESCAPED_QUOTE, buf, p).Match? {
      var p1 := Cat2Covers(Chr(R('\\')), QUOTE, buf, p, q);
      ChrCovers(R('\\'), buf, p, p1);
      ChrCovers(R('"'), buf, p1, q);
    } else {
      assert Covers(UNQUOTED, buf, p, q);
      var p1 := Cat2Covers(Not(QUOTE), Dot, buf, p, q);
      assert p1 == p && Eval(QUOTE, buf, p).Fail? && q == p + 1;
      if p + 1 < |buf| && buf[p] == R('\\') && buf[p + 1] == R('"') {
        ChrReads(R('\\'), buf, p, START);
        ChrReads(R('"'), buf, p + 1, START);
        Cat2Reads(Chr(R('\\')), QUOTE, buf, p, p + 1, p + 2, START, START, START);
      }
    }
  }

  /** Each quote from p on comes after a backslash, and none stands right behind. */
  ghost predicate UnitsTo(buf: seq<Rune>, p: nat, q: nat) {
    p <= q <= |buf| && (p < q && q < |buf| && buf[q] == R('"') ==> buf[q - 1] != R('\\')) && forall i :: p <= i < q ==> UnitRune(buf, p, i)
  }

  lemma UnitThen(buf: seq<Rune>, p: nat, m: nat, q: nat)
    requires Covers(VALUE_UNIT, buf, p, m) && UnitsTo(buf, m, q)
    ensures p < q && UnitsTo(buf, p, q)
  {
    UnitIs(buf, p, m);
    forall i | p <= i < q ensures UnitRune(buf, p, i) {
      if i >= m {
        assert UnitRune(buf, m, i);
      }
    }
  }

  lemma {:induction false} UnitsAre(buf: seq<Rune>, p: nat, q: nat)
    requires Covers(Star(VALUE_UNIT), buf, p, q)
    ensures UnitsTo(buf, p, q)
    decreases q - p
  {
    var m := StarCovers(VALUE_UNIT, buf, p, q);
    if m > p {
      UnitsAre(buf, m, q);
      UnitThen(buf, p, m, q);
    }
  }

  lemma ValueSlice(buf: seq<Rune>, p: nat, q: nat)
    requires UnitsTo(buf, p, q) && p < q < |buf| && buf[q] == R('"')
    ensures ValueOk(buf[p..q])
  {
    var v := buf[p..q];
    forall i | 0 <= i < |v| ensures UnitRune(v, 0, i) {
      assert UnitRune(buf, p, p + i);
    }
  }

  lemma TagValueIs(buf: seq<Rune>, p: nat, q: nat) returns (value: Text)
    requires Covers(TAG_VALUE, buf, p, q)
    ensures ValueOk(value) && buf[p..q] == Quoted(true, value)
  {
    NodeCovers(TagValue, TAG_VALUE_CAT, buf, p, q);
    var p1, p2, p3 := Cat4Covers(QUOTE, Node(PegText, VALUE_UNITS), QUOTE, Act(Action3), buf, p, q);
    ActCovers(Action3, buf, p3, q);
    ChrCovers(R('"'), buf, p, p1);
    ChrCovers(R('"'), buf, p2, p3);
    NodeCovers(PegText, VALUE_UNITS, buf, p1, p2);
    var m := Cat2Covers(VALUE_UNIT, Star(VALUE_UNIT), buf, p1, p2);
    UnitsAre(buf, m, p2);
    UnitThen(buf, p1, m, p2);
    ValueSlice(buf, p1, p2);
    QuotedSlice(buf, p, q);
    value := buf[p1..p2];
  }

  lemma TagIs(buf: seq<Rune>, p: nat, q: nat) returns (t: TagText)
    requires Covers(TAG, buf, p, q)
    ensures TagOk(t) && buf[p..q] == PrintTag(t)
  {
    NodeCovers(Tag, TAG_CAT, buf, p, q);
    var p1, p2 := Cat3Covers(TAG_NAME, Chr(R('=')), TAG_VALUE, buf, p, q);
    ChrCovers(R('='), buf, p1, p2);
    var quoted, name := TagNameIs(buf, p, p1);
    var value := TagValueIs(buf, p2, q);
    t := TagText(quoted, name, value);
    assert buf[p..q] == buf[p..p1] + [buf[p1]] + buf[p2..q];
  }

  lemma {:induction false} RestFrom(tags: seq<TagText>, more: seq<TagText>, j: nat)
    requires j <= |more|
    ensures PrintRest(tags + more, |tags| + j) == PrintRest(more, j)
    decreases |more| - j
  {
    if j < |more| {
      RestFrom(tags, more, j + 1);
      assert (tags + more)[|tags| + j] == more[j];
      RestStep(tags + more, |tags| + j);
      RestStep(more, j);
    }
  }

  lemma {:induction false} RestStep(tags: seq<TagText>, j: nat)
    requires j < |tags|
    ensures PrintRest(tags, j) == PrintSpaceTag(tags[j]) + PrintRest(tags, j + 1)
  {
  }

  lemma {:induction false} MoreTagsAre(buf: seq<Rune>, p: nat, q: nat) returns (tags: seq<TagText>)
    requires Covers(Star(SPACE_TAG), buf, p, q)
    ensures AllOk(tags) && buf[p..q] == PrintRest(tags, 0)
    decreases q - p
  {
    var m := StarCovers(SPACE_TAG, buf, p, q);
    if m == p {
      tags := [];
    } else {
      var t := SpaceTagIs(buf, p, m);
      var rest := MoreTagsAre(buf, m, q);
      tags := [t] + rest;
      SpaceTagJoins(buf, p, m, q, t, rest);
    }
  }

  predicate AllOk(tags: seq<TagText>) { forall i :: 0 <= i < |tags| ==> TagOk(tags[i]) }

  lemma SpaceTagIs(buf: seq<Rune>, p: nat, q: nat) returns (t: TagText)
    requires Covers(SPACE_TAG, buf, p, q)
    ensures TagOk(t) && buf[p..q] == [R(' ')] + PrintTag(t)
  {
    var p1 := Cat2Covers(SPACE, TAG, buf, p, q);
    ChrCovers(R(' '), buf, p, p1);
    t := TagIs(buf, p1, q);
    assert buf[p..q] == [buf[p]] + buf[p1..q];
  }

  lemma {:induction false} SpaceTagJoins(buf: seq<Rune>, p: nat, m: nat, q: nat, t: TagText, rest: seq<TagText>)
    requires p <= m <= q <= |buf| && TagOk(t) && buf[p..m] == [R(' ')] + PrintTag(t) && AllOk(rest) && buf[m..q] == PrintRest(rest, 0)
    ensures AllOk([t] + rest) && buf[p..q] == PrintRest([t] + rest, 0)
  {
    SpaceTagThen(t, rest);
    assert buf[p..q] == buf[p..m] + buf[m..q];
  }

  lemma {:induction false} TagJoins(buf: seq<Rune>, p: nat, m: nat, q: nat, t: TagText, rest: seq<TagText>)
    requires p <= m <= q <= |buf| && TagOk(t) && buf[p..m] == PrintTag(t) && AllOk(rest) && buf[m..q] == PrintRest(rest, 0)
    ensures TagsOk([t] + rest) && buf[p..q] == PrintTags([t] + rest)
  {
    SpaceTagThen(t, rest);
    assert buf[p..q] == buf[p..m] + buf[m..q];
  }

  lemma {:induction false} SpaceTagThen(t: TagText, rest: seq<TagText>)
    ensures PrintRest([t] + rest, 0) == [R(' ')] + PrintTag(t) + PrintRest(rest, 0) && PrintTags([t] + rest) == PrintTag(t) + PrintRest(rest, 0)
  {
    RestFrom([t], rest, 0);
    assert ([t] + rest)[0] == t;
  }

  lemma TagsParts(buf: seq<Rune>, p: nat, q: nat) returns (m: nat)
    requires Covers(TAGS, buf, p, q)
    ensures Covers(TAG, buf, p, m) && Covers(Star(SPACE_TAG), buf, m, q)
  {
    NodeCovers(Tags, TAGS_CAT, buf, p, q);
    var p1;
    p1, m := Cat3Covers(Act(Action1), TAG, Star(SPACE_TAG), buf, p, q);
    ActCovers(Action1, buf, p, p1);
  }

  lemma TagsAre(buf: seq<Rune>, p: nat, q: nat) returns (tags: seq<TagText>)
    requires Covers(TAGS, buf, p, q)
    ensures TagsOk(tags) && buf[p..q] == PrintTags(tags)
  {
    var m := TagsParts(buf, p, q);
    var t := TagIs(buf, p, m);
    var rest := MoreTagsAre(buf, m, q);
    tags := [t] + rest;
    TagJoins(buf, p, m, q, t, rest);
  }

  // ---- Metric lines ------------------------------------------------------------------------------------

  lemma CatLast3(e: Exp, k: nat, buf: seq<Rune>, p: nat, q: nat) returns (m: nat, m1: nat, m2: nat)
    requires 3 <= k && CoversCat(e, k, buf, p, q)
    ensures CoversCat(e, k - 3, buf, p, m) && Covers(e.es[k - 3], buf, m, m1) && Covers(e.es[k - 2], buf, m1, m2) && Covers(e.es[k - 1], buf, m2, q)
  {
    m2 := CatLast(e, k, buf, p, q);
    m1 := CatLast(e, k - 1, buf, p, m2);
    m := CatLast(e, k - 2, buf, p, m1);
  }

  lemma Cat7Covers(a: Exp, b: Exp, c: Exp, d: Exp, e: Exp, f: Exp, g: Exp, buf: seq<Rune>, p: nat, q: nat)
    returns (p1: nat, p2: nat, p3: nat, p4: nat, p5: nat, p6: nat)
    requires Covers(Cat([a, b, c, d, e, f, g]), buf, p, q)
    ensures Covers(a, buf, p, p1) && Covers(b, buf, p1, p2) && Covers(c, buf, p2, p3) && Covers(d, buf, p3, p4)
    ensures Covers(e, buf, p4, p5) && Covers(f, buf, p5, p6) && Covers(g, buf, p6, q)
  {
    var cat := Cat([a, b, c, d, e, f, g]);
    p4, p5, p6 := CatLast3(cat, 7, buf, p, q);
    var p0;
    p1, p2, p3 := CatLast3(cat, 4, buf, p, p4);
    p0 := CatLast(cat, 1, buf, p, p1);
    CatFirst(cat, buf, p, p0);
  }

  lemma NotDotCovers(buf: seq<Rune>, p: nat, q: nat)
    requires Covers(Not(Dot), buf, p, q)
    ensures q == p && (p == |buf| || buf[p] == END_SYMBOL)
  {
    assert Eval(Dot, buf, p) == Step(p < |buf| && buf[p] != END_SYMBOL, p);
  }

  /** The parts of a line, between two spaces and before the end. */
  ghost predicate LineParts(buf: seq<Rune>, a: nat, b: nat, c: nat, n: nat) {
    && Covers(METRIC_NAME, buf, 0, a) && Covers(SPACE, buf, a, a + 1) && Covers(METRIC_VALUE, buf, a + 1, b)
    && Covers(Opt(SPACE_TIMESTAMP), buf, b, c) && Covers(SPACE, buf, c, c + 1) && Covers(TAGS, buf, c + 1, n)
    && (n == |buf| || buf[n] == END_SYMBOL)
  }

  lemma MetricLineParts(buf: seq<Rune>, q: nat) returns (a: nat, b: nat, c: nat)
    requires Covers(METRIC_LINE, buf, 0, q)
    ensures LineParts(buf, a, b, c, q)
  {
    var a1, c1, n;
    a, a1, b, c, c1, n := Cat7Covers(METRIC_NAME, SPACE, METRIC_VALUE, Opt(SPACE_TIMESTAMP), SPACE, TAGS, Not(Dot), buf, 0, q);
    ChrCovers(R(' '), buf, a, a1);
    ChrCovers(R(' '), buf, c, c1);
    NotDotCovers(buf, n, q);
  }

  lemma LinePrinted(buf: seq<Rune>, a: nat, b: nat, c: nat, n: nat, l: Line)
    requires a < b <= c < n <= |buf| && buf[a] == R(' ') == buf[c] && l.tags != []
    requires buf[0..a] == Quoted(l.quoted, l.name) && buf[a + 1..b] == NumberText(l.value)
    requires buf[b..c] == SpaceTimestampText(l.timestamp) && buf[c + 1..n] == PrintTags(l.tags)
    ensures buf[..n] == Print(l)
  {
    SixPieces(buf, a, b, c, n, Quoted(l.quoted, l.name), NumberText(l.value), SpaceTimestampText(l.timestamp), PrintTags(l.tags));
  }

  lemma SixPieces(buf: seq<Rune>, a: nat, b: nat, c: nat, n: nat, name: Text, number: Text, time: Text, tags: Text)
    requires a < b <= c < n <= |buf| && buf[a] == R(' ') == buf[c]
    requires buf[0..a] == name && buf[a + 1..b] == number && buf[b..c] == time && buf[c + 1..n] == tags
    ensures buf[..n] == name + [R(' ')] + number + time + [R(' ')] + tags
  {
    Extend(buf, 0, a, a + 1, [R(' ')]);
    Extend(buf, 0, a + 1, b, number);
    Extend(buf, 0, b, c, time);
    Extend(buf, 0, c, c + 1, [R(' ')]);
    Extend(buf, 0, c + 1, n, tags);
  }

  lemma PartsPrinted(buf: seq<Rune>, a: nat, b: nat, c: nat, n: nat) returns (l: Line)
    requires LineParts(buf, a, b, c, n)
    ensures LineOk(l) && buf[..n] == Print(l)
  {
    var quoted, name := MetricNameIs(buf, 0, a);
    var number := MetricValueIs(buf, a + 1, b);
    var time := SpaceTimestampIs(buf, b, c);
    var tags := TagsAre(buf, c + 1, n);
    l := Line(quoted, name, number, time, tags);
    ChrCovers(R(' '), buf, a, a + 1);
    ChrCovers(R(' '), buf, c, c + 1);
    LinePrinted(buf, a, b, c, n, l);
  }

  // ---- Histogram lines -----------------------------------------------------------------------------------

  lemma Cat5Covers(a: Exp, b: Exp, c: Exp, d: Exp, e: Exp, buf: seq<Rune>, p: nat, q: nat) returns (p1: nat, p2: nat, p3: nat, p4: nat)
    requires Covers(Cat([a, b, c, d, e]), buf, p, q)
    ensures Covers(a, buf, p, p1) && Covers(b, buf, p1, p2) && Covers(c, buf, p2, p3) && Covers(d, buf, p3, p4) && Covers(e, buf, p4, q)
  {
    var cat := Cat([a, b, c, d, e]);
    p2, p3, p4 := CatLast3(cat, 5, buf, p, q);
    p1 := CatLast(cat, 2, buf, p, p2);
    var p0 := CatLast(cat, 1, buf, p, p1);
    CatFirst(cat, buf, p, p0);
  }

  lemma PointPrinted(buf: seq<Rune>, p: nat, p3: nat, q: nat, pt: Point)
    requires p < p3 < q <= |buf| && buf[p] == R('#') && pt.count == buf[p + 1..p3] && buf[p3] == R(' ') && NumberText(pt.value) == buf[p3 + 1..q]
    ensures buf[p..q] == PrintPoint(pt)
  {
    assert buf[p..p + 1] == [R('#')];
    Extend(buf, p, p + 1, p3, pt.count);
    Extend(buf, p, p3, p3 + 1, [R(' ')]);
    Extend(buf, p, p3 + 1, q, NumberText(pt.value));
  }

  lemma PointIs(buf: seq<Rune>, p: nat, q: nat) returns (pt: Point)
    requires Covers(HISTOGRAM_VALUE, buf, p, q)
    ensures PointOk(pt) && buf[p..q] == PrintPoint(pt)
  {
    NodeCovers(HistogramValue, HISTOGRAM_VALUE_CAT, buf, p, q);
    var p1, p2, p3, p4 := Cat5Covers(Chr(R('#')), DIGIT, Star(DIGIT), SPACE, METRIC_VALUE, buf, p, q);
    ChrCovers(R('#'), buf, p, p1);
    DigitIs(buf, p1, p2);
    DigitsAre(buf, p2, p3);
    ChrCovers(R(' '), buf, p3, p4);
    var n := MetricValueIs(buf, p4, q);
    pt := Point(buf[p1..p3], n);
    PointPrinted(buf, p, p3, q, pt);
  }

  predicate PointsOk(points: seq<Point>) { forall i :: 0 <= i < |points| ==> PointOk(points[i]) }

  lemma {:induction false} PointsFrom(points: seq<Point>, more: seq<Point>, j: nat)
    requires j <= |more|
    ensures PrintPoints(points + more, |points| + j) == PrintPoints(more, j)
    decreases |more| - j
  {
    if j < |more| {
      PointsFrom(points, more, j + 1);
      assert (points + more)[|points| + j] == more[j];
      PointsStep(points + more, |points| + j);
      PointsStep(more, j);
    }
  }

  lemma {:induction false} PointsStep(points: seq<Point>, j: nat)
    requires j < |points|
    ensures PrintPoints(points, j) == [R(' ')] + PrintPoint(points[j]) + PrintPoints(points, j + 1)
  {
  }

  lemma {:induction false} PointJoins(buf: seq<Rune>, p: nat, m: nat, q: nat, pt: Point, rest: seq<Point>)
    requires p <= m <= q <= |buf| && PointOk(pt) && buf[p..m] == [R(' ')] + PrintPoint(pt) && PointsOk(rest) && buf[m..q] == PrintPoints(rest, 0)
    ensures PointsOk([pt] + rest) && buf[p..q] == PrintPoints([pt] + rest, 0)
  {
    PointsFrom([pt], rest, 0);
    assert ([pt] + rest)[0] == pt;
    assert buf[p..q] == buf[p..m] + buf[m..q];
  }

  lemma SpacePointIs(buf: seq<Rune>, p: nat, q: nat) returns (pt: Point)
    requires Covers(SPACE_HISTOGRAM_VALUE, buf, p, q)
    ensures PointOk(pt) && buf[p..q] == [R(' ')] + PrintPoint(pt)
  {
    var p1 := Cat2Covers(SPACE, HISTOGRAM_VALUE, buf, p, q);
    ChrCovers(R(' '), buf, p, p1);
    pt := PointIs(buf, p1, q);
    assert buf[p..q] == [buf[p]] + buf[p1..q];
  }

  lemma {:induction false} MorePointsAre(buf: seq<Rune>, p: nat, q: nat) returns (points: seq<Point>)
    requires Covers(Star(SPACE_HISTOGRAM_VALUE), buf, p, q)
    ensures PointsOk(points) && buf[p..q] == PrintPoints(points, 0)
    decreases q - p
  {
    var m := StarCovers(SPACE_HISTOGRAM_VALUE, buf, p, q);
    if m == p {
      points := [];
    } else {
      var pt := SpacePointIs(buf, p, m);
      var rest := MorePointsAre(buf, m, q);
      points := [pt] + rest;
      PointJoins(buf, p, m, q, pt, rest);
    }
  }

  /** The values of a line, with the space before them. */
  lemma PointsAre(buf: seq<Rune>, p: nat, q: nat) returns (points: seq<Point>)
    requires Covers(SPACE, buf, p, p + 1) && Covers(HISTOGRAM_VALUES, buf, p + 1, q)
    ensures points != [] && PointsOk(points) && buf[p..q] == PrintPoints(points, 0)
  {
    NodeCovers(HistogramValues, HISTOGRAM_VALUES_CAT, buf, p + 1, q);
    var m := Cat2Covers(HISTOGRAM_VALUE, Star(SPACE_HISTOGRAM_VALUE), buf, p + 1, q);
    ChrCovers(R(' '), buf, p, p + 1);
    var pt := PointIs(buf, p + 1, m);
    assert buf[p..m] == [buf[p]] + buf[p + 1..m];
    var rest := MorePointsAre(buf, m, q);
    points := [pt] + rest;
    PointJoins(buf, p, m, q, pt, rest);
  }

  lemma IntervalIs(buf: seq<Rune>, p: nat, q: nat)
    requires Covers(AGGREGATION_INTERVAL, buf, p, q)
    ensures q == p + 2 && buf[p] == R('!') && buf[p + 1] in [R('M'), R('H'), R('D')]
  {
    NodeCovers(AggregationInterval, INTERVAL_CAT, buf, p, q);
    var p1, p2 := Cat3Covers(Chr(R('!')), OneOf([R('D'), R('H'), R('M')]), Act(Action0), buf, p, q);
    ChrCovers(R('!'), buf, p, p1);
    OneOfCovers([R('D'), R('H'), R('M')], buf, p1, p2);
    ActCovers(Action0, buf, p2, q);
  }

  lemma Cat9Covers(a: Exp, b: Exp, c: Exp, d: Exp, e: Exp, f: Exp, g: Exp, h: Exp, i: Exp, buf: seq<Rune>, p: nat, q: nat)
    returns (p1: nat, p2: nat, p3: nat, p4: nat, p5: nat, p6: nat, p7: nat, p8: nat)
    requires Covers(Cat([a, b, c, d, e, f, g, h, i]), buf, p, q)
    ensures Covers(a, buf, p, p1) && Covers(b, buf, p1, p2) && Covers(c, buf, p2, p3) && Covers(d, buf, p3, p4) && Covers(e, buf, p4, p5)
    ensures Covers(f, buf, p5, p6) && Covers(g, buf, p6, p7) && Covers(h, buf, p7, p8) && Covers(i, buf, p8, q)
  {
    var cat := Cat([a, b, c, d, e, f, g, h, i]);
    p6, p7, p8 := CatLast3(cat, 9, buf, p, q);
    p3, p4, p5 := CatLast3(cat, 6, buf, p, p6);
    var p0;
    p0, p1, p2 := CatLast3(cat, 3, buf, p, p3);
    CatFirst(cat, buf, p, p0);
  }

  ghost predicate HistogramParts(buf: seq<Rune>, b: nat, c: nat, d: nat, n: nat) {
    && Covers(AGGREGATION_INTERVAL, buf, 0, 2) && Covers(Opt(SPACE_TIMESTAMP), buf, 2, b) && Covers(SPACE, buf, b, b + 1)
    && Covers(HISTOGRAM_VALUES, buf, b + 1, c) && Covers(SPACE, buf, c, c + 1) && Covers(METRIC_NAME, buf, c + 1, d)
    && Covers(SPACE, buf, d, d + 1) && Covers(TAGS, buf, d + 1, n) && (n == |buf| || buf[n] == END_SYMBOL)
  }

  lemma HistogramLineParts(buf: seq<Rune>, q: nat) returns (b: nat, c: nat, d: nat)
    requires Covers(HISTOGRAM_LINE, buf, 0, q)
    ensures HistogramParts(buf, b, c, d, q)
  {
    var a, b1, c1, d1, n;
    a, b, b1, c, c1, d, d1, n :=
      Cat9Covers(AGGREGATION_INTERVAL, Opt(SPACE_TIMESTAMP), SPACE, HISTOGRAM_VALUES, SPACE, METRIC_NAME, SPACE, TAGS, Not(Dot), buf, 0, q);
    IntervalIs(buf, 0, a);
    ChrCovers(R(' '), buf, b, b1);
    ChrCovers(R(' '), buf, c, c1);
    ChrCovers(R(' '), buf, d, d1);
    NotDotCovers(buf, n, q);
  }

  lemma HistogramPrinted(buf: seq<Rune>, b: nat, c: nat, d: nat, n: nat, h: Histogram)
    requires 2 <= b <= c < d < n <= |buf| && buf[0] == R('!') && buf[1] == h.interval && buf[c] == R(' ') == buf[d] && h.tags != []
    requires buf[2..b] == SpaceTimestampText(h.timestamp) && buf[b..c] == PrintPoints(h.points, 0)
    requires buf[c + 1..d] == Quoted(h.quoted, h.name) && buf[d + 1..n] == PrintTags(h.tags)
    ensures buf[..n] == PrintHistogram(h)
  {
    var start, time, points, name, tags := [R('!'), h.interval], SpaceTimestampText(h.timestamp), PrintPoints(h.points, 0), Quoted(h.quoted, h.name), PrintTags(h.tags);
    SevenPieces(buf, b, c, d, n, start, time, points, name, tags);
  }

  lemma SevenPieces(buf: seq<Rune>, b: nat, c: nat, d: nat, n: nat, start: Text, time: Text, points: Text, name: Text, tags: Text)
    requires 2 <= b <= c < d < n <= |buf| && buf[c] == R(' ') == buf[d] && |start| == 2 && buf[0] == start[0] && buf[1] == start[1]
    requires buf[2..b] == time && buf[b..c] == points && buf[c + 1..d] == name && buf[d + 1..n] == tags
    ensures buf[..n] == start + time + points + [R(' ')] + name + [R(' ')] + tags
  {
    assert buf[0..2] == start;
    Extend(buf, 0, 2, b, time);
    Extend(buf, 0, b, c, points);
    Extend(buf, 0, c, c + 1, [R(' ')]);
    Extend(buf, 0, c + 1, d, name);
    Extend(buf, 0, d, d + 1, [R(' ')]);
    Extend(buf, 0, d + 1, n, tags);
  }

  lemma HistogramPartsPrinted(buf: seq<Rune>, b: nat, c: nat, d: nat, n: nat) returns (h: Histogram)
    requires HistogramParts(buf, b, c, d, n)
    ensures HistogramOk(h) && buf[..n] == PrintHistogram(h)
  {
    HistogramBounds(buf, b, c, d, n);
    var time, points := TimeAndPointsAre(buf, b, c);
    var quoted, name, tags := NameAndTagsAre(buf, c + 1, d, n);
    h := Histogram(buf[1], time, points, quoted, name, tags);
    HistogramPrinted(buf, b, c, d, n, h);
  }

  lemma NameAndTagsAre(buf: seq<Rune>, c: nat, d: nat, n: nat) returns (quoted: bool, name: Text, tags: seq<TagText>)
    requires Covers(METRIC_NAME, buf, c, d) && Covers(TAGS, buf, d + 1, n)
    ensures NameOk(name) && TagsOk(tags) && buf[c..d] == Quoted(quoted, name) && buf[d + 1..n] == PrintTags(tags)
  {
    quoted, name := MetricNameIs(buf, c, d);
    tags := TagsAre(buf, d + 1, n);
  }

  lemma HistogramBounds(buf: seq<Rune>, b: nat, c: nat, d: nat, n: nat)
    requires HistogramParts(buf, b, c, d, n)
    ensures 2 <= b <= c < d < n <= |buf| && buf[0] == R('!') && buf[1] in [R('M'), R('H'), R('D')] && buf[c] == R(' ') == buf[d]
  {
    IntervalIs(buf, 0, 2);
    ChrCovers(R(' '), buf, c, c + 1);
    ChrCovers(R(' '), buf, d, d + 1);
  }

  lemma TimeAndPointsAre(buf: seq<Rune>, b: nat, c: nat) returns (time: Text, points: seq<Point>)
    requires Covers(Opt(SPACE_TIMESTAMP), buf, 2, b) && Covers(SPACE, buf, b, b + 1) && Covers(HISTOGRAM_VALUES, buf, b + 1, c)
    ensures (time == [] || TimestampOk(time)) && buf[2..b] == SpaceTimestampText(time)
    ensures points != [] && PointsOk(points) && buf[b..c] == PrintPoints(points, 0)
  {
    time := SpaceTimestampIs(buf, 2, b);
    points := PointsAre(buf, b, c);
  }

  // ---- All lines -----------------------------------------------------------------------------------------

  ghost predicate IsPrinted(line: Text) {
    exists l :: LineOk(l) && !Ambiguous(l) && Print(l) == line
  }

  ghost predicate IsPrintedHistogram(line: Text) {
    exists h :: HistogramOk(h) && PrintHistogram(h) == line
  }

  lemma MetricIsPrinted(line: Text)
    requires END_SYMBOL !in line && Meaning(line).Metric?
    ensures IsPrinted(line)
  {
    var buf := line + [END_SYMBOL];
    HistogramsRecognised(line);
    var q := WholeMetricLine(line, buf);
    var a, b, c := MetricLineParts(buf, q);
    var l := PartsPrinted(buf, a, b, c, q);
    assert buf[..q] == line;
    RoundTrip(l);
  }

  lemma WholeMetricLine(line: Text, buf: seq<Rune>) returns (q: nat)
    requires buf == line + [END_SYMBOL] && END_SYMBOL !in line && Eval(GRAMMAR, buf, 0).Match? && Eval(HISTOGRAM_LINE, buf, 0).Fail?
    ensures q == |line| && Covers(METRIC_LINE, buf, 0, q)
  {
    GrammarTokens(line);
    q := Eval(GRAMMAR, buf, 0).pos;
    NodeCovers(MetricGrammarRule, Alt(HISTOGRAM_LINE, METRIC_LINE), buf, 0, q);
    AltCovers(HISTOGRAM_LINE, METRIC_LINE, buf, 0, q);
  }

  lemma WholeHistogramLine(line: Text, buf: seq<Rune>) returns (q: nat)
    requires buf == line + [END_SYMBOL] && END_SYMBOL !in line && Eval(HISTOGRAM_LINE, buf, 0).Match?
    ensures q == |line| && Covers(HISTOGRAM_LINE, buf, 0, q)
  {
    q := Eval(HISTOGRAM_LINE, buf, 0).pos;
    assert Covers(HISTOGRAM_LINE, buf, 0, q);
    FirstOfAlt(HISTOGRAM_LINE, METRIC_LINE, buf, 0, q);
    assert Eval(GRAMMAR, buf, 0).pos == q;
    GrammarTokens(line);
  }

  lemma FirstOfAlt(a: Exp, b: Exp, buf: seq<Rune>, p: nat, q: nat)
    requires Covers(a, buf, p, q)
    ensures Covers(Alt(a, b), buf, p, q)
  {
  }

  lemma HistogramIsPrinted(line: Text)
    requires END_SYMBOL !in line && Meaning(line) == HistogramLine
    ensures IsPrintedHistogram(line)
  {
    var buf := line + [END_SYMBOL];
    HistogramsRecognised(line);
    var q := WholeHistogramLine(line, buf);
    var b, c, d := HistogramLineParts(buf, q);
    var h := HistogramPartsPrinted(buf, b, c, d, q);
    assert buf[..q] == line;
  }

  /**
   * The lines that parse are just the printed ones: a line yields a metric if and only if it is the print
   * of one that is not ambiguous, and is taken for a histogram if and only if it is the print of one.
   */
  lemma LinesAccepted(line: Text)
    requires END_SYMBOL !in line
    ensures Meaning(line).Metric? <==> IsPrinted(line)
    ensures Meaning(line) == HistogramLine <==> IsPrintedHistogram(line)
  {
    if Meaning(line).Metric? {
      MetricIsPrinted(line);
    }
    if l :| LineOk(l) && !Ambiguous(l) && Print(l) == line {
      RoundTrip(l);
    }
    if Meaning(line) == HistogramLine {
      HistogramIsPrinted(line);
    }
    if h :| HistogramOk(h) && PrintHistogram(h) == line {
      HistogramRoundTrip(h);
    }
  }
}
