/** Printing a metric line, and reading back each part of it. */
module MetricLines {
  import opened Peg
  import opened MetricGrammar
  import opened ParseActions
  import opened Reading

  /** buf has s at p. */
  predicate HasAt(buf: seq<Rune>, p: nat, s: seq<Rune>) {
    p + |s| <= |buf| && buf[p..p + |s|] == s
  }

  lemma HasParts(buf: seq<Rune>, p: nat, a: seq<Rune>, b: seq<Rune>)
    requires HasAt(buf, p, a + b)
    ensures HasAt(buf, p, a) && HasAt(buf, p + |a|, b)
  {
    var whole := buf[p..p + |a + b|];
    assert buf[p..p + |a|] == whole[..|a|];
    assert buf[p + |a|..p + |a| + |b|] == whole[|a|..];
  }

  lemma HasRunes(buf: seq<Rune>, p: nat, s: seq<Rune>)
    requires HasAt(buf, p, s)
    ensures forall i :: p <= i < p + |s| ==> buf[i] == s[i - p]
  {
    forall i | p <= i < p + |s| ensures buf[i] == s[i - p] {
      assert buf[p..p + |s|][i - p] == buf[i];
    }
  }

  // ---- metricName ------------------------------------------------------------------------------

  const NAME_RUNES := [R(','), R('/'), R('.'), R('_'), R('-'), R('~')]

  predicate IsNameRune(c: Rune) { IsAlnum(c) || c in NAME_RUNES }

  /** Where the name goes on after its optional increment sign and tilde. */
  function NameBody(name: Text): (k: nat)
    ensures k <= |name|
  {
    var i := if name != [] && name[0] == INCREMENT then 1 else 0;
    if i < |name| && name[i] == R('~') then i + 1 else i
  }

  /** The two optional runes do not use the name up, and the rest is made of name runes. */
  predicate NameOk(name: Text) {
    NameBody(name) < |name| && forall i :: NameBody(name) <= i < |name| ==> IsNameRune(name[i])
  }

  lemma NameTextReads(buf: seq<Rune>, p: nat, name: Text, st: Parsed)
    requires HasAt(buf, p, name) && NameOk(name) && p + |name| < |buf| && !IsNameRune(buf[p + |name|])
    ensures Reads(NAME_TEXT, buf, p, p + |name|, st, st.(text := name))
  {
    HasRunes(buf, p, name);
    var q := p + |name|;
    var p1 := if buf[p] == INCREMENT then p + 1 else p;
    var p2 := if buf[p1] == R('~') then p1 + 1 else p1;
    assert p2 == p + NameBody(name) && IsNameRune(name[p2 - p]);
    OptChr(INCREMENT, buf, p, st);
    OptChr(R('~'), buf, p1, st);
    NameCharTakes(NAME_RUNES, buf, p2, st);
    NameCharsRead(NAME_RUNES, buf, p2 + 1, q, st);
    Cat4Reads(Opt(Chr(INCREMENT)), Opt(Chr(R('~'))), NAME_CHAR, Star(NAME_CHAR), buf, p, p1, p2, p2 + 1, q, st, st, st, st, st);
    NodeReads(PegText, NAME_CAT, buf, p, q, st, st);
  }

  function Quoted(quoted: bool, s: Text): seq<Rune> {
    if quoted then [R('"')] + s + [R('"')] else s
  }

  lemma QuotedParts(buf: seq<Rune>, p: nat, s: Text)
    requires HasAt(buf, p, Quoted(true, s))
    ensures buf[p] == R('"') && HasAt(buf, p + 1, s) && buf[p + 1 + |s|] == R('"')
  {
    HasParts(buf, p, [R('"')] + s, [R('"')]);
    HasParts(buf, p, [R('"')], s);
    HasRunes(buf, p, Quoted(true, s));
  }

  lemma NoQuoteFails(text: Exp, buf: seq<Rune>, p: nat)
    requires p < |buf| && buf[p] != R('"')
    ensures Fails(Cat([QUOTE, text, QUOTE]), buf, p)
  {
    CatStart(Cat([QUOTE, text, QUOTE]), buf, p, START);
    CatBreaks(Cat([QUOTE, text, QUOTE]), 0, buf, p, p, START, START);
  }

  lemma NameChoiceReads(buf: seq<Rune>, p: nat, quoted: bool, name: Text, st: Parsed)
    requires HasAt(buf, p, Quoted(quoted, name)) && NameOk(name)
    requires p + |Quoted(quoted, name)| < |buf| && buf[p + |Quoted(quoted, name)|] == R(' ')
    ensures Reads(Alt(QUOTED_NAME, NAME_TEXT), buf, p, p + |Quoted(quoted, name)|, st, st.(text := name))
  {
    var q, st1 := p + |Quoted(quoted, name)|, st.(text := name);
    if quoted {
      QuotedParts(buf, p, name);
      NameTextReads(buf, p + 1, name, st);
      ChrReads(R('"'), buf, p, st);
      ChrReads(R('"'), buf, q - 1, st1);
      Cat3Reads(QUOTE, NAME_TEXT, QUOTE, buf, p, p + 1, q - 1, q, st, st, st1, st1);
    } else {
      HasRunes(buf, p, name);
      assert IsNameRune(name[NameBody(name)]);
      NoQuoteFails(NAME_TEXT, buf, p);
      NameTextReads(buf, p, name, st);
    }
  }

  lemma MetricNameReads(buf: seq<Rune>, p: nat, q: nat, quoted: bool, name: Text, st: Parsed, st2: Parsed)
    requires HasAt(buf, p, Quoted(quoted, name)) && NameOk(name)
    requires q == p + |Quoted(quoted, name)| && q < |buf| && buf[q] == R(' ') && st2 == st.(text := name, name := name)
    ensures Reads(METRIC_NAME, buf, p, q, st, st2)
  {
    var st1 := st.(text := name);
    NameChoiceReads(buf, p, quoted, name, st);
    ActReads(Action6, buf, q, st1);
    Cat2Reads(Alt(QUOTED_NAME, NAME_TEXT), Act(Action6), buf, p, q, q, st, st1, st2);
    NodeReads(MetricName, METRIC_NAME_CAT, buf, p, q, st, st2);
  }

  // ---- metricValue -----------------------------------------------------------------------------

  datatype Number = Number(negative: bool, whole: Text, fraction: Text)

  predicate AllDigits(s: Text) {
    forall i :: 0 <= i < |s| ==> IsDigit(s[i])
  }

  predicate NumberOk(n: Number) {
    n.whole != [] && AllDigits(n.whole) && AllDigits(n.fraction)
  }

  function Sign(n: Number): Text { if n.negative then [R('-')] else [] }
  function FractionText(n: Number): Text { if n.fraction == [] then [] else [R('.')] + n.fraction }

  function NumberText(n: Number): Text {
    Sign(n) + n.whole + FractionText(n)
  }

  lemma FractionReads(buf: seq<Rune>, p: nat, n: Number, st: Parsed)
    requires NumberOk(n) && HasAt(buf, p, FractionText(n))
    requires p + |FractionText(n)| < |buf| && buf[p + |FractionText(n)|] == R(' ')
    ensures Reads(Opt(FRACTION), buf, p, p + |FractionText(n)|, st, st)
  {
    var q := p + |FractionText(n)|;
    HasRunes(buf, p, FractionText(n));
    if n.fraction == [] {
      CatStart(FRACTION, buf, p, st);
      CatBreaks(FRACTION, 0, buf, p, p, st, st);
    } else {
      forall i | p < i < q ensures IsDigit(buf[i]) {
        assert IsDigit(n.fraction[i - p - 1]);
      }
      ChrReads(R('.'), buf, p, st);
      DigitTakes(buf, p + 1, st);
      DigitsRead(buf, p + 2, q, st);
      Cat3Reads(Chr(R('.')), DIGIT, Star(DIGIT), buf, p, p + 1, p + 2, q, st, st, st, st);
      OptReads(FRACTION, buf, p, q, st, st);
    }
  }

  lemma NumberParts(buf: seq<Rune>, p: nat, n: Number)
    requires NumberOk(n) && HasAt(buf, p, NumberText(n))
    requires p + |NumberText(n)| < |buf| && buf[p + |NumberText(n)|] == R(' ')
    ensures var p1 := p + |Sign(n)|; var p2 := p1 + |n.whole|;
      && p1 == (if buf[p] == R('-') then p + 1 else p)
      && (forall i :: p1 <= i < p2 ==> IsDigit(buf[i]))
      && HasAt(buf, p2, FractionText(n)) && p2 < |buf| && !IsDigit(buf[p2])
  {
    var p1 := p + |Sign(n)|;
    var p2 := p1 + |n.whole|;
    HasParts(buf, p, Sign(n) + n.whole, FractionText(n));
    HasParts(buf, p, Sign(n), n.whole);
    HasRunes(buf, p, Sign(n));
    HasRunes(buf, p1, n.whole);
    HasRunes(buf, p2, FractionText(n));
    forall i | p1 <= i < p2 ensures IsDigit(buf[i]) {
      assert IsDigit(n.whole[i - p1]);
    }
  }

  lemma ValueDigitsRead(buf: seq<Rune>, p: nat, n: Number, st: Parsed)
    requires NumberOk(n) && HasAt(buf, p, NumberText(n))
    requires p + |NumberText(n)| < |buf| && buf[p + |NumberText(n)|] == R(' ')
    ensures Reads(VALUE_CAT, buf, p, p + |NumberText(n)|, st, st)
  {
    NumberParts(buf, p, n);
    var p1 := p + |Sign(n)|;
    var p2, q := p1 + |n.whole|, p + |NumberText(n)|;
    OptChr(R('-'), buf, p, st);
    DigitTakes(buf, p1, st);
    DigitsRead(buf, p1 + 1, p2, st);
    FractionReads(buf, p2, n, st);
    Cat4Reads(Opt(Chr(R('-'))), DIGIT, Star(DIGIT), Opt(FRACTION), buf, p, p1, p1 + 1, p2, q, st, st, st, st, st);
  }

  lemma MetricValueReads(buf: seq<Rune>, p: nat, q: nat, n: Number, st: Parsed, st2: Parsed)
    requires NumberOk(n) && HasAt(buf, p, NumberText(n)) && st2 == st.(text := NumberText(n), value := NumberText(n))
    requires q == p + |NumberText(n)| && q < |buf| && buf[q] == R(' ')
    ensures Reads(METRIC_VALUE, buf, p, q, st, st2)
  {
    var st1 := st.(text := NumberText(n));
    ValueDigitsRead(buf, p, n, st);
    NodeReads(PegText, VALUE_CAT, buf, p, q, st, st);
    ActReads(Action5, buf, q, st1);
    Cat2Reads(Node(PegText, VALUE_CAT), Act(Action5), buf, p, q, q, st, st1, st2);
    NodeReads(MetricValue, METRIC_VALUE_CAT, buf, p, q, st, st2);
  }

  // ---- timestamp -------------------------------------------------------------------------------

  predicate TimestampOk(t: Text) {
    (|t| == 10 || |t| == 13 || |t| == 16) && AllDigits(t)
  }

  /** The first k of the ten mandatory digits. */
  lemma {:induction false} TenDigits(buf: seq<Rune>, p: nat, k: nat, st: Parsed)
    requires k <= 10 && p + k <= |buf| && forall i :: p <= i < p + k ==> IsDigit(buf[i])
    ensures ReadsCat(TIMESTAMP_DIGITS, k, buf, p, p + k, st, st)
  {
    if k == 0 {
      CatStart(TIMESTAMP_DIGITS, buf, p, st);
    } else {
      TenDigits(buf, p, k - 1, st);
      DigitTakes(buf, p + k - 1, st);
      MandatoryDigit(k - 1);
      CatNext(TIMESTAMP_DIGITS, k - 1, buf, p, p + k - 1, p + k, st, st, st);
    }
  }

  lemma MandatoryDigit(k: nat)
    requires k < 10
    ensures TIMESTAMP_DIGITS.es[k] == DIGIT
  {
  }

  /** Three more digits are taken if they are there; a non-digit in the first place is enough to skip. */
  lemma OptThreeReads(buf: seq<Rune>, p: nat, more: bool, st: Parsed)
    requires more ==> p + 3 <= |buf| && forall i :: p <= i < p + 3 ==> IsDigit(buf[i])
    requires !more ==> p < |buf| && !IsDigit(buf[p])
    ensures Reads(Opt(THREE_DIGITS), buf, p, if more then p + 3 else p, st, st)
  {
    DigitTakes(buf, p, st);
    if more {
      DigitTakes(buf, p + 1, st);
      DigitTakes(buf, p + 2, st);
      Cat3Reads(DIGIT, DIGIT, DIGIT, buf, p, p + 1, p + 2, p + 3, st, st, st, st);
      OptReads(THREE_DIGITS, buf, p, p + 3, st, st);
    } else {
      CatStart(THREE_DIGITS, buf, p, st);
      CatBreaks(THREE_DIGITS, 0, buf, p, p, st, st);
    }
  }

  lemma TimestampDigitsRead(buf: seq<Rune>, p: nat, t: Text, st: Parsed)
    requires HasAt(buf, p, t) && TimestampOk(t) && p + |t| < |buf| && buf[p + |t|] == R(' ')
    ensures Reads(TIMESTAMP_DIGITS, buf, p, p + |t|, st, st)
  {
    HasRunes(buf, p, t);
    forall i | p <= i < p + |t| ensures IsDigit(buf[i]) {
      assert IsDigit(t[i - p]);
    }
    var m := if |t| > 10 then p + 13 else p + 10;
    TenDigits(buf, p, 10, st);
    OptThreeReads(buf, p + 10, |t| > 10, st);
    CatNext(TIMESTAMP_DIGITS, 10, buf, p, p + 10, m, st, st, st);
    OptThreeReads(buf, m, |t| > 13, st);
    CatNext(TIMESTAMP_DIGITS, 11, buf, p, m, p + |t|, st, st, st);
  }

  lemma TimestampReads(buf: seq<Rune>, p: nat, t: Text, st: Parsed)
    requires HasAt(buf, p, t) && TimestampOk(t) && p + |t| < |buf| && buf[p + |t|] == R(' ')
    ensures Reads(TIMESTAMP, buf, p, p + |t|, st, st.(text := t, timestamp := t))
  {
    var q, st1 := p + |t|, st.(text := t);
    TimestampDigitsRead(buf, p, t, st);
    NodeReads(PegText, TIMESTAMP_DIGITS, buf, p, q, st, st);
    ActReads(Action4, buf, q, st1);
    Cat2Reads(Node(PegText, TIMESTAMP_DIGITS), Act(Action4), buf, p, q, q, st, st1, st1.(timestamp := t));
    NodeReads(Timestamp, TIMESTAMP_CAT, buf, p, q, st, st1.(timestamp := t));
  }

  /** Fewer than ten digits are no timestamp. */
  lemma TimestampFails(buf: seq<Rune>, p: nat, k: nat)
    requires k < 10 && p + k < |buf| && !IsDigit(buf[p + k]) && forall i :: p <= i < p + k ==> IsDigit(buf[i])
    ensures Fails(TIMESTAMP, buf, p)
  {
    TenDigits(buf, p, k, START);
    DigitTakes(buf, p + k, START);
    MandatoryDigit(k);
    CatBreaks(TIMESTAMP_DIGITS, k, buf, p, p + k, START, START);
    CatStart(TIMESTAMP_CAT, buf, p, START);
    CatBreaks(TIMESTAMP_CAT, 0, buf, p, p, START, START);
  }
}
