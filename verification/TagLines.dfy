/** Printing the tags of a metric line, and reading them back. */
module TagLines {
  import opened Peg
  import opened MetricGrammar
  import opened ParseActions
  import opened Reading
  import opened MetricLines

  datatype TagText = TagText(quoted: bool, name: Text, value: Text)

  // ---- tagName ---------------------------------------------------------------------------------

  const QUOTED_TAG_RUNES := [R('.'), R('_'), R('-'), R('/')]
  const TAG_RUNES := [R('.'), R('_'), R('-')]

  predicate TagNameOk(quoted: bool, name: Text) {
    name != [] && forall i :: 0 <= i < |name| ==> IsAlnum(name[i]) || name[i] in if quoted then QUOTED_TAG_RUNES else TAG_RUNES
  }

  /** One or more runes of a tag name, followed by something that cannot belong to it. */
  lemma TagTextReads(cs: seq<Rune>, buf: seq<Rune>, p: nat, name: Text, st: Parsed)
    requires HasAt(buf, p, name) && name != [] && forall i :: 0 <= i < |name| ==> IsAlnum(name[i]) || name[i] in cs
    requires p + |name| < |buf| && !(IsAlnum(buf[p + |name|]) || buf[p + |name|] in cs)
    ensures var c := Alt(ALNUM, OneOf(cs));
      Reads(Node(PegText, Cat([c, Star(c)])), buf, p, p + |name|, st, st.(text := name))
  {
    var c, q := Alt(ALNUM, OneOf(cs)), p + |name|;
    HasRunes(buf, p, name);
    forall i | p <= i < q ensures IsAlnum(buf[i]) || buf[i] in cs {
      assert buf[i] == name[i - p];
    }
    NameCharTakes(cs, buf, p, st);
    NameCharsRead(cs, buf, p + 1, q, st);
    Cat2Reads(c, Star(c), buf, p, p + 1, q, st, st, st);
    NodeReads(PegText, Cat([c, Star(c)]), buf, p, q, st, st);
  }

  lemma TagNameChoiceReads(buf: seq<Rune>, p: nat, quoted: bool, name: Text, st: Parsed)
    requires HasAt(buf, p, Quoted(quoted, name)) && TagNameOk(quoted, name)
    requires p + |Quoted(quoted, name)| < |buf| && buf[p + |Quoted(quoted, name)|] == R('=')
    ensures Reads(Alt(QUOTED_TAG_NAME, Node(PegText, TAG_TEXT)), buf, p, p + |Quoted(quoted, name)|, st, st.(text := name))
  {
    var q, st1 := p + |Quoted(quoted, name)|, st.(text := name);
    if quoted {
      QuotedParts(buf, p, name);
      TagTextReads(QUOTED_TAG_RUNES, buf, p + 1, name, st);
      ChrReads(R('"'), buf, p, st);
      ChrReads(R('"'), buf, q - 1, st1);
      Cat3Reads(QUOTE, Node(PegText, QUOTED_TAG_TEXT), QUOTE, buf, p, p + 1, q - 1, q, st, st, st1, st1);
    } else {
      HasRunes(buf, p, name);
      NoQuoteFails(Node(PegText, QUOTED_TAG_TEXT), buf, p);
      TagTextReads(TAG_RUNES, buf, p, name, st);
    }
  }

  lemma TagNameReads(buf: seq<Rune>, p: nat, quoted: bool, name: Text, st: Parsed)
    requires HasAt(buf, p, Quoted(quoted, name)) && TagNameOk(quoted, name)
    requires p + |Quoted(quoted, name)| < |buf| && buf[p + |Quoted(quoted, name)|] == R('=')
    ensures Reads(TAG_NAME, buf, p, p + |Quoted(quoted, name)|, st, st.(text := name, currentTag := name))
  {
    var q, st1 := p + |Quoted(quoted, name)|, st.(text := name);
    TagNameChoiceReads(buf, p, quoted, name, st);
    ActReads(Action2, buf, q, st1);
    Cat2Reads(Alt(QUOTED_TAG_NAME, Node(PegText, TAG_TEXT)), Act(Action2), buf, p, q, q, st, st1, st1.(currentTag := name));
    NodeReads(TagName, TAG_NAME_CAT, buf, p, q, st, st1.(currentTag := name));
  }

  // ---- tagValue --------------------------------------------------------------------------------

  /** Not the end symbol, and a quote only right after a backslash that comes no earlier than p. */
  predicate UnitRune(buf: seq<Rune>, p: nat, i: nat)
    requires p <= i < |buf|
  {
    buf[i] != END_SYMBOL && (buf[i] == R('"') ==> i > p && buf[i - 1] == R('\\'))
  }

  /** No bare quote, and no backslash at the end, where it would hide the closing quote. */
  predicate ValueOk(v: Text) {
    v != [] && v[|v| - 1] != R('\\') && forall i :: 0 <= i < |v| ==> UnitRune(v, 0, i)
  }

  /** The same about a stretch of the buffer that ends at a quote. */
  ghost predicate UnitsAt(buf: seq<Rune>, p: nat, q: nat) {
    p <= q < |buf| && buf[q] == R('"') && (p < q ==> buf[q - 1] != R('\\')) &&
    forall i :: p <= i < q ==> UnitRune(buf, p, i)
  }

  /** An escaped quote is one unit, any other rune that is not a quote is one. */
  function UnitEnd(buf: seq<Rune>, p: nat): nat
    requires p + 1 < |buf|
  {
    if buf[p] == R('\\') && buf[p + 1] == R('"') then p + 2 else p + 1
  }

  lemma UnitReads(buf: seq<Rune>, p: nat, q: nat, st: Parsed)
    requires UnitsAt(buf, p, q) && p < q
    ensures Reads(VALUE_UNIT, buf, p, UnitEnd(buf, p), st, st)
    ensures UnitsAt(buf, UnitEnd(buf, p), q)
  {
    forall i | UnitEnd(buf, p) <= i < q ensures UnitRune(buf, UnitEnd(buf, p), i) {
      assert UnitRune(buf, p, i);
    }
    if UnitEnd(buf, p) == p + 2 {
      ChrReads(R('\\'), buf, p, st);
      ChrReads(R('"'), buf, p + 1, st);
      Cat2Reads(Chr(R('\\')), QUOTE, buf, p, p + 1, p + 2, st, st, st);
    } else {
      EscapeFails(buf, p);
      assert UnitRune(buf, p, p);
      assert Eval(QUOTE, buf, p).Fail?;
      assert Eval(Not(QUOTE), buf, p) == Match(p, []);
      assert Reads(Not(QUOTE), buf, p, p, st, st);
      assert Reads(Dot, buf, p, p + 1, st, st);
      Cat2Reads(Not(QUOTE), Dot, buf, p, p, p + 1, st, st, st);
    }
  }

  lemma EscapeFails(buf: seq<Rune>, p: nat)
    requires p + 1 < |buf| && !(buf[p] == R('\\') && buf[p + 1] == R('"'))
    ensures Fails(ESCAPED_QUOTE, buf, p)
  {
    CatStart(ESCAPED_QUOTE, buf, p, START);
    if buf[p] == R('\\') {
      CatNext(ESCAPED_QUOTE, 0, buf, p, p, p + 1, START, START, START);
      CatBreaks(ESCAPED_QUOTE, 1, buf, p, p + 1, START, START);
    } else {
      CatBreaks(ESCAPED_QUOTE, 0, buf, p, p, START, START);
    }
  }

  /** A bare quote is no unit. */
  lemma QuoteEndsUnits(buf: seq<Rune>, q: nat)
    requires q < |buf| && buf[q] == R('"')
    ensures Fails(VALUE_UNIT, buf, q)
  {
    CatStart(ESCAPED_QUOTE, buf, q, START);
    CatBreaks(ESCAPED_QUOTE, 0, buf, q, q, START, START);
    CatStart(UNQUOTED, buf, q, START);
    CatBreaks(UNQUOTED, 0, buf, q, q, START, START);
  }

  lemma {:induction false} UnitsRead(buf: seq<Rune>, p: nat, q: nat, st: Parsed)
    requires UnitsAt(buf, p, q)
    ensures Reads(Star(VALUE_UNIT), buf, p, q, st, st)
    decreases q - p
  {
    if p == q {
      QuoteEndsUnits(buf, q);
    } else {
      UnitReads(buf, p, q, st);
      UnitsRead(buf, UnitEnd(buf, p), q, st);
      StarStep(VALUE_UNIT, buf, p, UnitEnd(buf, p), q, st, st, st);
    }
  }

  lemma StarStep(e: Exp, buf: seq<Rune>, p: nat, m: nat, q: nat, st: Parsed, st1: Parsed, st2: Parsed)
    requires p < m && Reads(e, buf, p, m, st, st1) && Reads(Star(e), buf, m, q, st1, st2)
    ensures Reads(Star(e), buf, p, q, st, st2)
  {
    var t, u := Eval(e, buf, p).tokens, Eval(Star(e), buf, m).tokens;
    ExecConcat(t, u, |u|, buf, st);
  }

  lemma ValueUnitsRead(buf: seq<Rune>, p: nat, v: Text, st: Parsed)
    requires HasAt(buf, p, v) && ValueOk(v) && p + |v| < |buf| && buf[p + |v|] == R('"')
    ensures Reads(Node(PegText, VALUE_UNITS), buf, p, p + |v|, st, st.(text := v))
  {
    var q := p + |v|;
    HasRunes(buf, p, v);
    forall i | p <= i < q ensures UnitRune(buf, p, i) {
      assert UnitRune(v, 0, i - p);
      assert buf[i] == v[i - p] && (i > p ==> buf[i - 1] == v[i - p - 1]);
    }
    UnitReads(buf, p, q, st);
    UnitsRead(buf, UnitEnd(buf, p), q, st);
    Cat2Reads(VALUE_UNIT, Star(VALUE_UNIT), buf, p, UnitEnd(buf, p), q, st, st, st);
    NodeReads(PegText, VALUE_UNITS, buf, p, q, st, st);
  }

  lemma TagValueReads(buf: seq<Rune>, p: nat, v: Text, st: Parsed)
    requires HasAt(buf, p, Quoted(true, v)) && ValueOk(v)
    ensures Reads(TAG_VALUE, buf, p, p + |v| + 2, st, st.(text := v, tags := st.tags[st.currentTag := v]))
  {
    var q, st1 := p + 1 + |v|, st.(text := v);
    var st2 := st1.(tags := st1.tags[st1.currentTag := v]);
    QuotedParts(buf, p, v);
    ValueUnitsRead(buf, p + 1, v, st);
    ChrReads(R('"'), buf, p, st);
    ChrReads(R('"'), buf, q, st1);
    ActReads(Action3, buf, q + 1, st1);
    Cat4Reads(QUOTE, Node(PegText, VALUE_UNITS), QUOTE, Act(Action3), buf, p, p + 1, q, q + 1, q + 1, st, st, st1, st1, st2);
    NodeReads(TagValue, TAG_VALUE_CAT, buf, p, q + 1, st, st2);
  }
}
