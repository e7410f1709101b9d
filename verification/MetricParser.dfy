/**
 * The generated parser of internal/testproxy/metrics/metric_grammar.peg.go: a position and a token
 * index that rules move forwards and set back, and a token list that is overwritten after a failure.
 * Every rule is proved to do what the grammar says.
 */
module MetricParser {
  import opened Peg
  import opened MetricGrammar

  class Parser {
    var buffer: seq<Rune>
    var position: nat
    var tokenIndex: nat
    var tree: seq<Token>

    ghost predicate Valid()
      reads this
    {
      position < |buffer| && tokenIndex <= |tree| &&
      forall i :: 0 <= i < |buffer| ==> (buffer[i] == END_SYMBOL <==> i == |buffer| - 1)
    }

    /** The tokens that count; the rest of the list is left over from failed attempts. */
    ghost function Emitted(): seq<Token>
      requires tokenIndex <= |tree|
      reads this
    {
      tree[..tokenIndex]
    }

    /**
     * A rule for e ran from position p with tokens ts: it either matched what the grammar says and
     * appended the tokens it says, or it failed as the grammar says and put everything back.
     */
    ghost predicate Ran(e: Exp, ok: bool, p: nat, ts: seq<Token>)
      reads this
    {
      Valid() && p <= |buffer| &&
      match Eval(e, buffer, p)
      case Fail => !ok && position == p && Emitted() == ts
      case Match(q, t) => ok && position == q && Emitted() == ts + t
    }

    /** The first k members of the sequence e have matched; or one has failed, and nothing is put back yet. */
    ghost predicate InCat(ok: bool, e: Exp, k: nat, p: nat, ts: seq<Token>)
      reads this
    {
      Valid() && p <= |buffer| && e.Cat? && k <= |e.es| &&
      if ok then Reached(EvalCat(e, k, buffer, p), ts)
      else Eval(e, buffer, p).Fail? && ts <= Emitted()
    }

    ghost predicate Reached(r: Result, ts: seq<Token>)
      requires tokenIndex <= |tree|
      reads this
    {
      r.Match? && position == r.pos && Emitted() == ts + r.tokens
    }

    // ---- tokens32.Add, add, and setting back ---------------------------------------------------

    /** tokens32.Add: overwrite, or append at the end. */
    method AddToken(rule: Rule, begin: nat, end: nat, index: nat)
      requires index <= |tree|
      modifies this`tree
      ensures index < |tree| && |tree| >= |old(tree)|
      ensures tree[..index + 1] == old(tree)[..index] + [Token(rule, begin, end)]
    {
      if index >= |tree| {
        tree := tree + [Token(rule, begin, end)];
        return;
      }
      tree := tree[index := Token(rule, begin, end)];
    }

    method Add(rule: Rule, begin: nat)
      requires Valid()
      modifies this`tree, this`tokenIndex
      ensures Valid() && Emitted() == old(Emitted()) + [Token(rule, begin, position)]
    {
      AddToken(rule, begin, position, tokenIndex);
      tokenIndex := tokenIndex + 1;
    }

    method Backtrack(position0: nat, tokenIndex0: nat, ghost ts: seq<Token>)
      requires Valid() && position0 < |buffer| && tokenIndex0 == |ts| && ts <= Emitted()
      modifies this`position, this`tokenIndex
      ensures Valid() && position == position0 && Emitted() == ts
    {
      position, tokenIndex := position0, tokenIndex0;
    }

    // ---- Members of a sequence -----------------------------------------------------------------

    /** After a member has run, the sequence is one further, or has failed. */
    lemma {:induction false} CatStep(e: Exp, k: nat, p: nat, ts: seq<Token>, mid: seq<Token>, q: nat, ok: bool)
      requires p <= |buffer| && e.Cat? && k < |e.es|
      requires EvalCat(e, k, buffer, p).Match? && q == EvalCat(e, k, buffer, p).pos
      requires mid == ts + EvalCat(e, k, buffer, p).tokens
      requires Ran(e.es[k], ok, q, mid)
      ensures InCat(ok, e, k + 1, p, ts)
    {
      if !ok {
        CatFails(e, k + 1, |e.es|, buffer, p);
      }
    }

    lemma CatBegins(e: Exp, p: nat, ts: seq<Token>)
      requires Valid() && e.Cat? && p == position && ts == Emitted()
      ensures InCat(true, e, 0, p, ts)
    {
      assert ts + [] == ts;
    }

    method EndCat(ok: bool, position0: nat, tokenIndex0: nat, ghost e: Exp, ghost ts: seq<Token>)
      requires position0 < |buffer| && e.Cat? && InCat(ok, e, |e.es|, position0, ts) && tokenIndex0 == |ts|
      modifies this`position, this`tokenIndex
      ensures Ran(e, ok, position0, ts)
    {
      if !ok {
        Backtrack(position0, tokenIndex0, ts);
      }
    }

    // ---- Single runes --------------------------------------------------------------------------

    method MatchChar(c: Rune) returns (ok: bool)
      requires Valid() && c != END_SYMBOL
      modifies this`position
      ensures Ran(Chr(c), ok, old(position), old(Emitted()))
    {
      if buffer[position] != c {
        return false;
      }
      position := position + 1;
      return true;
    }

    method MatchDot() returns (ok: bool)
      requires Valid()
      modifies this`position
      ensures Ran(Dot, ok, old(position), old(Emitted()))
    {
      if buffer[position] != END_SYMBOL {
        position := position + 1;
        return true;
      }
      return false;
    }

    /** The switch over a set of runes, whose default case is one of them too. */
    method MatchOneOf(cs: seq<Rune>) returns (ok: bool)
      requires Valid() && END_SYMBOL !in cs
      modifies this`position
      ensures Ran(OneOf(cs), ok, old(position), old(Emitted()))
    {
      if buffer[position] !in cs {
        return false;
      }
      position := position + 1;
      return true;
    }

    method MatchRange(lo: Rune, hi: Rune) returns (ok: bool)
      requires Valid() && hi < END_SYMBOL
      modifies this`position
      ensures Ran(Range(lo, hi), ok, old(position), old(Emitted()))
    {
      var c := buffer[position];
      if c < lo || c > hi {
        return false;
      }
      position := position + 1;
      return true;
    }

    // ---- Putting expressions together ----------------------------------------------------------

    method EndNode(ok: bool, rule: Rule, begin: nat, ghost e: Exp, ghost ts: seq<Token>)
      requires Ran(e, ok, begin, ts)
      modifies this`tokenIndex, this`tree
      ensures Ran(Node(rule, e), ok, begin, ts)
    {
      if ok {
        Add(rule, begin);
      }
    }

    method AddAction(rule: Rule)
      requires Valid()
      modifies this`tokenIndex, this`tree
      ensures Ran(Act(rule), true, old(position), old(Emitted()))
    {
      Add(rule, position);
    }

    lemma FirstChoice(a: Exp, b: Exp, p: nat, ts: seq<Token>)
      requires Ran(a, true, p, ts)
      ensures Ran(Alt(a, b), true, p, ts)
    {
    }

    lemma {:induction false} SecondChoice(a: Exp, b: Exp, ok: bool, p: nat, ts: seq<Token>)
      requires p <= |buffer| && Eval(a, buffer, p).Fail? && Ran(b, ok, p, ts)
      ensures Ran(Alt(a, b), ok, p, ts)
    {
    }

    lemma Optional(e: Exp, ok: bool, p: nat, ts: seq<Token>)
      requires Ran(e, ok, p, ts)
      ensures Ran(Opt(e), true, p, ts)
    {
    }

    // ---- Rules: digits and letters -------------------------------------------------------------

    method DigitRule() returns (ok: bool)
      requires Valid()
      modifies this`position, this`tokenIndex, this`tree
      ensures Ran(DIGIT, ok, old(position), old(Emitted()))
    {
      ghost var ts := Emitted();
      var position119 := position;
      ok := MatchRange(R('0'), R('9'));
      EndNode(ok, Digit, position119, Range(R('0'), R('9')), ts);
    }

    method AlnumRule() returns (ok: bool)
      requires Valid()
      modifies this`position, this`tokenIndex, this`tree
      ensures Ran(ALNUM, ok, old(position), old(Emitted()))
    {
      ghost var ts := Emitted();
      var position116 := position;
      var c := buffer[position];
      ghost var digit, upper, lower := Range(R('0'), R('9')), Range(R('A'), R('Z')), Range(R('a'), R('z'));
      if R('0') <= c <= R('9') {
        ok := MatchRange(R('0'), R('9'));
        FirstChoice(digit, Alt(upper, lower), position116, ts);
      } else if R('A') <= c <= R('Z') {
        ok := MatchRange(R('A'), R('Z'));
        FirstChoice(upper, lower, position116, ts);
        SecondChoice(digit, Alt(upper, lower), ok, position116, ts);
      } else {
        ok := MatchRange(R('a'), R('z'));
        SecondChoice(upper, lower, ok, position116, ts);
        SecondChoice(digit, Alt(upper, lower), ok, position116, ts);
      }
      EndNode(ok, Alnum, position116, ALNUM.e, ts);
    }
  
    /** A letter or digit, or one of a few other runes: ALNUM / [...] as it is inlined everywhere. */
    method NameChar(cs: seq<Rune>) returns (ok: bool)
      requires Valid() && END_SYMBOL !in cs
      modifies this`position, this`tokenIndex, this`tree
      ensures Ran(Alt(ALNUM, OneOf(cs)), ok, old(position), old(Emitted()))
    {
      ghost var p, ts := position, Emitted();
      ok := AlnumRule();
      if ok {
        FirstChoice(ALNUM, OneOf(cs), p, ts);
      } else {
        ok := MatchOneOf(cs);
        SecondChoice(ALNUM, OneOf(cs), ok, p, ts);
      }
    }

    // ---- Repetition ----------------------------------------------------------------------------

    /** What has been matched of Star(e) so far, when the rest starts at position. */
    ghost predicate InStar(e: Exp, p: nat, ts: seq<Token>)
      reads this
    {
      Valid() && p <= position &&
      exists t :: Emitted() == ts + t && StarFrom(e, buffer, p, position, t)
    }

    /** Having matched up to q with tokens t, the repetition goes on as it does from q. */
    ghost predicate StarFrom(e: Exp, buf: seq<Rune>, p: nat, q: nat, t: seq<Token>)
      requires p <= q <= |buf|
    {
      var rest := Eval(Star(e), buf, q);
      Eval(Star(e), buf, p) == Match(rest.pos, t + rest.tokens)
    }

    lemma StarBegins(e: Exp, p: nat, ts: seq<Token>)
      requires Valid() && p == position && ts == Emitted()
      ensures InStar(e, p, ts)
    {
      assert StarFrom(e, buffer, p, p, []);
      assert ts + [] == ts;
    }

    lemma {:induction false} StarGoesOn(e: Exp, p: nat, ts: seq<Token>, q: nat, t: seq<Token>)
      requires Consumes(e) && p <= q < |buffer| && StarFrom(e, buffer, p, q, t)
      requires Ran(e, true, q, ts + t)
      ensures InStar(e, p, ts)
    {
      ConsumesInput(e, buffer, q);
      var u := Eval(e, buffer, q).tokens;
      var rest := Eval(Star(e), buffer, position);
      assert t + (u + rest.tokens) == (t + u) + rest.tokens;
      assert ts + t + u == ts + (t + u);
      assert StarFrom(e, buffer, p, position, t + u);
    }

    lemma StarEnds(e: Exp, p: nat, ts: seq<Token>, t: seq<Token>)
      requires Valid() && p <= position && StarFrom(e, buffer, p, position, t)
      requires Ran(e, false, position, ts + t)
      ensures Ran(Star(e), true, p, ts)
    {
      assert t + [] == t;
    }

    method Digits() 
      requires Valid()
      modifies this`position, this`tokenIndex, this`tree
      ensures Ran(Star(DIGIT), true, old(position), old(Emitted()))
    {
      ghost var p, ts := position, Emitted();
      StarBegins(DIGIT, p, ts);
      while true
        invariant InStar(DIGIT, p, ts)
        decreases |buffer| - position
      {
        ghost var t :| Emitted() == ts + t && StarFrom(DIGIT, buffer, p, position, t);
        ghost var q := position;
        var ok := DigitRule();
        if !ok {
          StarEnds(DIGIT, p, ts, t);
          return;
        }
        ConsumesInput(DIGIT, buffer, q);
        StarGoesOn(DIGIT, p, ts, q, t);
      }
    }
  
    // ---- Members of sequences, by kind -----------------------------------------------------------

    method CharMember(c: Rune, ghost e: Exp, ghost k: nat, ghost p: nat, ghost ts: seq<Token>) returns (ok: bool)
      requires InCat(true, e, k, p, ts) && k < |e.es| && e.es[k] == Chr(c) && c != END_SYMBOL
      modifies this`position, this`tokenIndex, this`tree
      ensures InCat(ok, e, k + 1, p, ts)
    {
      ghost var q, mid := position, Emitted();
      ok := MatchChar(c);
      CatStep(e, k, p, ts, mid, q, ok);
    }

    method DigitMember(ghost e: Exp, ghost k: nat, ghost p: nat, ghost ts: seq<Token>) returns (ok: bool)
      requires InCat(true, e, k, p, ts) && k < |e.es| && e.es[k] == DIGIT
      modifies this`position, this`tokenIndex, this`tree
      ensures InCat(ok, e, k + 1, p, ts)
    {
      ghost var q, mid := position, Emitted();
      ok := DigitRule();
      CatStep(e, k, p, ts, mid, q, ok);
    }

    method NameChars(cs: seq<Rune>)
      requires Valid() && END_SYMBOL !in cs
      modifies this`position, this`tokenIndex, this`tree
      ensures Ran(Star(Alt(ALNUM, OneOf(cs))), true, old(position), old(Emitted()))
    {
      ghost var p, ts := position, Emitted();
      StarBegins(Alt(ALNUM, OneOf(cs)), p, ts);
      while true
        invariant InStar(Alt(ALNUM, OneOf(cs)), p, ts)
        decreases |buffer| - position
      {
        ghost var t :| Emitted() == ts + t && StarFrom(Alt(ALNUM, OneOf(cs)), buffer, p, position, t);
        ghost var q := position;
        var ok := NameChar(cs);
        if !ok {
          StarEnds(Alt(ALNUM, OneOf(cs)), p, ts, t);
          return;
        }
        ConsumesInput(Alt(ALNUM, OneOf(cs)), buffer, q);
        StarGoesOn(Alt(ALNUM, OneOf(cs)), p, ts, q, t);
      }
    }

    method OptionalChar(c: Rune)
      requires Valid() && c != END_SYMBOL
      modifies this`position, this`tokenIndex, this`tree
      ensures Ran(Opt(Chr(c)), true, old(position), old(Emitted()))
    {
      ghost var p, ts := position, Emitted();
      var ok := MatchChar(c);
      Optional(Chr(c), ok, p, ts);
    }

    // ---- Rule timestamp (line 898) ---------------------------------------------------------------

    method ThreeDigits() returns (ok: bool)
      requires Valid()
      modifies this`position, this`tokenIndex, this`tree
      ensures Ran(THREE_DIGITS, ok, old(position), old(Emitted()))
    {
      ghost var p, ts := position, Emitted();
      var position67, tokenIndex67 := position, tokenIndex;
      CatBegins(THREE_DIGITS, p, ts);
      ok := DigitMember(THREE_DIGITS, 0, p, ts);
      if ok { ok := DigitMember(THREE_DIGITS, 1, p, ts); }
      if ok { ok := DigitMember(THREE_DIGITS, 2, p, ts); }
      EndCat(ok, position67, tokenIndex67, THREE_DIGITS, ts);
    }

    method OptionalThreeDigits()
      requires Valid()
      modifies this`position, this`tokenIndex, this`tree
      ensures Ran(Opt(THREE_DIGITS), true, old(position), old(Emitted()))
    {
      ghost var p, ts := position, Emitted();
      var ok := ThreeDigits();
      Optional(THREE_DIGITS, ok, p, ts);
    }

    method FiveDigitsMember(ghost e: Exp, ghost k: nat, ghost p: nat, ghost ts: seq<Token>) returns (ok: bool)
      requires InCat(true, e, k, p, ts) && k + 5 <= |e.es| && forall j :: k <= j < k + 5 ==> e.es[j] == DIGIT
      modifies this`position, this`tokenIndex, this`tree
      ensures InCat(ok, e, k + 5, p, ts)
    {
      ok := DigitMember(e, k, p, ts);
      if ok { ok := DigitMember(e, k + 1, p, ts); }
      if ok { ok := DigitMember(e, k + 2, p, ts); }
      if ok { ok := DigitMember(e, k + 3, p, ts); }
      if ok { ok := DigitMember(e, k + 4, p, ts); }
    }

    method TimestampText() returns (ok: bool)
      requires Valid()
      modifies this`position, this`tokenIndex, this`tree
      ensures Ran(Node(PegText, TIMESTAMP_DIGITS), ok, old(position), old(Emitted()))
    {
      ghost var p, ts := position, Emitted();
      ghost var q, mid := position, Emitted();
      var position64, tokenIndex64 := position, tokenIndex;
      CatBegins(TIMESTAMP_DIGITS, p, ts);
      ok := FiveDigitsMember(TIMESTAMP_DIGITS, 0, p, ts);
      if ok { ok := FiveDigitsMember(TIMESTAMP_DIGITS, 5, p, ts); }
      if ok { q, mid := position, Emitted(); OptionalThreeDigits(); CatStep(TIMESTAMP_DIGITS, 10, p, ts, mid, q, true); }
      if ok { q, mid := position, Emitted(); OptionalThreeDigits(); CatStep(TIMESTAMP_DIGITS, 11, p, ts, mid, q, true); }
      EndCat(ok, position64, tokenIndex64, TIMESTAMP_DIGITS, ts);
      EndNode(ok, PegText, position64, TIMESTAMP_DIGITS, ts);
    }

    method TimestampRule() returns (ok: bool)
      requires Valid()
      modifies this`position, this`tokenIndex, this`tree
      ensures Ran(TIMESTAMP, ok, old(position), old(Emitted()))
    {
      ghost var p, ts := position, Emitted();
      ghost var q, mid := position, Emitted();
      var position64, tokenIndex64 := position, tokenIndex;
      CatBegins(TIMESTAMP_CAT, p, ts);
      q, mid := position, Emitted(); ok := TimestampText(); CatStep(TIMESTAMP_CAT, 0, p, ts, mid, q, ok);
      if ok { q, mid := position, Emitted(); AddAction(Action4); CatStep(TIMESTAMP_CAT, 1, p, ts, mid, q, true); }
      EndCat(ok, position64, tokenIndex64, TIMESTAMP_CAT, ts);
      EndNode(ok, Timestamp, position64, TIMESTAMP_CAT, ts);
    }

    method SpaceTimestamp() returns (ok: bool)
      requires Valid()
      modifies this`position, this`tokenIndex, this`tree
      ensures Ran(SPACE_TIMESTAMP, ok, old(position), old(Emitted()))
    {
      ghost var p, ts := position, Emitted();
      ghost var q, mid := position, Emitted();
      var position7, tokenIndex7 := position, tokenIndex;
      CatBegins(SPACE_TIMESTAMP, p, ts);
      ok := CharMember(R(' '), SPACE_TIMESTAMP, 0, p, ts);
      if ok { q, mid := position, Emitted(); ok := TimestampRule(); CatStep(SPACE_TIMESTAMP, 1, p, ts, mid, q, ok); }
      EndCat(ok, position7, tokenIndex7, SPACE_TIMESTAMP, ts);
    }

    method OptionalTimestamp()
      requires Valid()
      modifies this`position, this`tokenIndex, this`tree
      ensures Ran(Opt(SPACE_TIMESTAMP), true, old(position), old(Emitted()))
    {
      ghost var p, ts := position, Emitted();
      var ok := SpaceTimestamp();
      Optional(SPACE_TIMESTAMP, ok, p, ts);
    }

    // ---- Rule metricValue (line 979) -------------------------------------------------------------

    method Fraction() returns (ok: bool)
      requires Valid()
      modifies this`position, this`tokenIndex, this`tree
      ensures Ran(FRACTION, ok, old(position), old(Emitted()))
    {
      ghost var p, ts := position, Emitted();
      ghost var q, mid := position, Emitted();
      var position79, tokenIndex79 := position, tokenIndex;
      CatBegins(FRACTION, p, ts);
      ok := CharMember(R('.'), FRACTION, 0, p, ts);
      if ok { ok := DigitMember(FRACTION, 1, p, ts); }
      if ok { q, mid := position, Emitted(); Digits(); CatStep(FRACTION, 2, p, ts, mid, q, true); }
      EndCat(ok, position79, tokenIndex79, FRACTION, ts);
    }

    method OptionalFraction()
      requires Valid()
      modifies this`position, this`tokenIndex, this`tree
      ensures Ran(Opt(FRACTION), true, old(position), old(Emitted()))
    {
      ghost var p, ts := position, Emitted();
      var ok := Fraction();
      Optional(FRACTION, ok, p, ts);
    }

    method ValueText() returns (ok: bool)
      requires Valid()
      modifies this`position, this`tokenIndex, this`tree
      ensures Ran(Node(PegText, VALUE_CAT), ok, old(position), old(Emitted()))
    {
      ghost var p, ts := position, Emitted();
      ghost var q, mid := position, Emitted();
      var position72, tokenIndex72 := position, tokenIndex;
      CatBegins(VALUE_CAT, p, ts);
      ok := true;
      q, mid := position, Emitted(); OptionalChar(R('-')); CatStep(VALUE_CAT, 0, p, ts, mid, q, true);
      if ok { ok := DigitMember(VALUE_CAT, 1, p, ts); }
      if ok { q, mid := position, Emitted(); Digits(); CatStep(VALUE_CAT, 2, p, ts, mid, q, true); }
      if ok { q, mid := position, Emitted(); OptionalFraction(); CatStep(VALUE_CAT, 3, p, ts, mid, q, true); }
      EndCat(ok, position72, tokenIndex72, VALUE_CAT, ts);
      EndNode(ok, PegText, position72, VALUE_CAT, ts);
    }

    method MetricValueRule() returns (ok: bool)
      requires Valid()
      modifies this`position, this`tokenIndex, this`tree
      ensures Ran(METRIC_VALUE, ok, old(position), old(Emitted()))
    {
      ghost var p, ts := position, Emitted();
      ghost var q, mid := position, Emitted();
      var position72, tokenIndex72 := position, tokenIndex;
      CatBegins(METRIC_VALUE_CAT, p, ts);
      q, mid := position, Emitted(); ok := ValueText(); CatStep(METRIC_VALUE_CAT, 0, p, ts, mid, q, ok);
      if ok { q, mid := position, Emitted(); AddAction(Action5); CatStep(METRIC_VALUE_CAT, 1, p, ts, mid, q, true); }
      EndCat(ok, position72, tokenIndex72, METRIC_VALUE_CAT, ts);
      EndNode(ok, MetricValue, position72, METRIC_VALUE_CAT, ts);
    }

    // ---- Rule metricName (line 1046) -------------------------------------------------------------

    method NameText() returns (ok: bool)
      requires Valid()
      modifies this`position, this`tokenIndex, this`tree
      ensures Ran(NAME_TEXT, ok, old(position), old(Emitted()))
    {
      ghost var p, ts := position, Emitted();
      ghost var q, mid := position, Emitted();
      var position86, tokenIndex86 := position, tokenIndex;
      CatBegins(NAME_CAT, p, ts);
      ok := true;
      q, mid := position, Emitted(); OptionalChar(INCREMENT); CatStep(NAME_CAT, 0, p, ts, mid, q, true);
      if ok { q, mid := position, Emitted(); OptionalChar(R('~')); CatStep(NAME_CAT, 1, p, ts, mid, q, true); }
      if ok { q, mid := position, Emitted(); ok := NameChar([R(','), R('/'), R('.'), R('_'), R('-'), R('~')]); CatStep(NAME_CAT, 2, p, ts, mid, q, ok); }
      if ok { q, mid := position, Emitted(); NameChars([R(','), R('/'), R('.'), R('_'), R('-'), R('~')]); CatStep(NAME_CAT, 3, p, ts, mid, q, true); }
      EndCat(ok, position86, tokenIndex86, NAME_CAT, ts);
      EndNode(ok, PegText, position86, NAME_CAT, ts);
    }

    method QuotedName() returns (ok: bool)
      requires Valid()
      modifies this`position, this`tokenIndex, this`tree
      ensures Ran(QUOTED_NAME, ok, old(position), old(Emitted()))
    {
      ghost var p, ts := position, Emitted();
      ghost var q, mid := position, Emitted();
      var position86, tokenIndex86 := position, tokenIndex;
      CatBegins(QUOTED_NAME, p, ts);
      ok := CharMember(R('"'), QUOTED_NAME, 0, p, ts);
      if ok { q, mid := position, Emitted(); ok := NameText(); CatStep(QUOTED_NAME, 1, p, ts, mid, q, ok); }
      if ok { ok := CharMember(R('"'), QUOTED_NAME, 2, p, ts); }
      EndCat(ok, position86, tokenIndex86, QUOTED_NAME, ts);
    }

    method NameChoice() returns (ok: bool)
      requires Valid()
      modifies this`position, this`tokenIndex, this`tree
      ensures Ran(Alt(QUOTED_NAME, NAME_TEXT), ok, old(position), old(Emitted()))
    {
      ghost var p, ts := position, Emitted();
      ok := QuotedName();
      if ok {
        FirstChoice(QUOTED_NAME, NAME_TEXT, p, ts);
      } else {
        ok := NameText();
        SecondChoice(QUOTED_NAME, NAME_TEXT, ok, p, ts);
      }
    }

    method MetricNameRule() returns (ok: bool)
      requires Valid()
      modifies this`position, this`tokenIndex, this`tree
      ensures Ran(METRIC_NAME, ok, old(position), old(Emitted()))
    {
      ghost var p, ts := position, Emitted();
      ghost var q, mid := position, Emitted();
      var position84, tokenIndex84 := position, tokenIndex;
      CatBegins(METRIC_NAME_CAT, p, ts);
      q, mid := position, Emitted(); ok := NameChoice(); CatStep(METRIC_NAME_CAT, 0, p, ts, mid, q, ok);
      if ok { q, mid := position, Emitted(); AddAction(Action6); CatStep(METRIC_NAME_CAT, 1, p, ts, mid, q, true); }
      EndCat(ok, position84, tokenIndex84, METRIC_NAME_CAT, ts);
      EndNode(ok, MetricName, position84, METRIC_NAME_CAT, ts);
    }

    // ---- Rules tag, tagName, tagValue (line 622) -------------------------------------------------

    method QuotedTagText() returns (ok: bool)
      requires Valid()
      modifies this`position, this`tokenIndex, this`tree
      ensures Ran(Node(PegText, QUOTED_TAG_TEXT), ok, old(position), old(Emitted()))
    {
      ghost var p, ts := position, Emitted();
      ghost var q, mid := position, Emitted();
      var position32, tokenIndex32 := position, tokenIndex;
      CatBegins(QUOTED_TAG_TEXT, p, ts);
      q, mid := position, Emitted(); ok := NameChar([R('.'), R('_'), R('-'), R('/')]); CatStep(QUOTED_TAG_TEXT, 0, p, ts, mid, q, ok);
      if ok { q, mid := position, Emitted(); NameChars([R('.'), R('_'), R('-'), R('/')]); CatStep(QUOTED_TAG_TEXT, 1, p, ts, mid, q, true); }
      EndCat(ok, position32, tokenIndex32, QUOTED_TAG_TEXT, ts);
      EndNode(ok, PegText, position32, QUOTED_TAG_TEXT, ts);
    }

    method QuotedTagName() returns (ok: bool)
      requires Valid()
      modifies this`position, this`tokenIndex, this`tree
      ensures Ran(QUOTED_TAG_NAME, ok, old(position), old(Emitted()))
    {
      ghost var p, ts := position, Emitted();
      ghost var q, mid := position, Emitted();
      var position30, tokenIndex30 := position, tokenIndex;
      CatBegins(QUOTED_TAG_NAME, p, ts);
      ok := CharMember(R('"'), QUOTED_TAG_NAME, 0, p, ts);
      if ok { q, mid := position, Emitted(); ok := QuotedTagText(); CatStep(QUOTED_TAG_NAME, 1, p, ts, mid, q, ok); }
      if ok { ok := CharMember(R('"'), QUOTED_TAG_NAME, 2, p, ts); }
      EndCat(ok, position30, tokenIndex30, QUOTED_TAG_NAME, ts);
    }

    method TagText() returns (ok: bool)
      requires Valid()
      modifies this`position, this`tokenIndex, this`tree
      ensures Ran(Node(PegText, TAG_TEXT), ok, old(position), old(Emitted()))
    {
      ghost var p, ts := position, Emitted();
      ghost var q, mid := position, Emitted();
      var position41, tokenIndex41 := position, tokenIndex;
      CatBegins(TAG_TEXT, p, ts);
      q, mid := position, Emitted(); ok := NameChar([R('.'), R('_'), R('-')]); CatStep(TAG_TEXT, 0, p, ts, mid, q, ok);
      if ok { q, mid := position, Emitted(); NameChars([R('.'), R('_'), R('-')]); CatStep(TAG_TEXT, 1, p, ts, mid, q, true); }
      EndCat(ok, position41, tokenIndex41, TAG_TEXT, ts);
      EndNode(ok, PegText, position41, TAG_TEXT, ts);
    }

    method TagNameChoice() returns (ok: bool)
      requires Valid()
      modifies this`position, this`tokenIndex, this`tree
      ensures Ran(Alt(QUOTED_TAG_NAME, Node(PegText, TAG_TEXT)), ok, old(position), old(Emitted()))
    {
      ghost var p, ts := position, Emitted();
      ok := QuotedTagName();
      if ok {
        FirstChoice(QUOTED_TAG_NAME, Node(PegText, TAG_TEXT), p, ts);
      } else {
        ok := TagText();
        SecondChoice(QUOTED_TAG_NAME, Node(PegText, TAG_TEXT), ok, p, ts);
      }
    }

    method TagNameRule() returns (ok: bool)
      requires Valid()
      modifies this`position, this`tokenIndex, this`tree
      ensures Ran(TAG_NAME, ok, old(position), old(Emitted()))
    {
      ghost var p, ts := position, Emitted();
      ghost var q, mid := position, Emitted();
      var position29, tokenIndex29 := position, tokenIndex;
      CatBegins(TAG_NAME_CAT, p, ts);
      q, mid := position, Emitted(); ok := TagNameChoice(); CatStep(TAG_NAME_CAT, 0, p, ts, mid, q, ok);
      if ok { q, mid := position, Emitted(); AddAction(Action2); CatStep(TAG_NAME_CAT, 1, p, ts, mid, q, true); }
      EndCat(ok, position29, tokenIndex29, TAG_NAME_CAT, ts);
      EndNode(ok, TagName, position29, TAG_NAME_CAT, ts);
    }

    method EscapedQuote() returns (ok: bool)
      requires Valid()
      modifies this`position, this`tokenIndex, this`tree
      ensures Ran(ESCAPED_QUOTE, ok, old(position), old(Emitted()))
    {
      ghost var p, ts := position, Emitted();
      var position55, tokenIndex55 := position, tokenIndex;
      CatBegins(ESCAPED_QUOTE, p, ts);
      ok := CharMember(R('\\'), ESCAPED_QUOTE, 0, p, ts);
      if ok { ok := CharMember(R('"'), ESCAPED_QUOTE, 1, p, ts); }
      EndCat(ok, position55, tokenIndex55, ESCAPED_QUOTE, ts);
    }

    /** !'"' : looks ahead and puts the position back. */
    method NotQuote() returns (ok: bool)
      requires Valid()
      modifies this`position, this`tokenIndex
      ensures Ran(Not(QUOTE), ok, old(position), old(Emitted()))
    {
      ghost var ts := Emitted();
      var position57, tokenIndex57 := position, tokenIndex;
      var found := MatchChar(R('"'));
      if found {
        Backtrack(position57, tokenIndex57, ts);
        return false;
      }
      return true;
    }

    method Unquoted() returns (ok: bool)
      requires Valid()
      modifies this`position, this`tokenIndex, this`tree
      ensures Ran(UNQUOTED, ok, old(position), old(Emitted()))
    {
      ghost var p, ts := position, Emitted();
      ghost var q, mid := position, Emitted();
      var position57, tokenIndex57 := position, tokenIndex;
      CatBegins(UNQUOTED, p, ts);
      q, mid := position, Emitted(); ok := NotQuote(); CatStep(UNQUOTED, 0, p, ts, mid, q, ok);
      if ok { q, mid := position, Emitted(); ok := MatchDot(); CatStep(UNQUOTED, 1, p, ts, mid, q, ok); }
      EndCat(ok, position57, tokenIndex57, UNQUOTED, ts);
    }

    method ValueUnit() returns (ok: bool)
      requires Valid()
      modifies this`position, this`tokenIndex, this`tree
      ensures Ran(VALUE_UNIT, ok, old(position), old(Emitted()))
    {
      ghost var p, ts := position, Emitted();
      ok := EscapedQuote();
      if ok {
        FirstChoice(ESCAPED_QUOTE, UNQUOTED, p, ts);
      } else {
        ok := Unquoted();
        SecondChoice(ESCAPED_QUOTE, UNQUOTED, ok, p, ts);
      }
    }

    method ValueUnitsRest()
      requires Valid()
      modifies this`position, this`tokenIndex, this`tree
      ensures Ran(Star(VALUE_UNIT), true, old(position), old(Emitted()))
    {
      ghost var p, ts := position, Emitted();
      StarBegins(VALUE_UNIT, p, ts);
      while true
        invariant InStar(VALUE_UNIT, p, ts)
        decreases |buffer| - position
      {
        ghost var t :| Emitted() == ts + t && StarFrom(VALUE_UNIT, buffer, p, position, t);
        ghost var q := position;
        var ok := ValueUnit();
        if !ok {
          StarEnds(VALUE_UNIT, p, ts, t);
          return;
        }
        assert Consumes(ESCAPED_QUOTE.es[0]) && Consumes(UNQUOTED.es[1]);
        ConsumesInput(VALUE_UNIT, buffer, q);
        StarGoesOn(VALUE_UNIT, p, ts, q, t);
      }
    }

    method TagValueText() returns (ok: bool)
      requires Valid()
      modifies this`position, this`tokenIndex, this`tree
      ensures Ran(Node(PegText, VALUE_UNITS), ok, old(position), old(Emitted()))
    {
      ghost var p, ts := position, Emitted();
      ghost var q, mid := position, Emitted();
      var position52, tokenIndex52 := position, tokenIndex;
      CatBegins(VALUE_UNITS, p, ts);
      q, mid := position, Emitted(); ok := ValueUnit(); CatStep(VALUE_UNITS, 0, p, ts, mid, q, ok);
      if ok { q, mid := position, Emitted(); ValueUnitsRest(); CatStep(VALUE_UNITS, 1, p, ts, mid, q, true); }
      EndCat(ok, position52, tokenIndex52, VALUE_UNITS, ts);
      EndNode(ok, PegText, position52, VALUE_UNITS, ts);
    }

    method TagValueRule() returns (ok: bool)
      requires Valid()
      modifies this`position, this`tokenIndex, this`tree
      ensures Ran(TAG_VALUE, ok, old(position), old(Emitted()))
    {
      ghost var p, ts := position, Emitted();
      ghost var q, mid := position, Emitted();
      var position51, tokenIndex51 := position, tokenIndex;
      CatBegins(TAG_VALUE_CAT, p, ts);
      ok := CharMember(R('"'), TAG_VALUE_CAT, 0, p, ts);
      if ok { q, mid := position, Emitted(); ok := TagValueText(); CatStep(TAG_VALUE_CAT, 1, p, ts, mid, q, ok); }
      if ok { ok := CharMember(R('"'), TAG_VALUE_CAT, 2, p, ts); }
      if ok { q, mid := position, Emitted(); AddAction(Action3); CatStep(TAG_VALUE_CAT, 3, p, ts, mid, q, true); }
      EndCat(ok, position51, tokenIndex51, TAG_VALUE_CAT, ts);
      EndNode(ok, TagValue, position51, TAG_VALUE_CAT, ts);
    }

    method TagRule() returns (ok: bool)
      requires Valid()
      modifies this`position, this`tokenIndex, this`tree
      ensures Ran(TAG, ok, old(position), old(Emitted()))
    {
      ghost var p, ts := position, Emitted();
      ghost var q, mid := position, Emitted();
      var position27, tokenIndex27 := position, tokenIndex;
      CatBegins(TAG_CAT, p, ts);
      q, mid := position, Emitted(); ok := TagNameRule(); CatStep(TAG_CAT, 0, p, ts, mid, q, ok);
      if ok { ok := CharMember(R('='), TAG_CAT, 1, p, ts); }
      if ok { q, mid := position, Emitted(); ok := TagValueRule(); CatStep(TAG_CAT, 2, p, ts, mid, q, ok); }
      EndCat(ok, position27, tokenIndex27, TAG_CAT, ts);
      EndNode(ok, Tag, position27, TAG_CAT, ts);
    }

    // ---- Rule tags (line 590) --------------------------------------------------------------------

    method SpaceTag() returns (ok: bool)
      requires Valid()
      modifies this`position, this`tokenIndex, this`tree
      ensures Ran(SPACE_TAG, ok, old(position), old(Emitted()))
    {
      ghost var p, ts := position, Emitted();
      ghost var q, mid := position, Emitted();
      var position26, tokenIndex26 := position, tokenIndex;
      CatBegins(SPACE_TAG, p, ts);
      ok := CharMember(R(' '), SPACE_TAG, 0, p, ts);
      if ok { q, mid := position, Emitted(); ok := TagRule(); CatStep(SPACE_TAG, 1, p, ts, mid, q, ok); }
      EndCat(ok, position26, tokenIndex26, SPACE_TAG, ts);
    }

    method MoreTags()
      requires Valid()
      modifies this`position, this`tokenIndex, this`tree
      ensures Ran(Star(SPACE_TAG), true, old(position), old(Emitted()))
    {
      ghost var p, ts := position, Emitted();
      StarBegins(SPACE_TAG, p, ts);
      while true
        invariant InStar(SPACE_TAG, p, ts)
        decreases |buffer| - position
      {
        ghost var t :| Emitted() == ts + t && StarFrom(SPACE_TAG, buffer, p, position, t);
        ghost var q := position;
        var ok := SpaceTag();
        if !ok {
          StarEnds(SPACE_TAG, p, ts, t);
          return;
        }
        assert Consumes(SPACE_TAG.es[0]);
        ConsumesInput(SPACE_TAG, buffer, q);
        StarGoesOn(SPACE_TAG, p, ts, q, t);
      }
    }

    method TagsRule() returns (ok: bool)
      requires Valid()
      modifies this`position, this`tokenIndex, this`tree
      ensures Ran(TAGS, ok, old(position), old(Emitted()))
    {
      ghost var p, ts := position, Emitted();
      ghost var q, mid := position, Emitted();
      var position22, tokenIndex22 := position, tokenIndex;
      CatBegins(TAGS_CAT, p, ts);
      ok := true;
      q, mid := position, Emitted(); AddAction(Action1); CatStep(TAGS_CAT, 0, p, ts, mid, q, true);
      if ok { q, mid := position, Emitted(); ok := TagRule(); CatStep(TAGS_CAT, 1, p, ts, mid, q, ok); }
      if ok { q, mid := position, Emitted(); MoreTags(); CatStep(TAGS_CAT, 2, p, ts, mid, q, true); }
      EndCat(ok, position22, tokenIndex22, TAGS_CAT, ts);
      EndNode(ok, Tags, position22, TAGS_CAT, ts);
    }

    // ---- Rules histogramValue, histogramValues, aggregationInterval (lines 409-473, 554) ---------

    method HistogramValueRule() returns (ok: bool)
      requires Valid()
      modifies this`position, this`tokenIndex, this`tree
      ensures Ran(HISTOGRAM_VALUE, ok, old(position), old(Emitted()))
    {
      ghost var p, ts := position, Emitted();
      ghost var q, mid := position, Emitted();
      var position18, tokenIndex18 := position, tokenIndex;
      CatBegins(HISTOGRAM_VALUE_CAT, p, ts);
      ok := CharMember(R('#'), HISTOGRAM_VALUE_CAT, 0, p, ts);
      if ok { ok := DigitMember(HISTOGRAM_VALUE_CAT, 1, p, ts); }
      if ok { q, mid := position, Emitted(); Digits(); CatStep(HISTOGRAM_VALUE_CAT, 2, p, ts, mid, q, true); }
      if ok { ok := CharMember(R(' '), HISTOGRAM_VALUE_CAT, 3, p, ts); }
      if ok { q, mid := position, Emitted(); ok := MetricValueRule(); CatStep(HISTOGRAM_VALUE_CAT, 4, p, ts, mid, q, ok); }
      EndCat(ok, position18, tokenIndex18, HISTOGRAM_VALUE_CAT, ts);
      EndNode(ok, HistogramValue, position18, HISTOGRAM_VALUE_CAT, ts);
    }

    method SpaceHistogramValue() returns (ok: bool)
      requires Valid()
      modifies this`position, this`tokenIndex, this`tree
      ensures Ran(SPACE_HISTOGRAM_VALUE, ok, old(position), old(Emitted()))
    {
      ghost var p, ts := position, Emitted();
      ghost var q, mid := position, Emitted();
      var position11, tokenIndex11 := position, tokenIndex;
      CatBegins(SPACE_HISTOGRAM_VALUE, p, ts);
      ok := CharMember(R(' '), SPACE_HISTOGRAM_VALUE, 0, p, ts);
      if ok { q, mid := position, Emitted(); ok := HistogramValueRule(); CatStep(SPACE_HISTOGRAM_VALUE, 1, p, ts, mid, q, ok); }
      EndCat(ok, position11, tokenIndex11, SPACE_HISTOGRAM_VALUE, ts);
    }

    method MoreHistogramValues()
      requires Valid()
      modifies this`position, this`tokenIndex, this`tree
      ensures Ran(Star(SPACE_HISTOGRAM_VALUE), true, old(position), old(Emitted()))
    {
      ghost var p, ts := position, Emitted();
      StarBegins(SPACE_HISTOGRAM_VALUE, p, ts);
      while true
        invariant InStar(SPACE_HISTOGRAM_VALUE, p, ts)
        decreases |buffer| - position
      {
        ghost var t :| Emitted() == ts + t && StarFrom(SPACE_HISTOGRAM_VALUE, buffer, p, position, t);
        ghost var q := position;
        var ok := SpaceHistogramValue();
        if !ok {
          StarEnds(SPACE_HISTOGRAM_VALUE, p, ts, t);
          return;
        }
        assert Consumes(SPACE_HISTOGRAM_VALUE.es[0]);
        ConsumesInput(SPACE_HISTOGRAM_VALUE, buffer, q);
        StarGoesOn(SPACE_HISTOGRAM_VALUE, p, ts, q, t);
      }
    }

    method HistogramValuesRule() returns (ok: bool)
      requires Valid()
      modifies this`position, this`tokenIndex, this`tree
      ensures Ran(HISTOGRAM_VALUES, ok, old(position), old(Emitted()))
    {
      ghost var p, ts := position, Emitted();
      ghost var q, mid := position, Emitted();
      var position9, tokenIndex9 := position, tokenIndex;
      CatBegins(HISTOGRAM_VALUES_CAT, p, ts);
      q, mid := position, Emitted(); ok := HistogramValueRule(); CatStep(HISTOGRAM_VALUES_CAT, 0, p, ts, mid, q, ok);
      if ok { q, mid := position, Emitted(); MoreHistogramValues(); CatStep(HISTOGRAM_VALUES_CAT, 1, p, ts, mid, q, true); }
      EndCat(ok, position9, tokenIndex9, HISTOGRAM_VALUES_CAT, ts);
      EndNode(ok, HistogramValues, position9, HISTOGRAM_VALUES_CAT, ts);
    }

    method AggregationIntervalRule() returns (ok: bool)
      requires Valid()
      modifies this`position, this`tokenIndex, this`tree
      ensures Ran(AGGREGATION_INTERVAL, ok, old(position), old(Emitted()))
    {
      ghost var p, ts := position, Emitted();
      ghost var q, mid := position, Emitted();
      var position4, tokenIndex4 := position, tokenIndex;
      CatBegins(INTERVAL_CAT, p, ts);
      ok := CharMember(R('!'), INTERVAL_CAT, 0, p, ts);
      if ok { q, mid := position, Emitted(); ok := MatchOneOf([R('D'), R('H'), R('M')]); CatStep(INTERVAL_CAT, 1, p, ts, mid, q, ok); }
      if ok { q, mid := position, Emitted(); AddAction(Action0); CatStep(INTERVAL_CAT, 2, p, ts, mid, q, true); }
      EndCat(ok, position4, tokenIndex4, INTERVAL_CAT, ts);
      EndNode(ok, AggregationInterval, position4, INTERVAL_CAT, ts);
    }

    // ---- Rule MetricGrammar (line 398), Parse, Trim ----------------------------------------------

    /** !. : nothing but the end symbol is left. */
    method NotDot() returns (ok: bool)
      requires Valid()
      modifies this`position, this`tokenIndex
      ensures Ran(Not(Dot), ok, old(position), old(Emitted()))
    {
      ghost var ts := Emitted();
      var position12, tokenIndex12 := position, tokenIndex;
      var found := MatchDot();
      if found {
        Backtrack(position12, tokenIndex12, ts);
        return false;
      }
      return true;
    }

    /** ' ' tags !. , the end of either kind of line. */
    method Tail(ghost e: Exp, ghost k: nat, ghost p: nat, ghost ts: seq<Token>) returns (ok: bool)
      requires InCat(true, e, k, p, ts) && k + 3 <= |e.es| && e.es[k] == SPACE && e.es[k + 1] == TAGS && e.es[k + 2] == Not(Dot)
      modifies this`position, this`tokenIndex, this`tree
      ensures InCat(ok, e, k + 3, p, ts)
    {
      ghost var q, mid := position, Emitted();
      ok := CharMember(R(' '), e, k, p, ts);
      if ok { q, mid := position, Emitted(); ok := TagsRule(); CatStep(e, k + 1, p, ts, mid, q, ok); }
      if ok { q, mid := position, Emitted(); ok := NotDot(); CatStep(e, k + 2, p, ts, mid, q, ok); }
    }

    method HistogramLineHead(ghost p: nat, ghost ts: seq<Token>) returns (ok: bool)
      requires Valid() && p == position && ts == Emitted()
      modifies this`position, this`tokenIndex, this`tree
      ensures InCat(ok, HISTOGRAM_LINE, 4, p, ts)
    {
      ghost var q, mid := position, Emitted();
      CatBegins(HISTOGRAM_LINE, p, ts);
      q, mid := position, Emitted(); ok := AggregationIntervalRule(); CatStep(HISTOGRAM_LINE, 0, p, ts, mid, q, ok);
      if ok { q, mid := position, Emitted(); OptionalTimestamp(); CatStep(HISTOGRAM_LINE, 1, p, ts, mid, q, true); }
      if ok { ok := CharMember(R(' '), HISTOGRAM_LINE, 2, p, ts); }
      if ok { q, mid := position, Emitted(); ok := HistogramValuesRule(); CatStep(HISTOGRAM_LINE, 3, p, ts, mid, q, ok); }
    }

    method HistogramLine() returns (ok: bool)
      requires Valid()
      modifies this`position, this`tokenIndex, this`tree
      ensures Ran(HISTOGRAM_LINE, ok, old(position), old(Emitted()))
    {
      ghost var p, ts := position, Emitted();
      ghost var q, mid := position, Emitted();
      var position2, tokenIndex2 := position, tokenIndex;
      ok := HistogramLineHead(p, ts);
      if ok { ok := CharMember(R(' '), HISTOGRAM_LINE, 4, p, ts); }
      if ok { q, mid := position, Emitted(); ok := MetricNameRule(); CatStep(HISTOGRAM_LINE, 5, p, ts, mid, q, ok); }
      if ok { ok := Tail(HISTOGRAM_LINE, 6, p, ts); }
      EndCat(ok, position2, tokenIndex2, HISTOGRAM_LINE, ts);
    }

    method MetricLineHead(ghost p: nat, ghost ts: seq<Token>) returns (ok: bool)
      requires Valid() && p == position && ts == Emitted()
      modifies this`position, this`tokenIndex, this`tree
      ensures InCat(ok, METRIC_LINE, 3, p, ts)
    {
      ghost var q, mid := position, Emitted();
      CatBegins(METRIC_LINE, p, ts);
      q, mid := position, Emitted(); ok := MetricNameRule(); CatStep(METRIC_LINE, 0, p, ts, mid, q, ok);
      if ok { ok := CharMember(R(' '), METRIC_LINE, 1, p, ts); }
      if ok { q, mid := position, Emitted(); ok := MetricValueRule(); CatStep(METRIC_LINE, 2, p, ts, mid, q, ok); }
    }

    method MetricLine() returns (ok: bool)
      requires Valid()
      modifies this`position, this`tokenIndex, this`tree
      ensures Ran(METRIC_LINE, ok, old(position), old(Emitted()))
    {
      ghost var p, ts := position, Emitted();
      ghost var q, mid := position, Emitted();
      var position0, tokenIndex0 := position, tokenIndex;
      ok := MetricLineHead(p, ts);
      if ok { q, mid := position, Emitted(); OptionalTimestamp(); CatStep(METRIC_LINE, 3, p, ts, mid, q, true); }
      if ok { ok := Tail(METRIC_LINE, 4, p, ts); }
      EndCat(ok, position0, tokenIndex0, METRIC_LINE, ts);
    }

    method LineChoice() returns (ok: bool)
      requires Valid()
      modifies this`position, this`tokenIndex, this`tree
      ensures Ran(Alt(HISTOGRAM_LINE, METRIC_LINE), ok, old(position), old(Emitted()))
    {
      ghost var p, ts := position, Emitted();
      ok := HistogramLine();
      if ok {
        FirstChoice(HISTOGRAM_LINE, METRIC_LINE, p, ts);
      } else {
        ok := MetricLine();
        SecondChoice(HISTOGRAM_LINE, METRIC_LINE, ok, p, ts);
      }
    }

    method GrammarRule() returns (ok: bool)
      requires Valid()
      modifies this`position, this`tokenIndex, this`tree
      ensures Ran(GRAMMAR, ok, old(position), old(Emitted()))
    {
      ghost var ts := Emitted();
      var position1 := position;
      ok := LineChoice();
      EndNode(ok, MetricGrammarRule, position1, Alt(HISTOGRAM_LINE, METRIC_LINE), ts);
    }

    /** Init and reset: the runes of the line, closed with the end symbol. */
    constructor (line: seq<Rune>)
      requires END_SYMBOL !in line
      ensures Valid() && buffer == line + [END_SYMBOL] && position == 0 && tree == [] && tokenIndex == 0
    {
      buffer := line + [END_SYMBOL];
      position, tokenIndex := 0, 0;
      tree := [];
    }

    /** The token list is cut back to the tokens that count. */
    method Parse() returns (matches: bool)
      requires Valid() && position == 0 && tokenIndex == 0
      modifies this`position, this`tokenIndex, this`tree
      ensures matches <==> Eval(GRAMMAR, buffer, 0).Match?
      ensures matches ==> tree == Eval(GRAMMAR, buffer, 0).tokens
    {
      assert Emitted() == [];
      matches := GrammarRule();
      if matches {
        tree := tree[..tokenIndex];
      }
    }
  }
}
