/** Matching and executing together: what an expression reads, and what that does to the parser's fields. */
module Reading {
  import opened Peg
  import opened MetricGrammar
  import opened ParseActions

  /** e matches buf[p..q], and the actions in between turn st into st1. */
  ghost predicate Reads(e: Exp, buf: seq<Rune>, p: nat, q: nat, st: Parsed, st1: Parsed) {
    p <= |buf| && ReadsAs(Eval(e, buf, p), buf, q, st, st1)
  }

  ghost predicate ReadsAs(r: Result, buf: seq<Rune>, q: nat, st: Parsed, st1: Parsed) {
    r.Match? && r.pos == q && Exec(r.tokens, |r.tokens|, buf, st) == st1
  }

  ghost predicate Fails(e: Exp, buf: seq<Rune>, p: nat) {
    p <= |buf| && Eval(e, buf, p).Fail?
  }

  /** The first k members of a sequence. */
  ghost predicate ReadsCat(e: Exp, k: nat, buf: seq<Rune>, p: nat, q: nat, st: Parsed, st1: Parsed) {
    e.Cat? && k <= |e.es| && p <= |buf| && ReadsAs(EvalCat(e, k, buf, p), buf, q, st, st1)
  }

  lemma CatStart(e: Exp, buf: seq<Rune>, p: nat, st: Parsed)
    requires e.Cat? && p <= |buf|
    ensures ReadsCat(e, 0, buf, p, p, st, st)
  {
  }

  lemma CatNext(e: Exp, k: nat, buf: seq<Rune>, p: nat, q: nat, r: nat, st: Parsed, st1: Parsed, st2: Parsed)
    requires ReadsCat(e, k, buf, p, q, st, st1) && k < |e.es| && Reads(e.es[k], buf, q, r, st1, st2)
    ensures ReadsCat(e, k + 1, buf, p, r, st, st2)
  {
    var t, u := EvalCat(e, k, buf, p).tokens, Eval(e.es[k], buf, q).tokens;
    ExecConcat(t, u, |u|, buf, st);
  }

  lemma CatEnd(e: Exp, buf: seq<Rune>, p: nat, q: nat, st: Parsed, st1: Parsed)
    requires e.Cat? && ReadsCat(e, |e.es|, buf, p, q, st, st1)
    ensures Reads(e, buf, p, q, st, st1)
  {
  }

  /** A sequence fails where one of its members fails. */
  lemma CatBreaks(e: Exp, k: nat, buf: seq<Rune>, p: nat, q: nat, st: Parsed, st1: Parsed)
    requires ReadsCat(e, k, buf, p, q, st, st1) && k < |e.es| && Fails(e.es[k], buf, q)
    ensures Fails(e, buf, p)
  {
    CatFails(e, k + 1, |e.es|, buf, p);
  }

  lemma Cat2Reads(a: Exp, b: Exp, buf: seq<Rune>, p: nat, p1: nat, p2: nat, st: Parsed, st1: Parsed, st2: Parsed)
    requires Reads(a, buf, p, p1, st, st1) && Reads(b, buf, p1, p2, st1, st2)
    ensures Reads(Cat([a, b]), buf, p, p2, st, st2)
  {
    var e := Cat([a, b]);
    CatStart(e, buf, p, st);
    CatNext(e, 0, buf, p, p, p1, st, st, st1);
    CatNext(e, 1, buf, p, p1, p2, st, st1, st2);
  }

  lemma Cat3Reads(a: Exp, b: Exp, c: Exp, buf: seq<Rune>, p: nat, p1: nat, p2: nat, p3: nat,
                  st: Parsed, st1: Parsed, st2: Parsed, st3: Parsed)
    requires Reads(a, buf, p, p1, st, st1) && Reads(b, buf, p1, p2, st1, st2) && Reads(c, buf, p2, p3, st2, st3)
    ensures Reads(Cat([a, b, c]), buf, p, p3, st, st3)
  {
    var e := Cat([a, b, c]);
    CatStart(e, buf, p, st);
    CatNext(e, 0, buf, p, p, p1, st, st, st1);
    CatNext(e, 1, buf, p, p1, p2, st, st1, st2);
    CatNext(e, 2, buf, p, p2, p3, st, st2, st3);
  }

  lemma Cat4Reads(a: Exp, b: Exp, c: Exp, d: Exp, buf: seq<Rune>, p: nat, p1: nat, p2: nat, p3: nat, p4: nat,
                  st: Parsed, st1: Parsed, st2: Parsed, st3: Parsed, st4: Parsed)
    requires Reads(a, buf, p, p1, st, st1) && Reads(b, buf, p1, p2, st1, st2)
    requires Reads(c, buf, p2, p3, st2, st3) && Reads(d, buf, p3, p4, st3, st4)
    ensures Reads(Cat([a, b, c, d]), buf, p, p4, st, st4)
  {
    var e := Cat([a, b, c, d]);
    CatStart(e, buf, p, st);
    CatNext(e, 0, buf, p, p, p1, st, st, st1);
    CatNext(e, 1, buf, p, p1, p2, st, st1, st2);
    CatNext(e, 2, buf, p, p2, p3, st, st2, st3);
    CatNext(e, 3, buf, p, p3, p4, st, st3, st4);
  }

  /** Four members of a sequence of seven, and then either the other three, or a failure of the fifth. */
  lemma Cat7Begins(a: Exp, b: Exp, c: Exp, d: Exp, e: Exp, f: Exp, g: Exp, buf: seq<Rune>,
                   p: nat, p1: nat, p2: nat, p3: nat, p4: nat, st: Parsed, st1: Parsed, st2: Parsed, st3: Parsed, st4: Parsed)
    requires Reads(a, buf, p, p1, st, st1) && Reads(b, buf, p1, p2, st1, st2)
    requires Reads(c, buf, p2, p3, st2, st3) && Reads(d, buf, p3, p4, st3, st4)
    ensures ReadsCat(Cat([a, b, c, d, e, f, g]), 4, buf, p, p4, st, st4)
  {
    var cat := Cat([a, b, c, d, e, f, g]);
    CatStart(cat, buf, p, st);
    CatNext(cat, 0, buf, p, p, p1, st, st, st1);
    CatNext(cat, 1, buf, p, p1, p2, st, st1, st2);
    CatNext(cat, 2, buf, p, p2, p3, st, st2, st3);
    CatNext(cat, 3, buf, p, p3, p4, st, st3, st4);
  }

  lemma Cat7Ends(a: Exp, b: Exp, c: Exp, d: Exp, e: Exp, f: Exp, g: Exp, buf: seq<Rune>,
                 p: nat, p4: nat, p5: nat, p6: nat, p7: nat, st: Parsed, st4: Parsed, st5: Parsed, st6: Parsed, st7: Parsed)
    requires ReadsCat(Cat([a, b, c, d, e, f, g]), 4, buf, p, p4, st, st4)
    requires Reads(e, buf, p4, p5, st4, st5) && Reads(f, buf, p5, p6, st5, st6) && Reads(g, buf, p6, p7, st6, st7)
    ensures Reads(Cat([a, b, c, d, e, f, g]), buf, p, p7, st, st7)
  {
    var cat := Cat([a, b, c, d, e, f, g]);
    CatNext(cat, 4, buf, p, p4, p5, st, st4, st5);
    CatNext(cat, 5, buf, p, p5, p6, st, st5, st6);
    CatNext(cat, 6, buf, p, p6, p7, st, st6, st7);
  }

  lemma NodeReads(rule: Rule, e: Exp, buf: seq<Rune>, p: nat, q: nat, st: Parsed, st1: Parsed)
    requires Reads(e, buf, p, q, st, st1)
    ensures Reads(Node(rule, e), buf, p, q, st, ExecToken(Token(rule, p, q), buf, st1))
  {
    var t := Eval(e, buf, p).tokens;
    ExecPrefix(t, t + [Token(rule, p, q)], |t|, buf, st);
  }

  lemma ActReads(rule: Rule, buf: seq<Rune>, p: nat, st: Parsed)
    requires p <= |buf|
    ensures Reads(Act(rule), buf, p, p, st, ExecToken(Token(rule, p, p), buf, st))
  {
    var t := [Token(rule, p, p)];
    assert Exec(t, 0, buf, st) == st;
    assert Exec(t, 1, buf, st) == ExecToken(t[0], buf, st);
  }

  lemma ChrReads(c: Rune, buf: seq<Rune>, p: nat, st: Parsed)
    requires p < |buf| && buf[p] == c
    ensures Reads(Chr(c), buf, p, p + 1, st, st)
  {
  }

  lemma OptReads(e: Exp, buf: seq<Rune>, p: nat, q: nat, st: Parsed, st1: Parsed)
    requires Reads(e, buf, p, q, st, st1)
    ensures Reads(Opt(e), buf, p, q, st, st1)
  {
  }

  lemma OptSkips(e: Exp, buf: seq<Rune>, p: nat, st: Parsed)
    requires Fails(e, buf, p)
    ensures Reads(Opt(e), buf, p, p, st, st)
  {
  }

  /** An optional rune, there or not. */
  lemma OptChr(c: Rune, buf: seq<Rune>, p: nat, st: Parsed)
    requires p < |buf|
    ensures Reads(Opt(Chr(c)), buf, p, if buf[p] == c then p + 1 else p, st, st)
  {
    if buf[p] == c {
      OptReads(Chr(c), buf, p, p + 1, st, st);
    }
  }

  // ---- Runs of single runes --------------------------------------------------------------------

  /** e takes exactly the rune at i, and its tokens do nothing. */
  ghost predicate Takes(e: Exp, buf: seq<Rune>, i: nat, st: Parsed) {
    Reads(e, buf, i, i + 1, st, st)
  }

  lemma {:induction false} StarReads(e: Exp, buf: seq<Rune>, p: nat, q: nat, st: Parsed)
    requires p <= q <= |buf| && Fails(e, buf, q)
    requires forall i :: p <= i < q ==> Takes(e, buf, i, st)
    ensures Reads(Star(e), buf, p, q, st, st)
    decreases q - p
  {
    if p < q {
      assert Takes(e, buf, p, st);
      StarReads(e, buf, p + 1, q, st);
      var t, u := Eval(e, buf, p).tokens, Eval(Star(e), buf, p + 1).tokens;
      ExecConcat(t, u, |u|, buf, st);
    }
  }

  predicate IsDigit(c: Rune) { R('0') <= c <= R('9') }

  predicate IsAlnum(c: Rune) {
    IsDigit(c) || R('A') <= c <= R('Z') || R('a') <= c <= R('z')
  }

  lemma DigitTakes(buf: seq<Rune>, i: nat, st: Parsed)
    requires i < |buf|
    ensures if IsDigit(buf[i]) then Takes(DIGIT, buf, i, st) else Fails(DIGIT, buf, i)
  {
    if IsDigit(buf[i]) {
      assert Reads(Range(R('0'), R('9')), buf, i, i + 1, st, st);
      NodeReads(Digit, Range(R('0'), R('9')), buf, i, i + 1, st, st);
    }
  }

  lemma AlnumTakes(buf: seq<Rune>, i: nat, st: Parsed)
    requires i < |buf|
    ensures if IsAlnum(buf[i]) then Takes(ALNUM, buf, i, st) else Fails(ALNUM, buf, i)
  {
    var digit, upper, lower := Range(R('0'), R('9')), Range(R('A'), R('Z')), Range(R('a'), R('z'));
    assert Eval(digit, buf, i) == Step(IsDigit(buf[i]), i);
    assert Eval(upper, buf, i) == Step(R('A') <= buf[i] <= R('Z'), i);
    assert Eval(lower, buf, i) == Step(R('a') <= buf[i] <= R('z'), i);
    assert Eval(Alt(upper, lower), buf, i) == Step(R('A') <= buf[i] <= R('Z') || R('a') <= buf[i] <= R('z'), i);
    assert Eval(Alt(digit, Alt(upper, lower)), buf, i) == Step(IsAlnum(buf[i]), i);
    if IsAlnum(buf[i]) {
      NodeReads(Alnum, ALNUM.e, buf, i, i + 1, st, st);
    }
  }

  /** ALNUM / [cs] takes the rune or fails. */
  lemma NameCharTakes(cs: seq<Rune>, buf: seq<Rune>, i: nat, st: Parsed)
    requires i < |buf|
    ensures if IsAlnum(buf[i]) || buf[i] in cs then Takes(Alt(ALNUM, OneOf(cs)), buf, i, st) else Fails(Alt(ALNUM, OneOf(cs)), buf, i)
  {
    AlnumTakes(buf, i, st);
    if IsAlnum(buf[i]) {
      assert Reads(ALNUM, buf, i, i + 1, st, st);
    } else if buf[i] in cs {
      assert Reads(OneOf(cs), buf, i, i + 1, st, st);
    }
  }

  lemma NameCharsRead(cs: seq<Rune>, buf: seq<Rune>, p: nat, q: nat, st: Parsed)
    requires p <= q < |buf| && !(IsAlnum(buf[q]) || buf[q] in cs)
    requires forall i :: p <= i < q ==> IsAlnum(buf[i]) || buf[i] in cs
    ensures Reads(Star(Alt(ALNUM, OneOf(cs))), buf, p, q, st, st)
  {
    forall i | p <= i <= q
      ensures i < q ==> Takes(Alt(ALNUM, OneOf(cs)), buf, i, st)
      ensures i == q ==> Fails(Alt(ALNUM, OneOf(cs)), buf, i)
    {
      NameCharTakes(cs, buf, i, st);
    }
    StarReads(Alt(ALNUM, OneOf(cs)), buf, p, q, st);
  }

  lemma DigitsRead(buf: seq<Rune>, p: nat, q: nat, st: Parsed)
    requires p <= q < |buf| && !IsDigit(buf[q])
    requires forall i :: p <= i < q ==> IsDigit(buf[i])
    ensures Reads(Star(DIGIT), buf, p, q, st, st)
  {
    forall i | p <= i <= q
      ensures i < q ==> Takes(DIGIT, buf, i, st)
      ensures i == q ==> Fails(DIGIT, buf, i)
    {
      DigitTakes(buf, i, st);
    }
    StarReads(DIGIT, buf, p, q, st);
  }
}
