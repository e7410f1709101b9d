/**
 * Parsing expressions and what they mean: where a match ends, and which tokens it leaves behind.
 * A generated parser is compared with this in MetricParser.dfy.
 */
module Peg {
  /** Runes, as in Go's []rune, plus the end symbol one past the largest code point. */
  type Rune = int

  const END_SYMBOL: Rune := 1114112

  datatype Rule =
    | MetricGrammarRule | AggregationInterval | HistogramValues | HistogramValue | Tags | Tag | TagName | TagValue
    | Timestamp | MetricValue | MetricName | Alnum | Digit
    | Action0 | Action1 | PegText | Action2 | Action3 | Action4 | Action5 | Action6

  datatype Token = Token(rule: Rule, begin: nat, end: nat)

  datatype Exp =
    | Chr(c: Rune)
    | Range(lo: Rune, hi: Rune)
    | OneOf(cs: seq<Rune>)
    | Dot
    | Cat(es: seq<Exp>)
    | Alt(a: Exp, b: Exp)
    | Opt(e: Exp)
    | Star(e: Exp)
    | Not(e: Exp)
    | Node(rule: Rule, e: Exp)
    | Act(rule: Rule)

  datatype Result = Fail | Match(pos: nat, tokens: seq<Token>)

  /** One rune that satisfies the condition. */
  function Step(cond: bool, p: nat): Result {
    if cond then Match(p + 1, []) else Fail
  }

  /**
   * Ordered choice, greedy repetition, no way back into a match. A repetition stops when its body
   * matches nothing, where the generated loop would run forever; see Productive.
   */
  function Eval(e: Exp, buf: seq<Rune>, p: nat): (r: Result)
    requires p <= |buf|
    ensures r.Match? ==> p <= r.pos <= |buf|
    decreases |buf| - p, e, if e.Cat? then |e.es| + 1 else 0
  {
    match e
    case Chr(c) => Step(p < |buf| && buf[p] == c, p)
    case Range(lo, hi) => Step(p < |buf| && lo <= buf[p] <= hi, p)
    case OneOf(cs) => Step(p < |buf| && buf[p] in cs, p)
    case Dot => Step(p < |buf| && buf[p] != END_SYMBOL, p)
    case Cat(es) => EvalCat(e, |es|, buf, p)
    case Alt(a, b) =>
      var r := Eval(a, buf, p);
      if r.Match? then r else Eval(b, buf, p)
    case Opt(a) =>
      var r := Eval(a, buf, p);
      if r.Match? then r else Match(p, [])
    case Star(a) =>
      (match Eval(a, buf, p)
       case Fail => Match(p, [])
       case Match(q, t) =>
         if q == p then Match(p, [])
         else
           var rest := Eval(e, buf, q);
           Match(rest.pos, t + rest.tokens))
    case Not(a) => if Eval(a, buf, p).Match? then Fail else Match(p, [])
    case Node(rule, a) =>
      (match Eval(a, buf, p)
       case Fail => Fail
       case Match(q, t) => Match(q, t + [Token(rule, p, q)]))
    case Act(rule) => Match(p, [Token(rule, p, p)])
  }

  /** The first n members of a sequence, one after the other. */
  function EvalCat(e: Exp, n: nat, buf: seq<Rune>, p: nat): (r: Result)
    requires e.Cat? && n <= |e.es| && p <= |buf|
    ensures r.Match? ==> p <= r.pos <= |buf|
    decreases |buf| - p, e, n
  {
    if n == 0 then Match(p, [])
    else
      match EvalCat(e, n - 1, buf, p)
      case Fail => Fail
      case Match(q, t) =>
        match Eval(e.es[n - 1], buf, q)
        case Fail => Fail
        case Match(r, u) => Match(r, t + u)
  }

  /** Once a member has failed the sequence has. */
  lemma {:induction false} CatFails(e: Exp, k: nat, n: nat, buf: seq<Rune>, p: nat)
    requires e.Cat? && k <= n <= |e.es| && p <= |buf|
    requires EvalCat(e, k, buf, p).Fail?
    ensures EvalCat(e, n, buf, p).Fail?
  {
    if k < n {
      CatFails(e, k, n - 1, buf, p);
    }
  }

  // ---- What holds of every expression ----------------------------------------------------------

  /** Of two tokens, the earlier one lies before the later one or inside it: post-order. */
  ghost predicate PostOrder(ts: seq<Token>) {
    forall i, j :: 0 <= i < j < |ts| ==>
      ts[i].end <= ts[j].begin || (ts[j].begin <= ts[i].begin && ts[i].end <= ts[j].end)
  }

  ghost predicate Spans(ts: seq<Token>, lo: nat, hi: nat) {
    forall i :: 0 <= i < |ts| ==> lo <= ts[i].begin <= ts[i].end <= hi
  }

  lemma OneThenOther(ts: seq<Token>, us: seq<Token>, lo: nat, mid: nat, hi: nat)
    requires PostOrder(ts) && Spans(ts, lo, mid) && PostOrder(us) && Spans(us, mid, hi) && lo <= mid <= hi
    ensures PostOrder(ts + us) && Spans(ts + us, lo, hi)
  {
  }

  /** The tokens of a match are well nested, and lie within the text matched. */
  lemma {:induction false} TokensNest(e: Exp, buf: seq<Rune>, p: nat)
    requires p <= |buf| && Eval(e, buf, p).Match?
    ensures PostOrder(Eval(e, buf, p).tokens)
    ensures Spans(Eval(e, buf, p).tokens, p, Eval(e, buf, p).pos)
    decreases |buf| - p, e, if e.Cat? then |e.es| + 1 else 0
  {
    match e
    case Cat(es) => CatTokensNest(e, |es|, buf, p);
    case Alt(a, b) => if Eval(a, buf, p).Match? { TokensNest(a, buf, p); } else { TokensNest(b, buf, p); }
    case Opt(a) => if Eval(a, buf, p).Match? { TokensNest(a, buf, p); }
    case Star(a) =>
      var r := Eval(a, buf, p);
      if r.Match? && r.pos > p {
        var rest := Eval(e, buf, r.pos);
        TokensNest(a, buf, p);
        TokensNest(e, buf, r.pos);
        OneThenOther(r.tokens, rest.tokens, p, r.pos, rest.pos);
        assert Eval(e, buf, p) == Match(rest.pos, r.tokens + rest.tokens);
      }
    case Node(rule, a) => TokensNest(a, buf, p);
    case _ =>
  }

  lemma {:induction false} CatTokensNest(e: Exp, n: nat, buf: seq<Rune>, p: nat)
    requires e.Cat? && n <= |e.es| && p <= |buf| && EvalCat(e, n, buf, p).Match?
    ensures PostOrder(EvalCat(e, n, buf, p).tokens)
    ensures Spans(EvalCat(e, n, buf, p).tokens, p, EvalCat(e, n, buf, p).pos)
    decreases |buf| - p, e, n
  {
    if n > 0 {
      var r := EvalCat(e, n - 1, buf, p);
      var last := Eval(e.es[n - 1], buf, r.pos);
      CatTokensNest(e, n - 1, buf, p);
      TokensNest(e.es[n - 1], buf, r.pos);
      OneThenOther(r.tokens, last.tokens, p, r.pos, last.pos);
    }
  }

  /** The expression cannot match the end symbol. */
  predicate Clean(e: Exp) {
    match e
    case Chr(c) => c != END_SYMBOL
    case Range(lo, hi) => hi < END_SYMBOL
    case OneOf(cs) => END_SYMBOL !in cs
    case Cat(es) => forall i :: 0 <= i < |es| ==> Clean(es[i])
    case Alt(a, b) => Clean(a) && Clean(b)
    case Opt(a) => Clean(a)
    case Star(a) => Clean(a)
    case Node(_, a) => Clean(a)
    case _ => true
  }

  /** No match runs over the end symbol. */
  lemma {:induction false} StopsAtEnd(e: Exp, buf: seq<Rune>, p: nat)
    requires Clean(e) && p <= |buf| && Eval(e, buf, p).Match?
    ensures forall i :: p <= i < Eval(e, buf, p).pos ==> buf[i] != END_SYMBOL
    decreases |buf| - p, e, if e.Cat? then |e.es| + 1 else 0
  {
    match e
    case Cat(es) => CatStopsAtEnd(e, |es|, buf, p);
    case Alt(a, b) => if Eval(a, buf, p).Match? { StopsAtEnd(a, buf, p); } else { StopsAtEnd(b, buf, p); }
    case Opt(a) => if Eval(a, buf, p).Match? { StopsAtEnd(a, buf, p); }
    case Star(a) =>
      var r := Eval(a, buf, p);
      if r.Match? && r.pos > p {
        StopsAtEnd(a, buf, p);
        StopsAtEnd(e, buf, r.pos);
      }
    case Node(rule, a) => StopsAtEnd(a, buf, p);
    case _ =>
  }

  lemma {:induction false} CatStopsAtEnd(e: Exp, n: nat, buf: seq<Rune>, p: nat)
    requires e.Cat? && Clean(e) && n <= |e.es| && p <= |buf| && EvalCat(e, n, buf, p).Match?
    ensures forall i :: p <= i < EvalCat(e, n, buf, p).pos ==> buf[i] != END_SYMBOL
    decreases |buf| - p, e, n
  {
    if n > 0 {
      CatStopsAtEnd(e, n - 1, buf, p);
      StopsAtEnd(e.es[n - 1], buf, EvalCat(e, n - 1, buf, p).pos);
    }
  }

  /** A match of the expression is never empty. */
  predicate Consumes(e: Exp) {
    match e
    case Chr(_) => true
    case Range(_, _) => true
    case OneOf(_) => true
    case Dot => true
    case Cat(es) => exists i :: 0 <= i < |es| && Consumes(es[i])
    case Alt(a, b) => Consumes(a) && Consumes(b)
    case Node(_, a) => Consumes(a)
    case _ => false
  }

  /** Every repetition in the expression repeats something that consumes input, so none loops forever. */
  predicate Productive(e: Exp) {
    match e
    case Cat(es) => forall i :: 0 <= i < |es| ==> Productive(es[i])
    case Alt(a, b) => Productive(a) && Productive(b)
    case Opt(a) => Productive(a)
    case Star(a) => Consumes(a) && Productive(a)
    case Not(a) => Productive(a)
    case Node(_, a) => Productive(a)
    case _ => true
  }

  lemma {:induction false} ConsumesInput(e: Exp, buf: seq<Rune>, p: nat)
    requires Consumes(e) && p <= |buf| && Eval(e, buf, p).Match?
    ensures Eval(e, buf, p).pos > p
    decreases |buf| - p, e, if e.Cat? then |e.es| + 1 else 0
  {
    match e
    case Cat(es) =>
      var i :| 0 <= i < |es| && Consumes(es[i]);
      CatConsumesInput(e, i, |es|, buf, p);
    case Alt(a, b) => if Eval(a, buf, p).Match? { ConsumesInput(a, buf, p); } else { ConsumesInput(b, buf, p); }
    case Node(rule, a) => ConsumesInput(a, buf, p);
    case _ =>
  }

  lemma {:induction false} CatConsumesInput(e: Exp, i: nat, n: nat, buf: seq<Rune>, p: nat)
    requires e.Cat? && i < n <= |e.es| && p <= |buf| && Consumes(e.es[i]) && EvalCat(e, n, buf, p).Match?
    ensures EvalCat(e, n, buf, p).pos > p
    decreases |buf| - p, e, n
  {
    if i < n - 1 {
      CatConsumesInput(e, i, n - 1, buf, p);
    } else {
      ConsumesInput(e.es[n - 1], buf, EvalCat(e, n - 1, buf, p).pos);
    }
  }
}
