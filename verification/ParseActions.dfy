/**
 * What the semantic actions of the metric grammar do with a token list, and the syntax tree built
 * from it: Execute and AST of internal/testproxy/metrics/metric_grammar.peg.go.
 */
module ParseActions {
  import opened Peg

  type Text = seq<Rune>

  /** The fields of the parser object that the actions write, with Execute's local text. */
  datatype Parsed = Parsed(text: Text, currentTag: Text, histogram: bool, name: Text, value: Text, timestamp: Text, tags: map<Text, Text>)

  const START := Parsed([], [], false, [], [], [], map[])

  function TextOf(t: Token, buf: seq<Rune>): Text {
    if t.begin <= t.end <= |buf| then buf[t.begin..t.end] else []
  }

  function ExecToken(t: Token, buf: seq<Rune>, st: Parsed): Parsed {
    match t.rule
    case PegText => st.(text := TextOf(t, buf))
    case Action0 => st.(histogram := true)
    case Action1 => st.(tags := map[])
    case Action2 => st.(currentTag := st.text)
    case Action3 => st.(tags := st.tags[st.currentTag := st.text])
    case Action4 => st.(timestamp := st.text)
    case Action5 => st.(value := st.text)
    case Action6 => st.(name := st.text)
    case _ => st
  }

  /** The first n tokens, in order. */
  function Exec(ts: seq<Token>, n: nat, buf: seq<Rune>, st: Parsed): Parsed
    requires n <= |ts|
  {
    if n == 0 then st else ExecToken(ts[n - 1], buf, Exec(ts, n - 1, buf, st))
  }

  lemma {:induction false} ExecConcat(t: seq<Token>, u: seq<Token>, n: nat, buf: seq<Rune>, st: Parsed)
    requires n <= |u|
    ensures Exec(t + u, |t| + n, buf, st) == Exec(u, n, buf, Exec(t, |t|, buf, st))
  {
    if n > 0 {
      ExecConcat(t, u, n - 1, buf, st);
    } else {
      ExecPrefix(t, t + u, |t|, buf, st);
    }
  }

  lemma {:induction false} ExecPrefix(t: seq<Token>, u: seq<Token>, n: nat, buf: seq<Rune>, st: Parsed)
    requires n <= |t| <= |u| && forall i :: 0 <= i < n ==> t[i] == u[i]
    ensures Exec(t, n, buf, st) == Exec(u, n, buf, st)
  {
    if n > 0 {
      ExecPrefix(t, u, n - 1, buf, st);
    }
  }

  /** The flag is up when the action of the aggregation interval is among the tokens. */
  lemma {:induction false} FlagRaised(ts: seq<Token>, n: nat, buf: seq<Rune>, st: Parsed)
    requires n <= |ts|
    ensures Exec(ts, n, buf, st).histogram <==> st.histogram || exists i :: 0 <= i < n && ts[i].rule == Action0
  {
    if n > 0 {
      FlagRaised(ts, n - 1, buf, st);
    }
  }

  method Execute(tokens: seq<Token>, buffer: seq<Rune>) returns (st: Parsed)
    requires Spans(tokens, 0, |buffer|)
    ensures st == Exec(tokens, |tokens|, buffer, START)
    ensures st.histogram <==> exists i :: 0 <= i < |tokens| && tokens[i].rule == Action0
  {
    FlagRaised(tokens, |tokens|, buffer, START);
    st := START;
    for i := 0 to |tokens|
      invariant st == Exec(tokens, i, buffer, START)
    {
      var token := tokens[i];
      match token.rule
      case PegText => st := st.(text := buffer[token.begin..token.end]);
      case Action0 => st := st.(histogram := true);
      case Action1 => st := st.(tags := map[]);
      case Action2 => st := st.(currentTag := st.text);
      case Action3 => st := st.(tags := st.tags[st.currentTag := st.text]);
      case Action4 => st := st.(timestamp := st.text);
      case Action5 => st := st.(value := st.text);
      case Action6 => st := st.(name := st.text);
      case _ =>
    }
  }

  // ---- The syntax tree -------------------------------------------------------------------------

  /** A node32: its first child, and the sibling after it. */
  datatype Tree = Nil | Tree(token: Token, up: Tree, next: Tree)

  function Nonempty(ts: seq<Token>, n: nat): seq<Token>
    requires n <= |ts|
  {
    if n == 0 then []
    else if ts[n - 1].begin == ts[n - 1].end then Nonempty(ts, n - 1)
    else Nonempty(ts, n - 1) + [ts[n - 1]]
  }

  /** Children before their parent, siblings from left to right. */
  function Postorder(t: Tree): seq<Token> {
    if t.Nil? then [] else Postorder(t.up) + [t.token] + Postorder(t.next)
  }

  /** The siblings lie one after the other between lo and hi, and their children within them. */
  ghost predicate Nests(t: Tree, lo: nat, hi: nat) {
    t.Nil? ||
    (lo <= t.token.begin < t.token.end <= hi && Nests(t.up, t.token.begin, t.token.end) && Nests(t.next, t.token.end, hi))
  }

  /** The roots on the stack, from the bottom. */
  function StackPostorder(stack: seq<Tree>, n: nat): seq<Token>
    requires n <= |stack|
  {
    if n == 0 then [] else StackPostorder(stack, n - 1) + Postorder(stack[n - 1])
  }

  lemma {:induction false} StackPrefix(s: seq<Tree>, t: seq<Tree>, n: nat)
    requires n <= |s| && n <= |t| && forall i :: 0 <= i < n ==> s[i] == t[i]
    ensures StackPostorder(s, n) == StackPostorder(t, n)
  {
    if n > 0 {
      StackPrefix(s, t, n - 1);
    }
  }

  predicate Inside(t: Token, u: Token) {
    u.begin <= t.begin && t.end <= u.end
  }

  predicate Roots(stack: seq<Tree>) {
    forall i :: 0 <= i < |stack| ==> stack[i].Tree? && stack[i].next == Nil
  }

  /** Each root nests, and ends before the next one begins. */
  ghost predicate StackNests(stack: seq<Tree>)
    requires Roots(stack)
  {
    (forall i :: 0 <= i < |stack| ==> Nests(stack[i], stack[i].token.begin, stack[i].token.end)) &&
    (forall i :: 0 <= i < |stack| - 1 ==> stack[i].token.end <= stack[i + 1].token.begin)
  }

  /** Taking the top of the stack as the first of the children leaves the post-order as it is. */
  lemma OneAdopted(rest: seq<Tree>, up: Tree)
    requires Roots(rest) && rest != []
    ensures var below, top := rest[..|rest| - 1], rest[|rest| - 1];
      StackPostorder(below, |below|) + Postorder(top.(next := up)) == StackPostorder(rest, |rest|) + Postorder(up)
  {
    var below, top := rest[..|rest| - 1], rest[|rest| - 1];
    StackPrefix(rest, below, |rest| - 1);
    assert Postorder(top.(next := up)) == Postorder(top) + Postorder(up);
    assert StackPostorder(rest, |rest|) == StackPostorder(below, |below|) + Postorder(top);
  }

  /** The roots inside the token become its children, in order. */
  method Adopt(stack: seq<Tree>, token: Token) returns (rest: seq<Tree>, node: Tree)
    requires Roots(stack)
    ensures rest <= stack && node.Tree? && node.token == token && node.next == Nil
    ensures forall i :: |rest| <= i < |stack| ==> Inside(stack[i].token, token)
    ensures rest != [] ==> !Inside(rest[|rest| - 1].token, token)
    ensures StackPostorder(rest, |rest|) + Postorder(node) == StackPostorder(stack, |stack|) + [token]
    ensures StackNests(stack) && token.begin < token.end ==> Nests(node, token.begin, token.end)
  {
    rest := stack;
    var up := Nil;
    ghost var lo := token.end;
    while rest != [] && Inside(rest[|rest| - 1].token, token)
      invariant rest <= stack
      invariant forall i :: |rest| <= i < |stack| ==> Inside(stack[i].token, token)
      invariant StackPostorder(rest, |rest|) + Postorder(up) == StackPostorder(stack, |stack|)
      invariant StackNests(stack) ==> Nests(up, lo, token.end) && (up == Nil || token.begin <= lo)
      invariant StackNests(stack) && rest != [] && up != Nil ==> rest[|rest| - 1].token.end <= lo
      invariant up == Nil ==> lo == token.end
      decreases |rest|
    {
      var top := rest[|rest| - 1];
      OneAdopted(rest, up);
      lo, up, rest := top.token.begin, top.(next := up), rest[..|rest| - 1];
    }
    node := Tree(token, up, Nil);
  }

  ghost predicate FromTokens(stack: seq<Tree>, tokens: seq<Token>, n: nat)
    requires Roots(stack) && n <= |tokens|
  {
    forall k :: 0 <= k < |stack| ==> stack[k].token in tokens[..n]
  }

  /** The last token covers the whole text, and so everything before it. */
  ghost predicate Covered(tokens: seq<Token>) {
    tokens != [] && var last := tokens[|tokens| - 1];
      last.begin == 0 < last.end && PostOrder(tokens) && Spans(tokens, 0, last.end)
  }

  /**
   * AST. For tokens as a successful parse leaves them, the tree has one root, is well nested, and
   * holds every non-empty token, in the order in which they were added.
   */
  method AST(tokens: seq<Token>) returns (root: Tree)
    ensures Covered(tokens) ==>
      && root.Tree? && root.token == tokens[|tokens| - 1] && root.next == Nil
      && Postorder(root) == Nonempty(tokens, |tokens|)
      && Nests(root, 0, root.token.end)
  {
    var stack: seq<Tree> := [];
    for i := 0 to |tokens|
      invariant Roots(stack) && FromTokens(stack, tokens, i)
      invariant StackPostorder(stack, |stack|) == Nonempty(tokens, i)
      invariant Covered(tokens) ==> StackNests(stack)
      invariant Covered(tokens) && i == |tokens| ==> |stack| == 1 && stack[0].token == tokens[i - 1]
    {
      assert tokens[..i + 1] == tokens[..i] + [tokens[i]];
      if tokens[i].begin != tokens[i].end {
        stack := Push(stack, tokens, i);
      }
    }
    root := if stack != [] then stack[|stack| - 1] else Nil;
  }

  /** One round of the loop for a token that is not empty. */
  method Push(stack: seq<Tree>, tokens: seq<Token>, i: nat) returns (pushed: seq<Tree>)
    requires i < |tokens| && tokens[i].begin != tokens[i].end
    requires Roots(stack) && FromTokens(stack, tokens, i)
    requires Covered(tokens) ==> StackNests(stack)
    ensures Roots(pushed) && FromTokens(pushed, tokens, i + 1)
    ensures StackPostorder(pushed, |pushed|) == StackPostorder(stack, |stack|) + [tokens[i]]
    ensures Covered(tokens) ==> StackNests(pushed)
    ensures Covered(tokens) && i == |tokens| - 1 ==> |pushed| == 1 && pushed[0].token == tokens[i]
  {
    var rest, node := Adopt(stack, tokens[i]);
    pushed := rest + [node];
    StackPrefix(rest, pushed, |rest|);
    PushedFromTokens(stack, rest, node, tokens, i);
    if Covered(tokens) {
      TopEndsBefore(rest, tokens, i);
      PushedNests(stack, rest, node);
    }
  }

  lemma PushedFromTokens(stack: seq<Tree>, rest: seq<Tree>, node: Tree, tokens: seq<Token>, i: nat)
    requires i < |tokens| && Roots(stack) && rest <= stack && FromTokens(stack, tokens, i)
    requires node.Tree? && node.next == Nil && node.token == tokens[i]
    ensures FromTokens(rest, tokens, i) && FromTokens(rest + [node], tokens, i + 1)
  {
    assert tokens[..i + 1] == tokens[..i] + [tokens[i]];
  }

  lemma {:induction false} PushedNests(stack: seq<Tree>, rest: seq<Tree>, node: Tree)
    requires Roots(stack) && StackNests(stack) && rest <= stack
    requires node.Tree? && node.next == Nil && Nests(node, node.token.begin, node.token.end)
    requires rest != [] ==> rest[|rest| - 1].token.end <= node.token.begin
    ensures StackNests(rest + [node])
  {
  }

  /** What is left on the stack lies before the token. */
  lemma TopEndsBefore(rest: seq<Tree>, tokens: seq<Token>, i: nat)
    requires Covered(tokens) && i < |tokens| && Roots(rest) && FromTokens(rest, tokens, i)
    requires rest != [] ==> !Inside(rest[|rest| - 1].token, tokens[i])
    ensures rest != [] ==> rest[|rest| - 1].token.end <= tokens[i].begin
    ensures i == |tokens| - 1 ==> rest == []
    ensures tokens[i].begin <= tokens[i].end
  {
    if rest != [] {
      var j :| 0 <= j < i && tokens[j] == rest[|rest| - 1].token;
    }
  }
}
