/**
 * Reading a scrape family by family, plugins/sources/prometheus/metric_reader.go and lookahead_reader.go,
 * on the lines that the scanner splits the input into.
 */
module MetricReaders {

  type Line = string

  predicate StartsWithHash(line: Line) { |line| > 0 && line[0] == '#' }

  /** White space as TrimSpace has it. */
  predicate IsSpace(c: char) {
    || '\t' <= c <= '\r' || c == ' ' || c == '\U{85}' || c == '\U{A0}' || c == '\U{1680}' || '\U{2000}' <= c <= '\U{200A}'
    || c == '\U{2028}' || c == '\U{2029}' || c == '\U{202F}' || c == '\U{205F}' || c == '\U{3000}'
  }

  predicate Blank(line: Line) { forall i :: 0 <= i < |line| ==> IsSpace(line[i]) }

  /** A sample: what is neither blank nor starts with a hash. */
  predicate IsSample(line: Line) { !Blank(line) && !StartsWithHash(line) }

  /** The lines from i to j, each with its newline. */
  function Text(lines: seq<Line>, i: nat, j: nat): string
    requires i <= j <= |lines|
    decreases j
  {
    if i == j then "" else Text(lines, i, j - 1) + lines[j - 1] + "\n"
  }

  class LookaheadReader {
    /** The lines of the input, and the index of the one that the scanner stands on. */
    const lines: seq<Line>
    var current: nat
    var done: bool
    var lineCount: int

    ghost predicate Valid()
      reads this
    {
      current <= |lines| && (done <==> current == |lines|) && lineCount == current + 1
    }

    constructor (lines: seq<Line>)
      ensures Valid() && this.lines == lines && current == 0
    {
      this.lines := lines;
      current, lineCount, done := 0, 1, lines == [];
    }

    method Read() returns (line: Line)
      requires Valid()
      modifies this
      ensures Valid() && current == (if old(done) then old(current) else old(current) + 1)
      ensures line == if old(done) then "" else lines[old(current)]
    {
      if done {
        return "";
      }
      line := lines[current];
      lineCount := lineCount + 1;
      current := current + 1;
      done := current == |lines|;
    }

    function Peek(): Line
      requires current <= |lines|
      reads this
    {
      if current < |lines| then lines[current] else ""
    }
  }

  /** The code points of white space. */
  const WHITE_SPACE: set<int> := {9, 10, 11, 12, 13, 0x20, 0x85, 0xA0, 0x1680, 0x2000, 0x2001, 0x2002, 0x2003, 0x2004, 0x2005, 0x2006,
                                  0x2007, 0x2008, 0x2009, 0x200A, 0x2028, 0x2029, 0x202F, 0x205F, 0x3000}

  /** A comment or the like: its first character is a hash. */
  predicate Hashed(line: Line) { line != "" && line[0] == '#' }

  /** There is something to be seen on the line. */
  ghost predicate Visible(line: Line) { exists i :: 0 <= i < |line| && line[i] as int !in WHITE_SPACE }

  lemma IsSpaceIs(c: char)
    ensures IsSpace(c) <==> c as int in WHITE_SPACE
  {
  }

  /** A sample is a line with something to be seen that does not start with a hash. */
  lemma SamplesAre(line: Line)
    ensures IsSample(line) <==> Visible(line) && !Hashed(line)
    ensures StartsWithHash(line) <==> Hashed(line)
  {
    forall i | 0 <= i < |line| ensures IsSpace(line[i]) <==> line[i] as int in WHITE_SPACE {
      IsSpaceIs(line[i]);
    }
  }

  /** Where a chunk may start, besides the first line: a hash after a sample that no other hash has followed. */
  ghost predicate Boundary(lines: seq<Line>, k: nat) {
    k < |lines| && Hashed(lines[k]) && exists m :: SampleSinceHash(lines, m, k)
  }

  ghost predicate SampleSinceHash(lines: seq<Line>, m: int, k: nat)
    requires k < |lines|
  {
    0 <= m < k && Visible(lines[m]) && !Hashed(lines[m]) && forall j :: m < j < k ==> !Hashed(lines[j])
  }

  /** A place where a chunk starts. */
  ghost predicate Start(lines: seq<Line>, i: nat) { i == 0 || Boundary(lines, i) }

  /** No chunk starts inside [i..e], and one starts at e or the input ends there. */
  ghost predicate OneChunk(lines: seq<Line>, i: nat, e: nat) {
    && i <= e <= |lines|
    && (forall k :: i < k < e ==> !Boundary(lines, k))
    && (e == |lines| || Boundary(lines, e))
  }

  class MetricReader {
    const lar: LookaheadReader

    constructor (lines: seq<Line>)
      ensures Valid() && fresh(lar) && lar.lines == lines && lar.current == 0
    {
      lar := new LookaheadReader(lines);
    }

    ghost predicate Valid()
      reads this, lar
    {
      lar.Valid()
    }

    /** The comments, with blank lines among them, and then the samples up to the next comment. */
    method Read() returns (chunk: string)
      requires Valid() && Start(lar.lines, lar.current)
      modifies lar
      ensures Valid() && OneChunk(lar.lines, old(lar.current), lar.current)
      ensures old(lar.current) < |lar.lines| ==> old(lar.current) < lar.current
      ensures chunk == Text(lar.lines, old(lar.current), lar.current)
    {
      ghost var i := lar.current;
      chunk := ReadComments();
      ghost var c := lar.current;
      var rest := ReadMetrics();
      TextConcat(lar.lines, i, c, lar.current);
      chunk := chunk + rest;
      ChunkEnds(lar.lines, i, c, lar.current);
    }

    method ReadComments() returns (text: string)
      requires Valid()
      modifies lar
      ensures Valid() && old(lar.current) <= lar.current && text == Text(lar.lines, old(lar.current), lar.current)
      ensures forall k :: old(lar.current) <= k < lar.current ==> !IsSample(lar.lines[k])
      ensures lar.current < |lar.lines| ==> IsSample(lar.lines[lar.current])
    {
      text := "";
      while !lar.done
        invariant Valid() && old(lar.current) <= lar.current && text == Text(lar.lines, old(lar.current), lar.current)
        invariant forall k :: old(lar.current) <= k < lar.current ==> !IsSample(lar.lines[k])
        decreases |lar.lines| - lar.current
      {
        if !CommentNext() {
          break;
        }
        var line := lar.Read();
        text := text + line + "\n";
      }
    }

    predicate CommentNext()
      requires lar.current <= |lar.lines|
      reads this, lar
    {
      Blank(lar.Peek()) || StartsWithHash(lar.Peek())
    }

    method ReadMetrics() returns (text: string)
      requires Valid()
      modifies lar
      ensures Valid() && old(lar.current) <= lar.current && text == Text(lar.lines, old(lar.current), lar.current)
      ensures forall k :: old(lar.current) <= k < lar.current ==> !StartsWithHash(lar.lines[k])
      ensures lar.current < |lar.lines| ==> StartsWithHash(lar.lines[lar.current])
    {
      text := "";
      while !lar.done
        invariant Valid() && old(lar.current) <= lar.current && text == Text(lar.lines, old(lar.current), lar.current)
        invariant forall k :: old(lar.current) <= k < lar.current ==> !StartsWithHash(lar.lines[k])
        decreases |lar.lines| - lar.current
      {
        if StartsWithHash(lar.Peek()) {
          break;
        }
        var line := lar.Read();
        text := text + line + "\n";
      }
    }
  }

  lemma {:induction false} TextConcat(lines: seq<Line>, i: nat, j: nat, k: nat)
    requires i <= j <= k <= |lines|
    ensures Text(lines, i, k) == Text(lines, i, j) + Text(lines, j, k)
    decreases k
  {
    if j < k {
      TextConcat(lines, i, j, k - 1);
      assert Text(lines, i, j) + (Text(lines, j, k - 1) + lines[k - 1] + "\n") == Text(lines, i, j) + Text(lines, j, k - 1) + lines[k - 1] + "\n";
    }
  }

  /** The lines of a text that a newline ends, after what has been read of the first. */
  function LinesOf(s: string, line: string): seq<Line>
    decreases |s|
  {
    if s == "" then (if line == "" then [] else [line])
    else if s[0] == '\n' then [line] + LinesOf(s[1..], "")
    else LinesOf(s[1..], line + [s[0]])
  }

  lemma {:induction false} OneLineRead(l: Line, s: string, line: string)
    requires '\n' !in l
    ensures LinesOf(l + "\n" + s, line) == [line + l] + LinesOf(s, "")
    decreases |l|
  {
    var text := l + "\n" + s;
    if l == "" {
      assert text[1..] == s && line + l == line;
    } else {
      OneLineRead(l[1..], s, line + [l[0]]);
      assert text[1..] == l[1..] + "\n" + s && line + [l[0]] + l[1..] == line + l;
    }
  }

  /** A text is read as the lines that it was made of, if none of these holds a newline. */
  lemma {:induction false} LinesComeBack(lines: seq<Line>, i: nat, j: nat)
    requires i <= j <= |lines| && forall k :: 0 <= k < |lines| ==> '\n' !in lines[k]
    ensures LinesOf(Text(lines, i, j), "") == lines[i..j]
    decreases j - i
  {
    if i < j {
      LinesComeBack(lines, i + 1, j);
      FirstLine(lines, i, j);
      OneLineRead(lines[i], Text(lines, i + 1, j), "");
      FirstOfSlice(lines, i, j);
    }
  }

  lemma {:induction false} FirstLine(lines: seq<Line>, i: nat, j: nat)
    requires i < j <= |lines|
    ensures Text(lines, i, j) == lines[i] + "\n" + Text(lines, i + 1, j)
  {
    TextConcat(lines, i, i + 1, j);
    assert Text(lines, i, i) == "";
    assert Text(lines, i, i + 1) == "" + lines[i] + "\n" == lines[i] + "\n";
  }

  lemma FirstOfSlice(lines: seq<Line>, i: nat, j: nat)
    requires i < j <= |lines|
    ensures lines[i..j] == ["" + lines[i]] + lines[i + 1..j]
  {
    assert "" + lines[i] == lines[i];
  }

  /** No samples from i to c, no hashes from c to e: no chunk starts in between. */
  lemma ChunkEnds(lines: seq<Line>, i: nat, c: nat, e: nat)
    requires i <= c <= e <= |lines| && Start(lines, i)
    requires forall k :: i <= k < c ==> !IsSample(lines[k])
    requires forall k :: c <= k < e ==> !StartsWithHash(lines[k])
    requires c < |lines| ==> IsSample(lines[c])
    requires e < |lines| ==> StartsWithHash(lines[e])
    ensures OneChunk(lines, i, e) && (i < |lines| ==> i < e)
  {
    forall k | i < k < e && k < c ensures !Boundary(lines, k) {
      forall m | 0 <= m < k ensures !SampleSinceHash(lines, m, k) {
        assert m < i ==> StartsWithHash(lines[i]);
      }
    }
    if e < |lines| {
      assert c < e;
      assert SampleSinceHash(lines, c, e);
    }
  }

  // ---- The whole input -------------------------------------------------------------------------------

  /** The places where the chunks start, up to the end. */
  ghost predicate Cuts(lines: seq<Line>, cuts: seq<nat>, e: nat) {
    && |cuts| > 0 && cuts[0] == 0 && cuts[|cuts| - 1] == e <= |lines|
    && (forall i, j :: 0 <= i < j < |cuts| ==> cuts[i] < cuts[j])
    && (forall k :: 0 < k < e ==> (Boundary(lines, k) <==> k in cuts))
  }

  function Concat(chunks: seq<string>, n: nat): string
    requires n <= |chunks|
  {
    if n == 0 then "" else Concat(chunks, n - 1) + chunks[n - 1]
  }

  lemma {:induction false} ConcatPrefix(chunks: seq<string>, chunk: string, n: nat)
    requires n <= |chunks|
    ensures Concat(chunks + [chunk], n) == Concat(chunks, n)
  {
    if n > 0 {
      ConcatPrefix(chunks, chunk, n - 1);
    }
  }

  lemma CutsExtend(lines: seq<Line>, cuts: seq<nat>, i: nat, e: nat)
    requires Cuts(lines, cuts, i) && Start(lines, i) && OneChunk(lines, i, e) && i < e
    ensures Cuts(lines, cuts + [e], e)
  {
    var next := cuts + [e];
    forall k | 0 < k < e ensures Boundary(lines, k) <==> k in next {
      if k == i {
        assert next[|cuts| - 1] == i;
      } else if k < i {
        assert k in next <==> k in cuts;
      } else {
        assert forall j :: 0 <= j < |cuts| ==> cuts[j] <= i;
      }
    }
  }

  /**
   * Reading until done loses nothing: the chunks make up all lines in order, each with its newline, and
   * a chunk starts just before each hash that follows a sample with no other hash between them.
   */
  method ReadAll(reader: MetricReader) returns (chunks: seq<string>, ghost cuts: seq<nat>)
    requires reader.Valid() && reader.lar.current == 0
    modifies reader.lar
    ensures reader.lar.done
    ensures Concat(chunks, |chunks|) == Text(reader.lar.lines, 0, |reader.lar.lines|)
    ensures Cuts(reader.lar.lines, cuts, |reader.lar.lines|) && |cuts| == |chunks| + 1
    ensures forall i :: 0 <= i < |chunks| ==> chunks[i] == Text(reader.lar.lines, cuts[i], cuts[i + 1])
  {
    chunks, cuts := [], [0];
    ghost var lines := reader.lar.lines;
    while !reader.lar.done
      invariant reader.Valid() && (Start(lines, reader.lar.current) || reader.lar.done)
      invariant Cuts(lines, cuts, reader.lar.current) && |cuts| == |chunks| + 1
      invariant Concat(chunks, |chunks|) == Text(lines, 0, reader.lar.current)
      invariant forall i :: 0 <= i < |chunks| ==> chunks[i] == Text(lines, cuts[i], cuts[i + 1])
      decreases |lines| - reader.lar.current
    {
      ghost var i := reader.lar.current;
      var chunk := reader.Read();
      CutsExtend(lines, cuts, i, reader.lar.current);
      ConcatPrefix(chunks, chunk, |chunks|);
      TextConcat(lines, 0, i, reader.lar.current);
      chunks := chunks + [chunk];
      cuts := cuts + [reader.lar.current];
    }
  }
}
