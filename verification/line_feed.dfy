/**
 Splitting a byte stream into lines as it arrives, and the idle limit that the last line selects.
 Classifying a line is a parameter; it may fail, which ends the program.
 */
module LineFeed {
  import opened Wrappers

  type Byte = n: nat | n < 256

  const NEWLINE: Byte := 10

  datatype Kind = ThinkingDone | Activity

  type Classifier = seq<Byte> -> Option<Kind>

  /** The complete lines of a stream, and the bytes after the last newline. */
  datatype Cut = Cut(lines: seq<seq<Byte>>, rest: seq<Byte>)

  function LineEnd(s: seq<Byte>): (n: nat)
    ensures n <= |s|
    ensures forall i :: 0 <= i < n ==> s[i] != NEWLINE
    ensures n < |s| ==> s[n] == NEWLINE
  {
    if s == [] || s[0] == NEWLINE then 0 else
      var n := LineEnd(s[1..]);
      assert forall i :: 1 <= i < n + 1 ==> s[i] == s[1..][i - 1];
      n + 1
  }

  function CutLines(s: seq<Byte>): (c: Cut)
    ensures NEWLINE !in c.rest
    decreases |s|
  {
    var n := LineEnd(s);
    if n == |s| then Cut([], s)
    else
      var tail := CutLines(s[n + 1..]);
      Cut([s[..n]] + tail.lines, tail.rest)
  }

  /** The kinds of the lines, unless one of them cannot be classified. */
  function Kinds(classify: Classifier, lines: seq<seq<Byte>>): Option<seq<Kind>> {
    if lines == [] then Some([])
    else
      var first, rest := classify(lines[0]), Kinds(classify, lines[1..]);
      if first.None? || rest.None? then None else Some([first.value] + rest.value)
  }

  /** The short-idle flag after a run of kinds. */
  function ShortAfter(short: bool, kinds: seq<Kind>): bool {
    if kinds == [] then short else kinds[|kinds| - 1].ThinkingDone?
  }

  lemma LineEndIs(s: seq<Byte>, n: nat)
    requires n < |s| && s[n] == NEWLINE && forall i :: 0 <= i < n ==> s[i] != NEWLINE
    ensures LineEnd(s) == n
  {
    var m := LineEnd(s);
  }

  /** The first line of a stream, or none. */
  lemma FirstLine(s: seq<Byte>)
    ensures var n := LineEnd(s);
            CutLines(s) ==
              if n == |s| then Cut([], s)
              else Cut([s[..n]] + CutLines(s[n + 1..]).lines, CutLines(s[n + 1..]).rest)
  {
    hide LineEnd;
  }

  /** A stream may be cut anywhere: the second part continues the unfinished line of the first. */
  lemma {:induction false} CutTwice(a: seq<Byte>, b: seq<Byte>)
    ensures CutLines(a + b).lines == CutLines(a).lines + CutLines(CutLines(a).rest + b).lines
    ensures CutLines(a + b).rest == CutLines(CutLines(a).rest + b).rest
    decreases |a|
  {
    hide LineEnd, CutLines;
    var n := LineEnd(a);
    FirstLine(a);
    if n < |a| {
      var line, tail := a[..n], a[n + 1..];
      assert forall i :: 0 <= i <= n ==> (a + b)[i] == a[i];
      LineEndIs(a + b, n);
      FirstLine(a + b);
      assert (a + b)[..n] == line && (a + b)[n + 1..] == tail + b;
      CutTwice(tail, b);
      Associate([line], CutLines(tail).lines, CutLines(CutLines(tail).rest + b).lines);
    } else {
      Associate([], [], CutLines(a + b).lines);
    }
  }

  lemma Associate<T>(a: seq<T>, b: seq<T>, c: seq<T>)
    ensures a + (b + c) == (a + b) + c
    ensures [] + c == c && c + [] == c
  {
  }

  /** The kinds of a first line and of the others. */
  lemma FirstKind(classify: Classifier, line: seq<Byte>, others: seq<seq<Byte>>)
    ensures var first, rest := classify(line), Kinds(classify, others);
            Kinds(classify, [line] + others) == if first.None? || rest.None? then None
              else Some([first.value] + rest.value)
  {
    assert ([line] + others)[0] == line && ([line] + others)[1..] == others;
  }

  lemma {:induction false} KindsConcat(classify: Classifier, a: seq<seq<Byte>>, b: seq<seq<Byte>>)
    ensures var x, y := Kinds(classify, a), Kinds(classify, b);
            Kinds(classify, a + b) == if x.None? || y.None? then None else Some(x.value + y.value)
    decreases |a|
  {
    if a == [] {
      assert a + b == b;
      if Kinds(classify, b).Some? { Associate([], [], Kinds(classify, b).value); }
    } else {
      assert a == [a[0]] + a[1..] && a + b == [a[0]] + (a[1..] + b);
      FirstKind(classify, a[0], a[1..]);
      FirstKind(classify, a[0], a[1..] + b);
      KindsConcat(classify, a[1..], b);
      if classify(a[0]).Some? && Kinds(classify, a[1..]).Some? && Kinds(classify, b).Some? {
        Associate([classify(a[0]).value], Kinds(classify, a[1..]).value, Kinds(classify, b).value);
      }
    }
  }

  lemma OneKind(classify: Classifier, line: seq<Byte>)
    ensures Kinds(classify, [line]) == if classify(line).None? then None else Some([classify(line).value])
  {
    FirstKind(classify, line, []);
    assert [line] + [] == [line];
    if classify(line).Some? { Associate([], [], [classify(line).value]); }
  }

  /** The next line of a stream. */
  lemma NextLine(classify: Classifier, s: seq<Byte>, done: seq<seq<Byte>>, kinds: seq<Kind>)
    requires LineEnd(s) < |s| && Kinds(classify, done) == Some(kinds)
    ensures var n := LineEnd(s);
            var line, tail := s[..n], CutLines(s[n + 1..]);
            && done + CutLines(s).lines == (done + [line]) + tail.lines && CutLines(s).rest == tail.rest
            && (classify(line).None? ==> Kinds(classify, done + CutLines(s).lines).None?)
            && (classify(line).Some? ==> Kinds(classify, done + [line]) == Some(kinds + [classify(line).value]))
  {
    hide LineEnd, CutLines, Kinds;
    var n := LineEnd(s);
    var line, tail := s[..n], CutLines(s[n + 1..]);
    FirstLine(s);
    Associate(done, [line], tail.lines);
    KindsConcat(classify, done, [line]);
    KindsConcat(classify, done + [line], tail.lines);
    OneKind(classify, line);
  }

  /** The outcome of a stream: its kinds, the unfinished line and the flag. */
  datatype Outcome = Outcome(kinds: seq<Kind>, rest: seq<Byte>, short: bool)

  /** The whole stream fed at once. */
  function Whole(classify: Classifier, stream: seq<Byte>): Option<Outcome> {
    var c := CutLines(stream);
    var kinds := Kinds(classify, c.lines);
    if kinds.None? then None else Some(Outcome(kinds.value, c.rest, ShortAfter(false, kinds.value)))
  }

  function Flatten(chunks: seq<seq<Byte>>): seq<Byte> {
    if chunks == [] then [] else Flatten(chunks[..|chunks| - 1]) + chunks[|chunks| - 1]
  }

  /** One more chunk after a stream. */
  lemma OneMoreChunk(classify: Classifier, stream: seq<Byte>, chunk: seq<Byte>)
    ensures Whole(classify, stream).None? ==> Whole(classify, stream + chunk).None?
    ensures Whole(classify, stream).Some? ==>
              var was := Whole(classify, stream).value;
              var c := CutLines(was.rest + chunk);
              var kinds := Kinds(classify, c.lines);
              Whole(classify, stream + chunk) ==
                if kinds.None? then None
                else Some(Outcome(was.kinds + kinds.value, c.rest, ShortAfter(was.short, kinds.value)))
  {
    CutTwice(stream, chunk);
    var first := CutLines(stream);
    KindsConcat(classify, first.lines, CutLines(first.rest + chunk).lines);
  }

  /** `feed_lines`: the new buffer, and the kinds of the lines that ended in this chunk. */
  method FeedLines(classify: Classifier, buf: seq<Byte>, chunk: seq<Byte>) returns (r: Option<(seq<Byte>, seq<Kind>)>)
    ensures var c := CutLines(buf + chunk);
            var kinds := Kinds(classify, c.lines);
            r == if kinds.None? then None else Some((c.rest, kinds.value))
  {
    hide LineEnd, CutLines, Kinds;
    var left := buf + chunk;
    var kinds: seq<Kind> := [];
    ghost var all := CutLines(left);
    ghost var done: seq<seq<Byte>> := [];
    Nothing(classify, left);
    while LineEnd(left) < |left|
      invariant all.lines == done + CutLines(left).lines && all.rest == CutLines(left).rest
      invariant Kinds(classify, done) == Some(kinds)
      decreases |left|
    {
      NextLine(classify, left, done, kinds);
      var n := LineEnd(left);
      var line := left[..n];
      var kind := classify(line);
      if kind.None? {
        return None;
      }
      left, kinds := left[n + 1..], kinds + [kind.value];
      done := done + [line];
    }
    LastLine(left, done);
    return Some((left, kinds));
  }

  lemma Nothing(classify: Classifier, s: seq<Byte>)
    ensures Kinds(classify, []) == Some([])
    ensures [] + CutLines(s).lines == CutLines(s).lines
  {
  }

  lemma LastLine(s: seq<Byte>, done: seq<seq<Byte>>)
    requires LineEnd(s) >= |s|
    ensures CutLines(s) == Cut([], s) && done + CutLines(s).lines == done
  {
    assert done + [] == done;
  }

  /** The wrapper's state while it copies its child's output. */
  class Wrapper {
    const classify: Classifier
    var lineBuf: seq<Byte>
    var useShortIdle: bool
    /** All bytes and all kinds so far. */
    ghost var stream: seq<Byte>
    ghost var seen: seq<Kind>

    /** The state is the one of the whole stream, however it was cut. */
    ghost predicate Ok()
      reads this
    {
      Whole(classify, stream) == Some(Outcome(seen, lineBuf, useShortIdle))
    }

    constructor (classify: Classifier)
      ensures Ok() && stream == [] && this.classify == classify && !useShortIdle
    {
      this.classify, lineBuf, useShortIdle := classify, [], false;
      stream, seen := [], [];
    }

    /** One chunk; a line that cannot be classified ends the program. */
    method OnChunk(chunk: seq<Byte>) returns (alive: bool)
      requires Ok()
      modifies this
      ensures stream == old(stream) + chunk
      ensures alive ==> Ok()
      ensures alive <==> Whole(classify, stream).Some?
    {
      OneMoreChunk(classify, stream, chunk);
      stream := stream + chunk;
      var fed := FeedLines(classify, lineBuf, chunk);
      if fed.None? {
        return false;
      }
      var kinds := fed.value.1;
      lineBuf := fed.value.0;
      if kinds != [] {
        useShortIdle := kinds[|kinds| - 1].ThinkingDone?;
      }
      seen := seen + kinds;
      return true;
    }
  }

  /** The copying loop: however a stream is cut into chunks, the end state depends on the stream alone. */
  method CopyOutput(classify: Classifier, chunks: seq<seq<Byte>>) returns (r: Option<(seq<Byte>, bool)>)
    ensures var whole := Whole(classify, Flatten(chunks));
            r == if whole.None? then None else Some((whole.value.rest, whole.value.short))
  {
    var w := new Wrapper(classify);
    for i := 0 to |chunks|
      invariant w.Ok() && fresh(w) && w.classify == classify && w.stream == Flatten(chunks[..i])
    {
      assert chunks[..i + 1][..i] == chunks[..i];
      var alive := w.OnChunk(chunks[i]);
      if !alive {
        FailsForGood(classify, chunks, i + 1);
        return None;
      }
    }
    assert chunks[..|chunks|] == chunks;
    return Some((w.lineBuf, w.useShortIdle));
  }

  lemma {:induction false} FailsForGood(classify: Classifier, chunks: seq<seq<Byte>>, i: nat)
    requires i <= |chunks| && Whole(classify, Flatten(chunks[..i])).None?
    ensures Whole(classify, Flatten(chunks)).None?
    decreases |chunks| - i
  {
    if i == |chunks| {
      assert chunks[..i] == chunks;
    } else {
      assert chunks[..i + 1][..i] == chunks[..i];
      OneMoreChunk(classify, Flatten(chunks[..i]), chunks[i]);
      FailsForGood(classify, chunks, i + 1);
    }
  }
}
