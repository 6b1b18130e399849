/** internal/proxy/sse.go: splitting a byte stream into lines, whatever the reads. */
module SseLines {

  newtype byte = x: int | 0 <= x < 256

  type Bytes = seq<byte>

  const NEWLINE: byte := 10
  const MAX_LINE_BUFFER: nat := 8192

  // ---- The reference: the lines of a whole stream ----

  /** Complete lines so far, without their newlines, and the bytes since the last newline. */
  datatype Split = Split(lines: seq<Bytes>, rest: Bytes)

  function Push(p: Split, b: byte): Split {
    if b == NEWLINE then Split(p.lines + [p.rest], []) else Split(p.lines, p.rest + [b])
  }

  function Pushed(p: Split, s: Bytes): Split
    decreases s
  {
    if s == [] then p else Pushed(Push(p, s[0]), s[1..])
  }

  /** The newline-terminated lines of a stream. */
  function Lines(s: Bytes): seq<Bytes> {
    Pushed(Split([], []), s).lines
  }

  /** What follows its last newline. */
  function Rest(s: Bytes): Bytes {
    Pushed(Split([], []), s).rest
  }

  lemma {:induction false} PushedAppend(p: Split, s: Bytes, t: Bytes)
    ensures Pushed(p, s + t) == Pushed(Pushed(p, s), t)
    decreases s
  {
    if s == [] {
      assert s + t == t;
    } else {
      PushedAppend(Push(p, s[0]), s[1..], t);
      assert (s + t)[1..] == s[1..] + t;
    }
  }

  /** Lines already taken stay in front. */
  lemma {:induction false} PushedBehind(taken: seq<Bytes>, p: Split, s: Bytes)
    ensures Pushed(Split(taken + p.lines, p.rest), s) ==
            Split(taken + Pushed(p, s).lines, Pushed(p, s).rest)
    decreases s
  {
    if s != [] {
      var q := Push(p, s[0]);
      PushedBehind(taken, q, s[1..]);
      assert Push(Split(taken + p.lines, p.rest), s[0]) == Split(taken + q.lines, q.rest);
    }
  }

  lemma {:induction false} PushedUnbroken(p: Split, s: Bytes)
    requires NEWLINE !in s
    ensures Pushed(p, s) == Split(p.lines, p.rest + s)
    decreases s
  {
    if s == [] {
      assert p.rest + s == p.rest;
    } else {
      PushedUnbroken(Push(p, s[0]), s[1..]);
      assert p.rest + [s[0]] + s[1..] == p.rest + s;
    }
  }

  lemma {:induction false} RestStaysUnbroken(p: Split, s: Bytes)
    requires NEWLINE !in p.rest
    ensures NEWLINE !in Pushed(p, s).rest
    decreases s
  {
    if s != [] {
      RestStaysUnbroken(Push(p, s[0]), s[1..]);
    }
  }

  lemma RestUnbroken(s: Bytes)
    ensures NEWLINE !in Rest(s)
  {
    RestStaysUnbroken(Split([], []), s);
  }

  lemma NoBreak(s: Bytes)
    requires NEWLINE !in s
    ensures Lines(s) == [] && Rest(s) == s
  {
    PushedUnbroken(Split([], []), s);
    assert [] + s == s;
  }

  /** Starting with an unfinished line in hand is starting with its bytes. */
  lemma PushedFrom(rest: Bytes, t: Bytes)
    requires NEWLINE !in rest
    ensures Pushed(Split([], rest), t) == Split(Lines(rest + t), Rest(rest + t))
  {
    PushedAppend(Split([], []), rest, t);
    PushedUnbroken(Split([], []), rest);
    assert [] + rest == rest;
  }

  /** Lines of a concatenation: the first part's, then those its remainder completes. */
  lemma LinesAppend(s: Bytes, t: Bytes)
    ensures Lines(s + t) == Lines(s) + Lines(Rest(s) + t)
    ensures Rest(s + t) == Rest(Rest(s) + t)
  {
    var lines, rest := Lines(s), Rest(s);
    PushedAppend(Split([], []), s, t);
    PushedBehind(lines, Split([], rest), t);
    assert lines + [] == lines;
    RestUnbroken(s);
    PushedFrom(rest, t);
  }

  /** A longer unfinished line in hand only lengthens the first line. */
  lemma {:induction false} PushedPrefixed(x: Bytes, r: Bytes, y: Bytes)
    ensures
      var p, q := Pushed(Split([], x + r), y), Pushed(Split([], r), y);
      if q.lines == [] then p == Split([], x + q.rest)
      else p == Split(q.lines[0 := x + q.lines[0]], q.rest)
    decreases y
  {
    if y != [] {
      var tail := y[1..];
      if y[0] == NEWLINE {
        PushedBehind([x + r], Split([], []), tail);
        PushedBehind([r], Split([], []), tail);
        assert [x + r] + [] == [] + [x + r] && [r] + [] == [] + [r];
      } else {
        PushedPrefixed(x, r + [y[0]], tail);
        assert x + (r + [y[0]]) == (x + r) + [y[0]];
      }
    }
  }

  /** A newline-free prefix only lengthens the first line. */
  lemma PrefixedLines(x: Bytes, y: Bytes)
    requires NEWLINE !in x
    ensures Lines(y) == [] ==> Lines(x + y) == [] && Rest(x + y) == x + Rest(y)
    ensures Lines(y) != [] ==> Lines(x + y) == Lines(y)[0 := x + Lines(y)[0]] && Rest(x + y) == Rest(y)
  {
    PushedFrom(x, y);
    PushedPrefixed(x, [], y);
    assert x + [] == x;
  }

  /** Peeling the first line at its newline. */
  lemma LinesBreak(s: Bytes, i: nat)
    requires i < |s| && s[i] == NEWLINE && NEWLINE !in s[..i]
    ensures Lines(s) == [s[..i]] + Lines(s[i + 1..]) && Rest(s) == Rest(s[i + 1..])
  {
    var line, tail := s[..i], s[i + 1..];
    assert s == line + ([NEWLINE] + tail);
    PushedAppend(Split([], []), line, [NEWLINE] + tail);
    PushedUnbroken(Split([], []), line);
    assert [] + line == line && ([NEWLINE] + tail)[1..] == tail && [] + [line] == [line] + [];
    PushedBehind([line], Split([], []), tail);
  }

  /** The same, behind lines already taken. */
  lemma LinesBreakAfter(taken: seq<Bytes>, s: Bytes, i: nat)
    requires i < |s| && s[i] == NEWLINE && NEWLINE !in s[..i]
    ensures (taken + [s[..i]]) + Lines(s[i + 1..]) == taken + Lines(s)
    ensures Rest(s) == Rest(s[i + 1..])
  {
    LinesBreak(s, i);
  }

  /** Lines put back together, each with its newline. */
  function Unsplit(lines: seq<Bytes>, rest: Bytes): Bytes {
    if lines == [] then rest else lines[0] + [10] + Unsplit(lines[1..], rest)
  }

  lemma {:induction false} UnsplitLast(lines: seq<Bytes>, line: Bytes)
    ensures Unsplit(lines + [line], []) == Unsplit(lines, line) + [10]
  {
    if lines == [] {
      assert [line][1..] == [];
    } else {
      UnsplitLast(lines[1..], line);
      assert (lines + [line])[1..] == lines[1..] + [line];
    }
  }

  lemma {:induction false} UnsplitMore(lines: seq<Bytes>, rest: Bytes, b: byte)
    ensures Unsplit(lines, rest + [b]) == Unsplit(lines, rest) + [b]
  {
    if lines != [] {
      UnsplitMore(lines[1..], rest, b);
    }
  }

  ghost predicate Unbroken(p: Split) {
    10 !in p.rest && forall k :: 0 <= k < |p.lines| ==> 10 !in p.lines[k]
  }

  lemma {:induction false} PushedUnsplits(p: Split, s: Bytes)
    requires Unbroken(p)
    ensures var r := Pushed(p, s); Unbroken(r) && Unsplit(r.lines, r.rest) == Unsplit(p.lines, p.rest) + s
    decreases s
  {
    if s != [] {
      var next := Push(p, s[0]);
      if s[0] == 10 {
        UnsplitLast(p.lines, p.rest);
      } else {
        UnsplitMore(p.lines, p.rest, s[0]);
      }
      PushedUnsplits(next, s[1..]);
      assert [s[0]] + s[1..] == s;
    }
  }

  /** The lines of a stream are its lines: none holds a newline, and with their newlines and the rest
  they are the stream. */
  lemma LinesRoundTrip(s: Bytes)
    ensures Unsplit(Lines(s), Rest(s)) == s && 10 !in Rest(s)
    ensures forall k :: 0 <= k < |Lines(s)| ==> 10 !in Lines(s)[k]
  {
    PushedUnsplits(Split([], []), s);
  }

  // ---- One scan, and a stream fed in pieces ----

  /** What one scan processes and keeps: complete lines out, an overlong remainder dropped. */
  function Kept(rest: Bytes): (k: Bytes)
    ensures |k| <= MAX_LINE_BUFFER
  {
    if |rest| > MAX_LINE_BUFFER then [] else rest
  }

  /** The lines processed when the stream arrives in these reads, starting from `buf`. */
  function Processed(buf: Bytes, cuts: seq<Bytes>): seq<Bytes>
    decreases cuts
  {
    if cuts == [] then []
    else Lines(buf + cuts[0]) + Processed(Kept(Rest(buf + cuts[0])), cuts[1..])
  }

  function Buffered(buf: Bytes, cuts: seq<Bytes>): Bytes
    decreases cuts
  {
    if cuts == [] then buf else Buffered(Kept(Rest(buf + cuts[0])), cuts[1..])
  }

  function Joined(cuts: seq<Bytes>): Bytes {
    if cuts == [] then [] else cuts[0] + Joined(cuts[1..])
  }

  predicate IsSuffix(a: Bytes, b: Bytes) {
    |a| <= |b| && a == b[|b| - |a|..]
  }

  /** A line as processed: the end of the real one, and all of it when it fits the buffer. */
  predicate Matches(got: Bytes, line: Bytes) {
    IsSuffix(got, line) && (|line| <= 8192 ==> got == line)
  }

  ghost predicate AllMatch(got: seq<Bytes>, lines: seq<Bytes>) {
    |got| == |lines| && forall k :: 0 <= k < |got| ==> Matches(got[k], lines[k])
  }

  lemma SuffixExtends(a: Bytes, b: Bytes, t: Bytes)
    requires IsSuffix(a, b)
    ensures IsSuffix(a + t, b + t)
  {
  }

  /** One scan, with `kept` standing for the true remainder `rest` of the stream so far. */
  lemma ScanMatches(kept: Bytes, rest: Bytes, data: Bytes)
    requires NEWLINE !in rest && Matches(kept, rest)
    ensures AllMatch(Lines(kept + data), Lines(rest + data))
    ensures Matches(Kept(Rest(kept + data)), Rest(rest + data))
  {
    assert NEWLINE !in kept;
    PrefixedLines(kept, data);
    PrefixedLines(rest, data);
    if Lines(data) != [] {
      SuffixExtends(kept, rest, Lines(data)[0]);
    } else {
      SuffixExtends(kept, rest, Rest(data));
    }
  }

  /** From any point of a stream: what is processed matches the lines it should be. */
  lemma {:induction false} FeedMatches(kept: Bytes, rest: Bytes, cuts: seq<Bytes>)
    requires NEWLINE !in rest && Matches(kept, rest)
    ensures AllMatch(Processed(kept, cuts), Lines(rest + Joined(cuts)))
    ensures Matches(Buffered(kept, cuts), Rest(rest + Joined(cuts)))
    decreases cuts
  {
    if cuts == [] {
      NoBreak(rest);
      assert rest + Joined(cuts) == rest;
    } else {
      var first, later := cuts[0], Joined(cuts[1..]);
      RestUnbroken(rest + first);
      ScanMatches(kept, rest, first);
      FeedMatches(Kept(Rest(kept + first)), Rest(rest + first), cuts[1..]);
      assert rest + Joined(cuts) == (rest + first) + later;
      LinesAppend(rest + first, later);
      AllMatchAppend(Lines(kept + first), Lines(rest + first),
                     Processed(Kept(Rest(kept + first)), cuts[1..]), Lines(Rest(rest + first) + later));
    }
  }

  lemma AllMatchAppend(got: seq<Bytes>, lines: seq<Bytes>, got': seq<Bytes>, lines': seq<Bytes>)
    requires AllMatch(got, lines) && AllMatch(got', lines')
    ensures AllMatch(got + got', lines + lines')
  {
  }

  /** For every stream and every way of cutting it into reads: one processed line per newline,
  the k-th the end of the stream's k-th line, and that whole line when it is at most 8192 bytes;
  the buffer never keeps more than 8192 bytes. */
  lemma ChunkedLines(cuts: seq<Bytes>)
    ensures AllMatch(Processed([], cuts), Lines(Joined(cuts)))
    ensures Matches(Buffered([], cuts), Rest(Joined(cuts)))
    ensures |Buffered([], cuts)| <= 8192
  {
    FeedMatches([], [], cuts);
    assert [] + Joined(cuts) == Joined(cuts);
    BufferBounded([], cuts);
  }

  lemma {:induction false} BufferBounded(buf: Bytes, cuts: seq<Bytes>)
    requires |buf| <= MAX_LINE_BUFFER
    ensures |Buffered(buf, cuts)| <= MAX_LINE_BUFFER
    decreases cuts
  {
    if cuts != [] {
      BufferBounded(Kept(Rest(buf + cuts[0])), cuts[1..]);
    }
  }

  /** One more read continues from the buffer the earlier ones left. */
  lemma {:induction false} FeedOneMore(buf: Bytes, cuts: seq<Bytes>, p: Bytes)
    ensures Processed(buf, cuts + [p]) == Processed(buf, cuts) + Lines(Buffered(buf, cuts) + p)
    ensures Buffered(buf, cuts + [p]) == Kept(Rest(Buffered(buf, cuts) + p))
    decreases cuts
  {
    if cuts == [] {
      FeedFirst(buf, p, []);
      assert cuts + [p] == [p] + [];
    } else {
      var first, rest := cuts[0], cuts[1..];
      FeedOneMore(Kept(Rest(buf + first)), rest, p);
      FeedFirst(buf, first, rest + [p]);
      assert [first] + (rest + [p]) == cuts + [p];
    }
  }

  lemma FeedFirst(buf: Bytes, p: Bytes, rest: seq<Bytes>)
    ensures Processed(buf, [p] + rest) == Lines(buf + p) + Processed(Kept(Rest(buf + p)), rest)
    ensures Buffered(buf, [p] + rest) == Buffered(Kept(Rest(buf + p)), rest)
  {
    assert ([p] + rest)[1..] == rest;
  }

  // ---- Exactly when the cut does not matter ----

  /** One byte more. */
  lemma Snoc(s: Bytes, b: byte)
    ensures Split(Lines(s + [b]), Rest(s + [b])) == Push(Split(Lines(s), Rest(s)), b)
  {
    PushedAppend(Split([], []), s, [b]);
    assert [b][1..] == [];
  }

  /** Where line k of the stream ends, before its newline. */
  lemma {:induction false} EndOfLine(s: Bytes, k: nat) returns (p: nat)
    requires k < |Lines(s)|
    ensures p < |s| && s[p] == NEWLINE
    ensures |Lines(s[..p])| == k && Rest(s[..p]) == Lines(s)[k]
  {
    var n := |s| - 1;
    var init := s[..n];
    Snoc(init, s[n]);
    assert s == init + [s[n]];
    if k < |Lines(init)| {
      p := EndOfLine(init, k);
      assert s[..p] == init[..p];
    } else {
      p := n;
    }
  }

  lemma TwoReads(a: Bytes, b: Bytes)
    ensures Joined([a, b]) == a + b
    ensures Processed([], [a, b]) == Lines(a) + Lines(Kept(Rest(a)) + b)
  {
    assert [] + a == a;
    FeedOneMore([], [a], b);
    assert [a] + [b] == [a, b] && [] + [a] == [a];
    FeedOneMore([], [], a);
    assert [a, b][1..] == [b] && [b][1..] == [];
    assert Joined([b]) == b + Joined([]);
  }

  /** A line too long for the buffer is lost when a read ends just before its newline. */
  lemma LongLineLost(s: Bytes, k: nat) returns (cuts: seq<Bytes>)
    requires k < |Lines(s)| && |Lines(s)[k]| > MAX_LINE_BUFFER
    ensures Joined(cuts) == s && Processed([], cuts) != Lines(s)
  {
    var p := EndOfLine(s, k);
    var a, b := s[..p], s[p..];
    cuts := [a, b];
    TwoReads(a, b);
    assert [] + b == b && a + b == s;
    LinesBreak(b, 0);
    assert Processed([], cuts)[k] == b[..0];
  }

  /** Every line of the stream fits the buffer. */
  ghost predicate LinesFit(s: Bytes) {
    forall k :: 0 <= k < |Lines(s)| ==> |Lines(s)[k]| <= 8192
  }

  ghost predicate CutsAgree(s: Bytes) {
    forall cuts :: Joined(cuts) == s ==> Processed([], cuts) == Lines(s)
  }

  /** The processed lines are the stream's lines for every cut exactly when every line fits. */
  lemma CutInvisibleIffLinesFit(s: Bytes)
    ensures CutsAgree(s) <==> LinesFit(s)
  {
    if LinesFit(s) {
      forall cuts | Joined(cuts) == s ensures Processed([], cuts) == Lines(s) {
        ChunkedLines(cuts);
      }
    } else {
      var k :| 0 <= k < |Lines(s)| && |Lines(s)[k]| > 8192;
      var cuts := LongLineLost(s, k);
    }
  }
}
