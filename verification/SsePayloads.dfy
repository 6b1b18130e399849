/** What one line of an event stream says, from its bytes alone. */
module SsePayloads {
  import opened Options
  import opened SseLines
  import opened SseUsage

  /** Any number of carriage returns. */
  function CRs(k: nat): Bytes {
    seq(k, _ => 13)
  }

  predicate EndsInCR(s: Bytes) {
    s != [] && s[|s| - 1] == 13
  }

  predicate AllSpace(s: Bytes) {
    forall k :: 0 <= k < |s| ==> s[k] in {9, 10, 11, 12, 13, 32}
  }

  /** `[DONE]`, perhaps between blanks. */
  ghost predicate SaysDone(p: Bytes) {
    exists a, b :: AllSpace(a) && AllSpace(b) && p == a + [91, 68, 79, 78, 69, 93] + b
  }

  /** `part` stands somewhere in s. */
  ghost predicate Holds(s: Bytes, part: Bytes) {
    exists before, after :: s == before + part + after
  }

  /** `"usage"`, or `"type":"message_"`. */
  ghost predicate WorthDecoding(p: Bytes) {
    || Holds(p, [34, 117, 115, 97, 103, 101, 34])
    || Holds(p, [34, 116, 121, 112, 101, 34, 58, 34, 109, 101, 115, 115, 97, 103, 101, 95, 34])
  }

  /** The line is `data: ` and p, then any carriage returns; and p is worth decoding. */
  ghost predicate Carries(line: Bytes, p: Bytes) {
    && (exists k: nat :: line == [100, 97, 116, 97, 58, 32] + p + CRs(k)) && !EndsInCR(p)
    && !SaysDone(p) && WorthDecoding(p)
  }

  // ---- The trims and the search, said without recursion ----

  lemma {:induction false} TrimsCRs(x: Bytes, k: nat)
    requires !EndsInCR(x)
    ensures TrimRightCR(x + CRs(k)) == x
  {
    if k == 0 {
      assert x + CRs(0) == x;
    } else {
      var s := x + CRs(k);
      TrimsCRs(x, k - 1);
      assert s[..|s| - 1] == x + CRs(k - 1);
    }
  }

  lemma {:induction false} TrimmedCRs(s: Bytes) returns (k: nat)
    ensures s == TrimRightCR(s) + CRs(k) && !EndsInCR(TrimRightCR(s))
  {
    if EndsInCR(s) {
      k := TrimmedCRs(s[..|s| - 1]);
      assert CRs(k) + [13] == CRs(k + 1);
      k := k + 1;
    } else {
      k := 0;
      assert s + CRs(0) == s;
    }
  }

  lemma {:induction false} TrimsSpace(a: Bytes, m: Bytes, b: Bytes)
    requires AllSpace(a) && AllSpace(b) && m != [] && !IsSpace(m[0]) && !IsSpace(m[|m| - 1])
    ensures TrimSpace(a + m + b) == m
    decreases |a| + |b|
  {
    var s := a + m + b;
    if a != [] {
      assert s[0] == a[0];
      assert s[1..] == a[1..] + m + b;
      TrimsSpace(a[1..], m, b);
    } else if b != [] {
      assert s[0] == m[0] && s[|s| - 1] == b[|b| - 1];
      assert s[..|s| - 1] == a + m + b[..|b| - 1];
      TrimsSpace(a, m, b[..|b| - 1]);
    } else {
      assert s == m;
    }
  }

  lemma {:induction false} TrimmedSpace(s: Bytes) returns (a: Bytes, b: Bytes)
    ensures AllSpace(a) && AllSpace(b) && s == a + TrimSpace(s) + b
    decreases |s|
  {
    a, b := [], [];
    if s != [] && IsSpace(s[0]) {
      a, b := TrimmedSpace(s[1..]);
      a := [s[0]] + a;
    } else if s != [] && IsSpace(s[|s| - 1]) {
      a, b := TrimmedSpace(s[..|s| - 1]);
      b := b + [s[|s| - 1]];
    }
  }

  lemma DoneRule(p: Bytes)
    ensures TrimSpace(p) == DONE <==> SaysDone(p)
  {
    if TrimSpace(p) == DONE {
      var a, b := TrimmedSpace(p);
    }
    if SaysDone(p) {
      var a, b :| AllSpace(a) && AllSpace(b) && p == a + [91, 68, 79, 78, 69, 93] + b;
      TrimsSpace(a, [91, 68, 79, 78, 69, 93], b);
    }
  }

  lemma {:induction false} ContainsRule(s: Bytes, part: Bytes)
    ensures Contains(s, part) <==> Holds(s, part)
  {
    if s != [] {
      ContainsRule(s[1..], part);
    }
    if part <= s {
      assert s == [] + part + s[|part|..];
    } else if Contains(s, part) {
      var before, after :| s[1..] == before + part + after;
      assert s == ([s[0]] + before) + part + after;
    }
    if Holds(s, part) {
      var before, after :| s == before + part + after;
      if before != [] {
        assert s[1..] == before[1..] + part + after;
      }
    }
  }

  // ---- The rule ----

  lemma PayloadOfCarrier(line: Bytes, p: Bytes)
    requires Carries(line, p)
    ensures Payload(line) == Some(p)
  {
    var k: nat :| line == [100, 97, 116, 97, 58, 32] + p + CRs(k);
    var x := [100, 97, 116, 97, 58, 32] + p;
    assert !EndsInCR(x);
    TrimsCRs(x, k);
    assert x[6..] == p && DATA_PREFIX <= x;
    DoneRule(p);
    ContainsRule(p, SENTINEL_USAGE);
    ContainsRule(p, SENTINEL_MESSAGE);
  }

  lemma CarrierOfPayload(line: Bytes)
    requires Payload(line).Some?
    ensures Carries(line, Payload(line).value)
  {
    var k := TrimmedCRs(line);
    var x := TrimRightCR(line);
    var p := x[6..];
    assert x == [100, 97, 116, 97, 58, 32] + p;
    DoneRule(p);
    ContainsRule(p, SENTINEL_USAGE);
    ContainsRule(p, SENTINEL_MESSAGE);
  }

  /** What a line says, exactly: a line that carries p says what p decodes to, and a line that carries
  nothing (another field, `[DONE]`, nothing about usage) says nothing. */
  lemma LineRule(decode: Bytes -> Event, line: Bytes)
    ensures forall p :: Carries(line, p) ==> EventOn(decode, line) == decode(p)
    ensures (forall p :: !Carries(line, p)) ==> EventOn(decode, line) == Other
  {
    forall p | Carries(line, p) ensures EventOn(decode, line) == decode(p) {
      PayloadOfCarrier(line, p);
    }
    if Payload(line).Some? {
      CarrierOfPayload(line);
    }
  }

  lemma {:induction false} EventsInOrder(decode: Bytes -> Event, lines: seq<Bytes>, k: nat)
    requires k < |lines|
    ensures EventsOn(decode, lines)[k] == EventOn(decode, lines[k])
  {
    if k < |lines| - 1 {
      EventsInOrder(decode, lines[..|lines| - 1], k);
    }
  }

  // ---- Two lines ----

  /** Two lines, each ended by a newline. */
  function TwoLines(a: Bytes, b: Bytes): Bytes {
    a + [10] + b + [10]
  }

  lemma LinesOfTwo(a: Bytes, b: Bytes)
    requires 10 !in a && 10 !in b
    ensures Lines(TwoLines(a, b)) == [a, b]
  {
    var s := TwoLines(a, b);
    assert s[..|a|] == a && s[|a| + 1..] == b + [10];
    LinesBreakAfter([], s, |a|);
    assert [] + [a] == [a] && [] + Lines(s) == Lines(s);
    var t := b + [10];
    assert t[..|b|] == b && t[|b| + 1..] == [];
    LinesBreakAfter([a], t, |b|);
    NoBreak([]);
    assert ([a] + [b]) + [] == [a, b];
  }

  /** A message start of i tokens and a message delta of o, one line each, deserve a report of i + o. */
  lemma TwoLinesDeserve(decode: Bytes -> Event, a: Bytes, p: Bytes, b: Bytes, q: Bytes, r: Option<Usage>)
    requires 10 !in a && 10 !in b && Carries(a, p) && Carries(b, q)
    requires decode(p).Start? && decode(q).Delta?
    requires Deserves(EventsOn(decode, Lines(TwoLines(a, b))), r)
    ensures r == Some(Usage(decode(p).input, decode(q).output, decode(p).input + decode(q).output))
  {
    LinesOfTwo(a, b);
    var events := EventsOn(decode, [a, b]);
    LineRule(decode, a);
    LineRule(decode, b);
    EventsInOrder(decode, [a, b], 0);
    EventsInOrder(decode, [a, b], 1);
    assert events == [decode(p), decode(q)];
    var u := Usage(decode(p).input, decode(q).output, decode(p).input + decode(q).output);
    assert FinalPair(events, 0, 1) && UsageOfPair(events, 0, 1, u);
    DeservesUnique(events, r, Some(u));
  }
}
