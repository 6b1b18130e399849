/** internal/proxy/sse.go and anthropic_sse.go: from stream lines to the usage reported at Close. */
module SseUsage {
  import opened Options
  import opened SseLines

  /** A decoded Anthropic event: message_start with usage, message_delta with usage, anything else. */
  datatype Event = Start(input: int) | Delta(output: int) | Other

  datatype Usage = Usage(input: int, output: int, total: int)

  const DATA_PREFIX: Bytes := [100, 97, 116, 97, 58, 32]                      // data:_
  const DONE: Bytes := [91, 68, 79, 78, 69, 93]                               // [DONE]
  const SENTINEL_USAGE: Bytes := [34, 117, 115, 97, 103, 101, 34]             // "usage"
  const SENTINEL_MESSAGE: Bytes := [34, 116, 121, 112, 101, 34, 58, 34, 109, 101, 115, 115, 97, 103, 101, 95, 34]

  function TrimRightCR(s: Bytes): Bytes {
    if s != [] && s[|s| - 1] == 13 then TrimRightCR(s[..|s| - 1]) else s
  }

  predicate IsSpace(b: byte) {
    9 <= b <= 13 || b == 32
  }

  function TrimSpace(s: Bytes): Bytes {
    if s == [] then s
    else if IsSpace(s[0]) then TrimSpace(s[1..])
    else if IsSpace(s[|s| - 1]) then TrimSpace(s[..|s| - 1])
    else s
  }

  predicate Contains(s: Bytes, part: Bytes) {
    part <= s || (s != [] && Contains(s[1..], part))
  }

  /** The payload of a line worth decoding, if it is one. */
  function Payload(line: Bytes): Option<Bytes> {
    var trimmed := TrimRightCR(line);
    if !(DATA_PREFIX <= trimmed) then None
    else
      var payload := trimmed[6..];
      if TrimSpace(payload) == DONE then None
      else if !Contains(payload, SENTINEL_USAGE) && !Contains(payload, SENTINEL_MESSAGE) then None
      else Some(payload)
  }

  /** The event on a line; `decode` stands for the JSON decoder. */
  function EventOn(decode: Bytes -> Event, line: Bytes): Event {
    var payload := Payload(line);
    if payload.None? then Other else decode(payload.value)
  }

  function EventsOn(decode: Bytes -> Event, lines: seq<Bytes>): (r: seq<Event>)
    ensures |r| == |lines|
  {
    if lines == [] then []
    else EventsOn(decode, lines[..|lines| - 1]) + [EventOn(decode, lines[|lines| - 1])]
  }

  // ---- The fold the parser and the reader carry out ----

  datatype Gathered = Gathered(inputTokens: int, hasInput: bool, usage: Option<Usage>)

  function Absorb(g: Gathered, e: Event): Gathered {
    match e
    case Start(input) => g.(inputTokens := input, hasInput := true)
    case Delta(output) =>
      if g.hasInput then g.(usage := Some(Usage(g.inputTokens, output, g.inputTokens + output))) else g
    case Other => g
  }

  function AbsorbAll(events: seq<Event>): Gathered {
    if events == [] then Gathered(0, false, None)
    else Absorb(AbsorbAll(events[..|events| - 1]), events[|events| - 1])
  }

  // ---- What should be reported ----

  /** j is the last delta of all, and i the most recent start before it. */
  predicate FinalPair(events: seq<Event>, i: nat, j: nat) {
    && i < j < |events| && events[i].Start? && events[j].Delta?
    && (forall k :: i < k < j ==> !events[k].Start?)
    && (forall k :: j < k < |events| ==> !events[k].Delta?)
  }

  predicate UsageOfPair(events: seq<Event>, i: nat, j: nat, u: Usage)
    requires FinalPair(events, i, j)
  {
    u == Usage(events[i].input, events[j].output, events[i].input + events[j].output)
  }

  /** The report a stream of events deserves: the last delta, added to the latest start before
  it; nothing when no delta follows a start. */
  ghost predicate Deserves(events: seq<Event>, r: Option<Usage>) {
    match r
    case Some(u) => exists i: nat, j: nat :: FinalPair(events, i, j) && UsageOfPair(events, i, j, u)
    case None => forall i, j :: 0 <= i < j < |events| && events[i].Start? ==> !events[j].Delta?
  }

  /** The accumulator remembers the latest start. */
  ghost predicate Remembers(events: seq<Event>, g: Gathered) {
    if g.hasInput then
      exists i :: 0 <= i < |events| && events[i] == Start(g.inputTokens) && forall k :: i < k < |events| ==> !events[k].Start?
    else forall k :: 0 <= k < |events| ==> !events[k].Start?
  }

  lemma {:induction false} GatheredRemembers(events: seq<Event>)
    ensures Remembers(events, AbsorbAll(events))
  {
    if events != [] {
      var n := |events| - 1;
      var g, init := AbsorbAll(events), events[..n];
      GatheredRemembers(init);
      if events[n].Start? {
        assert events[n] == Start(g.inputTokens);
      } else if g.hasInput {
        var i :| 0 <= i < |init| && init[i] == Start(g.inputTokens) && forall k :: i < k < |init| ==> !init[k].Start?;
        assert events[i] == Start(g.inputTokens);
      }
    }
  }

  /** Deserving nothing new carries over an event that is not a delta after a start. */
  lemma DeservesExtends(events: seq<Event>, r: Option<Usage>)
    requires events != []
    requires Deserves(events[..|events| - 1], r)
    requires events[|events| - 1].Delta? ==> forall k :: 0 <= k < |events| ==> !events[k].Start?
    ensures Deserves(events, r)
  {
    var n := |events| - 1;
    var init := events[..n];
    if r.Some? {
      var i: nat, j: nat :| FinalPair(init, i, j) && UsageOfPair(init, i, j, r.value);
      assert init[i] == events[i] && init[j] == events[j];
      assert FinalPair(events, i, j) && UsageOfPair(events, i, j, r.value);
    } else {
      forall i, j | 0 <= i < j < |events| && events[i].Start? ensures !events[j].Delta? {
        assert init[i].Start?;
        assert j < n ==> !init[j].Delta?;
      }
    }
  }

  /** The fold gathers what the events deserve, for every sequence of events. */
  lemma {:induction false} GatheredDeserves(events: seq<Event>)
    ensures Deserves(events, AbsorbAll(events).usage)
  {
    if events != [] {
      var n := |events| - 1;
      var init := events[..n];
      var before := AbsorbAll(init);
      GatheredDeserves(init);
      GatheredRemembers(init);
      if events[n].Delta? && before.hasInput {
        var i :| 0 <= i < |init| && init[i] == Start(before.inputTokens) && forall k :: i < k < |init| ==> !init[k].Start?;
        assert events[i] == init[i];
        assert FinalPair(events, i, n);
        assert UsageOfPair(events, i, n, AbsorbAll(events).usage.value);
      } else {
        assert forall k :: 0 <= k < n ==> init[k] == events[k];
        DeservesExtends(events, before.usage);
      }
    }
  }

  /** There is only one report a stream deserves. */
  lemma DeservesUnique(events: seq<Event>, r: Option<Usage>, r': Option<Usage>)
    requires Deserves(events, r) && Deserves(events, r')
    ensures r == r'
  {
    if r.Some? && r'.Some? {
      var i: nat, j: nat :| FinalPair(events, i, j) && UsageOfPair(events, i, j, r.value);
      var i': nat, j': nat :| FinalPair(events, i', j') && UsageOfPair(events, i', j', r'.value);
      assert j == j' && i == i';
    }
  }

  /** Streaming settlement: however the stream is cut into reads, if its lines fit the buffer, the
  usage held at Close is the one report the stream's own events deserve. */
  lemma StreamSettlement(decode: Bytes -> Event, cuts: seq<Bytes>)
    requires LinesFit(Joined(cuts))
    ensures Deserves(EventsOn(decode, Lines(Joined(cuts))), AbsorbAll(EventsOn(decode, Processed([], cuts))).usage)
  {
    CutInvisibleIffLinesFit(Joined(cuts));
    assert Processed([], cuts) == Lines(Joined(cuts));
    GatheredDeserves(EventsOn(decode, Processed([], cuts)));
  }
}
