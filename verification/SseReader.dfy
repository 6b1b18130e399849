/** internal/proxy/sse.go: the reader object wrapped around a streaming response body. */
module SseReaders {
  import opened Options
  import opened SseLines
  import opened SseUsage

  method IndexNewline(s: Bytes) returns (idx: int)
    ensures idx == -1 ==> NEWLINE !in s
    ensures idx != -1 ==> 0 <= idx < |s| && s[idx] == NEWLINE && NEWLINE !in s[..idx]
  {
    for i := 0 to |s|
      invariant NEWLINE !in s[..i]
    {
      if s[i] == NEWLINE {
        return i;
      }
    }
    return -1;
  }

  /** anthropic_sse.go: pairs a message_start with a later message_delta. */
  class Accumulator {
    var inputTokens: int
    var hasInput: bool

    constructor ()
      ensures inputTokens == 0 && !hasInput
    {
      inputTokens, hasInput := 0, false;
    }

    method Parse(e: Event) returns (final: Option<Usage>)
      modifies this
      ensures forall usage ::
        Gathered(inputTokens, hasInput, if final.Some? then final else usage) ==
        Absorb(Gathered(old(inputTokens), old(hasInput), usage), e)
    {
      if e.Other? {
        return None;
      }
      if e.Start? {
        inputTokens := e.input;
        hasInput := true;
        return None;
      }
      if !hasInput {
        return None;
      }
      return Some(Usage(inputTokens, e.output, inputTokens + e.output));
    }
  }

  class TokenExtractingReader {
    const decode: Bytes -> Event
    const parser: Accumulator
    var buf: Bytes
    var usage: Option<Usage>
    var closed: bool
    var reports: seq<Usage>      // the onUsage calls made so far
    ghost var lines: seq<Bytes>  // the lines processed so far
    ghost var fed: seq<Bytes>    // the reads scanned so far

    /** What has been gathered is the fold over the lines processed. */
    ghost predicate Tallies()
      reads this, parser
    {
      Gathered(parser.inputTokens, parser.hasInput, usage) == AbsorbAll(EventsOn(decode, lines))
    }

    /** The lines are those of the reads so far, the tally is right, the buffer is bounded, and nothing is reported twice. */
    ghost predicate Valid()
      reads this, parser
    {
      && lines == Processed([], fed) && buf == Buffered([], fed)
      && |buf| <= MAX_LINE_BUFFER
      && Tallies()
      && (!closed ==> reports == []) && |reports| <= 1
    }

    constructor (decode: Bytes -> Event)
      ensures Valid() && fresh(parser)
      ensures this.decode == decode && fed == [] && !closed
    {
      this.decode := decode;
      parser := new Accumulator();
      buf, usage, closed, reports, lines, fed := [], None, false, [], [], [];
    }

    /** Bytes pass through unchanged; they are scanned on the way. */
    method Read(p: Bytes) returns (out: Bytes)
      requires Valid()
      modifies this`buf, this`usage, this`lines, this`fed, parser
      ensures Valid() && out == p
      ensures fed == if p == [] then old(fed) else old(fed) + [p]
    {
      out := p;
      if |p| > 0 {
        FeedOneMore([], fed, p);
        Scan(p);
        fed := fed + [p];
      }
    }

    method Scan(data: Bytes)
      requires Tallies()
      modifies this`buf, this`usage, this`lines, parser
      ensures Tallies()
      ensures lines == old(lines) + Lines(old(buf) + data)
      ensures buf == Kept(Rest(old(buf) + data))
    {
      buf := buf + data;
      var more := true;
      while more
        invariant Tallies()
        invariant lines + Lines(buf) == old(lines) + Lines(old(buf) + data)
        invariant Rest(buf) == Rest(old(buf) + data)
        invariant !more ==> NEWLINE !in buf
        decreases more, |buf|
      {
        more := NextLine();
      }
      NoBreak(buf);
      if |buf| > MAX_LINE_BUFFER {
        buf := [];
      }
    }

    /** One turn of the scan loop: process the next complete line, if there is one. */
    method NextLine() returns (more: bool)
      requires Tallies()
      modifies this`buf, this`usage, this`lines, parser
      ensures Tallies()
      ensures more ==> |buf| < |old(buf)|
      ensures !more ==> NEWLINE !in buf && buf == old(buf)
      ensures lines + Lines(buf) == old(lines) + Lines(old(buf)) && Rest(buf) == Rest(old(buf))
    {
      var idx := IndexNewline(buf);
      if idx == -1 {
        return false;
      }
      LinesBreakAfter(lines, buf, idx);
      var line := buf[..idx];
      buf := buf[idx + 1..];
      ProcessLine(line);
      return true;
    }

    method ProcessLine(line: Bytes)
      requires Tallies()
      modifies this`usage, this`lines, parser
      ensures Tallies()
      ensures lines == old(lines) + [line]
    {
      ghost var before := EventsOn(decode, lines);
      lines := lines + [line];
      assert lines[..|lines| - 1] == old(lines);
      assert EventsOn(decode, lines)[..|before|] == before;
      var payload := Payload(line);
      if payload.None? {
        return;
      }
      var final := parser.Parse(decode(payload.value));
      if final.Some? {
        usage := final;
      }
    }

    /** The first Close reports what was extracted; later ones do nothing. */
    method Close()
      requires Valid()
      modifies this`closed, this`reports
      ensures Valid() && closed
      ensures reports == if old(closed) || usage.None? then old(reports) else [usage.value]
      ensures LinesFit(Joined(fed)) ==> Deserves(EventsOn(decode, Lines(Joined(fed))), usage)
    {
      if LinesFit(Joined(fed)) {
        StreamSettlement(decode, fed);
      }
      if closed {
        return;
      }
      closed := true;
      if usage.Some? {
        reports := reports + [usage.value];
      }
    }
  }
}
