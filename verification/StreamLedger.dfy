/** A streamed request from its bytes to the budget: the extractor of SseUsage driving Settlement. */
module StreamLedger {
  import opened Options
  import opened Accounts
  import opened Trackers
  import opened Proxy
  import opened Settlement
  import opened Handlers
  import opened SseLines
  import opened SseReaders
  import P = SsePayloads
  import U = SseUsage

  function TotalOf(u: Option<U.Usage>): Option<int> {
    if u.Some? then Some(u.value.total) else None
  }

  /** The happenings a stream's events cause for request i: one each time the reader stores usage. */
  function UsageTurns(i: nat, events: seq<U.Event>): seq<Turn> {
    if events == [] then []
    else
      var n := |events| - 1;
      UsageTurns(i, events[..n]) +
      if events[n].Delta? && U.AbsorbAll(events[..n]).hasInput
      then [Turn(i, StreamUsage(U.AbsorbAll(events).usage.value.total))] else []
  }

  // ---- A request follows its own turns, whatever the others do ----

  /** The turns of request i, in order. */
  function Mine(turns: seq<Turn>, i: nat): seq<Turn> {
    if turns == [] then []
    else (if turns[0].request == i then [turns[0]] else []) + Mine(turns[1..], i)
  }

  predicate Forwarded(p: Phase) {
    p.InFlight? || p.Streaming? || p.Finished?
  }

  function EndOfStream(usage: Option<int>): Ending {
    if usage.Some? then Reconciled(usage.value) else Stands
  }

  function After(h: Settings, p: Phase, what: Happening): (r: Phase)
    requires Forwarded(p)
    ensures Forwarded(r)
  {
    match (p, what)
    case (InFlight(req, t), Unreachable) => Finished(t, Stands)
    case (InFlight(req, t), Respond(status, body, _)) =>
      if status >= 500 then Finished(t, Refunded)
      else if Readable(req, body) then Finished(t, Reconciled(body.usage.value))
      else if Wrapped(h, req, body) then Streaming(t, None)
      else Finished(t, Stands)
    case (Streaming(t, _), StreamUsage(total)) => Streaming(t, Some(total))
    case (Streaming(t, usage), Close(_)) => Finished(t, EndOfStream(usage))
    case _ => p
  }

  /** Where such turns alone lead a request whose response has arrived. */
  function Follow(h: Settings, p: Phase, turns: seq<Turn>): (r: Phase)
    requires Forwarded(p)
    ensures Forwarded(r)
  {
    if turns == [] then p else After(h, Follow(h, p, turns[..|turns| - 1]), turns[|turns| - 1].what)
  }

  lemma OneTurn(h: Settings, w: World, turn: Turn, i: nat)
    requires BookSized(w.book) && i < |w.phases| && Forwarded(w.phases[i])
    ensures
      var r := Step(h, w, turn);
      && |r.phases| == |w.phases|
      && r.phases[i] == if turn.request == i then After(h, w.phases[i], turn.what) else w.phases[i]
  {
    if turn.request == i && w.phases[i].InFlight? && turn.what.Respond? {
      ResponseRule(h, w, i, w.phases[i].req, w.phases[i].ticket, turn.what.status, turn.what.body, turn.what.clock);
    }
  }

  lemma {:induction false} MineAppend(a: seq<Turn>, turn: Turn, i: nat)
    ensures Mine(a + [turn], i) == Mine(a, i) + if turn.request == i then [turn] else []
  {
    if a == [] {
      assert [turn][1..] == [];
    } else {
      MineAppend(a[1..], turn, i);
      assert (a + [turn])[1..] == a[1..] + [turn];
    }
  }

  lemma {:induction false} FollowsOwnTurns(h: Settings, w: World, turns: seq<Turn>, i: nat)
    requires Conserves(w) && i < |w.phases| && Forwarded(w.phases[i])
    ensures
      var r := Run(h, w, turns);
      |r.phases| == |w.phases| && r.phases[i] == Follow(h, w.phases[i], Mine(turns, i))
  {
    RunKeepsRequests(h, w, turns);
    if turns != [] {
      var n := |turns| - 1;
      var init, last := turns[..n], turns[n];
      assert turns == init + [last];
      FollowsOwnTurns(h, w, init, i);
      RunAppend(h, w, init, [last]);
      RunOne(h, Run(h, w, init), last);
      OneTurn(h, Run(h, w, init), last, i);
      MineAppend(init, last, i);
      var mine := Mine(turns, i);
      if last.request == i {
        assert mine[..|mine| - 1] == Mine(init, i);
      } else {
        assert mine == Mine(init, i);
      }
    }
  }

  /** The stream's happenings leave the request holding the usage gathered from the events. */
  lemma {:induction false} UsageTurnsGather(h: Settings, i: nat, t: Ticket, events: seq<U.Event>)
    ensures Follow(h, Streaming(t, None), UsageTurns(i, events)) == Streaming(t, TotalOf(U.AbsorbAll(events).usage))
  {
    if events != [] {
      var n := |events| - 1;
      UsageTurnsGather(h, i, t, events[..n]);
      if events[n].Delta? && U.AbsorbAll(events[..n]).hasInput {
        var turns := UsageTurns(i, events);
        assert turns[..|turns| - 1] == UsageTurns(i, events[..n]);
      } else {
        assert UsageTurns(i, events) == UsageTurns(i, events[..n]);
      }
    }
  }

  /** End to end: for a streamed request that holds its reservation, whatever other requests do in
  between and however its stream is cut into reads, if the lines fit the buffer then after Close its
  additions to the window sum to the usage the stream's own events deserve, by one Record, or to its
  estimate, by none, when they deserve none. */
  lemma StreamedRequestSettles(h: Settings, w: World, i: nat, t: Ticket, decode: Bytes -> U.Event, cuts: seq<Bytes>,
                               turns: seq<Turn>, c: Clock)
    requires Conserves(w) && i < |w.phases| && w.phases[i] == Streaming(t, None) && t.hold == Held
    requires LinesFit(Joined(cuts))
    requires Mine(turns, i) == UsageTurns(i, U.EventsOn(decode, Processed([], cuts))) + [Turn(i, Close(c))]
    ensures
      var r := U.AbsorbAll(U.EventsOn(decode, Processed([], cuts))).usage;
      && U.Deserves(U.EventsOn(decode, SseLines.Lines(Joined(cuts))), r)
      && Own(Run(h, w, turns), i) == (if r.Some? then r.value.total else t.estimate)
      && Records(Run(h, w, turns).log, i) == if r.Some? then 1 else 0
  {
    U.StreamSettlement(decode, cuts);
    StreamEnds(h, i, t, U.EventsOn(decode, Processed([], cuts)), Mine(turns, i), c);
    FollowsOwnTurns(h, w, turns, i);
    RunConserves(h, w, turns);
    HeldAndFinished(Run(h, w, turns), i);
  }

  lemma StreamEnds(h: Settings, i: nat, t: Ticket, events: seq<U.Event>, mine: seq<Turn>, c: Clock)
    requires mine == UsageTurns(i, events) + [Turn(i, Close(c))]
    ensures Follow(h, Streaming(t, None), mine) == Finished(t, EndOfStream(TotalOf(U.AbsorbAll(events).usage)))
  {
    assert mine[..|mine| - 1] == UsageTurns(i, events);
    UsageTurnsGather(h, i, t, events);
  }

  lemma {:induction false} FollowFirst(h: Settings, p: Phase, turn: Turn, rest: seq<Turn>)
    requires Forwarded(p)
    ensures Follow(h, p, [turn] + rest) == Follow(h, After(h, p, turn.what), rest)
  {
    var all := [turn] + rest;
    if rest == [] {
      assert all[..0] == [];
    } else {
      var n := |rest| - 1;
      FollowFirst(h, p, turn, rest[..n]);
      assert all[..n + 1] == [turn] + rest[..n];
    }
  }

  /** The same from the forwarded request on: its response is an event stream that the proxy wraps
  (a streaming request, extraction on, a provider it can read, no server error), then the stream runs
  and is closed. */
  lemma StreamedResponseSettles(h: Settings, w: World, i: nat, req: Request, t: Ticket, decode: Bytes -> U.Event, cuts: seq<Bytes>,
                                turns: seq<Turn>, status: int, c0: Clock, c: Clock)
    requires Conserves(w) && i < |w.phases| && w.phases[i] == InFlight(req, t) && t.hold == Held
    requires status < 500 && req.streaming && h.sseExtraction && (req.provider == OpenAI || req.provider == Anthropic)
    requires LinesFit(Joined(cuts))
    requires
      var events := U.EventsOn(decode, Processed([], cuts));
      Mine(turns, i) == [Turn(i, Respond(status, EventStream, c0))] + (UsageTurns(i, events) + [Turn(i, Close(c))])
    ensures
      var r := U.AbsorbAll(U.EventsOn(decode, Processed([], cuts))).usage;
      && U.Deserves(U.EventsOn(decode, SseLines.Lines(Joined(cuts))), r)
      && Own(Run(h, w, turns), i) == (if r.Some? then r.value.total else t.estimate)
      && Records(Run(h, w, turns).log, i) == if r.Some? then 1 else 0
  {
    U.StreamSettlement(decode, cuts);
    WrappedStreamEnds(h, i, req, t, U.EventsOn(decode, Processed([], cuts)), Mine(turns, i), status, c0, c);
    FollowsOwnTurns(h, w, turns, i);
    RunConserves(h, w, turns);
    HeldAndFinished(Run(h, w, turns), i);
  }

  lemma WrappedStreamEnds(h: Settings, i: nat, req: Request, t: Ticket, events: seq<U.Event>, mine: seq<Turn>,
                          status: int, c0: Clock, c: Clock)
    requires status < 500 && Wrapped(h, req, EventStream)
    requires mine == [Turn(i, Respond(status, EventStream, c0))] + (UsageTurns(i, events) + [Turn(i, Close(c))])
    ensures Follow(h, InFlight(req, t), mine) == Finished(t, EndOfStream(TotalOf(U.AbsorbAll(events).usage)))
  {
    var rest := UsageTurns(i, events) + [Turn(i, Close(c))];
    FollowFirst(h, InFlight(req, t), Turn(i, Respond(status, EventStream, c0)), rest);
    StreamEnds(h, i, t, events, rest, c);
  }

  lemma HeldAndFinished(w: World, i: nat)
    requires Conserves(w) && i < |w.phases| && w.phases[i].Finished? && w.phases[i].ticket.hold == Held
    ensures Own(w, i) == Due(w.phases[i].ending, w.phases[i].ticket.estimate)
    ensures Records(w.log, i) == if w.phases[i].ending == Stands then 0 else 1
  {
    assert BalancedAt(w, i);
  }

  // ---- The objects ----

  /** What one report does to the tracker. */
  function SettledWith(book: Book, t: Ticket, c: Clock, report: Option<U.Usage>): Book
    requires BookSized(book)
  {
    if report.Some? then RecordIn(book, t.key, c, report.value.total - t.estimate) else book
  }

  lemma {:induction false} JoinedAppend(cuts: seq<Bytes>, p: Bytes)
    ensures Joined(cuts + [p]) == Joined(cuts) + p
  {
    if cuts == [] {
      assert [p][1..] == [];
    } else {
      JoinedAppend(cuts[1..], p);
      assert (cuts + [p])[1..] == cuts[1..] + [p];
    }
  }

  method ReadOne(reader: TokenExtractingReader, p: Bytes)
    requires reader.Valid()
    modifies reader`buf, reader`usage, reader`lines, reader`fed, reader.parser
    ensures reader.Valid() && Joined(reader.fed) == Joined(old(reader.fed)) + p
  {
    JoinedAppend(reader.fed, p);
    var _ := reader.Read(p);
  }

  /** Any cut of the stream, read through a new reader. */
  method ReadAll(decode: Bytes -> U.Event, cuts: seq<Bytes>) returns (reader: TokenExtractingReader)
    ensures fresh(reader) && fresh(reader.parser) && reader.Valid() && !reader.closed
    ensures reader.decode == decode && Joined(reader.fed) == Joined(cuts)
  {
    reader := new TokenExtractingReader(decode);
    for k := 0 to |cuts|
      invariant fresh(reader) && fresh(reader.parser) && reader.Valid() && !reader.closed
      invariant reader.decode == decode && Joined(reader.fed) == Joined(cuts[..k])
    {
      JoinedAppend(cuts[..k], cuts[k]);
      assert cuts[..k + 1] == cuts[..k] + [cuts[k]];
      ReadOne(reader, cuts[k]);
    }
    assert cuts[..|cuts|] == cuts;
  }

  /** Any number of Closes: the one report made, if any, is made by the first. */
  method CloseAll(reader: TokenExtractingReader, closes: seq<Clock>) returns (calls: seq<(Clock, U.Usage)>)
    requires reader.Valid() && !reader.closed && closes != []
    modifies reader`closed, reader`reports
    ensures calls == if reader.usage.Some? then [(closes[0], reader.usage.value)] else []
    ensures LinesFit(Joined(reader.fed)) ==>
              U.Deserves(U.EventsOn(reader.decode, SseLines.Lines(Joined(reader.fed))), reader.usage)
  {
    calls := [];
    for k := 0 to |closes|
      invariant reader.Valid() && reader.closed == (k > 0)
      invariant calls == if k > 0 && reader.usage.Some? then [(closes[0], reader.usage.value)] else []
      invariant k > 0 && LinesFit(Joined(reader.fed)) ==>
                  U.Deserves(U.EventsOn(reader.decode, SseLines.Lines(Joined(reader.fed))), reader.usage)
    {
      var before := |reader.reports|;
      reader.Close();
      if |reader.reports| > before {
        calls := calls + [(closes[k], reader.reports[before])];
      }
    }
  }

  /** All of that: the calls made and the usage behind them. */
  method Extracted(decode: Bytes -> U.Event, cuts: seq<Bytes>, closes: seq<Clock>)
    returns (calls: seq<(Clock, U.Usage)>, report: Option<U.Usage>)
    requires closes != []
    ensures calls == if report.Some? then [(closes[0], report.value)] else []
    ensures LinesFit(Joined(cuts)) ==> U.Deserves(U.EventsOn(decode, SseLines.Lines(Joined(cuts))), report)
  {
    var reader := ReadAll(decode, cuts);
    calls := CloseAll(reader, closes);
    report := reader.usage;
  }

  /** The callback behind the reader, for the report it makes, if it makes one. */
  method OnUsage(h: Handler, t: Ticket, report: Option<U.Usage>, c: Clock)
    requires h.Valid()
    modifies h.tracker.Repr - {h.tracker}
    ensures h.Valid() && h.tracker.Contents() == SettledWith(old(h.tracker.Contents()), t, c, report)
  {
    ghost var was := h.tracker.Contents();
    var delta := if report.Some? then Some(report.value.total - t.estimate) else None;
    assert SettledWith(was, t, c, report) == if delta.Some? then RecordIn(was, t.key, c, delta.value) else was;
    h.Settle(t, delta, c);
  }

  /** The life of a wrapped response body: any reads, then any number of Closes, with the handler's
  callback behind them. The tracker is moved once, at the clock of the first Close, by the usage the
  stream's own events deserve, or not at all. */
  method RelayStream(h: Handler, t: Ticket, decode: Bytes -> U.Event, cuts: seq<Bytes>, closes: seq<Clock>)
    returns (report: Option<U.Usage>)
    requires h.Valid() && closes != []
    modifies h.tracker.Repr - {h.tracker}
    ensures h.Valid()
    ensures h.tracker.Contents() == SettledWith(old(h.tracker.Contents()), t, closes[0], report)
    ensures LinesFit(Joined(cuts)) ==> U.Deserves(U.EventsOn(decode, SseLines.Lines(Joined(cuts))), report)
  {
    var calls;
    calls, report := Extracted(decode, cuts, closes);
    assert h.tracker.Contents() == old(h.tracker.Contents());
    OnUsage(h, t, if calls == [] then None else Some(calls[0].1), closes[0]);
  }

  /** Two events, from the bytes to the report: a line that carries a message start of i tokens and one
  that carries a message delta of o, in a stream cut anyhow, make RelayStream report i + o. */
  method RelayTwoEvents(h: Handler, t: Ticket, decode: Bytes -> U.Event, a: Bytes, ghost p: Bytes, b: Bytes, ghost q: Bytes,
                        cuts: seq<Bytes>, closes: seq<Clock>) returns (report: Option<U.Usage>)
    requires h.Valid() && closes != [] && Joined(cuts) == P.TwoLines(a, b)
    requires 10 !in a && 10 !in b && |a| <= 8192 && |b| <= 8192 && P.Carries(a, p) && P.Carries(b, q)
    requires decode(p).Start? && decode(q).Delta?
    modifies h.tracker.Repr - {h.tracker}
    ensures h.Valid()
    ensures report == Some(U.Usage(decode(p).input, decode(q).output, decode(p).input + decode(q).output))
  {
    P.LinesOfTwo(a, b);
    report := RelayStream(h, t, decode, cuts, closes);
    P.TwoLinesDeserve(decode, a, p, b, q, report);
  }
}
