/** internal/proxy/proxy.go from forwarding on: how an upstream's answer settles a request. */
module Settlement {
  import opened Options
  import opened Ring
  import opened Accounts
  import opened Enforce
  import opened Trackers
  import opened Proxy

  /** A response body: an event stream, or a plain body with the usage its parser found (None for
  a body that could not be read or parsed). */
  datatype Body = EventStream | Plain(usage: Option<int>)

  /** What ModifyResponse does with a response. */
  datatype Reaction =
    | Refund                  // record minus the estimate
    | Reconcile(actual: int)  // record actual minus estimate
    | Extract                 // wrap the stream; settle when it closes
    | LeaveStanding

  predicate Parses(p: Provider) {
    p == OpenAI || p == Anthropic
  }

  function React(h: Settings, req: Request, status: int, body: Body): Reaction {
    if status >= 500 then Refund
    else match body
      case EventStream =>
        if req.streaming && h.sseExtraction && Parses(req.provider) then Extract else LeaveStanding
      case Plain(usage) =>
        if Parses(req.provider) && usage.Some? then Reconcile(usage.value) else LeaveStanding
  }

  /** The delta a reaction records at once. */
  function Reported(r: Reaction, estimate: int): Option<int> {
    match r
    case Refund => Some(-estimate)
    case Reconcile(actual) => Some(actual - estimate)
    case _ => None
  }

  /** How a request ended. */
  datatype Ending = Refunded | Reconciled(actual: int) | Stands

  /** The delta an ending records; None when it makes no Record. */
  function DeltaOf(e: Ending, estimate: int): Option<int> {
    match e
    case Refunded => Some(-estimate)
    case Reconciled(actual) => Some(actual - estimate)
    case Stands => None
  }

  // ---- Many requests, interleaved ----

  datatype Phase =
    | Pending(req: Request)
    | Answered                                                  // refused, or proxied unaccounted
    | InFlight(req: Request, ticket: Ticket)
    | Streaming(ticket: Ticket, usage: Option<int>)             // usage extracted so far
    | Finished(ticket: Ticket, ending: Ending)

  datatype Source = FromReserve | FromRecord

  /** One window addition: which request made it, for which key, and how. */
  datatype Line = Line(request: nat, key: string, source: Source, entry: Entry)

  datatype World = World(book: Book, phases: seq<Phase>, log: seq<Line>)

  datatype Happening =
    | Arrive(clock: Clock)
    | Unreachable                           // no upstream configured, or no answer in time
    | Respond(status: int, body: Body, clock: Clock)
    | StreamUsage(total: int)               // the extractor saw a final usage
    | Close(clock: Clock)

  datatype Turn = Turn(request: nat, what: Happening)

  function Lines(i: nat, key: string, source: Source, entries: seq<Entry>): (r: seq<Line>)
    ensures |r| == |entries|
  {
    if entries == [] then [] else [Line(i, key, source, entries[0])] + Lines(i, key, source, entries[1..])
  }

  function At(w: World, i: nat, p: Phase): World
    requires i < |w.phases|
  {
    w.(phases := w.phases[i := p])
  }

  /** The additions serving a request makes, under its accounting key. */
  function ArrivalLines(h: Settings, w: World, i: nat, req: Request, c: Clock): seq<Line>
    requires BookSized(w.book)
  {
    var (id, pol) := Identified(h, req);
    var key := AccountingKey(h, id);
    if pol.Some? && Reserves(h, req, pol.value) && key in w.book
    then Lines(i, key, FromReserve, ReserveEntries(w.book[key], c, Estimate(req)))
    else []
  }

  function OnArrive(h: Settings, w: World, i: nat, req: Request, c: Clock): World
    requires BookSized(w.book) && i < |w.phases|
  {
    var s := Serve(h, w.book, req, c);
    World(s.book,
          w.phases[i := if s.outcome.Forward? then InFlight(req, s.outcome.ticket) else Answered],
          w.log + ArrivalLines(h, w, i, req, c))
  }

  function Finish(w: World, i: nat, t: Ticket, e: Ending, c: Clock): World
    requires BookSized(w.book) && i < |w.phases|
  {
    var w' := At(w, i, Finished(t, e));
    var delta := DeltaOf(e, t.estimate);
    if delta.None? || t.key !in w.book then w'
    else w'.(book := RecordIn(w.book, t.key, c, delta.value),
             log := w.log + Lines(i, t.key, FromRecord, RecordEntries(w.book[t.key], c, delta.value)))
  }

  function OnRespond(h: Settings, w: World, i: nat, req: Request, t: Ticket, status: int, body: Body, c: Clock): World
    requires BookSized(w.book) && i < |w.phases|
  {
    match React(h, req, status, body)
    case Refund => Finish(w, i, t, Refunded, c)
    case Reconcile(actual) => Finish(w, i, t, Reconciled(actual), c)
    case Extract => At(w, i, Streaming(t, None))
    case LeaveStanding => Finish(w, i, t, Stands, c)
  }

  function Step(h: Settings, w: World, turn: Turn): World
    requires BookSized(w.book)
  {
    if turn.request >= |w.phases| then w else
    var i := turn.request;
    match (w.phases[i], turn.what)
    case (Pending(req), Arrive(c)) => OnArrive(h, w, i, req, c)
    case (InFlight(req, t), Unreachable) => At(w, i, Finished(t, Stands))
    case (InFlight(req, t), Respond(status, body, c)) => OnRespond(h, w, i, req, t, status, body, c)
    case (Streaming(t, _), StreamUsage(total)) => At(w, i, Streaming(t, Some(total)))
    case (Streaming(t, usage), Close(c)) =>
      Finish(w, i, t, if usage.Some? then Reconciled(usage.value) else Stands, c)
    case _ => w
  }

  /** The delta due at once for a response, from the response alone. */
  function DueDelta(req: Request, t: Ticket, status: int, body: Body): Option<int> {
    if status >= 500 then Some(-t.estimate)
    else if Readable(req, body) then Some(body.usage.value - t.estimate)
    else None
  }

  /** The usage of a plain body the proxy can read. */
  predicate Readable(req: Request, body: Body) {
    body.Plain? && body.usage.Some? && (req.provider == OpenAI || req.provider == Anthropic)
  }

  /** An event stream the proxy wraps to extract usage from. */
  predicate Wrapped(h: Settings, req: Request, body: Body) {
    body.EventStream? && req.streaming && h.sseExtraction && (req.provider == OpenAI || req.provider == Anthropic)
  }

  /** A response, from the response alone: a server error takes the estimate back out, readable usage
  replaces it, anything else moves no account; and the request is over unless its stream is wrapped.
  This is the book the response callback makes of it too. */
  lemma ResponseRule(h: Settings, w: World, i: nat, req: Request, t: Ticket, status: int, body: Body, c: Clock)
    requires BookSized(w.book) && i < |w.phases| && w.phases[i] == InFlight(req, t)
    ensures
      var w' := Step(h, w, Turn(i, Respond(status, body, c)));
      && (t.key !in w.book || (status < 500 && !Readable(req, body)) ==> w'.book == w.book)
      && (t.key in w.book && status >= 500 ==> w'.book == w.book[t.key := Record(w.book[t.key], c, -t.estimate)])
      && (t.key in w.book && status < 500 && Readable(req, body) ==>
            w'.book == w.book[t.key := Record(w.book[t.key], c, body.usage.value - t.estimate)])
      && w'.phases == w.phases[i := if status >= 500 then Finished(t, Refunded)
                                    else if Readable(req, body) then Finished(t, Reconciled(body.usage.value))
                                    else if Wrapped(h, req, body) then Streaming(t, None)
                                    else Finished(t, Stands)]
  {
    match React(h, req, status, body) {
      case Refund => assert status >= 500;
      case Reconcile(actual) => assert Readable(req, body) && actual == body.usage.value;
      case Extract => assert Wrapped(h, req, body);
      case LeaveStanding => assert !Readable(req, body) && !Wrapped(h, req, body);
    }
  }

  // ---- What the log says about one request ----

  /** The tokens request i has added to windows, from one source. */
  function Tokens(log: seq<Line>, i: nat, source: Source): int {
    if log == [] then 0
    else (if log[0].request == i && log[0].source == source then log[0].entry.tokens else 0) + Tokens(log[1..], i, source)
  }

  function Records(log: seq<Line>, i: nat): nat {
    if log == [] then 0
    else (if log[0].request == i && log[0].source == FromRecord then 1 else 0) + Records(log[1..], i)
  }

  lemma {:induction false} TokensAppend(a: seq<Line>, b: seq<Line>, i: nat, source: Source)
    ensures Tokens(a + b, i, source) == Tokens(a, i, source) + Tokens(b, i, source)
  {
    if a == [] {
      assert a + b == b;
    } else {
      TokensAppend(a[1..], b, i, source);
      assert (a + b)[1..] == a[1..] + b;
    }
  }

  lemma {:induction false} RecordsAppend(a: seq<Line>, b: seq<Line>, i: nat)
    ensures Records(a + b, i) == Records(a, i) + Records(b, i)
  {
    if a == [] {
      assert a + b == b;
    } else {
      RecordsAppend(a[1..], b, i);
      assert (a + b)[1..] == a[1..] + b;
    }
  }

  /** What lines of one request weigh for itself and for others. */
  lemma {:induction false} LinesWeigh(i: nat, key: string, source: Source, entries: seq<Entry>, j: nat, other: Source)
    ensures Tokens(Lines(i, key, source, entries), j, other) ==
            if i == j && source == other then EntryTokens(entries) else 0
    ensures Records(Lines(i, key, source, entries), j) == if i == j && source == FromRecord then |entries| else 0
  {
    if entries != [] {
      LinesWeigh(i, key, source, entries[1..], j, other);
    }
  }

  function EntryTokens(entries: seq<Entry>): int {
    if entries == [] then 0 else entries[0].tokens + EntryTokens(entries[1..])
  }

  // ---- Conservation over every interleaving ----

  /** What a ticket's own reservation still has in the window. */
  function HeldBy(t: Ticket): int {
    if t.hold == Held then t.estimate else 0
  }

  predicate Balanced(p: Phase, reserved: int, recorded: int, records: nat, book: Book) {
    match p
    case Pending(_) => reserved == recorded == records == 0
    case Answered => reserved == recorded == records == 0
    case InFlight(_, t) => TicketOk(t, book) && reserved == HeldBy(t) && recorded == records == 0
    case Streaming(t, _) => TicketOk(t, book) && reserved == HeldBy(t) && recorded == records == 0
    case Finished(t, e) =>
      var delta := DeltaOf(e, t.estimate);
      && TicketOk(t, book) && reserved == HeldBy(t)
      && (if t.hold == Untracked || delta.None? then recorded == records == 0
          else recorded == delta.value && records == 1)
  }

  /** A ticket is untracked exactly when its key has no account. */
  predicate TicketOk(t: Ticket, book: Book) {
    t.hold == Untracked <==> t.key !in book
  }

  ghost predicate Conserves(w: World) {
    && BookSized(w.book)
    && forall i :: 0 <= i < |w.phases| ==> BalancedAt(w, i)
  }

  predicate BalancedAt(w: World, i: nat)
    requires i < |w.phases|
  {
    Balanced(w.phases[i], Tokens(w.log, i, FromReserve), Tokens(w.log, i, FromRecord), Records(w.log, i), w.book)
  }

  /** Adding one request's lines leaves every other request's account alone. */
  lemma OthersUntouched(w: World, w': World, i: nat, key: string, source: Source, entries: seq<Entry>)
    requires Conserves(w) && i < |w.phases| && w'.book.Keys == w.book.Keys
    requires w'.log == w.log + Lines(i, key, source, entries)
    requires |w'.phases| == |w.phases| && forall j :: 0 <= j < |w.phases| && j != i ==> w'.phases[j] == w.phases[j]
    ensures forall j :: 0 <= j < |w.phases| && j != i ==> BalancedAt(w', j)
    ensures Tokens(w'.log, i, FromReserve) ==
            Tokens(w.log, i, FromReserve) + if source == FromReserve then EntryTokens(entries) else 0
    ensures Tokens(w'.log, i, FromRecord) ==
            Tokens(w.log, i, FromRecord) + if source == FromRecord then EntryTokens(entries) else 0
    ensures Records(w'.log, i) == Records(w.log, i) + if source == FromRecord then |entries| else 0
  {
    var added := Lines(i, key, source, entries);
    forall j | 0 <= j < |w.phases|
      ensures Tokens(w'.log, j, FromReserve) == Tokens(w.log, j, FromReserve) + Tokens(added, j, FromReserve)
      ensures Tokens(w'.log, j, FromRecord) == Tokens(w.log, j, FromRecord) + Tokens(added, j, FromRecord)
      ensures Records(w'.log, j) == Records(w.log, j) + Records(added, j)
      ensures j != i ==> BalancedAt(w', j)
    {
      TokensAppend(w.log, added, j, FromReserve);
      TokensAppend(w.log, added, j, FromRecord);
      RecordsAppend(w.log, added, j);
      LinesWeigh(i, key, source, entries, j, FromReserve);
      LinesWeigh(i, key, source, entries, j, FromRecord);
      assert BalancedAt(w, j);
    }
    LinesWeigh(i, key, source, entries, i, FromReserve);
    LinesWeigh(i, key, source, entries, i, FromRecord);
  }

  lemma ReserveEntriesWeigh(a: Account, c: Clock, estimate: int)
    requires Sized(a)
    ensures EntryTokens(ReserveEntries(a, c, estimate)) == if Reserve(a, c, estimate).allowed then estimate else 0
  {
    var es := ReserveEntries(a, c, estimate);
    if !Reserve(a, c, estimate).allowed {
      assert es[1..] == [es[1]];
      assert EntryTokens([es[1]]) == es[1].tokens + EntryTokens([]);
    } else {
      assert es[1..] == [];
    }
  }

  lemma ArriveConserves(h: Settings, w: World, i: nat, req: Request, c: Clock)
    requires Conserves(w) && i < |w.phases| && w.phases[i] == Pending(req)
    ensures Conserves(OnArrive(h, w, i, req, c))
  {
    var w' := OnArrive(h, w, i, req, c);
    var (id, pol) := Identified(h, req);
    var key := AccountingKey(h, id);
    ServeKeepsAccounts(h, w.book, req, c);
    assert BalancedAt(w, i);
    if pol.Some? && Reserves(h, req, pol.value) && key in w.book {
      var entries := ReserveEntries(w.book[key], c, Estimate(req));
      ReserveEntriesWeigh(w.book[key], c, Estimate(req));
      OthersUntouched(w, w', i, key, FromReserve, entries);
    } else {
      OthersUntouched(w, w', i, key, FromReserve, []);
    }
    assert BalancedAt(w', i);
  }

  lemma FinishConserves(w: World, i: nat, t: Ticket, e: Ending, c: Clock)
    requires Conserves(w) && i < |w.phases|
    requires (w.phases[i].InFlight? || w.phases[i].Streaming?) && w.phases[i].ticket == t
    ensures Conserves(Finish(w, i, t, e, c))
  {
    var w' := Finish(w, i, t, e, c);
    var delta := DeltaOf(e, t.estimate);
    assert BalancedAt(w, i);
    if delta.None? || t.key !in w.book {
      OthersUntouched(w, w', i, t.key, FromRecord, []);
    } else {
      var entries := RecordEntries(w.book[t.key], c, delta.value);
      assert entries[1..] == [];
      OthersUntouched(w, w', i, t.key, FromRecord, entries);
    }
    assert BalancedAt(w', i);
  }

  lemma StepConserves(h: Settings, w: World, turn: Turn)
    requires Conserves(w)
    ensures Conserves(Step(h, w, turn))
  {
    if turn.request < |w.phases| {
      var i := turn.request;
      assert BalancedAt(w, i);
      match (w.phases[i], turn.what)
      case (Pending(req), Arrive(c)) => ArriveConserves(h, w, i, req, c);
      case (InFlight(req, t), Unreachable) => FinishConserves(w, i, t, Stands, Still(0));
      case (InFlight(req, t), Respond(status, body, c)) =>
        match React(h, req, status, body) {
          case Refund => FinishConserves(w, i, t, Refunded, c);
          case Reconcile(actual) => FinishConserves(w, i, t, Reconciled(actual), c);
          case LeaveStanding => FinishConserves(w, i, t, Stands, c);
          case Extract => SamePlace(w, i, Streaming(t, None));
        }
      case (Streaming(t, _), StreamUsage(total)) => SamePlace(w, i, Streaming(t, Some(total)));
      case (Streaming(t, usage), Close(c)) =>
        FinishConserves(w, i, t, if usage.Some? then Reconciled(usage.value) else Stands, c);
      case _ =>
    }
  }

  /** Moving between phases that owe the same leaves the books balanced. */
  lemma SamePlace(w: World, i: nat, p: Phase)
    requires Conserves(w) && i < |w.phases| && p.Streaming?
    requires (w.phases[i].InFlight? || w.phases[i].Streaming?) && p.ticket == w.phases[i].ticket
    ensures Conserves(At(w, i, p))
  {
    assert BalancedAt(w, i);
    var w' := At(w, i, p);
    forall j | 0 <= j < |w'.phases| ensures BalancedAt(w', j) {
      assert BalancedAt(w, j);
    }
  }

  function Run(h: Settings, w: World, turns: seq<Turn>): World
    requires Conserves(w)
    decreases turns
  {
    if turns == [] then w
    else
      StepConserves(h, w, turns[0]);
      Run(h, Step(h, w, turns[0]), turns[1..])
  }

  lemma {:induction false} RunConserves(h: Settings, w: World, turns: seq<Turn>)
    requires Conserves(w)
    ensures Conserves(Run(h, w, turns))
    decreases turns
  {
    if turns != [] {
      StepConserves(h, w, turns[0]);
      RunConserves(h, Step(h, w, turns[0]), turns[1..]);
    }
  }

  /** What an ended request should have left in the window: nothing after a server error, its
  actual usage when that is known, its reservation otherwise. */
  function Due(e: Ending, estimate: int): int {
    match e
    case Refunded => 0
    case Reconciled(actual) => actual
    case Stands => estimate
  }

  /** Settlement conservation, over every interleaving of any number of requests: a request makes
  at most one Record, none before its end and none when its reservation is left standing, and once
  it has ended its own additions sum to what is due exactly when it
  held its reservation (or asked for nothing). A request forwarded after a denied reservation is
  therefore booked short by its whole estimate. */
  lemma SettledOnce(h: Settings, w: World, turns: seq<Turn>, i: nat)
    requires Conserves(w) && i < |w.phases| && w.phases[i].Pending?
    ensures
      var r := Run(h, w, turns);
      && |r.phases| == |w.phases|
      && Records(r.log, i) <= 1
      && (Records(r.log, i) == 1 ==> r.phases[i].Finished?)
      && (r.phases[i].Finished? && r.phases[i].ticket.hold != Untracked ==>
            var t, own := r.phases[i].ticket, Tokens(r.log, i, FromReserve) + Tokens(r.log, i, FromRecord);
            && (Records(r.log, i) == 1 <==> r.phases[i].ending != Stands)
            && (own == Due(r.phases[i].ending, t.estimate) <==> t.hold == Held || t.estimate == 0)
            && (t.hold == Bounced ==> own == Due(r.phases[i].ending, t.estimate) - t.estimate))
  {
    RunConserves(h, w, turns);
    RunKeepsRequests(h, w, turns);
    assert BalancedAt(Run(h, w, turns), i);
  }

  /** Everything request i has put into the windows. */
  function Own(w: World, i: nat): int {
    Tokens(w.log, i, FromReserve) + Tokens(w.log, i, FromRecord)
  }

  /** Which endings are which, for a request that holds its reservation: a server error leaves
  nothing; a parsed plain body, or usage extracted by the time the stream closes, leaves the actual
  usage; an unreachable upstream, an unparsable body and a stream without usage leave the estimate.
  Exactly the first two make a Record. */
  lemma EndingsOfHeld(h: Settings, w: World, i: nat, what: Happening)
    requires Conserves(w) && i < |w.phases|
    requires (w.phases[i].InFlight? || w.phases[i].Streaming?) && w.phases[i].ticket.hold == Held
    ensures
      var w', e := Step(h, w, Turn(i, what)), w.phases[i].ticket.estimate;
      match (w.phases[i], what)
      case (InFlight(req, _), Respond(status, body, _)) =>
        var known := body.Plain? && body.usage.Some? && (req.provider == OpenAI || req.provider == Anthropic);
        && Own(w', i) == (if status >= 500 then 0 else if known then body.usage.value else e)
        && Records(w'.log, i) == if status >= 500 || known then 1 else 0
      case (Streaming(_, usage), Close(_)) =>
        && Own(w', i) == (if usage.Some? then usage.value else e)
        && Records(w'.log, i) == if usage.Some? then 1 else 0
      case _ => Own(w', i) == e && Records(w'.log, i) == 0
  {
    StepConserves(h, w, Turn(i, what));
    assert BalancedAt(w, i);
    assert BalancedAt(Step(h, w, Turn(i, what)), i);
  }

  lemma RunOne(h: Settings, w: World, turn: Turn)
    requires Conserves(w)
    ensures Run(h, w, [turn]) == Step(h, w, turn)
  {
    StepConserves(h, w, turn);
    assert [turn][1..] == [];
  }

  lemma {:induction false} RunAppend(h: Settings, w: World, a: seq<Turn>, b: seq<Turn>)
    requires Conserves(w)
    ensures Conserves(Run(h, w, a)) && Run(h, w, a + b) == Run(h, Run(h, w, a), b)
    decreases a
  {
    RunConserves(h, w, a);
    if a == [] {
      assert a + b == b;
    } else {
      StepConserves(h, w, a[0]);
      RunAppend(h, Step(h, w, a[0]), a[1..], b);
      assert (a + b)[1..] == a[1..] + b;
    }
  }

  lemma {:induction false} RunKeepsRequests(h: Settings, w: World, turns: seq<Turn>)
    requires Conserves(w)
    ensures |Run(h, w, turns).phases| == |w.phases|
    decreases turns
  {
    if turns != [] {
      StepConserves(h, w, turns[0]);
      RunKeepsRequests(h, Step(h, w, turns[0]), turns[1..]);
    }
  }

  // ---- The log is what the windows hold ----

  /** The additions made under one key, in order. */
  function Under(log: seq<Line>, key: string): seq<Entry> {
    if log == [] then []
    else (if log[0].key == key then [log[0].entry] else []) + Under(log[1..], key)
  }

  lemma {:induction false} UnderAppend(a: seq<Line>, b: seq<Line>, key: string)
    ensures Under(a + b, key) == Under(a, key) + Under(b, key)
  {
    if a == [] {
      assert a + b == b;
    } else {
      UnderAppend(a[1..], b, key);
      assert (a + b)[1..] == a[1..] + b;
      var head := if a[0].key == key then [a[0].entry] else [];
      assert head + (Under(a[1..], key) + Under(b, key)) == (head + Under(a[1..], key)) + Under(b, key);
    }
  }

  lemma {:induction false} UnderLines(i: nat, key: string, source: Source, entries: seq<Entry>, other: string)
    ensures Under(Lines(i, key, source, entries), other) == if key == other then entries else []
  {
    if entries != [] {
      UnderLines(i, key, source, entries[1..], other);
    }
  }

  ghost predicate WindowsHoldLog(book: Book, log: seq<Line>) {
    forall key :: key in book ==> HoldsLog(book[key].ring, Under(log, key))
  }

  /** One key's window took these additions; the other windows did not move. */
  lemma OneWindowMoved(book: Book, book': Book, log: seq<Line>, i: nat, key: string, source: Source, entries: seq<Entry>)
    requires WindowsHoldLog(book, log) && key in book && book'.Keys == book.Keys
    requires forall other :: other in book && other != key ==> book'[other] == book[other]
    requires HoldsLog(book'[key].ring, Under(log, key) + entries)
    ensures WindowsHoldLog(book', log + Lines(i, key, source, entries))
  {
    forall other | other in book'
      ensures HoldsLog(book'[other].ring, Under(log + Lines(i, key, source, entries), other))
    {
      UnderAppend(log, Lines(i, key, source, entries), other);
      UnderLines(i, key, source, entries, other);
      assert Under(log, other) + [] == Under(log, other);
    }
  }

  lemma ArriveHoldsLog(h: Settings, w: World, i: nat, req: Request, c: Clock)
    requires BookSized(w.book) && i < |w.phases| && WindowsHoldLog(w.book, w.log)
    ensures var w' := OnArrive(h, w, i, req, c); WindowsHoldLog(w'.book, w'.log)
  {
    var w' := OnArrive(h, w, i, req, c);
    var (id, pol) := Identified(h, req);
    var key := AccountingKey(h, id);
    if pol.Some? && Reserves(h, req, pol.value) && key in w.book {
      ReserveHoldsLog(w.book[key], c, Estimate(req), Under(w.log, key));
      OneWindowMoved(w.book, w'.book, w.log, i, key, FromReserve, ReserveEntries(w.book[key], c, Estimate(req)));
    } else {
      assert w'.log == w.log;
    }
  }

  lemma FinishHoldsLog(w: World, i: nat, t: Ticket, e: Ending, c: Clock)
    requires BookSized(w.book) && i < |w.phases| && WindowsHoldLog(w.book, w.log)
    ensures var w' := Finish(w, i, t, e, c); WindowsHoldLog(w'.book, w'.log)
  {
    var w' := Finish(w, i, t, e, c);
    var delta := DeltaOf(e, t.estimate);
    if delta.Some? && t.key in w.book {
      RecordHoldsLog(w.book[t.key], c, delta.value, Under(w.log, t.key));
      OneWindowMoved(w.book, w'.book, w.log, i, t.key, FromRecord, RecordEntries(w.book[t.key], c, delta.value));
    }
  }

  lemma StepHoldsLog(h: Settings, w: World, turn: Turn)
    requires BookSized(w.book) && WindowsHoldLog(w.book, w.log)
    ensures var w' := Step(h, w, turn); WindowsHoldLog(w'.book, w'.log)
  {
    if turn.request < |w.phases| {
      var i := turn.request;
      match (w.phases[i], turn.what)
      case (Pending(req), Arrive(c)) => ArriveHoldsLog(h, w, i, req, c);
      case (InFlight(req, t), Respond(status, body, c)) =>
        match React(h, req, status, body) {
          case Refund => FinishHoldsLog(w, i, t, Refunded, c);
          case Reconcile(actual) => FinishHoldsLog(w, i, t, Reconciled(actual), c);
          case LeaveStanding => FinishHoldsLog(w, i, t, Stands, c);
          case Extract =>
        }
      case (Streaming(t, usage), Close(c)) =>
        FinishHoldsLog(w, i, t, if usage.Some? then Reconciled(usage.value) else Stands, c);
      case _ =>
    }
  }

  /** Over every interleaving, every bucket of every window holds exactly the additions its key's
  requests made in that second: the log of SettledOnce is the budget state itself. */
  lemma {:induction false} WindowsAreTheLog(h: Settings, w: World, turns: seq<Turn>)
    requires Conserves(w) && WindowsHoldLog(w.book, w.log)
    ensures WindowsHoldLog(Run(h, w, turns).book, Run(h, w, turns).log)
    decreases turns
  {
    if turns != [] {
      StepConserves(h, w, turns[0]);
      StepHoldsLog(h, w, turns[0]);
      WindowsAreTheLog(h, Step(h, w, turns[0]), turns[1..]);
    }
  }

  /** The world after start-up: fresh windows, nothing logged, every request still to come. */
  ghost predicate Opening(w: World) {
    && w.log == []
    && (forall i :: 0 <= i < |w.phases| ==> w.phases[i].Pending?)
    && (forall key :: key in w.book ==>
          Sized(w.book[key]) && w.book[key].ring == Fresh(|w.book[key].ring.slots|, w.book[key].ring.headTime))
  }

  lemma OpeningIsBalanced(w: World)
    requires Opening(w)
    ensures Conserves(w) && WindowsHoldLog(w.book, w.log)
  {
    forall i | 0 <= i < |w.phases| ensures BalancedAt(w, i) {
      assert w.phases[i].Pending?;
    }
  }

  /** A held reservation need not be resolved: from start-up, every request that fits its budget and
  whose upstream then cannot be reached ends with its estimate standing and no Record made. */
  lemma UnreachableIsNeverResolved(h: Settings, w: World, i: nat, req: Request, now: int)
    requires Opening(w) && BookSound(w.book) && i < |w.phases| && w.phases[i] == Pending(req) && h.mode == Enforcement
    requires var (id, pol) := Identified(h, req);
             && pol.Some? && CheckPerRequestGuard(pol.value, Estimate(req)).None?
             && id in w.book && Estimate(req) <= w.book[id].limit + w.book[id].burst
    ensures Conserves(w)
    ensures
      var r, key := Run(h, w, [Turn(i, Arrive(Still(now))), Turn(i, Unreachable)]), Identified(h, req).0;
      && |r.phases| == |w.phases| && r.phases[i] == Finished(Ticket(key, Estimate(req), Held), Stands)
      && Records(r.log, i) == 0 && Own(r, i) == Estimate(req)
  {
    OpeningIsBalanced(w);
    var (id, pol) := Identified(h, req);
    var first, second := Turn(i, Arrive(Still(now))), Turn(i, Unreachable);
    FreshStaysIdle(w.book[id], now);
    BlockingRule(h, w.book, req, id, pol.value, now);
    var mid := Step(h, w, first);
    assert mid.phases[i] == InFlight(req, Ticket(id, Estimate(req), Held));
    StepConserves(h, w, first);
    EndingsOfHeld(h, mid, i, Unreachable);
    RunOne(h, w, first);
    RunOne(h, mid, second);
    RunAppend(h, w, [first], [second]);
    assert [first] + [second] == [first, second];
  }

  lemma FreshStaysIdle(a: Account, now: int)
    requires a.ring == Fresh(|a.ring.slots|, a.ring.headTime)
    ensures Poll(a, now).ring.total == 0
  {
    if now > a.ring.headTime {
      FreshStaysFresh(|a.ring.slots|, a.ring.headTime, now);
    }
  }
}
