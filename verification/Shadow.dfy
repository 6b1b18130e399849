/** A listener beside the enforcing proxy it stands in for: the same traffic, settled in both. */
module Shadow {
  import opened Options
  import opened Ring
  import opened Accounts
  import opened Enforce
  import opened Trackers
  import opened Proxy
  import opened Settlement

  /** The request is accounted for under the same registered key in both modes, and no guard stops it. */
  predicate Comparable(l: Settings, e: Settings, book: Book, req: Request) {
    && SameAccount(l, e, req)
    && var (id, pol) := Identified(e, req);
       pol.Some? ==> CheckPerRequestGuard(pol.value, Estimate(req)).None? && AccountingKey(e, id) in book
  }

  ghost predicate AllComparable(l: Settings, e: Settings, w: World) {
    && l.sseExtraction == e.sseExtraction
    && forall i :: 0 <= i < |w.phases| && w.phases[i].Pending? ==> Comparable(l, e, w.book, w.phases[i].req)
  }

  /** Every arrival's first shadow names the reason enforcement refuses it for, if it does. */
  ghost predicate Predicted(l: Settings, e: Settings, wl: World, we: World, turns: seq<Turn>)
    requires Conserves(wl) && Conserves(we)
    decreases turns
  {
    turns != [] ==>
      && (Arrives(wl, turns[0]) ==>
            var req, c := wl.phases[turns[0].request].req, turns[0].what.clock;
            FirstReason(Serve(l, wl.book, req, c)) == RefusalOf(Serve(e, we.book, req, c)))
      && (StepConserves(l, wl, turns[0]);
          StepConserves(e, we, turns[0]);
          Predicted(l, e, Step(l, wl, turns[0]), Step(e, we, turns[0]), turns[1..]))
  }

  predicate Arrives(w: World, turn: Turn) {
    turn.request < |w.phases| && w.phases[turn.request].Pending? && turn.what.Arrive?
  }

  /** The request ended in a settlement: not with its reservation, or nothing, left standing. */
  predicate Settled(p: Phase) {
    p.Finished? && p.ending != Stands && p.ticket.hold != Untracked
  }

  /** No request that enforcement answered itself has been settled by the listener. */
  ghost predicate NoneSettled(wl: World, we: World) {
    forall i :: 0 <= i < |we.phases| && we.phases[i].Answered? && i < |wl.phases| ==> !Settled(wl.phases[i])
  }

  /** The same, by the listener's log. */
  ghost predicate NoneRecorded(wl: World, we: World) {
    forall i :: 0 <= i < |we.phases| && we.phases[i].Answered? ==> Records(wl.log, i) == 0
  }

  /** The same budgets and additions; a request is in the same phase, or enforcement has answered it. */
  ghost predicate Alike(wl: World, we: World) {
    && wl.book == we.book && wl.log == we.log && |wl.phases| == |we.phases|
    && forall i :: 0 <= i < |wl.phases| ==> AlikeAt(wl.phases[i], we.phases[i])
  }

  predicate AlikeAt(pl: Phase, pe: Phase) {
    pl == pe || (pe.Answered? && !pl.Pending?)
  }

  lemma SettledIsRecorded(wl: World, we: World)
    requires Conserves(wl) && |wl.phases| == |we.phases|
    ensures NoneSettled(wl, we) <==> NoneRecorded(wl, we)
  {
    forall i | 0 <= i < |wl.phases| ensures Settled(wl.phases[i]) <==> Records(wl.log, i) != 0 {
      assert BalancedAt(wl, i);
    }
  }

  // ---- One turn ----

  lemma FinishMoves(w: World, i: nat, j: nat, t: Ticket, ending: Ending, c: Clock)
    requires BookSized(w.book) && i < |w.phases|
    ensures
      var w' := Finish(w, i, t, ending, c);
      && w'.book.Keys == w.book.Keys && Records(w'.log, j) >= Records(w.log, j)
      && ((w'.log == w.log && w'.book == w.book) || Records(w'.log, i) == Records(w.log, i) + 1)
  {
    var delta := DeltaOf(ending, t.estimate);
    if delta.Some? && t.key in w.book {
      var entries := RecordEntries(w.book[t.key], c, delta.value);
      RecordsAppend(w.log, Lines(i, t.key, FromRecord, entries), i);
      RecordsAppend(w.log, Lines(i, t.key, FromRecord, entries), j);
      LinesWeigh(i, t.key, FromRecord, entries, i, FromRecord);
    }
  }

  /** After its arrival, a request moves the budgets by nothing or by a Record of its own. */
  lemma LaterTurn(h: Settings, w: World, turn: Turn, j: nat)
    requires BookSized(w.book) && turn.request < |w.phases| && !w.phases[turn.request].Pending?
    ensures
      var w', i := Step(h, w, turn), turn.request;
      && w'.phases == w.phases[i := w'.phases[i]] && !w'.phases[i].Pending?
      && w'.book.Keys == w.book.Keys && Records(w'.log, j) >= Records(w.log, j)
      && ((w'.log == w.log && w'.book == w.book) || Records(w'.log, i) == Records(w.log, i) + 1)
  {
    var i := turn.request;
    assert w.phases == w.phases[i := w.phases[i]];
    match (w.phases[i], turn.what)
    case (InFlight(req, t), Respond(status, body, c)) =>
      var r := React(h, req, status, body);
      if r.Refund? || r.Reconcile? {
        FinishMoves(w, i, j, t, if r.Refund? then Refunded else Reconciled(r.actual), c);
      }
    case (Streaming(t, usage), Close(c)) =>
      FinishMoves(w, i, j, t, if usage.Some? then Reconciled(usage.value) else Stands, c);
    case _ =>
  }

  lemma ArrivalTurn(l: Settings, e: Settings, wl: World, we: World, turn: Turn)
    requires Alike(wl, we) && BookSized(wl.book) && AllComparable(l, e, wl) && Arrives(wl, turn)
    ensures Alike(Step(l, wl, turn), Step(e, we, turn))
    ensures
      var req, c := wl.phases[turn.request].req, turn.what.clock;
      FirstReason(Serve(l, wl.book, req, c)) == RefusalOf(Serve(e, we.book, req, c))
  {
    var i := turn.request;
    var req, c := wl.phases[i].req, turn.what.clock;
    assert AlikeAt(wl.phases[i], we.phases[i]);
    assert Comparable(l, e, wl.book, req);
    ShadowFidelity(l, e, wl.book, req, c);
    SamePhaseKept(wl, we, Step(l, wl, turn), Step(e, we, turn), i);
  }

  lemma SamePhaseKept(wl: World, we: World, wl': World, we': World, i: nat)
    requires Alike(wl, we) && i < |wl.phases| && |wl'.phases| == |we'.phases| == |wl.phases|
    requires wl'.phases == wl.phases[i := wl'.phases[i]] && we'.phases == we.phases[i := we'.phases[i]]
    requires wl'.book == we'.book && wl'.log == we'.log && AlikeAt(wl'.phases[i], we'.phases[i])
    ensures Alike(wl', we')
  {
    forall j | 0 <= j < |wl.phases| ensures AlikeAt(wl'.phases[j], we'.phases[j]) {
      assert AlikeAt(wl.phases[j], we.phases[j]);
    }
  }

  /** What happens after the arrival does not depend on the mode. */
  lemma SameLater(l: Settings, e: Settings, w: World, w2: World, turn: Turn)
    requires l.sseExtraction == e.sseExtraction && BookSized(w.book) && w2.book == w.book && w2.log == w.log
    requires turn.request < |w.phases| == |w2.phases| && w2.phases[turn.request] == w.phases[turn.request]
    requires !Arrives(w, turn)
    ensures
      var a, b := Step(l, w, turn), Step(e, w2, turn);
      && a.book == b.book && a.log == b.log && a.phases[turn.request] == b.phases[turn.request]
      && a.phases == w.phases[turn.request := a.phases[turn.request]]
      && b.phases == w2.phases[turn.request := b.phases[turn.request]]
  {
    var i := turn.request;
    assert w.phases == w.phases[i := w.phases[i]];
    assert w2.phases == w2.phases[i := w2.phases[i]];
    match (w.phases[i], turn.what)
    case (InFlight(req, t), Respond(status, body, c)) =>
      var r := React(l, req, status, body);
      assert r == React(e, req, status, body);
      if r.Refund? || r.Reconcile? {
        SameFinish(w, w2, i, t, if r.Refund? then Refunded else Reconciled(r.actual), c);
      }
    case (Streaming(t, usage), Close(c)) =>
      SameFinish(w, w2, i, t, if usage.Some? then Reconciled(usage.value) else Stands, c);
    case _ =>
  }

  lemma SameFinish(w: World, w2: World, i: nat, t: Ticket, ending: Ending, c: Clock)
    requires BookSized(w.book) && w2.book == w.book && w2.log == w.log && i < |w.phases| == |w2.phases|
    ensures
      var a, b := Finish(w, i, t, ending, c), Finish(w2, i, t, ending, c);
      && a.book == b.book && a.log == b.log
      && a.phases == w.phases[i := Finished(t, ending)] && b.phases == w2.phases[i := Finished(t, ending)]
  {
  }

  lemma StepAlike(l: Settings, e: Settings, wl: World, we: World, turn: Turn)
    requires Conserves(wl) && Conserves(we) && Alike(wl, we) && AllComparable(l, e, wl)
    requires NoneRecorded(wl, we) && NoneRecorded(Step(l, wl, turn), Step(e, we, turn))
    ensures Alike(Step(l, wl, turn), Step(e, we, turn))
    ensures Arrives(wl, turn) ==>
              var req, c := wl.phases[turn.request].req, turn.what.clock;
              FirstReason(Serve(l, wl.book, req, c)) == RefusalOf(Serve(e, we.book, req, c))
  {
    if Arrives(wl, turn) {
      ArrivalTurn(l, e, wl, we, turn);
    } else if turn.request < |wl.phases| {
      var i := turn.request;
      assert AlikeAt(wl.phases[i], we.phases[i]);
      if wl.phases[i] == we.phases[i] {
        SameLater(l, e, wl, we, turn);
      } else {
        LaterTurn(l, wl, turn, i);
        assert Step(e, we, turn) == we;
        assert Records(wl.log, i) == 0 && Records(Step(l, wl, turn).log, i) == 0;
        assert we.phases == we.phases[i := we.phases[i]];
      }
      SamePhaseKept(wl, we, Step(l, wl, turn), Step(e, we, turn), i);
    }
  }

  // ---- What a run keeps ----

  lemma StepKeeps(h: Settings, w: World, turn: Turn, i: nat)
    requires BookSized(w.book) && i < |w.phases|
    ensures
      var w' := Step(h, w, turn);
      && |w'.phases| == |w.phases| && w'.book.Keys == w.book.Keys
      && (w'.phases[i].Pending? ==> w'.phases[i] == w.phases[i])
      && (w.phases[i].Answered? ==> w'.phases[i].Answered?)
      && Records(w'.log, i) >= Records(w.log, i)
  {
    if Arrives(w, turn) {
      var req, c := w.phases[turn.request].req, turn.what.clock;
      ServeKeepsAccounts(h, w.book, req, c);
      RecordsAppend(w.log, ArrivalLines(h, w, turn.request, req, c), i);
    } else if turn.request < |w.phases| && !w.phases[turn.request].Pending? {
      LaterTurn(h, w, turn, i);
    }
  }

  lemma StepKeepsComparable(l: Settings, e: Settings, h: Settings, w: World, turn: Turn)
    requires BookSized(w.book) && AllComparable(l, e, w)
    ensures AllComparable(l, e, Step(h, w, turn))
  {
    var w' := Step(h, w, turn);
    forall i | 0 <= i < |w'.phases| && w'.phases[i].Pending? ensures Comparable(l, e, w'.book, w'.phases[i].req) {
      StepKeeps(h, w, turn, i);
    }
  }

  /** What the listener has recorded stays recorded, and what enforcement has answered stays answered. */
  lemma {:induction false} RunKeeps(h: Settings, w: World, turns: seq<Turn>, i: nat)
    requires Conserves(w) && i < |w.phases|
    ensures
      var r := Run(h, w, turns);
      && |r.phases| == |w.phases|
      && (w.phases[i].Answered? ==> r.phases[i].Answered?)
      && Records(r.log, i) >= Records(w.log, i)
    decreases turns
  {
    if turns != [] {
      StepConserves(h, w, turns[0]);
      StepKeeps(h, w, turns[0], i);
      RunKeeps(h, Step(h, w, turns[0]), turns[1..], i);
    }
  }

  lemma NoneRecordedBefore(l: Settings, e: Settings, wl: World, we: World, turns: seq<Turn>)
    requires Conserves(wl) && Conserves(we) && |wl.phases| == |we.phases|
    requires NoneRecorded(Run(l, wl, turns), Run(e, we, turns))
    ensures NoneRecorded(wl, we)
  {
    forall i | 0 <= i < |we.phases| && we.phases[i].Answered? ensures Records(wl.log, i) == 0 {
      RunKeeps(e, we, turns, i);
      RunKeeps(l, wl, turns, i);
    }
  }

  lemma {:induction false} RunAlike(l: Settings, e: Settings, wl: World, we: World, turns: seq<Turn>)
    requires Conserves(wl) && Conserves(we) && Alike(wl, we) && AllComparable(l, e, wl)
    requires NoneRecorded(Run(l, wl, turns), Run(e, we, turns))
    ensures Alike(Run(l, wl, turns), Run(e, we, turns)) && Predicted(l, e, wl, we, turns)
    decreases turns
  {
    if turns != [] {
      var wl', we' := Step(l, wl, turns[0]), Step(e, we, turns[0]);
      StepConserves(l, wl, turns[0]);
      StepConserves(e, we, turns[0]);
      NoneRecordedBefore(l, e, wl, we, turns);
      RunKeepsRequests(l, wl, [turns[0]]);
      RunKeepsRequests(e, we, [turns[0]]);
      RunOne(l, wl, turns[0]);
      RunOne(e, we, turns[0]);
      NoneRecordedBefore(l, e, wl', we', turns[1..]);
      StepAlike(l, e, wl, we, turns[0]);
      StepKeepsComparable(l, e, l, wl, turns[0]);
      RunAlike(l, e, wl', we', turns[1..]);
    }
  }

  /** Shadow fidelity over whole runs, settlement included. The same traffic through a listener and
  through enforcement makes the same additions to the same windows if and only if no request that
  enforcement answered itself was settled by the listener; and then the budgets are the same and
  every request's first shadow named the reason enforcement refused it for, if it did. */
  lemma ShadowRun(l: Settings, e: Settings, w: World, turns: seq<Turn>)
    requires Conserves(w) && AllComparable(l, e, w)
    ensures
      var rl, re := Run(l, w, turns), Run(e, w, turns);
      && (rl.log == re.log <==> NoneSettled(rl, re))
      && (NoneSettled(rl, re) ==> rl.book == re.book && Predicted(l, e, w, w, turns))
  {
    var rl, re := Run(l, w, turns), Run(e, w, turns);
    RunConserves(l, w, turns);
    RunKeepsRequests(l, w, turns);
    RunKeepsRequests(e, w, turns);
    SettledIsRecorded(rl, re);
    if NoneRecorded(rl, re) {
      RunAlike(l, e, w, w, turns);
    }
    if rl.log == re.log {
      RunConserves(e, w, turns);
      forall i | 0 <= i < |re.phases| && re.phases[i].Answered? ensures Records(rl.log, i) == 0 {
        assert BalancedAt(re, i);
      }
    }
  }

  // ---- Where they part ----

  /** Settling a request that enforcement refused moves the budget exactly when the delta is not zero. */
  lemma SettlingParts(a: Account, now: int, delta: int)
    requires Sized(a) && now <= a.ring.headTime && a.ring.total > a.limit >= 0
    ensures Record(a, Still(now), delta) == a <==> delta == 0
  {
    assert a.ring.slots[0 := a.ring.slots[0]] == a.ring.slots;
    assert a.ring.slots[0 := a.ring.slots[0] + delta][0] == a.ring.slots[0] + delta;
  }

  /** A window of one bucket under a limit of ten, without burst. */
  function OneBucket(used: int): Account {
    Account(10, 0, Ring([used], 0, used), 0)
  }

  lemma OneBucketMoves(used: nat, tokens: int)
    requires used + tokens >= 0
    ensures Poll(OneBucket(used), 0) == OneBucket(used)
    ensures Record(OneBucket(used), Still(0), tokens) == OneBucket(used + tokens)
  {
    assert Ring([used], 0, used).slots[0 := used + tokens] == [used + tokens];
  }

  predicate Spends(e: Settings, key: string, req: Request, estimate: int) {
    && Estimate(req) == estimate
    && var (id, pol) := Identified(e, req);
       pol.Some? && CheckPerRequestGuard(pol.value, estimate).None? && AccountingKey(e, id) == key
  }

  /** With eleven in the window, enforcement refuses a request of five; the listener forwards it. */
  lemma RefusedButForwarded(l: Settings, e: Settings, book: Book, key: string, req: Request)
    requires BookSound(book) && key in book && book[key] == OneBucket(11)
    requires SameAccount(l, e, req) && Spends(e, key, req, 5)
    ensures
      var sl, se := Serve(l, book, req, Still(0)), Serve(e, book, req, Still(0));
      && se.outcome.Refused? && se.book == book
      && sl.outcome == Forward(Ticket(key, 5, Bounced)) && sl.book == book
  {
    var (id, pol) := Identified(e, req);
    OneBucketMoves(11, 0);
    BlockingRule(e, book, req, id, pol.value, 0);
    DenialIsNoOp(book[key], 0, 5);
    ShadowFidelity(l, e, book, req, Still(0));
    assert book[key := book[key]] == book;
  }

  /** The first two happenings of a request: it arrives, and its upstream answers 200 with a usage of one. */
  function AnsweredWithOne(): seq<Turn> {
    [Turn(0, Arrive(Still(0))), Turn(0, Respond(200, Plain(Some(1)), Still(0)))]
  }

  lemma RunTwo(h: Settings, w: World, a: Turn, b: Turn)
    requires Conserves(w)
    ensures Conserves(Step(h, w, a)) && Run(h, w, [a, b]) == Step(h, Step(h, w, a), b)
  {
    StepConserves(h, w, a);
    RunOne(h, w, a);
    RunOne(h, Step(h, w, a), b);
    RunAppend(h, w, [a], [b]);
    assert [a] + [b] == [a, b];
  }

  lemma FirstSettled(l: Settings, e: Settings, w: World, key: string, first: Request)
    requires Conserves(w) && |w.phases| >= 1 && w.phases[0] == Pending(first)
    requires BookSound(w.book) && key in w.book && w.book[key] == OneBucket(11)
    requires SameAccount(l, e, first) && Spends(e, key, first, 5) && Parses(first.provider)
    ensures Run(l, w, AnsweredWithOne()).book == w.book[key := OneBucket(7)]
    ensures Run(e, w, AnsweredWithOne()).book == w.book
  {
    var turns := AnsweredWithOne();
    RefusedButForwarded(l, e, w.book, key, first);
    RunTwo(l, w, turns[0], turns[1]);
    RunTwo(e, w, turns[0], turns[1]);
    OneBucketMoves(11, -4);
  }

  /** The condition of ShadowRun is needed: the refused request of five, settled in the listener with
  a usage of one, leaves it at seven where enforcement stands at eleven; the next request of two is
  then predicted to pass, and refused. */
  lemma SettledRefusalParts(l: Settings, e: Settings, book: Book, key: string, first: Request, second: Request)
    requires BookSound(book) && key in book && book[key] == OneBucket(11)
    requires SameAccount(l, e, first) && Spends(e, key, first, 5) && Parses(first.provider)
    requires SameAccount(l, e, second) && Spends(e, key, second, 2)
    ensures
      var w := World(book, [Pending(first), Pending(second)], []);
      && Conserves(w)
      && var rl, re := Run(l, w, AnsweredWithOne()), Run(e, w, AnsweredWithOne());
         && BookSized(rl.book) && BookSized(re.book)
         && rl.book == book[key := OneBucket(7)] && re.book == book
         && FirstReason(Serve(l, rl.book, second, Still(0))) == None
         && RefusalOf(Serve(e, re.book, second, Still(0))) != None
  {
    var w := World(book, [Pending(first), Pending(second)], []);
    assert BalancedAt(w, 0) && BalancedAt(w, 1);
    FirstSettled(l, e, w, key, first);
    NextPredictedAndRefused(l, e, book, key, second);
  }

  /** So the run with the second request's arrival is not predicted throughout. */
  lemma PartedIsMispredicted(l: Settings, e: Settings, book: Book, key: string, first: Request, second: Request)
    requires BookSound(book) && key in book && book[key] == OneBucket(11)
    requires SameAccount(l, e, first) && Spends(e, key, first, 5) && Parses(first.provider)
    requires SameAccount(l, e, second) && Spends(e, key, second, 2)
    ensures
      var w := World(book, [Pending(first), Pending(second)], []);
      Conserves(w) && !Predicted(l, e, w, w, AnsweredWithOne() + [Turn(1, Arrive(Still(0)))])
  {
    var w := World(book, [Pending(first), Pending(second)], []);
    SettledRefusalParts(l, e, book, key, first, second);
    SecondStillPending(l, w, AnsweredWithOne());
    if Predicted(l, e, w, w, AnsweredWithOne() + [Turn(1, Arrive(Still(0)))]) {
      PredictedAtTheEnd(l, e, w, AnsweredWithOne(), Turn(1, Arrive(Still(0))));
    }
  }

  lemma {:induction false} SecondStillPending(h: Settings, w: World, turns: seq<Turn>)
    requires Conserves(w) && |w.phases| == 2 && forall k :: 0 <= k < |turns| ==> turns[k].request == 0
    ensures var r := Run(h, w, turns); |r.phases| == 2 && r.phases[1] == w.phases[1]
    decreases turns
  {
    if turns != [] {
      StepConserves(h, w, turns[0]);
      SecondStillPending(h, Step(h, w, turns[0]), turns[1..]);
    }
  }

  lemma PredictedAtTheEnd(l: Settings, e: Settings, w: World, turns: seq<Turn>, last: Turn)
    requires Conserves(w) && Predicted(l, e, w, w, turns + [last])
    ensures
      var rl, re := Run(l, w, turns), Run(e, w, turns);
      && BookSized(rl.book) && BookSized(re.book)
      && (Arrives(rl, last) ==>
            var req, c := rl.phases[last.request].req, last.what.clock;
            FirstReason(Serve(l, rl.book, req, c)) == RefusalOf(Serve(e, re.book, req, c)))
  {
    PredictedLater(l, e, w, w, turns, last);
  }

  lemma {:induction false} PredictedLater(l: Settings, e: Settings, wl: World, we: World, turns: seq<Turn>, last: Turn)
    requires Conserves(wl) && Conserves(we) && Predicted(l, e, wl, we, turns + [last])
    ensures
      var rl, re := Run(l, wl, turns), Run(e, we, turns);
      && BookSized(rl.book) && BookSized(re.book)
      && (Arrives(rl, last) ==>
            var req, c := rl.phases[last.request].req, last.what.clock;
            FirstReason(Serve(l, rl.book, req, c)) == RefusalOf(Serve(e, re.book, req, c)))
    decreases turns
  {
    if turns == [] {
      assert ([] + [last])[0] == last;
    } else {
      StepConserves(l, wl, turns[0]);
      StepConserves(e, we, turns[0]);
      assert (turns + [last])[1..] == turns[1..] + [last];
      PredictedLater(l, e, Step(l, wl, turns[0]), Step(e, we, turns[0]), turns[1..], last);
    }
  }

  lemma NextPredictedAndRefused(l: Settings, e: Settings, book: Book, key: string, req: Request)
    requires BookSound(book) && key in book && book[key] == OneBucket(11)
    requires SameAccount(l, e, req) && Spends(e, key, req, 2)
    ensures BookSound(book[key := OneBucket(7)])
    ensures FirstReason(Serve(l, book[key := OneBucket(7)], req, Still(0))) == None
    ensures RefusalOf(Serve(e, book, req, Still(0))) != None
  {
    var (id, pol) := Identified(e, req);
    var parted := book[key := OneBucket(7)];
    OneBucketMoves(7, 0);
    OneBucketMoves(11, 0);
    BlockingRule(e, book, req, id, pol.value, 0);
    BlockingRule(e, parted, req, id, pol.value, 0);
    ShadowFidelity(l, e, parted, req, Still(0));
  }
}
