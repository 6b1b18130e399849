/** What every interleaving of Reserve and Record keeps while the clock moves, either way, between
any two steps. */
module MovingClock {
  import opened Options
  import opened Sums
  import opened Ring
  import opened AccountRuns
  import I = Interleaving
  import opened BurstCounter
  import opened Admission

  // ---- The steps are window calls ----

  /** The window call a turn makes, if it makes one. */
  function CallOf(s: I.Shared, turn: I.Turn): Option<Call> {
    if turn.thread >= |s.threads| then None else
    var t, now := s.threads[turn.thread], turn.now;
    match t.pc
    case Start => Some(Add(now, t.estimate))
    case Undoing => Some(Add(now, -t.estimate))
    case Admitted(_) => if t.delta.Some? then Some(Add(now, t.delta.value)) else None
    case Counted => Some(Total(now))
    case Undone => Some(Total(now))
    case Recorded(_) => Some(Total(now))
    case _ => None
  }

  function Calls(s: I.Shared, turns: seq<I.Turn>): seq<Call>
    requires I.Usable(s)
    decreases turns
  {
    if turns == [] then []
    else
      var call := CallOf(s, turns[0]);
      (if call.Some? then [call.value] else []) + Calls(I.Step(s, turns[0]), turns[1..])
  }

  /** The tokens thread i's own calls add. */
  function AddedBy(s: I.Shared, turns: seq<I.Turn>, i: nat): int
    requires I.Usable(s)
    decreases turns
  {
    if turns == [] then 0
    else
      var call := CallOf(s, turns[0]);
      (if turns[0].thread == i && call.Some? && call.value.Add? then call.value.tokens else 0) +
      AddedBy(I.Step(s, turns[0]), turns[1..], i)
  }

  lemma StepIsCall(s: I.Shared, turn: I.Turn)
    requires I.Usable(s)
    ensures
      var call := CallOf(s, turn);
      && I.Step(s, turn).ring == (if call.Some? then RingStep(s.ring, call.value) else s.ring)
      && (turn.thread < |s.threads| ==>
            Moved(s.threads[turn.thread]) == if call.Some? && call.value.Add? then call.value.tokens else 0)
  {
  }

  lemma {:induction false} RunIsCalls(s: I.Shared, turns: seq<I.Turn>)
    requires I.Usable(s)
    ensures I.Run(s, turns).ring == RunRing(s.ring, Calls(s, turns))
    decreases turns
  {
    if turns != [] {
      StepIsCall(s, turns[0]);
      RunIsCalls(I.Step(s, turns[0]), turns[1..]);
      var call := CallOf(s, turns[0]);
      if call.Some? {
        assert Calls(s, turns)[1..] == Calls(I.Step(s, turns[0]), turns[1..]);
      } else {
        assert Calls(s, turns) == Calls(I.Step(s, turns[0]), turns[1..]);
      }
    }
  }

  lemma {:induction false} AddsWhatItHolds(s: I.Shared, turns: seq<I.Turn>, i: nat)
    requires I.Usable(s) && i < |s.threads|
    ensures AddedBy(s, turns, i) == I.Holding(I.Run(s, turns).threads[i]) - I.Holding(s.threads[i])
    decreases turns
  {
    if turns != [] {
      StepIsCall(s, turns[0]);
      if turns[0].thread == i {
        StepMovesHolding(s, turns[0]);
      } else if turns[0].thread < |s.threads| {
        I.StepMeasure(s, turns[0], I.Held);
      }
      AddsWhatItHolds(I.Step(s, turns[0]), turns[1..], i);
    }
  }

  /** Step-level refinement: under every interleaving and whatever the clock does between steps, each
  bucket is the sum of the additions the threads made in that second, the total is their naive
  N-second sum plus a drift that is never negative, and what a thread has added in all is what it
  holds: nothing once denied, its estimate once admitted, plus its delta once recorded. */
  lemma StepsRefineLog(s: I.Shared, l: Ledger, turns: seq<I.Turn>)
    requires I.Initial(s) && Refines(s.ring, l)
    ensures
      var r := I.Run(s, turns);
      && Refines(r.ring, RunLedger(l, |s.ring.slots|, Calls(s, turns)))
      && forall i :: 0 <= i < |s.threads| ==> AddedBy(s, turns, i) == I.Holding(r.threads[i])
  {
    RunIsCalls(s, turns);
    RunRefines(s.ring, l, Calls(s, turns));
    forall i | 0 <= i < |s.threads| ensures AddedBy(s, turns, i) == I.Holding(I.Run(s, turns).threads[i]) {
      AddsWhatItHolds(s, turns, i);
    }
  }

  // ---- How far the total can overshoot ----

  /** Negative bucket mass a turn's eviction drops. */
  function ForgottenAt(s: I.Shared, turn: I.Turn): nat {
    if CallOf(s, turn).Some? then Forgotten(s.ring, turn.now) else 0
  }

  function ForgottenOver(s: I.Shared, turns: seq<I.Turn>): nat
    requires I.Usable(s)
    decreases turns
  {
    if turns == [] then 0 else ForgottenAt(s, turns[0]) + ForgottenOver(I.Step(s, turns[0]), turns[1..])
  }

  predicate NoNegativeEstimate(ts: seq<I.Thread>) {
    forall i :: 0 <= i < |ts| ==> ts[i].estimate >= 0
  }

  /** What thread i read covers the total, but for what was added or forgotten since. */
  predicate ReadBounds(s: I.Shared, i: nat, forgotten: nat)
    requires i < |s.threads|
  {
    var pc := s.threads[i].pc;
    I.HasRead(pc) ==>
      && I.ReadAt(pc) < s.looks && I.ReadSeen(pc) >= 0
      && s.ring.total <= I.ReadSeen(pc) + I.Measure(s.threads, I.NewerThan(I.ReadAt(pc))) +
                         I.Measure(s.threads, I.Overrun) + forgotten
  }

  predicate Bounded(s: I.Shared, start: nat, forgotten: nat) {
    && I.Usable(s) && NoNegativeEstimate(s.threads)
    && s.ring.total <= start + I.Measure(s.threads, I.Reserved) + I.Measure(s.threads, I.Overrun) + forgotten
    && forall i :: 0 <= i < |s.threads| ==> ReadBounds(s, i, forgotten)
  }

  lemma StepRaisesTotal(s: I.Shared, turn: I.Turn)
    requires I.Usable(s) && turn.thread < |s.threads|
    ensures I.Step(s, turn).ring.total <=
            Max(0, Max(0, s.ring.total + ForgottenAt(s, turn)) + Moved(s.threads[turn.thread]))
  {
    StepIsCall(s, turn);
    AdvanceRaisesByForgotten(s.ring, turn.now);
  }

  predicate Estimates(m: I.Meter, looks: nat) {
    m.Reserved? || (m.NewerThan? && m.at < looks)
  }

  lemma StepIsWeighed(s: I.Shared, turn: I.Turn, m: I.Meter)
    requires I.Usable(s) && turn.thread < |s.threads| && Estimates(m, s.looks) && s.threads[turn.thread].estimate >= 0
    ensures
      var t, t' := s.threads[turn.thread], I.Step(s, turn).threads[turn.thread];
      I.Weigh(t', m) - I.Weigh(t, m) + I.Weigh(t', I.Overrun) - I.Weigh(t, I.Overrun) >= Moved(t)
  {
  }

  lemma CountedIsNonNegative(ts: seq<I.Thread>, m: I.Meter)
    requires NoNegativeEstimate(ts) && (m.Reserved? || m.NewerThan?)
    ensures I.Measure(ts, m) >= 0 && I.Measure(ts, I.Overrun) >= 0
  {
    I.MeasureNonNegative(ts, m);
    I.MeasureNonNegative(ts, I.Overrun);
  }

  /** What a step adds to the window shows in the estimates counted, or as an overrun. */
  lemma StepIsCounted(s: I.Shared, turn: I.Turn, m: I.Meter)
    requires I.Usable(s) && turn.thread < |s.threads| && Estimates(m, s.looks) && NoNegativeEstimate(s.threads)
    ensures
      var s' := I.Step(s, turn);
      && I.Measure(s'.threads, m) - I.Measure(s.threads, m) + I.Measure(s'.threads, I.Overrun) -
         I.Measure(s.threads, I.Overrun) >= Moved(s.threads[turn.thread])
      && I.Measure(s'.threads, m) >= 0 && I.Measure(s'.threads, I.Overrun) >= 0
  {
    I.StepMeasure(s, turn, m);
    I.StepMeasure(s, turn, I.Overrun);
    StepIsWeighed(s, turn, m);
    StepMovesHolding(s, turn);
    CountedIsNonNegative(I.Step(s, turn).threads, m);
  }

  /** A bound that counts the estimates of `m` goes with the step. */
  lemma BoundMoves(s: I.Shared, turn: I.Turn, m: I.Meter, base: nat, forgotten: nat)
    requires I.Usable(s) && turn.thread < |s.threads| && Estimates(m, s.looks) && NoNegativeEstimate(s.threads)
    requires s.ring.total <= base + I.Measure(s.threads, m) + I.Measure(s.threads, I.Overrun) + forgotten
    ensures
      var s' := I.Step(s, turn);
      s'.ring.total <= base + I.Measure(s'.threads, m) + I.Measure(s'.threads, I.Overrun) + forgotten + ForgottenAt(s, turn)
  {
    StepRaisesTotal(s, turn);
    StepIsCounted(s, turn, m);
    CountedIsNonNegative(s.threads, m);
  }

  lemma StepReadBounds(s: I.Shared, turn: I.Turn, i: nat, forgotten: nat)
    requires I.Usable(s) && turn.thread < |s.threads| && NoNegativeEstimate(s.threads)
    requires i < |s.threads| && ReadBounds(s, i, forgotten)
    ensures ReadBounds(I.Step(s, turn), i, forgotten + ForgottenAt(s, turn))
  {
    if i == turn.thread && s.threads[i].pc.Counted? {
      FreshReadBounds(s, turn, forgotten + ForgottenAt(s, turn));
    } else if I.HasRead(I.Step(s, turn).threads[i].pc) {
      ReadIsKept(s, turn, i);
      BoundMoves(s, turn, I.NewerThan(I.ReadAt(s.threads[i].pc)), I.ReadSeen(s.threads[i].pc), forgotten);
    }
  }

  lemma FreshReadBounds(s: I.Shared, turn: I.Turn, forgotten: nat)
    requires I.Usable(s) && turn.thread < |s.threads| && s.threads[turn.thread].pc.Counted?
    requires NoNegativeEstimate(s.threads)
    ensures ReadBounds(I.Step(s, turn), turn.thread, forgotten)
  {
    var s' := I.Step(s, turn);
    I.StepMeasure(s, turn, I.Overrun);
    CountedIsNonNegative(s'.threads, I.NewerThan(s.looks));
  }

  lemma StepBounded(s: I.Shared, turn: I.Turn, start: nat, forgotten: nat)
    requires Bounded(s, start, forgotten)
    ensures Bounded(I.Step(s, turn), start, forgotten + ForgottenAt(s, turn))
  {
    if turn.thread < |s.threads| {
      var s', after := I.Step(s, turn), forgotten + ForgottenAt(s, turn);
      I.StepMeasure(s, turn, I.Reserved);
      StepMovesHolding(s, turn);
      BoundMoves(s, turn, I.Reserved, start, forgotten);
      forall i | 0 <= i < |s.threads| ensures ReadBounds(s', i, after) {
        assert ReadBounds(s, i, forgotten);
        StepReadBounds(s, turn, i, forgotten);
      }
    }
  }

  lemma {:induction false} RunBounded(s: I.Shared, turns: seq<I.Turn>, start: nat, forgotten: nat, total: nat)
    requires Bounded(s, start, forgotten) && total == forgotten + ForgottenOver(s, turns)
    ensures Bounded(I.Run(s, turns), start, total)
    decreases turns
  {
    if turns != [] {
      var next, rest := I.Step(s, turns[0]), turns[1..];
      StepBounded(s, turns[0], start, forgotten);
      RunBounded(next, rest, start, forgotten + ForgottenAt(s, turns[0]), total);
      assert I.Run(s, turns) == I.Run(next, rest);
    }
  }

  /** Only requests still in flight are newer than the latest admitted reader. */
  lemma LatestGrantBounds(s: I.Shared, start: nat, forgotten: nat, burst: int)
    requires Bounded(s, start, forgotten) && Safe(s, burst)
    ensures s.ring.total <= Max(start, s.limit + s.burstMax) + I.Measure(s.threads, I.InFlight) +
                            I.Measure(s.threads, I.Overrun) + forgotten
  {
    if exists i :: 0 <= i < |s.threads| && I.HasGrant(s.threads[i].pc) {
      var p := LatestGrant(s.threads);
      assert ReadBounds(s, p, forgotten) && ThreadOk(s.threads[p], s);
      I.MeasureLe(s.threads, I.NewerThan(s.threads[p].pc.grant.at), I.InFlight);
    } else {
      I.MeasureLe(s.threads, I.Reserved, I.InFlight);
    }
  }

  /** The overshoot of the step system: for any number of threads, any deltas, any schedule and any
  clock, the total never exceeds the larger of what it started at and the limit plus the burst
  allowance, plus the estimates still in flight, plus what upstreams overran, plus the negative mass
  that eviction forgot. */
  lemma ConcurrentOvershootBound(s: I.Shared, turns: seq<I.Turn>)
    requires I.Initial(s) && NoNegativeEstimate(s.threads)
    ensures
      var r := I.Run(s, turns);
      && r.ring.total <= Max(Visible(s.ring), s.limit + s.burstMax) + I.Measure(r.threads, I.InFlight) +
                         I.Measure(r.threads, I.Overrun) + ForgottenOver(s, turns)
      && (Quiet(r) ==> I.Measure(r.threads, I.InFlight) == 0)
  {
    var r := I.Run(s, turns);
    I.MeasureZero(s.threads, I.Reserved);
    I.MeasureZero(s.threads, I.Overrun);
    RunBounded(s, turns, Visible(s.ring), 0, ForgottenOver(s, turns));
    InitialSafe(s);
    RunSafe(s, s.burst, turns);
    LatestGrantBounds(r, Visible(s.ring), ForgottenOver(s, turns), s.burst);
    if Quiet(r) {
      QuietIsNotInFlight(r);
    }
  }

  lemma QuietIsNotInFlight(s: I.Shared)
    requires Quiet(s)
    ensures I.Measure(s.threads, I.InFlight) == 0
  {
    forall i | 0 <= i < |s.threads| ensures I.Weigh(s.threads[i], I.InFlight) == 0 {
      assert AtRest(s.threads[i].pc);
    }
    I.MeasureZero(s.threads, I.InFlight);
  }
}
