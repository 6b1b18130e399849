/** What every interleaving of Reserve and Record keeps within one clock second. */
module Admission {
  import opened Ring
  import opened Interleaving
  import opened BurstCounter

  /** No step reads a clock past the second the window's head is at. */
  predicate OneSecond(turns: seq<Turn>, second: int) {
    forall k :: 0 <= k < |turns| ==> turns[k].now <= second
  }

  /** A non-negative estimate, and a delta that returns at most the estimate. */
  predicate Lawful(t: Thread) {
    t.estimate >= 0 && (t.delta.Some? ==> t.delta.value >= -t.estimate)
  }

  predicate AllLawful(ts: seq<Thread>) {
    forall i :: 0 <= i < |ts| ==> Lawful(ts[i])
  }

  /** The window as it started, with `extra` more in the head bucket and in the total. */
  function Raised(start: Ring, extra: int): Ring
    requires |start.slots| >= 1
  {
    start.(slots := start.slots[0 := start.slots[0] + extra], total := start.total + extra)
  }

  // ---- Conservation ----

  predicate Conserved(s: Shared, start: Ring) {
    && |start.slots| >= 1 && start.total >= 0
    && AllLawful(s.threads)
    && s.ring == Raised(start, Measure(s.threads, Held))
  }

  lemma HeldNonNegative(ts: seq<Thread>)
    requires AllLawful(ts)
    ensures Measure(ts, Held) >= 0
  {
    forall i | 0 <= i < |ts| ensures Weigh(ts[i], Held) >= 0 {
      assert Lawful(ts[i]);
    }
    MeasureNonNegative(ts, Held);
  }

  /** The tokens a thread's next step adds to the window. */
  function Moved(t: Thread): int {
    match t.pc
    case Start => t.estimate
    case Undoing => -t.estimate
    case Admitted(_) => if t.delta.Some? then t.delta.value else 0
    case _ => 0
  }

  lemma StepMovesRing(s: Shared, turn: Turn)
    requires Usable(s) && turn.thread < |s.threads| && turn.now <= s.ring.headTime
    requires s.ring.total >= 0 && s.ring.total + Moved(s.threads[turn.thread]) >= 0
    ensures Step(s, turn).ring == Raised(s.ring, Moved(s.threads[turn.thread]))
  {
    assert s.ring.slots[0 := s.ring.slots[0]] == s.ring.slots;
  }

  lemma StepMovesHolding(s: Shared, turn: Turn)
    requires Usable(s) && turn.thread < |s.threads|
    ensures
      var t, t' := s.threads[turn.thread], Step(s, turn).threads[turn.thread];
      && t'.estimate == t.estimate && t'.delta == t.delta
      && Holding(t') == Holding(t) + Moved(t)
  {
  }

  lemma StepConserved(s: Shared, start: Ring, turn: Turn)
    requires Conserved(s, start) && turn.now <= start.headTime
    ensures Conserved(Step(s, turn), start)
  {
    if turn.thread < |s.threads| {
      var i, s' := turn.thread, Step(s, turn);
      StepMeasure(s, turn, Held);
      StepMovesHolding(s, turn);
      assert AllLawful(s'.threads) by {
        assert Lawful(s.threads[i]);
      }
      HeldNonNegative(s.threads);
      HeldNonNegative(s'.threads);
      StepMovesRing(s, turn);
    }
  }

  lemma {:induction false} RunConserved(s: Shared, start: Ring, turns: seq<Turn>)
    requires Conserved(s, start) && OneSecond(turns, start.headTime)
    ensures Conserved(Run(s, turns), start)
    decreases turns
  {
    if turns != [] {
      assert turns[0].now <= start.headTime;
      StepConserved(s, start, turns[0]);
      RunConserved(Step(s, turns[0]), start, turns[1..]);
    }
  }

  /** Nobody is between two steps of a Reserve or a Record. */
  predicate Quiet(s: Shared) {
    forall i :: 0 <= i < |s.threads| ==> AtRest(s.threads[i].pc)
  }

  predicate AtRest(pc: Pc) {
    pc.Start? || pc.Denied? || pc.Admitted? || pc.Settled?
  }

  /** Concurrent conservation: within one second, under every interleaving, the head bucket and
  the total have both grown by exactly what the requests hold (estimates in flight or admitted,
  plus deltas recorded), so the clamp never fired; once quiet, only admitted requests show. */
  lemma Conservation(s: Shared, turns: seq<Turn>)
    requires Initial(s) && AllLawful(s.threads) && s.ring.total >= 0
    requires OneSecond(turns, s.ring.headTime)
    ensures
      var r := Run(s, turns);
      && r.ring == Raised(s.ring, Measure(r.threads, Held))
      && Measure(r.threads, Held) >= 0
      && (Quiet(r) ==> r.ring == Raised(s.ring, Measure(r.threads, Granted)))
  {
    MeasureZero(s.threads, Held);
    assert s.ring == Raised(s.ring, 0);
    RunConserved(s, s.ring, turns);
    var r := Run(s, turns);
    HeldNonNegative(r.threads);
    if Quiet(r) {
      QuietHoldsGranted(r);
    }
  }

  lemma QuietHoldsGranted(s: Shared)
    requires Quiet(s)
    ensures Measure(s.threads, Held) == Measure(s.threads, Granted)
  {
    forall i | 0 <= i < |s.threads| ensures Weigh(s.threads[i], Held) == Weigh(s.threads[i], Granted) {
      assert AtRest(s.threads[i].pc);
    }
    MeasureLe(s.threads, Held, Granted);
    MeasureLe(s.threads, Granted, Held);
  }

  // ---- No over-admission ----

  /** A read total covers everything held by the threads that had read by then (up to what has
  been overrun since). */
  predicate Covers(s: Shared, base: int, i: nat)
    requires i < |s.threads|
  {
    var pc := s.threads[i].pc;
    HasRead(pc) ==>
      && ReadAt(pc) < s.looks
      && base + Measure(s.threads, HeldUpTo(ReadAt(pc))) <= ReadSeen(pc) + Measure(s.threads, Overrun)
  }

  predicate ReadsCover(s: Shared, base: int) {
    forall i :: 0 <= i < |s.threads| ==> Covers(s, base, i)
  }

  lemma WeightUpToGrows(s: Shared, turn: Turn, at: int)
    requires Usable(s) && turn.thread < |s.threads| && Lawful(s.threads[turn.thread]) && at < s.looks
    ensures
      var t, t' := s.threads[turn.thread], Step(s, turn).threads[turn.thread];
      Weigh(t', HeldUpTo(at)) - Weigh(t, HeldUpTo(at)) <= Weigh(t', Overrun) - Weigh(t, Overrun)
  {
  }

  /** After a step, what counts against an earlier read has grown by at most what was overrun. */
  lemma HeldUpToGrows(s: Shared, turn: Turn, at: int)
    requires Usable(s) && AllLawful(s.threads) && at < s.looks
    ensures
      var s' := Step(s, turn);
      Measure(s'.threads, HeldUpTo(at)) - Measure(s.threads, HeldUpTo(at)) <=
      Measure(s'.threads, Overrun) - Measure(s.threads, Overrun)
  {
    if turn.thread < |s.threads| {
      assert Lawful(s.threads[turn.thread]);
      WeightUpToGrows(s, turn, at);
      StepMeasure(s, turn, HeldUpTo(at));
      StepMeasure(s, turn, Overrun);
    }
  }

  lemma FreshReadCovers(s: Shared, start: Ring, turn: Turn)
    requires Conserved(s, start) && turn.now <= start.headTime
    requires turn.thread < |s.threads| && s.threads[turn.thread].pc.Counted?
    ensures Covers(Step(s, turn), start.total, turn.thread)
  {
    var s' := Step(s, turn);
    StepConserved(s, start, turn);
    var m := HeldUpTo(s.looks);
    forall i | 0 <= i < |s'.threads|
      ensures Weigh(s'.threads[i], m) <= Weigh(s'.threads[i], Held) && Weigh(s'.threads[i], Overrun) >= 0
    {
      assert Lawful(s'.threads[i]);
    }
    MeasureLe(s'.threads, m, Held);
    MeasureNonNegative(s'.threads, Overrun);
  }

  lemma StepReadsCover(s: Shared, start: Ring, turn: Turn)
    requires Conserved(s, start) && turn.now <= start.headTime
    requires ReadsCover(s, start.total)
    ensures ReadsCover(Step(s, turn), start.total)
  {
    forall i | 0 <= i < |s.threads|
      ensures Covers(Step(s, turn), start.total, i)
    {
      assert Covers(s, start.total, i);
      StepCovers(s, start, turn, i);
    }
  }

  lemma StepCovers(s: Shared, start: Ring, turn: Turn, i: nat)
    requires Conserved(s, start) && turn.now <= start.headTime
    requires i < |s.threads| && Covers(s, start.total, i)
    ensures Covers(Step(s, turn), start.total, i)
  {
    if i == turn.thread && s.threads[i].pc.Counted? {
      FreshReadCovers(s, start, turn);
    } else if HasRead(Step(s, turn).threads[i].pc) {
      ReadIsKept(s, turn, i);
      HeldUpToGrows(s, turn, ReadAt(s.threads[i].pc));
    }
  }

  /** A read, once made, stays what it was while it matters. */
  lemma ReadIsKept(s: Shared, turn: Turn, i: nat)
    requires Usable(s) && i < |s.threads|
    requires HasRead(Step(s, turn).threads[i].pc) && !(i == turn.thread && s.threads[i].pc.Counted?)
    ensures
      var pc, pc' := s.threads[i].pc, Step(s, turn).threads[i].pc;
      HasRead(pc) && ReadAt(pc') == ReadAt(pc) && ReadSeen(pc') == ReadSeen(pc) && Step(s, turn).looks >= s.looks
  {
  }

  lemma {:induction false} RunReadsCover(s: Shared, start: Ring, turns: seq<Turn>)
    requires Conserved(s, start) && OneSecond(turns, start.headTime)
    requires ReadsCover(s, start.total)
    ensures ReadsCover(Run(s, turns), start.total)
    decreases turns
  {
    if turns != [] {
      assert turns[0].now <= start.headTime;
      StepConserved(s, start, turns[0]);
      StepReadsCover(s, start, turns[0]);
      RunReadsCover(Step(s, turns[0]), start, turns[1..]);
    }
  }

  /** The admitted thread with the latest Total read. */
  lemma {:induction false} LatestGrant(ts: seq<Thread>) returns (p: nat)
    requires exists i :: 0 <= i < |ts| && HasGrant(ts[i].pc)
    ensures p < |ts| && HasGrant(ts[p].pc)
    ensures forall i :: 0 <= i < |ts| && HasGrant(ts[i].pc) ==> ts[i].pc.grant.at <= ts[p].pc.grant.at
  {
    var last := |ts| - 1;
    var init := ts[..last];
    if exists i :: 0 <= i < |init| && HasGrant(init[i].pc) {
      p := LatestGrant(init);
      if HasGrant(ts[last].pc) && ts[last].pc.grant.at > ts[p].pc.grant.at {
        p := last;
      }
    } else {
      p := last;
    }
  }

  /** Everything admitted fits in what the latest admitted reader saw. */
  lemma LatestSawAll(s: Shared, base: int, p: nat)
    requires ReadsCover(s, base) && AllLawful(s.threads)
    requires p < |s.threads| && HasGrant(s.threads[p].pc)
    requires forall i :: 0 <= i < |s.threads| && HasGrant(s.threads[i].pc) ==>
               s.threads[i].pc.grant.at <= s.threads[p].pc.grant.at
    ensures base + Measure(s.threads, Granted) <= s.threads[p].pc.grant.seen + Measure(s.threads, Overrun)
  {
    var m := HeldUpTo(s.threads[p].pc.grant.at);
    forall i | 0 <= i < |s.threads| ensures Weigh(s.threads[i], Granted) <= Weigh(s.threads[i], m) {
      assert Lawful(s.threads[i]);
    }
    MeasureLe(s.threads, Granted, m);
    assert Covers(s, base, p);
  }

  lemma RunInvariants(s: Shared, turns: seq<Turn>)
    requires Initial(s) && AllLawful(s.threads) && s.ring.total >= 0
    requires OneSecond(turns, s.ring.headTime)
    ensures
      var r := Run(s, turns);
      Conserved(r, s.ring) && ReadsCover(r, s.ring.total) && Safe(r, s.burst)
  {
    MeasureZero(s.threads, Held);
    assert s.ring == Raised(s.ring, 0);
    RunConserved(s, s.ring, turns);
    RunReadsCover(s, s.ring, turns);
    InitialSafe(s);
    RunSafe(s, s.burst, turns);
  }

  /** Bounded admission with reconciliation running: whatever the interleaving, the starting
  total plus everything admitted requests hold is at most limit plus the whole burst allowance
  plus what upstreams overran. */
  lemma BoundedAdmission(s: Shared, turns: seq<Turn>)
    requires Initial(s) && AllLawful(s.threads) && s.ring.total >= 0
    requires OneSecond(turns, s.ring.headTime)
    ensures
      var r := Run(s, turns);
      (exists i :: 0 <= i < |r.threads| && HasGrant(r.threads[i].pc)) ==>
        s.ring.total + Measure(r.threads, Granted) <= s.limit + s.burstMax + Measure(r.threads, Overrun)
  {
    RunInvariants(s, turns);
    var r := Run(s, turns);
    if exists i :: 0 <= i < |r.threads| && HasGrant(r.threads[i].pc) {
      var p := LatestGrant(r.threads);
      LatestSawAll(r, s.ring.total, p);
      assert ThreadOk(r.threads[p], r);
    }
  }

  /** No request of the system ever records. */
  predicate NoRecords(ts: seq<Thread>) {
    forall i :: 0 <= i < |ts| ==> ts[i].delta.None?
  }

  /** The thread is in its Reserve, or admitted and done. */
  predicate OnlyReserves(t: Thread) {
    t.delta.None? && (HasGrant(t.pc) ==> t.pc.Admitted?)
  }

  predicate AllReserve(ts: seq<Thread>) {
    forall i :: 0 <= i < |ts| ==> OnlyReserves(ts[i])
  }

  lemma {:induction false} OnlyReservesKept(s: Shared, turns: seq<Turn>)
    requires Usable(s) && AllReserve(s.threads)
    ensures AllReserve(Run(s, turns).threads)
    decreases turns
  {
    if turns != [] {
      assert turns[0].thread < |s.threads| ==> OnlyReserves(s.threads[turns[0].thread]);
      OnlyReservesKept(Step(s, turns[0]), turns[1..]);
    }
  }

  lemma SpentCoversGrant(s: Shared, start: int, p: nat)
    requires Safe(s, start) && p < |s.threads| && AllReserve(s.threads)
    ensures Weigh(s.threads[p], Spent) <= start - s.burst
    ensures Measure(s.threads, Overrun) == 0
  {
    forall i | 0 <= i < |s.threads|
      ensures Weigh(s.threads[i], Overrun) == 0 == Weigh(s.threads[i], Credited) <= Weigh(s.threads[i], Spent)
    {
      assert ThreadOk(s.threads[i], s) && OnlyReserves(s.threads[i]);
    }
    MeasureZero(s.threads, Overrun);
    MeasureZero(s.threads, Credited);
    MeasureMember(s.threads, p, Spent);
  }

  /** No over-admission: with only Reserves running, from any starting window, the starting total
  plus all admitted estimates is at most the limit plus the burst really spent, at every
  reachable state. */
  lemma NoOverAdmission(s: Shared, turns: seq<Turn>)
    requires Initial(s) && AllLawful(s.threads) && NoRecords(s.threads) && s.ring.total >= 0
    requires OneSecond(turns, s.ring.headTime)
    ensures
      var r := Run(s, turns);
      (exists i :: 0 <= i < |r.threads| && HasGrant(r.threads[i].pc)) ==>
        s.ring.total + Measure(r.threads, Granted) <= s.limit + (s.burst - r.burst)
  {
    RunInvariants(s, turns);
    var r := Run(s, turns);
    OnlyReservesKept(s, turns);
    if exists i :: 0 <= i < |r.threads| && HasGrant(r.threads[i].pc) {
      var p := LatestGrant(r.threads);
      LatestSawAll(r, s.ring.total, p);
      SpentCoversGrant(r, s.burst, p);
      assert ThreadOk(r.threads[p], r);
    }
  }
}
