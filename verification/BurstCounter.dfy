/** The burst counter under every interleaving of its compare-and-swap loops. */
module BurstCounter {
  import opened Interleaving

  /** What a thread's program point says about the burst tokens it moves. */
  predicate ThreadOk(t: Thread, s: Shared) {
    && (t.pc.Over? ==> t.pc.seen > s.limit)
    && (t.pc.Loaded? ==> t.pc.seen > s.limit && t.pc.seen - s.limit <= t.pc.cur)
    && (t.pc.Crediting? || t.pc.CreditLoaded? ==> t.pc.freed > 0)
    && (HasGrant(t.pc) ==> 0 <= t.pc.grant.spent <= s.burstMax && t.pc.grant.seen <= s.limit + t.pc.grant.spent)
    && (t.pc.Settled? ==> t.pc.credit >= 0)
  }

  predicate Safe(s: Shared, start: int) {
    && Usable(s)
    && 0 <= s.burst <= s.burstMax
    && s.burst == start - Measure(s.threads, Spent) + Measure(s.threads, Credited)
    && forall i :: 0 <= i < |s.threads| ==> ThreadOk(s.threads[i], s)
  }

  /** What the stepping thread does to the counter is what its own weights record. */
  lemma StepThreadSafe(s: Shared, turn: Turn)
    requires Usable(s) && turn.thread < |s.threads|
    requires 0 <= s.burst <= s.burstMax && ThreadOk(s.threads[turn.thread], s)
    ensures
      var s', i := Step(s, turn), turn.thread;
      && ThreadOk(s'.threads[i], s') && 0 <= s'.burst <= s'.burstMax
      && s'.burst - s.burst == Weigh(s.threads[i], Spent) - Weigh(s'.threads[i], Spent) +
                               Weigh(s'.threads[i], Credited) - Weigh(s.threads[i], Credited)
  {
  }

  lemma StepSafe(s: Shared, start: int, turn: Turn)
    requires Safe(s, start)
    ensures Safe(Step(s, turn), start)
  {
    if turn.thread < |s.threads| {
      StepMeasure(s, turn, Spent);
      StepMeasure(s, turn, Credited);
      assert ThreadOk(s.threads[turn.thread], s);
      StepThreadSafe(s, turn);
      forall i | 0 <= i < |s.threads| ensures ThreadOk(Step(s, turn).threads[i], Step(s, turn)) {
        assert ThreadOk(s.threads[i], s);
      }
    }
  }

  lemma {:induction false} RunSafe(s: Shared, start: int, turns: seq<Turn>)
    requires Safe(s, start)
    ensures Safe(Run(s, turns), start)
    decreases turns
  {
    if turns != [] {
      StepSafe(s, start, turns[0]);
      RunSafe(Step(s, turns[0]), start, turns[1..]);
    }
  }

  lemma InitialSafe(s: Shared)
    requires Initial(s)
    ensures Safe(s, s.burst)
  {
    MeasureZero(s.threads, Spent);
    MeasureZero(s.threads, Credited);
  }

  /** Burst safety: for any number of threads, any estimates and deltas, any schedule and any
  clock, the counter stays between zero and its maximum, and is exactly the starting allowance
  less what successful swaps took plus what credits really gave back. */
  lemma BurstSafety(s: Shared, turns: seq<Turn>)
    requires Initial(s)
    ensures
      var r := Run(s, turns);
      && 0 <= r.burst <= r.burstMax
      && r.burst == s.burst - Measure(r.threads, Spent) + Measure(r.threads, Credited)
      && forall i :: 0 <= i < |r.threads| ==>
           Weigh(r.threads[i], Spent) >= 0 && Weigh(r.threads[i], Credited) >= 0
  {
    InitialSafe(s);
    RunSafe(s, s.burst, turns);
    var r := Run(s, turns);
    forall i | 0 <= i < |r.threads|
      ensures Weigh(r.threads[i], Spent) >= 0 && Weigh(r.threads[i], Credited) >= 0
    {
      assert ThreadOk(r.threads[i], r);
    }
  }
}
