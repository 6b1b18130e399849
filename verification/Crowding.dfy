/** What concurrent Reserves do to each other: the crowded schedule, in which everyone adds, then
everyone reads the total, and only then do they finish one after the other. */
module Crowding {
  import opened Sums
  import opened Ring
  import opened Accounts
  import I = Interleaving
  import opened BurstCounter
  import opened Admission
  import opened SoloRuns

  /** Every request has its answer. */
  predicate AllDone(s: I.Shared) {
    forall i :: 0 <= i < |s.threads| ==> Answered(s.threads[i].pc)
  }

  predicate Answered(pc: I.Pc) {
    pc.Admitted? || pc.Denied?
  }

  // ---- Counting ----

  lemma {:induction false} CountAtMost(ts: seq<I.Thread>)
    ensures 0 <= I.Measure(ts, I.Count) <= |ts|
  {
    if ts != [] {
      CountAtMost(ts[1..]);
    }
  }

  /** Somebody is not admitted exactly when the count falls short. */
  lemma {:induction false} CountShort(ts: seq<I.Thread>)
    ensures I.Measure(ts, I.Count) < |ts| <==> exists i :: 0 <= i < |ts| && !I.HasGrant(ts[i].pc)
  {
    if ts != [] {
      CountShort(ts[1..]);
      CountAtMost(ts[1..]);
      assert forall i :: 0 <= i < |ts| - 1 ==> ts[1..][i] == ts[i + 1];
      if exists i :: 0 <= i < |ts| && !I.HasGrant(ts[i].pc) {
        var i :| 0 <= i < |ts| && !I.HasGrant(ts[i].pc);
        assert i > 0 ==> !I.HasGrant(ts[1..][i - 1].pc);
      }
    }
  }

  /** Nobody is admitted exactly when the count is zero. */
  lemma CountZero(ts: seq<I.Thread>)
    ensures I.Measure(ts, I.Count) == 0 <==> forall i :: 0 <= i < |ts| ==> !I.HasGrant(ts[i].pc)
  {
    if forall i :: 0 <= i < |ts| ==> !I.HasGrant(ts[i].pc) {
      I.MeasureZero(ts, I.Count);
    } else {
      var i :| 0 <= i < |ts| && I.HasGrant(ts[i].pc);
      I.MeasureMember(ts, i, I.Count);
    }
  }

  /** If every admitted request paid exactly (at most) `price`, so did they together. */
  lemma {:induction false} SpentAtPrice(ts: seq<I.Thread>, price: int)
    requires forall i :: 0 <= i < |ts| ==> I.Weigh(ts[i], I.Spent) <= price * I.Weigh(ts[i], I.Count)
    ensures I.Measure(ts, I.Spent) <= price * I.Measure(ts, I.Count)
    ensures (forall i :: 0 <= i < |ts| ==> I.Weigh(ts[i], I.Spent) == price * I.Weigh(ts[i], I.Count)) ==>
              I.Measure(ts, I.Spent) == price * I.Measure(ts, I.Count)
  {
    if ts != [] {
      SpentAtPrice(ts[1..], price);
      var w, m := I.Weigh(ts[0], I.Count), I.Measure(ts[1..], I.Count);
      assert price * (w + m) == price * w + price * m;
    }
  }

  lemma NoneAffordable(burst: int, price: int, count: int)
    requires 0 <= burst < price && 0 <= count && 0 <= burst - price * count
    ensures count == 0
  {
    assert price * count == price * (count - 1) + price;
  }

  lemma TimesAtMost(price: int, a: int, b: int)
    requires price > 0 && a <= b
    ensures price * a <= price * b
  {
    assert price * (b - a) == price * b - price * a;
  }

  // ---- The crowded schedule ----

  /** Everyone has passed `round`: 0 nothing yet, 1 the estimate added, 2 the full total read. */
  predicate Passed(pc: I.Pc, round: nat, seen: int, limit: int) {
    match round
    case 0 => pc.Start?
    case 1 => pc.Counted?
    case _ => I.HasRead(pc) && I.ReadSeen(pc) == seen && if seen > limit then pc.Over? else pc.Admitted?
  }

  /** Lock step: every thread has passed `round`, the first `done` also the next one. */
  predicate LockStep(s: I.Shared, start: Ring, round: nat, done: nat) {
    && Conserved(s, start)
    && done <= |s.threads| && round <= 1
    && var seen := start.total + I.Measure(s.threads, I.Asked);
       forall i :: 0 <= i < |s.threads| ==> Passed(s.threads[i].pc, if i < done then round + 1 else round, seen, s.limit)
  }

  lemma LockStepReadsAll(s: I.Shared, start: Ring, done: nat)
    requires LockStep(s, start, 1, done)
    ensures s.ring.total == start.total + I.Measure(s.threads, I.Asked)
  {
    forall i | 0 <= i < |s.threads| ensures I.Weigh(s.threads[i], I.Held) == I.Weigh(s.threads[i], I.Asked) {
      assert Passed(s.threads[i].pc, if i < done then 2 else 1, start.total + I.Measure(s.threads, I.Asked), s.limit);
    }
    I.MeasureLe(s.threads, I.Held, I.Asked);
    I.MeasureLe(s.threads, I.Asked, I.Held);
  }

  lemma LockStepOne(s: I.Shared, start: Ring, round: nat, done: nat)
    requires LockStep(s, start, round, done) && done < |s.threads|
    ensures LockStep(I.Step(s, I.Turn(done, start.headTime)), start, round, done + 1)
    ensures I.Step(s, I.Turn(done, start.headTime)).burst == s.burst
  {
    var turn := I.Turn(done, start.headTime);
    StepConserved(s, start, turn);
    I.StepMeasure(s, turn, I.Asked);
    StepMovesHolding(s, turn);
    var seen := start.total + I.Measure(s.threads, I.Asked);
    assert Passed(s.threads[done].pc, round, seen, s.limit);
    if round == 1 {
      LockStepReadsAll(s, start, done);
      HeldNonNegative(s.threads);
    }
    assert Passed(I.Step(s, turn).threads[done].pc, round + 1, seen, s.limit);
  }

  lemma {:induction false} LockStepRound(s: I.Shared, start: Ring, round: nat, done: nat) returns (turns: seq<I.Turn>)
    requires LockStep(s, start, round, done)
    ensures OneSecond(turns, start.headTime)
    ensures LockStep(I.Run(s, turns), start, round, |s.threads|) && I.Run(s, turns).burst == s.burst
    decreases |s.threads| - done
  {
    if done == |s.threads| {
      turns := [];
    } else {
      var turn := I.Turn(done, start.headTime);
      LockStepOne(s, start, round, done);
      var rest := LockStepRound(I.Step(s, turn), start, round, done + 1);
      turns := [turn] + rest;
      assert turns[1..] == rest;
    }
  }

  /** The first `done` have their answer, at price `seen - limit` if admitted; the others have all
  read the same total. */
  predicate Finishing(s: I.Shared, seen: int, done: nat) {
    && I.Usable(s) && seen > s.limit && done <= |s.threads|
    && forall i :: 0 <= i < |s.threads| ==>
         if i < done then Charged(s.threads[i].pc, seen - s.limit) else Passed(s.threads[i].pc, 2, seen, s.limit)
  }

  predicate Charged(pc: I.Pc, price: int) {
    pc.Denied? || (pc.Admitted? && pc.grant.spent == price)
  }

  lemma FinishOne(s: I.Shared, seen: int, done: nat, now: int) returns (turns: seq<I.Turn>)
    requires Finishing(s, seen, done) && done < |s.threads|
    ensures OneSecond(turns, now) && Finishing(I.Run(s, turns), seen, done + 1)
  {
    var t := I.Turn(done, now);
    assert Passed(s.threads[done].pc, 2, seen, s.limit);
    var s2 := I.Step(I.Step(s, t), t);
    if seen - s.limit <= s.burst {
      turns := [t, t];
      RunTwo(s, turns);
      assert turns[2..] == [];
    } else {
      turns := [t, t, t];
      RunTwo(s, turns);
      RunOne(s2, turns[2..]);
    }
    var r := I.Run(s, turns);
    assert Charged(r.threads[done].pc, seen - s.limit);
    assert forall i :: 0 <= i < |s.threads| && i != done ==> r.threads[i] == s.threads[i];
  }

  lemma {:induction false} FinishAll(s: I.Shared, seen: int, done: nat, now: int) returns (turns: seq<I.Turn>)
    requires Finishing(s, seen, done)
    ensures OneSecond(turns, now) && Finishing(I.Run(s, turns), seen, |s.threads|)
    decreases |s.threads| - done
  {
    if done == |s.threads| {
      turns := [];
    } else {
      turns := FinishOne(s, seen, done, now);
      var rest := FinishAll(I.Run(s, turns), seen, done + 1, now);
      I.RunAppend(s, turns, rest);
      turns := turns + rest;
    }
  }

  /** What the crowded schedule comes to: everybody answered, and every admitted request charged
  the whole overshoot of the crowd. */
  lemma CrowdedRun(s: I.Shared) returns (turns: seq<I.Turn>)
    requires I.Initial(s) && AllLawful(s.threads) && s.ring.total >= 0
    requires s.ring.total + I.Measure(s.threads, I.Asked) > s.limit
    ensures OneSecond(turns, s.ring.headTime)
    ensures
      var r, price := I.Run(s, turns), s.ring.total + I.Measure(s.threads, I.Asked) - s.limit;
      && AllDone(r) && 0 <= r.burst == s.burst - price * I.Measure(r.threads, I.Count)
  {
    var seen := s.ring.total + I.Measure(s.threads, I.Asked);
    var crowd := EveryoneReads(s);
    var mid := I.Run(s, crowd);
    var rest := FinishAll(mid, seen, 0, s.ring.headTime);
    I.RunAppend(s, crowd, rest);
    turns := crowd + rest;
    InitialSafe(s);
    RunSafe(s, s.burst, turns);
    ChargedAlike(I.Run(s, turns), s.burst, seen);
  }

  /** The first two rounds: everyone adds, then everyone reads everything asked. */
  lemma EveryoneReads(s: I.Shared) returns (turns: seq<I.Turn>)
    requires I.Initial(s) && AllLawful(s.threads) && s.ring.total >= 0
    ensures OneSecond(turns, s.ring.headTime)
    ensures
      var r := I.Run(s, turns);
      && LockStep(r, s.ring, 1, |s.threads|) && r.burst == s.burst
      && I.Measure(r.threads, I.Asked) == I.Measure(s.threads, I.Asked)
  {
    I.MeasureZero(s.threads, I.Held);
    assert s.ring == Raised(s.ring, 0);
    turns := LockStepRound(s, s.ring, 0, 0);
    var mid := I.Run(s, turns);
    AskedKept(s, turns);
    assert LockStep(mid, s.ring, 1, 0);
    var looks := LockStepRound(mid, s.ring, 1, 0);
    AskedKept(mid, looks);
    I.RunAppend(s, turns, looks);
    turns := turns + looks;
  }

  lemma ChargedAlike(r: I.Shared, start: int, seen: int)
    requires Safe(r, start) && Finishing(r, seen, |r.threads|)
    ensures AllDone(r) && r.burst == start - (seen - r.limit) * I.Measure(r.threads, I.Count)
  {
    forall i | 0 <= i < |r.threads|
      ensures Answered(r.threads[i].pc) && I.Weigh(r.threads[i], I.Credited) == 0
      ensures I.Weigh(r.threads[i], I.Spent) == (seen - r.limit) * I.Weigh(r.threads[i], I.Count)
    {
      assert Charged(r.threads[i].pc, seen - r.limit);
    }
    I.MeasureZero(r.threads, I.Credited);
    SpentAtPrice(r.threads, seen - r.limit);
  }

  lemma {:induction false} AskedKept(s: I.Shared, turns: seq<I.Turn>)
    requires I.Usable(s)
    ensures I.Measure(I.Run(s, turns).threads, I.Asked) == I.Measure(s.threads, I.Asked)
    decreases turns
  {
    if turns != [] {
      if turns[0].thread < |s.threads| {
        I.StepMeasure(s, turns[0], I.Asked);
      }
      AskedKept(I.Step(s, turns[0]), turns[1..]);
    }
  }

  // ---- When everyone can be denied ----

  predicate AllDenied(s: I.Shared) {
    forall i :: 0 <= i < |s.threads| ==> s.threads[i].pc.Denied?
  }

  /** Nobody admitted yet, the burst untouched, and every read total within what was asked. */
  predicate Harmless(s: I.Shared, start: Ring, burst: int) {
    && Conserved(s, start) && s.burst == burst
    && forall i :: 0 <= i < |s.threads| ==>
         Waiting(s.threads[i].pc, start.total + I.Measure(s.threads, I.Asked))
  }

  predicate Waiting(pc: I.Pc, most: int) {
    pc.Start? || pc.Counted? || ((pc.Over? || pc.Loaded?) && pc.seen <= most)
  }

  ghost predicate SomeGrant(s: I.Shared) {
    exists i :: 0 <= i < |s.threads| && I.HasGrant(s.threads[i].pc)
  }

  lemma GrantStays(s: I.Shared, turn: I.Turn)
    requires I.Usable(s) && SomeGrant(s)
    ensures SomeGrant(I.Step(s, turn))
  {
    var i :| 0 <= i < |s.threads| && I.HasGrant(s.threads[i].pc);
    assert I.HasGrant(I.Step(s, turn).threads[i].pc);
  }

  lemma HeldWithinAsked(s: I.Shared, start: Ring, burst: int)
    requires Harmless(s, start, burst)
    ensures I.Measure(s.threads, I.Held) <= I.Measure(s.threads, I.Asked)
  {
    forall i | 0 <= i < |s.threads| ensures I.Weigh(s.threads[i], I.Held) <= I.Weigh(s.threads[i], I.Asked) {
      assert Lawful(s.threads[i]);
    }
    I.MeasureLe(s.threads, I.Held, I.Asked);
  }

  lemma HarmlessStep(s: I.Shared, start: Ring, burst: int, turn: I.Turn)
    requires Harmless(s, start, burst) && turn.now <= start.headTime
    requires start.total + I.Measure(s.threads, I.Asked) <= s.limit + burst
    ensures Harmless(I.Step(s, turn), start, burst) || SomeGrant(I.Step(s, turn))
    ensures I.Measure(I.Step(s, turn).threads, I.Asked) == I.Measure(s.threads, I.Asked)
  {
    if turn.thread < |s.threads| {
      var i, s' := turn.thread, I.Step(s, turn);
      I.StepMeasure(s, turn, I.Asked);
      HeldWithinAsked(s, start, burst);
      HeldNonNegative(s.threads);
      StepConserved(s, start, turn);
      assert Waiting(s.threads[i].pc, start.total + I.Measure(s.threads, I.Asked));
      if I.HasGrant(s'.threads[i].pc) {
        assert SomeGrant(s');
      } else {
        assert Waiting(s'.threads[i].pc, start.total + I.Measure(s.threads, I.Asked));
      }
    }
  }

  lemma {:induction false} FittingNeverAllDenied(s: I.Shared, start: Ring, burst: int, turns: seq<I.Turn>)
    requires I.Usable(s) && (Harmless(s, start, burst) || SomeGrant(s)) && OneSecond(turns, start.headTime)
    requires start.total + I.Measure(s.threads, I.Asked) <= s.limit + burst
    ensures AllDenied(I.Run(s, turns)) ==> |s.threads| == 0
    decreases turns
  {
    if turns != [] {
      assert turns[0].now <= start.headTime;
      if SomeGrant(s) {
        GrantStays(s, turns[0]);
        if turns[0].thread < |s.threads| {
          I.StepMeasure(s, turns[0], I.Asked);
        }
      } else {
        HarmlessStep(s, start, burst, turns[0]);
      }
      FittingNeverAllDenied(I.Step(s, turns[0]), start, burst, turns[1..]);
    }
  }

  /** Some schedule within one second denies every request. */
  ghost predicate CanAllBeDenied(s: I.Shared)
    requires I.Usable(s)
  {
    exists turns :: OneSecond(turns, s.ring.headTime) && AllDenied(I.Run(s, turns))
  }

  /** Any number of concurrent requests can all be denied exactly when together they do not fit,
  even if each would be admitted alone. */
  lemma MutualDenial(s: I.Shared)
    requires I.Initial(s) && AllLawful(s.threads) && s.ring.total >= 0 && |s.threads| >= 1
    ensures CanAllBeDenied(s) <==> s.ring.total + I.Measure(s.threads, I.Asked) > s.limit + s.burst
  {
    if s.ring.total + I.Measure(s.threads, I.Asked) > s.limit + s.burst {
      var turns := CrowdedRun(s);
      var r, price := I.Run(s, turns), s.ring.total + I.Measure(s.threads, I.Asked) - s.limit;
      CountAtMost(r.threads);
      NoneAffordable(s.burst, price, I.Measure(r.threads, I.Count));
      CountZero(r.threads);
      forall i | 0 <= i < |r.threads| ensures r.threads[i].pc.Denied? {
        assert Answered(r.threads[i].pc);
      }
    } else if CanAllBeDenied(s) {
      I.MeasureZero(s.threads, I.Held);
      assert s.ring == Raised(s.ring, 0);
      var turns :| OneSecond(turns, s.ring.headTime) && AllDenied(I.Run(s, turns));
      FittingNeverAllDenied(s, s.ring, s.burst, turns);
    }
  }

  /** So whole groups lose requests that each, run alone at that second, would be admitted. */
  lemma FittingAloneDeniedTogether(s: I.Shared)
    requires I.Initial(s) && AllLawful(s.threads) && NoRecords(s.threads) && s.ring.total >= 0 && |s.threads| >= 1
    requires forall i :: 0 <= i < |s.threads| ==>
               s.ring.total + s.threads[i].estimate <= s.limit + s.burst
    requires s.ring.total + I.Measure(s.threads, I.Asked) > s.limit + s.burst
    ensures CanAllBeDenied(s)
    ensures forall i: nat, turns: seq<I.Turn> ::
              i < |s.threads| && |turns| == 5 && Solo(turns, i) && AtSecond(turns, s.ring.headTime) ==>
                I.Run(s, turns).threads[i].pc.Admitted?
  {
    MutualDenial(s);
    forall i: nat, turns: seq<I.Turn> |
      i < |s.threads| && |turns| == 5 && Solo(turns, i) && AtSecond(turns, s.ring.headTime)
      ensures I.Run(s, turns).threads[i].pc.Admitted?
    {
      SoloIsSequential(s, i, turns);
      assert Readings(turns) == Still(s.ring.headTime);
      DenialIsNoOp(AccountOf(s), s.ring.headTime, s.threads[i].estimate);
    }
  }

  predicate AtSecond(turns: seq<I.Turn>, second: int) {
    forall k :: 0 <= k < |turns| ==> turns[k].now == second
  }

  // ---- When anyone can be denied ----

  predicate Refused(pc: I.Pc) {
    pc.Undoing? || pc.Undone? || pc.Denied?
  }

  /** A read total within what was asked, and no admitted request charged more than the crowd's overshoot. */
  predicate Modest(t: I.Thread, most: int, price: int) {
    && OnlyReserves(t)
    && (t.pc.Over? || t.pc.Loaded? ==> t.pc.seen <= most)
    && (I.HasGrant(t.pc) ==> t.pc.grant.seen <= most && t.pc.grant.spent <= Max(0, price))
  }

  /** Whoever has been refused, n times the overshoot exceeded the burst. */
  predicate Frugal(s: I.Shared, start: Ring, burst: int) {
    var most := start.total + I.Measure(s.threads, I.Asked);
    && Conserved(s, start) && Safe(s, burst)
    && AllExplained(s.threads, most, most - s.limit, burst)
  }

  predicate AllExplained(ts: seq<I.Thread>, most: int, price: int, burst: int) {
    forall i :: 0 <= i < |ts| ==> Explained(ts[i], |ts|, most, price, burst)
  }

  lemma OneMoreExplained(ts: seq<I.Thread>, i: nat, t: I.Thread, most: int, price: int, burst: int)
    requires i < |ts| && AllExplained(ts, most, price, burst) && Explained(t, |ts|, most, price, burst)
    ensures AllExplained(ts[i := t], most, price, burst)
  {
  }

  predicate Explained(t: I.Thread, n: nat, most: int, price: int, burst: int) {
    Modest(t, most, price) && (Refused(t.pc) ==> price > 0 && n * price > burst)
  }

  lemma ReservesHoldAsked(ts: seq<I.Thread>)
    requires AllReserve(ts) && AllLawful(ts)
    ensures I.Measure(ts, I.Held) <= I.Measure(ts, I.Asked)
  {
    forall i | 0 <= i < |ts| ensures I.Weigh(ts[i], I.Held) <= I.Weigh(ts[i], I.Asked) {
      assert OnlyReserves(ts[i]) && Lawful(ts[i]);
    }
    I.MeasureLe(ts, I.Held, I.Asked);
  }

  /** The burst an unadmitted thread finds: at most n - 1 others have paid. */
  lemma OthersPaid(s: I.Shared, start: Ring, burst: int, i: nat)
    requires Frugal(s, start, burst) && i < |s.threads| && !I.HasGrant(s.threads[i].pc)
    ensures
      var price := start.total + I.Measure(s.threads, I.Asked) - s.limit;
      price > 0 ==> burst <= s.burst + price * (|s.threads| - 1)
  {
    var most := start.total + I.Measure(s.threads, I.Asked);
    if most > s.limit {
      FrugalIsModest(s, start, burst);
      PaidWithin(s, burst, most, i);
    }
  }

  lemma PaidWithin(s: I.Shared, burst: int, most: int, i: nat)
    requires Safe(s, burst) && i < |s.threads| && !I.HasGrant(s.threads[i].pc) && most > s.limit
    requires forall k :: 0 <= k < |s.threads| ==> Modest(s.threads[k], most, most - s.limit)
    ensures burst <= s.burst + (most - s.limit) * (|s.threads| - 1)
  {
    var price := most - s.limit;
    forall k | 0 <= k < |s.threads|
      ensures I.Weigh(s.threads[k], I.Spent) <= price * I.Weigh(s.threads[k], I.Count)
      ensures I.Weigh(s.threads[k], I.Credited) == 0
    {
      assert Modest(s.threads[k], most, price);
    }
    SpentAtPrice(s.threads, price);
    I.MeasureZero(s.threads, I.Credited);
    CountShort(s.threads);
    TimesAtMost(price, I.Measure(s.threads, I.Count), |s.threads| - 1);
  }

  lemma FrugalIsModest(s: I.Shared, start: Ring, burst: int)
    requires Frugal(s, start, burst)
    ensures
      var most := start.total + I.Measure(s.threads, I.Asked);
      forall k :: 0 <= k < |s.threads| ==> Modest(s.threads[k], most, most - s.limit)
  {
    var most := start.total + I.Measure(s.threads, I.Asked);
    forall k | 0 <= k < |s.threads| ensures Modest(s.threads[k], most, most - s.limit) {
      assert Explained(s.threads[k], |s.threads|, most, most - s.limit, burst);
    }
  }

  lemma FrugalTotal(s: I.Shared, start: Ring, burst: int)
    requires Frugal(s, start, burst)
    ensures 0 <= s.ring.total <= start.total + I.Measure(s.threads, I.Asked)
  {
    FrugalIsModest(s, start, burst);
    ReservesHoldAsked(s.threads);
    HeldNonNegative(s.threads);
  }

  lemma StepExplained(s: I.Shared, start: Ring, burst: int, turn: I.Turn)
    requires Frugal(s, start, burst) && turn.now <= start.headTime && turn.thread < |s.threads|
    ensures
      var most := start.total + I.Measure(s.threads, I.Asked);
      Explained(I.Step(s, turn).threads[turn.thread], |s.threads|, most, most - s.limit, burst)
  {
    var i, most := turn.thread, start.total + I.Measure(s.threads, I.Asked);
    assert Explained(s.threads[i], |s.threads|, most, most - s.limit, burst) && ThreadOk(s.threads[i], s);
    FrugalTotal(s, start, burst);
    if s.threads[i].pc.Over? {
      OthersPaid(s, start, burst, i);
    }
    FrugalThread(s, start, burst, turn, most);
  }

  lemma FrugalStep(s: I.Shared, start: Ring, burst: int, turn: I.Turn)
    requires Frugal(s, start, burst) && turn.now <= start.headTime
    ensures Frugal(I.Step(s, turn), start, burst)
  {
    StepConserved(s, start, turn);
    StepSafe(s, burst, turn);
    if turn.thread < |s.threads| {
      var most := start.total + I.Measure(s.threads, I.Asked);
      I.StepMeasure(s, turn, I.Asked);
      StepExplained(s, start, burst, turn);
      OneMoreExplained(s.threads, turn.thread, I.Step(s, turn).threads[turn.thread], most, most - s.limit, burst);
    }
  }

  lemma FrugalThread(s: I.Shared, start: Ring, burst: int, turn: I.Turn, most: int)
    requires I.Usable(s) && turn.thread < |s.threads| && turn.now <= s.ring.headTime
    requires 0 <= s.ring.total <= most
    requires Explained(s.threads[turn.thread], |s.threads|, most, most - s.limit, burst) && ThreadOk(s.threads[turn.thread], s)
    requires most > s.limit && s.threads[turn.thread].pc.Over? ==> burst <= s.burst + (most - s.limit) * (|s.threads| - 1)
    ensures Explained(I.Step(s, turn).threads[turn.thread], |s.threads|, most, most - s.limit, burst)
  {
    var n, price := |s.threads|, most - s.limit;
    assert price * (n - 1) + price == n * price;
  }

  lemma {:induction false} FrugalRun(s: I.Shared, start: Ring, burst: int, turns: seq<I.Turn>)
    requires Frugal(s, start, burst) && OneSecond(turns, start.headTime)
    ensures Frugal(I.Run(s, turns), start, burst)
    decreases turns
  {
    if turns != [] {
      assert turns[0].now <= start.headTime;
      FrugalStep(s, start, burst, turns[0]);
      FrugalRun(I.Step(s, turns[0]), start, burst, turns[1..]);
    }
  }

  lemma InitialFrugal(s: I.Shared)
    requires I.Initial(s) && AllLawful(s.threads) && NoRecords(s.threads) && s.ring.total >= 0
    ensures Frugal(s, s.ring, s.burst)
  {
    I.MeasureZero(s.threads, I.Held);
    assert s.ring == Raised(s.ring, 0);
    InitialSafe(s);
    var most := s.ring.total + I.Measure(s.threads, I.Asked);
    forall i | 0 <= i < |s.threads| ensures Explained(s.threads[i], |s.threads|, most, most - s.limit, s.burst) {
      assert s.threads[i].pc == I.Start;
    }
  }

  /** Some schedule within one second denies somebody. */
  ghost predicate CanDeny(s: I.Shared)
    requires I.Usable(s)
  {
    exists turns, i :: OneSecond(turns, s.ring.headTime) && 0 <= i < |s.threads| && I.Run(s, turns).threads[i].pc.Denied?
  }

  lemma CrowdDenies(s: I.Shared)
    requires I.Initial(s) && AllLawful(s.threads) && s.ring.total >= 0
    requires
      var over := s.ring.total + I.Measure(s.threads, I.Asked) - s.limit;
      over > 0 && |s.threads| * over > s.burst
    ensures CanDeny(s)
  {
    var over := s.ring.total + I.Measure(s.threads, I.Asked) - s.limit;
    var turns := CrowdedRun(s);
    var r := I.Run(s, turns);
    CountAtMost(r.threads);
    CountShort(r.threads);
    assert over * |s.threads| == |s.threads| * over;
    var i :| 0 <= i < |r.threads| && !I.HasGrant(r.threads[i].pc);
    assert Answered(r.threads[i].pc);
  }

  /** The exact rule for a spurious denial: with only Reserves running, somebody can be denied if and
  only if the crowd overshoots the limit and n times that overshoot exceeds the burst allowance,
  whether or not the crowd would have fitted one after the other. */
  lemma SpuriousDenial(s: I.Shared)
    requires I.Initial(s) && AllLawful(s.threads) && NoRecords(s.threads) && s.ring.total >= 0
    ensures
      var over := s.ring.total + I.Measure(s.threads, I.Asked) - s.limit;
      CanDeny(s) <==> over > 0 && |s.threads| * over > s.burst
  {
    var over := s.ring.total + I.Measure(s.threads, I.Asked) - s.limit;
    if over > 0 && |s.threads| * over > s.burst {
      CrowdDenies(s);
    }
    if CanDeny(s) {
      var turns, i :| OneSecond(turns, s.ring.headTime) && 0 <= i < |s.threads| && I.Run(s, turns).threads[i].pc.Denied?;
      InitialFrugal(s);
      FrugalRun(s, s.ring, s.burst, turns);
      AskedKept(s, turns);
      var r := I.Run(s, turns);
      assert Explained(r.threads[i], |r.threads|, over + s.limit, over, s.burst);
    }
  }
}
