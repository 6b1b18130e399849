/** Requests that go upstream with nothing reserved because they got in each other's way: a denied
Reserve whose status, read after the undo, is within the limit again. */
module Unreserved {
  import opened Ring
  import opened Accounts
  import opened Configs
  import opened Enforce
  import I = Interleaving
  import opened BurstCounter
  import opened Admission
  import opened SoloRuns
  import opened Crowding

  /** Denied, with a status the decider lets through. */
  predicate Slipped(pc: I.Pc, limit: int) {
    pc.Denied? && pc.used <= limit
  }

  /** The decider lets a denied request through exactly then, whatever the policy. */
  lemma SlippedIsAllowed(pol: Policy, used: int, limit: int, burst: int)
    ensures Evaluate(pol, BudgetStatus(used, limit, burst)).action == Allow <==> Slipped(I.Denied(used), limit)
  {
  }

  // ---- Choosing requests ----

  function Ones(mask: seq<bool>): nat {
    if mask == [] then 0 else (if mask[0] then 1 else 0) + Ones(mask[1..])
  }

  /** What the chosen requests ask for together. */
  function Picked(ts: seq<I.Thread>, mask: seq<bool>): int
    requires |mask| == |ts|
  {
    if ts == [] then 0 else (if mask[0] then ts[0].estimate else 0) + Picked(ts[1..], mask[1..])
  }

  predicate SameEstimates(a: seq<I.Thread>, b: seq<I.Thread>) {
    |a| == |b| && forall i :: 0 <= i < |a| ==> a[i].estimate == b[i].estimate
  }

  lemma {:induction false} PickedKept(a: seq<I.Thread>, b: seq<I.Thread>, mask: seq<bool>)
    requires SameEstimates(a, b) && |mask| == |a|
    ensures Picked(a, mask) == Picked(b, mask)
  {
    if a != [] {
      PickedKept(a[1..], b[1..], mask[1..]);
    }
  }

  lemma {:induction false} PickedNone(ts: seq<I.Thread>, mask: seq<bool>)
    requires |mask| == |ts| && Ones(mask) == 0
    ensures Picked(ts, mask) == 0 && forall i :: 0 <= i < |mask| ==> !mask[i]
  {
    if ts != [] {
      PickedNone(ts[1..], mask[1..]);
    }
  }

  lemma {:induction false} SomebodyLeft(mask: seq<bool>)
    requires Ones(mask) < |mask|
    ensures exists i :: 0 <= i < |mask| && !mask[i]
  {
    if mask[0] {
      SomebodyLeft(mask[1..]);
      var i :| 0 <= i < |mask| - 1 && !mask[1..][i];
      assert !mask[i + 1];
    }
  }

  /** What chosen requests hold, when only they hold anything. */
  lemma {:induction false} HeldIsPicked(ts: seq<I.Thread>, mask: seq<bool>)
    requires |mask| == |ts|
    requires forall i :: 0 <= i < |ts| ==> I.Holding(ts[i]) == if mask[i] then ts[i].estimate else 0
    ensures I.Measure(ts, I.Held) == Picked(ts, mask)
  {
    if ts != [] {
      HeldIsPicked(ts[1..], mask[1..]);
    }
  }

  /** `k` of the requests fit under the limit by themselves. */
  ghost predicate SomeFit(ts: seq<I.Thread>, total: int, limit: int, k: nat) {
    exists mask :: |mask| == |ts| && Ones(mask) == k && total + Picked(ts, mask) <= limit
  }

  lemma SomeFitKept(a: seq<I.Thread>, b: seq<I.Thread>, total: int, limit: int, k: nat)
    requires SameEstimates(a, b) && SomeFit(a, total, limit, k)
    ensures SomeFit(b, total, limit, k)
  {
    var mask :| |mask| == |a| && Ones(mask) == k && total + Picked(a, mask) <= limit;
    PickedKept(a, b, mask);
  }

  /** Any k of the admitted requests. */
  lemma {:induction false} KAdmitted(ts: seq<I.Thread>, k: nat) returns (mask: seq<bool>)
    requires AllReserve(ts) && AllLawful(ts) && k <= I.Measure(ts, I.Count)
    ensures |mask| == |ts| && Ones(mask) == k && Picked(ts, mask) <= I.Measure(ts, I.Granted)
  {
    if ts == [] {
      mask := [];
    } else {
      assert Lawful(ts[0]) && OnlyReserves(ts[0]);
      var take := I.HasGrant(ts[0].pc) && k > 0;
      CountAtMost(ts[1..]);
      var rest := KAdmitted(ts[1..], if take then k - 1 else k);
      mask := [take] + rest;
      assert mask[1..] == rest;
    }
  }

  // ---- The schedule ----

  /** Where a request stands in the retreat: the chosen are in; the others have read the crowd's total
  (2), been refused (3), undone their estimate (4), and read their status (5). */
  predicate Withdrawing(t: I.Thread, chosen: bool, round: nat, seen: int, base: int) {
    if chosen then t.pc.Admitted? && t.delta.None?
    else match round
      case 2 => t.pc.Over? && t.pc.seen == seen
      case 3 => t.pc.Undoing?
      case 4 => t.pc.Undone?
      case _ => t.pc == I.Denied(base)
  }

  predicate Retreat(s: I.Shared, start: Ring, mask: seq<bool>, seen: int, base: nat, round: nat, done: nat) {
    && Conserved(s, start) && |mask| == |s.threads| && done <= |s.threads| && 2 <= round <= 4
    && s.burst < seen - s.limit && base == start.total + Picked(s.threads, mask)
    && forall i :: 0 <= i < |s.threads| ==>
         Withdrawing(s.threads[i], mask[i], if i < done then round + 1 else round, seen, base)
  }

  lemma RetreatHolds(s: I.Shared, start: Ring, mask: seq<bool>, seen: int, base: nat, done: nat)
    requires Retreat(s, start, mask, seen, base, 4, done)
    ensures s.ring.total == base
  {
    forall i | 0 <= i < |s.threads| ensures I.Holding(s.threads[i]) == if mask[i] then s.threads[i].estimate else 0 {
      assert Withdrawing(s.threads[i], mask[i], if i < done then 5 else 4, seen, base);
    }
    HeldIsPicked(s.threads, mask);
  }

  lemma RetreatTurn(s: I.Shared, turn: I.Turn, chosen: bool, round: nat, seen: int, base: nat)
    requires I.Usable(s) && turn.thread < |s.threads| && turn.now <= s.ring.headTime && 2 <= round <= 4
    requires Withdrawing(s.threads[turn.thread], chosen, round, seen, base) && s.burst < seen - s.limit
    requires round == 4 ==> s.ring.total == base
    ensures I.Step(s, turn).burst == s.burst
    ensures Withdrawing(I.Step(s, turn).threads[turn.thread], chosen, round + 1, seen, base)
  {
  }

  lemma RetreatOne(s: I.Shared, start: Ring, mask: seq<bool>, seen: int, base: nat, round: nat, done: nat)
    requires Retreat(s, start, mask, seen, base, round, done) && done < |s.threads|
    ensures Retreat(I.Step(s, I.Turn(done, start.headTime)), start, mask, seen, base, round, done + 1)
  {
    var turn := I.Turn(done, start.headTime);
    var s' := I.Step(s, turn);
    StepConserved(s, start, turn);
    I.StepMeasure(s, turn, I.Held);
    StepMovesHolding(s, turn);
    PickedKept(s.threads, s'.threads, mask);
    if round == 4 {
      RetreatHolds(s, start, mask, seen, base, done);
    }
    assert Withdrawing(s.threads[done], mask[done], round, seen, base);
    RetreatTurn(s, turn, mask[done], round, seen, base);
  }

  lemma {:induction false} RetreatRound(s: I.Shared, start: Ring, mask: seq<bool>, seen: int, base: nat, round: nat, done: nat)
    returns (turns: seq<I.Turn>)
    requires Retreat(s, start, mask, seen, base, round, done)
    ensures OneSecond(turns, start.headTime)
    ensures Retreat(I.Run(s, turns), start, mask, seen, base, round, |s.threads|)
    decreases |s.threads| - done
  {
    if done == |s.threads| {
      turns := [];
    } else {
      var turn := I.Turn(done, start.headTime);
      RetreatOne(s, start, mask, seen, base, round, done);
      var rest := RetreatRound(I.Step(s, turn), start, mask, seen, base, round, done + 1);
      turns := [turn] + rest;
      assert turns[1..] == rest;
    }
  }

  /** All three rounds: everyone refused, then everyone undone, and only then the status reads. */
  lemma {:induction false} RetreatAll(s: I.Shared, start: Ring, mask: seq<bool>, seen: int, base: nat, round: nat)
    returns (turns: seq<I.Turn>)
    requires Retreat(s, start, mask, seen, base, round, 0)
    ensures OneSecond(turns, start.headTime)
    ensures Retreat(I.Run(s, turns), start, mask, seen, base, 4, |s.threads|)
    decreases 4 - round
  {
    turns := RetreatRound(s, start, mask, seen, base, round, 0);
    if round < 4 {
      var mid := I.Run(s, turns);
      assert Retreat(mid, start, mask, seen, base, round + 1, 0);
      var rest := RetreatAll(mid, start, mask, seen, base, round + 1);
      I.RunAppend(s, turns, rest);
      turns := turns + rest;
    }
  }

  lemma RetreatEnds(s: I.Shared, start: Ring, mask: seq<bool>, seen: int, base: nat)
    requires Retreat(s, start, mask, seen, base, 4, |s.threads|)
    ensures forall i :: 0 <= i < |s.threads| && !mask[i] ==> s.threads[i].pc == I.Denied(base)
  {
    forall i | 0 <= i < |s.threads| && !mask[i] ensures s.threads[i].pc == I.Denied(base) {
      assert Withdrawing(s.threads[i], mask[i], 5, seen, base);
    }
  }

  // ---- Everybody slips through ----

  /** Some schedule within one second leaves every request denied and let through. */
  ghost predicate AllCanSlip(s: I.Shared)
    requires I.Usable(s)
  {
    exists turns :: OneSecond(turns, s.ring.headTime) && AllSlipped(I.Run(s, turns))
  }

  predicate AllSlipped(s: I.Shared) {
    forall i :: 0 <= i < |s.threads| ==> Slipped(s.threads[i].pc, s.limit)
  }

  lemma {:induction false} NoOnes(n: nat) returns (mask: seq<bool>)
    ensures |mask| == n && Ones(mask) == 0
  {
    if n == 0 {
      mask := [];
    } else {
      var rest := NoOnes(n - 1);
      mask := [false] + rest;
      assert mask[1..] == rest;
    }
  }

  lemma CrowdSlips(s: I.Shared)
    requires I.Initial(s) && AllLawful(s.threads) && 0 <= s.ring.total <= s.limit
    requires s.ring.total + I.Measure(s.threads, I.Asked) > s.limit + s.burst
    ensures AllCanSlip(s)
  {
    var seen := s.ring.total + I.Measure(s.threads, I.Asked);
    var crowd := EveryoneReads(s);
    var mid := I.Run(s, crowd);
    var mask := NoOnes(|s.threads|);
    PickedNone(mid.threads, mask);
    forall i | 0 <= i < |mid.threads| ensures Withdrawing(mid.threads[i], mask[i], 2, seen, s.ring.total) {
      assert Passed(mid.threads[i].pc, 2, seen, s.limit);
    }
    var rest := RetreatAll(mid, s.ring, mask, seen, s.ring.total, 2);
    RetreatEnds(I.Run(mid, rest), s.ring, mask, seen, s.ring.total);
    I.RunAppend(s, crowd, rest);
    assert AllSlipped(I.Run(s, crowd + rest));
  }

  /** No status read shows less than the window started with. */
  predicate StatusesCover(s: I.Shared, base: int) {
    forall i :: 0 <= i < |s.threads| && s.threads[i].pc.Denied? ==> s.threads[i].pc.used >= base
  }

  lemma {:induction false} RunStatusesCover(s: I.Shared, start: Ring, turns: seq<I.Turn>)
    requires Conserved(s, start) && StatusesCover(s, start.total) && OneSecond(turns, start.headTime)
    ensures StatusesCover(I.Run(s, turns), start.total)
    decreases turns
  {
    if turns != [] {
      assert turns[0].now <= start.headTime;
      StepConserved(s, start, turns[0]);
      StepStatusesCover(s, start, turns[0]);
      RunStatusesCover(I.Step(s, turns[0]), start, turns[1..]);
    }
  }

  lemma StepStatusesCover(s: I.Shared, start: Ring, turn: I.Turn)
    requires Conserved(s, start) && StatusesCover(s, start.total) && turn.now <= start.headTime
    ensures StatusesCover(I.Step(s, turn), start.total)
  {
    HeldNonNegative(s.threads);
  }

  /** Any number of concurrent requests can all go upstream with nothing reserved if and only if
  together they exceed limit and burst while the window itself is still within the limit. */
  lemma EverybodySlips(s: I.Shared)
    requires I.Initial(s) && AllLawful(s.threads) && s.ring.total >= 0 && |s.threads| >= 1
    ensures AllCanSlip(s) <==>
              s.ring.total <= s.limit && s.ring.total + I.Measure(s.threads, I.Asked) > s.limit + s.burst
  {
    if s.ring.total <= s.limit && s.ring.total + I.Measure(s.threads, I.Asked) > s.limit + s.burst {
      CrowdSlips(s);
    }
    if AllCanSlip(s) {
      var turns :| OneSecond(turns, s.ring.headTime) && AllSlipped(I.Run(s, turns));
      var r := I.Run(s, turns);
      assert AllDenied(r);
      MutualDenial(s);
      I.MeasureZero(s.threads, I.Held);
      assert s.ring == Raised(s.ring, 0);
      RunStatusesCover(s, s.ring, turns);
      assert Slipped(r.threads[0].pc, r.limit);
    }
  }

  // ---- Somebody slips through ----

  /** The chosen among the first `done` have paid; everybody else has read the crowd's total. */
  predicate Paying(s: I.Shared, start: Ring, mask: seq<bool>, seen: int, done: nat) {
    && Conserved(s, start) && |mask| == |s.threads| && done <= |s.threads| && seen > s.limit
    && s.burst >= Bill(mask[done..], seen - s.limit)
    && forall i :: 0 <= i < |s.threads| ==> Withdrawing(s.threads[i], mask[i] && i < done, 2, seen, 0) && s.threads[i].delta.None?
  }

  lemma PayOne(s: I.Shared, start: Ring, mask: seq<bool>, seen: int, done: nat) returns (turns: seq<I.Turn>)
    requires Paying(s, start, mask, seen, done) && done < |s.threads| && mask[done]
    ensures OneSecond(turns, start.headTime) && Paying(I.Run(s, turns), start, mask, seen, done + 1)
    ensures I.Run(s, turns).burst == s.burst - (seen - s.limit)
  {
    var t := I.Turn(done, start.headTime);
    assert Withdrawing(s.threads[done], false, 2, seen, 0);
    BillFrom(mask, done, seen - s.limit);
    turns := [t, t];
    RunTwo(s, turns);
    assert turns[2..] == [];
    RunConserved(s, start, turns);
    var r := I.Run(s, turns);
    assert r.threads[done].pc.Admitted? && r.threads[done].delta.None?;
    assert forall i :: 0 <= i < |s.threads| && i != done ==> r.threads[i] == s.threads[i];
  }

  /** What the chosen pay together. */
  function Bill(mask: seq<bool>, price: int): int {
    if mask == [] then 0 else (if mask[0] then price else 0) + Bill(mask[1..], price)
  }

  lemma {:induction false} BillIsProduct(mask: seq<bool>, price: nat)
    ensures 0 <= Bill(mask, price) == price * Ones(mask)
  {
    if mask != [] {
      BillIsProduct(mask[1..], price);
      assert price * (1 + Ones(mask[1..])) == price + price * Ones(mask[1..]);
    }
  }

  lemma BillFrom(mask: seq<bool>, done: nat, price: nat)
    requires done < |mask|
    ensures Bill(mask[done..], price) == (if mask[done] then price else 0) + Bill(mask[done + 1..], price)
    ensures Bill(mask[done + 1..], price) >= 0
  {
    assert mask[done..][1..] == mask[done + 1..];
    BillIsProduct(mask[done + 1..], price);
  }

  lemma PayNext(s: I.Shared, start: Ring, mask: seq<bool>, seen: int, done: nat) returns (turns: seq<I.Turn>)
    requires Paying(s, start, mask, seen, done) && done < |s.threads|
    ensures OneSecond(turns, start.headTime) && Paying(I.Run(s, turns), start, mask, seen, done + 1)
    ensures I.Run(s, turns).burst == s.burst - if mask[done] then seen - s.limit else 0
  {
    if mask[done] {
      turns := PayOne(s, start, mask, seen, done);
    } else {
      turns := [];
      BillFrom(mask, done, seen - s.limit);
    }
  }

  lemma {:induction false} PayAll(s: I.Shared, start: Ring, mask: seq<bool>, seen: int, done: nat) returns (turns: seq<I.Turn>)
    requires Paying(s, start, mask, seen, done)
    ensures OneSecond(turns, start.headTime) && Paying(I.Run(s, turns), start, mask, seen, |s.threads|)
    ensures I.Run(s, turns).burst == s.burst - Bill(mask[done..], seen - s.limit)
    decreases |s.threads| - done
  {
    if done == |s.threads| {
      turns := [];
    } else {
      BillFrom(mask, done, seen - s.limit);
      turns := PayNext(s, start, mask, seen, done);
      var rest := PayAll(I.Run(s, turns), start, mask, seen, done + 1);
      I.RunAppend(s, turns, rest);
      turns := turns + rest;
    }
  }

  /** Some schedule within one second leaves a request denied and let through. */
  ghost predicate CanSlip(s: I.Shared)
    requires I.Usable(s)
  {
    exists turns, i :: OneSecond(turns, s.ring.headTime) && 0 <= i < |s.threads| && Slipped(I.Run(s, turns).threads[i].pc, s.limit)
  }

  lemma {:induction false} RunKeepsRequests(s: I.Shared, turns: seq<I.Turn>)
    requires I.Usable(s)
    ensures
      var r := I.Run(s, turns);
      SameEstimates(s.threads, r.threads) && forall i :: 0 <= i < |s.threads| ==> r.threads[i].delta == s.threads[i].delta
    decreases turns
  {
    if turns != [] {
      StepKeepsRequests(s, turns[0]);
      RunKeepsRequests(I.Step(s, turns[0]), turns[1..]);
    }
  }

  lemma StepKeepsRequests(s: I.Shared, turn: I.Turn)
    requires I.Usable(s)
    ensures
      var r := I.Step(s, turn);
      SameEstimates(s.threads, r.threads) && forall i :: 0 <= i < |s.threads| ==> r.threads[i].delta == s.threads[i].delta
  {
    if turn.thread < |s.threads| {
      StepMovesHolding(s, turn);
      I.StepMeasure(s, turn, I.Held);
    }
  }

  lemma {:induction false} PickedNonNegative(ts: seq<I.Thread>, mask: seq<bool>)
    requires |mask| == |ts| && AllLawful(ts)
    ensures Picked(ts, mask) >= 0
  {
    if ts != [] {
      assert Lawful(ts[0]);
      PickedNonNegative(ts[1..], mask[1..]);
    }
  }

  lemma ReadyToPay(s: I.Shared, mid: I.Shared, mask: seq<bool>)
    requires LockStep(mid, s.ring, 1, |mid.threads|) && |mask| == |mid.threads| && NoRecords(mid.threads)
    requires
      var price := s.ring.total + I.Measure(mid.threads, I.Asked) - mid.limit;
      price > 0 && price * Ones(mask) <= mid.burst
    ensures Paying(mid, s.ring, mask, s.ring.total + I.Measure(mid.threads, I.Asked), 0)
  {
    var seen := s.ring.total + I.Measure(mid.threads, I.Asked);
    assert mask[0..] == mask;
    BillIsProduct(mask, seen - mid.limit);
    forall i | 0 <= i < |mid.threads| ensures Withdrawing(mid.threads[i], false, 2, seen, 0) {
      assert Passed(mid.threads[i].pc, 2, seen, mid.limit);
    }
  }

  lemma ReadyToRetreat(s: I.Shared, paid: I.Shared, mask: seq<bool>, seen: int, base: nat)
    requires Paying(paid, s.ring, mask, seen, |paid.threads|) && paid.burst < seen - paid.limit
    requires SameEstimates(s.threads, paid.threads) && base == s.ring.total + Picked(s.threads, mask)
    ensures Retreat(paid, s.ring, mask, seen, base, 2, 0)
  {
    PickedKept(s.threads, paid.threads, mask);
    forall i | 0 <= i < |paid.threads| ensures Withdrawing(paid.threads[i], mask[i], 2, seen, base) {
      assert Withdrawing(paid.threads[i], mask[i] && i < |paid.threads|, 2, seen, 0);
    }
  }

  lemma PayAndRetreat(s: I.Shared, mid: I.Shared, mask: seq<bool>, seen: int, base: nat) returns (turns: seq<I.Turn>)
    requires Paying(mid, s.ring, mask, seen, 0) && mid.burst < (seen - mid.limit) * Ones(mask) + (seen - mid.limit)
    requires SameEstimates(s.threads, mid.threads) && base == s.ring.total + Picked(s.threads, mask)
    ensures OneSecond(turns, s.ring.headTime)
    ensures forall i :: 0 <= i < |mid.threads| && !mask[i] ==> I.Run(mid, turns).threads[i].pc == I.Denied(base)
  {
    assert mask[0..] == mask;
    BillIsProduct(mask, seen - mid.limit);
    turns := PayAll(mid, s.ring, mask, seen, 0);
    RunKeepsRequests(mid, turns);
    var paid := I.Run(mid, turns);
    ReadyToRetreat(s, paid, mask, seen, base);
    var rest := RetreatAll(paid, s.ring, mask, seen, base, 2);
    RetreatEnds(I.Run(paid, rest), s.ring, mask, seen, base);
    I.RunAppend(mid, turns, rest);
    turns := turns + rest;
  }

  /** As many requests as the burst allowance pays for get in; all the others slip through. */
  lemma OthersSlip(s: I.Shared, mask: seq<bool>) returns (turns: seq<I.Turn>)
    requires I.Initial(s) && AllLawful(s.threads) && NoRecords(s.threads) && s.ring.total >= 0
    requires |mask| == |s.threads| && s.ring.total + Picked(s.threads, mask) <= s.limit
    requires
      var over := s.ring.total + I.Measure(s.threads, I.Asked) - s.limit;
      over > 0 && over * Ones(mask) <= s.burst < over * Ones(mask) + over
    ensures OneSecond(turns, s.ring.headTime)
    ensures forall i :: 0 <= i < |s.threads| && !mask[i] ==> Slipped(I.Run(s, turns).threads[i].pc, s.limit)
  {
    turns := EveryoneReads(s);
    var mid := I.Run(s, turns);
    RunKeepsRequests(s, turns);
    ReadyToPay(s, mid, mask);
    PickedNonNegative(s.threads, mask);
    var seen, base := s.ring.total + I.Measure(mid.threads, I.Asked), s.ring.total + Picked(s.threads, mask);
    var rest := PayAndRetreat(s, mid, mask, seen, base);
    I.RunAppend(s, turns, rest);
    turns := turns + rest;
  }

  /** A refused request has seen the others spend the burst down below the crowd's overshoot, and one
  that slipped through has seen enough of them fit under the limit. */
  ghost predicate Witnessed(pc: I.Pc, ts: seq<I.Thread>, total: int, limit: int, burst: nat, price: int) {
    && (Refused(pc) ==> price > 0 && burst < price * (I.Measure(ts, I.Count) + 1))
    && (Slipped(pc, limit) ==> price > 0 && SomeFit(ts, total, limit, burst / price))
  }

  ghost predicate AllWitnessed(s: I.Shared, start: Ring, burst: nat, price: int) {
    forall i :: 0 <= i < |s.threads| ==> Witnessed(s.threads[i].pc, s.threads, start.total, s.limit, burst, price)
  }

  /** The burst spent so far, by the number admitted. */
  lemma SpentByCount(s: I.Shared, start: Ring, burst: int)
    requires Frugal(s, start, burst)
    ensures
      var price := start.total + I.Measure(s.threads, I.Asked) - s.limit;
      price > 0 ==> burst <= s.burst + price * I.Measure(s.threads, I.Count)
  {
    var most := start.total + I.Measure(s.threads, I.Asked);
    FrugalIsModest(s, start, burst);
    if most > s.limit {
      forall k | 0 <= k < |s.threads|
        ensures I.Weigh(s.threads[k], I.Spent) <= (most - s.limit) * I.Weigh(s.threads[k], I.Count)
        ensures I.Weigh(s.threads[k], I.Credited) == 0
      {
        assert Modest(s.threads[k], most, most - s.limit);
      }
      SpentAtPrice(s.threads, most - s.limit);
      I.MeasureZero(s.threads, I.Credited);
    }
  }

  lemma QuotientAtMost(burst: nat, price: int, count: nat)
    requires price > 0 && burst < price * (count + 1)
    ensures burst / price <= count
  {
    var q := burst / price;
    assert burst == price * q + burst % price;
    if q > count {
      TimesAtMost(price, count + 1, q);
    }
  }

  lemma StepWitnessed(s: I.Shared, start: Ring, burst: nat, turn: I.Turn)
    requires Frugal(s, start, burst) && turn.now <= start.headTime
    requires AllWitnessed(s, start, burst, start.total + I.Measure(s.threads, I.Asked) - s.limit)
    ensures AllWitnessed(I.Step(s, turn), start, burst, start.total + I.Measure(s.threads, I.Asked) - s.limit)
  {
    if turn.thread < |s.threads| {
      var s', price := I.Step(s, turn), start.total + I.Measure(s.threads, I.Asked) - s.limit;
      forall i | 0 <= i < |s.threads| ensures Witnessed(s'.threads[i].pc, s'.threads, start.total, s.limit, burst, price) {
        assert Witnessed(s.threads[i].pc, s.threads, start.total, s.limit, burst, price);
        if i == turn.thread && !Refused(s.threads[i].pc) {
          NewlyRefused(s, start, burst, turn);
        } else if i == turn.thread && s.threads[i].pc.Undone? {
          NewlySlipped(s, start, burst, turn);
        } else {
          StillWitnessed(s, start, burst, turn, i);
        }
      }
    }
  }

  /** Admissions are never taken back. */
  lemma CountGrows(s: I.Shared, turn: I.Turn)
    requires I.Usable(s) && turn.thread < |s.threads|
    ensures I.Measure(I.Step(s, turn).threads, I.Count) >= I.Measure(s.threads, I.Count)
  {
    I.StepMeasure(s, turn, I.Count);
  }

  lemma NewlyRefused(s: I.Shared, start: Ring, burst: nat, turn: I.Turn)
    requires Frugal(s, start, burst) && turn.thread < |s.threads| && !Refused(s.threads[turn.thread].pc)
    ensures
      var price := start.total + I.Measure(s.threads, I.Asked) - s.limit;
      var s' := I.Step(s, turn);
      Witnessed(s'.threads[turn.thread].pc, s'.threads, start.total, s.limit, burst, price)
  {
    var t, most := s.threads[turn.thread], start.total + I.Measure(s.threads, I.Asked);
    if Refused(I.Step(s, turn).threads[turn.thread].pc) {
      FrugalIsModest(s, start, burst);
      assert Modest(t, most, most - s.limit) && ThreadOk(t, s);
      SpentByCount(s, start, burst);
      I.StepMeasure(s, turn, I.Count);
      var price, count := most - s.limit, I.Measure(s.threads, I.Count);
      assert price * (count + 1) == price * count + price;
    }
  }

  lemma EnoughFit(s: I.Shared, start: Ring, burst: nat, price: int)
    requires Frugal(s, start, burst) && s.ring.total <= s.limit
    requires price > 0 && burst < price * (I.Measure(s.threads, I.Count) + 1)
    ensures SomeFit(s.threads, start.total, s.limit, burst / price)
  {
    GrantedWithinTotal(s, start, burst);
    CountAtMost(s.threads);
    QuotientAtMost(burst, price, I.Measure(s.threads, I.Count));
    var mask := KAdmitted(s.threads, burst / price);
  }

  lemma NewlySlipped(s: I.Shared, start: Ring, burst: nat, turn: I.Turn)
    requires Frugal(s, start, burst) && turn.thread < |s.threads| && turn.now <= start.headTime
    requires s.threads[turn.thread].pc.Undone?
    requires Witnessed(s.threads[turn.thread].pc, s.threads, start.total, s.limit, burst,
                       start.total + I.Measure(s.threads, I.Asked) - s.limit)
    ensures
      var price := start.total + I.Measure(s.threads, I.Asked) - s.limit;
      var s' := I.Step(s, turn);
      Witnessed(s'.threads[turn.thread].pc, s'.threads, start.total, s.limit, burst, price)
  {
    var s', price := I.Step(s, turn), start.total + I.Measure(s.threads, I.Asked) - s.limit;
    I.StepMeasure(s, turn, I.Count);
    if Slipped(s'.threads[turn.thread].pc, s.limit) {
      EnoughFit(s, start, burst, price);
      StepKeepsRequests(s, turn);
      SomeFitKept(s.threads, s'.threads, start.total, s.limit, burst / price);
    }
  }

  lemma GrantedWithinTotal(s: I.Shared, start: Ring, burst: nat)
    requires Frugal(s, start, burst)
    ensures AllReserve(s.threads) && start.total + I.Measure(s.threads, I.Granted) <= s.ring.total
  {
    FrugalIsModest(s, start, burst);
    forall i | 0 <= i < |s.threads| ensures I.Weigh(s.threads[i], I.Granted) <= I.Weigh(s.threads[i], I.Held) {
      assert Lawful(s.threads[i]);
    }
    I.MeasureLe(s.threads, I.Granted, I.Held);
  }

  lemma StillWitnessed(s: I.Shared, start: Ring, burst: nat, turn: I.Turn, i: nat)
    requires Frugal(s, start, burst) && turn.thread < |s.threads| && i < |s.threads|
    requires i == turn.thread ==> Refused(s.threads[i].pc) && !s.threads[i].pc.Undone?
    requires Witnessed(s.threads[i].pc, s.threads, start.total, s.limit, burst,
                       start.total + I.Measure(s.threads, I.Asked) - s.limit)
    ensures
      var price := start.total + I.Measure(s.threads, I.Asked) - s.limit;
      var s' := I.Step(s, turn);
      Witnessed(s'.threads[i].pc, s'.threads, start.total, s.limit, burst, price)
  {
    var s', price := I.Step(s, turn), start.total + I.Measure(s.threads, I.Asked) - s.limit;
    CountGrows(s, turn);
    StepKeepsRequests(s, turn);
    I.StepMeasure(s, turn, I.Count);
    WitnessKept(s.threads[i].pc, s'.threads[i].pc, s.threads, s'.threads, start.total, s.limit, burst, price);
  }

  lemma WitnessKept(pc: I.Pc, pc': I.Pc, a: seq<I.Thread>, b: seq<I.Thread>, total: int, limit: int, burst: nat, price: int)
    requires Witnessed(pc, a, total, limit, burst, price) && SameEstimates(a, b)
    requires I.Measure(a, I.Count) <= I.Measure(b, I.Count)
    requires (Refused(pc') ==> Refused(pc)) && (Slipped(pc', limit) ==> Slipped(pc, limit))
    ensures Witnessed(pc', b, total, limit, burst, price)
  {
    if Refused(pc') {
      TimesAtMost(price, I.Measure(a, I.Count) + 1, I.Measure(b, I.Count) + 1);
    }
    if Slipped(pc', limit) {
      SomeFitKept(a, b, total, limit, burst / price);
    }
  }

  lemma {:induction false} RunWitnessed(s: I.Shared, start: Ring, burst: nat, price: int, turns: seq<I.Turn>)
    requires Frugal(s, start, burst) && OneSecond(turns, start.headTime)
    requires price == start.total + I.Measure(s.threads, I.Asked) - s.limit && AllWitnessed(s, start, burst, price)
    ensures AllWitnessed(I.Run(s, turns), start, burst, price)
    decreases turns
  {
    if turns != [] {
      assert turns[0].now <= start.headTime;
      StepWitnessed(s, start, burst, turns[0]);
      FrugalStep(s, start, burst, turns[0]);
      if turns[0].thread < |s.threads| {
        I.StepMeasure(s, turns[0], I.Asked);
      }
      RunWitnessed(I.Step(s, turns[0]), start, burst, price, turns[1..]);
    }
  }

  /** Some schedule lets a request through with nothing reserved if and only if the crowd overshoots
  the limit, the burst allowance does not pay that overshoot for everybody, and as many requests as it
  does pay for fit under the limit by themselves. */
  lemma SomebodySlips(s: I.Shared)
    requires I.Initial(s) && AllLawful(s.threads) && NoRecords(s.threads) && s.ring.total >= 0
    ensures
      var over := s.ring.total + I.Measure(s.threads, I.Asked) - s.limit;
      CanSlip(s) <==> over > 0 && |s.threads| * over > s.burst && SomeFit(s.threads, s.ring.total, s.limit, s.burst / over)
  {
    var over := s.ring.total + I.Measure(s.threads, I.Asked) - s.limit;
    if over > 0 && |s.threads| * over > s.burst && SomeFit(s.threads, s.ring.total, s.limit, s.burst / over) {
      PaidOnesLetOthersSlip(s, over);
    }
    if CanSlip(s) {
      SlippedNeedsFit(s, over);
    }
  }

  lemma PaidOnesLetOthersSlip(s: I.Shared, over: int)
    requires I.Initial(s) && AllLawful(s.threads) && NoRecords(s.threads) && s.ring.total >= 0
    requires over == s.ring.total + I.Measure(s.threads, I.Asked) - s.limit
    requires over > 0 && |s.threads| * over > s.burst && SomeFit(s.threads, s.ring.total, s.limit, s.burst / over)
    ensures CanSlip(s)
  {
    var k, n := s.burst / over, |s.threads|;
    var mask :| |mask| == n && Ones(mask) == k && s.ring.total + Picked(s.threads, mask) <= s.limit;
    assert s.burst == over * k + s.burst % over;
    if k >= n {
      TimesAtMost(over, n, k);
    }
    var turns := OthersSlip(s, mask);
    SomebodyLeft(mask);
    var i :| 0 <= i < |mask| && !mask[i];
    assert Slipped(I.Run(s, turns).threads[i].pc, s.limit);
  }

  lemma SlippedNeedsFit(s: I.Shared, over: int)
    requires I.Initial(s) && AllLawful(s.threads) && NoRecords(s.threads) && s.ring.total >= 0
    requires over == s.ring.total + I.Measure(s.threads, I.Asked) - s.limit && CanSlip(s)
    ensures over > 0 && |s.threads| * over > s.burst && SomeFit(s.threads, s.ring.total, s.limit, s.burst / over)
  {
    var turns, i :| OneSecond(turns, s.ring.headTime) && 0 <= i < |s.threads| && Slipped(I.Run(s, turns).threads[i].pc, s.limit);
    var r := I.Run(s, turns);
    assert r.threads[i].pc.Denied?;
    SpuriousDenial(s);
    InitialFrugal(s);
    RunWitnessed(s, s.ring, s.burst, over, turns);
    assert Witnessed(r.threads[i].pc, r.threads, s.ring.total, s.limit, s.burst, over);
    RunKeepsRequests(s, turns);
    SomeFitKept(r.threads, s.threads, s.ring.total, s.limit, s.burst / over);
  }
}
