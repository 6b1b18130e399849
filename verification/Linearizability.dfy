/** When concurrent Reserves are linearizable, by how much of their answers is compared. */
module Linearizability {
  import opened Sums
  import opened Ring
  import opened Accounts
  import I = Interleaving
  import opened BurstCounter
  import opened Admission
  import opened SoloRuns
  import opened Crowding
  import opened Unreserved

  // ---- The reference: whole Reserves in some order ----

  function Answer(z: I.Shared, r: Reservation): I.Pc {
    if r.allowed then I.Admitted(I.Grant(r.status.used, 0, z.burst - r.after.burst)) else I.Denied(r.status.used)
  }

  /** The whole of request i's Reserve at once, unless it has had its turn. */
  function SerialStep(z: I.Shared, i: nat): (r: I.Shared)
    requires I.Usable(z)
    ensures I.Usable(r) && |r.threads| == |z.threads|
  {
    if i >= |z.threads| || !z.threads[i].pc.Start? then z else
    var r := Reserve(AccountOf(z), Still(z.ring.headTime), z.threads[i].estimate);
    I.At(z.(ring := r.after.ring, burst := r.after.burst), i, Answer(z, r))
  }

  function Serial(z: I.Shared, order: seq<nat>): (r: I.Shared)
    requires I.Usable(z)
    ensures I.Usable(r) && |r.threads| == |z.threads|
    decreases order
  {
    if order == [] then z else Serial(SerialStep(z, order[0]), order[1..])
  }

  /** Every request exactly once. */
  predicate IsOrder(order: seq<nat>, n: nat) {
    && (forall k :: 0 <= k < |order| ==> order[k] < n)
    && (forall i :: 0 <= i < n ==> i in order)
    && (forall j, k :: 0 <= j < k < |order| ==> order[j] != order[k])
  }

  /** How much of an answer counts: who is admitted; what the handler does with it (a denied request is
  let through or refused by the status it gets); the total a denied request is told; or the total
  anybody is told. */
  datatype View = Admissions | Decisions | Denials | Totals

  predicate SameAnswer(view: View, limit: int, a: I.Pc, b: I.Pc) {
    && (a.Admitted? <==> b.Admitted?)
    && match view
       case Admissions => true
       case Decisions => Slipped(a, limit) <==> Slipped(b, limit)
       case Denials => a.Denied? && b.Denied? ==> a.used == b.used
       case Totals => (a.Denied? && b.Denied? ==> a.used == b.used) && (a.Admitted? && b.Admitted? ==> a.grant.seen == b.grant.seen)
  }

  /** The same account and the same answers. */
  predicate Agrees(view: View, r: I.Shared, z: I.Shared) {
    && AccountOf(r) == AccountOf(z) && |r.threads| == |z.threads|
    && forall i :: 0 <= i < |r.threads| ==> SameAnswer(view, r.limit, r.threads[i].pc, z.threads[i].pc)
  }

  /** A schedule within the second after which every request has its answer. */
  ghost predicate Complete(s: I.Shared, turns: seq<I.Turn>)
    requires I.Usable(s)
  {
    OneSecond(turns, s.ring.headTime) && AllDone(I.Run(s, turns))
  }

  ghost predicate HasOrder(view: View, s: I.Shared, r: I.Shared)
    requires I.Usable(s)
  {
    exists order :: IsOrder(order, |s.threads|) && Agrees(view, r, Serial(s, order))
  }

  /** Every complete schedule gives the answers and the account of some order of whole Reserves. */
  ghost predicate Linearizable(view: View, s: I.Shared)
    requires I.Usable(s)
  {
    forall turns :: Complete(s, turns) ==> HasOrder(view, s, I.Run(s, turns))
  }

  /** All requests fit under the limit together. */
  predicate AllFit(s: I.Shared) {
    s.ring.total + I.Measure(s.threads, I.Asked) <= s.limit
  }

  /** Not even one fits under limit and burst. */
  predicate NoneFits(s: I.Shared) {
    forall i :: 0 <= i < |s.threads| ==> s.ring.total + s.threads[i].estimate > s.limit + s.burst
  }

  /** Nobody can get in anybody's way, as far as the view shows. */
  predicate Uncrowded(view: View, s: I.Shared) {
    || |s.threads| <= 1
    || match view
       case Admissions => AllFit(s) || NoneFits(s)
       case Decisions => AllFit(s) || (NoneFits(s) && s.ring.total > s.limit)
       case Denials => AllFit(s)
       case Totals => false
  }

  /** The systems the theorem is about: only Reserves, each of a positive estimate. */
  predicate OnlyRequests(s: I.Shared) {
    && I.Initial(s) && NoRecords(s.threads) && s.ring.total >= 0
    && forall i :: 0 <= i < |s.threads| ==> s.threads[i].estimate > 0
  }

  // ---- One whole Reserve ----

  /** Between whole Reserves: nobody is half way. */
  predicate Orderly(z: I.Shared, start: Ring, burst: int) {
    && Conserved(z, start) && Safe(z, burst) && AllReserve(z.threads) && z.limit >= 0
    && forall i :: 0 <= i < |z.threads| ==> z.threads[i].pc.Start? || Answered(z.threads[i].pc)
  }

  /** What the price of the next request is: the part of the new total above the limit. */
  function Price(z: I.Shared, i: nat): nat
    requires i < |z.threads|
  {
    Max(0, z.ring.total + z.threads[i].estimate - z.limit)
  }

  lemma ReserveRule(a: Account, estimate: int)
    requires Sound(a) && a.ring.total >= 0 && estimate >= 0
    ensures
      var r, after := Reserve(a, Still(a.ring.headTime), estimate), a.ring.total + estimate;
      && (r.allowed <==> after <= a.limit + a.burst)
      && r.after == (if r.allowed then a.(ring := Raised(a.ring, estimate), burst := a.burst - Max(0, after - a.limit)) else a)
      && r.status.used == if r.allowed then after else a.ring.total
  {
    DenialIsNoOp(a, a.ring.headTime, estimate);
  }

  lemma SerialRule(z: I.Shared, start: Ring, burst: int, i: nat)
    requires Orderly(z, start, burst) && i < |z.threads| && z.threads[i].pc.Start?
    ensures
      var z', t := SerialStep(z, i), z.threads[i];
      && z'.threads == z.threads[i := t.(pc := z'.threads[i].pc)] && z'.limit == z.limit
      && 0 <= z.ring.total == start.total + I.Measure(z.threads, I.Held)
      && (if z.ring.total + t.estimate <= z.limit + z.burst then
            && z'.ring == Raised(z.ring, t.estimate) && z'.burst == z.burst - Price(z, i)
            && z'.threads[i].pc == I.Admitted(I.Grant(z.ring.total + t.estimate, 0, Price(z, i)))
          else z'.ring == z.ring && z'.burst == z.burst && z'.threads[i].pc == I.Denied(z.ring.total))
  {
    HeldNonNegative(z.threads);
    assert Lawful(z.threads[i]);
    ReserveRule(AccountOf(z), z.threads[i].estimate);
  }

  lemma SerialStepOrderly(z: I.Shared, start: Ring, burst: int, i: nat)
    requires Orderly(z, start, burst)
    ensures Orderly(SerialStep(z, i), start, burst)
  {
    if i < |z.threads| && z.threads[i].pc.Start? {
      var z' := SerialStep(z, i);
      SerialRule(z, start, burst, i);
      I.MeasureUpdate(z.threads, i, z'.threads[i], I.Held);
      I.MeasureUpdate(z.threads, i, z'.threads[i], I.Spent);
      I.MeasureUpdate(z.threads, i, z'.threads[i], I.Credited);
      assert Lawful(z.threads[i]) && OnlyReserves(z.threads[i]);
      forall k | 0 <= k < |z.threads|
        ensures Lawful(z'.threads[k]) && OnlyReserves(z'.threads[k]) && ThreadOk(z'.threads[k], z')
      {
        assert Lawful(z.threads[k]) && OnlyReserves(z.threads[k]) && ThreadOk(z.threads[k], z);
      }
    }
  }

  lemma InitialOrderly(s: I.Shared)
    requires OnlyRequests(s)
    ensures Orderly(s, s.ring, s.burst)
  {
    I.MeasureZero(s.threads, I.Held);
    assert s.ring == Raised(s.ring, 0);
    InitialSafe(s);
  }

  /** Whoever is named in the order has had its turn. */
  lemma {:induction false} SerialAnswers(z: I.Shared, start: Ring, burst: int, order: seq<nat>)
    requires Orderly(z, start, burst)
    ensures
      var r := Serial(z, order);
      && Orderly(r, start, burst) && r.limit == z.limit && r.burstMax == z.burstMax
      && forall i :: 0 <= i < |z.threads| && (i in order || !z.threads[i].pc.Start?) ==> Answered(r.threads[i].pc)
    decreases order
  {
    if order != [] {
      var next := SerialStep(z, order[0]);
      SerialStepOrderly(z, start, burst, order[0]);
      if order[0] < |z.threads| && z.threads[order[0]].pc.Start? {
        SerialRule(z, start, burst, order[0]);
      }
      SerialAnswers(next, start, burst, order[1..]);
    }
  }

  // ---- Crowded requests: no order pays what the crowded schedule pays ----

  /** No request asks for as much as all of them together. */
  lemma OneBelowAll(ts: seq<I.Thread>, i: nat)
    requires |ts| >= 2 && i < |ts| && forall j :: 0 <= j < |ts| ==> ts[j].estimate > 0
    ensures ts[i].estimate < I.Measure(ts, I.Asked)
  {
    var rest := ts[i := ts[i].(estimate := 0)];
    I.MeasureUpdate(ts, i, rest[i], I.Asked);
    I.MeasureMember(rest, if i == 0 then 1 else 0, I.Asked);
  }

  lemma NobodyIn(z: I.Shared, start: Ring, burst: int)
    requires Orderly(z, start, burst)
    ensures I.Measure(z.threads, I.Credited) == 0
    ensures I.Measure(z.threads, I.Held) <= I.Measure(z.threads, I.Asked)
    ensures I.Measure(z.threads, I.Count) == 0 ==>
              I.Measure(z.threads, I.Held) == 0 && I.Measure(z.threads, I.Spent) == 0
  {
    assert forall i :: 0 <= i < |z.threads| ==> OnlyReserves(z.threads[i]);
    I.MeasureZero(z.threads, I.Credited);
    ReservesHoldAsked(z.threads);
    if I.Measure(z.threads, I.Count) == 0 {
      CountZero(z.threads);
      I.MeasureZero(z.threads, I.Held);
      I.MeasureZero(z.threads, I.Spent);
    }
  }

  /** While nobody is in, only requests too big alone have been denied; once somebody is, the
  burst paid is less than `over` a head. */
  predicate Thrifty(z: I.Shared, start: Ring, burst: int, over: int) {
    && Orderly(z, start, burst)
    && over == start.total + I.Measure(z.threads, I.Asked) - z.limit
    && (forall i :: 0 <= i < |z.threads| ==> z.threads[i].estimate > 0)
    && var k := I.Measure(z.threads, I.Count);
       if k == 0 then
         forall i :: 0 <= i < |z.threads| && z.threads[i].pc.Denied? ==>
           start.total + z.threads[i].estimate > z.limit + burst
       else I.Measure(z.threads, I.Spent) < over * k
  }

  lemma OneMorePays(over: int, k: nat, spent: int, price: int)
    requires if k == 0 then spent == 0 && price < over else spent < over * k && price <= over
    ensures spent + price < over * (k + 1)
  {
  }

  lemma SerialStepThrifty(z: I.Shared, start: Ring, burst: int, over: int, i: nat)
    requires Thrifty(z, start, burst, over) && over > 0 && |z.threads| >= 2
    ensures Thrifty(SerialStep(z, i), start, burst, over)
  {
    if i < |z.threads| && z.threads[i].pc.Start? {
      var z', k := SerialStep(z, i), I.Measure(z.threads, I.Count);
      SerialRule(z, start, burst, i);
      SerialStepOrderly(z, start, burst, i);
      NobodyIn(z, start, burst);
      NobodyIn(z', start, burst);
      OneBelowAll(z.threads, i);
      CountAtMost(z.threads);
      I.MeasureUpdate(z.threads, i, z'.threads[i], I.Asked);
      I.MeasureUpdate(z.threads, i, z'.threads[i], I.Held);
      I.MeasureUpdate(z.threads, i, z'.threads[i], I.Count);
      I.MeasureUpdate(z.threads, i, z'.threads[i], I.Spent);
      if z'.threads[i].pc.Admitted? {
        OneMorePays(over, k, I.Measure(z.threads, I.Spent), Price(z, i));
      }
    }
  }

  lemma {:induction false} SerialThrifty(z: I.Shared, start: Ring, burst: int, over: int, order: seq<nat>)
    requires Thrifty(z, start, burst, over) && over > 0 && |z.threads| >= 2
    ensures Thrifty(Serial(z, order), start, burst, over)
    decreases order
  {
    if order != [] {
      SerialStepThrifty(z, start, burst, over, order[0]);
      SerialThrifty(SerialStep(z, order[0]), start, burst, over, order[1..]);
    }
  }

  lemma {:induction false} SameCount(a: seq<I.Thread>, b: seq<I.Thread>)
    requires |a| == |b| && forall i :: 0 <= i < |a| ==> (I.HasGrant(a[i].pc) <==> I.HasGrant(b[i].pc))
    ensures I.Measure(a, I.Count) == I.Measure(b, I.Count)
  {
    if a != [] {
      SameCount(a[1..], b[1..]);
    }
  }

  lemma SameAnswersSameCount(view: View, r: I.Shared, z: I.Shared)
    requires AllDone(r) && AllDone(z) && Agrees(view, r, z)
    ensures I.Measure(r.threads, I.Count) == I.Measure(z.threads, I.Count)
  {
    forall i | 0 <= i < |r.threads| ensures I.HasGrant(r.threads[i].pc) <==> I.HasGrant(z.threads[i].pc) {
      assert Answered(r.threads[i].pc) && Answered(z.threads[i].pc);
      assert SameAnswer(view, r.limit, r.threads[i].pc, z.threads[i].pc);
    }
    SameCount(r.threads, z.threads);
  }

  /** The crowded schedule has no order behind it, whatever the view. */
  lemma CrowdedIsNotSerial(view: View, s: I.Shared, r: I.Shared, order: seq<nat>)
    requires OnlyRequests(s) && |s.threads| >= 2 && !AllFit(s) && !NoneFits(s)
    requires AllDone(r) && |r.threads| == |s.threads| && IsOrder(order, |s.threads|)
    requires r.burst == s.burst - (s.ring.total + I.Measure(s.threads, I.Asked) - s.limit) * I.Measure(r.threads, I.Count)
    ensures !Agrees(view, r, Serial(s, order))
  {
    OrderPaysLess(s, order);
    if Agrees(view, r, Serial(s, order)) {
      SameAnswersSameCount(view, r, Serial(s, order));
    }
  }

  /** Every order lets somebody in, and charges less than the whole overshoot a head. */
  lemma OrderPaysLess(s: I.Shared, order: seq<nat>)
    requires OnlyRequests(s) && |s.threads| >= 2 && !AllFit(s) && !NoneFits(s) && IsOrder(order, |s.threads|)
    ensures
      var z, over := Serial(s, order), s.ring.total + I.Measure(s.threads, I.Asked) - s.limit;
      AllDone(z) && z.burst > s.burst - over * I.Measure(z.threads, I.Count)
  {
    var z, over := Serial(s, order), s.ring.total + I.Measure(s.threads, I.Asked) - s.limit;
    InitialOrderly(s);
    I.MeasureZero(s.threads, I.Count);
    SerialThrifty(s, s.ring, s.burst, over, order);
    SerialAnswers(s, s.ring, s.burst, order);
    NobodyIn(z, s.ring, s.burst);
    SerialKeepsEstimates(s, order);
    var fits :| 0 <= fits < |s.threads| && s.ring.total + s.threads[fits].estimate <= s.limit + s.burst;
    assert Answered(z.threads[fits].pc) && z.threads[fits].estimate == s.threads[fits].estimate;
    CountZero(z.threads);
  }

  lemma {:induction false} SerialKeepsEstimates(z: I.Shared, order: seq<nat>)
    requires I.Usable(z)
    ensures forall i :: 0 <= i < |z.threads| ==> Serial(z, order).threads[i].estimate == z.threads[i].estimate
    decreases order
  {
    if order != [] {
      SerialKeepsEstimates(SerialStep(z, order[0]), order[1..]);
    }
  }

  // ---- A single request ----

  lemma SingleMeasure(ts: seq<I.Thread>, m: I.Meter)
    requires |ts| == 1
    ensures I.Measure(ts, m) == I.Weigh(ts[0], m)
  {
    assert ts[1..] == [];
  }

  /** Where a single request stands, and what that says about the account. */
  predicate SoleAt(t: I.Thread, limit: int, base: int, was: int, burst: int) {
    var most := base + t.estimate;
    match t.pc
    case Start => burst == was
    case Counted => burst == was
    case Over(seen, _) => burst == was && seen == most > limit
    case Loaded(seen, _, cur) => burst == was == cur && limit < seen == most <= limit + was
    case Undoing => burst == was && most > limit + was
    case Undone => burst == was && most > limit + was
    case Denied(used) => burst == was && most > limit + was && used == base
    case Admitted(g) => most <= limit + was && g.seen == most && burst == was - Max(0, most - limit)
    case _ => false
  }

  predicate Sole(s: I.Shared, start: Ring, burst: int) {
    && Conserved(s, start) && |s.threads| == 1 && s.threads[0].delta.None? && burst >= 0
    && SoleAt(s.threads[0], s.limit, start.total, burst, s.burst)
  }

  lemma SoleStep(s: I.Shared, start: Ring, burst: int, turn: I.Turn)
    requires Sole(s, start, burst) && turn.now <= start.headTime
    ensures Sole(I.Step(s, turn), start, burst)
  {
    StepConserved(s, start, turn);
    SingleMeasure(s.threads, I.Held);
    assert Lawful(s.threads[0]);
  }

  lemma SoleSerialStep(z: I.Shared, start: Ring, burst: int, i: nat)
    requires Sole(z, start, burst) && Orderly(z, start, burst)
    ensures Sole(SerialStep(z, i), start, burst)
  {
    SerialStepOrderly(z, start, burst, i);
    SingleMeasure(z.threads, I.Held);
    if i == 0 && z.threads[0].pc.Start? {
      SerialRule(z, start, burst, 0);
    }
  }

  lemma {:induction false} SoleRun(s: I.Shared, start: Ring, burst: int, turns: seq<I.Turn>)
    requires Sole(s, start, burst) && OneSecond(turns, start.headTime)
    ensures Sole(I.Run(s, turns), start, burst)
    decreases turns
  {
    if turns != [] {
      assert turns[0].now <= start.headTime;
      SoleStep(s, start, burst, turns[0]);
      SoleRun(I.Step(s, turns[0]), start, burst, turns[1..]);
    }
  }

  lemma {:induction false} SoleSerial(z: I.Shared, start: Ring, burst: int, order: seq<nat>)
    requires Sole(z, start, burst) && Orderly(z, start, burst)
    ensures Sole(Serial(z, order), start, burst)
    decreases order
  {
    if order != [] {
      SoleSerialStep(z, start, burst, order[0]);
      SerialStepOrderly(z, start, burst, order[0]);
      SoleSerial(SerialStep(z, order[0]), start, burst, order[1..]);
    }
  }

  lemma SoleEnds(view: View, r: I.Shared, z: I.Shared, start: Ring, burst: int)
    requires Sole(r, start, burst) && Sole(z, start, burst) && r.limit == z.limit && r.burstMax == z.burstMax
    requires r.threads[0].estimate == z.threads[0].estimate && Answered(r.threads[0].pc) && Answered(z.threads[0].pc)
    ensures Agrees(view, r, z)
  {
    SingleMeasure(r.threads, I.Held);
    SingleMeasure(z.threads, I.Held);
  }

  lemma SoleAgree(view: View, s: I.Shared, turns: seq<I.Turn>, order: seq<nat>)
    requires OnlyRequests(s) && |s.threads| == 1 && Complete(s, turns) && IsOrder(order, 1)
    ensures Agrees(view, I.Run(s, turns), Serial(s, order))
  {
    var r, z := I.Run(s, turns), Serial(s, order);
    InitialOrderly(s);
    SerialAnswers(s, s.ring, s.burst, order);
    SoleRun(s, s.ring, s.burst, turns);
    SoleSerial(s, s.ring, s.burst, order);
    RunKeepsRequests(s, turns);
    SerialKeepsEstimates(s, order);
    assert Answered(r.threads[0].pc) && Answered(z.threads[0].pc);
    SoleEnds(view, r, z, s.ring, s.burst);
  }

  // ---- Room for all ----

  predicate Welcome(t: I.Thread) {
    OnlyReserves(t) && (t.pc.Start? || t.pc.Counted? || t.pc.Admitted?)
  }

  /** Nobody has been refused, nobody has paid, and nobody will. */
  predicate Easy(s: I.Shared, start: Ring, burst: int) {
    && Conserved(s, start) && s.burst == burst >= 0
    && start.total + I.Measure(s.threads, I.Asked) <= s.limit
    && forall i :: 0 <= i < |s.threads| ==> Welcome(s.threads[i])
  }

  lemma EasyTotal(s: I.Shared, start: Ring, burst: int)
    requires Easy(s, start, burst)
    ensures AllReserve(s.threads) && 0 <= s.ring.total <= s.limit
  {
    assert forall i :: 0 <= i < |s.threads| ==> Welcome(s.threads[i]);
    ReservesHoldAsked(s.threads);
    HeldNonNegative(s.threads);
  }

  lemma WelcomeStep(s: I.Shared, turn: I.Turn)
    requires I.Usable(s) && turn.thread < |s.threads| && turn.now <= s.ring.headTime
    requires Welcome(s.threads[turn.thread]) && 0 <= s.ring.total <= s.limit
    ensures Welcome(I.Step(s, turn).threads[turn.thread]) && I.Step(s, turn).burst == s.burst
  {
  }

  lemma EasyStep(s: I.Shared, start: Ring, burst: int, turn: I.Turn)
    requires Easy(s, start, burst) && turn.now <= start.headTime
    ensures Easy(I.Step(s, turn), start, burst)
  {
    StepConserved(s, start, turn);
    if turn.thread < |s.threads| {
      I.StepMeasure(s, turn, I.Asked);
      StepMovesHolding(s, turn);
      EasyTotal(s, start, burst);
      assert Welcome(s.threads[turn.thread]);
      WelcomeStep(s, turn);
    }
  }

  lemma AddingFits(ts: seq<I.Thread>, i: nat)
    requires AllReserve(ts) && AllLawful(ts) && i < |ts| && ts[i].pc.Start?
    ensures I.Measure(ts, I.Held) + ts[i].estimate <= I.Measure(ts, I.Asked)
  {
    var t := ts[i].(pc := I.Counted);
    assert OnlyReserves(ts[i]) && Lawful(ts[i]);
    ReservesHoldAsked(ts[i := t]);
    I.MeasureUpdate(ts, i, t, I.Held);
    I.MeasureUpdate(ts, i, t, I.Asked);
  }

  lemma EasySerialStep(z: I.Shared, start: Ring, burst: int, i: nat)
    requires Easy(z, start, burst) && Orderly(z, start, burst)
    ensures Easy(SerialStep(z, i), start, burst)
  {
    SerialStepOrderly(z, start, burst, i);
    if i < |z.threads| && z.threads[i].pc.Start? {
      var z' := SerialStep(z, i);
      SerialRule(z, start, burst, i);
      I.MeasureUpdate(z.threads, i, z'.threads[i], I.Asked);
      AddingFits(z.threads, i);
      assert Welcome(z.threads[i]);
      assert Welcome(z'.threads[i]);
    }
  }

  lemma {:induction false} EasyRun(s: I.Shared, start: Ring, burst: int, turns: seq<I.Turn>)
    requires Easy(s, start, burst) && OneSecond(turns, start.headTime)
    ensures Easy(I.Run(s, turns), start, burst)
    decreases turns
  {
    if turns != [] {
      assert turns[0].now <= start.headTime;
      EasyStep(s, start, burst, turns[0]);
      EasyRun(I.Step(s, turns[0]), start, burst, turns[1..]);
    }
  }

  lemma {:induction false} EasySerial(z: I.Shared, start: Ring, burst: int, order: seq<nat>)
    requires Easy(z, start, burst) && Orderly(z, start, burst)
    ensures Easy(Serial(z, order), start, burst)
    decreases order
  {
    if order != [] {
      EasySerialStep(z, start, burst, order[0]);
      SerialStepOrderly(z, start, burst, order[0]);
      EasySerial(SerialStep(z, order[0]), start, burst, order[1..]);
    }
  }

  /** Everybody in, for free. */
  lemma EasyEnds(s: I.Shared, start: Ring, burst: int)
    requires Easy(s, start, burst) && AllDone(s)
    ensures forall i :: 0 <= i < |s.threads| ==> s.threads[i].pc.Admitted?
    ensures s.ring == Raised(start, I.Measure(s.threads, I.Asked)) && s.burst == burst
  {
    forall i | 0 <= i < |s.threads| ensures s.threads[i].pc.Admitted? && OnlyReserves(s.threads[i]) {
      assert Answered(s.threads[i].pc) && Welcome(s.threads[i]);
    }
    I.MeasureLe(s.threads, I.Held, I.Asked);
    I.MeasureLe(s.threads, I.Asked, I.Held);
  }

  lemma {:induction false} SerialKeepsAsked(z: I.Shared, order: seq<nat>)
    requires I.Usable(z)
    ensures I.Measure(Serial(z, order).threads, I.Asked) == I.Measure(z.threads, I.Asked)
    decreases order
  {
    if order != [] {
      var next := SerialStep(z, order[0]);
      if order[0] < |z.threads| {
        I.MeasureUpdate(z.threads, order[0], next.threads[order[0]], I.Asked);
      }
      SerialKeepsAsked(next, order[1..]);
    }
  }

  lemma AllFitAgree(view: View, s: I.Shared, turns: seq<I.Turn>, order: seq<nat>)
    requires OnlyRequests(s) && AllFit(s) && !view.Totals? && Complete(s, turns) && IsOrder(order, |s.threads|)
    ensures Agrees(view, I.Run(s, turns), Serial(s, order))
  {
    var r, z := I.Run(s, turns), Serial(s, order);
    InitialOrderly(s);
    SerialAnswers(s, s.ring, s.burst, order);
    EasyRun(s, s.ring, s.burst, turns);
    EasySerial(s, s.ring, s.burst, order);
    EasyEnds(r, s.ring, s.burst);
    EasyEnds(z, s.ring, s.burst);
    AskedKept(s, turns);
    SerialKeepsAsked(s, order);
  }

  /** But if everyone adds before anyone reads, everyone is told the whole total; in an order, the
  first is not. */
  lemma TotalsGiveItAway(s: I.Shared)
    requires OnlyRequests(s) && |s.threads| >= 2 && AllFit(s)
    ensures !Linearizable(Totals, s)
  {
    assert AllLawful(s.threads);
    var turns := EveryoneReads(s);
    var r, seen := I.Run(s, turns), s.ring.total + I.Measure(s.threads, I.Asked);
    forall i | 0 <= i < |r.threads| ensures r.threads[i].pc.Admitted? && r.threads[i].pc.grant.seen == seen {
      assert Passed(r.threads[i].pc, 2, seen, s.limit);
    }
    assert Complete(s, turns);
    forall order | IsOrder(order, |s.threads|) ensures !Agrees(Totals, r, Serial(s, order)) {
      FirstReadsLess(s, order);
      assert !SameAnswer(Totals, r.limit, r.threads[order[0]].pc, Serial(s, order).threads[order[0]].pc);
    }
    assert !HasOrder(Totals, s, r);
  }

  lemma FirstReadsLess(s: I.Shared, order: seq<nat>)
    requires OnlyRequests(s) && |s.threads| >= 2 && AllFit(s) && IsOrder(order, |s.threads|)
    ensures order != [] && order[0] < |s.threads|
    ensures
      var pc := Serial(s, order).threads[order[0]].pc;
      pc.Admitted? && pc.grant.seen < s.ring.total + I.Measure(s.threads, I.Asked)
  {
    assert 0 in order;
    InitialOrderly(s);
    SerialRule(s, s.ring, s.burst, order[0]);
    OneBelowAll(s.threads, order[0]);
    SerialKeepsAnswer(SerialStep(s, order[0]), order[1..], order[0]);
  }

  lemma {:induction false} SerialKeepsAnswer(z: I.Shared, order: seq<nat>, i: nat)
    requires I.Usable(z) && i < |z.threads| && !z.threads[i].pc.Start?
    ensures Serial(z, order).threads[i] == z.threads[i]
    decreases order
  {
    if order != [] {
      SerialKeepsAnswer(SerialStep(z, order[0]), order[1..], i);
    }
  }

  // ---- Room for none ----

  predicate Shut(pc: I.Pc, most: int, base: int) {
    && !I.HasGrant(pc) && !pc.Loaded?
    && (pc.Over? ==> pc.seen > most) && (pc.Denied? ==> pc.used >= base)
  }

  /** Nobody has been let in, and nobody will be. */
  predicate Hopeless(s: I.Shared, start: Ring, burst: int) {
    && Conserved(s, start) && s.burst == burst >= 0
    && forall i :: 0 <= i < |s.threads| ==>
         start.total + s.threads[i].estimate > s.limit + burst && Shut(s.threads[i].pc, s.limit + burst, start.total)
  }

  /** How far a refused request is from its answer. */
  function Rank(pc: I.Pc): nat {
    match pc
    case Start => 5
    case Counted => 4
    case Over(_, _) => 3
    case Undoing => 2
    case Undone => 1
    case _ => 0
  }

  lemma ShutStep(s: I.Shared, turn: I.Turn, base: int)
    requires I.Usable(s) && turn.thread < |s.threads| && turn.now <= s.ring.headTime && s.burst >= 0 && s.ring.total >= 0
    requires Shut(s.threads[turn.thread].pc, s.limit + s.burst, base) && s.ring.total >= base
    requires s.threads[turn.thread].pc.Counted? ==> s.ring.total > s.limit + s.burst
    ensures
      var s', pc := I.Step(s, turn), s.threads[turn.thread].pc;
      var pc' := s'.threads[turn.thread].pc;
      && s'.burst == s.burst && Shut(pc', s.limit + s.burst, base)
      && s'.threads == s.threads[turn.thread := s.threads[turn.thread].(pc := pc')]
      && Rank(pc') == Max(0, Rank(pc) - 1)
      && (pc.Undone? ==> pc' == I.Denied(s.ring.total))
  {
    assert s.threads == s.threads[turn.thread := s.threads[turn.thread]];
  }

  lemma HopelessTotal(s: I.Shared, start: Ring, burst: int, i: nat)
    requires Hopeless(s, start, burst) && i < |s.threads|
    ensures s.ring.total >= start.total
    ensures s.threads[i].pc.Counted? ==> s.ring.total > s.limit + s.burst
  {
    forall k | 0 <= k < |s.threads| ensures I.Weigh(s.threads[k], I.Held) >= 0 {
      assert Lawful(s.threads[k]);
    }
    I.MeasureMember(s.threads, i, I.Held);
    HeldNonNegative(s.threads);
  }

  lemma HopelessStep(s: I.Shared, start: Ring, burst: int, turn: I.Turn)
    requires Hopeless(s, start, burst) && turn.now <= start.headTime
    ensures Hopeless(I.Step(s, turn), start, burst)
  {
    StepConserved(s, start, turn);
    if turn.thread < |s.threads| {
      HopelessTotal(s, start, burst, turn.thread);
      ShutStep(s, turn, start.total);
    }
  }

  lemma {:induction false} HopelessRun(s: I.Shared, start: Ring, burst: int, turns: seq<I.Turn>)
    requires Hopeless(s, start, burst) && OneSecond(turns, start.headTime)
    ensures Hopeless(I.Run(s, turns), start, burst)
    decreases turns
  {
    if turns != [] {
      assert turns[0].now <= start.headTime;
      HopelessStep(s, start, burst, turns[0]);
      HopelessRun(I.Step(s, turns[0]), start, burst, turns[1..]);
    }
  }

  /** In an order, moreover, everyone denied is told what the window started with. */
  predicate TurnedAway(z: I.Shared, start: Ring, burst: int) {
    && Hopeless(z, start, burst) && Orderly(z, start, burst)
    && forall i :: 0 <= i < |z.threads| && z.threads[i].pc.Denied? ==> z.threads[i].pc.used == start.total
  }

  lemma TurnedAwayStep(z: I.Shared, start: Ring, burst: int, i: nat)
    requires TurnedAway(z, start, burst)
    ensures TurnedAway(SerialStep(z, i), start, burst)
  {
    SerialStepOrderly(z, start, burst, i);
    if i < |z.threads| && z.threads[i].pc.Start? {
      SerialRule(z, start, burst, i);
      I.MeasureZero(z.threads, I.Held);
    }
  }

  lemma {:induction false} TurnedAwaySerial(z: I.Shared, start: Ring, burst: int, order: seq<nat>)
    requires TurnedAway(z, start, burst)
    ensures TurnedAway(Serial(z, order), start, burst)
    decreases order
  {
    if order != [] {
      TurnedAwayStep(z, start, burst, order[0]);
      TurnedAwaySerial(SerialStep(z, order[0]), start, burst, order[1..]);
    }
  }

  lemma HopelessEnds(s: I.Shared, start: Ring, burst: int)
    requires Hopeless(s, start, burst) && AllDone(s)
    ensures AllDenied(s) && s.ring == start && s.burst == burst
    ensures forall i :: 0 <= i < |s.threads| ==> s.threads[i].pc.used >= start.total
  {
    forall i | 0 <= i < |s.threads| ensures s.threads[i].pc.Denied? {
      assert Answered(s.threads[i].pc);
    }
    I.MeasureZero(s.threads, I.Held);
    assert s.ring == Raised(start, 0);
  }

  lemma NoneFitsAgree(view: View, s: I.Shared, turns: seq<I.Turn>, order: seq<nat>)
    requires OnlyRequests(s) && NoneFits(s) && Complete(s, turns) && IsOrder(order, |s.threads|)
    requires s.threads == [] || view.Admissions? || (view.Decisions? && s.ring.total > s.limit)
    ensures Agrees(view, I.Run(s, turns), Serial(s, order))
  {
    var r, z := I.Run(s, turns), Serial(s, order);
    InitialOrderly(s);
    SerialAnswers(s, s.ring, s.burst, order);
    HopelessRun(s, s.ring, s.burst, turns);
    TurnedAwaySerial(s, s.ring, s.burst, order);
    HopelessEnds(r, s.ring, s.burst);
    HopelessEnds(z, s.ring, s.burst);
  }

  /** Run one request, alone, down to the given rank. */
  lemma {:induction false} Lower(s: I.Shared, start: Ring, burst: int, i: nat, to: nat) returns (turns: seq<I.Turn>)
    requires Hopeless(s, start, burst) && i < |s.threads| && to <= Rank(s.threads[i].pc)
    ensures OneSecond(turns, start.headTime)
    ensures
      var r := I.Run(s, turns);
      && Hopeless(r, start, burst) && Rank(r.threads[i].pc) == to
      && r.threads == s.threads[i := s.threads[i].(pc := r.threads[i].pc)]
    decreases Rank(s.threads[i].pc)
  {
    if Rank(s.threads[i].pc) == to {
      turns := [];
      assert s.threads == s.threads[i := s.threads[i]];
    } else {
      var turn := I.Turn(i, start.headTime);
      HopelessStep(s, start, burst, turn);
      HopelessTotal(s, start, burst, i);
      ShutStep(s, turn, start.total);
      var rest := Lower(I.Step(s, turn), start, burst, i, to);
      turns := [turn] + rest;
      assert turns[1..] == rest;
    }
  }

  /** Finish the requests from `k` on, one after the other. */
  lemma {:induction false} LowerAll(s: I.Shared, start: Ring, burst: int, k: nat) returns (turns: seq<I.Turn>)
    requires Hopeless(s, start, burst) && k <= |s.threads|
    requires forall i :: 0 <= i < k ==> s.threads[i].pc.Denied?
    ensures OneSecond(turns, start.headTime)
    ensures
      var r := I.Run(s, turns);
      AllDenied(r) && forall i :: 0 <= i < k ==> r.threads[i] == s.threads[i]
    decreases |s.threads| - k
  {
    if k == |s.threads| {
      turns := [];
    } else {
      turns := Lower(s, start, burst, k, 0);
      var mid := I.Run(s, turns);
      assert Shut(mid.threads[k].pc, s.limit + burst, start.total);
      var rest := LowerAll(mid, start, burst, k + 1);
      I.RunAppend(s, turns, rest);
      turns := turns + rest;
    }
  }

  /** The first request is refused and undoes its estimate while the second has just added its own. */
  lemma UndoneBeside(s: I.Shared) returns (turns: seq<I.Turn>)
    requires OnlyRequests(s) && NoneFits(s) && |s.threads| >= 2
    ensures OneSecond(turns, s.ring.headTime)
    ensures
      var r := I.Run(s, turns);
      && Hopeless(r, s.ring, s.burst) && r.threads[0].pc.Undone?
      && r.ring.total == s.ring.total + s.threads[1].estimate
  {
    InitialOrderly(s);
    var a := Lower(s, s.ring, s.burst, 0, 2);
    var s1 := I.Run(s, a);
    var b := Lower(s1, s.ring, s.burst, 1, 4);
    var s2 := I.Run(s1, b);
    var c := Lower(s2, s.ring, s.burst, 0, 1);
    var s3 := I.Run(s2, c);
    I.RunAppend(s, a, b);
    I.RunAppend(s, a + b, c);
    turns := a + b + c;
    I.MeasureUpdate(s.threads, 0, s1.threads[0], I.Held);
    I.MeasureUpdate(s1.threads, 1, s2.threads[1], I.Held);
    I.MeasureUpdate(s2.threads, 0, s3.threads[0], I.Held);
  }

  /** So it is told the second's estimate, which no order would tell it. */
  lemma StatusGivesItAway(view: View, s: I.Shared)
    requires OnlyRequests(s) && |s.threads| >= 2 && NoneFits(s)
    requires view.Denials? || view.Totals? || (view.Decisions? && s.ring.total <= s.limit)
    ensures !Linearizable(view, s)
  {
    var turns := ToldOfTheOther(s);
    var r := I.Run(s, turns);
    assert Complete(s, turns);
    forall order | IsOrder(order, |s.threads|) ensures !Agrees(view, r, Serial(s, order)) {
      InitialOrderly(s);
      SerialAnswers(s, s.ring, s.burst, order);
      TurnedAwaySerial(s, s.ring, s.burst, order);
      HopelessEnds(Serial(s, order), s.ring, s.burst);
      assert !SameAnswer(view, r.limit, r.threads[0].pc, Serial(s, order).threads[0].pc);
    }
    assert !HasOrder(view, s, r);
  }

  lemma ToldOfTheOther(s: I.Shared) returns (turns: seq<I.Turn>)
    requires OnlyRequests(s) && NoneFits(s) && |s.threads| >= 2
    ensures Complete(s, turns)
    ensures I.Run(s, turns).threads[0].pc == I.Denied(s.ring.total + s.threads[1].estimate)
  {
    turns := UndoneBeside(s);
    var mid := I.Run(s, turns);
    var step := I.Turn(0, s.ring.headTime);
    HopelessTotal(mid, s.ring, s.burst, 0);
    HopelessStep(mid, s.ring, s.burst, step);
    ShutStep(mid, step, s.ring.total);
    var rest := LowerAll(I.Step(mid, step), s.ring, s.burst, 1);
    assert ([step] + rest)[1..] == rest;
    I.RunAppend(s, turns, [step] + rest);
    turns := turns + ([step] + rest);
  }

  // ---- The theorem ----

  lemma SomeOrder(n: nat) returns (order: seq<nat>)
    ensures IsOrder(order, n)
  {
    order := seq(n, i => i);
    forall i | 0 <= i < n ensures i in order {
      assert order[i] == i;
    }
  }

  lemma CrowdedIsNotLinearizable(view: View, s: I.Shared)
    requires OnlyRequests(s) && |s.threads| >= 2 && !AllFit(s) && !NoneFits(s)
    ensures !Linearizable(view, s)
  {
    assert AllLawful(s.threads);
    var turns := CrowdedRun(s);
    assert Complete(s, turns);
    forall order | IsOrder(order, |s.threads|) ensures !Agrees(view, I.Run(s, turns), Serial(s, order)) {
      CrowdedIsNotSerial(view, s, I.Run(s, turns), order);
    }
    assert !HasOrder(view, s, I.Run(s, turns));
  }

  /** Uncrowded, every complete schedule agrees with every order. */
  lemma UncrowdedAgree(view: View, s: I.Shared, turns: seq<I.Turn>, order: seq<nat>)
    requires OnlyRequests(s) && Uncrowded(view, s) && Complete(s, turns) && IsOrder(order, |s.threads|)
    ensures Agrees(view, I.Run(s, turns), Serial(s, order))
  {
    if |s.threads| == 1 {
      SoleAgree(view, s, turns, order);
    } else if |s.threads| >= 2 && AllFit(s) {
      AllFitAgree(view, s, turns, order);
    } else {
      NoneFitsAgree(view, s, turns, order);
    }
  }

  /** Linearizability decided, at every view: any number of concurrent Reserves of positive estimates
  within one second are linearizable if and only if there is at most one, or
  - as far as admissions go, all fit under the limit together, or not even one fits limit and burst;
  - as far as the handler's decisions go, the same, but the second only with the window over the limit;
  - as far as the totals told to denied requests go, all fit under the limit together;
  - as far as the totals told to everybody go, never.
  And then the order does not matter. */
  lemma LinearizableIffUncrowded(view: View, s: I.Shared)
    requires OnlyRequests(s)
    ensures Linearizable(view, s) <==> Uncrowded(view, s)
    ensures Uncrowded(view, s) ==>
              forall turns, order :: Complete(s, turns) && IsOrder(order, |s.threads|) ==>
                Agrees(view, I.Run(s, turns), Serial(s, order))
  {
    if Uncrowded(view, s) {
      forall turns, order | Complete(s, turns) && IsOrder(order, |s.threads|)
        ensures Agrees(view, I.Run(s, turns), Serial(s, order))
      {
        UncrowdedAgree(view, s, turns, order);
      }
      var order := SomeOrder(|s.threads|);
    } else if AllFit(s) {
      TotalsGiveItAway(s);
    } else if NoneFits(s) {
      StatusGivesItAway(view, s);
    } else {
      CrowdedIsNotLinearizable(view, s);
    }
  }
}
