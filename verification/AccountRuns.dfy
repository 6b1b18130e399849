/** Properties of whole sequential runs over one account. */
module AccountRuns {
  import opened Sums
  import opened Ring
  import opened Accounts

  datatype Op =
    | DoReserve(clock: Clock, estimate: int)
    | DoRecord(clock: Clock, delta: int)
    | DoPoll(now: int)

  /** What the caller of an operation gets to see. */
  datatype Answer = Reserved(status: BudgetStatus, allowed: bool) | Silent | Polled(status: BudgetStatus)

  function Step(a: Account, op: Op): (r: Account)
    requires Sized(a)
    ensures Sized(r) && r.limit == a.limit && r.burstMax == a.burstMax
  {
    match op
    case DoReserve(c, estimate) => Reserve(a, c, estimate).after
    case DoRecord(c, delta) => Record(a, c, delta)
    case DoPoll(now) => Poll(a, now)
  }

  function AnswerOf(a: Account, op: Op): Answer
    requires Sized(a)
  {
    match op
    case DoReserve(c, estimate) =>
      var r := Reserve(a, c, estimate);
      Reserved(r.status, r.allowed)
    case DoRecord(_, _) => Silent
    case DoPoll(now) => Polled(StatusOf(Poll(a, now)))
  }

  function Run(a: Account, ops: seq<Op>): (r: Account)
    requires Sized(a)
    ensures Sized(r) && r.limit == a.limit && r.burstMax == a.burstMax
    decreases ops
  {
    if ops == [] then a else Run(Step(a, ops[0]), ops[1..])
  }

  // ---- How far the visible total can overshoot ----

  /** Negative bucket mass that moving to `now` drops from the window. */
  function Forgotten(r: Ring, now: int): nat {
    var n := |r.slots|;
    if now <= r.headTime then 0
    else if now - r.headTime >= n then NegativeMass(r.slots)
    else NegativeMass(r.slots[n - (now - r.headTime)..])
  }

  function ForgottenBy(a: Account, op: Op): nat
    requires Sized(a)
  {
    match op
    case DoPoll(now) => Forgotten(a.ring, now)
    case DoRecord(c, delta) =>
      Forgotten(a.ring, c.add) + Forgotten(Added(a.ring, c.add, delta), c.total)
    case DoReserve(c, estimate) =>
      var added := Added(a.ring, c.add, estimate);
      var seen := Advanced(added, c.total);
      Forgotten(a.ring, c.add) + Forgotten(added, c.total) +
      if Reserve(a, c, estimate).allowed then 0
      else Forgotten(seen, c.undo) + Forgotten(Added(seen, c.undo, -estimate), c.final)
  }

  function ForgottenIn(a: Account, ops: seq<Op>): nat
    requires Sized(a)
    decreases ops
  {
    if ops == [] then 0 else ForgottenBy(a, ops[0]) + ForgottenIn(Step(a, ops[0]), ops[1..])
  }

  /** The tokens upstreams used beyond their reservations. */
  function Overruns(ops: seq<Op>): nat {
    if ops == [] then 0 else OverrunOf(ops[0]) + Overruns(ops[1..])
  }

  function OverrunOf(op: Op): nat {
    if op.DoRecord? then Max(0, op.delta) else 0
  }

  predicate PlausibleEstimates(ops: seq<Op>) {
    forall i :: 0 <= i < |ops| && ops[i].DoReserve? ==> ops[i].estimate >= 0
  }

  predicate Within(a: Account, slack: nat) {
    Sound(a) && a.ring.total <= a.limit + (a.burstMax - a.burst) + slack
  }

  lemma AdvanceRaisesByForgotten(r: Ring, now: int)
    ensures Advanced(r, now).total <= Max(0, r.total + Forgotten(r, now))
  {
    if r.headTime < now < r.headTime + |r.slots| {
      NegativeMassBoundsSum(r.slots[|r.slots| - (now - r.headTime)..]);
    }
  }

  lemma DeniedStaysWithin(a: Account, c: Clock, estimate: int, slack: nat)
    requires Within(a, slack) && estimate >= 0 && !Reserve(a, c, estimate).allowed
    ensures Within(Reserve(a, c, estimate).after, slack + ForgottenBy(a, DoReserve(c, estimate)))
  {
    var added := Added(a.ring, c.add, estimate);
    var seen := Advanced(added, c.total);
    AdvanceRaisesByForgotten(a.ring, c.add);
    AdvanceRaisesByForgotten(added, c.total);
    AdvanceRaisesByForgotten(seen, c.undo);
    AdvanceRaisesByForgotten(Added(seen, c.undo, -estimate), c.final);
  }

  lemma StepStaysWithin(a: Account, op: Op, slack: nat)
    requires Within(a, slack) && (op.DoReserve? ==> op.estimate >= 0)
    ensures Within(Step(a, op), slack + OverrunOf(op) + ForgottenBy(a, op))
  {
    match op
    case DoPoll(now) => AdvanceRaisesByForgotten(a.ring, now);
    case DoRecord(c, delta) =>
      AdvanceRaisesByForgotten(a.ring, c.add);
      AdvanceRaisesByForgotten(Added(a.ring, c.add, delta), c.total);
    case DoReserve(c, estimate) =>
      if !Reserve(a, c, estimate).allowed {
        DeniedStaysWithin(a, c, estimate, slack);
      }
  }

  /** The run-wide bound: over every run, the total never exceeds the limit plus the burst in
  use, plus what upstreams overran, plus the negative mass that eviction forgot. */
  lemma {:induction false} OvershootBound(a: Account, ops: seq<Op>, slack: nat)
    requires Within(a, slack) && PlausibleEstimates(ops)
    ensures Within(Run(a, ops), slack + Overruns(ops) + ForgottenIn(a, ops))
    decreases ops
  {
    if ops != [] {
      StepStaysWithin(a, ops[0], slack);
      OvershootBound(Step(a, ops[0]), ops[1..], slack + OverrunOf(ops[0]) + ForgottenBy(a, ops[0]));
    }
  }

  function Opened(limit: nat, burstMax: nat, n: nat, now: int): (a: Account)
    requires n >= 1
    ensures Within(a, 0)
  {
    Account(limit, burstMax, Fresh(n, now), burstMax)
  }

  /** From a fresh window with no overruns and no negative bucket ever forgotten, every total a
  caller sees is at most the limit plus the burst in use, hence at most limit plus burst. */
  lemma NoOvershoot(limit: nat, burstMax: nat, n: nat, now: int, ops: seq<Op>)
    requires n >= 1 && PlausibleEstimates(ops)
    requires Overruns(ops) == 0 && ForgottenIn(Opened(limit, burstMax, n, now), ops) == 0
    ensures
      var a := Run(Opened(limit, burstMax, n, now), ops);
      Visible(a.ring) <= limit + (burstMax - a.burst) <= limit + burstMax
  {
    OvershootBound(Opened(limit, burstMax, n, now), ops, 0);
  }

  /** What moving to `now` takes out of the total. */
  function Evicted(r: Ring, now: int): int {
    var n := |r.slots|;
    if now <= r.headTime then 0
    else if now - r.headTime >= n then r.total
    else Sum(r.slots[n - (now - r.headTime)..])
  }

  /** The operation reads one second throughout, and reserves no negative amount. */
  predicate Steady(op: Op) {
    match op
    case DoPoll(_) => true
    case DoRecord(c, _) => c == Still(c.add)
    case DoReserve(c, estimate) => c == Still(c.add) && estimate >= 0
  }

  function SecondOf(op: Op): int {
    if op.DoPoll? then op.now else op.clock.add
  }

  /** Which operation overdraws: one takes a total within limit and full burst allowance above them if
  and only if what a Record adds, less what eviction takes out, exceeds the room that was left. So a
  Reserve or a poll does exactly when it evicts more negative than positive mass than there was room. */
  lemma OverdrawsExactly(a: Account, op: Op)
    requires Sound(a) && Steady(op) && a.ring.total <= a.limit + a.burstMax
    ensures
      var delta, room := if op.DoRecord? then op.delta else 0, a.limit + a.burstMax - a.ring.total;
      Step(a, op).ring.total > a.limit + a.burstMax <==> delta - Evicted(a.ring, SecondOf(op)) > room
  {
    var now := SecondOf(op);
    AdvanceOnce(a.ring, now);
    assert Poll(a, now).ring.total == a.ring.total - Evicted(a.ring, now);
    if op.DoReserve? {
      DenialIsNoOp(a, now, op.estimate);
      if Reserve(a, Still(now), op.estimate).allowed {
        AdmissionTakesEstimate(a, now, op.estimate);
      }
    }
  }

  // ---- A condition a caller can check ----

  predicate NonNegative(r: Ring) {
    forall k :: 0 <= k < |r.slots| ==> r.slots[k] >= 0
  }

  /** Reservations and polls only, each at one clock second. */
  predicate OnlyReserves(ops: seq<Op>) {
    forall i :: 0 <= i < |ops| ==> SteadyReserve(ops[i]) || ops[i].DoPoll?
  }

  predicate SteadyReserve(op: Op) {
    op.DoReserve? && op.estimate >= 0 && op.clock == Still(op.clock.add)
  }

  lemma NonNegativeForgetsNothing(r: Ring, now: int)
    requires NonNegative(r)
    ensures Forgotten(r, now) == 0 && NonNegative(Advanced(r, now))
  {
    var n := |r.slots|;
    if r.headTime < now < r.headTime + n {
      NonNegativeHasNoMass(r.slots[n - (now - r.headTime)..]);
    } else {
      NonNegativeHasNoMass(r.slots);
    }
  }

  lemma SteadyStep(a: Account, op: Op)
    requires Sound(a) && NonNegative(a.ring) && (SteadyReserve(op) || op.DoPoll?)
    ensures NonNegative(Step(a, op).ring) && Sound(Step(a, op)) && ForgottenBy(a, op) == 0
  {
    var now := if op.DoPoll? then op.now else op.clock.add;
    NonNegativeForgetsNothing(a.ring, now);
    if op.DoReserve? {
      DenialIsNoOp(a, now, op.estimate);
    }
  }

  lemma {:induction false} SteadyRunForgetsNothing(a: Account, ops: seq<Op>)
    requires Sound(a) && NonNegative(a.ring) && OnlyReserves(ops)
    ensures ForgottenIn(a, ops) == 0 && Overruns(ops) == 0
    decreases ops
  {
    if ops != [] {
      assert SteadyReserve(ops[0]) || ops[0].DoPoll?;
      SteadyStep(a, ops[0]);
      SteadyRunForgetsNothing(Step(a, ops[0]), ops[1..]);
    }
  }

  /** Over every run of reservations and polls, at whatever seconds and with the clock going either
  way, no visible total ever exceeds the limit plus the burst in use. */
  lemma ReservesNeverOvershoot(limit: nat, burstMax: nat, n: nat, now: int, ops: seq<Op>)
    requires n >= 1 && OnlyReserves(ops)
    ensures
      var a := Run(Opened(limit, burstMax, n, now), ops);
      Visible(a.ring) <= limit + (burstMax - a.burst) <= limit + burstMax
  {
    SteadyRunForgetsNothing(Opened(limit, burstMax, n, now), ops);
    assert PlausibleEstimates(ops);
    NoOvershoot(limit, burstMax, n, now, ops);
  }

  // ---- Why the forgotten mass is in the bound ----

  /** Two-bucket windows, worked out: same second and next second. */
  lemma PairWindow(x: int, y: int, t: int, total: int, tokens: int)
    ensures
      var r := Ring([x, y], t, total);
      && Advanced(r, t) == r
      && Advanced(r, t + 1) == Ring([0, x], t + 1, total - y)
      && Added(r, t, tokens) == Ring([x + tokens, y], t, Max(0, total + tokens))
      && Added(r, t + 1, tokens) == Ring([tokens, x], t + 1, Max(0, total - y + tokens))
      && Forgotten(r, t + 1) == Max(0, -y)
  {
    var r := Ring([x, y], t, total);
    assert r.slots[1..] == [y];
    assert Sum([y]) == y + Sum([]);
    assert NegativeMass([y]) == Max(0, -y) + NegativeMass([]);
    assert Zeros(1) + r.slots[..1] == [0, x];
  }

  /** A workload of limit 10 without burst, over a two-second window. */
  function Pair(x: int, y: int, t: int, total: int): Account {
    Account(10, 0, Ring([x, y], t, total), 0)
  }

  lemma PairReserve(x: int, y: int, t: int, total: int, now: int, tokens: int)
    requires t <= now <= t + 1
    requires (if now == t then total else total - y) + tokens <= 10
    ensures
      var a, op := Pair(x, y, t, total), DoReserve(Still(now), tokens);
      && Step(a, op) == (if now == t then Pair(x + tokens, y, t, Max(0, total + tokens))
                         else Pair(tokens, x, t + 1, Max(0, total - y + tokens)))
      && ForgottenBy(a, op) == if now == t then 0 else Max(0, -y)
  {
    PairWindow(x, y, t, total, tokens);
  }

  lemma PairRecord(x: int, y: int, t: int, total: int, delta: int)
    ensures
      var a, op := Pair(x, y, t, total), DoRecord(Still(t + 1), delta);
      && Step(a, op) == Pair(delta, x, t + 1, Max(0, total - y + delta))
      && ForgottenBy(a, op) == Max(0, -y)
  {
    PairWindow(x, y, t, total, delta);
  }

  /** An honest run (no overruns, no negative estimates) from `a` that ends at this total. */
  ghost predicate EndsAt(a: Account, ops: seq<Op>, total: int, forgotten: nat)
    requires Sized(a)
  {
    && PlausibleEstimates(ops) && Overruns(ops) == 0
    && Run(a, ops).ring.total == total && ForgottenIn(a, ops) == forgotten
  }

  lemma EndsAfter(a: Account, op: Op, b: Account, rest: seq<Op>, total: int, forgotten: nat)
    requires Sized(a) && b == Step(a, op)
    requires EndsAt(b, rest, total, forgotten)
    requires OverrunOf(op) == 0 && (op.DoReserve? ==> op.estimate >= 0)
    ensures EndsAt(a, [op] + rest, total, forgotten + ForgottenBy(a, op))
  {
    assert ([op] + rest)[1..] == rest;
  }

  lemma PairReserveFirst(x: int, y: int, t: int, total: int, now: int, tokens: nat, b: Account,
                         rest: seq<Op>, end: int, forgotten: nat)
    requires t <= now <= t + 1
    requires (if now == t then total else total - y) + tokens <= 10
    requires b == if now == t then Pair(x + tokens, y, t, Max(0, total + tokens))
                  else Pair(tokens, x, t + 1, Max(0, total - y + tokens))
    requires EndsAt(b, rest, end, forgotten)
    ensures EndsAt(Pair(x, y, t, total), [DoReserve(Still(now), tokens)] + rest, end,
                   forgotten + if now == t then 0 else Max(0, -y))
  {
    PairReserve(x, y, t, total, now, tokens);
    EndsAfter(Pair(x, y, t, total), DoReserve(Still(now), tokens), b, rest, end, forgotten);
  }

  lemma ReserveTwiceBehindRefund() returns (ops: seq<Op>)
    ensures EndsAt(Pair(-10, 10, 1, 0), ops, 20, 10)
  {
    PairWindow(20, -10, 2, 10, 0);
    EndsAfter(Pair(20, -10, 2, 10), DoPoll(3), Pair(0, 20, 3, 20), [], 20, 0);
    ops := [DoPoll(3)] + [];
    PairReserveFirst(10, -10, 2, 0, 2, 10, Pair(20, -10, 2, 10), ops, 20, 10);
    ops := [DoReserve(Still(2), 10)] + ops;
    PairReserveFirst(-10, 10, 1, 0, 2, 10, Pair(10, -10, 2, 0), ops, 20, 10);
    ops := [DoReserve(Still(2), 10)] + ops;
  }

  lemma PairRefundFirst(x: int, y: nat, t: int, total: int, delta: int, b: Account,
                        rest: seq<Op>, end: int, forgotten: nat)
    requires delta <= 0 && b == Pair(delta, x, t + 1, Max(0, total - y + delta))
    requires EndsAt(b, rest, end, forgotten)
    ensures EndsAt(Pair(x, y, t, total), [DoRecord(Still(t + 1), delta)] + rest, end, forgotten)
  {
    PairRecord(x, y, t, total, delta);
    EndsAfter(Pair(x, y, t, total), DoRecord(Still(t + 1), delta), b, rest, end, forgotten);
  }

  /** The forgotten mass is needed: a refund that outlives its reservation hides later use, and
  once it is evicted the total stands at twice the limit although nothing overran. */
  lemma RefundOutlivesReservation() returns (ops: seq<Op>)
    ensures EndsAt(Opened(10, 0, 2, 0), ops, 20, 10)
  {
    ops := ReserveTwiceBehindRefund();
    PairRefundFirst(10, 0, 0, 10, -10, Pair(-10, 10, 1, 0), ops, 20, 10);
    ops := [DoRecord(Still(1), -10)] + ops;
    PairReserveFirst(0, 0, 0, 0, 0, 10, Pair(10, 0, 0, 10), ops, 20, 10);
    ops := [DoReserve(Still(0), 10)] + ops;
    PairOpens();
  }

  lemma PairOpens()
    ensures Opened(10, 0, 2, 0) == Pair(0, 0, 0, 0)
  {
    assert Zeros(2) == [0, 0];
  }

  /** The stored total can be negative: reserve 10, refund it a second later, and let a reader evict
  the reservation before the refund. */
  lemma RefundLeavesNegativeTotal() returns (ops: seq<Op>)
    ensures EndsAt(Opened(10, 0, 2, 0), ops, -10, 0)
    ensures ops == [DoReserve(Still(0), 10), DoRecord(Still(1), -10), DoPoll(2)]
  {
    PairWindow(-10, 10, 1, 0, 0);
    EndsAfter(Pair(-10, 10, 1, 0), DoPoll(2), Pair(0, -10, 2, -10), [], -10, 0);
    ops := [DoPoll(2)] + [];
    PairRefundFirst(10, 0, 0, 10, -10, Pair(-10, 10, 1, 0), ops, -10, 0);
    ops := [DoRecord(Still(1), -10)] + ops;
    PairReserveFirst(0, 0, 0, 0, 0, 10, Pair(10, 0, 0, 10), ops, -10, 0);
    ops := [DoReserve(Still(0), 10)] + ops;
    PairOpens();
  }
}
