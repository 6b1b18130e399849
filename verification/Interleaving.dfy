/** Reserve and Record as many goroutines interleave on one account.

Each step is one critical section of the window mutex, or one load or one
compare-and-swap of the burst counter, exactly as internal/budget/tracker.go and
window.go order them. A thread is one request: a Reserve, then, once admitted, at
most one Record of its delta. A schedule is any sequence of thread numbers with
the clock reading each step takes. */
module Interleaving {
  import opened Options
  import opened Sums
  import opened Ring

  /** How a request got in: the total it read, when (a count of such reads), the burst it spent. */
  datatype Grant = Grant(seen: int, at: nat, spent: int)

  datatype Pc =
    | Start
    | Counted                                        // estimate added, Total next
    | Over(seen: int, at: nat)                       // above the limit, burst load next
    | Loaded(seen: int, at: nat, cur: int)           // burst loaded, swap next
    | Undoing                                        // burst refused, undo next
    | Undone                                         // undo added, status read next
    | Denied(used: int)
    | Admitted(grant: Grant)
    | Recorded(grant: Grant)                         // delta added, Total next
    | Crediting(grant: Grant, freed: int)            // below the limit, burst load next
    | CreditLoaded(grant: Grant, freed: int, cur: int)
    | Settled(grant: Grant, credit: int)

  /** `delta` is what the request will record; None for a reservation left standing. */
  datatype Thread = Thread(estimate: int, delta: Option<int>, pc: Pc)

  datatype Shared = Shared(limit: int, burstMax: int, ring: Ring, burst: int, looks: nat, threads: seq<Thread>)

  datatype Turn = Turn(thread: nat, now: int)

  predicate Usable(s: Shared) {
    |s.ring.slots| >= 1
  }

  function At(s: Shared, i: nat, pc: Pc): Shared
    requires i < |s.threads|
  {
    s.(threads := s.threads[i := s.threads[i].(pc := pc)])
  }

  function AfterTotal(s: Shared, i: nat, ring: Ring): Shared
    requires i < |s.threads|
  {
    var seen := Visible(ring);
    At(s.(ring := ring, looks := s.looks + 1), i,
       if seen <= s.limit then Admitted(Grant(seen, s.looks, 0)) else Over(seen, s.looks))
  }

  function AfterSwap(s: Shared, i: nat, seen: int, at: nat, cur: int): Shared
    requires i < |s.threads|
  {
    if s.burst == cur then
      At(s.(burst := cur - (seen - s.limit)), i, Admitted(Grant(seen, at, seen - s.limit)))
    else At(s, i, Over(seen, at))
  }

  function AfterCreditSwap(s: Shared, i: nat, g: Grant, freed: int, cur: int): Shared
    requires i < |s.threads|
  {
    if s.burst == cur then
      var next := Min(cur + freed, s.burstMax);
      At(s.(burst := next), i, Settled(g, next - cur))
    else At(s, i, Crediting(g, freed))
  }

  function Step(s: Shared, turn: Turn): (r: Shared)
    requires Usable(s)
    ensures Usable(r) && |r.threads| == |s.threads|
    ensures r.limit == s.limit && r.burstMax == s.burstMax
  {
    if turn.thread >= |s.threads| then s else
    var i, now := turn.thread, turn.now;
    var t := s.threads[i];
    match t.pc
    case Start => At(s.(ring := Added(s.ring, now, t.estimate)), i, Counted)
    case Counted => AfterTotal(s, i, Advanced(s.ring, now))
    case Over(seen, at) => At(s, i, if s.burst < seen - s.limit then Undoing else Loaded(seen, at, s.burst))
    case Loaded(seen, at, cur) => AfterSwap(s, i, seen, at, cur)
    case Undoing => At(s.(ring := Added(s.ring, now, -t.estimate)), i, Undone)
    case Undone => At(s.(ring := Advanced(s.ring, now)), i, Denied(Visible(Advanced(s.ring, now))))
    case Admitted(g) =>
      if t.delta.None? then s else At(s.(ring := Added(s.ring, now, t.delta.value)), i, Recorded(g))
    case Recorded(g) =>
      var ring := Advanced(s.ring, now);
      At(s.(ring := ring), i, if Visible(ring) < s.limit then Crediting(g, s.limit - Visible(ring)) else Settled(g, 0))
    case Crediting(g, freed) => At(s, i, CreditLoaded(g, freed, s.burst))
    case CreditLoaded(g, freed, cur) => AfterCreditSwap(s, i, g, freed, cur)
    case Denied(_) => s
    case Settled(_, _) => s
  }

  function Run(s: Shared, turns: seq<Turn>): (r: Shared)
    requires Usable(s)
    ensures Usable(r) && |r.threads| == |s.threads|
    ensures r.limit == s.limit && r.burstMax == s.burstMax
    decreases turns
  {
    if turns == [] then s else Run(Step(s, turns[0]), turns[1..])
  }

  /** Nobody has started; the burst allowance is within bounds. */
  predicate Initial(s: Shared) {
    && Usable(s) && s.limit >= 0 && 0 <= s.burst <= s.burstMax
    && forall i :: 0 <= i < |s.threads| ==> s.threads[i].pc == Start
  }

  // ---- Measures over all threads ----

  datatype Meter =
    | Held               // tokens a thread currently has in the window
    | HeldUpTo(at: int)  // the same, for threads whose Total read is no later than `at`
    | Granted            // the same, for admitted threads
    | Spent              // burst tokens taken
    | Credited           // burst tokens given back
    | Overrun            // positive deltas recorded so far
    | Asked              // estimates, whatever became of them
    | Count              // one for each admitted thread
    | Reserved           // estimates in the window, deltas aside
    | InFlight           // the same, for threads not (yet) admitted
    | NewerThan(at: int) // the same, for threads that may have added after a Total read at `at`

  predicate HasGrant(pc: Pc) {
    pc.Admitted? || pc.Recorded? || pc.Crediting? || pc.CreditLoaded? || pc.Settled?
  }

  predicate HasRead(pc: Pc) {
    pc.Over? || pc.Loaded? || HasGrant(pc)
  }

  function ReadAt(pc: Pc): int
    requires HasRead(pc)
  {
    if HasGrant(pc) then pc.grant.at else pc.at
  }

  function ReadSeen(pc: Pc): int
    requires HasRead(pc)
  {
    if HasGrant(pc) then pc.grant.seen else pc.seen
  }

  /** The delta this thread has put into the window. */
  function Applied(t: Thread): int {
    if t.delta.Some? && HasGrant(t.pc) && !t.pc.Admitted? then t.delta.value else 0
  }

  /** The thread's estimate has been added and not undone. */
  predicate InWindow(pc: Pc) {
    !pc.Start? && !pc.Undone? && !pc.Denied?
  }

  function Holding(t: Thread): int {
    if InWindow(t.pc) then t.estimate + Applied(t) else 0
  }

  function Weigh(t: Thread, m: Meter): int {
    match m
    case Held => Holding(t)
    case HeldUpTo(at) => if HasRead(t.pc) && ReadAt(t.pc) <= at then Holding(t) else 0
    case Granted => if HasGrant(t.pc) then Holding(t) else 0
    case Spent => if HasGrant(t.pc) then t.pc.grant.spent else 0
    case Credited => if t.pc.Settled? then t.pc.credit else 0
    case Overrun => Max(0, Applied(t))
    case Asked => t.estimate
    case Count => if HasGrant(t.pc) then 1 else 0
    case Reserved => if InWindow(t.pc) then t.estimate else 0
    case InFlight => if InWindow(t.pc) && !HasGrant(t.pc) then t.estimate else 0
    case NewerThan(at) =>
      if t.pc.Counted? || t.pc.Undoing? || (HasRead(t.pc) && ReadAt(t.pc) > at) then t.estimate else 0
  }

  function Measure(ts: seq<Thread>, m: Meter): int {
    if ts == [] then 0 else Weigh(ts[0], m) + Measure(ts[1..], m)
  }

  lemma {:induction false} MeasureUpdate(ts: seq<Thread>, i: nat, t: Thread, m: Meter)
    requires i < |ts|
    ensures Measure(ts[i := t], m) == Measure(ts, m) - Weigh(ts[i], m) + Weigh(t, m)
  {
    if i == 0 {
      assert ts[0 := t][1..] == ts[1..];
    } else {
      MeasureUpdate(ts[1..], i - 1, t, m);
      assert ts[i := t][1..] == ts[1..][i - 1 := t];
    }
  }

  lemma {:induction false} MeasureLe(ts: seq<Thread>, m: Meter, m': Meter)
    requires forall i :: 0 <= i < |ts| ==> Weigh(ts[i], m) <= Weigh(ts[i], m')
    ensures Measure(ts, m) <= Measure(ts, m')
  {
    if ts != [] {
      MeasureLe(ts[1..], m, m');
    }
  }

  lemma {:induction false} MeasureZero(ts: seq<Thread>, m: Meter)
    requires forall i :: 0 <= i < |ts| ==> Weigh(ts[i], m) == 0
    ensures Measure(ts, m) == 0
  {
    if ts != [] {
      MeasureZero(ts[1..], m);
    }
  }

  /** One member never outweighs the whole when no member is negative. */
  lemma {:induction false} MeasureMember(ts: seq<Thread>, i: nat, m: Meter)
    requires i < |ts| && forall j :: 0 <= j < |ts| ==> Weigh(ts[j], m) >= 0
    ensures Weigh(ts[i], m) <= Measure(ts, m)
  {
    if i > 0 {
      MeasureMember(ts[1..], i - 1, m);
    } else {
      MeasureNonNegative(ts[1..], m);
    }
  }

  lemma {:induction false} MeasureNonNegative(ts: seq<Thread>, m: Meter)
    requires forall j :: 0 <= j < |ts| ==> Weigh(ts[j], m) >= 0
    ensures Measure(ts, m) >= 0
  {
    if ts != [] {
      MeasureNonNegative(ts[1..], m);
    }
  }

  /** How one step changes any measure: only the stepping thread's weight moves. */
  lemma StepMeasure(s: Shared, turn: Turn, m: Meter)
    requires Usable(s) && turn.thread < |s.threads|
    ensures
      var s' := Step(s, turn);
      var i := turn.thread;
      && s'.threads == s.threads[i := s'.threads[i]]
      && Measure(s'.threads, m) == Measure(s.threads, m) - Weigh(s.threads[i], m) + Weigh(s'.threads[i], m)
  {
    var i := turn.thread;
    var s' := Step(s, turn);
    assert s'.threads == s.threads[i := s'.threads[i]];
    MeasureUpdate(s.threads, i, s'.threads[i], m);
  }

  lemma {:induction false} RunAppend(s: Shared, a: seq<Turn>, b: seq<Turn>)
    requires Usable(s)
    ensures Run(s, a + b) == Run(Run(s, a), b)
    decreases a
  {
    if a == [] {
      assert a + b == b;
    } else {
      RunAppend(Step(s, a[0]), a[1..], b);
      assert (a + b)[1..] == a[1..] + b;
    }
  }
}
