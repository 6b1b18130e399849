/** The rolling window as a value, and the plain log it stands for.

`slots[k]` is the bucket k places behind the head, so the circular layout of
internal/budget/window.go (head index, wrap-around) is already factored out;
RollingWindow.dfy proves that the array code computes these functions. */
module Ring {
  import opened Sums

  datatype Ring = Ring(slots: seq<int>, headTime: int, total: int)

  function Fresh(n: nat, now: int): Ring {
    Ring(Zeros(n), now, 0)
  }

  /** The lazy eviction step: nothing for a clock at or behind the head, a reset
  when the whole window has passed, a shift that forgets the tail otherwise. */
  function Advanced(r: Ring, now: int): (a: Ring)
    ensures |a.slots| == |r.slots|
    ensures a.headTime == Max(r.headTime, now)
  {
    var n := |r.slots|;
    if now <= r.headTime then r
    else if now - r.headTime >= n then Fresh(n, now)
    else
      var keep := n - (now - r.headTime);
      Ring(Zeros(n - keep) + r.slots[..keep], now, r.total - Sum(r.slots[keep..]))
  }

  function Added(r: Ring, now: int, tokens: int): (a: Ring)
    requires |r.slots| >= 1
    ensures |a.slots| == |r.slots|
    ensures a.headTime == Max(r.headTime, now)
  {
    var v := Advanced(r, now);
    Ring(v.slots[0 := v.slots[0] + tokens], v.headTime, Max(0, v.total + tokens))
  }

  /** What a caller of Total sees. */
  function Visible(r: Ring): nat {
    Max(0, r.total)
  }

  /** How far the cached total runs ahead of the buckets. */
  function Drift(r: Ring): int {
    r.total - Sum(r.slots)
  }

  // ---- The reference: an append-only log, a high-water clock and a drift ----

  /** One addition, stamped with the highest clock reading so far. */
  datatype Entry = Entry(stamp: int, tokens: int)

  datatype Ledger = Ledger(log: seq<Entry>, high: int, drift: int)

  /** Everything logged for one second. */
  function SumAt(log: seq<Entry>, t: int): int {
    if log == [] then 0
    else (if log[0].stamp == t then log[0].tokens else 0) + SumAt(log[1..], t)
  }

  /** Everything logged after `lo`, up to and including `hi`. */
  function SumWithin(log: seq<Entry>, lo: int, hi: int): int {
    if log == [] then 0
    else (if lo < log[0].stamp <= hi then log[0].tokens else 0) + SumWithin(log[1..], lo, hi)
  }

  /** The naive meaning of an n-second window: everything logged in the last n seconds. */
  function Live(l: Ledger, n: nat): int {
    SumWithin(l.log, l.high - n, l.high)
  }

  datatype Call = Add(now: int, tokens: int) | Total(now: int)

  /** The clock moves the high-water mark; the drift is forgotten only when a whole window has passed. */
  function LedgerAt(l: Ledger, n: nat, now: int): Ledger {
    if now <= l.high then l
    else l.(high := now, drift := if now - l.high >= n then 0 else l.drift)
  }

  /** What clamping at zero adds when `tokens` arrives at clock `now`. */
  function Lift(l: Ledger, n: nat, now: int, tokens: int): nat {
    var a := LedgerAt(l, n, now);
    Max(0, -(Live(a, n) + a.drift + tokens))
  }

  function LedgerStep(l: Ledger, n: nat, call: Call): Ledger {
    var a := LedgerAt(l, n, call.now);
    match call
    case Total(_) => a
    case Add(_, tokens) =>
      Ledger(a.log + [Entry(a.high, tokens)], a.high, a.drift + Lift(l, n, call.now, tokens))
  }

  function RingStep(r: Ring, call: Call): (a: Ring)
    requires |r.slots| >= 1
    ensures |a.slots| == |r.slots|
  {
    match call
    case Total(now) => Advanced(r, now)
    case Add(now, tokens) => Added(r, now, tokens)
  }

  function RunRing(r: Ring, calls: seq<Call>): (a: Ring)
    requires |r.slots| >= 1
    ensures |a.slots| == |r.slots|
    decreases calls
  {
    if calls == [] then r else RunRing(RingStep(r, calls[0]), calls[1..])
  }

  function RunLedger(l: Ledger, n: nat, calls: seq<Call>): Ledger
    decreases calls
  {
    if calls == [] then l else RunLedger(LedgerStep(l, n, calls[0]), n, calls[1..])
  }

  /** Every bucket holds exactly what was logged for its second. */
  ghost predicate HoldsLog(r: Ring, log: seq<Entry>) {
    && (forall k :: 0 <= k < |r.slots| ==> r.slots[k] == SumAt(log, r.headTime - k))
    && (forall i :: 0 <= i < |log| ==> log[i].stamp <= r.headTime)
  }

  ghost predicate Refines(r: Ring, l: Ledger) {
    && HoldsLog(r, l.log)
    && r.headTime == l.high
    && l.drift >= 0
    && r.total == Live(l, |r.slots|) + l.drift
  }

  lemma {:induction false} SumAtAppend(log: seq<Entry>, e: Entry, t: int)
    ensures SumAt(log + [e], t) == SumAt(log, t) + (if e.stamp == t then e.tokens else 0)
  {
    if log == [] {
      assert log + [e] == [e];
    } else {
      SumAtAppend(log[1..], e, t);
      assert (log + [e])[1..] == log[1..] + [e];
    }
  }

  lemma {:induction false} SumAtFuture(log: seq<Entry>, t: int)
    requires forall i :: 0 <= i < |log| ==> log[i].stamp < t
    ensures SumAt(log, t) == 0
  {
    if log != [] {
      SumAtFuture(log[1..], t);
    }
  }

  lemma {:induction false} SumWithinPeel(log: seq<Entry>, lo: int, hi: int)
    requires lo < hi
    ensures SumWithin(log, lo, hi) == SumAt(log, hi) + SumWithin(log, lo, hi - 1)
  {
    if log != [] {
      SumWithinPeel(log[1..], lo, hi);
    }
  }

  lemma {:induction false} SumWithinEmpty(log: seq<Entry>, t: int)
    ensures SumWithin(log, t, t) == 0
  {
    if log != [] {
      SumWithinEmpty(log[1..], t);
    }
  }

  /** Summing per-second buckets backwards from `hi` sums the window. */
  lemma {:induction false} SlotsSumWindow(slots: seq<int>, log: seq<Entry>, hi: int)
    requires forall k :: 0 <= k < |slots| ==> slots[k] == SumAt(log, hi - k)
    ensures Sum(slots) == SumWithin(log, hi - |slots|, hi)
  {
    if slots == [] {
      SumWithinEmpty(log, hi);
    } else {
      SlotsSumWindow(slots[1..], log, hi - 1);
      SumWithinPeel(log, hi - |slots|, hi);
    }
  }

  /** The drift is exactly what separates the cached total from the buckets. */
  lemma RefinementFixesDrift(r: Ring, l: Ledger)
    requires HoldsLog(r, l.log) && r.headTime == l.high
    ensures Sum(r.slots) == Live(l, |r.slots|)
    ensures Refines(r, l) <==> Drift(r) == l.drift >= 0
  {
    SlotsSumWindow(r.slots, l.log, r.headTime);
  }

  lemma AdvanceHoldsLog(r: Ring, log: seq<Entry>, now: int)
    requires HoldsLog(r, log)
    ensures HoldsLog(Advanced(r, now), log)
  {
    var a := Advanced(r, now);
    if now > r.headTime {
      var passed := now - r.headTime;
      forall k | 0 <= k < |r.slots|
        ensures a.slots[k] == SumAt(log, now - k)
      {
        if k < passed {
          SumAtFuture(log, now - k);
        } else {
          assert a.slots[k] == r.slots[k - passed];
        }
      }
    }
  }

  lemma AddHoldsLog(r: Ring, log: seq<Entry>, now: int, tokens: int)
    requires |r.slots| >= 1 && HoldsLog(r, log)
    ensures HoldsLog(Added(r, now, tokens), log + [Entry(Max(r.headTime, now), tokens)])
  {
    AdvanceHoldsLog(r, log, now);
    var v, a := Advanced(r, now), Added(r, now, tokens);
    var e := Entry(a.headTime, tokens);
    forall k | 0 <= k < |a.slots|
      ensures a.slots[k] == SumAt(log + [e], a.headTime - k)
    {
      SumAtAppend(log, e, a.headTime - k);
    }
  }

  /** How eviction moves the drift: a full-window reset clears it, nothing else touches it. */
  lemma AdvanceDrift(r: Ring, now: int)
    ensures Drift(Advanced(r, now)) == if now - r.headTime >= |r.slots| && now > r.headTime then 0 else Drift(r)
  {
    var n := |r.slots|;
    if now > r.headTime {
      if now - r.headTime >= n {
        SumZeros(n);
      } else {
        var keep := n - (now - r.headTime);
        SumZeros(n - keep);
        SumAppend(Zeros(n - keep), r.slots[..keep]);
        SumAppend(r.slots[..keep], r.slots[keep..]);
        assert r.slots[..keep] + r.slots[keep..] == r.slots;
      }
    }
  }

  lemma StepRefines(r: Ring, l: Ledger, call: Call)
    requires |r.slots| >= 1 && Refines(r, l)
    ensures Refines(RingStep(r, call), LedgerStep(l, |r.slots|, call))
  {
    var n := |r.slots|;
    var v, a := Advanced(r, call.now), LedgerAt(l, n, call.now);
    AdvanceHoldsLog(r, l.log, call.now);
    AdvanceDrift(r, call.now);
    RefinementFixesDrift(r, l);
    RefinementFixesDrift(v, a);
    if call.Add? {
      AddHoldsLog(r, l.log, call.now, call.tokens);
      SumUpdate(v.slots, 0, v.slots[0] + call.tokens);
      RefinementFixesDrift(RingStep(r, call), LedgerStep(l, n, call));
    }
  }

  /** Ring refinement over every run: backward clocks, full-window resets and clamps included,
  each bucket holds what the log says for its second, and the cached total is the naive
  n-second sum plus a drift that is never negative. */
  lemma {:induction false} RunRefines(r: Ring, l: Ledger, calls: seq<Call>)
    requires |r.slots| >= 1 && Refines(r, l)
    ensures Refines(RunRing(r, calls), RunLedger(l, |r.slots|, calls))
    decreases calls
  {
    if calls != [] {
      StepRefines(r, l, calls[0]);
      RunRefines(RingStep(r, calls[0]), LedgerStep(l, |r.slots|, calls[0]), calls[1..]);
    }
  }

  lemma FreshRefines(n: nat, now: int)
    ensures Refines(Fresh(n, now), Ledger([], now, 0))
  {
  }

  /** No addition of the run is lifted by the clamp. */
  ghost predicate NoClamp(l: Ledger, n: nat, calls: seq<Call>)
    decreases calls
  {
    calls != [] ==>
      && (calls[0].Add? ==> Lift(l, n, calls[0].now, calls[0].tokens) == 0)
      && NoClamp(LedgerStep(l, n, calls[0]), n, calls[1..])
  }

  lemma {:induction false} NoClampNoDrift(l: Ledger, n: nat, calls: seq<Call>)
    requires NoClamp(l, n, calls) && l.drift == 0
    ensures RunLedger(l, n, calls).drift == 0
    decreases calls
  {
    if calls != [] {
      NoClampNoDrift(LedgerStep(l, n, calls[0]), n, calls[1..]);
    }
  }

  /** What Total reports after any run from a fresh window: never less than the naive
  n-second sum, and exactly that sum floored at zero when nothing was clamped since the
  last time the drift was zero (`calls` is the part of the run since then). */
  lemma TotalMeetsNaiveSum(n: nat, now: int, before: seq<Call>, calls: seq<Call>)
    requires n >= 1
    ensures
      var l := RunLedger(Ledger([], now, 0), n, before);
      var r := RunRing(Fresh(n, now), before);
      && Visible(RunRing(r, calls)) >= Live(RunLedger(l, n, calls), n)
      && (l.drift == 0 && NoClamp(l, n, calls) ==>
            Visible(RunRing(r, calls)) == Max(0, Live(RunLedger(l, n, calls), n)))
  {
    FreshRefines(n, now);
    RunRefines(Fresh(n, now), Ledger([], now, 0), before);
    var l, r := RunLedger(Ledger([], now, 0), n, before), RunRing(Fresh(n, now), before);
    RunRefines(r, l, calls);
    if l.drift == 0 && NoClamp(l, n, calls) {
      NoClampNoDrift(l, n, calls);
    }
  }

  // ---- When the stored total is negative ----

  /** One call makes a non-negative stored total negative exactly when it is a reader's partial
  eviction and what stays in the buckets, plus the drift, is negative: no addition ever does. */
  lemma TurnsNegativeExactly(r: Ring, call: Call)
    requires |r.slots| >= 1 && r.total >= 0
    ensures
      RingStep(r, call).total < 0 <==>
        && call.Total? && r.headTime < call.now < r.headTime + |r.slots|
        && Drift(r) + Sum(r.slots[..|r.slots| - (call.now - r.headTime)]) < 0
  {
    if r.headTime < call.now < r.headTime + |r.slots| {
      var keep := |r.slots| - (call.now - r.headTime);
      SumAppend(r.slots[..keep], r.slots[keep..]);
      assert r.slots[..keep] + r.slots[keep..] == r.slots;
    }
  }

  /** Over every run from a fresh window: the stored total is negative exactly when the naive sum
  plus the drift is, which takes a bucket that is negative itself and a reader as the last caller. */
  lemma NegativeExactly(n: nat, now: int, calls: seq<Call>)
    requires n >= 1
    ensures
      var r, l := RunRing(Fresh(n, now), calls), RunLedger(Ledger([], now, 0), n, calls);
      && (r.total < 0 <==> Live(l, n) < -l.drift)
      && (r.total < 0 ==> (exists k :: 0 <= k < n && r.slots[k] < 0) && calls != [] && calls[|calls| - 1].Total?)
  {
    var r, l := RunRing(Fresh(n, now), calls), RunLedger(Ledger([], now, 0), n, calls);
    FreshRefines(n, now);
    RunRefines(Fresh(n, now), Ledger([], now, 0), calls);
    RefinementFixesDrift(r, l);
    if r.total < 0 {
      NegativeSumHasNegative(r.slots);
      LastIsReader(Fresh(n, now), calls);
    }
  }

  lemma {:induction false} LastIsReader(r: Ring, calls: seq<Call>)
    requires |r.slots| >= 1 && calls != [] && RunRing(r, calls).total < 0
    ensures calls[|calls| - 1].Total?
    decreases calls
  {
    if |calls| > 1 {
      LastIsReader(RingStep(r, calls[0]), calls[1..]);
    } else {
      assert calls[1..] == [];
    }
  }

  // ---- When stopping on the way is invisible ----

  /** Dropping the last j, then the last k of what is left, drops the last j + k. */
  lemma DropTwice(slots: seq<int>, j: nat, k: nat)
    requires j + k <= |slots|
    ensures
      var n := |slots|;
      var v := Zeros(j) + slots[..n - j];
      && Zeros(k) + v[..n - k] == Zeros(j + k) + slots[..n - (j + k)]
      && Sum(v[n - k..]) + Sum(slots[n - j..]) == Sum(slots[n - (j + k)..])
  {
    var n := |slots|;
    var lo, hi := n - (j + k), n - j;
    var v := Zeros(j) + slots[..hi];
    assert v[n - k..] == slots[lo..hi];
    SumSplit(slots, lo, hi);
  }

  lemma SumSplit(s: seq<int>, lo: nat, hi: nat)
    requires lo <= hi <= |s|
    ensures Sum(s[lo..hi]) + Sum(s[hi..]) == Sum(s[lo..])
  {
    SumAppend(s[lo..hi], s[hi..]);
    assert s[lo..hi] + s[hi..] == s[lo..];
  }

  lemma ShiftThenShift(r: Ring, mid: int, now: int)
    requires r.headTime < mid < now && now - r.headTime < |r.slots|
    ensures Advanced(Advanced(r, mid), now) == Advanced(r, now)
  {
    DropTwice(r.slots, mid - r.headTime, now - mid);
  }

  lemma ShiftPastTheEnd(r: Ring, mid: int, now: int)
    requires r.headTime < mid < now && now - r.headTime >= |r.slots|
    requires mid - r.headTime < |r.slots| && now - mid < |r.slots|
    ensures Advanced(Advanced(r, mid), now) == Fresh(|r.slots|, now).(total := Drift(r))
  {
    var n := |r.slots|;
    var v := Advanced(r, mid);
    var b := n - (now - mid);
    AdvanceDrift(r, mid);
    AdvanceDrift(v, now);
    assert v.slots[..b] == Zeros(b);
    assert Zeros(n - b) + Zeros(b) == Zeros(n);
    SumZeros(n);
  }

  lemma FreshStaysFresh(n: nat, mid: int, now: int)
    requires mid <= now
    ensures Advanced(Fresh(n, mid), now) == Fresh(n, now)
  {
    var passed := now - mid;
    if 0 < passed < n {
      SumZeros(passed);
      assert Zeros(n)[n - passed..] == Zeros(passed);
      assert Zeros(passed) + Zeros(n)[..n - passed] == Zeros(n);
    }
  }

  /** An extra eviction at an intermediate second is invisible exactly when there is no drift
  to lose, or when it does not split a full-window gap into two partial shifts. */
  lemma ExtraEvictionInvisible(r: Ring, mid: int, now: int)
    requires r.headTime <= mid <= now
    ensures Advanced(Advanced(r, mid), now) == Advanced(r, now) <==>
              || Drift(r) == 0
              || now - r.headTime < |r.slots|
              || mid - r.headTime >= |r.slots|
              || now - mid >= |r.slots|
  {
    if r.headTime < mid < now {
      if now - r.headTime < |r.slots| {
        ShiftThenShift(r, mid, now);
      } else if mid - r.headTime >= |r.slots| {
        FreshStaysFresh(|r.slots|, mid, now);
      } else if now - mid < |r.slots| {
        ShiftPastTheEnd(r, mid, now);
      }
    }
  }
}
