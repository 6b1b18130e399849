/** internal/budget/tracker.go on values: one workload's budget, called sequentially.

Every inner window call reads the clock again, so an operation takes a `Clock`
with one reading per call; the readings may differ and may run backwards unless a
lemma says otherwise. */
module Accounts {
  import opened Sums
  import opened Ring

  datatype Account = Account(limit: int, burstMax: int, ring: Ring, burst: int)

  datatype BudgetStatus = BudgetStatus(used: int, limit: int, burst: int)

  /** The clock readings of one operation, in the order the code takes them. */
  datatype Clock = Clock(add: int, total: int, undo: int, final: int)

  function Still(now: int): Clock {
    Clock(now, now, now, now)
  }

  datatype Reservation = Reservation(after: Account, status: BudgetStatus, allowed: bool)

  /** A window of at least one bucket: what NewRollingWindow needs to be usable. */
  predicate Sized(a: Account) {
    |a.ring.slots| >= 1
  }

  /** The burst allowance stays between nothing and its maximum, under a non-negative limit. */
  predicate Sound(a: Account) {
    Sized(a) && a.limit >= 0 && 0 <= a.burst <= a.burstMax
  }

  function Reserve(a: Account, c: Clock, estimate: int): (r: Reservation)
    requires Sized(a)
    ensures Sized(r.after) && r.after.limit == a.limit && r.after.burstMax == a.burstMax
  {
    var seen := Advanced(Added(a.ring, c.add, estimate), c.total);
    var over := Visible(seen) - a.limit;
    if over <= 0 then
      Reservation(a.(ring := seen), BudgetStatus(Visible(seen), a.limit, a.burst), true)
    else if over <= a.burst then
      Reservation(a.(ring := seen, burst := a.burst - over), BudgetStatus(Visible(seen), a.limit, a.burst - over), true)
    else
      var undone := Advanced(Added(seen, c.undo, -estimate), c.final);
      Reservation(a.(ring := undone), BudgetStatus(Visible(undone), a.limit, a.burst), false)
  }

  function Record(a: Account, c: Clock, delta: int): (r: Account)
    requires Sized(a)
    ensures Sized(r) && r.limit == a.limit && r.burstMax == a.burstMax
  {
    var seen := Advanced(Added(a.ring, c.add, delta), c.total);
    var freed := a.limit - Visible(seen);
    a.(ring := seen, burst := if freed > 0 then Min(a.burst + freed, a.burstMax) else a.burst)
  }

  function Poll(a: Account, now: int): (r: Account)
    ensures Sized(a) ==> Sized(r)
  {
    a.(ring := Advanced(a.ring, now))
  }

  function StatusOf(a: Account): BudgetStatus {
    BudgetStatus(Visible(a.ring), a.limit, a.burst)
  }

  lemma AdvanceOnce(r: Ring, now: int)
    ensures Advanced(Advanced(r, now), now) == Advanced(r, now)
  {
  }

  // ---- One operation at one clock second ----

  /** Exactly when a reservation is denied, and what the denial leaves behind: nothing but the
  eviction any reader would have caused, with a negative stored total lifted to zero. */
  lemma DenialIsNoOp(a: Account, now: int, estimate: int)
    requires Sound(a)
    ensures
      var r, idle := Reserve(a, Still(now), estimate), Poll(a, now);
      && (r.allowed <==> idle.ring.total + estimate <= a.limit + a.burst)
      && (!r.allowed ==>
            && r.after == idle.(ring := idle.ring.(total := Visible(idle.ring)))
            && r.status == StatusOf(idle)
            && StatusOf(r.after) == StatusOf(idle))
  {
    var idle := Advanced(a.ring, now);
    AdvanceOnce(a.ring, now);
    var seen := Added(a.ring, now, estimate);
    var undone := Added(seen, now, -estimate);
    assert undone.slots == idle.slots;
  }

  /** Exactly what an admitted reservation adds: its estimate to the total, and the part above
  the limit taken from the burst allowance. */
  lemma AdmissionTakesEstimate(a: Account, now: int, estimate: int)
    requires Sound(a)
    requires Reserve(a, Still(now), estimate).allowed
    ensures
      var r, idle := Reserve(a, Still(now), estimate), Poll(a, now);
      && r.after.ring.total == Max(0, idle.ring.total + estimate)
      && Sum(r.after.ring.slots) == Sum(idle.ring.slots) + estimate
      && r.after.burst == a.burst - Max(0, r.after.ring.total - a.limit)
      && r.status == StatusOf(r.after)
  {
    var idle := Advanced(a.ring, now);
    SumUpdate(idle.slots, 0, idle.slots[0] + estimate);
  }

  /** Reserving and then refunding in full at the same second leaves the window as if the request
  had never been made, and moves the burst from what the reservation took to what the refund finds
  free: it is made whole exactly when the overage taken is no more than the room left below the limit. */
  lemma RefundUndoesReservation(a: Account, now: int, estimate: int)
    requires Sound(a) && estimate >= 0
    ensures
      var r, idle := Reserve(a, Still(now), estimate), Poll(a, now);
      var over := Max(0, idle.ring.total + estimate - a.limit);
      var room := Max(0, a.limit - Visible(idle.ring));
      r.allowed ==>
        var back := Record(r.after, Still(now), -estimate);
        && back == Account(a.limit, a.burstMax, idle.ring.(total := Visible(idle.ring)), Min(a.burst - over + room, a.burstMax))
        && (back.burst >= a.burst <==> over <= room)
  {
    var idle := Advanced(a.ring, now);
    var seen := Added(a.ring, now, estimate);
    assert Added(seen, now, -estimate).slots == idle.slots;
  }

  // ---- Every window addition, as entries of the log ----

  function Stamp(r: Ring, now: int): int {
    Max(r.headTime, now)
  }

  /** The additions one Reserve makes: the estimate, and its negation when denied. */
  function ReserveEntries(a: Account, c: Clock, estimate: int): seq<Entry>
    requires Sized(a)
  {
    var t1 := Stamp(a.ring, c.add);
    var t2 := Max(Max(t1, c.total), c.undo);
    [Entry(t1, estimate)] + if Reserve(a, c, estimate).allowed then [] else [Entry(t2, -estimate)]
  }

  function RecordEntries(a: Account, c: Clock, delta: int): seq<Entry> {
    [Entry(Stamp(a.ring, c.add), delta)]
  }

  lemma ReserveHoldsLog(a: Account, c: Clock, estimate: int, log: seq<Entry>)
    requires Sized(a) && HoldsLog(a.ring, log)
    ensures HoldsLog(Reserve(a, c, estimate).after.ring, log + ReserveEntries(a, c, estimate))
  {
    var added := Added(a.ring, c.add, estimate);
    var first := Entry(Stamp(a.ring, c.add), estimate);
    AddHoldsLog(a.ring, log, c.add, estimate);
    AdvanceHoldsLog(added, log + [first], c.total);
    var seen := Advanced(added, c.total);
    if !Reserve(a, c, estimate).allowed {
      AddHoldsLog(seen, log + [first], c.undo, -estimate);
      var second := Entry(Stamp(seen, c.undo), -estimate);
      AdvanceHoldsLog(Added(seen, c.undo, -estimate), log + [first] + [second], c.final);
      assert log + [first] + [second] == log + ReserveEntries(a, c, estimate);
    } else {
      assert log + [first] == log + ReserveEntries(a, c, estimate);
    }
  }

  lemma RecordHoldsLog(a: Account, c: Clock, delta: int, log: seq<Entry>)
    requires Sized(a) && HoldsLog(a.ring, log)
    ensures HoldsLog(Record(a, c, delta).ring, log + RecordEntries(a, c, delta))
  {
    AddHoldsLog(a.ring, log, c.add, delta);
    AdvanceHoldsLog(Added(a.ring, c.add, delta), log + RecordEntries(a, c, delta), c.total);
  }
}
