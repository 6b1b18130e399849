/** Lazy eviction is unobservable: status polls between operations change nothing later. */
module Polling {
  import opened Sums
  import opened Ring
  import opened Accounts
  import opened AccountRuns
  import opened Options
  import opened Trackers

  function Answers(a: Account, ops: seq<Op>): (r: seq<Answer>)
    requires Sized(a)
    ensures |r| == |ops|
    decreases ops
  {
    if ops == [] then [] else [AnswerOf(a, ops[0])] + Answers(Step(a, ops[0]), ops[1..])
  }

  /** The answers of a run are the tracker's own: what Reserve replies, nothing from Record, and what
  Status reads; and the run moves the key's account as the tracker does. */
  lemma AnswersAreTheTrackers(book: Book, id: string, op: Op)
    requires BookSized(book) && id in book
    ensures
      var a := book[id];
      match op
      case DoReserve(c, estimate) =>
        var (after, reply) := ReserveIn(book, id, c, estimate);
        reply.Some? && AnswerOf(a, op) == Reserved(reply.value.0, reply.value.1) && after == book[id := Step(a, op)]
      case DoRecord(c, delta) => AnswerOf(a, op) == Silent && RecordIn(book, id, c, delta) == book[id := Step(a, op)]
      case DoPoll(now) =>
        var r := Advanced(a.ring, now);
        AnswerOf(a, op) == Polled(BudgetStatus(Max(0, r.total), a.limit, a.burst)) && Step(a, op) == a.(ring := r)
  {
  }

  /** The members of `s` marked to be kept. */
  function Thinned<T>(s: seq<T>, keep: seq<bool>): seq<T>
    requires |s| == |keep|
  {
    if s == [] then [] else (if keep[0] then [s[0]] else []) + Thinned(s[1..], keep[1..])
  }

  /** Only polls are dropped. */
  ghost predicate DropsPolls(ops: seq<Op>, keep: seq<bool>) {
    |keep| == |ops| && forall i :: 0 <= i < |ops| && !keep[i] ==> ops[i].DoPoll?
  }

  /** The last clock reading an operation may take. */
  function LastReading(op: Op): int {
    if op.DoPoll? then op.now else op.clock.final
  }

  predicate OpForward(t: int, op: Op) {
    match op
    case DoPoll(now) => t <= now
    case _ => t <= op.clock.add <= op.clock.total <= op.clock.undo <= op.clock.final
  }

  /** The clock never runs backwards from `t`. */
  ghost predicate Forward(t: int, ops: seq<Op>)
    decreases ops
  {
    ops != [] ==> OpForward(t, ops[0]) && Forward(LastReading(ops[0]), ops[1..])
  }

  function ClockAfter(t: int, ops: seq<Op>): int
    decreases ops
  {
    if ops == [] then t else ClockAfter(LastReading(ops[0]), ops[1..])
  }

  /** No addition of this operation is lifted by the clamp at zero. */
  predicate OpClampFree(a: Account, op: Op)
    requires Sized(a)
  {
    match op
    case DoPoll(_) => true
    case DoRecord(c, delta) => Advanced(a.ring, c.add).total + delta >= 0
    case DoReserve(c, estimate) =>
      var seen := Advanced(Added(a.ring, c.add, estimate), c.total);
      && Advanced(a.ring, c.add).total + estimate >= 0
      && (Reserve(a, c, estimate).allowed || Advanced(seen, c.undo).total - estimate >= 0)
  }

  ghost predicate ClampFree(a: Account, ops: seq<Op>)
    requires Sized(a)
    decreases ops
  {
    ops != [] ==> OpClampFree(a, ops[0]) && ClampFree(Step(a, ops[0]), ops[1..])
  }

  /** Two accounts that no caller can tell apart from clock `t` on. */
  predicate Same(a: Account, b: Account, t: int) {
    && Sized(a) && Sized(b)
    && a.(ring := b.ring) == b
    && Drift(a.ring) == 0 == Drift(b.ring)
    && a.ring.headTime <= t && b.ring.headTime <= t
    && Advanced(a.ring, t) == Advanced(b.ring, t)
  }

  lemma SameLater(a: Account, b: Account, t: int, now: int)
    requires Same(a, b, t) && t <= now
    ensures Advanced(a.ring, now) == Advanced(b.ring, now)
  {
    ExtraEvictionInvisible(a.ring, t, now);
    ExtraEvictionInvisible(b.ring, t, now);
  }

  lemma AddKeepsDrift(r: Ring, now: int, tokens: int)
    requires |r.slots| >= 1 && Drift(r) == 0 && Advanced(r, now).total + tokens >= 0
    ensures Drift(Added(r, now, tokens)) == 0
  {
    AdvanceDrift(r, now);
    var v := Advanced(r, now);
    SumUpdate(v.slots, 0, v.slots[0] + tokens);
  }

  lemma StepKeepsDrift(a: Account, op: Op)
    requires Sized(a) && Drift(a.ring) == 0 && OpClampFree(a, op)
    ensures Drift(Step(a, op).ring) == 0
  {
    match op
    case DoPoll(now) => AdvanceDrift(a.ring, now);
    case DoRecord(c, delta) =>
      AddKeepsDrift(a.ring, c.add, delta);
      AdvanceDrift(Added(a.ring, c.add, delta), c.total);
    case DoReserve(c, estimate) =>
      AddKeepsDrift(a.ring, c.add, estimate);
      var added := Added(a.ring, c.add, estimate);
      var seen := Advanced(added, c.total);
      AdvanceDrift(added, c.total);
      if !Reserve(a, c, estimate).allowed {
        AddKeepsDrift(seen, c.undo, -estimate);
        AdvanceDrift(Added(seen, c.undo, -estimate), c.final);
      }
  }

  /** An operation depends on the window only through what its first reading evicts. */
  lemma FirstReadingDecides(a: Account, b: Account, op: Op)
    requires Sized(a) && a.(ring := b.ring) == b
    requires var first := if op.DoPoll? then op.now else op.clock.add;
             Advanced(a.ring, first) == Advanced(b.ring, first)
    ensures Sized(b) && Step(a, op) == Step(b, op) && AnswerOf(a, op) == AnswerOf(b, op)
  {
    match op
    case DoPoll(now) =>
    case DoRecord(c, delta) => assert Added(a.ring, c.add, delta) == Added(b.ring, c.add, delta);
    case DoReserve(c, estimate) => assert Added(a.ring, c.add, estimate) == Added(b.ring, c.add, estimate);
  }

  lemma StepClock(a: Account, t: int, op: Op)
    requires Sized(a) && a.ring.headTime <= t && OpForward(t, op)
    ensures Step(a, op).ring.headTime <= LastReading(op)
  {
  }

  lemma SameStep(a: Account, b: Account, t: int, op: Op)
    requires Same(a, b, t) && OpForward(t, op) && OpClampFree(a, op)
    ensures AnswerOf(a, op) == AnswerOf(b, op)
    ensures Same(Step(a, op), Step(b, op), LastReading(op))
  {
    SameLater(a, b, t, if op.DoPoll? then op.now else op.clock.add);
    FirstReadingDecides(a, b, op);
    StepKeepsDrift(a, op);
    StepClock(a, t, op);
  }

  lemma SameAfterPoll(a: Account, b: Account, t: int, now: int)
    requires Same(a, b, t) && t <= now
    ensures Same(Step(a, DoPoll(now)), b, now)
  {
    SameLater(a, b, t, now);
    AdvanceDrift(a.ring, now);
  }

  /** For a clock that never runs backwards and a run in which nothing is clamped: dropping any
  of its polls leaves the answer of every remaining operation and poll as it was. */
  lemma {:induction false} PollsUnobservable(a: Account, b: Account, t: int, ops: seq<Op>, keep: seq<bool>)
    requires Same(a, b, t) && Forward(t, ops) && ClampFree(a, ops) && DropsPolls(ops, keep)
    ensures Thinned(Answers(a, ops), keep) == Answers(b, Thinned(ops, keep))
    ensures Same(Run(a, ops), Run(b, Thinned(ops, keep)), ClockAfter(t, ops))
    decreases ops
  {
    if ops != [] {
      var op, rest, keep' := ops[0], ops[1..], keep[1..];
      assert DropsPolls(rest, keep');
      var all := Answers(a, ops);
      assert all[1..] == Answers(Step(a, op), rest);
      if keep[0] {
        SameStep(a, b, t, op);
        PollsUnobservable(Step(a, op), Step(b, op), LastReading(op), rest, keep');
        var kept := [op] + Thinned(rest, keep');
        assert kept[1..] == Thinned(rest, keep');
        assert Thinned(all, keep) == Answers(b, kept);
      } else {
        SameAfterPoll(a, b, t, op.now);
        PollsUnobservable(Step(a, op), b, LastReading(op), rest, keep');
        assert [] + Thinned(rest, keep') == Thinned(rest, keep');
        assert Thinned(all, keep) == Answers(b, Thinned(ops, keep));
      }
    }
  }

  /** The same, for one account run with and without the dropped polls. */
  lemma DroppedPollsInvisible(a: Account, t: int, ops: seq<Op>, keep: seq<bool>)
    requires Sized(a) && Drift(a.ring) == 0 && a.ring.headTime <= t
    requires Forward(t, ops) && ClampFree(a, ops) && DropsPolls(ops, keep)
    ensures Thinned(Answers(a, ops), keep) == Answers(a, Thinned(ops, keep))
  {
    PollsUnobservable(a, a, t, ops, keep);
  }

  /** After a clamp the polls do show: with drift in the total, a poll that splits a full-window
  gap in two keeps the drift that one jump would have cleared. */
  lemma PollShowsAfterClamp(r: Ring, limit: int)
    requires r == Added(Fresh(2, 0), 0, -10)
    ensures
      var a := Account(limit, 0, r, 0);
      && StatusOf(Poll(a, 2)).used == 0
      && StatusOf(Poll(Poll(a, 1), 2)).used == 10
  {
    assert r == Ring([-10, 0], 0, 0);
    assert Drift(r) == 10;
    ShiftPastTheEnd(r, 1, 2);
  }
}
