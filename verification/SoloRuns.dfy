/** Run alone, the interleaved steps are the sequential operations. */
module SoloRuns {
  import opened Sums
  import opened Ring
  import opened Accounts
  import I = Interleaving

  function AccountOf(s: I.Shared): Account {
    Account(s.limit, s.burstMax, s.ring, s.burst)
  }

  /** Only thread i takes these turns. */
  predicate Solo(turns: seq<I.Turn>, i: nat) {
    forall k :: 0 <= k < |turns| ==> turns[k].thread == i
  }

  /** The readings of five turns of an uninterrupted Reserve: the third is a burst load. */
  function Readings(turns: seq<I.Turn>): Clock
    requires |turns| == 5
  {
    Clock(turns[0].now, turns[1].now, turns[3].now, turns[4].now)
  }

  lemma RunOne(s: I.Shared, turns: seq<I.Turn>)
    requires I.Usable(s) && |turns| == 1
    ensures I.Run(s, turns) == I.Step(s, turns[0])
  {
    assert turns[1..] == [];
  }

  lemma RunTwo(s: I.Shared, turns: seq<I.Turn>)
    requires I.Usable(s) && |turns| >= 2
    ensures I.Run(s, turns) == I.Run(I.Step(I.Step(s, turns[0]), turns[1]), turns[2..])
  {
    assert turns[1..][1..] == turns[2..];
  }

  /** A request whose steps no other thread interrupts gets exactly what the sequential Reserve
  gives, at any clock readings, and leaves the account as the sequential Reserve does. */
  lemma SoloIsSequential(s: I.Shared, i: nat, turns: seq<I.Turn>)
    requires I.Usable(s) && i < |s.threads| && |turns| == 5 && Solo(turns, i)
    requires s.threads[i].pc.Start? && s.threads[i].delta.None?
    ensures
      var r, seqr := I.Run(s, turns), Reserve(AccountOf(s), Readings(turns), s.threads[i].estimate);
      && AccountOf(r) == seqr.after
      && (r.threads[i].pc.Admitted? <==> seqr.allowed)
      && (r.threads[i].pc.Denied? <==> !seqr.allowed)
      && (!seqr.allowed ==> r.threads[i].pc.used == seqr.status.used)
  {
    SoloSteps(s, i, turns, Readings(turns));
    OutcomeIsReserve(s, I.Run(s, turns), i, Readings(turns));
  }

  /** Where the steps of thread i lead from s, in terms of the window alone. */
  predicate Outcome(s: I.Shared, r: I.Shared, i: nat, c: Clock)
    requires I.Usable(s) && i < |s.threads| == |r.threads|
  {
    var e := s.threads[i].estimate;
    var seen := Advanced(Added(s.ring, c.add, e), c.total);
    var over := Visible(seen) - s.limit;
    var undone := Advanced(Added(seen, c.undo, -e), c.final);
    if over <= 0 then AccountOf(r) == AccountOf(s).(ring := seen) && r.threads[i].pc.Admitted?
    else if over <= s.burst then
      AccountOf(r) == AccountOf(s).(ring := seen, burst := s.burst - over) && r.threads[i].pc.Admitted?
    else AccountOf(r) == AccountOf(s).(ring := undone) && r.threads[i].pc == I.Denied(Visible(undone))
  }

  lemma OutcomeIsReserve(s: I.Shared, r: I.Shared, i: nat, c: Clock)
    requires I.Usable(s) && i < |s.threads| == |r.threads| && Outcome(s, r, i, c)
    ensures
      var seqr := Reserve(AccountOf(s), c, s.threads[i].estimate);
      && AccountOf(r) == seqr.after
      && (r.threads[i].pc.Admitted? <==> seqr.allowed)
      && (r.threads[i].pc.Denied? <==> !seqr.allowed)
      && (!seqr.allowed ==> r.threads[i].pc.used == seqr.status.used)
  {
  }

  lemma SoloSteps(s: I.Shared, i: nat, turns: seq<I.Turn>, c: Clock)
    requires I.Usable(s) && i < |s.threads| && |turns| == 5 && Solo(turns, i) && c == Readings(turns)
    requires s.threads[i].pc.Start? && s.threads[i].delta.None?
    ensures Outcome(s, I.Run(s, turns), i, c)
  {
    var s2, rest := I.Step(I.Step(s, turns[0]), turns[1]), turns[2..];
    RunTwo(s, turns);
    AddThenTotal(s, i, turns[0], turns[1]);
    assert rest[1] == turns[3] && rest[2] == turns[4];
    SoloRest(s, s2, i, rest, c);
  }

  lemma SoloRest(s: I.Shared, s2: I.Shared, i: nat, rest: seq<I.Turn>, c: Clock)
    requires I.Usable(s) && I.Usable(s2) && i < |s.threads| == |s2.threads|
    requires |rest| == 3 && Solo(rest, i) && rest[1].now == c.undo && rest[2].now == c.final
    requires s2.threads[i].delta.None? && s2.threads[i].estimate == s.threads[i].estimate
    requires
      var seen := Advanced(Added(s.ring, c.add, s.threads[i].estimate), c.total);
      && AccountOf(s2) == AccountOf(s).(ring := seen)
      && (if Visible(seen) <= s.limit then s2.threads[i].pc.Admitted?
          else s2.threads[i].pc.Over? && s2.threads[i].pc.seen == Visible(seen))
    ensures Outcome(s, I.Run(s2, rest), i, c)
  {
    RestAlone(s2, i, rest);
  }

  /** The first two steps of a Reserve. */
  lemma AddThenTotal(s: I.Shared, i: nat, t0: I.Turn, t1: I.Turn)
    requires I.Usable(s) && i < |s.threads| && s.threads[i].pc.Start? && t0.thread == i == t1.thread
    ensures
      var r := I.Step(I.Step(s, t0), t1);
      var seen := Advanced(Added(s.ring, t0.now, s.threads[i].estimate), t1.now);
      && AccountOf(r) == AccountOf(s).(ring := seen) && |r.threads| == |s.threads|
      && r.threads[i] == s.threads[i].(pc := r.threads[i].pc)
      && (if Visible(seen) <= s.limit then r.threads[i].pc.Admitted?
          else r.threads[i].pc.Over? && r.threads[i].pc.seen == Visible(seen))
  {
  }

  /** The rest of it: nothing when admitted, else the burst swap, or the undo and its status read. */
  lemma RestAlone(s: I.Shared, i: nat, turns: seq<I.Turn>)
    requires I.Usable(s) && i < |s.threads| && s.threads[i].delta.None?
    requires |turns| == 3 && Solo(turns, i)
    requires s.threads[i].pc.Admitted? || (s.threads[i].pc.Over? && s.threads[i].pc.seen > s.limit)
    ensures
      var r, t := I.Run(s, turns), s.threads[i];
      if t.pc.Admitted? then r == s
      else if t.pc.seen - s.limit <= s.burst then
        AccountOf(r) == AccountOf(s).(burst := s.burst - (t.pc.seen - s.limit)) && r.threads[i].pc.Admitted?
      else
        var undone := Advanced(Added(s.ring, turns[1].now, -t.estimate), turns[2].now);
        AccountOf(r) == AccountOf(s).(ring := undone) && r.threads[i].pc == I.Denied(Visible(undone))
  {
    RunTwo(s, turns);
    RunOne(I.Step(I.Step(s, turns[0]), turns[1]), turns[2..]);
  }

  /** Likewise for an uninterrupted Record of an admitted request's delta. */
  lemma SoloRecordIsSequential(s: I.Shared, i: nat, turns: seq<I.Turn>)
    requires I.Usable(s) && i < |s.threads| && |turns| == 4 && Solo(turns, i)
    requires s.threads[i].pc.Admitted? && s.threads[i].delta.Some?
    ensures
      var r, now := I.Run(s, turns), turns[1].now;
      && AccountOf(r) == Record(AccountOf(s), Clock(turns[0].now, now, now, now), s.threads[i].delta.value)
      && r.threads[i].pc.Settled? && r.threads[i].pc.credit == r.burst - s.burst
  {
    RunTwo(s, turns);
    DeltaThenTotal(s, i, turns[0], turns[1]);
    CreditAlone(I.Step(I.Step(s, turns[0]), turns[1]), i, turns[2..]);
  }

  /** The first two steps of a Record. */
  lemma DeltaThenTotal(s: I.Shared, i: nat, t0: I.Turn, t1: I.Turn)
    requires I.Usable(s) && i < |s.threads| && t0.thread == i == t1.thread
    requires s.threads[i].pc.Admitted? && s.threads[i].delta.Some?
    ensures
      var r := I.Step(I.Step(s, t0), t1);
      var seen := Advanced(Added(s.ring, t0.now, s.threads[i].delta.value), t1.now);
      && AccountOf(r) == AccountOf(s).(ring := seen) && |r.threads| == |s.threads|
      && (if Visible(seen) < s.limit then r.threads[i].pc.Crediting? && r.threads[i].pc.freed == s.limit - Visible(seen)
          else r.threads[i].pc.Settled? && r.threads[i].pc.credit == 0)
  {
  }

  /** The load and the swap of an uninterrupted credit. */
  lemma CreditAlone(s: I.Shared, i: nat, turns: seq<I.Turn>)
    requires I.Usable(s) && i < |s.threads| && |turns| == 2 && Solo(turns, i)
    requires s.threads[i].pc.Crediting? || s.threads[i].pc.Settled?
    ensures
      var pc, r := s.threads[i].pc, I.Run(s, turns);
      && r.ring == s.ring && r.limit == s.limit && r.burstMax == s.burstMax
      && r.threads[i].pc.Settled?
      && (pc.Settled? ==> r == s)
      && (pc.Crediting? ==> r.burst == Min(s.burst + pc.freed, s.burstMax) && r.threads[i].pc.credit == r.burst - s.burst)
  {
    RunTwo(s, turns);
    assert turns[2..] == [];
  }
}
