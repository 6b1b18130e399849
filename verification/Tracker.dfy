/** internal/budget/tracker.go: the in-memory tracker, one window object per registered key. */
module Trackers {
  import opened Options
  import opened Sums
  import opened Ring
  import opened RollingWindows
  import opened Accounts

  /** The tracker as a value: what each registered key's account holds. */
  type Book = map<string, Account>

  datatype BudgetParams = BudgetParams(windowSeconds: int, limitTokens: int, burstTokens: int)

  function OpenAccount(p: BudgetParams, now: int): (a: Account)
    requires p.windowSeconds >= 1
    ensures Sized(a)
  {
    Account(p.limitTokens, p.burstTokens, Fresh(p.windowSeconds, now), p.burstTokens)
  }

  /** First registration wins. */
  function Registered(book: Book, id: string, p: BudgetParams, now: int): Book
    requires p.windowSeconds >= 1
  {
    if id in book then book else book[id := OpenAccount(p, now)]
  }

  /** Every account has a usable window. */
  ghost predicate BookSized(book: Book) {
    forall id :: id in book ==> Sized(book[id])
  }

  ghost predicate BookSound(book: Book) {
    forall id :: id in book ==> Sound(book[id])
  }

  function ReserveIn(book: Book, id: string, c: Clock, estimate: int): (r: (Book, Option<(BudgetStatus, bool)>))
    requires BookSized(book)
  {
    if id !in book then (book, None)
    else var r := Reserve(book[id], c, estimate);
      (book[id := r.after], Some((r.status, r.allowed)))
  }

  function RecordIn(book: Book, id: string, c: Clock, delta: int): Book
    requires BookSized(book)
  {
    if id !in book then book else book[id := Record(book[id], c, delta)]
  }

  datatype WorkloadState = WorkloadState(window: RollingWindow, windowSeconds: int, limitTokens: int)

  class TrackerImpl {
    var windows: map<string, WorkloadState>

    ghost var Repr: set<object>

    /** Every window is usable and no two keys share one. */
    ghost predicate Valid()
      reads this, Repr
    {
      && this in Repr
      && (forall id :: id in windows ==>
            && windows[id].window in Repr && windows[id].window.buckets in Repr
            && windows[id].window.Valid() && windows[id].windowSeconds == windows[id].window.buckets.Length)
      && (forall id, id' :: id in windows && id' in windows && id != id' ==>
            && windows[id].window != windows[id'].window
            && windows[id].window.buckets != windows[id'].window.buckets)
    }

    ghost function Contents(): (b: Book)
      requires Valid()
      reads this, Repr
      ensures BookSized(b)
    {
      map id | id in windows :: AccountOf(windows[id])
    }

    static ghost function AccountOf(ws: WorkloadState): Account
      requires ws.window.Valid()
      reads ws.window, ws.window.buckets
    {
      Account(ws.limitTokens, ws.window.burstMax, ws.window.View(), ws.window.burstRemaining)
    }

    constructor ()
      ensures Valid() && Contents() == map[] && Repr == {this}
    {
      windows := map[];
      Repr := {this};
    }

    method Register(workloadID: string, params: BudgetParams, now: int)
      requires Valid() && params.windowSeconds >= 1
      modifies this
      ensures Valid() && fresh(Repr - old(Repr))
      ensures Contents() == Registered(old(Contents()), workloadID, params, now)
    {
      var ws := NewState(params, now);
      LoadOrStore(workloadID, ws);
    }

    static method NewState(params: BudgetParams, now: int) returns (ws: WorkloadState)
      requires params.windowSeconds >= 1
      ensures fresh(ws.window) && fresh(ws.window.buckets)
      ensures ws.window.Valid() && ws.windowSeconds == ws.window.buckets.Length
      ensures AccountOf(ws) == OpenAccount(params, now)
    {
      var w := new RollingWindow(params.windowSeconds, params.burstTokens, now);
      ws := WorkloadState(w, params.windowSeconds, params.limitTokens);
    }

    /** Keep the state already stored for the key, or store this one. */
    method LoadOrStore(workloadID: string, ws: WorkloadState)
      requires Valid() && ws.window.Valid() && ws.windowSeconds == ws.window.buckets.Length
      requires ws.window !in Repr && ws.window.buckets !in Repr
      modifies this
      ensures Valid() && Repr == old(Repr) + {ws.window, ws.window.buckets}
      ensures Contents() == if workloadID in old(Contents()) then old(Contents())
                            else old(Contents())[workloadID := AccountOf(ws)]
    {
      Own(ws.window);
      if workloadID !in windows {
        Store(workloadID, ws);
      }
    }

    ghost method Own(w: RollingWindow)
      requires Valid()
      modifies this`Repr
      ensures Valid() && Repr == old(Repr) + {w, w.buckets} && Contents() == old(Contents())
    {
      Repr := Repr + {w, w.buckets};
    }

    /** A new key with a window of its own. */
    method Store(workloadID: string, ws: WorkloadState)
      requires Valid() && workloadID !in windows && {ws.window, ws.window.buckets} <= Repr
      requires ws.window.Valid() && ws.windowSeconds == ws.window.buckets.Length
      requires forall id :: id in windows ==> windows[id].window != ws.window && windows[id].window.buckets != ws.window.buckets
      modifies this`windows
      ensures Valid() && Contents() == old(Contents())[workloadID := AccountOf(ws)]
    {
      ghost var before := Contents();
      windows := windows[workloadID := ws];
      OneChanged(before, workloadID, AccountOf(ws));
    }

    method Reserve(workloadID: string, c: Clock, estimate: int) returns (r: Option<(BudgetStatus, bool)>)
      requires Valid()
      modifies Repr - {this}
      ensures Valid() && Repr == old(Repr)
      ensures (Contents(), r) == ReserveIn(old(Contents()), workloadID, c, estimate)
    {
      if workloadID !in windows {
        return None;
      }
      var ws := windows[workloadID];
      ghost var before := Contents();
      var status, allowed := ReserveOn(ws, c, estimate);
      OneChanged(before, workloadID, AccountOf(ws));
      return Some((status, allowed));
    }

    /** The body of Reserve once the workload is found. */
    static method ReserveOn(ws: WorkloadState, c: Clock, estimate: int) returns (status: BudgetStatus, allowed: bool)
      requires ws.window.Valid()
      modifies ws.window, ws.window.buckets
      ensures ws.window.Valid()
      ensures Reservation(AccountOf(ws), status, allowed) == Accounts.Reserve(old(AccountOf(ws)), c, estimate)
    {
      var total;
      total, allowed := TryAdmit(ws, c, estimate);
      if allowed {
        return BudgetStatus(total, ws.limitTokens, ws.window.burstRemaining), true;
      }
      var used := Undo(ws.window, c, estimate);
      return BudgetStatus(used, ws.limitTokens, ws.window.burstRemaining), false;
    }

    static method Undo(w: RollingWindow, c: Clock, estimate: int) returns (used: int)
      requires w.Valid()
      modifies w, w.buckets
      ensures w.Valid() && w.burstRemaining == old(w.burstRemaining)
      ensures w.View() == Advanced(Added(old(w.View()), c.undo, -estimate), c.final) && used == Visible(w.View())
    {
      w.Add(c.undo, -estimate);
      used := w.Total(c.final);
    }

    /** Add the estimate, read the total, and take any overage from the burst allowance. */
    static method TryAdmit(ws: WorkloadState, c: Clock, estimate: int) returns (total: int, ok: bool)
      requires ws.window.Valid()
      modifies ws.window, ws.window.buckets
      ensures ws.window.Valid()
      ensures ws.window.View() == Advanced(Added(old(ws.window.View()), c.add, estimate), c.total)
      ensures total == Visible(ws.window.View())
      ensures ok == (total <= ws.limitTokens || total - ws.limitTokens <= old(ws.window.burstRemaining))
      ensures ws.window.burstRemaining == old(ws.window.burstRemaining) - if ok then Max(0, total - ws.limitTokens) else 0
    {
      ws.window.Add(c.add, estimate);
      total := ws.window.Total(c.total);
      if total <= ws.limitTokens {
        return total, true;
      }
      var overage := total - ws.limitTokens;
      ok := ws.window.ConsumeBurst(overage);
    }

    method Record(workloadID: string, c: Clock, delta: int)
      requires Valid()
      modifies Repr - {this}
      ensures Valid() && Repr == old(Repr)
      ensures Contents() == RecordIn(old(Contents()), workloadID, c, delta)
    {
      if workloadID !in windows {
        return;
      }
      var ws := windows[workloadID];
      ghost var before := Contents();
      RecordOn(ws, c, delta);
      OneChanged(before, workloadID, AccountOf(ws));
    }

    static method RecordOn(ws: WorkloadState, c: Clock, delta: int)
      requires ws.window.Valid()
      modifies ws.window, ws.window.buckets
      ensures ws.window.Valid()
      ensures AccountOf(ws) == Accounts.Record(old(AccountOf(ws)), c, delta)
    {
      ws.window.Add(c.add, delta);
      var total := ws.window.Total(c.total);
      if total < ws.limitTokens {
        var freed := ws.limitTokens - total;
        ws.window.ReplenishBurst(freed);
      }
    }

    /** If one key's account is now `after` and every other is as before, so is the book. */
    lemma OneChanged(before: Book, id: string, after: Account)
      requires Valid() && windows.Keys == before.Keys + {id} && AccountOf(windows[id]) == after
      requires forall other :: other in windows && other != id ==> AccountOf(windows[other]) == before[other]
      ensures Contents() == before[id := after]
    {
    }

    method Status(workloadID: string, now: int) returns (r: Option<BudgetStatus>)
      requires Valid()
      modifies Repr - {this}
      ensures Valid() && Repr == old(Repr)
      ensures workloadID !in old(Contents()) ==> r == None && Contents() == old(Contents())
      ensures workloadID in old(Contents()) ==>
                var after := Poll(old(Contents())[workloadID], now);
                Contents() == old(Contents())[workloadID := after] && r == Some(StatusOf(after))
    {
      if workloadID !in windows {
        return None;
      }
      var ws := windows[workloadID];
      ghost var before := Contents();
      var used := ws.window.Total(now);
      OneChanged(before, workloadID, AccountOf(ws));
      return Some(BudgetStatus(used, ws.limitTokens, ws.window.burstRemaining));
    }
  }
}
