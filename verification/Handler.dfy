/** internal/proxy/proxy.go: the handler object, acting on the shared tracker. */
module Handlers {
  import opened Options
  import opened Accounts
  import opened Configs
  import opened Enforce
  import opened Trackers
  import opened Proxy
  import opened Settlement

  /** Where the code the handler calls panics, if it does. */
  datatype Panic = Never | InResolver | WhileProxying

  class Handler {
    const settings: Settings
    const tracker: TrackerImpl
    var degraded: bool

    ghost predicate Valid()
      reads this, tracker, tracker.Repr
    {
      tracker.Valid() && this !in tracker.Repr
    }

    constructor (settings: Settings, tracker: TrackerImpl)
      requires tracker.Valid()
      ensures Valid()
      ensures this.settings == settings && this.tracker == tracker && !degraded
    {
      this.settings := settings;
      this.tracker := tracker;
      degraded := false;
    }

    /** The whole entry point, panic recovery included: a panic while resolving the identity, or while
    proxying a request that was not refused, answers 500 and latches the degraded flag; whatever had
    been reserved stays reserved. */
    method ServeHTTP(req: Request, c: Clock, panic: Panic) returns (outcome: Outcome, events: seq<Event>)
      requires Valid()
      modifies this`degraded, tracker.Repr - {tracker}
      ensures Valid() && tracker.Repr == old(tracker.Repr)
      ensures
        var flow := if old(degraded) then Served(old(tracker.Contents()), Direct, [])
                    else Serve(settings, old(tracker.Contents()), req, c);
        if panic.InResolver? && !old(degraded) then
          degraded && outcome == Refused(500, SystemDegraded) && tracker.Contents() == old(tracker.Contents())
        else if panic.WhileProxying? && !flow.outcome.Refused? then
          degraded && outcome == Refused(500, SystemDegraded) && tracker.Contents() == flow.book
        else degraded == old(degraded) && Served(tracker.Contents(), outcome, events) == flow
    {
      if panic.InResolver? && !degraded {
        degraded := true;
        return Refused(500, SystemDegraded), [];
      }
      outcome, events := Flow(req, c);
      if panic.WhileProxying? && !outcome.Refused? {
        degraded := true;
        return Refused(500, SystemDegraded), events;
      }
    }

    method Flow(req: Request, c: Clock) returns (outcome: Outcome, events: seq<Event>)
      requires Valid()
      modifies tracker.Repr - {tracker}
      ensures Valid() && tracker.Repr == old(tracker.Repr)
      ensures degraded ==> outcome == Direct && events == [] && tracker.Contents() == old(tracker.Contents())
      ensures !degraded ==>
                Served(tracker.Contents(), outcome, events) == Serve(settings, old(tracker.Contents()), req, c)
    {
      if degraded {
        return Direct, [];
      }
      var (id, pol) := Identified(settings, req);
      if pol.None? {
        var reason := if req.ident.None? then IdentityMissing else PolicyNotFound;
        if settings.mode == Listener {
          return Direct, [Event(WouldReject, Some(reason))];
        }
        return Refused(403, reason), [];
      }
      outcome, events := HandleWithPolicy(req, id, pol.value, c);
    }

    method HandleWithPolicy(req: Request, id: string, pol: Policy, c: Clock) returns (outcome: Outcome, events: seq<Event>)
      requires Valid()
      modifies tracker.Repr - {tracker}
      ensures Valid() && tracker.Repr == old(tracker.Repr)
      ensures Served(tracker.Contents(), outcome, events) ==
              Proxy.HandleWithPolicy(settings, old(tracker.Contents()), req, id, pol, c)
    {
      ghost var spec := Proxy.HandleWithPolicy(settings, tracker.Contents(), req, id, pol, c);
      events := [];
      var listener := settings.mode == Listener;
      var maxTokens := Estimate(req);
      var acctKey := AccountingKey(settings, id);
      var guard := CheckPerRequestGuard(pol, maxTokens);
      if guard.Some? {
        if !listener {
          return Refused(429, guard.value.reason.value), events;
        }
        events := events + [Event(WouldThrottle, guard.value.reason)];
      }
      var more;
      outcome, more := ReserveAndConclude(pol, acctKey, maxTokens, c);
      events := events + more;
      assert outcome == spec.outcome && events == spec.events;
      assert tracker.Contents() == spec.book;
    }

    method ReserveAndConclude(pol: Policy, acctKey: string, maxTokens: int, c: Clock) returns (outcome: Outcome, events: seq<Event>)
      requires Valid()
      modifies tracker.Repr - {tracker}
      ensures Valid() && tracker.Repr == old(tracker.Repr)
      ensures
        var reserved := ReserveIn(old(tracker.Contents()), acctKey, c, maxTokens);
        tracker.Contents() == reserved.0 && (outcome, events) == Concluded(settings, pol, acctKey, maxTokens, reserved.1)
    {
      var reply := tracker.Reserve(acctKey, c, maxTokens);
      outcome, events := Conclude(pol, acctKey, maxTokens, reply);
    }

    /** From the tracker's reply to the answer. */
    method Conclude(pol: Policy, acctKey: string, maxTokens: int, reply: Option<(BudgetStatus, bool)>)
      returns (outcome: Outcome, events: seq<Event>)
      ensures (outcome, events) == Concluded(settings, pol, acctKey, maxTokens, reply)
    {
      events := [];
      var listener := settings.mode == Listener;
      if reply.None? && !listener {
        return Refused(500, BudgetConfigError), [];
      }
      var status := if reply.Some? then reply.value.0 else BudgetStatus(0, 0, 0);
      var allowed := reply.Some? && reply.value.1;
      if !allowed {
        var decision := Evaluate(pol, status);
        if decision.action != Allow {
          if !listener {
            return Refused(HttpStatus(decision.action), decision.reason.value), [];
          }
          events := events + [Event(ShadowOf(decision.action), decision.reason)];
        }
      }
      if listener {
        events := events + [Event(ShadowAllow, None)];
      }
      assert events == Concluded(settings, pol, acctKey, maxTokens, reply).1;
      var hold := if reply.None? then Untracked else if allowed then Held else Bounced;
      return Forward(Ticket(acctKey, maxTokens, hold)), events;
    }

    /** The response callback: settle now, wrap the stream, or let the reservation stand. */
    method ModifyResponse(req: Request, t: Ticket, status: int, body: Body, c: Clock) returns (r: Reaction)
      requires Valid()
      modifies tracker.Repr - {tracker}
      ensures Valid() && tracker.Repr == old(tracker.Repr)
      ensures r == React(settings, req, status, body)
      ensures r.Extract? <==> status < 500 && body.EventStream? && req.streaming && settings.sseExtraction &&
                              (req.provider == OpenAI || req.provider == Anthropic)
      ensures
        var delta := DueDelta(req, t, status, body);
        tracker.Contents() == if delta.Some? then RecordIn(old(tracker.Contents()), t.key, c, delta.value)
                              else old(tracker.Contents())
    {
      var delta;
      r, delta := ReactTo(req, t, status, body);
      Settle(t, delta, c);
    }

    method ReactTo(req: Request, t: Ticket, status: int, body: Body) returns (r: Reaction, delta: Option<int>)
      ensures r == React(settings, req, status, body)
      ensures r.Extract? <==> status < 500 && body.EventStream? && req.streaming && settings.sseExtraction &&
                              (req.provider == OpenAI || req.provider == Anthropic)
      ensures delta == DueDelta(req, t, status, body)
    {
      if status >= 500 {
        r := Refund;
      } else if body.EventStream? {
        r := if req.streaming && settings.sseExtraction && Parses(req.provider) then Extract else LeaveStanding;
      } else if !Parses(req.provider) || body.usage.None? {
        r := LeaveStanding;
      } else {
        r := Reconcile(body.usage.value);
      }
      delta := Reported(r, t.estimate);
    }

    /** Where both callbacks end, the response's and the stream's: record the delta, if one is due. */
    method Settle(t: Ticket, delta: Option<int>, c: Clock)
      requires Valid()
      modifies tracker.Repr - {tracker}
      ensures Valid() && tracker.Repr == old(tracker.Repr)
      ensures tracker.Contents() == if delta.Some? then RecordIn(old(tracker.Contents()), t.key, c, delta.value)
                                    else old(tracker.Contents())
    {
      if delta.Some? {
        tracker.Record(t.key, c, delta.value);
      }
    }
  }
}
