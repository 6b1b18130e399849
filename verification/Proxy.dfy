/** internal/proxy/proxy.go: guard, reserve, decide, forward, as a function of the tracker's book. */
module Proxy {
  import opened Options
  import opened Sums
  import opened Ring
  import opened Accounts
  import opened Configs
  import opened Enforce
  import opened PolicyEngines
  import opened Trackers
  import opened Startup

  datatype Mode = Listener | Enforcement

  datatype Provider = Unknown | OpenAI | Anthropic | Google

  datatype Settings = Settings(mode: Mode, listenerKey: string, engine: Engine, sseExtraction: bool)

  /** What the handler learns from a request: the resolved identity (None when resolution fails),
  the max_tokens it asks for (0 when absent), its provider, and whether it asks to stream. */
  datatype Request = Request(ident: Option<string>, maxTokens: int, provider: Provider, streaming: bool)

  function DefaultMaxTokens(p: Provider): int {
    match p
    case OpenAI => 4096
    case Anthropic => 8192
    case Google => 2048
    case Unknown => 4096
  }

  function Estimate(req: Request): int {
    if req.maxTokens == 0 then DefaultMaxTokens(req.provider) else req.maxTokens
  }

  function AccountingKey(h: Settings, workloadID: string): string {
    if h.mode == Listener && h.listenerKey != "" then h.listenerKey else workloadID
  }

  datatype Shadow = WouldReject | WouldThrottle | WouldKill | ShadowAllow

  /** A listener-mode event: the decision enforcement would have taken, and why. */
  datatype Event = Event(shadow: Shadow, reason: Option<Reason>)

  /** How a forwarded request stands with the tracker: a reservation is held, the reservation was
  denied and undone, or its key has no account. */
  datatype Hold = Held | Bounced | Untracked

  datatype Ticket = Ticket(key: string, estimate: int, hold: Hold)

  datatype Outcome =
    | Refused(status: int, reason: Reason)
    | Direct                     // proxied without accounting
    | Forward(ticket: Ticket)    // proxied, to be settled

  datatype Served = Served(book: Book, outcome: Outcome, events: seq<Event>)

  function ShadowOf(a: Action): Shadow {
    if a == Kill then WouldKill else WouldThrottle
  }

  /** Steps 5 and 6: what the tracker is asked, if anything. */
  predicate Reserves(h: Settings, req: Request, pol: Policy) {
    h.mode == Listener || CheckPerRequestGuard(pol, Estimate(req)).None?
  }

  /** Steps 6 to 9: what the tracker's reply comes to. */
  function Concluded(h: Settings, pol: Policy, key: string, estimate: int, reply: Option<(BudgetStatus, bool)>): (Outcome, seq<Event>) {
    if reply.None? && h.mode == Enforcement then (Refused(500, BudgetConfigError), [])
    else
      var status := if reply.Some? then reply.value.0 else BudgetStatus(0, 0, 0);
      var allowed := reply.Some? && reply.value.1;
      var decision := Evaluate(pol, status);
      var blocks := !allowed && decision.action != Allow;
      if blocks && h.mode == Enforcement then (Refused(HttpStatus(decision.action), decision.reason.value), [])
      else
        var hold := if reply.None? then Untracked else if allowed then Held else Bounced;
        (Forward(Ticket(key, estimate, hold)),
         if h.mode == Enforcement then []
         else (if blocks then [Event(ShadowOf(decision.action), decision.reason)] else []) + [Event(ShadowAllow, None)])
  }

  function HandleWithPolicy(h: Settings, book: Book, req: Request, id: string, pol: Policy, c: Clock): Served
    requires BookSized(book)
  {
    var estimate, key := Estimate(req), AccountingKey(h, id);
    var guard := CheckPerRequestGuard(pol, estimate);
    if guard.Some? && h.mode == Enforcement then Served(book, Refused(429, GuardMaxTokens), [])
    else
      var (book', reply) := ReserveIn(book, key, c, estimate);
      var (outcome, events) := Concluded(h, pol, key, estimate, reply);
      Served(book', outcome, if guard.Some? then [Event(WouldThrottle, Some(GuardMaxTokens))] + events else events)
  }

  /** Without a policy: refuse, or in listener mode record the shadow and let it through. */
  function NoPolicy(h: Settings, book: Book, reason: Reason): Served {
    if h.mode == Listener then Served(book, Direct, [Event(WouldReject, Some(reason))])
    else Served(book, Refused(403, reason), [])
  }

  /** The workload ID a request is handled under, and the policy found for it. */
  function Identified(h: Settings, req: Request): (string, Option<Policy>) {
    match req.ident
    case None => (DEFAULT_KEY, Lookup(h.engine, ""))
    case Some(id) => (id, Lookup(h.engine, id))
  }

  function Serve(h: Settings, book: Book, req: Request, c: Clock): Served
    requires BookSized(book)
  {
    var (id, pol) := Identified(h, req);
    if pol.None? then NoPolicy(h, book, if req.ident.None? then IdentityMissing else PolicyNotFound)
    else HandleWithPolicy(h, book, req, id, pol.value, c)
  }

  // ---- The exact blocking rule ----

  /** Enforcement at one clock second, guard passed, key registered. With V the total visible
  before the request: it is blocked exactly when V is above the limit and the burst allowance
  cannot cover the rest, by kill exactly when tier 3 says so; it is forwarded with no reservation
  held exactly when the reservation is denied while V is still within the limit. */
  lemma BlockingRule(h: Settings, book: Book, req: Request, id: string, pol: Policy, now: int)
    requires BookSound(book) && h.mode == Enforcement && AccountingKey(h, id) in book
    requires CheckPerRequestGuard(pol, Estimate(req)).None?
    ensures
      var a := book[AccountingKey(h, id)];
      var idle := Poll(a, now);
      var V, e := Visible(idle.ring), Estimate(req);
      var denied := idle.ring.total + e > a.limit + a.burst;
      var out := HandleWithPolicy(h, book, req, id, pol, Still(now)).outcome;
      && (out.Refused? <==> V > a.limit && a.burst < V + e - a.limit)
      && (out.Refused? ==>
            && (out.reason == BudgetExhaustedKill <==> pol.tier3Action == "kill_workload")
            && (out.reason == BudgetExhaustedThrottle <==> pol.tier3Action != "kill_workload")
            && out.status == if pol.tier3Action == "kill_workload" then 503 else 429)
      && (out.Forward? && out.ticket.hold == Bounced <==> denied && V <= a.limit)
      && (out.Forward? && out.ticket.hold == Held <==> !denied)
      && (out.Refused? || out.Forward?)
  {
    DenialIsNoOp(book[AccountingKey(h, id)], now, Estimate(req));
  }

  /** "No upstream call without a successful reservation" is not what the code does: a request
  asking for more than the whole budget of an idle workload is forwarded unreserved. */
  lemma OversizedIsForwardedUnreserved(h: Settings, book: Book, req: Request, id: string, pol: Policy, now: int)
    requires BookSound(book) && h.mode == Enforcement && AccountingKey(h, id) in book
    requires CheckPerRequestGuard(pol, Estimate(req)).None?
    requires var a := book[AccountingKey(h, id)];
             Poll(a, now).ring.total == 0 && Estimate(req) > a.limit + a.burst
    ensures HandleWithPolicy(h, book, req, id, pol, Still(now)).outcome ==
            Forward(Ticket(AccountingKey(h, id), Estimate(req), Bounced))
    ensures HandleWithPolicy(h, book, req, id, pol, Still(now)).book ==
            book[AccountingKey(h, id) := Poll(book[AccountingKey(h, id)], now)]
  {
    var a := book[AccountingKey(h, id)];
    DenialIsNoOp(a, now, Estimate(req));
    BlockingRule(h, book, req, id, pol, now);
  }

  /** Guard before reservation: in enforcement mode a request is refused by the guard exactly when a
  positive guard is exceeded, and then the tracker has not been touched at all. */
  lemma GuardBeforeReservation(h: Settings, book: Book, req: Request, id: string, pol: Policy, c: Clock)
    requires BookSized(book) && h.mode == Enforcement
    ensures
      var s := HandleWithPolicy(h, book, req, id, pol, c);
      && (s.outcome == Refused(429, GuardMaxTokens) <==> 0 < pol.maxTokensPerRequest < Estimate(req))
      && (s.outcome == Refused(429, GuardMaxTokens) ==> s.book == book)
  {
  }

  // ---- What is asked, and under which key ----

  /** What a request asks for: its own max_tokens, or its provider's default when it names none. */
  predicate AsksFor(req: Request, n: int) {
    if req.maxTokens != 0 then n == req.maxTokens
    else match req.provider
      case Anthropic => n == 8192
      case Google => n == 2048
      case OpenAI => n == 4096
      case Unknown => n == 4096
  }

  /** The key a request is accounted under: its workload's, unless a listener keeps one account for all. */
  predicate AccountedUnder(h: Settings, id: string, key: string) {
    if h.mode == Enforcement || h.listenerKey == "" then key == id else key == h.listenerKey
  }

  /** In either mode, a request is forwarded with what it asks for, at least one token unless it asks
  for a negative number; it is stopped by the guard exactly when that exceeds a positive guard; and
  when it is held, its key's window has risen by exactly that, and no other account has moved. */
  lemma ReservesWhatIsAsked(h: Settings, book: Book, req: Request, id: string, pol: Policy, now: int, n: int)
    requires BookSound(book) && AsksFor(req, n)
    ensures
      var s := HandleWithPolicy(h, book, req, id, pol, Still(now));
      && (req.maxTokens >= 0 ==> n >= 1)
      && (s.outcome.Forward? ==> s.outcome.ticket.estimate == n && AccountedUnder(h, id, s.outcome.ticket.key))
      && (s.outcome == Refused(429, GuardMaxTokens) <==> h.mode == Enforcement && 0 < pol.maxTokensPerRequest < n)
      && (s.outcome.Forward? && s.outcome.ticket.hold == Held ==>
            var key := s.outcome.ticket.key;
            && key in book && s.book == book[key := s.book[key]]
            && var idle, after := Poll(book[key], now).ring, s.book[key].ring;
               && Sum(after.slots) == Sum(idle.slots) + n
               && (idle.total >= 0 && n >= 0 ==> after.total == idle.total + n))
  {
    var key := AccountingKey(h, id);
    if key in book && Reserve(book[key], Still(now), n).allowed {
      AdmissionTakesEstimate(book[key], now, n);
    }
  }

  /** Everything a listener reports about a request, in order. */
  lemma ListenerEvents(h: Settings, book: Book, req: Request, id: string, pol: Policy, now: int, n: int, key: string)
    requires BookSound(book) && h.mode == Listener && AsksFor(req, n) && AccountedUnder(h, id, key) && key in book
    ensures
      var V := Visible(Poll(book[key], now).ring);
      var denied := Poll(book[key], now).ring.total + n > book[key].limit + book[key].burst;
      HandleWithPolicy(h, book, req, id, pol, Still(now)).events ==
        (if 0 < pol.maxTokensPerRequest < n then [Event(WouldThrottle, Some(GuardMaxTokens))] else []) +
        (if !denied || V <= book[key].limit then []
         else if pol.tier3Action == "kill_workload" then [Event(WouldKill, Some(BudgetExhaustedKill))]
         else [Event(WouldThrottle, Some(BudgetExhaustedThrottle))]) +
        [Event(ShadowAllow, None)]
  {
    DenialIsNoOp(book[key], now, n);
  }

  /** Where a request goes before its budget is looked at: under its own ID, or under `_default` when
  it has none; and without a policy nowhere, with a 403 that says which of the two was missing, while
  a listener lets it through unaccounted and says the same. An override policy is never missing. */
  lemma ServedUnder(h: Settings, book: Book, req: Request, c: Clock)
    requires BookSized(book)
    ensures
      var s := Serve(h, book, req, c);
      var pol := Lookup(h.engine, if req.ident.Some? then req.ident.value else "");
      var missing := if req.ident.Some? then PolicyNotFound else IdentityMissing;
      if pol.Some? then
        s == HandleWithPolicy(h, book, req, if req.ident.Some? then req.ident.value else "_default", pol.value, c)
      else
        && s.book == book
        && s.outcome == (if h.mode == Listener then Direct else Refused(403, missing))
        && s.events == if h.mode == Listener then [Event(WouldReject, Some(missing))] else []
    ensures h.engine.OverrideEngine? ==>
              Serve(h, book, req, c) ==
              HandleWithPolicy(h, book, req, if req.ident.Some? then req.ident.value else "_default", h.engine.policy, c)
  {
  }

  // ---- Shadow fidelity ----

  /** The reason enforcement refuses the request for, if it does. */
  function RefusalOf(s: Served): Option<Reason> {
    if s.outcome.Refused? then Some(s.outcome.reason) else None
  }

  /** The first thing a listener reports about it. */
  function FirstReason(s: Served): Option<Reason> {
    if s.events == [] then None else s.events[0].reason
  }

  /** Listener and enforcement differ on this request only by mode: same engine, same key. */
  predicate SameAccount(l: Settings, e: Settings, req: Request) {
    && l.mode == Listener && e.mode == Enforcement && l.engine == e.engine
    && AccountingKey(l, Identified(l, req).0) == AccountingKey(e, Identified(e, req).0)
  }

  /** The request reaches the tracker and its key has no account. */
  predicate Unregistered(e: Settings, book: Book, req: Request) {
    var (id, pol) := Identified(e, req);
    && pol.Some? && CheckPerRequestGuard(pol.value, Estimate(req)).None?
    && AccountingKey(e, id) !in book
  }

  /** Shadow fidelity, exactly: a listener never refuses, and its first event names the reason
  enforcement would refuse for if and only if the request is not one that enforcement would fail
  with an unregistered key. When enforcement gets past its guard the two leave the same book. */
  lemma ShadowFidelity(l: Settings, e: Settings, book: Book, req: Request, c: Clock)
    requires SameAccount(l, e, req) && BookSized(book)
    ensures
      var sl, se := Serve(l, book, req, c), Serve(e, book, req, c);
      && !sl.outcome.Refused?
      && sl.events != []
      && (FirstReason(sl) == RefusalOf(se) <==> !Unregistered(e, book, req))
      && (sl.events[0].shadow == ShadowAllow <==> FirstReason(sl) == None)
      && (se.outcome.Forward? ==> sl.outcome == se.outcome)
      && (RefusalOf(se) != Some(GuardMaxTokens) ==> sl.book == se.book)
  {
  }

  lemma ServeKeepsAccounts(h: Settings, book: Book, req: Request, c: Clock)
    requires BookSized(book)
    ensures BookSized(Serve(h, book, req, c).book) && Serve(h, book, req, c).book.Keys == book.Keys
  {
  }

  // ---- A validated configuration ----

  lemma ConfigErrorExactly(h: Settings, book: Book, req: Request, id: string, pol: Policy, c: Clock)
    requires h.mode == Enforcement && BookSized(book) && CheckPerRequestGuard(pol, Estimate(req)).None?
    ensures RefusalOf(HandleWithPolicy(h, book, req, id, pol, c)) == Some(BudgetConfigError) <==> id !in book
  {
  }

  /** After enforcement start-up on an accepted configuration, a request with a resolved policy
  that passes its guard is refused for an unregistered key exactly when its workload ID is
  neither configured nor the default key. */
  lemma UnregisteredExactly(h: Settings, s: Spec, book: Book, req: Request, c: Clock)
    requires h.mode == Enforcement && Resolves(h.engine, s) && BookSized(book)
    requires FirstFailure("enforcement", s) == None
    requires forall id :: id in book <==>
               IsWorkload(s.workloads, id) || (id == DEFAULT_KEY && s.defaultPolicy.Some?)
    requires var (_, pol) := Identified(h, req);
             pol.Some? && CheckPerRequestGuard(pol.value, Estimate(req)).None?
    ensures RefusalOf(Serve(h, book, req, c)) == Some(BudgetConfigError) <==>
              req.ident.Some? && !IsWorkload(s.workloads, req.ident.value) && req.ident.value != DEFAULT_KEY
  {
    var (id, pol) := Identified(h, req);
    ConfigErrorExactly(h, book, req, id, pol.value, c);
    assert !IsWorkload(s.workloads, "") by {
      assert forall i :: 0 <= i < |s.workloads| ==> WorkloadOk(s.workloads[i], s.policies);
    }
  }
}
