/** cmd/koshi/main.go: wiring engine and tracker from a validated enforcement configuration. */
module Startup {
  import opened Options
  import opened Accounts
  import opened Configs
  import opened PolicyEngines
  import opened Trackers

  const DEFAULT_KEY := "_default"

  function Params(p: Policy): BudgetParams {
    BudgetParams(p.windowSeconds, p.limitTokens, p.burstTokens)
  }

  ghost predicate IsWorkload(ws: seq<Workload>, id: string) {
    exists i :: 0 <= i < |ws| && ws[i].id == id
  }

  /** Every account is as usable as its policy was valid. */
  ghost predicate Serviceable(book: Book) {
    forall id :: id in book ==> Sound(book[id]) && book[id].limit >= 1 && book[id].burst == book[id].burstMax
  }

  /** The engine resolves each workload to the policy its first reference names, and anything
  else only to a default that strict mode does not forbid. */
  ghost predicate Resolves(engine: Engine, s: Spec) {
    && (forall i :: 0 <= i < |s.workloads| ==> ResolvesTo(engine, s.workloads[i], s.policies))
    && (forall id :: !IsWorkload(s.workloads, id) ==>
          Lookup(engine, id) == if s.strictMode then None else s.defaultPolicy)
  }

  ghost predicate ResolvesTo(engine: Engine, w: Workload, ps: seq<Policy>) {
    var found := Lookup(engine, w.id);
    w.policyRefs != [] && found.Some? && found.value in ps && found.value.id == w.policyRefs[0]
  }

  /** An untouched budget as this policy sets it: so many seconds, so many tokens, all of the burst. */
  ghost predicate Funded(a: Account, p: Policy, now: int) {
    && a.limit == p.limitTokens && a.burst == a.burstMax == p.burstTokens
    && |a.ring.slots| == p.windowSeconds && (forall k :: 0 <= k < |a.ring.slots| ==> a.ring.slots[k] == 0)
    && a.ring.total == 0 && a.ring.headTime == now
  }

  /** The workload has the budget of the policy its first reference names. */
  ghost predicate FundedByFirst(book: Book, w: Workload, ps: seq<Policy>, now: int) {
    && w.id in book && w.policyRefs != []
    && exists k :: 0 <= k < |ps| && ps[k].id == w.policyRefs[0] && Funded(book[w.id], ps[k], now)
  }

  ghost predicate AllFunded(book: Book, ws: seq<Workload>, ps: seq<Policy>, now: int) {
    forall i :: 0 <= i < |ws| ==> FundedByFirst(book, ws[i], ps, now)
  }

  lemma OpenedFunded(book: Book, id: string, p: Policy, now: int)
    requires PolicyOk(p) && id !in book
    ensures Funded(Registered(book, id, Params(p), now)[id], p, now)
  {
  }

  /** Registering a new workload funds it and leaves the others alone. */
  lemma OneMoreFunded(book: Book, ws: seq<Workload>, n: nat, ps: seq<Policy>, p: Policy, now: int)
    requires n < |ws| && AllFunded(book, ws[..n], ps, now) && ws[n].id !in book
    requires PolicyOk(p) && p in ps && ws[n].policyRefs != [] && p.id == ws[n].policyRefs[0]
    ensures AllFunded(Registered(book, ws[n].id, Params(p), now), ws[..n + 1], ps, now)
  {
    var after, known := Registered(book, ws[n].id, Params(p), now), ws[..n + 1];
    OpenedFunded(book, ws[n].id, p, now);
    forall i | 0 <= i < |known| ensures FundedByFirst(after, known[i], ps, now) {
      if i < n {
        assert FundedByFirst(book, ws[..n][i], ps, now);
      }
    }
  }

  lemma OpenedServiceable(book: Book, id: string, p: Policy, now: int)
    requires Serviceable(book) && PolicyOk(p)
    ensures
      var after := Registered(book, id, Params(p), now);
      Serviceable(after) && after.Keys == book.Keys + {id}
  {
  }

  /** Register each workload with its resolved policy's budget; false is the start-up abort. */
  method RegisterWorkloads(s: Spec, engine: Engine, t: TrackerImpl, now: int) returns (ok: bool)
    requires PoliciesOk(s.policies) && WorkloadsOk(s.workloads, s.policies) && Resolves(engine, s)
    requires t.Valid() && t.Contents() == map[]
    modifies t
    ensures ok && t.Valid() && fresh(t.Repr - old(t.Repr))
    ensures Serviceable(t.Contents()) && AllFunded(t.Contents(), s.workloads, s.policies, now)
    ensures forall id :: id in t.Contents() <==> IsWorkload(s.workloads, id)
  {
    for n := 0 to |s.workloads|
      invariant t.Valid() && fresh(t.Repr - old(t.Repr))
      invariant Serviceable(t.Contents()) && AllFunded(t.Contents(), s.workloads[..n], s.policies, now)
      invariant forall id :: id in t.Contents() <==> IsWorkload(s.workloads[..n], id)
    {
      var w := s.workloads[n];
      var pol := Lookup(engine, w.id);
      assert ResolvesTo(engine, w, s.policies);
      if pol.None? {
        return false;
      }
      OpenedServiceable(t.Contents(), w.id, pol.value, now);
      OneMoreFunded(t.Contents(), s.workloads, n, s.policies, pol.value, now);
      t.Register(w.id, Params(pol.value), now);
      KnownSoFar(s.workloads, n);
    }
    assert s.workloads[..|s.workloads|] == s.workloads;
    return true;
  }

  /** Enforcement start-up from an accepted configuration: it never aborts, every registered
  window is usable, exactly the configured workloads and the default have one, and each has the
  untouched budget of its own policy: window, limit and burst. */
  method StartEnforcement(s: Spec, now: int) returns (engine: Engine, t: TrackerImpl, ok: bool)
    requires FirstFailure("enforcement", s) == None
    ensures ok && Resolves(engine, s)
    ensures t.Valid() && fresh(t.Repr) && Serviceable(t.Contents())
    ensures forall id :: id in t.Contents() <==>
              IsWorkload(s.workloads, id) || (id == "_default" && s.defaultPolicy.Some?)
    ensures AllFunded(t.Contents(), s.workloads, s.policies, now)
    ensures s.defaultPolicy.Some? && !IsWorkload(s.workloads, "_default") ==>
              Funded(t.Contents()["_default"], s.defaultPolicy.value, now)
  {
    AcceptedIsSound(s);
    engine := StartEngine(s);
    t, ok := StartTracker(s, engine, now);
  }

  lemma AcceptedIsSound(s: Spec)
    requires FirstFailure("enforcement", s) == None
    ensures PoliciesOk(s.policies) && WorkloadsOk(s.workloads, s.policies)
    ensures s.defaultPolicy.Some? ==> PolicyOk(s.defaultPolicy.value)
  {
  }

  method StartTracker(s: Spec, engine: Engine, now: int) returns (t: TrackerImpl, ok: bool)
    requires PoliciesOk(s.policies) && WorkloadsOk(s.workloads, s.policies) && Resolves(engine, s)
    requires s.defaultPolicy.Some? ==> PolicyOk(s.defaultPolicy.value)
    ensures ok && t.Valid() && fresh(t.Repr) && Serviceable(t.Contents())
    ensures forall id :: id in t.Contents() <==>
              IsWorkload(s.workloads, id) || (id == DEFAULT_KEY && s.defaultPolicy.Some?)
    ensures AllFunded(t.Contents(), s.workloads, s.policies, now)
    ensures s.defaultPolicy.Some? && !IsWorkload(s.workloads, DEFAULT_KEY) ==>
              Funded(t.Contents()[DEFAULT_KEY], s.defaultPolicy.value, now)
  {
    t := new TrackerImpl();
    ok := RegisterWorkloads(s, engine, t, now);
    WithDefault(t.Contents(), s, now);
    RegisterDefault(s.defaultPolicy, t, now);
  }

  /** The tracker's book with the default key registered, when there is a default policy. */
  ghost function AndDefault(book: Book, default: Option<Policy>, now: int): Book
    requires default.Some? ==> PolicyOk(default.value)
  {
    if default.None? then book else Registered(book, DEFAULT_KEY, Params(default.value), now)
  }

  lemma WithDefault(book: Book, s: Spec, now: int)
    requires s.defaultPolicy.Some? ==> PolicyOk(s.defaultPolicy.value)
    requires Serviceable(book) && AllFunded(book, s.workloads, s.policies, now)
    requires forall id :: id in book <==> IsWorkload(s.workloads, id)
    ensures
      var after := AndDefault(book, s.defaultPolicy, now);
      && Serviceable(after) && AllFunded(after, s.workloads, s.policies, now)
      && (forall id :: id in after <==> IsWorkload(s.workloads, id) || (id == DEFAULT_KEY && s.defaultPolicy.Some?))
      && (s.defaultPolicy.Some? && !IsWorkload(s.workloads, DEFAULT_KEY) ==>
            Funded(after[DEFAULT_KEY], s.defaultPolicy.value, now))
  {
    if s.defaultPolicy.Some? {
      OpenedServiceable(book, DEFAULT_KEY, s.defaultPolicy.value, now);
      if DEFAULT_KEY !in book {
        OpenedFunded(book, DEFAULT_KEY, s.defaultPolicy.value, now);
      }
    }
    FundedKept(book, AndDefault(book, s.defaultPolicy, now), s.workloads, s.policies, now);
  }

  lemma FundedKept(before: Book, after: Book, ws: seq<Workload>, ps: seq<Policy>, now: int)
    requires AllFunded(before, ws, ps, now) && forall id :: id in before ==> id in after && after[id] == before[id]
    ensures AllFunded(after, ws, ps, now)
  {
    forall i | 0 <= i < |ws| ensures FundedByFirst(after, ws[i], ps, now) {
      assert FundedByFirst(before, ws[i], ps, now);
    }
  }

  method StartEngine(s: Spec) returns (engine: Engine)
    requires PoliciesOk(s.policies) && WorkloadsOk(s.workloads, s.policies)
    ensures Resolves(engine, s)
  {
    engine := NewMapEngine(s);
    LookupAnswers(s, engine);
  }

  /** Register the default key when there is a default policy. */
  method RegisterDefault(default: Option<Policy>, t: TrackerImpl, now: int)
    requires default.Some? ==> PolicyOk(default.value)
    requires t.Valid()
    modifies t
    ensures t.Valid() && fresh(t.Repr - old(t.Repr)) && t.Contents() == AndDefault(old(t.Contents()), default, now)
  {
    if default.Some? {
      t.Register(DEFAULT_KEY, Params(default.value), now);
    }
  }

  lemma KnownSoFar(ws: seq<Workload>, n: nat)
    requires n < |ws|
    ensures forall id :: IsWorkload(ws[..n + 1], id) <==> IsWorkload(ws[..n], id) || id == ws[n].id
  {
    forall id ensures IsWorkload(ws[..n + 1], id) <==> IsWorkload(ws[..n], id) || id == ws[n].id {
      if IsWorkload(ws[..n], id) {
        var i :| 0 <= i < n && ws[..n][i].id == id;
        assert ws[..n + 1][i].id == id;
      }
      if id == ws[n].id {
        assert ws[..n + 1][n].id == id;
      }
      if IsWorkload(ws[..n + 1], id) && id != ws[n].id {
        var i :| 0 <= i < n + 1 && ws[..n + 1][i].id == id;
        assert ws[..n][i].id == id;
      }
    }
  }

  /** An engine built from an accepted configuration answers as it should. */
  lemma LookupAnswers(s: Spec, engine: Engine)
    requires PoliciesOk(s.policies) && WorkloadsOk(s.workloads, s.policies) && BuiltFrom(engine, s)
    ensures Resolves(engine, s)
  {
    var byID :| Indexes(byID, s.policies) && engine == MapEngine(Assigned(s.workloads, byID), s.defaultPolicy, s.strictMode);
    forall i | 0 <= i < |s.workloads| ensures ResolvesTo(engine, s.workloads[i], s.policies) {
      ResolutionIsUnique(s, byID, i);
    }
    forall id | !IsWorkload(s.workloads, id)
      ensures Lookup(engine, id) == if s.strictMode then None else s.defaultPolicy
    {
      if id in engine.policies {
        AssignedKeys(s.workloads, byID, id);
      }
    }
  }
}
