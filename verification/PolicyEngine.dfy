/** internal/policy/engine.go: resolving a workload to its policy. */
module PolicyEngines {
  import opened Options
  import opened Configs

  datatype Engine =
    | MapEngine(policies: map<string, Policy>, defaultPolicy: Option<Policy>, strictMode: bool)
    | OverrideEngine(policy: Policy)

  function Lookup(e: Engine, workloadID: string): Option<Policy> {
    match e
    case OverrideEngine(p) => Some(p)
    case MapEngine(policies, default, strict) =>
      if workloadID in policies then Some(policies[workloadID])
      else if strict then None
      else default
  }

  /** Every policy ID is a key, and a key leads to a policy of that ID. */
  ghost predicate Indexes(byID: map<string, Policy>, ps: seq<Policy>) {
    && (forall id :: id in byID ==> byID[id] in ps && byID[id].id == id)
    && (forall i :: 0 <= i < |ps| ==> ps[i].id in byID)
  }

  method IndexPolicies(ps: seq<Policy>) returns (byID: map<string, Policy>)
    ensures Indexes(byID, ps)
  {
    byID := map[];
    for n := 0 to |ps|
      invariant Indexes(byID, ps[..n])
    {
      byID := byID[ps[n].id := ps[n]];
      assert ps[..n + 1] == ps[..n] + [ps[n]];
    }
    assert ps[..|ps|] == ps;
  }

  /** Workload w resolves to the indexed policy its first reference names, or to nothing. */
  function Resolved(w: Workload, byID: map<string, Policy>): Option<Policy> {
    if w.policyRefs != [] && w.policyRefs[0] in byID then Some(byID[w.policyRefs[0]]) else None
  }

  function Assigned(ws: seq<Workload>, byID: map<string, Policy>): map<string, Policy> {
    if ws == [] then map[]
    else
      var w := ws[|ws| - 1];
      var before := Assigned(ws[..|ws| - 1], byID);
      if Resolved(w, byID).Some? then before[w.id := Resolved(w, byID).value] else before
  }

  /** The engine is built over some index of the policies. */
  ghost predicate BuiltFrom(e: Engine, s: Spec) {
    exists byID :: Indexes(byID, s.policies) && e == MapEngine(Assigned(s.workloads, byID), s.defaultPolicy, s.strictMode)
  }

  method NewMapEngine(s: Spec) returns (e: Engine)
    ensures BuiltFrom(e, s)
  {
    var index := IndexPolicies(s.policies);
    var policies := map[];
    for n := 0 to |s.workloads|
      invariant policies == Assigned(s.workloads[..n], index)
    {
      var w := s.workloads[n];
      if |w.policyRefs| > 0 && w.policyRefs[0] in index {
        policies := policies[w.id := index[w.policyRefs[0]]];
      }
      assert s.workloads[..n + 1][..n] == s.workloads[..n];
    }
    assert s.workloads[..|s.workloads|] == s.workloads;
    e := MapEngine(policies, s.defaultPolicy, s.strictMode);
  }

  lemma {:induction false} AssignedDistinct(ws: seq<Workload>, byID: map<string, Policy>, i: nat)
    requires i < |ws|
    requires forall a, b :: 0 <= a < b < |ws| ==> ws[a].id != ws[b].id
    requires Resolved(ws[i], byID).Some?
    ensures ws[i].id in Assigned(ws, byID) && Assigned(ws, byID)[ws[i].id] == Resolved(ws[i], byID).value
  {
    if i < |ws| - 1 {
      AssignedDistinct(ws[..|ws| - 1], byID, i);
    }
  }

  lemma {:induction false} AssignedKeys(ws: seq<Workload>, byID: map<string, Policy>, id: string)
    requires id in Assigned(ws, byID)
    ensures exists i :: 0 <= i < |ws| && ws[i].id == id
  {
    var n := |ws| - 1;
    if id in Assigned(ws[..n], byID) {
      AssignedKeys(ws[..n], byID, id);
      var i :| 0 <= i < n && ws[..n][i].id == id;
      assert ws[i].id == id;
    }
  }

  /** An accepted configuration resolves every workload to the one policy its first reference
  names, and nothing but configured workloads resolves outside the default. */
  lemma ResolutionIsUnique(s: Spec, byID: map<string, Policy>, i: nat)
    requires PoliciesOk(s.policies) && WorkloadsOk(s.workloads, s.policies)
    requires Indexes(byID, s.policies) && i < |s.workloads|
    ensures
      var w := s.workloads[i];
      var e := MapEngine(Assigned(s.workloads, byID), s.defaultPolicy, s.strictMode);
      && w.policyRefs != []
      && Lookup(e, w.id).Some?
      && forall k :: 0 <= k < |s.policies| ==>
           (s.policies[k] == Lookup(e, w.id).value <==> s.policies[k].id == w.policyRefs[0])
    ensures
      var e := MapEngine(Assigned(s.workloads, byID), s.defaultPolicy, s.strictMode);
      Lookup(e, s.workloads[i].id).value in s.policies
  {
    var w := s.workloads[i];
    assert WorkloadOk(w, s.policies);
    assert Names(s.policies, w.policyRefs[0]);
    AssignedDistinct(s.workloads, byID, i);
  }
}
