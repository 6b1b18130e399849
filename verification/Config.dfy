/** internal/config/config.go: the parsed configuration and its validation. */
module Configs {
  import opened Options

  datatype Policy = Policy(
    id: string,
    windowSeconds: int, limitTokens: int, burstTokens: int,
    maxTokensPerRequest: int,
    tier1Action: string, tier3Action: string)

  datatype Workload = Workload(id: string, identityMode: string, identityKey: string, policyRefs: seq<string>)

  /** The check that failed first, in the order the code makes them. */
  datatype Failure = BadMode | BadUpstreams | BadPolicies | BadDefaultPolicy | NoListenerPolicy | BadWorkloads | MixedIdentityKeys

  // ---- What an acceptable configuration is ----

  predicate PolicyOk(p: Policy) {
    p.windowSeconds >= 1 && p.limitTokens >= 1 && p.burstTokens >= 0 && p.maxTokensPerRequest >= 0
  }

  predicate UpstreamOk(name: string, url: string) {
    url != "" && name != "google"
  }

  ghost predicate UpstreamsOk(upstreams: map<string, string>) {
    upstreams != map[] && forall name :: name in upstreams ==> UpstreamOk(name, upstreams[name])
  }

  ghost predicate PoliciesOk(ps: seq<Policy>) {
    && (forall i :: 0 <= i < |ps| ==> ps[i].id != "" && PolicyOk(ps[i]))
    && (forall i, j :: 0 <= i < j < |ps| ==> ps[i].id != ps[j].id)
  }

  ghost predicate Names(ps: seq<Policy>, id: string) {
    exists i :: 0 <= i < |ps| && ps[i].id == id
  }

  ghost predicate WorkloadOk(w: Workload, ps: seq<Policy>) {
    && w.id != ""
    && (w.identityMode == "pod" || (w.identityMode == "header" && w.identityKey != ""))
    && w.policyRefs != []
    && forall k :: 0 <= k < |w.policyRefs| ==> Names(ps, w.policyRefs[k])
  }

  ghost predicate WorkloadsOk(ws: seq<Workload>, ps: seq<Policy>) {
    && (forall i :: 0 <= i < |ws| ==> WorkloadOk(ws[i], ps))
    && (forall i, j :: 0 <= i < j < |ws| ==> ws[i].id != ws[j].id)
  }

  /** Every header-mode workload is identified by the same header. */
  ghost predicate OneIdentityKey(ws: seq<Workload>) {
    forall i, j :: 0 <= i < j < |ws| && ws[i].identityMode == "header" == ws[j].identityMode ==>
      ws[i].identityKey == ws[j].identityKey
  }

  /** The value part of a configuration: everything validation reads and never changes. */
  datatype Spec = Spec(
    upstreams: map<string, string>,
    workloads: seq<Workload>,
    policies: seq<Policy>,
    defaultPolicy: Option<Policy>,
    strictMode: bool)

  function Normal(mode: string): string {
    if mode == "" then "enforcement" else mode
  }

  ghost function FirstFailure(mode: string, s: Spec): Option<Failure> {
    if mode != "listener" && mode != "enforcement" then Some(BadMode)
    else if !UpstreamsOk(s.upstreams) then Some(BadUpstreams)
    else if !PoliciesOk(s.policies) then Some(BadPolicies)
    else if s.defaultPolicy.Some? && !PolicyOk(s.defaultPolicy.value) then Some(BadDefaultPolicy)
    else if mode == "listener" && s.workloads == [] then
      if s.defaultPolicy.None? then Some(NoListenerPolicy) else None
    else if !WorkloadsOk(s.workloads, s.policies) then Some(BadWorkloads)
    else if !OneIdentityKey(s.workloads) then Some(MixedIdentityKeys)
    else None
  }

  // ---- Several policy references ----

  function WithRef(w: Workload, ref: string): Workload {
    w.(policyRefs := w.policyRefs + [ref])
  }

  /** A further reference on a workload of an accepted configuration is accepted exactly when it
  names a policy: having more than one is no failure. */
  lemma ExtraRefAccepted(mode: string, s: Spec, k: nat, ref: string)
    requires FirstFailure(mode, s) == None && k < |s.workloads|
    ensures FirstFailure(mode, s.(workloads := s.workloads[k := WithRef(s.workloads[k], ref)])) == None <==>
              Names(s.policies, ref)
  {
    var w, ws := s.workloads[k], s.workloads[k := WithRef(s.workloads[k], ref)];
    assert WithRef(w, ref).policyRefs[|w.policyRefs|] == ref;
    assert WorkloadOk(w, s.policies);
    assert WorkloadOk(ws[k], s.policies) <==> Names(s.policies, ref);
    assert OneIdentityKey(ws) by {
      assert forall i :: 0 <= i < |ws| ==>
        ws[i].identityMode == s.workloads[i].identityMode && ws[i].identityKey == s.workloads[i].identityKey;
    }
  }

  /** One upstream, two policies, one workload that refers to both. */
  function TwoRefs(name: string, url: string, p: Policy, q: Policy, id: string): Spec {
    Spec(map[name := url], [Workload(id, "pod", "", [p.id, q.id])], [p, q], None, false)
  }

  /** Such a configuration is accepted in either mode. */
  lemma TwoRefsAccepted(mode: string, name: string, url: string, p: Policy, q: Policy, id: string)
    requires mode == "listener" || mode == "enforcement"
    requires UpstreamOk(name, url) && PolicyOk(p) && PolicyOk(q) && p.id != "" && q.id != "" && p.id != q.id && id != ""
    ensures FirstFailure(mode, TwoRefs(name, url, p, q, id)) == None
  {
    var s := TwoRefs(name, url, p, q, id);
    assert s.upstreams.Keys == {name};
    assert s.policies[0].id == p.id && s.policies[1].id == q.id;
  }

  // ---- The validation loops ----

  method CheckUpstreams(upstreams: map<string, string>) returns (ok: bool)
    ensures ok <==> UpstreamsOk(upstreams)
  {
    if upstreams == map[] {
      return false;
    }
    var left := upstreams.Keys;
    while left != {}
      invariant left <= upstreams.Keys
      invariant forall name :: name in upstreams && name !in left ==> UpstreamOk(name, upstreams[name])
    {
      var name :| name in left;
      if upstreams[name] == "" || name == "google" {
        return false;
      }
      left := left - {name};
    }
    return true;
  }

  method ValidatePolicy(p: Policy) returns (ok: bool)
    ensures ok <==> PolicyOk(p)
  {
    if p.windowSeconds <= 0 || p.limitTokens <= 0 {
      return false;
    }
    return p.burstTokens >= 0 && p.maxTokensPerRequest >= 0;
  }

  method CheckPolicies(ps: seq<Policy>) returns (ok: bool, policyIDs: set<string>)
    ensures ok <==> PoliciesOk(ps)
    ensures ok ==> forall id :: id in policyIDs <==> Names(ps, id)
  {
    policyIDs := {};
    for n := 0 to |ps|
      invariant PoliciesOk(ps[..n])
      invariant forall id :: id in policyIDs <==> exists i :: 0 <= i < n && ps[i].id == id
    {
      var p := ps[n];
      if p.id == "" || p.id in policyIDs {
        return false, policyIDs;
      }
      var good := ValidatePolicy(p);
      if !good {
        return false, policyIDs;
      }
      policyIDs := policyIDs + {p.id};
    }
    assert ps[..|ps|] == ps;
    return true, policyIDs;
  }

  method CheckRefs(refs: seq<string>, policyIDs: set<string>) returns (ok: bool)
    ensures ok <==> forall k :: 0 <= k < |refs| ==> refs[k] in policyIDs
  {
    for k := 0 to |refs|
      invariant forall j :: 0 <= j < k ==> refs[j] in policyIDs
    {
      if refs[k] !in policyIDs {
        return false;
      }
    }
    return true;
  }

  method CheckWorkload(w: Workload, ghost ps: seq<Policy>, policyIDs: set<string>) returns (ok: bool)
    requires forall id :: id in policyIDs <==> Names(ps, id)
    ensures ok <==> WorkloadOk(w, ps)
  {
    if w.id == "" || (w.identityMode != "header" && w.identityMode != "pod") {
      return false;
    }
    if w.identityMode == "header" && w.identityKey == "" {
      return false;
    }
    var known := CheckRefs(w.policyRefs, policyIDs);
    return known && w.policyRefs != [];
  }

  lemma OneMoreWorkload(ws: seq<Workload>, ps: seq<Policy>)
    requires |ws| > 0 && WorkloadsOk(ws[..|ws| - 1], ps) && WorkloadOk(ws[|ws| - 1], ps)
    requires forall i :: 0 <= i < |ws| - 1 ==> ws[i].id != ws[|ws| - 1].id
    ensures WorkloadsOk(ws, ps)
  {
    var init := ws[..|ws| - 1];
    assert forall i :: 0 <= i < |init| ==> init[i] == ws[i];
  }

  method CheckWorkloads(ws: seq<Workload>, ghost ps: seq<Policy>, policyIDs: set<string>) returns (ok: bool, headers: seq<Workload>)
    requires forall id :: id in policyIDs <==> Names(ps, id)
    ensures ok <==> WorkloadsOk(ws, ps)
    ensures ok ==> headers == HeaderModes(ws)
  {
    headers := [];
    var workloadIDs := {};
    for n := 0 to |ws|
      invariant WorkloadsOk(ws[..n], ps)
      invariant headers == HeaderModes(ws[..n])
      invariant forall id :: id in workloadIDs <==> exists i :: 0 <= i < n && ws[i].id == id
    {
      var w := ws[n];
      var good := CheckWorkload(w, ps, policyIDs);
      if w.id in workloadIDs || !good {
        return false, headers;
      }
      workloadIDs := workloadIDs + {w.id};
      if w.identityMode == "header" {
        headers := headers + [w];
      }
      assert ws[..n + 1][..n] == ws[..n];
      OneMoreWorkload(ws[..n + 1], ps);
    }
    assert ws[..|ws|] == ws;
    return true, headers;
  }

  function HeaderModes(ws: seq<Workload>): seq<Workload> {
    if ws == [] then []
    else HeaderModes(ws[..|ws| - 1]) + if ws[|ws| - 1].identityMode == "header" then [ws[|ws| - 1]] else []
  }

  lemma {:induction false} HeaderModesMembers(ws: seq<Workload>, w: Workload)
    ensures w in HeaderModes(ws) <==> w in ws && w.identityMode == "header"
  {
    if ws != [] {
      var n := |ws| - 1;
      HeaderModesMembers(ws[..n], w);
      assert ws == ws[..n] + [ws[n]];
    }
  }

  method CheckKeys(ws: seq<Workload>, headers: seq<Workload>) returns (ok: bool)
    requires headers == HeaderModes(ws)
    ensures ok <==> OneIdentityKey(ws)
  {
    ok := true;
    if |headers| > 1 {
      var firstKey := headers[0].identityKey;
      for k := 1 to |headers|
        invariant ok <==> forall j :: 1 <= j < k ==> headers[j].identityKey == firstKey
      {
        if headers[k].identityKey != firstKey {
          ok := false;
        }
      }
    }
    KeysAgree(ws, headers);
  }

  lemma KeysAgree(ws: seq<Workload>, headers: seq<Workload>)
    requires headers == HeaderModes(ws)
    ensures OneIdentityKey(ws) <==> forall j :: 1 <= j < |headers| ==> headers[j].identityKey == headers[0].identityKey
  {
    forall w: Workload ensures w in headers <==> w in ws && w.identityMode == "header" {
      HeaderModesMembers(ws, w);
    }
    if OneIdentityKey(ws) {
      forall j | 1 <= j < |headers| ensures headers[j].identityKey == headers[0].identityKey {
        assert headers[j] in headers && headers[0] in headers;
      }
    } else {
      var i, j :| 0 <= i < j < |ws| && ws[i].identityMode == "header" == ws[j].identityMode
                  && ws[i].identityKey != ws[j].identityKey;
      assert ws[i] in headers && ws[j] in headers;
    }
  }

  class Config {
    var modeType: string
    var listenAddr: string
    const spec: Spec

    constructor (modeType: string, listenAddr: string, spec: Spec)
      ensures this.modeType == modeType && this.listenAddr == listenAddr && this.spec == spec
    {
      this.modeType := modeType;
      this.listenAddr := listenAddr;
      this.spec := spec;
    }

    method Validate() returns (err: Option<Failure>)
      modifies this
      ensures modeType == Normal(old(modeType))
      ensures err == FirstFailure(modeType, spec)
      ensures listenAddr == if err.None? && modeType == "listener" && old(listenAddr) == "" then ":15080"
                            else old(listenAddr)
    {
      if modeType == "" {
        modeType := "enforcement";
      }
      if modeType != "listener" && modeType != "enforcement" {
        return Some(BadMode);
      }
      var ok := CheckUpstreams(spec.upstreams);
      if !ok {
        return Some(BadUpstreams);
      }
      var policyIDs;
      ok, policyIDs := CheckPolicies(spec.policies);
      if !ok {
        return Some(BadPolicies);
      }
      if spec.defaultPolicy.Some? {
        ok := ValidatePolicy(spec.defaultPolicy.value);
        if !ok {
          return Some(BadDefaultPolicy);
        }
      }
      if modeType == "listener" && |spec.workloads| == 0 {
        if spec.defaultPolicy.None? {
          return Some(NoListenerPolicy);
        }
      } else {
        var headers;
        ok, headers := CheckWorkloads(spec.workloads, spec.policies, policyIDs);
        if !ok {
          return Some(BadWorkloads);
        }
        ok := CheckKeys(spec.workloads, headers);
        if !ok {
          return Some(MixedIdentityKeys);
        }
      }
      if modeType == "listener" && listenAddr == "" {
        listenAddr := ":15080";
      }
      return None;
    }
  }
}
