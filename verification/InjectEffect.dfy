/** What the injector's patch does to a pod when it is applied. */
module InjectEffect {
  import opened Options
  import opened JsonPatch
  import opened JsonPlaces
  import opened Inject

  // ---- Each kind of step ----

  lemma {:induction false} AppendsApply(doc: Json, path: seq<string>, values: seq<Json>)
    requires At(doc, path).Some? && At(doc, path).value.Arr?
    ensures Apply(doc, Appends(path, values)) == Some(Put(doc, path, Arr(At(doc, path).value.items + values)))
  {
    var items := At(doc, path).value.items;
    if values == [] {
      PutSame(doc, path);
      assert items + values == items;
    } else {
      var n := |values| - 1;
      var init, last := values[..n], values[n];
      AppendsApply(doc, path, init);
      var mid := Put(doc, path, Arr(items + init));
      var op := Op(path + ["-"], last);
      AtPut(doc, path, Arr(items + init));
      AddLast(mid, path, "-", last);
      PutPut(doc, path, Arr(items + init), Arr(items + init + [last]));
      ApplyAppend(doc, Appends(path, init), [op]);
      ApplyOne(mid, op);
      assert items + init + [last] == items + values;
    }
  }

  function Strs(values: map<string, string>, keys: set<string>): map<string, Json> {
    map key | key in keys && key in values :: Str(values[key])
  }

  lemma {:induction false} SetsApply(doc: Json, path: seq<string>, values: map<string, string>, order: seq<string>)
    requires At(doc, path).Some? && At(doc, path).value.Obj?
    requires forall k :: 0 <= k < |order| ==> order[k] in values
    ensures Apply(doc, Sets(path, values, order)) ==
            Some(Put(doc, path, Obj(At(doc, path).value.fields + Strs(values, set k | k in order))))
  {
    var fields := At(doc, path).value.fields;
    if order == [] {
      PutSame(doc, path);
      assert fields + Strs(values, set k | k in order) == fields;
    } else {
      var n := |order| - 1;
      var init, key := order[..n], order[n];
      SetsApply(doc, path, values, init);
      var before := Obj(fields + Strs(values, set k | k in init));
      var mid := Put(doc, path, before);
      var op := Op(path + [key], Str(values[key]));
      AtPut(doc, path, before);
      AddLast(mid, path, key, Str(values[key]));
      PutPut(doc, path, before, Obj(before.fields[key := Str(values[key])]));
      ApplyAppend(doc, Sets(path, values, init), [op]);
      ApplyOne(mid, op);
      OneMoreKey(fields, values, order);
    }
  }

  lemma OneMoreKey(fields: map<string, Json>, values: map<string, string>, order: seq<string>)
    requires order != [] && order[|order| - 1] in values
    ensures
      var n := |order| - 1;
      (fields + Strs(values, set k | k in order[..n]))[order[n] := Str(values[order[n]])] ==
      fields + Strs(values, set k | k in order)
  {
    var n := |order| - 1;
    assert order == order[..n] + [order[n]];
    assert (set k | k in order) == (set k | k in order[..n]) + {order[n]};
  }

  /** A container with the missing base URLs appended to its environment. */
  function Injected(c: Json, order: seq<string>, url: string): Json {
    var names := Missing(Env(c), order);
    if names == [] || !c.Obj? then c else Obj(c.fields["env" := Arr(Env(c) + Vars(names, url))])
  }

  lemma EnvOpsApply(doc: Json, place: seq<string>, order: seq<string>, url: string)
    requires At(doc, place).Some? && DecodesContainer(At(doc, place).value)
    ensures
      var c := At(doc, place).value;
      Apply(doc, EnvOps(place + ["env"], Env(c), order, url)) == Some(Put(doc, place, Injected(c, order, url)))
  {
    var c := At(doc, place).value;
    var env, path := Env(c), place + ["env"];
    var names := Missing(env, order);
    var vars := Vars(names, url);
    if names == [] {
      PutSame(doc, place);
      assert EnvOps(path, env, order, url) == [];
    } else if env == [] {
      var made := Obj(c.fields["env" := Arr([])]);
      AddLast(doc, place, "env", Arr([]));
      var mid := Put(doc, place, made);
      EnvFilled(doc, mid, place, made, vars);
      var init := Op(path, Arr([]));
      ApplyOne(doc, init);
      ApplyAppend(doc, [init], Appends(path, vars));
      var filled := Arr(Env(c) + vars);
      assert Env(made) + vars == Env(c) + vars;
      assert made.fields["env" := filled] == c.fields["env" := filled];
      assert EnvOps(path, env, order, url) == [init] + Appends(path, vars);
    } else {
      PutSame(doc, place);
      EnvFilled(doc, doc, place, c, vars);
      assert EnvOps(path, env, order, url) == Appends(path, vars);
    }
  }

  /** Appending to the environment of the container at a place, once it is an array. */
  lemma EnvFilled(doc: Json, mid: Json, place: seq<string>, c: Json, vars: seq<Json>)
    requires At(doc, place).Some? && c.Obj? && Field(c, "env").Arr?
    requires mid == Put(doc, place, c)
    ensures Apply(mid, Appends(place + ["env"], vars)) ==
            Some(Put(doc, place, Obj(c.fields["env" := Arr(Env(c) + vars)])))
  {
    var path, filled := place + ["env"], Arr(Env(c) + vars);
    AtPut(doc, place, c);
    AtAppend(mid, place, ["env"]);
    AtOne(c, "env");
    AppendsApply(mid, path, vars);
    PutAppend(mid, place, ["env"], filled);
    PutOne(c, "env", filled);
    PutPut(doc, place, c, Obj(c.fields["env" := filled]));
  }

  lemma AtOne(doc: Json, token: string)
    ensures At(doc, [token]) == Child(doc, token)
  {
    assert [token][1..] == [];
  }

  lemma PutOne(doc: Json, token: string, v: Json)
    requires Child(doc, token).Some?
    ensures At(doc, [token]).Some? && Put(doc, [token], v) == PutChild(doc, token, v)
  {
    assert [token][1..] == [];
  }

  /** The first n containers done, the others still to do. */
  function Done(cs: seq<Json>, orders: seq<seq<string>>, url: string, n: nat): (r: seq<Json>)
    requires n <= |cs| == |orders|
    ensures |r| == |cs|
  {
    seq(|cs|, i requires 0 <= i < |cs| => if i < n then Injected(cs[i], orders[i], url) else cs[i])
  }

  /** The operations for the first n containers make the list at `base` this. */
  predicate EnvDone(doc: Json, base: seq<string>, cs: seq<Json>, more: seq<Json>,
                    orders: seq<seq<string>>, url: string, n: nat)
    requires At(doc, base).Some? && n <= |cs| == |orders|
  {
    Apply(doc, AllEnvOps(base, cs, orders, url, n)) == Some(Put(doc, base, Arr(Done(cs, orders, url, n) + more)))
  }

  predicate AllDecode(cs: seq<Json>) {
    forall i :: 0 <= i < |cs| ==> DecodesContainer(cs[i])
  }

  lemma AllEnvApply(doc: Json, base: seq<string>, cs: seq<Json>, more: seq<Json>,
                    orders: seq<seq<string>>, url: string, n: nat)
    requires At(doc, base) == Some(Arr(cs + more))
    requires n <= |cs| == |orders| && AllDecode(cs)
    ensures EnvDone(doc, base, cs, more, orders, url, n)
  {
    NoneDone(doc, base, cs, more, orders, url);
    for k := 0 to n
      invariant EnvDone(doc, base, cs, more, orders, url, k)
    {
      NextDone(doc, base, cs, more, orders, url, k);
    }
  }

  lemma NoneDone(doc: Json, base: seq<string>, cs: seq<Json>, more: seq<Json>, orders: seq<seq<string>>, url: string)
    requires At(doc, base) == Some(Arr(cs + more)) && |cs| == |orders|
    ensures EnvDone(doc, base, cs, more, orders, url, 0)
  {
    assert Done(cs, orders, url, 0) == cs;
    PutSame(doc, base);
  }

  lemma NextDone(doc: Json, base: seq<string>, cs: seq<Json>, more: seq<Json>, orders: seq<seq<string>>, url: string, i: nat)
    requires At(doc, base).Some? && i < |cs| == |orders| && DecodesContainer(cs[i])
    requires EnvDone(doc, base, cs, more, orders, url, i)
    ensures EnvDone(doc, base, cs, more, orders, url, i + 1)
  {
    DoneMore(cs, orders, url, i, more);
    OneMoreContainer(doc, base, AllEnvOps(base, cs, orders, url, i), Done(cs, orders, url, i) + more, i, orders[i], url);
  }

  lemma DoneMore(cs: seq<Json>, orders: seq<seq<string>>, url: string, i: nat, more: seq<Json>)
    requires i < |cs| == |orders|
    ensures
      var before := Done(cs, orders, url, i) + more;
      before[i] == cs[i] && before[i := Injected(cs[i], orders[i], url)] == Done(cs, orders, url, i + 1) + more
  {
  }

  lemma OneMoreContainer(doc: Json, base: seq<string>, ops: seq<Op>, items: seq<Json>, i: nat,
                         order: seq<string>, url: string)
    requires At(doc, base).Some? && Apply(doc, ops) == Some(Put(doc, base, Arr(items)))
    requires i < |items| && DecodesContainer(items[i])
    ensures Apply(doc, ops + EnvOps(EnvPath(base, i), Env(items[i]), order, url)) ==
            Some(Put(doc, base, Arr(items[i := Injected(items[i], order, url)])))
  {
    AtPut(doc, base, Arr(items));
    OneContainer(Put(doc, base, Arr(items)), base, items, i, order, url);
    PutPut(doc, base, Arr(items), Arr(items[i := Injected(items[i], order, url)]));
    ApplyAppend(doc, ops, EnvOps(EnvPath(base, i), Env(items[i]), order, url));
  }

  lemma OneContainer(doc: Json, base: seq<string>, items: seq<Json>, i: nat, order: seq<string>, url: string)
    requires At(doc, base) == Some(Arr(items)) && i < |items| && DecodesContainer(items[i])
    ensures Apply(doc, EnvOps(EnvPath(base, i), Env(items[i]), order, url)) ==
            Some(Put(doc, base, Arr(items[i := Injected(items[i], order, url)])))
  {
    IndexRoundTrip(i);
    var place := base + [Dec(i)];
    AtAppend(doc, base, [Dec(i)]);
    AtOne(Arr(items), Dec(i));
    EnvOpsApply(doc, place, order, url);
    assert place + ["env"] == EnvPath(base, i);
    PutAppend(doc, base, [Dec(i)], Injected(items[i], order, url));
    PutOne(Arr(items), Dec(i), Injected(items[i], order, url));
  }

  // ---- The whole patch ----

  /** The pod with one member of its spec replaced or added. */
  function WithSpec(pod: Json, key: string, v: Json): Json
    requires pod.Obj? && Field(pod, "spec").Obj?
  {
    Obj(pod.fields["spec" := Obj(Field(pod, "spec").fields[key := v])])
  }

  function WithMetadata(pod: Json, key: string, v: Json): Json
    requires pod.Obj? && Field(pod, "metadata").Obj?
  {
    Obj(pod.fields["metadata" := Obj(Field(pod, "metadata").fields[key := v])])
  }

  lemma PutTwo(doc: Json, a: string, b: string, v: Json)
    requires doc.Obj? && a in doc.fields && doc.fields[a].Obj? && b in doc.fields[a].fields
    ensures At(doc, [a, b]) == Some(doc.fields[a].fields[b])
    ensures Put(doc, [a, b], v) == Obj(doc.fields[a := Obj(doc.fields[a].fields[b := v])])
  {
    assert [a, b][1..] == [b];
    AtOne(doc.fields[a], b);
    PutOne(doc.fields[a], b, v);
  }

  lemma AddTwo(doc: Json, a: string, b: string, v: Json)
    requires doc.Obj? && a in doc.fields && doc.fields[a].Obj?
    ensures Add(doc, [a, b], v) == Some(Obj(doc.fields[a := Obj(doc.fields[a].fields[b := v])]))
  {
    AtOne(doc, a);
    AddLast(doc, [a], b, v);
    PutOne(doc, a, Obj(doc.fields[a].fields[b := v]));
    assert [a] + [b] == [a, b];
  }

  /** Make sure there is an array at a/b, then append one value: the volume step. */
  lemma MakeAndAppend(doc: Json, a: string, b: string, v: Json)
    requires doc.Obj? && a in doc.fields && doc.fields[a].Obj?
    requires Field(doc.fields[a], b).Arr? || Items(Field(doc.fields[a], b)) == []
    ensures
      var items := Items(Field(doc.fields[a], b));
      Apply(doc, (if items == [] then [Op([a, b], Arr([]))] else []) + [Op([a, b] + ["-"], v)]) ==
      Some(Obj(doc.fields[a := Obj(doc.fields[a].fields[b := Arr(items + [v])])]))
  {
    var items := Items(Field(doc.fields[a], b));
    var add := Op([a, b] + ["-"], v);
    if items == [] {
      var make := Op([a, b], Arr([]));
      AddTwo(doc, a, b, Arr([]));
      var mid := Obj(doc.fields[a := Obj(doc.fields[a].fields[b := Arr([])])]);
      ApplyOne(doc, make);
      ApplyAppend(doc, [make], [add]);
      AppendOne(mid, a, b, v);
      var filled := Arr(items + [v]);
      assert Field(mid.fields[a], b).items + [v] == items + [v];
      assert mid.fields[a].fields[b := filled] == doc.fields[a].fields[b := filled];
      var inner := Obj(doc.fields[a].fields[b := filled]);
      assert mid.fields[a := inner] == doc.fields[a := inner];
    } else {
      AppendOne(doc, a, b, v);
      assert [] + [add] == [add];
    }
  }

  lemma AppendOne(doc: Json, a: string, b: string, v: Json)
    requires doc.Obj? && a in doc.fields && doc.fields[a].Obj? && Field(doc.fields[a], b).Arr?
    ensures Apply(doc, [Op([a, b] + ["-"], v)]) ==
            Some(Obj(doc.fields[a := Obj(doc.fields[a].fields[b := Arr(Field(doc.fields[a], b).items + [v])])]))
  {
    PutTwo(doc, a, b, Arr(Field(doc.fields[a], b).items + [v]));
    AddLast(doc, [a, b], "-", v);
    ApplyOne(doc, Op([a, b] + ["-"], v));
  }

  lemma VolumeOpsApply(pod: Json)
    requires IsPod(pod)
    ensures Apply(pod, VolumeOps(pod)) ==
            Some(if ConfigMapOf(pod) == "" then pod
                 else WithSpec(pod, "volumes", Arr(Volumes(pod) + [ConfigVolume(pod)])))
  {
    if ConfigMapOf(pod) != "" {
      MakeAndAppend(pod, "spec", "volumes", ConfigVolume(pod));
    }
  }

  function AfterVolumes(pod: Json): Json
    requires IsPod(pod)
  {
    if ConfigMapOf(pod) == "" then pod else WithSpec(pod, "volumes", Arr(Volumes(pod) + [ConfigVolume(pod)]))
  }

  function AfterContainers(cfg: WebhookConfig, pod: Json, owner: Owner, o: Orders): Json
    requires IsPod(pod) && |o.urls| == |Containers(pod)|
  {
    var done := Done(Containers(pod), o.urls, BaseURL(cfg), |o.urls|);
    WithSpec(AfterVolumes(pod), "containers", Arr(done + [Sidecar(cfg, pod, owner)]))
  }

  /** Append one value to the array at a/b, then settle the environments of the items before it. */
  lemma AppendAndFill(doc: Json, a: string, b: string, cs: seq<Json>, v: Json, orders: seq<seq<string>>, url: string)
    requires doc.Obj? && a in doc.fields && doc.fields[a].Obj? && Field(doc.fields[a], b) == Arr(cs)
    requires |cs| == |orders| && AllDecode(cs)
    ensures Apply(doc, [Op([a, b] + ["-"], v)] + AllEnvOps([a, b], cs, orders, url, |orders|)) ==
            Some(Obj(doc.fields[a := Obj(doc.fields[a].fields[b := Arr(Done(cs, orders, url, |orders|) + [v])])]))
  {
    var add, n := Op([a, b] + ["-"], v), |orders|;
    AppendOne(doc, a, b, v);
    var mid := Obj(doc.fields[a := Obj(doc.fields[a].fields[b := Arr(cs + [v])])]);
    var filled := Arr(Done(cs, orders, url, n) + [v]);
    PutTwo(mid, a, b, filled);
    AllEnvApply(mid, [a, b], cs, [v], orders, url, n);
    ApplyAppend(doc, [add], AllEnvOps([a, b], cs, orders, url, n));
    var inner := Obj(doc.fields[a].fields[b := filled]);
    assert mid.fields[a].fields[b := filled] == doc.fields[a].fields[b := filled];
    assert mid.fields[a := inner] == doc.fields[a := inner];
  }

  /** Make sure there is an object at a/b, then set the keys: the annotation step. */
  lemma MakeAndSet(doc: Json, a: string, b: string, values: map<string, string>, order: seq<string>)
    requires doc.Obj? && a in doc.fields && doc.fields[a].Obj?
    requires forall k :: 0 <= k < |order| ==> order[k] in values
    ensures
      var was := Field(doc.fields[a], b);
      var fields := if was.Obj? then was.fields else map[];
      Apply(doc, (if was.Obj? then [] else [Op([a, b], Obj(map[]))]) + Sets([a, b], values, order)) ==
      Some(Obj(doc.fields[a := Obj(doc.fields[a].fields[b := Obj(fields + Strs(values, set k | k in order))])]))
  {
    var was := Field(doc.fields[a], b);
    var sets := Sets([a, b], values, order);
    var strs := Strs(values, set k | k in order);
    if was.Obj? {
      PutTwo(doc, a, b, Obj(was.fields + strs));
      SetsApply(doc, [a, b], values, order);
      assert [] + sets == sets;
    } else {
      var make := Op([a, b], Obj(map[]));
      AddTwo(doc, a, b, Obj(map[]));
      var mid := Obj(doc.fields[a := Obj(doc.fields[a].fields[b := Obj(map[])])]);
      ApplyOne(doc, make);
      ApplyAppend(doc, [make], sets);
      var filled := Obj(map[] + strs);
      PutTwo(mid, a, b, filled);
      SetsApply(mid, [a, b], values, order);
      var inner := Obj(doc.fields[a].fields[b := filled]);
      assert mid.fields[a].fields[b := filled] == doc.fields[a].fields[b := filled];
      assert mid.fields[a := inner] == doc.fields[a := inner];
    }
  }

  lemma ContainerOpsApply(cfg: WebhookConfig, pod: Json, owner: Owner, o: Orders)
    requires IsPod(pod) && |o.urls| == |Containers(pod)|
    ensures Apply(AfterVolumes(pod),
                  [Op(ContainersPath() + ["-"], Sidecar(cfg, pod, owner))] +
                  AllEnvOps(ContainersPath(), Containers(pod), o.urls, BaseURL(cfg), |o.urls|)) ==
            Some(AfterContainers(cfg, pod, owner, o))
  {
    AppendAndFill(AfterVolumes(pod), "spec", "containers", Containers(pod), Sidecar(cfg, pod, owner), o.urls, BaseURL(cfg));
  }

  /** The pod after the patch. */
  function Patched(cfg: WebhookConfig, pod: Json, owner: Owner, o: Orders): Json
    requires IsPod(pod) && |o.urls| == |Containers(pod)|
  {
    var d := AfterContainers(cfg, pod, owner, o);
    if cfg.scrape == map[] then d
    else
      var before := if Annotations(pod).Obj? then Annotations(pod).fields else map[];
      WithMetadata(d, "annotations", Obj(before + Strs(ScrapeValues(cfg), cfg.scrape.Keys)))
  }

  lemma ScrapeOpsApply(cfg: WebhookConfig, pod: Json, owner: Owner, o: Orders)
    requires IsPod(pod) && OrdersOk(o, cfg, pod)
    ensures Apply(AfterContainers(cfg, pod, owner, o), ScrapeOps(cfg, pod, o.scrape)) ==
            Some(Patched(cfg, pod, owner, o))
  {
    var d := AfterContainers(cfg, pod, owner, o);
    if cfg.scrape != map[] {
      assert (set k | k in o.scrape) == cfg.scrape.Keys;
      MakeAndSet(d, "metadata", "annotations", ScrapeValues(cfg), o.scrape);
    }
  }

  /** Applicability: whatever the map iteration orders, every operation of the patch applies in
  turn, read from its text, and together they make exactly the patched pod. */
  lemma PatchApplies(cfg: WebhookConfig, pod: Json, owner: Owner, o: Orders)
    requires IsPod(pod) && OrdersOk(o, cfg, pod)
    ensures ApplyPatch(pod, Written(Patches(cfg, pod, owner, o))) == Some(Patched(cfg, pod, owner, o))
  {
    var sidecar := [Op(ContainersPath() + ["-"], Sidecar(cfg, pod, owner))];
    var env := AllEnvOps(ContainersPath(), Containers(pod), o.urls, BaseURL(cfg), |o.urls|);
    var scrape := ScrapeOps(cfg, pod, o.scrape);
    VolumeOpsApply(pod);
    ContainerOpsApply(cfg, pod, owner, o);
    ScrapeOpsApply(cfg, pod, owner, o);
    ThreeParts(pod, VolumeOps(pod), sidecar, env, scrape);
    WrittenApplies(pod, Patches(cfg, pod, owner, o));
  }

  lemma ThreeParts(doc: Json, a: seq<Op>, b: seq<Op>, c: seq<Op>, d: seq<Op>)
    requires Apply(doc, a).Some? && Apply(Apply(doc, a).value, b + c).Some?
    ensures Apply(doc, a + b + c + d) == Apply(Apply(Apply(doc, a).value, b + c).value, d)
  {
    ApplyAppend(doc, a, b + c);
    assert a + (b + c) == a + b + c;
    ApplyAppend(doc, a + b + c, d);
  }

  // ---- What it amounts to ----

  lemma MissingTwo(env: seq<Json>, a: string, b: string)
    ensures Missing(env, [a, b]) ==
            (if HasEnvVar(env, a) then [] else [a]) + (if HasEnvVar(env, b) then [] else [b])
  {
    assert [a, b][..1] == [a];
    assert [a][..0] == [];
    assert Missing(env, [a]) == [] + if HasEnvVar(env, a) then [] else [a];
  }

  lemma {:induction false} VarsAre(names: seq<string>, url: string)
    ensures |Vars(names, url)| == |names|
    ensures forall k :: 0 <= k < |names| ==> Vars(names, url)[k] == EnvVar(names[k], url)
  {
    if names != [] {
      VarsAre(names[..|names| - 1], url);
    }
  }

  lemma EnvVarName(name: string, value: string)
    ensures NameOf(EnvVar(name, value)) == name && EnvVar(name, value).Obj?
  {
  }

  lemma InjectedShape(c: Json, order: seq<string>, url: string)
    requires c.Obj?
    ensures
      var r := Injected(c, order, url);
      && r.Obj? && Env(r) == Env(c) + Vars(Missing(Env(c), order), url)
      && (forall key :: key != "env" ==> Field(r, key) == Field(c, key))
      && (Field(r, "env").Arr? || Field(r, "env") == Field(c, "env"))
  {
  }

  /** An entry appended for one of `names`, which the environment did not set. */
  predicate NewVar(v: Json, env: seq<Json>, names: seq<string>, url: string) {
    v.Obj? && NameOf(v) in names && !HasEnvVar(env, NameOf(v)) && v == EnvVar(NameOf(v), url)
  }

  /** From `n` on, new entries for distinct names. */
  ghost predicate Gained(all: seq<Json>, n: nat, env: seq<Json>, names: seq<string>, url: string) {
    && (forall k :: n <= k < |all| ==> NewVar(all[k], env, names, url))
    && (forall j, k :: n <= j < k < |all| ==> NameOf(all[j]) != NameOf(all[k]))
  }

  lemma VarsGained(env: seq<Json>, names: seq<string>, url: string)
    requires forall j, k :: 0 <= j < k < |names| ==> names[j] != names[k]
    requires forall k :: 0 <= k < |names| ==> !HasEnvVar(env, names[k])
    ensures Gained(env + Vars(names, url), |env|, env, names, url)
    ensures forall name :: HasEnvVar(env, name) || name in names ==> HasEnvVar(env + Vars(names, url), name)
  {
    var vars := Vars(names, url);
    VarsAre(names, url);
    forall k | 0 <= k < |names| ensures NameOf(vars[k]) == names[k] && vars[k].Obj? {
      EnvVarName(names[k], url);
    }
    forall name | HasEnvVar(env, name) || name in names ensures HasEnvVar(env + vars, name) {
      SetsBoth(env, names, vars, name);
    }
  }

  lemma TwoVars(env: seq<Json>, a: string, b: string, url: string)
    requires a != b
    ensures
      var names := Missing(env, [a, b]);
      var all := env + Vars(names, url);
      && (forall name :: name in names <==> (name == a || name == b) && !HasEnvVar(env, name))
      && Gained(all, |env|, env, names, url)
      && HasEnvVar(all, a) && HasEnvVar(all, b)
  {
    MissingTwo(env, a, b);
    VarsGained(env, Missing(env, [a, b]), url);
  }

  /** Effect on one container, in either iteration order: everything but its environment is kept,
  its environment keeps its entries in place, and what is appended is each base URL variable it
  did not set, once; afterwards it sets both. */
  lemma ContainerEffect(c: Json, order: seq<string>, url: string)
    requires DecodesContainer(c) && UrlOrder(order)
    ensures
      var r, names := Injected(c, order, url), Missing(Env(c), order);
      && DecodesContainer(r)
      && (forall key :: key != "env" ==> Field(r, key) == Field(c, key))
      && Env(c) <= Env(r) && |Env(r)| == |Env(c)| + |names|
      && (forall name :: name in names <==> (name == order[0] || name == order[1]) && !HasEnvVar(Env(c), name))
      && Gained(Env(r), |Env(c)|, Env(c), names, url)
      && HasEnvVar(Env(r), order[0]) && HasEnvVar(Env(r), order[1])
  {
    InjectedShape(c, order, url);
    assert order == [order[0], order[1]];
    TwoVars(Env(c), order[0], order[1], url);
    VarsAre(Missing(Env(c), order), url);
    var r := Injected(c, order, url);
    forall k | 0 <= k < |Env(r)| ensures Named(Env(r)[k]) {
      assert k >= |Env(c)| ==> NewVar(Env(r)[k], Env(c), Missing(Env(c), order), url);
    }
  }

  /** A variable that was set, or was missing and is appended, is set afterwards. */
  lemma SetsBoth(env: seq<Json>, names: seq<string>, vars: seq<Json>, name: string)
    requires |vars| == |names| && forall k :: 0 <= k < |names| ==> NameOf(vars[k]) == names[k]
    requires HasEnvVar(env, name) || name in names
    ensures HasEnvVar(env + vars, name)
  {
    if HasEnvVar(env, name) {
      var k :| 0 <= k < |env| && NameOf(env[k]) == name;
      assert (env + vars)[k] == env[k];
    } else {
      var k :| 0 <= k < |names| && names[k] == name;
      assert (env + vars)[|env| + k] == vars[k];
    }
  }

  /** The same fields, but for these. */
  predicate SameBut(r: Json, j: Json, keys: set<string>) {
    r.Obj? && j.Obj? && r.fields - keys == j.fields - keys
  }

  lemma SpecEffect(cfg: WebhookConfig, pod: Json, owner: Owner, o: Orders)
    requires IsPod(pod) && OrdersOk(o, cfg, pod)
    ensures
      var d := AfterContainers(cfg, pod, owner, o);
      && Containers(d) == Done(Containers(pod), o.urls, BaseURL(cfg), |o.urls|) + [Sidecar(cfg, pod, owner)]
      && Volumes(d) == Volumes(pod) + (if ConfigMapOf(pod) == "" then [] else [ConfigVolume(pod)])
      && Field(Field(d, "spec"), "containers").Arr?
      && (Field(Field(d, "spec"), "volumes").Arr? || Field(Field(d, "spec"), "volumes").Null?)
      && SameBut(d, pod, {"spec"}) && SameBut(Field(d, "spec"), Field(pod, "spec"), {"containers", "volumes"})
  {
  }

  lemma MetadataEffect(cfg: WebhookConfig, pod: Json, owner: Owner, o: Orders)
    requires IsPod(pod) && OrdersOk(o, cfg, pod)
    ensures
      var d, r := AfterContainers(cfg, pod, owner, o), Patched(cfg, pod, owner, o);
      && SameBut(r, d, {"metadata"}) && Field(r, "spec") == Field(d, "spec")
      && SameBut(Field(r, "metadata"), Field(pod, "metadata"), {"annotations"})
      && (cfg.scrape == map[] ==> Annotations(r) == Annotations(pod))
      && (cfg.scrape != map[] ==>
            var before := if Annotations(pod).Obj? then Annotations(pod).fields else map[];
            Annotations(r) == Obj(before + Strs(ScrapeValues(cfg), cfg.scrape.Keys)))
  {
    var d, key := AfterContainers(cfg, pod, owner, o), "annotations";
    assert d.Obj? && Field(d, "metadata") == Field(pod, "metadata");
    if cfg.scrape != map[] {
      var before := if Annotations(pod).Obj? then Annotations(pod).fields else map[];
      WithMetadataEffect(d, key, Obj(before + Strs(ScrapeValues(cfg), cfg.scrape.Keys)));
    }
  }

  lemma WithMetadataEffect(d: Json, key: string, v: Json)
    requires d.Obj? && Field(d, "metadata").Obj?
    ensures
      var r := WithMetadata(d, key, v);
      && SameBut(r, d, {"metadata"}) && Field(r, "spec") == Field(d, "spec")
      && SameBut(Field(r, "metadata"), Field(d, "metadata"), {key})
      && Field(Field(r, "metadata"), key) == v
  {
  }

  /** Every annotation afterwards: the scrape keys with their values, the others as before. */
  lemma AnnotationEffect(cfg: WebhookConfig, pod: Json, owner: Owner, o: Orders, key: string)
    requires IsPod(pod) && OrdersOk(o, cfg, pod)
    ensures Field(Annotations(Patched(cfg, pod, owner, o)), key) ==
            if key in cfg.scrape then Str(ScrapeValues(cfg)[key]) else Field(Annotations(pod), key)
  {
    MetadataEffect(cfg, pod, owner, o);
  }

  /** Effect on the pod: its containers in order, each injected, then the sidecar last; its volumes
  with the config volume appended if asked for; and every other field of the pod, its spec and
  (annotations aside) its metadata untouched. */
  lemma PatchEffect(cfg: WebhookConfig, pod: Json, owner: Owner, o: Orders)
    requires IsPod(pod) && OrdersOk(o, cfg, pod)
    ensures
      var r, cs := Patched(cfg, pod, owner, o), Containers(pod);
      && |Containers(r)| == |cs| + 1
      && (forall i :: 0 <= i < |cs| ==> Containers(r)[i] == Injected(cs[i], o.urls[i], BaseURL(cfg)))
      && Containers(r)[|cs|] == Sidecar(cfg, pod, owner)
      && Volumes(r) == Volumes(pod) + (if ConfigMapOf(pod) == "" then [] else [ConfigVolume(pod)])
      && SameBut(r, pod, {"spec", "metadata"})
      && SameBut(Field(r, "spec"), Field(pod, "spec"), {"containers", "volumes"})
      && SameBut(Field(r, "metadata"), Field(pod, "metadata"), {"annotations"})
  {
    SpecEffect(cfg, pod, owner, o);
    MetadataEffect(cfg, pod, owner, o);
    SameButBoth(Patched(cfg, pod, owner, o), AfterContainers(cfg, pod, owner, o), pod, "spec", "metadata");
  }

  lemma SameButBoth(r: Json, d: Json, j: Json, a: string, b: string)
    requires SameBut(d, j, {a}) && SameBut(r, d, {b})
    ensures SameBut(r, j, {a, b})
  {
    forall key | key != a && key != b
      ensures key in r.fields <==> key in j.fields
      ensures key in r.fields ==> r.fields[key] == j.fields[key]
    {
      assert key in r.fields - {b} <==> key in d.fields - {b};
      assert key in d.fields - {a} <==> key in j.fields - {a};
      if key in r.fields {
        assert (r.fields - {b})[key] == (d.fields - {b})[key];
        assert (d.fields - {a})[key] == (j.fields - {a})[key];
      }
    }
  }

  lemma SidecarDecodes(cfg: WebhookConfig, pod: Json, owner: Owner)
    ensures DecodesContainer(Sidecar(cfg, pod, owner)) && NameOf(Sidecar(cfg, pod, owner)) == SIDECAR
  {
    var c := Sidecar(cfg, pod, owner);
    assert Env(c) == SidecarEnv(cfg, pod, owner);
    SidecarEnvNamed(cfg, pod, owner);
  }

  lemma SidecarEnvNamed(cfg: WebhookConfig, pod: Json, owner: Owner)
    ensures forall k :: 0 <= k < |SidecarEnv(cfg, pod, owner)| ==> Named(SidecarEnv(cfg, pod, owner)[k])
  {
    IdentityEnvNamed(cfg, owner);
    AnnotatedEnvNamed(pod);
  }

  lemma IdentityEnvNamed(cfg: WebhookConfig, owner: Owner)
    ensures forall k :: 0 <= k < |IdentityEnv(cfg, owner)| ==> Named(IdentityEnv(cfg, owner)[k])
  {
  }

  lemma AnnotatedEnvNamed(pod: Json)
    ensures forall k :: 0 <= k < |AnnotatedEnv(pod)| ==> Named(AnnotatedEnv(pod)[k])
  {
  }

  lemma PatchedContainersDecode(cfg: WebhookConfig, pod: Json, owner: Owner, o: Orders)
    requires IsPod(pod) && OrdersOk(o, cfg, pod)
    ensures
      var cs := Containers(Patched(cfg, pod, owner, o));
      forall i :: 0 <= i < |cs| ==> DecodesContainer(cs[i])
  {
    var r := Patched(cfg, pod, owner, o);
    PatchEffect(cfg, pod, owner, o);
    forall i | 0 <= i < |Containers(r)| ensures DecodesContainer(Containers(r)[i]) {
      if i < |Containers(pod)| {
        ContainerEffect(Containers(pod)[i], o.urls[i], BaseURL(cfg));
      } else {
        SidecarDecodes(cfg, pod, owner);
      }
    }
  }

  lemma PatchedIsPod(cfg: WebhookConfig, pod: Json, owner: Owner, o: Orders)
    requires IsPod(pod) && OrdersOk(o, cfg, pod)
    ensures IsPod(Patched(cfg, pod, owner, o))
  {
    SpecEffect(cfg, pod, owner, o);
    MetadataEffect(cfg, pod, owner, o);
    PatchedContainersDecode(cfg, pod, owner, o);
    AnnotationsStillText(cfg, pod, owner, o);
  }

  /** The sidecar is the last container and the only one of its name. */
  lemma OneSidecar(cfg: WebhookConfig, pod: Json, owner: Owner, o: Orders)
    requires IsPod(pod) && OrdersOk(o, cfg, pod) && !HasSidecar(pod)
    ensures
      var cs := Containers(Patched(cfg, pod, owner, o));
      && |cs| == |Containers(pod)| + 1
      && forall k :: 0 <= k < |cs| ==> (NameOf(cs[k]) == SIDECAR <==> k == |Containers(pod)|)
  {
    PatchEffect(cfg, pod, owner, o);
    SidecarDecodes(cfg, pod, owner);
    var cs := Containers(Patched(cfg, pod, owner, o));
    forall k | 0 <= k < |Containers(pod)| ensures NameOf(cs[k]) == NameOf(Containers(pod)[k]) {
      ContainerEffect(Containers(pod)[k], o.urls[k], BaseURL(cfg));
    }
  }

  /** Injection is idempotent: a pod the patch was applied to still decodes, has its one sidecar
  last, and gets no patch, under any later configuration and iteration order. */
  lemma InjectionIdempotent(cfg: WebhookConfig, pod: Json, owner: Owner, o: Orders,
                            cfg': WebhookConfig, owner': Owner, o': Orders)
    requires IsPod(pod) && OrdersOk(o, cfg, pod) && Mutation(cfg, pod, owner, o).Some?
    requires OrdersOk(o', cfg', Patched(cfg, pod, owner, o))
    ensures
      var r := ApplyPatch(pod, Mutation(cfg, pod, owner, o).value);
      && r == Some(Patched(cfg, pod, owner, o)) && IsPod(r.value) && HasSidecar(r.value)
      && Mutation(cfg', r.value, owner', o') == None
  {
    PatchApplies(cfg, pod, owner, o);
    PatchedIsPod(cfg, pod, owner, o);
    OneSidecar(cfg, pod, owner, o);
    var r := Patched(cfg, pod, owner, o);
    assert NameOf(Containers(r)[|Containers(pod)|]) == SIDECAR;
  }

  lemma AnnotationsStillText(cfg: WebhookConfig, pod: Json, owner: Owner, o: Orders)
    requires IsPod(pod) && OrdersOk(o, cfg, pod)
    ensures
      var a := Annotations(Patched(cfg, pod, owner, o));
      (a.Obj? || a.Null?) && (a.Obj? ==> forall key :: key in a.fields ==> MaybeText(a.fields[key]))
  {
    MetadataEffect(cfg, pod, owner, o);
  }
}
