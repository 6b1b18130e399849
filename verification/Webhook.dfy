/** internal/inject/webhook.go: the loops that build the patch text. */
module Webhook {
  import opened Options
  import opened JsonPatch
  import opened Inject

  method FindEnvVar(envs: seq<Json>, name: string) returns (found: bool)
    ensures found <==> HasEnvVar(envs, name)
  {
    for k := 0 to |envs|
      invariant forall j :: 0 <= j < k ==> NameOf(envs[j]) != name
    {
      if NameOf(envs[k]) == name {
        return true;
      }
    }
    return false;
  }

  /** One operation more, in both forms. */
  lemma WrittenMore(ops: seq<Op>, op: Op)
    ensures Written(ops + [op]) == Written(ops) + [JSONPatchOp(Render(op.path), op.value)]
  {
    assert (ops + [op])[..|ops|] == ops;
  }

  /** The inner loop over the two base URLs, for the container whose environment is at `path`. */
  method ContainerPatches(path: seq<string>, env: seq<Json>, order: seq<string>, url: string)
    returns (patches: seq<JSONPatchOp>)
    ensures patches == Written(EnvOps(path, env, order, url))
  {
    patches := [];
    var needsEnvInit := |env| == 0;
    for k := 0 to |order|
      invariant patches == Written(EnvOps(path, env, order[..k], url))
      invariant needsEnvInit == (env == [] && Missing(env, order[..k]) == [])
    {
      ghost var before := EnvOps(path, env, order[..k], url);
      EnvOpsMore(path, env, order, k, url);
      var found := FindEnvVar(env, order[k]);
      if !found {
        if needsEnvInit {
          WrittenMore(before, Op(path, Arr([])));
          before := before + [Op(path, Arr([]))];
          patches := patches + [JSONPatchOp(Render(path), Arr([]))];
          needsEnvInit := false;
        }
        WrittenMore(before, Op(path + ["-"], EnvVar(order[k], url)));
        patches := patches + [JSONPatchOp(Render(path + ["-"]), EnvVar(order[k], url))];
      }
    }
    assert order[..|order|] == order;
  }

  /** What considering one more variable adds to a container's operations. */
  lemma EnvOpsMore(path: seq<string>, env: seq<Json>, order: seq<string>, k: nat, url: string)
    requires k < |order|
    ensures
      var before, names := EnvOps(path, env, order[..k], url), Missing(env, order[..k]);
      if HasEnvVar(env, order[k]) then
        EnvOps(path, env, order[..k + 1], url) == before && Missing(env, order[..k + 1]) == names
      else
        && Missing(env, order[..k + 1]) == names + [order[k]]
        && EnvOps(path, env, order[..k + 1], url) ==
           (if env == [] && names == [] then before + [Op(path, Arr([]))] else before) +
           [Op(path + ["-"], EnvVar(order[k], url))]
  {
    assert order[..k + 1][..k] == order[..k];
    var names := Missing(env, order[..k]);
    if HasEnvVar(env, order[k]) {
      assert Missing(env, order[..k + 1]) == names;
    } else {
      var vars := Vars(names, url);
      assert (names + [order[k]])[..|names|] == names;
      assert Vars(names + [order[k]], url) == vars + [EnvVar(order[k], url)];
      assert (vars + [EnvVar(order[k], url)])[..|vars|] == vars;
    }
  }

  method EnvPatches(base: seq<string>, cs: seq<Json>, orders: seq<seq<string>>, url: string)
    returns (patches: seq<JSONPatchOp>)
    requires |cs| == |orders|
    ensures patches == Written(AllEnvOps(base, cs, orders, url, |orders|))
  {
    patches := [];
    ghost var done := [];
    for i := 0 to |cs|
      invariant done == AllEnvOps(base, cs, orders, url, i)
      invariant patches == Written(done)
    {
      var path, env := EnvPath(base, i), Env(cs[i]);
      var ops := ContainerPatches(path, env, orders[i], url);
      ghost var next := EnvOps(path, env, orders[i], url);
      WrittenAppend(done, next);
      done := done + next;
      patches := patches + ops;
    }
  }

  method ScrapeText(configured: string, key: string, port: string) returns (val: string)
    ensures val == ScrapeValue(configured, key, port)
  {
    val := configured;
    if key == "prometheus.io/port" {
      val := port;
    }
    if key == "prometheus.io/path" {
      val := "/metrics";
    }
    if key == "prometheus.io/scrape" {
      val := "true";
    }
  }

  method ScrapePatches(cfg: WebhookConfig, path: seq<string>, order: seq<string>) returns (patches: seq<JSONPatchOp>)
    requires forall k :: 0 <= k < |order| ==> order[k] in cfg.scrape
    ensures patches == Written(Sets(path, ScrapeValues(cfg), order))
  {
    patches := [];
    ghost var values := ScrapeValues(cfg);
    for k := 0 to |order|
      invariant patches == Written(Sets(path, values, order[..k]))
    {
      var val := ScrapeText(cfg.scrape[order[k]], order[k], Dec(cfg.port));
      var escaped := EscapeJSONPointer(order[k]);
      RenderMore(path, order[k]);
      patches := patches + [JSONPatchOp(Render(path) + "/" + escaped, Str(val))];
      assert order[..k + 1][..k] == order[..k];
      WrittenMore(Sets(path, values, order[..k]), Op(path + [order[k]], Str(val)));
    }
    assert order[..|order|] == order;
  }

  method VolumePatches(pod: Json) returns (patches: seq<JSONPatchOp>)
    ensures patches == Written(VolumeOps(pod))
  {
    patches := [];
    if ConfigMapOf(pod) != "" {
      var path := VolumesPath();
      ghost var ops := [];
      if |Volumes(pod)| == 0 {
        WrittenMore(ops, Op(path, Arr([])));
        ops := ops + [Op(path, Arr([]))];
        patches := patches + [JSONPatchOp(Render(path), Arr([]))];
      }
      WrittenMore(ops, Op(path + ["-"], ConfigVolume(pod)));
      patches := patches + [JSONPatchOp(Render(path + ["-"]), ConfigVolume(pod))];
    }
  }

  method AnnotationPatches(cfg: WebhookConfig, pod: Json, order: seq<string>) returns (patches: seq<JSONPatchOp>)
    requires forall k :: 0 <= k < |order| ==> order[k] in cfg.scrape
    ensures patches == Written(ScrapeOps(cfg, pod, order))
  {
    patches := [];
    if |cfg.scrape| > 0 {
      var path := AnnotationsPath();
      ghost var ops := [];
      if !Annotations(pod).Obj? {
        WrittenMore(ops, Op(path, Obj(map[])));
        ops := ops + [Op(path, Obj(map[]))];
        patches := patches + [JSONPatchOp(Render(path), Obj(map[]))];
      }
      var adds := ScrapePatches(cfg, path, order);
      WrittenAppend(ops, Sets(path, ScrapeValues(cfg), order));
      patches := patches + adds;
    }
  }

  method BuildPatches(cfg: WebhookConfig, pod: Json, owner: Owner, o: Orders) returns (patches: seq<JSONPatchOp>)
    requires OrdersOk(o, cfg, pod)
    ensures patches == Written(Patches(cfg, pod, owner, o))
  {
    var base := ContainersPath();
    ghost var envOps := AllEnvOps(base, Containers(pod), o.urls, BaseURL(cfg), |o.urls|);
    ghost var sidecar := Op(base + ["-"], Sidecar(cfg, pod, owner));
    patches := VolumePatches(pod);
    WrittenMore(VolumeOps(pod), sidecar);
    patches := patches + [JSONPatchOp(Render(base + ["-"]), Sidecar(cfg, pod, owner))];
    var more := EnvPatches(base, Containers(pod), o.urls, BaseURL(cfg));
    WrittenAppend(VolumeOps(pod) + [sidecar], envOps);
    patches := patches + more;
    more := AnnotationPatches(cfg, pod, o.scrape);
    WrittenAppend(VolumeOps(pod) + [sidecar] + envOps, ScrapeOps(cfg, pod, o.scrape));
    patches := patches + more;
  }

  /** An admission review as it arrives: not JSON, without a request, or a request for a pod. */
  datatype Review = Unreadable | NoRequest | Admission(uid: string, pod: Json)

  datatype Answer = BadReview | EmptyReview | Allowed(uid: string, patch: Option<seq<JSONPatchOp>>)

  /** The admission answer: an error only without a request; otherwise the pod is allowed under the
  request's own UID, with the patch it is due. */
  method HandleMutate(cfg: WebhookConfig, review: Review, owner: Owner, o: Orders) returns (answer: Answer)
    requires review.Admission? ==> OrdersOk(o, cfg, review.pod)
    ensures answer.BadReview? <==> review.Unreadable?
    ensures answer.EmptyReview? <==> review.NoRequest?
    ensures review.Admission? ==> answer == Allowed(review.uid, Mutation(cfg, review.pod, owner, o))
  {
    if review.Unreadable? {
      return BadReview;
    }
    if review.NoRequest? {
      return EmptyReview;
    }
    var patch := Mutate(cfg, review.pod, owner, o);
    return Allowed(review.uid, patch);
  }

  /** The patch, or None when the pod is let through as it is. */
  method Mutate(cfg: WebhookConfig, pod: Json, owner: Owner, o: Orders) returns (patches: Option<seq<JSONPatchOp>>)
    requires OrdersOk(o, cfg, pod)
    ensures patches == Mutation(cfg, pod, owner, o)
  {
    if !Decodes(pod) || OptedOut(pod) {
      return None;
    }
    var cs := Containers(pod);
    for k := 0 to |cs|
      invariant forall j :: 0 <= j < k ==> NameOf(cs[j]) != SIDECAR
    {
      if NameOf(cs[k]) == SIDECAR {
        return None;
      }
    }
    var ops := BuildPatches(cfg, pod, owner, o);
    return Some(ops);
  }
}
