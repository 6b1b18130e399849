/** What the patched pod says, in the literal names and values of the running system. */
module PodRules {
  import opened Options
  import opened JsonPatch
  import opened Inject
  import opened InjectEffect

  /** The entry sets this variable to this value. */
  predicate IsVar(v: Json, name: string, value: string) {
    Field(v, "name") == Str(name) && Field(v, "value") == Str(value)
  }

  ghost predicate SetsTo(env: seq<Json>, name: string, value: string) {
    exists k :: 0 <= k < |env| && IsVar(env[k], name, value)
  }

  /** The pod is annotated with this text. */
  predicate Annotated(pod: Json, key: string, value: string) {
    Field(Annotations(pod), key) == Str(value)
  }

  /** The pod after its patch. */
  function After(cfg: WebhookConfig, pod: Json, owner: Owner, o: Orders): Option<Json>
    requires OrdersOk(o, cfg, pod)
  {
    ApplyPatch(pod, Written(Patches(cfg, pod, owner, o)))
  }

  function Last(pod: Json): Json
    requires Containers(pod) != []
  {
    Containers(pod)[|Containers(pod)| - 1]
  }

  lemma EnvVarIs(name: string, value: string)
    ensures IsVar(EnvVar(name, value), name, value)
  {
  }

  lemma AfterIs(cfg: WebhookConfig, pod: Json, owner: Owner, o: Orders)
    requires IsPod(pod) && OrdersOk(o, cfg, pod)
    ensures
      var r := After(cfg, pod, owner, o);
      && r == Some(Patched(cfg, pod, owner, o)) && |Containers(r.value)| == |Containers(pod)| + 1
      && Last(r.value) == Sidecar(cfg, pod, owner) && Env(Last(r.value)) == IdentityEnv(cfg, owner) + AnnotatedEnv(pod)
  {
    PatchApplies(cfg, pod, owner, o);
    PatchEffect(cfg, pod, owner, o);
  }

  // ---- One port ----

  /** Every variable a container gained is one of the two base URLs, at this port. */
  ghost predicate GainedAt(before: seq<Json>, after: seq<Json>, d: string) {
    forall k :: |before| <= k < |after| ==>
      || IsVar(after[k], "OPENAI_BASE_URL", "http://localhost:" + d)
      || IsVar(after[k], "ANTHROPIC_BASE_URL", "http://localhost:" + d)
  }

  lemma ContainerGainedAt(cfg: WebhookConfig, c: Json, order: seq<string>)
    requires DecodesContainer(c) && UrlOrder(order)
    ensures GainedAt(Env(c), Env(Injected(c, order, BaseURL(cfg))), Dec(cfg.port))
  {
    ContainerEffect(c, order, BaseURL(cfg));
    var all, names := Env(Injected(c, order, BaseURL(cfg))), Missing(Env(c), order);
    forall k | |Env(c)| <= k < |all|
      ensures IsVar(all[k], OPENAI_URL, BaseURL(cfg)) || IsVar(all[k], ANTHROPIC_URL, BaseURL(cfg))
    {
      assert NewVar(all[k], Env(c), names, BaseURL(cfg));
      EnvVarIs(NameOf(all[k]), BaseURL(cfg));
    }
  }

  /** A port has one decimal text. */
  lemma {:induction false} OneText(d: string, n: nat)
    requires ParseIndex(d) == Some(n)
    ensures d == Dec(n)
  {
    if |d| == 1 {
      DigitOf(d[0]);
    } else {
      var high := ParseIndex(d[..|d| - 1]).value;
      OneText(d[..|d| - 1], high);
      DigitOf(d[|d| - 1]);
      assert d == d[..|d| - 1] + [d[|d| - 1]];
      assert n / 10 == high && n % 10 == DigitValue(d[|d| - 1]);
    }
  }

  lemma DigitOf(c: char)
    requires IsDigit(c)
    ensures DigitValue(c) < 10 && Digit(DigitValue(c)) == c
  {
  }

  /** One port throughout. First, every base URL an application container gained. */
  lemma GainedUrlsAtPort(cfg: WebhookConfig, pod: Json, owner: Owner, o: Orders, i: nat, d: string)
    requires IsPod(pod) && OrdersOk(o, cfg, pod) && i < |Containers(pod)| && ParseIndex(d) == Some(cfg.port)
    ensures
      var r := After(cfg, pod, owner, o);
      && r.Some? && i < |Containers(r.value)|
      && GainedAt(Env(Containers(pod)[i]), Env(Containers(r.value)[i]), d)
  {
    OneText(d, cfg.port);
    AfterIs(cfg, pod, owner, o);
    PatchEffect(cfg, pod, owner, o);
    ContainerGainedAt(cfg, Containers(pod)[i], o.urls[i]);
  }

  /** Afterwards every application container sets both base URLs, whoever set them. */
  lemma BothUrlsSet(cfg: WebhookConfig, pod: Json, owner: Owner, o: Orders, i: nat)
    requires IsPod(pod) && OrdersOk(o, cfg, pod) && i < |Containers(pod)|
    ensures
      var r := After(cfg, pod, owner, o);
      && r.Some? && i < |Containers(r.value)|
      && var env := Env(Containers(r.value)[i]);
         && (exists k :: 0 <= k < |env| && Field(env[k], "name") == Str("OPENAI_BASE_URL"))
         && (exists k :: 0 <= k < |env| && Field(env[k], "name") == Str("ANTHROPIC_BASE_URL"))
  {
    AfterIs(cfg, pod, owner, o);
    PatchEffect(cfg, pod, owner, o);
    ContainerEffect(Containers(pod)[i], o.urls[i], BaseURL(cfg));
    var env := Env(Containers(Patched(cfg, pod, owner, o))[i]);
    NamedInJson(env, OPENAI_URL);
    NamedInJson(env, ANTHROPIC_URL);
  }

  lemma NamedInJson(env: seq<Json>, name: string)
    requires HasEnvVar(env, name) && name != ""
    ensures exists k :: 0 <= k < |env| && Field(env[k], "name") == Str(name)
  {
    var k :| 0 <= k < |env| && NameOf(env[k]) == name;
    assert Field(env[k], "name") == Str(name);
  }

  // ---- What the sidecar is told ----

  lemma VarExactly(name: string, value: string, n: string, v: string)
    ensures IsVar(EnvVar(name, value), n, v) <==> n == name && v == value
  {
    EnvVarIs(name, value);
  }

  lemma OneIfSets(wanted: bool, name: string, value: string, n: string, v: string)
    ensures SetsTo(OneIf(wanted, name, value), n, v) <==> wanted && n == name && v == value
  {
    VarExactly(name, value, n, v);
    if wanted {
      assert OneIf(wanted, name, value)[0] == EnvVar(name, value);
    }
  }

  lemma SetAmong(a: seq<Json>, b: seq<Json>, n: string, v: string)
    ensures SetsTo(a + b, n, v) <==> SetsTo(a, n, v) || SetsTo(b, n, v)
  {
    if SetsTo(a, n, v) {
      var k :| 0 <= k < |a| && IsVar(a[k], n, v);
      assert IsVar((a + b)[k], n, v);
    }
    if SetsTo(b, n, v) {
      var k :| 0 <= k < |b| && IsVar(b[k], n, v);
      assert IsVar((a + b)[|a| + k], n, v);
    }
    if SetsTo(a + b, n, v) {
      var k :| 0 <= k < |a + b| && IsVar((a + b)[k], n, v);
      assert if k < |a| then IsVar(a[k], n, v) else IsVar(b[k - |a|], n, v);
    }
  }

  /** The five variables every sidecar gets. */
  predicate Identifies(owner: Owner, d: string, n: string, v: string) {
    || (n == "KOSHI_LISTEN_ADDR" && v == ":" + d)
    || (n == "KOSHI_POD_NAMESPACE" && v == owner.namespace)
    || (n == "KOSHI_WORKLOAD_KIND" && v == owner.kind)
    || (n == "KOSHI_WORKLOAD_NAME" && v == owner.name)
    || (n == "KOSHI_POD_NAME" && v == owner.podName)
  }

  /** The three an annotation can ask for. */
  predicate Requests(pod: Json, n: string, v: string) {
    || (n == "KOSHI_MODE" && v == "enforcement" && Annotated(pod, "runtime.getkoshi.ai/mode", "enforcement"))
    || (n == "KOSHI_POLICY_OVERRIDE" && v != "" && Annotated(pod, "runtime.getkoshi.ai/policy", v))
    || (n == "KOSHI_CONFIG_PATH" && v == "/etc/koshi-sidecar/config.yaml" && NamesConfigMap(pod))
  }

  predicate NamesConfigMap(pod: Json) {
    var name := Field(Annotations(pod), "runtime.getkoshi.ai/configmap");
    name.Str? && name.s != ""
  }

  lemma FiveSet(a: Json, b: Json, c: Json, d: Json, e: Json, n: string, v: string)
    ensures SetsTo([a, b, c, d, e], n, v) <==>
              IsVar(a, n, v) || IsVar(b, n, v) || IsVar(c, n, v) || IsVar(d, n, v) || IsVar(e, n, v)
  {
    var all := [a, b, c, d, e];
    assert all[0] == a && all[1] == b && all[2] == c && all[3] == d && all[4] == e;
  }

  lemma IdentityExactly(cfg: WebhookConfig, owner: Owner, n: string, v: string)
    ensures SetsTo(IdentityEnv(cfg, owner), n, v) <==> Identifies(owner, Dec(cfg.port), n, v)
  {
    FiveSet(EnvVar("KOSHI_LISTEN_ADDR", ":" + Dec(cfg.port)), EnvVar("KOSHI_POD_NAMESPACE", owner.namespace),
            EnvVar("KOSHI_WORKLOAD_KIND", owner.kind), EnvVar("KOSHI_WORKLOAD_NAME", owner.name),
            EnvVar("KOSHI_POD_NAME", owner.podName), n, v);
    VarExactly("KOSHI_LISTEN_ADDR", ":" + Dec(cfg.port), n, v);
    VarExactly("KOSHI_POD_NAMESPACE", owner.namespace, n, v);
    VarExactly("KOSHI_WORKLOAD_KIND", owner.kind, n, v);
    VarExactly("KOSHI_WORKLOAD_NAME", owner.name, n, v);
    VarExactly("KOSHI_POD_NAME", owner.podName, n, v);
  }

  lemma AnnotatedExactly(pod: Json, n: string, v: string)
    ensures SetsTo(AnnotatedEnv(pod), n, v) <==> Requests(pod, n, v)
  {
    SetAmong(ModeEnv(pod) + PolicyEnv(pod), ConfigEnv(pod), n, v);
    SetAmong(ModeEnv(pod), PolicyEnv(pod), n, v);
    OneIfSets(Annotation(pod, "runtime.getkoshi.ai/mode") == "enforcement", "KOSHI_MODE", "enforcement", n, v);
    OneIfSets(Annotation(pod, "runtime.getkoshi.ai/policy") != "", "KOSHI_POLICY_OVERRIDE",
              Annotation(pod, "runtime.getkoshi.ai/policy"), n, v);
    OneIfSets(ConfigMapOf(pod) != "", "KOSHI_CONFIG_PATH", "/etc/koshi-sidecar/config.yaml", n, v);
  }

  /** Second, the address the sidecar listens on; and with it everything the sidecar is told: its
  port, whom it stands for, and what the pod's annotations ask for, exactly. */
  lemma SidecarEnvExactly(cfg: WebhookConfig, pod: Json, owner: Owner, o: Orders, d: string, n: string, v: string)
    requires IsPod(pod) && OrdersOk(o, cfg, pod) && ParseIndex(d) == Some(cfg.port)
    ensures
      var r := After(cfg, pod, owner, o);
      && r.Some? && Containers(r.value) != []
      && (SetsTo(Env(Last(r.value)), n, v) <==> Identifies(owner, d, n, v) || Requests(pod, n, v))
  {
    OneText(d, cfg.port);
    AfterIs(cfg, pod, owner, o);
    SetAmong(IdentityEnv(cfg, owner), AnnotatedEnv(pod), n, v);
    IdentityExactly(cfg, owner, n, v);
    AnnotatedExactly(pod, n, v);
  }

  /** The sidecar goes by its own name; a ConfigMap that is asked for is mounted into it and added to
  the pod's volumes, and nothing is when none is. */
  lemma ConfigMounted(cfg: WebhookConfig, pod: Json, owner: Owner, o: Orders)
    requires IsPod(pod) && OrdersOk(o, cfg, pod)
    ensures
      var r := After(cfg, pod, owner, o);
      && r.Some? && Containers(r.value) != [] && Field(Last(r.value), "name") == Str("koshi-listener")
      && (!NamesConfigMap(pod) ==> Volumes(r.value) == Volumes(pod))
      && (NamesConfigMap(pod) ==>
            && |Volumes(r.value)| == |Volumes(pod)| + 1 && Volumes(pod) <= Volumes(r.value)
            && IsConfigVolume(Volumes(r.value)[|Volumes(pod)|], Field(Annotations(pod), "runtime.getkoshi.ai/configmap"))
            && IsConfigMount(Field(Last(r.value), "volumeMounts")))
  {
    AfterIs(cfg, pod, owner, o);
    PatchEffect(cfg, pod, owner, o);
    SidecarMounts(cfg, pod, owner);
    if NamesConfigMap(pod) {
      ConfigVolumeIs(pod);
    }
  }

  predicate IsConfigVolume(v: Json, name: Json) {
    Field(v, "name") == Str("koshi-sidecar-config") && Field(Field(v, "configMap"), "name") == name
  }

  predicate IsConfigMount(m: Json) {
    && m.Arr? && |m.items| == 1
    && Field(m.items[0], "name") == Str("koshi-sidecar-config") && Field(m.items[0], "mountPath") == Str("/etc/koshi-sidecar")
    && Field(m.items[0], "readOnly") == Bool(true)
  }

  lemma ConfigVolumeIs(pod: Json)
    requires NamesConfigMap(pod)
    ensures IsConfigVolume(ConfigVolume(pod), Field(Annotations(pod), "runtime.getkoshi.ai/configmap"))
  {
  }

  /** Whatever else the webhook configuration gives the sidecar, it gets. */
  lemma SidecarKeepsBase(cfg: WebhookConfig, pod: Json, owner: Owner, o: Orders, key: string)
    requires IsPod(pod) && OrdersOk(o, cfg, pod) && key in cfg.sidecarBase
    requires key != "name" && key != "env" && key != "volumeMounts"
    ensures
      var r := After(cfg, pod, owner, o);
      r.Some? && Containers(r.value) != [] && Field(Last(r.value), key) == cfg.sidecarBase[key]
  {
    AfterIs(cfg, pod, owner, o);
  }

  lemma SidecarMounts(cfg: WebhookConfig, pod: Json, owner: Owner)
    ensures Field(Sidecar(cfg, pod, owner), "name") == Str("koshi-listener")
    ensures NamesConfigMap(pod) ==> IsConfigMount(Field(Sidecar(cfg, pod, owner), "volumeMounts"))
  {
  }

  // ---- When there is no patch ----

  /** A pod gets no patch exactly when it does not decode, is annotated out, or has a container of the
  sidecar's name. */
  lemma NoPatchExactly(cfg: WebhookConfig, pod: Json, owner: Owner, o: Orders)
    requires OrdersOk(o, cfg, pod)
    ensures Mutation(cfg, pod, owner, o) == None <==>
              || !Decodes(pod)
              || Annotated(pod, "runtime.getkoshi.ai/inject", "false")
              || exists k :: 0 <= k < |Containers(pod)| && Field(Containers(pod)[k], "name") == Str("koshi-listener")
  {
    if HasSidecar(pod) {
      NamedInJson(Containers(pod), SIDECAR);
    }
    if exists k :: 0 <= k < |Containers(pod)| && Field(Containers(pod)[k], "name") == Str("koshi-listener") {
      var k :| 0 <= k < |Containers(pod)| && Field(Containers(pod)[k], "name") == Str("koshi-listener");
      assert NameOf(Containers(pod)[k]) == SIDECAR;
    }
  }

  /** Third, the port Prometheus is told, with the rest of the scrape annotations: the trio as the
  sidecar serves it, any other as configured. */
  lemma ScrapeAnnotated(cfg: WebhookConfig, pod: Json, owner: Owner, o: Orders, key: string, d: string)
    requires IsPod(pod) && OrdersOk(o, cfg, pod) && key in cfg.scrape && ParseIndex(d) == Some(cfg.port)
    ensures
      var r := After(cfg, pod, owner, o);
      && r.Some?
      && Annotated(r.value, key, if key == "prometheus.io/scrape" then "true"
                                 else if key == "prometheus.io/path" then "/metrics"
                                 else if key == "prometheus.io/port" then d
                                 else cfg.scrape[key])
  {
    OneText(d, cfg.port);
    AfterIs(cfg, pod, owner, o);
    AnnotationEffect(cfg, pod, owner, o, key);
  }
}
