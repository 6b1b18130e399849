/** internal/inject/webhook.go: the patch that puts the sidecar into a pod. */
module Inject {
  import opened Options
  import opened JsonPatch

  /** `sidecarBase` holds the sidecar fields taken from the webhook configuration as they are
  (image, pull policy, resources, ports). */
  datatype WebhookConfig = WebhookConfig(port: nat, scrape: map<string, string>, sidecarBase: map<string, Json>)

  /** The normalized workload identity of the pod. */
  datatype Owner = Owner(namespace: string, kind: string, name: string, podName: string)

  const SIDECAR := "koshi-listener"
  const OPENAI_URL := "OPENAI_BASE_URL"
  const ANTHROPIC_URL := "ANTHROPIC_BASE_URL"

  // ---- Reading a pod ----

  function Field(j: Json, key: string): Json {
    if j.Obj? && key in j.fields then j.fields[key] else Null
  }

  function Items(j: Json): seq<Json> {
    if j.Arr? then j.items else []
  }

  function Containers(pod: Json): seq<Json> {
    Items(Field(Field(pod, "spec"), "containers"))
  }

  function Volumes(pod: Json): seq<Json> {
    Items(Field(Field(pod, "spec"), "volumes"))
  }

  function Annotations(pod: Json): Json {
    Field(Field(pod, "metadata"), "annotations")
  }

  /** The value of an annotation, "" when it is not set. */
  function Annotation(pod: Json, key: string): string {
    var v := Field(Annotations(pod), key);
    if v.Str? then v.s else ""
  }

  function NameOf(j: Json): string {
    if Field(j, "name").Str? then Field(j, "name").s else ""
  }

  function Env(c: Json): seq<Json> {
    Items(Field(c, "env"))
  }

  predicate HasEnvVar(envs: seq<Json>, name: string) {
    exists k :: 0 <= k < |envs| && NameOf(envs[k]) == name
  }

  /** The document decodes as a pod: where a field the injector reads is present, it has its type. */
  predicate Decodes(pod: Json) {
    && pod.Obj?
    && (Field(pod, "metadata").Obj? || Field(pod, "metadata").Null?)
    && (Field(pod, "spec").Obj? || Field(pod, "spec").Null?)
    && (Annotations(pod).Obj? || Annotations(pod).Null?)
    && (Annotations(pod).Obj? ==> forall key :: key in Annotations(pod).fields ==> MaybeText(Annotations(pod).fields[key]))
    && (var cs := Field(Field(pod, "spec"), "containers"); cs.Arr? || cs.Null?)
    && (var vs := Field(Field(pod, "spec"), "volumes"); vs.Arr? || vs.Null?)
    && (forall k :: 0 <= k < |Volumes(pod)| ==> Named(Volumes(pod)[k]))
    && forall k :: 0 <= k < |Containers(pod)| ==> DecodesContainer(Containers(pod)[k])
  }

  predicate DecodesContainer(c: Json) {
    && Named(c)
    && (Field(c, "env").Arr? || Field(c, "env").Null?)
    && forall k :: 0 <= k < |Env(c)| ==> Named(Env(c)[k])
  }

  /** Text, or null, which decodes as the empty text. */
  predicate MaybeText(j: Json) {
    j.Str? || j.Null?
  }

  /** An entry of a list whose members have names: a container, a variable, a volume. */
  predicate Named(j: Json) {
    j.Obj? && MaybeText(Field(j, "name"))
  }

  /** What the API server sends: a pod with metadata and a list of containers. */
  predicate IsPod(pod: Json) {
    Decodes(pod) && Field(pod, "metadata").Obj? && Field(Field(pod, "spec"), "containers").Arr?
  }

  predicate HasSidecar(pod: Json) {
    exists k :: 0 <= k < |Containers(pod)| && NameOf(Containers(pod)[k]) == SIDECAR
  }

  predicate OptedOut(pod: Json) {
    Annotation(pod, "runtime.getkoshi.ai/inject") == "false"
  }

  // ---- What is put in ----

  function EnvVar(name: string, value: string): Json {
    Obj(map["name" := Str(name), "value" := Str(value)])
  }

  function SidecarEnv(cfg: WebhookConfig, pod: Json, owner: Owner): seq<Json> {
    IdentityEnv(cfg, owner) + AnnotatedEnv(pod)
  }

  function IdentityEnv(cfg: WebhookConfig, owner: Owner): seq<Json> {
    [EnvVar("KOSHI_LISTEN_ADDR", ":" + Dec(cfg.port)),
     EnvVar("KOSHI_POD_NAMESPACE", owner.namespace),
     EnvVar("KOSHI_WORKLOAD_KIND", owner.kind),
     EnvVar("KOSHI_WORKLOAD_NAME", owner.name),
     EnvVar("KOSHI_POD_NAME", owner.podName)]
  }

  /** The variables a pod's annotations ask for. */
  function AnnotatedEnv(pod: Json): seq<Json> {
    ModeEnv(pod) + PolicyEnv(pod) + ConfigEnv(pod)
  }

  function OneIf(wanted: bool, name: string, value: string): seq<Json> {
    if wanted then [EnvVar(name, value)] else []
  }

  function ModeEnv(pod: Json): seq<Json> {
    OneIf(Annotation(pod, "runtime.getkoshi.ai/mode") == "enforcement", "KOSHI_MODE", "enforcement")
  }

  function PolicyEnv(pod: Json): seq<Json> {
    var policy := Annotation(pod, "runtime.getkoshi.ai/policy");
    OneIf(policy != "", "KOSHI_POLICY_OVERRIDE", policy)
  }

  function ConfigEnv(pod: Json): seq<Json> {
    OneIf(ConfigMapOf(pod) != "", "KOSHI_CONFIG_PATH", "/etc/koshi-sidecar/config.yaml")
  }

  function ConfigMapOf(pod: Json): string {
    Annotation(pod, "runtime.getkoshi.ai/configmap")
  }

  function ConfigMount(): Json {
    Arr([Obj(map["name" := Str("koshi-sidecar-config"), "mountPath" := Str("/etc/koshi-sidecar"), "readOnly" := Bool(true)])])
  }

  function ConfigVolume(pod: Json): Json {
    Obj(map["name" := Str("koshi-sidecar-config"), "configMap" := Obj(map["name" := Str(ConfigMapOf(pod))])])
  }

  function Sidecar(cfg: WebhookConfig, pod: Json, owner: Owner): Json {
    var common := cfg.sidecarBase["name" := Str(SIDECAR)]["env" := Arr(SidecarEnv(cfg, pod, owner))];
    Obj(if ConfigMapOf(pod) != "" then common["volumeMounts" := ConfigMount()] else common)
  }

  function BaseURL(cfg: WebhookConfig): string {
    "http://localhost:" + Dec(cfg.port)
  }

  /** A Go map of the two base URLs, in either iteration order. */
  predicate UrlOrder(order: seq<string>) {
    order == [OPENAI_URL, ANTHROPIC_URL] || order == [ANTHROPIC_URL, OPENAI_URL]
  }

  /** Every key of the scrape annotations once, in any order. */
  predicate ScrapeOrder(order: seq<string>, scrape: map<string, string>) {
    && (forall i, j :: 0 <= i < j < |order| ==> order[i] != order[j])
    && (forall i :: 0 <= i < |order| ==> order[i] in scrape)
    && (forall key :: key in scrape ==> key in order)
  }

  /** The iteration orders of one call: one per container, and one for the scrape annotations. */
  datatype Orders = Orders(urls: seq<seq<string>>, scrape: seq<string>)

  predicate OrdersOk(o: Orders, cfg: WebhookConfig, pod: Json) {
    && |o.urls| == |Containers(pod)|
    && (forall i :: 0 <= i < |o.urls| ==> UrlOrder(o.urls[i]))
    && ScrapeOrder(o.scrape, cfg.scrape)
  }

  /** The annotation values to set: the configured ones, with the Prometheus trio overridden. */
  function ScrapeValues(cfg: WebhookConfig): map<string, string> {
    map key | key in cfg.scrape :: ScrapeValue(cfg.scrape[key], key, Dec(cfg.port))
  }

  function ScrapeValue(configured: string, key: string, port: string): string {
    if key == "prometheus.io/scrape" then "true"
    else if key == "prometheus.io/path" then "/metrics"
    else if key == "prometheus.io/port" then port
    else configured
  }

  // ---- The operations ----

  function VolumesPath(): seq<string> {
    ["spec", "volumes"]
  }

  function VolumeOps(pod: Json): seq<Op> {
    if ConfigMapOf(pod) == "" then []
    else (if Volumes(pod) == [] then [Op(VolumesPath(), Arr([]))] else []) +
         [Op(VolumesPath() + ["-"], ConfigVolume(pod))]
  }

  function ContainersPath(): seq<string> {
    ["spec", "containers"]
  }

  /** Where container i keeps its environment, below the container list. */
  function EnvPath(base: seq<string>, i: nat): seq<string> {
    base + [Dec(i), "env"]
  }

  /** The names of `order` not set in this environment yet. */
  function Missing(env: seq<Json>, order: seq<string>): seq<string> {
    if order == [] then []
    else
      var last := order[|order| - 1];
      Missing(env, order[..|order| - 1]) + if HasEnvVar(env, last) then [] else [last]
  }

  function Vars(names: seq<string>, url: string): seq<Json> {
    if names == [] then [] else Vars(names[..|names| - 1], url) + [EnvVar(names[|names| - 1], url)]
  }

  /** Append each value to the array at `path`. */
  function Appends(path: seq<string>, values: seq<Json>): seq<Op> {
    if values == [] then [] else Appends(path, values[..|values| - 1]) + [Op(path + ["-"], values[|values| - 1])]
  }

  /** Create the environment if there is none and something is missing, then append that. */
  function EnvOps(path: seq<string>, env: seq<Json>, order: seq<string>, url: string): seq<Op> {
    var names := Missing(env, order);
    (if env == [] && names != [] then [Op(path, Arr([]))] else []) + Appends(path, Vars(names, url))
  }

  /** The same for the first n containers of the list at `base`. */
  function AllEnvOps(base: seq<string>, cs: seq<Json>, orders: seq<seq<string>>, url: string, n: nat): seq<Op>
    requires n <= |cs| == |orders|
  {
    if n == 0 then []
    else AllEnvOps(base, cs, orders, url, n - 1) +
         EnvOps(EnvPath(base, n - 1), Env(cs[n - 1]), orders[n - 1], url)
  }

  /** Set each key of `order` in the object at `path`. */
  function Sets(path: seq<string>, values: map<string, string>, order: seq<string>): seq<Op>
    requires forall k :: 0 <= k < |order| ==> order[k] in values
  {
    if order == [] then []
    else
      var key := order[|order| - 1];
      Sets(path, values, order[..|order| - 1]) + [Op(path + [key], Str(values[key]))]
  }

  function AnnotationsPath(): seq<string> {
    ["metadata", "annotations"]
  }

  function ScrapeOps(cfg: WebhookConfig, pod: Json, order: seq<string>): seq<Op>
    requires forall k :: 0 <= k < |order| ==> order[k] in cfg.scrape
  {
    if cfg.scrape == map[] then []
    else (if Annotations(pod).Obj? then [] else [Op(AnnotationsPath(), Obj(map[]))]) +
         Sets(AnnotationsPath(), ScrapeValues(cfg), order)
  }

  function Patches(cfg: WebhookConfig, pod: Json, owner: Owner, o: Orders): seq<Op>
    requires OrdersOk(o, cfg, pod)
  {
    VolumeOps(pod) +
    [Op(ContainersPath() + ["-"], Sidecar(cfg, pod, owner))] +
    AllEnvOps(ContainersPath(), Containers(pod), o.urls, BaseURL(cfg), |o.urls|) +
    ScrapeOps(cfg, pod, o.scrape)
  }

  /** What HandleMutate answers: a patch, or None to let the pod through unchanged. */
  function Mutation(cfg: WebhookConfig, pod: Json, owner: Owner, o: Orders): Option<seq<JSONPatchOp>>
    requires OrdersOk(o, cfg, pod)
  {
    if !Decodes(pod) || OptedOut(pod) || HasSidecar(pod) then None else Some(Written(Patches(cfg, pod, owner, o)))
  }
}
