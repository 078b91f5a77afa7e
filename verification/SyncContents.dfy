/** What a complete sync leaves in the cluster, told from the parameters alone. */
module SyncContents {
  import opened Text
  import opened Json
  import opened Routes
  import opened Chart
  import Keys = ApiKeys
  import Access
  import TargetPort
  import opened Sync
  import opened SyncSafety

  // ---------- the external Service ----------

  /** The Service for the access chosen, or for the component's own type where none is: a load
      balancer with its source ranges, a node port without, and none for ClusterIP. */
  predicate ServiceBy(found: Option<Content>, c: Common, port: int, targetPort: int) {
    var balanced := Some(ServiceContent(LoadBalancer, port, targetPort, c.settings));
    var onNodes := Some(ServiceContent(NodePort, port, targetPort, ServiceSettings(c.settings.annotations, [])));
    match c.access
    case AsLoadBalancer => found == balanced
    case AsNodePort => found == onNodes
    case AsClusterIP => found == None
    case EnvoyAIGateway => found == None
    case Unset =>
      && (c.service == Some(LoadBalancer) ==> found == balanced)
      && (c.service == Some(NodePort) ==> found == onNodes)
      && (c.service == Some(ClusterIP) || c.service == None ==> found == None)
  }

  lemma ServiceMeaning(c: Common, port: int, targetPort: int)
    ensures ServiceBy(Published(ServiceCall(c, port, targetPort)), c, port, targetPort)
  {
  }

  lemma PredictorExternalService(st: State, p: Predictor, chart: ChartSettings, routeName: string -> string)
    requires !SyncPredictor(st, p, chart, routeName).failed
    ensures ServiceBy(At(SyncPredictor(st, p, chart, routeName).objects, ExternalService), p.common, 80, TargetPort.ServicePort(p.spec))
  {
    hide SyncPredictor, ServiceCall, ServiceBy;
    PredictorSyncLeaves(st, p, chart, routeName, ExternalService);
    ServiceMeaning(p.common, 80, TargetPort.ServicePort(p.spec));
  }

  /** The gateway replaces the Service; an Instance may also ask for it by the older switch. */
  lemma LlmExternalService(st: State, l: Llm, chart: ChartSettings, routeName: string -> string)
    requires !SyncLlm(st, l, chart, routeName).failed
    ensures var found := At(SyncLlm(st, l, chart, routeName).objects, ExternalService);
      if l.common.access == EnvoyAIGateway || (l.common.access == Unset && l.enableAIGateway) then found == None
      else ServiceBy(found, l.common, 8000, 8000)
  {
    hide SyncLlm, ServiceCall, ServiceBy;
    LlmSyncLeaves(st, l, chart, routeName, ExternalService);
    ServiceMeaning(l.common, 8000, 8000);
  }

  // ---------- on the gateway ----------

  predicate ConfiguredGateway(chart: ChartSettings) {
    chart.gatewayEnabled && chart.gateway.name != "" && chart.gateway.ns != ""
  }

  /** The route that an accepted exposure of the Instance under this name stands for. */
  function RouteOf(c: Common, model: string, chart: ChartSettings, backendRef: Json, routeName: string -> string): Content {
    RouteContent(Access.OwnRoute(Access.Expose(c.ns, c.name, model, backendRef), chart, routeName))
  }

  /** The limit counts by key where keys are required, and is 1000 an hour unless it is set. */
  function LimitOf(c: Common, model: string, chart: ChartSettings): Option<Content> {
    if !chart.rateLimited then None
    else Some(TokenLimitContent(model, if c.tokenLimit.Some? then c.tokenLimit.value else 1000,
      if chart.authEnabled then "x-openeverest-key-id" else "x-user-id"))
  }

  /** A reference to the predictor's own backend, which overrides the model name only where the
      server goes by another one. */
  predicate RefersToBackend(ref: Json, p: Predictor, routeName: string -> string) {
    && TextIs(ref, "name", routeName(p.common.name))
    && (p.servedModelName != "" && p.servedModelName != p.common.name ==> TextIs(ref, "modelNameOverride", p.servedModelName))
    && (p.servedModelName == "" || p.servedModelName == p.common.name ==> ref.fields.Keys == {"name"})
  }

  lemma BackendRefMeaning(p: Predictor, routeName: string -> string)
    ensures RefersToBackend(PredictorBackendRef(p, routeName), p, routeName)
  {
  }

  /** A predictor on the gateway: its route serves the Instance's name through its own backend at
      the predictor's host, with a policy exactly when the backend needs a key. */
  lemma PredictorOnGateway(st: State, p: Predictor, chart: ChartSettings, routeName: string -> string) returns (ref: Json)
    requires !SyncPredictor(st, p, chart, routeName).failed && p.common.access == EnvoyAIGateway
    ensures ConfiguredGateway(chart) && RefersToBackend(ref, p, routeName)
    ensures var after := SyncPredictor(st, p, chart, routeName).objects;
      && At(after, AccessRoute) == Some(RouteOf(p.common, p.common.name, chart, ref, routeName))
      && At(after, TokenLimit) == LimitOf(p.common, p.common.name, chart)
      && At(after, Backend) == Some(BackendContent(p.common.name + "-predictor." + p.common.ns + ".svc.cluster.local", 80))
      && At(after, AIServiceBackend) == Some(AIBackendContent(p.schema))
      && At(after, BackendPolicy) == (if p.backendKeySecret != "" then Some(BackendPolicyContent(p.backendKeySecret)) else None)
  {
    hide SyncPredictor, RouteSpec, PredictorBackendRef, RefersToBackend;
    ref := PredictorBackendRef(p, routeName);
    BackendRefMeaning(p, routeName);
    PredictorCompletes(st, p, chart, routeName);
    PredictorSyncLeaves(st, p, chart, routeName, AccessRoute);
    PredictorSyncLeaves(st, p, chart, routeName, TokenLimit);
    PredictorSyncLeaves(st, p, chart, routeName, Backend);
    PredictorSyncLeaves(st, p, chart, routeName, AIServiceBackend);
    PredictorSyncLeaves(st, p, chart, routeName, BackendPolicy);
  }

  /** Any other predictor has none of these while the chart's gateway is enabled. */
  lemma PredictorOffGateway(st: State, p: Predictor, chart: ChartSettings, routeName: string -> string, kind: Kind)
    requires !SyncPredictor(st, p, chart, routeName).failed && p.common.access != EnvoyAIGateway && chart.gatewayEnabled
    requires kind in {AccessRoute, TokenLimit, Backend, AIServiceBackend, BackendPolicy}
    ensures At(SyncPredictor(st, p, chart, routeName).objects, kind) == None
  {
    hide SyncPredictor;
    PredictorSyncLeaves(st, p, chart, routeName, kind);
  }

  /** An llm Instance on the gateway: its route serves the model name, or the Instance's where it
      has none, through the inference pool. */
  lemma LlmOnGateway(st: State, l: Llm, chart: ChartSettings, routeName: string -> string) returns (ref: Json)
    requires !SyncLlm(st, l, chart, routeName).failed
    requires l.common.access == EnvoyAIGateway || (l.common.access == Unset && l.enableAIGateway)
    ensures ConfiguredGateway(chart)
    ensures TextIs(ref, "kind", "InferencePool") && TextIs(ref, "group", "inference.networking.k8s.io") && TextIs(ref, "name", l.poolName)
    ensures var after := SyncLlm(st, l, chart, routeName).objects;
      var model := if l.modelName != "" then l.modelName else l.common.name;
      && At(after, AccessRoute) == Some(RouteOf(l.common, model, chart, ref, routeName))
      && At(after, TokenLimit) == LimitOf(l.common, model, chart)
  {
    hide SyncLlm, RouteSpec;
    ref := PoolRef(l);
    LlmCompletes(st, l, chart, routeName);
    LlmSyncLeaves(st, l, chart, routeName, AccessRoute);
    LlmSyncLeaves(st, l, chart, routeName, TokenLimit);
  }

  lemma LlmOffGateway(st: State, l: Llm, chart: ChartSettings, routeName: string -> string)
    requires !SyncLlm(st, l, chart, routeName).failed && chart.gatewayEnabled
    requires !(l.common.access == EnvoyAIGateway || (l.common.access == Unset && l.enableAIGateway))
    ensures var after := SyncLlm(st, l, chart, routeName).objects;
      At(after, AccessRoute) == None && At(after, TokenLimit) == None
  {
    hide SyncLlm;
    LlmSyncLeaves(st, l, chart, routeName, AccessRoute);
    LlmSyncLeaves(st, l, chart, routeName, TokenLimit);
  }

  // ---------- the key Secret ----------

  /** What the key Secret is after a step that found `before`: a complete one keeps its ID and
      value, a new one has the fresh ones, and the labels and reference are the Instance's. */
  predicate KeyedBy(found: Option<Content>, before: Option<Content>, c: Common) {
    && found.Some? && found.value.KeyContent?
    && var secret := found.value.secret;
    && Keys.Labelled(secret.labels, c.name) && secret.models == c.ns + "/" + c.name
    && (before.Some? && before.value.KeyContent? ==>
          && (before.value.secret.id != "" ==> secret.id == before.value.secret.id)
          && (before.value.secret.key != "" ==> secret.key == before.value.secret.key))
    && (before == None ==> secret.id == c.freshId && secret.key == c.freshKey)
  }

  lemma EnsuredKey(st: State, c: Common)
    requires !Do(st, EnsureKey(c.ns, c.name, c.freshId, c.freshKey)).failed
    ensures KeyedBy(At(Do(st, EnsureKey(c.ns, c.name, c.freshId, c.freshKey)).objects, KeySecret), At(st.objects, KeySecret), c)
  {
    hide Keys.Ensure, Keys.Labelled;
    Keys.CreatedSecret(c.ns, c.name, c.freshId, c.freshKey);
    if KeySecret in st.objects && st.objects[KeySecret].KeyContent? {
      var current := st.objects[KeySecret].secret;
      Keys.EnsureRestores(current, c.ns, c.name, c.freshId, c.freshKey);
      Keys.PatchedLabels(current, current, c.ns, c.name, c.freshId, c.freshKey);
    }
  }

  lemma KeyOnGateway(st: State, c: Common, model: string, chart: ChartSettings, backendRef: Json, calls: seq<Call>,
                     routeName: string -> string)
    requires !SyncGateway(st, c, model, chart, backendRef, calls, routeName).failed && chart.authEnabled
    requires At(DoAll(Keyed(st, c, chart), calls).objects, KeySecret) == At(Keyed(st, c, chart).objects, KeySecret)
    ensures KeyedBy(At(SyncGateway(st, c, model, chart, backendRef, calls, routeName).objects, KeySecret), At(st.objects, KeySecret), c)
  {
    hide SyncGateway, KeyedBy, Do;
    GatewayLeaves(st, c, model, chart, backendRef, calls, routeName);
    if Keyed(st, c, chart).failed { DoAllFailed(Keyed(st, c, chart), calls); }
    EnsuredKey(st, c);
  }

  /** A complete llm sync on a gateway that requires keys leaves the Instance's key. */
  lemma LlmKey(st: State, l: Llm, chart: ChartSettings, routeName: string -> string)
    requires !SyncLlm(st, l, chart, routeName).failed && chart.authEnabled
    requires l.common.access == EnvoyAIGateway || (l.common.access == Unset && l.enableAIGateway)
    ensures KeyedBy(At(SyncLlm(st, l, chart, routeName).objects, KeySecret), At(st.objects, KeySecret), l.common)
  {
    hide SyncGateway, KeyedBy, Do, PoolRef, SyncLlmWorkload;
    var cleared := Do(SyncLlmWorkload(st, l, chart), Delete(ExternalService));
    KeyOnGateway(cleared, l.common, ServedModelName(l), chart, PoolRef(l), [], routeName);
    OtherKind(SyncLlmWorkload(st, l, chart), Delete(ExternalService), KeySecret);
    LlmWorkloadLeavesOther(st, l, chart, KeySecret);
  }

  /** And so does a complete predictor sync. */
  lemma PredictorKey(st: State, p: Predictor, chart: ChartSettings, routeName: string -> string)
    requires !SyncPredictor(st, p, chart, routeName).failed && chart.authEnabled && p.common.access == EnvoyAIGateway
    ensures KeyedBy(At(SyncPredictor(st, p, chart, routeName).objects, KeySecret), At(st.objects, KeySecret), p.common)
  {
    hide KeyedBy, Do, SyncPredictorWorkload, SyncPredictorGateway, ServiceCall;
    var worked := SyncPredictorWorkload(st, p, chart);
    ServiceLeaves(SyncPredictorGateway(worked, p, chart, routeName), p.common, 80, TargetPort.ServicePort(p.spec));
    PredictorGatewayKey(worked, p, chart, routeName);
    PredictorWorkloadLeavesOther(st, p, chart, KeySecret);
  }

  lemma PredictorGatewayKey(st: State, p: Predictor, chart: ChartSettings, routeName: string -> string)
    requires !SyncPredictorGateway(st, p, chart, routeName).failed && chart.authEnabled && p.common.access == EnvoyAIGateway
    ensures KeyedBy(At(SyncPredictorGateway(st, p, chart, routeName).objects, KeySecret), At(st.objects, KeySecret), p.common)
  {
    hide SyncGateway, KeyedBy, Do, DoAll, PredictorBackends, PredictorBackendRef, Keyed;
    var cleared := if p.backendKeySecret == "" then Do(st, Delete(BackendPolicy)) else st;
    GatewayLeaves(cleared, p.common, p.common.name, chart, PredictorBackendRef(p, routeName), PredictorBackends(p), routeName);
    PredictorBackendsApplied(Keyed(cleared, p.common, chart), p);
    KeyOnGateway(cleared, p.common, p.common.name, chart, PredictorBackendRef(p, routeName), PredictorBackends(p), routeName);
    OtherKind(st, Delete(BackendPolicy), KeySecret);
  }

  // ---------- the workload ----------

  lemma PredictorWorkloadLeavesOther(st: State, p: Predictor, chart: ChartSettings, kind: Kind)
    requires kind !in {ModelPuller, Workload, PodMonitor}
    ensures At(SyncPredictorWorkload(st, p, chart).objects, kind) == At(st.objects, kind)
  {
    hide Do;
    var puller, workload := Apply(ModelPuller, ModelPullerContent), Apply(Workload, PredictorContent(p.spec));
    var pulled := if p.hfServiceAccount then Do(st, puller) else st;
    OtherKind(st, puller, kind);
    OtherKind(pulled, workload, kind);
    OtherKind(Do(pulled, workload), MonitorCall(p.common, chart), kind);
  }

  lemma LlmWorkloadLeavesOther(st: State, l: Llm, chart: ChartSettings, kind: Kind)
    requires kind !in {ModelPuller, LlmConfig, Workload, PodMonitor}
    ensures At(SyncLlmWorkload(st, l, chart).objects, kind) == At(st.objects, kind)
  {
    hide Do;
    var puller, workload := Apply(ModelPuller, ModelPullerContent), Apply(Workload, LlmContent(l.llm));
    var pulled := if chart.hfToken then Do(st, puller) else st;
    var configured := if l.config.Some? then Do(pulled, Apply(LlmConfig, ConfigContent(l.config.value))) else pulled;
    OtherKind(st, puller, kind);
    if l.config.Some? { OtherKind(pulled, Apply(LlmConfig, ConfigContent(l.config.value)), kind); }
    OtherKind(configured, workload, kind);
    OtherKind(Do(configured, workload), MonitorCall(l.common, chart), kind);
  }

  /** The pod monitor is there when the chart and the Instance both want it. */
  function MonitorBy(c: Common, chart: ChartSettings): Option<Content> {
    if chart.podMonitors && c.metrics then Some(MonitorContent) else None
  }

  lemma MonitorLeaves(st: State, c: Common, chart: ChartSettings)
    requires !Do(st, MonitorCall(c, chart)).failed
    ensures !st.failed && At(Do(st, MonitorCall(c, chart)).objects, PodMonitor) == MonitorBy(c, chart)
    ensures forall kind :: kind != PodMonitor ==> At(Do(st, MonitorCall(c, chart)).objects, kind) == At(st.objects, kind)
  {
  }

  /** No part of a sync after the workload touches these. */
  lemma PredictorGatewaySpares(st: State, p: Predictor, chart: ChartSettings, routeName: string -> string, kind: Kind)
    requires kind in {Workload, ModelPuller, PodMonitor} && !SyncPredictorGateway(st, p, chart, routeName).failed
    ensures !st.failed && At(SyncPredictorGateway(st, p, chart, routeName).objects, kind) == At(st.objects, kind)
  {
    hide SyncGateway, PredictorBackends, PredictorBackendRef, Do, CleanupGateway;
    if PredictorUsesGateway(p) {
      var cleared := if p.backendKeySecret == "" then Do(st, Delete(BackendPolicy)) else st;
      if p.backendKeySecret == "" { OtherKind(st, Delete(BackendPolicy), kind); }
      RegistrationSpares(cleared, p, chart, routeName, kind);
      if p.backendKeySecret == "" { Deleted(st, BackendPolicy); }
    } else if chart.gatewayEnabled {
      RemovalSpares(st, kind);
    }
  }

  lemma RegistrationSpares(st: State, p: Predictor, chart: ChartSettings, routeName: string -> string, kind: Kind)
    requires kind in {Workload, ModelPuller, PodMonitor}
    requires !SyncGateway(st, p.common, p.common.name, chart, PredictorBackendRef(p, routeName), PredictorBackends(p), routeName).failed
    ensures var after := SyncGateway(st, p.common, p.common.name, chart, PredictorBackendRef(p, routeName), PredictorBackends(p), routeName);
      !st.failed && At(after.objects, kind) == At(st.objects, kind)
  {
    hide SyncGateway, PredictorBackends, PredictorBackendRef, Keyed, Do, DoAll;
    GatewayLeaves(st, p.common, p.common.name, chart, PredictorBackendRef(p, routeName), PredictorBackends(p), routeName);
    PredictorBackendsApplied(Keyed(st, p.common, chart), p);
  }

  lemma RemovalSpares(st: State, kind: Kind)
    requires kind in {Workload, ModelPuller, PodMonitor}
    requires !Do(Do(Do(CleanupGateway(st), Delete(BackendPolicy)), Delete(AIServiceBackend)), Delete(Backend)).failed
    ensures !st.failed
    ensures At(Do(Do(Do(CleanupGateway(st), Delete(BackendPolicy)), Delete(AIServiceBackend)), Delete(Backend)).objects, kind)
      == At(st.objects, kind)
  {
    hide Do;
    var cleaned := CleanupGateway(st);
    var unguarded := Do(cleaned, Delete(BackendPolicy));
    Deleted(Do(unguarded, Delete(AIServiceBackend)), Backend);
    Deleted(unguarded, AIServiceBackend);
    Deleted(cleaned, BackendPolicy);
    Deleted(Do(st, Delete(AccessRoute)), TokenLimit);
    Deleted(st, AccessRoute);
  }

  /** A complete predictor sync leaves the spec it was given, the pod monitor where wanted, and the
      model puller where it needs one. */
  lemma PredictorWorkload(st: State, p: Predictor, chart: ChartSettings, routeName: string -> string)
    requires !SyncPredictor(st, p, chart, routeName).failed
    ensures var after := SyncPredictor(st, p, chart, routeName).objects;
      && At(after, Workload) == Some(PredictorContent(p.spec))
      && At(after, PodMonitor) == MonitorBy(p.common, chart)
      && (p.hfServiceAccount ==> At(after, ModelPuller) == Some(ModelPullerContent))
  {
    hide SyncPredictorGateway, Do, ServiceCall, MonitorCall;
    var puller, workload := Apply(ModelPuller, ModelPullerContent), Apply(Workload, PredictorContent(p.spec));
    var pulled := if p.hfServiceAccount then Do(st, puller) else st;
    var worked := SyncPredictorWorkload(st, p, chart);
    ServiceLeaves(SyncPredictorGateway(worked, p, chart, routeName), p.common, 80, TargetPort.ServicePort(p.spec));
    PredictorGatewaySpares(worked, p, chart, routeName, Workload);
    PredictorGatewaySpares(worked, p, chart, routeName, PodMonitor);
    PredictorGatewaySpares(worked, p, chart, routeName, ModelPuller);
    MonitorLeaves(Do(pulled, workload), p.common, chart);
    Applied(pulled, workload);
    if p.hfServiceAccount { Applied(st, puller); }
  }

  lemma LlmRestSpares(st: State, l: Llm, chart: ChartSettings, routeName: string -> string, kind: Kind)
    requires kind in {Workload, ModelPuller, LlmConfig, PodMonitor} && !SyncLlm(st, l, chart, routeName).failed
    ensures var worked := SyncLlmWorkload(st, l, chart);
      !worked.failed && At(SyncLlm(st, l, chart, routeName).objects, kind) == At(worked.objects, kind)
  {
    hide SyncGateway, PoolRef, Do, SyncLlmWorkload, ServiceCall, Keyed;
    var worked := SyncLlmWorkload(st, l, chart);
    if LlmUsesGateway(l) {
      var cleared := Do(worked, Delete(ExternalService));
      GatewayLeaves(cleared, l.common, ServedModelName(l), chart, PoolRef(l), [], routeName);
      Deleted(worked, ExternalService);
    } else {
      ServiceLeaves(if chart.gatewayEnabled then CleanupGateway(worked) else worked, l.common, 8000, 8000);
      if chart.gatewayEnabled {
        Deleted(Do(worked, Delete(AccessRoute)), TokenLimit);
        Deleted(worked, AccessRoute);
      }
    }
  }

  /** The same for the llm topology, with the inline config where there is one. */
  lemma LlmWorkload(st: State, l: Llm, chart: ChartSettings, routeName: string -> string)
    requires !SyncLlm(st, l, chart, routeName).failed
    ensures var after := SyncLlm(st, l, chart, routeName).objects;
      && At(after, Workload) == Some(LlmContent(l.llm))
      && At(after, PodMonitor) == MonitorBy(l.common, chart)
      && (l.config.Some? ==> At(after, LlmConfig) == Some(ConfigContent(l.config.value)))
      && (chart.hfToken ==> At(after, ModelPuller) == Some(ModelPullerContent))
  {
    hide SyncLlm, Do, MonitorCall;
    var puller, workload := Apply(ModelPuller, ModelPullerContent), Apply(Workload, LlmContent(l.llm));
    var pulled := if chart.hfToken then Do(st, puller) else st;
    var configured := if l.config.Some? then Do(pulled, Apply(LlmConfig, ConfigContent(l.config.value))) else pulled;
    LlmRestSpares(st, l, chart, routeName, Workload);
    LlmRestSpares(st, l, chart, routeName, PodMonitor);
    LlmRestSpares(st, l, chart, routeName, LlmConfig);
    LlmRestSpares(st, l, chart, routeName, ModelPuller);
    MonitorLeaves(Do(configured, workload), l.common, chart);
    Applied(configured, workload);
    if l.config.Some? { Applied(pulled, Apply(LlmConfig, ConfigContent(l.config.value))); }
    if chart.hfToken { Applied(st, puller); }
  }
}
