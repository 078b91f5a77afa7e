/** The sync sequences of both topologies, as API calls on one Instance's objects, any of which
    may fail and end the sync. */
module Sync {
  import opened Text
  import opened Json
  import opened Routes
  import opened Chart
  import Keys = ApiKeys
  import GatewayAuth
  import TargetPort
  import opened LlmService
  import EngineArgs

  /** The objects an Instance owns; their names follow from the Instance's. */
  datatype Kind =
    | KeySecret | AccessRoute | TokenLimit | Backend | AIServiceBackend | BackendPolicy
    | ExternalService | Workload | ModelPuller | LlmConfig | PodMonitor

  datatype ServiceType = ClusterIP | LoadBalancer | NodePort

  datatype Content =
    | KeyContent(secret: Keys.Secret)
    | RouteContent(route: Route)
    | TokenLimitContent(model: string, perHour: int, bucketHeader: string)
    | BackendContent(host: string, port: int)
    | AIBackendContent(schema: Schema)
    | BackendPolicyContent(secretName: string)
    | ServiceContent(kind: ServiceType, port: int, targetPort: int, settings: ServiceSettings)
    | PredictorContent(spec: Json)
    | LlmContent(llm: LlmSpec)
    | ModelPullerContent
    | ConfigContent(pods: EngineArgs.Pods)
    | MonitorContent

  /** The API a backend serves: OpenAI under a prefix, or TypeSafe in a version. */
  datatype Schema = OpenAI(prefix: string) | TypeSafe(version: string)

  /** What an external Service takes over from the component's service settings. */
  datatype ServiceSettings = ServiceSettings(annotations: map<string, string>, sourceRanges: seq<string>)

  type Objects = map<Kind, Content>

  datatype Call = Apply(kind: Kind, content: Content) | Delete(kind: Kind) | EnsureKey(ns: string, name: string, freshId: string, freshKey: string)

  /** `budget` calls succeed before the next one fails; a failed sync makes no more calls. */
  datatype State = State(objects: Objects, budget: nat, failed: bool)

  function Effect(objects: Objects, call: Call): Objects {
    match call
    case Apply(kind, content) => objects[kind := content]
    case Delete(kind) => objects - {kind}
    case EnsureKey(ns, name, freshId, freshKey) =>
      var stored := if KeySecret in objects && objects[KeySecret].KeyContent? then Some(objects[KeySecret].secret) else None;
      var (after, _) := Keys.Ensure(stored, stored, ns, name, freshId, freshKey);
      if after.Some? then objects[KeySecret := KeyContent(after.value)] else objects
  }

  function Do(st: State, call: Call): State {
    if st.failed then st
    else if st.budget == 0 then st.(failed := true)
    else State(Effect(st.objects, call), st.budget - 1, false)
  }

  function DoAll(st: State, calls: seq<Call>): State {
    if calls == [] then st else Do(DoAll(st, calls[..|calls| - 1]), calls[|calls| - 1])
  }

  function At(objects: Objects, kind: Kind): Option<Content> {
    if kind in objects then Some(objects[kind]) else None
  }

  lemma DoAllNext(st: State, calls: seq<Call>, n: nat)
    requires n < |calls|
    ensures DoAll(st, calls[..n + 1]) == Do(DoAll(st, calls[..n]), calls[n])
  {
    assert calls[..n + 1][..n] == calls[..n];
  }

  lemma {:induction false} DoAllFailed(st: State, calls: seq<Call>)
    requires st.failed
    ensures DoAll(st, calls) == st
  {
    if calls != [] { DoAllFailed(st, calls[..|calls| - 1]); }
  }

  lemma {:induction false} DoAllConcat(st: State, a: seq<Call>, b: seq<Call>)
    ensures DoAll(st, a + b) == DoAll(DoAll(st, a), b)
  {
    if b == [] {
      assert a + b == a;
    } else {
      var all := a + b;
      assert all[..|all| - 1] == a + b[..|b| - 1] && all[|all| - 1] == b[|b| - 1];
      DoAllConcat(st, a, b[..|b| - 1]);
    }
  }

  // ---------- settings ----------

  datatype ExternalAccess = Unset | AsClusterIP | AsLoadBalancer | AsNodePort | EnvoyAIGateway

  /** What both topologies have in common; `service` is the component's own service type. */
  datatype Common = Common(ns: string, name: string, access: ExternalAccess, tokenLimit: Option<int>,
                           service: Option<ServiceType>, settings: ServiceSettings, metrics: bool,
                           freshId: string, freshKey: string)

  datatype Predictor = Predictor(common: Common, spec: Json, hfServiceAccount: bool, schema: Schema,
                                 backendKeySecret: string, servedModelName: string)

  datatype Llm = Llm(common: Common, enableAIGateway: bool, modelName: string, poolName: string,
                     config: Option<EngineArgs.Pods>, llm: LlmSpec)

  /** The topology's choice wins over the component's; ClusterIP when neither says. */
  function ResolveService(c: Common): ServiceType {
    match c.access
    case AsLoadBalancer => LoadBalancer
    case AsNodePort => NodePort
    case AsClusterIP => ClusterIP
    case EnvoyAIGateway => ClusterIP
    case Unset => if c.service.Some? then c.service.value else ClusterIP
  }

  predicate PredictorUsesGateway(p: Predictor) {
    p.common.access == EnvoyAIGateway
  }

  predicate LlmUsesGateway(l: Llm) {
    l.common.access == EnvoyAIGateway || (l.common.access == Unset && l.enableAIGateway)
  }

  function ServedModelName(l: Llm): string {
    if l.modelName != "" then l.modelName else l.common.name
  }

  predicate GatewayConfigured(chart: ChartSettings) {
    chart.gatewayEnabled && chart.gateway.name != "" && chart.gateway.ns != ""
  }

  // ---------- the calls ----------

  function RouteCall(c: Common, model: string, chart: ChartSettings, backendRef: Json, routeName: string -> string): Call {
    Apply(AccessRoute, RouteContent(Route(c.ns, routeName(c.name), RouteSpec(model, chart.gateway, backendRef))))
  }

  function TokenLimitCall(c: Common, model: string, chart: ChartSettings): Call {
    if !chart.rateLimited then Delete(TokenLimit)
    else Apply(TokenLimit, TokenLimitContent(model, if c.tokenLimit.Some? then c.tokenLimit.value else 1000,
      if chart.authEnabled then GatewayAuth.KEY_ID_HEADER else "x-user-id"))
  }

  function MonitorCall(c: Common, chart: ChartSettings): Call {
    if chart.podMonitors && c.metrics then Apply(PodMonitor, MonitorContent) else Delete(PodMonitor)
  }

  /** Source ranges restrict a load balancer only. */
  function ServiceSettingsFor(kind: ServiceType, settings: ServiceSettings): ServiceSettings {
    if kind == LoadBalancer then settings else settings.(sourceRanges := [])
  }

  function ServiceCall(c: Common, port: int, targetPort: int): Call {
    var kind := ResolveService(c);
    if kind == ClusterIP then Delete(ExternalService)
    else Apply(ExternalService, ServiceContent(kind, port, targetPort, ServiceSettingsFor(kind, c.settings)))
  }

  function PredictorHost(p: Predictor): string {
    p.common.name + "-predictor." + p.common.ns + ".svc.cluster.local"
  }

  function PredictorBackends(p: Predictor): seq<Call> {
    [Apply(Backend, BackendContent(PredictorHost(p), 80)), Apply(AIServiceBackend, AIBackendContent(p.schema))]
    + if p.backendKeySecret != "" then [Apply(BackendPolicy, BackendPolicyContent(p.backendKeySecret))] else []
  }

  function PredictorBackendRef(p: Predictor, routeName: string -> string): Json {
    Obj(map["name" := Str(routeName(p.common.name))]
      + if p.servedModelName != "" && p.servedModelName != p.common.name then map["modelNameOverride" := Str(p.servedModelName)] else map[])
  }

  function PoolRef(l: Llm): Json {
    Obj(map["group" := Str("inference.networking.k8s.io"), "kind" := Str("InferencePool"), "name" := Str(l.poolName)])
  }

  // ---------- the sequences as functions ----------

  /** With keys required, the key Secret comes first. */
  function Keyed(st: State, c: Common, chart: ChartSettings): State {
    if chart.authEnabled then Do(st, EnsureKey(c.ns, c.name, c.freshId, c.freshKey)) else st
  }

  function SyncGateway(st: State, c: Common, model: string, chart: ChartSettings, backendRef: Json, backends: seq<Call>,
                       routeName: string -> string): State {
    if !GatewayConfigured(chart) then st.(failed := true)
    else
      var backed := DoAll(Keyed(st, c, chart), backends);
      var routed := Do(backed, RouteCall(c, model, chart, backendRef, routeName));
      Do(routed, TokenLimitCall(c, model, chart))
  }

  function CleanupGateway(st: State): State {
    Do(Do(st, Delete(AccessRoute)), Delete(TokenLimit))
  }

  function SyncPredictorGateway(st: State, p: Predictor, chart: ChartSettings, routeName: string -> string): State {
    if !PredictorUsesGateway(p) then
      if !chart.gatewayEnabled then st
      else Do(Do(Do(CleanupGateway(st), Delete(BackendPolicy)), Delete(AIServiceBackend)), Delete(Backend))
    else
      var cleared := if p.backendKeySecret == "" then Do(st, Delete(BackendPolicy)) else st;
      SyncGateway(cleared, p.common, p.common.name, chart, PredictorBackendRef(p, routeName), PredictorBackends(p), routeName)
  }

  function SyncPredictorWorkload(st: State, p: Predictor, chart: ChartSettings): State {
    var pulled := if p.hfServiceAccount then Do(st, Apply(ModelPuller, ModelPullerContent)) else st;
    Do(Do(pulled, Apply(Workload, PredictorContent(p.spec))), MonitorCall(p.common, chart))
  }

  function SyncPredictor(st: State, p: Predictor, chart: ChartSettings, routeName: string -> string): State {
    var gated := SyncPredictorGateway(SyncPredictorWorkload(st, p, chart), p, chart, routeName);
    Do(gated, ServiceCall(p.common, 80, TargetPort.ServicePort(p.spec)))
  }

  function SyncLlmWorkload(st: State, l: Llm, chart: ChartSettings): State {
    var pulled := if chart.hfToken then Do(st, Apply(ModelPuller, ModelPullerContent)) else st;
    var configured := if l.config.Some? then Do(pulled, Apply(LlmConfig, ConfigContent(l.config.value))) else pulled;
    Do(Do(configured, Apply(Workload, LlmContent(l.llm))), MonitorCall(l.common, chart))
  }

  function SyncLlm(st: State, l: Llm, chart: ChartSettings, routeName: string -> string): State {
    var worked := SyncLlmWorkload(st, l, chart);
    if LlmUsesGateway(l) then
      SyncGateway(Do(worked, Delete(ExternalService)), l.common, ServedModelName(l), chart, PoolRef(l), [], routeName)
    else
      var cleaned := if chart.gatewayEnabled then CleanupGateway(worked) else worked;
      Do(cleaned, ServiceCall(l.common, 8000, 8000))
  }

  // ---------- a failed sync stays failed ----------

  lemma GatewayFailed(st: State, c: Common, model: string, chart: ChartSettings, backendRef: Json, backends: seq<Call>,
                      routeName: string -> string)
    requires st.failed
    ensures SyncGateway(st, c, model, chart, backendRef, backends, routeName) == st
  {
    DoAllFailed(st, backends);
  }

  lemma PredictorGatewayFailed(st: State, p: Predictor, chart: ChartSettings, routeName: string -> string)
    requires st.failed
    ensures SyncPredictorGateway(st, p, chart, routeName) == st
  {
    GatewayFailed(st, p.common, p.common.name, chart, PredictorBackendRef(p, routeName), PredictorBackends(p), routeName);
  }

  lemma LlmFailed(st: State, l: Llm, chart: ChartSettings, routeName: string -> string)
    requires st.failed
    ensures SyncLlm(st, l, chart, routeName) == st
  {
    GatewayFailed(st, l.common, ServedModelName(l), chart, PoolRef(l), [], routeName);
  }

  // ---------- the sequences as code ----------

  class Cluster {
    var st: State

    method Issue(call: Call) returns (ok: bool)
      requires !st.failed
      modifies this
      ensures st == Do(old(st), call) && ok == !st.failed
    {
      if st.budget == 0 {
        st := st.(failed := true);
      } else {
        st := State(Effect(st.objects, call), st.budget - 1, false);
      }
      ok := !st.failed;
    }

    method SyncAIGateway(c: Common, model: string, chart: ChartSettings, backendRef: Json, backends: seq<Call>,
                         routeName: string -> string) returns (ok: bool)
      requires !st.failed
      modifies this
      ensures st == SyncGateway(old(st), c, model, chart, backendRef, backends, routeName) && ok == !st.failed
    {
      hide Effect, RouteCall;
      if !chart.gatewayEnabled || chart.gateway.name == "" || chart.gateway.ns == "" {
        st := st.(failed := true);
        return false;
      }
      if chart.authEnabled {
        ok := Issue(EnsureKey(c.ns, c.name, c.freshId, c.freshKey));
        if !ok {
          DoAllFailed(st, backends);
          return;
        }
      }
      ok := ApplyAll(backends);
      if !ok {
        return;
      }
      ok := Issue(RouteCall(c, model, chart, backendRef, routeName));
      if !ok {
        return;
      }
      if !chart.rateLimited {
        ok := Issue(Delete(TokenLimit));
        return;
      }
      ok := Issue(TokenLimitCall(c, model, chart));
    }

    method ApplyAll(calls: seq<Call>) returns (ok: bool)
      requires !st.failed
      modifies this
      ensures st == DoAll(old(st), calls) && ok == !st.failed
    {
      ok := true;
      for i := 0 to |calls|
        invariant st == DoAll(old(st), calls[..i]) && ok == !st.failed && ok
      {
        DoAllNext(old(st), calls, i);
        ok := Issue(calls[i]);
        if !ok {
          DoAllFailed(st, calls[i + 1..]);
          DoAllConcat(old(st), calls[..i + 1], calls[i + 1..]);
          assert calls == calls[..i + 1] + calls[i + 1..];
          return;
        }
      }
      assert calls[..|calls|] == calls;
    }

    method CleanupAIGateway() returns (ok: bool)
      requires !st.failed
      modifies this
      ensures st == CleanupGateway(old(st)) && ok == !st.failed
    {
      ok := Issue(Delete(AccessRoute));
      if !ok {
        return;
      }
      ok := Issue(Delete(TokenLimit));
    }

    method SyncPredictorAIGateway(p: Predictor, chart: ChartSettings, routeName: string -> string) returns (ok: bool)
      requires !st.failed
      modifies this
      ensures st == SyncPredictorGateway(old(st), p, chart, routeName) && ok == !st.failed
    {
      hide SyncGateway, PredictorBackends, PredictorBackendRef, Effect;
      if !PredictorUsesGateway(p) {
        if !chart.gatewayEnabled {
          return true;
        }
        ok := CleanupAIGateway();
        if !ok {
          return;
        }
        ok := Issue(Delete(BackendPolicy));
        if !ok {
          return;
        }
        ok := Issue(Delete(AIServiceBackend));
        if !ok {
          return;
        }
        ok := Issue(Delete(Backend));
        return;
      }
      if p.backendKeySecret == "" {
        ok := Issue(Delete(BackendPolicy));
        if !ok {
          GatewayFailed(st, p.common, p.common.name, chart, PredictorBackendRef(p, routeName), PredictorBackends(p), routeName);
          return;
        }
      }
      ok := SyncAIGateway(p.common, p.common.name, chart, PredictorBackendRef(p, routeName), PredictorBackends(p), routeName);
    }

    method SyncPodMonitor(c: Common, chart: ChartSettings) returns (ok: bool)
      requires !st.failed
      modifies this
      ensures st == Do(old(st), MonitorCall(c, chart)) && ok == !st.failed
    {
      if !chart.podMonitors || !c.metrics {
        ok := Issue(Delete(PodMonitor));
        return;
      }
      ok := Issue(Apply(PodMonitor, MonitorContent));
    }

    method ReconcileExternalService(c: Common, port: int, targetPort: int) returns (ok: bool)
      requires !st.failed
      modifies this
      ensures st == Do(old(st), ServiceCall(c, port, targetPort)) && ok == !st.failed
    {
      var kind := ResolveService(c);
      if kind == ClusterIP {
        ok := Issue(Delete(ExternalService));
        return;
      }
      var settings := c.settings;
      if kind != LoadBalancer {
        settings := settings.(sourceRanges := []);
      }
      ok := Issue(Apply(ExternalService, ServiceContent(kind, port, targetPort, settings)));
    }

    method SyncPredictorInstance(p: Predictor, chart: ChartSettings, routeName: string -> string) returns (ok: bool)
      requires !st.failed
      modifies this
      ensures st == SyncPredictor(old(st), p, chart, routeName) && ok == !st.failed
    {
      hide SyncPredictorGateway, Effect, ServiceCall, MonitorCall;
      if p.hfServiceAccount {
        ok := Issue(Apply(ModelPuller, ModelPullerContent));
        if !ok {
          PredictorGatewayFailed(st, p, chart, routeName);
          return;
        }
      }
      ok := Issue(Apply(Workload, PredictorContent(p.spec)));
      if !ok {
        PredictorGatewayFailed(st, p, chart, routeName);
        return;
      }
      ok := SyncPodMonitor(p.common, chart);
      if !ok {
        PredictorGatewayFailed(st, p, chart, routeName);
        return;
      }
      ok := SyncPredictorAIGateway(p, chart, routeName);
      if !ok {
        return;
      }
      var targetPort := TargetPort.PredictorTargetPort(p.spec);
      ok := ReconcileExternalService(p.common, 80, targetPort);
    }

    method SyncLlmInstance(l: Llm, chart: ChartSettings, routeName: string -> string) returns (ok: bool)
      requires !st.failed
      modifies this
      ensures st == SyncLlm(old(st), l, chart, routeName) && ok == !st.failed
    {
      hide SyncGateway, Effect, ServiceCall, PoolRef, MonitorCall;
      if chart.hfToken {
        ok := Issue(Apply(ModelPuller, ModelPullerContent));
        if !ok {
          LlmFailed(st, l, chart, routeName);
          return;
        }
      }
      if l.config.Some? {
        ok := Issue(Apply(LlmConfig, ConfigContent(l.config.value)));
        if !ok {
          LlmFailed(st, l, chart, routeName);
          return;
        }
      }
      ok := Issue(Apply(Workload, LlmContent(l.llm)));
      if !ok {
        LlmFailed(st, l, chart, routeName);
        return;
      }
      ok := SyncPodMonitor(l.common, chart);
      if !ok {
        LlmFailed(st, l, chart, routeName);
        return;
      }
      if LlmUsesGateway(l) {
        ok := Issue(Delete(ExternalService));
        if !ok {
          GatewayFailed(st, l.common, ServedModelName(l), chart, PoolRef(l), [], routeName);
          return;
        }
        ok := SyncAIGateway(l.common, ServedModelName(l), chart, PoolRef(l), [], routeName);
        return;
      }
      if chart.gatewayEnabled {
        ok := CleanupAIGateway();
        if !ok {
          return;
        }
      }
      ok := ReconcileExternalService(l.common, 8000, 8000);
    }
  }
}
