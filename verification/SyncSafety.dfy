/** What every sync keeps wherever it stops, and what a complete sync leaves behind. */
module SyncSafety {
  import opened Text
  import opened Json
  import opened Routes
  import opened Chart
  import TargetPort
  import opened Sync

  // ---------- ordering at every crash point ----------

  /** A route never stands without its key Secret (when keys are required) or, with
      `backends`, without the two objects it forwards through. */
  predicate Ordered(objects: Objects, auth: bool, backends: bool) {
    AccessRoute in objects ==>
      && (auth ==> KeySecret in objects)
      && (backends ==> Backend in objects && AIServiceBackend in objects)
  }

  /** A call that neither sets up the route nor removes what a route needs. */
  predicate Harmless(call: Call) {
    match call
    case Apply(kind, _) => kind != AccessRoute
    case Delete(kind) => kind != KeySecret && kind != Backend && kind != AIServiceBackend
    case EnsureKey(_, _, _, _) => true
  }

  lemma HarmlessKeeps(st: State, call: Call, auth: bool, backends: bool)
    requires Harmless(call)
    ensures Ordered(st.objects, auth, backends) ==> Ordered(Do(st, call).objects, auth, backends)
    ensures forall kind :: kind in {KeySecret, Backend, AIServiceBackend} && kind in st.objects ==> kind in Do(st, call).objects
  {
  }

  lemma {:induction false} HarmlessAllKeep(st: State, calls: seq<Call>, auth: bool, backends: bool)
    requires forall i :: 0 <= i < |calls| ==> Harmless(calls[i])
    ensures Ordered(st.objects, auth, backends) ==> Ordered(DoAll(st, calls).objects, auth, backends)
    ensures forall kind :: kind in {KeySecret, Backend, AIServiceBackend} && kind in st.objects ==> kind in DoAll(st, calls).objects
  {
    hide Ordered;
    if calls != [] {
      HarmlessAllKeep(st, calls[..|calls| - 1], auth, backends);
      HarmlessKeeps(DoAll(st, calls[..|calls| - 1]), calls[|calls| - 1], auth, backends);
    }
  }

  lemma PredictorBackendsApplied(st: State, p: Predictor)
    requires !DoAll(st, PredictorBackends(p)).failed
    ensures Backend in DoAll(st, PredictorBackends(p)).objects && AIServiceBackend in DoAll(st, PredictorBackends(p)).objects
    ensures At(DoAll(st, PredictorBackends(p)).objects, Backend) == Some(BackendContent(PredictorHost(p), 80))
    ensures At(DoAll(st, PredictorBackends(p)).objects, AIServiceBackend) == Some(AIBackendContent(p.schema))
    ensures p.backendKeySecret != "" ==>
      At(DoAll(st, PredictorBackends(p)).objects, BackendPolicy) == Some(BackendPolicyContent(p.backendKeySecret))
    ensures forall kind :: kind !in {Backend, AIServiceBackend, BackendPolicy} || (kind == BackendPolicy && p.backendKeySecret == "") ==>
      At(DoAll(st, PredictorBackends(p)).objects, kind) == At(st.objects, kind)
  {
    hide PredictorHost, Do;
    var calls := PredictorBackends(p);
    var first, second := Do(st, calls[0]), Do(Do(st, calls[0]), calls[1]);
    DoAllNext(st, calls, 0);
    DoAllNext(st, calls, 1);
    if |calls| == 3 { DoAllNext(st, calls, 2); }
    assert calls[..|calls|] == calls && calls[..0] == [];
    assert DoAll(st, calls) == if |calls| == 3 then Do(second, calls[2]) else second;
    if |calls| == 3 { Applied(second, calls[2]); }
    Applied(first, calls[1]);
    Applied(st, calls[0]);
  }

  lemma Applied(st: State, call: Call)
    requires call.Apply? && !Do(st, call).failed
    ensures !st.failed && call.kind in Do(st, call).objects && At(Do(st, call).objects, call.kind) == Some(call.content)
    ensures forall other :: other != call.kind ==> At(Do(st, call).objects, other) == At(st.objects, other)
    ensures forall other :: other != call.kind && other in st.objects ==> other in Do(st, call).objects
  {
  }

  lemma KeyedKeepsOrder(st: State, c: Common, chart: ChartSettings, auth: bool, backends: bool)
    requires Ordered(st.objects, auth, backends)
    ensures var keyed := Keyed(st, c, chart);
      Ordered(keyed.objects, auth, backends) && (chart.authEnabled && !keyed.failed ==> KeySecret in keyed.objects)
  {
  }

  /** Applying the route is safe when the calls before it bring up what it needs. */
  lemma GatewayKeepsOrder(st: State, c: Common, model: string, chart: ChartSettings, backendRef: Json, calls: seq<Call>,
                          routeName: string -> string, auth: bool, backends: bool)
    requires (auth ==> chart.authEnabled) && Ordered(st.objects, auth, backends)
    requires forall i :: 0 <= i < |calls| ==> Harmless(calls[i])
    requires var backed := DoAll(Keyed(st, c, chart), calls);
      backends && !backed.failed ==> Backend in backed.objects && AIServiceBackend in backed.objects
    ensures Ordered(SyncGateway(st, c, model, chart, backendRef, calls, routeName).objects, auth, backends)
  {
    hide Keyed, Ordered, Harmless, Do, DoAll, RouteCall, TokenLimitCall;
    if GatewayConfigured(chart) {
      var keyed := Keyed(st, c, chart);
      var backed := DoAll(keyed, calls);
      KeyedKeepsOrder(st, c, chart, auth, backends);
      HarmlessAllKeep(keyed, calls, auth, backends);
      if keyed.failed { DoAllFailed(keyed, calls); }
      RouteKeepsOrder(backed, c, model, chart, backendRef, routeName, auth, backends);
      TokenLimitHarmless(c, model, chart);
      HarmlessKeeps(Do(backed, RouteCall(c, model, chart, backendRef, routeName)), TokenLimitCall(c, model, chart), auth, backends);
    }
  }

  lemma TokenLimitHarmless(c: Common, model: string, chart: ChartSettings)
    ensures Harmless(TokenLimitCall(c, model, chart))
  {
  }

  lemma RouteKeepsOrder(st: State, c: Common, model: string, chart: ChartSettings, backendRef: Json,
                        routeName: string -> string, auth: bool, backends: bool)
    requires Ordered(st.objects, auth, backends)
    requires !st.failed && auth ==> KeySecret in st.objects
    requires !st.failed && backends ==> Backend in st.objects && AIServiceBackend in st.objects
    ensures Ordered(Do(st, RouteCall(c, model, chart, backendRef, routeName)).objects, auth, backends)
  {
    hide RouteSpec;
  }

  /** No sync of a predictor, whatever its parameters and wherever it stops, leaves a route
      without its backends or, where the chart requires keys, without its key. */
  lemma PredictorSyncOrdered(st: State, p: Predictor, chart: ChartSettings, routeName: string -> string, auth: bool)
    requires (auth ==> chart.authEnabled) && Ordered(st.objects, auth, true)
    ensures Ordered(SyncPredictor(st, p, chart, routeName).objects, auth, true)
  {
    hide SyncPredictorWorkload, SyncPredictorGateway, Ordered, Do, ServiceCall, TargetPort.ServicePort;
    var worked := SyncPredictorWorkload(st, p, chart);
    PredictorWorkloadOrdered(st, p, chart, auth);
    PredictorGatewayOrdered(worked, p, chart, routeName, auth);
    var service := ServiceCall(p.common, 80, TargetPort.ServicePort(p.spec));
    ServiceHarmless(p.common, 80, TargetPort.ServicePort(p.spec));
    HarmlessKeeps(SyncPredictorGateway(worked, p, chart, routeName), service, auth, true);
  }

  lemma ServiceHarmless(c: Common, port: int, targetPort: int)
    ensures Harmless(ServiceCall(c, port, targetPort))
  {
  }

  lemma MonitorHarmless(c: Common, chart: ChartSettings)
    ensures Harmless(MonitorCall(c, chart))
  {
  }

  lemma PredictorWorkloadOrdered(st: State, p: Predictor, chart: ChartSettings, auth: bool)
    requires Ordered(st.objects, auth, true)
    ensures Ordered(SyncPredictorWorkload(st, p, chart).objects, auth, true)
  {
    hide Ordered, Do, MonitorCall;
    var puller, workload := Apply(ModelPuller, ModelPullerContent), Apply(Workload, PredictorContent(p.spec));
    HarmlessKeeps(st, puller, auth, true);
    var pulled := if p.hfServiceAccount then Do(st, puller) else st;
    HarmlessKeeps(pulled, workload, auth, true);
    MonitorHarmless(p.common, chart);
    HarmlessKeeps(Do(pulled, workload), MonitorCall(p.common, chart), auth, true);
  }

  lemma PredictorGatewayOrdered(st: State, p: Predictor, chart: ChartSettings, routeName: string -> string, auth: bool)
    requires (auth ==> chart.authEnabled) && Ordered(st.objects, auth, true)
    ensures Ordered(SyncPredictorGateway(st, p, chart, routeName).objects, auth, true)
  {
    hide Ordered, Do;
    if PredictorUsesGateway(p) {
      hide SyncGateway, PredictorBackendRef, PredictorHost, Keyed;
      HarmlessKeeps(st, Delete(BackendPolicy), auth, true);
      var cleared := if p.backendKeySecret == "" then Do(st, Delete(BackendPolicy)) else st;
      var keyed := Keyed(cleared, p.common, chart);
      if !DoAll(keyed, PredictorBackends(p)).failed { PredictorBackendsApplied(keyed, p); }
      GatewayKeepsOrder(cleared, p.common, p.common.name, chart, PredictorBackendRef(p, routeName), PredictorBackends(p), routeName, auth, true);
    } else if chart.gatewayEnabled {
      RemovalOrdered(st, auth);
    }
  }

  /** Removal takes the route away first. */
  lemma RemovalOrdered(st: State, auth: bool)
    requires Ordered(st.objects, auth, true)
    ensures Ordered(Do(Do(Do(CleanupGateway(st), Delete(BackendPolicy)), Delete(AIServiceBackend)), Delete(Backend)).objects, auth, true)
  {
    var unrouted := Do(st, Delete(AccessRoute));
    assert unrouted.failed || AccessRoute !in unrouted.objects;
  }

  /** The same for the llm topology, whose route needs no backend objects. */
  lemma LlmSyncOrdered(st: State, l: Llm, chart: ChartSettings, routeName: string -> string, auth: bool)
    requires (auth ==> chart.authEnabled) && Ordered(st.objects, auth, false)
    ensures Ordered(SyncLlm(st, l, chart, routeName).objects, auth, false)
  {
    hide SyncGateway, PoolRef, Ordered, Do, ServiceCall, SyncLlmWorkload;
    LlmWorkloadOrdered(st, l, chart, auth);
    var worked := SyncLlmWorkload(st, l, chart);
    if LlmUsesGateway(l) {
      HarmlessKeeps(worked, Delete(ExternalService), auth, false);
      GatewayKeepsOrder(Do(worked, Delete(ExternalService)), l.common, ServedModelName(l), chart, PoolRef(l), [], routeName, auth, false);
    } else {
      HarmlessKeeps(worked, Delete(AccessRoute), auth, false);
      HarmlessKeeps(Do(worked, Delete(AccessRoute)), Delete(TokenLimit), auth, false);
      ServiceHarmless(l.common, 8000, 8000);
      HarmlessKeeps(if chart.gatewayEnabled then CleanupGateway(worked) else worked, ServiceCall(l.common, 8000, 8000), auth, false);
    }
  }

  lemma LlmWorkloadOrdered(st: State, l: Llm, chart: ChartSettings, auth: bool)
    requires Ordered(st.objects, auth, false)
    ensures Ordered(SyncLlmWorkload(st, l, chart).objects, auth, false)
  {
    hide Ordered, Do, MonitorCall;
    var puller := Apply(ModelPuller, ModelPullerContent);
    HarmlessKeeps(st, puller, auth, false);
    var pulled := if chart.hfToken then Do(st, puller) else st;
    if l.config.Some? {
      HarmlessKeeps(pulled, Apply(LlmConfig, ConfigContent(l.config.value)), auth, false);
    }
    var configured := if l.config.Some? then Do(pulled, Apply(LlmConfig, ConfigContent(l.config.value))) else pulled;
    HarmlessKeeps(configured, Apply(Workload, LlmContent(l.llm)), auth, false);
    MonitorHarmless(l.common, chart);
    HarmlessKeeps(Do(configured, Apply(Workload, LlmContent(l.llm))), MonitorCall(l.common, chart), auth, false);
  }

  // ---------- runs ----------

  /** One sync attempt: the parameters and chart settings then in force, and how many of its
      calls succeed. */
  datatype PredictorAttempt = PredictorAttempt(p: Predictor, chart: ChartSettings, budget: nat)
  datatype LlmAttempt = LlmAttempt(l: Llm, chart: ChartSettings, budget: nat)

  /** Where the attempt after some earlier ones ends, from an empty cluster. */
  function PredictorAfter(earlier: seq<PredictorAttempt>, a: PredictorAttempt, routeName: string -> string): State
    decreases |earlier|, 1
  {
    SyncPredictor(State(RunPredictor(earlier, routeName), a.budget, false), a.p, a.chart, routeName)
  }

  function RunPredictor(attempts: seq<PredictorAttempt>, routeName: string -> string): Objects
    decreases |attempts|, 0
  {
    if attempts == [] then map[]
    else PredictorAfter(attempts[..|attempts| - 1], attempts[|attempts| - 1], routeName).objects
  }

  function LlmAfter(earlier: seq<LlmAttempt>, a: LlmAttempt, routeName: string -> string): State
    decreases |earlier|, 1
  {
    SyncLlm(State(RunLlm(earlier, routeName), a.budget, false), a.l, a.chart, routeName)
  }

  function RunLlm(attempts: seq<LlmAttempt>, routeName: string -> string): Objects
    decreases |attempts|, 0
  {
    if attempts == [] then map[]
    else LlmAfter(attempts[..|attempts| - 1], attempts[|attempts| - 1], routeName).objects
  }

  /** At every point of every run of complete and interrupted syncs, over any changes of the
      Instance's parameters and of the chart, a route has its backends; it also has its key
      (`auth`) when the chart required keys throughout. */
  lemma {:induction false} PredictorRunsOrdered(attempts: seq<PredictorAttempt>, routeName: string -> string, auth: bool)
    requires auth ==> forall i :: 0 <= i < |attempts| ==> attempts[i].chart.authEnabled
    ensures Ordered(RunPredictor(attempts, routeName), auth, true)
  {
    hide SyncPredictor;
    if attempts != [] {
      var init, last := attempts[..|attempts| - 1], attempts[|attempts| - 1];
      PredictorRunsOrdered(init, routeName, auth);
      PredictorSyncOrdered(State(RunPredictor(init, routeName), last.budget, false), last.p, last.chart, routeName, auth);
    }
  }

  lemma {:induction false} LlmRunsOrdered(attempts: seq<LlmAttempt>, routeName: string -> string)
    requires forall i :: 0 <= i < |attempts| ==> attempts[i].chart.authEnabled
    ensures Ordered(RunLlm(attempts, routeName), true, false)
  {
    hide SyncLlm;
    if attempts != [] {
      var init, last := attempts[..|attempts| - 1], attempts[|attempts| - 1];
      LlmRunsOrdered(init, routeName);
      LlmSyncOrdered(State(RunLlm(init, routeName), last.budget, false), last.l, last.chart, routeName, true);
    }
  }

  // ---------- history independence ----------

  const GATEWAY_KINDS := {AccessRoute, TokenLimit, Backend, AIServiceBackend, BackendPolicy, ExternalService}

  function Published(call: Call): Option<Content> {
    if call.Apply? then Some(call.content) else None
  }

  /** What a complete sync leaves of each kind, read off the parameters alone. */
  function PredictorTarget(p: Predictor, chart: ChartSettings, routeName: string -> string, kind: Kind): Option<Content> {
    var uses := PredictorUsesGateway(p);
    match kind
    case AccessRoute => if uses then Published(RouteCall(p.common, p.common.name, chart, PredictorBackendRef(p, routeName), routeName)) else None
    case TokenLimit => if uses then Published(TokenLimitCall(p.common, p.common.name, chart)) else None
    case Backend => if uses then Some(BackendContent(PredictorHost(p), 80)) else None
    case AIServiceBackend => if uses then Some(AIBackendContent(p.schema)) else None
    case BackendPolicy => if uses && p.backendKeySecret != "" then Some(BackendPolicyContent(p.backendKeySecret)) else None
    case _ => Published(ServiceCall(p.common, 80, TargetPort.ServicePort(p.spec)))
  }

  function LlmTarget(l: Llm, chart: ChartSettings, routeName: string -> string, kind: Kind): Option<Content> {
    var uses := LlmUsesGateway(l);
    match kind
    case AccessRoute => if uses then Published(RouteCall(l.common, ServedModelName(l), chart, PoolRef(l), routeName)) else None
    case TokenLimit => if uses then Published(TokenLimitCall(l.common, ServedModelName(l), chart)) else None
    case _ => if uses then None else Published(ServiceCall(l.common, 8000, 8000))
  }

  /** The gateway part of a sync: what it sets, and that it touches no other kind but the key. */
  lemma GatewayLeaves(st: State, c: Common, model: string, chart: ChartSettings, backendRef: Json, calls: seq<Call>,
                      routeName: string -> string)
    requires !SyncGateway(st, c, model, chart, backendRef, calls, routeName).failed
    ensures var after := SyncGateway(st, c, model, chart, backendRef, calls, routeName).objects;
      var keyed := Keyed(st, c, chart);
      && !st.failed && chart.gatewayEnabled
      && !DoAll(keyed, calls).failed
      && (forall kind :: kind != KeySecret ==> At(keyed.objects, kind) == At(st.objects, kind))
      && At(after, AccessRoute) == Published(RouteCall(c, model, chart, backendRef, routeName))
      && At(after, TokenLimit) == Published(TokenLimitCall(c, model, chart))
      && (forall kind :: kind != AccessRoute && kind != TokenLimit ==> At(after, kind) == At(DoAll(keyed, calls).objects, kind))
  {
    hide RouteSpec;
    var keyed := Keyed(st, c, chart);
    if keyed.failed { DoAllFailed(keyed, calls); }
  }

  lemma PredictorGatewayLeaves(st: State, p: Predictor, chart: ChartSettings, routeName: string -> string, kind: Kind)
    requires !SyncPredictorGateway(st, p, chart, routeName).failed && chart.gatewayEnabled
    requires kind in GATEWAY_KINDS && kind != ExternalService
    ensures At(SyncPredictorGateway(st, p, chart, routeName).objects, kind) == PredictorTarget(p, chart, routeName, kind)
  {
    hide SyncGateway, RouteCall, TokenLimitCall, PredictorBackends, PredictorBackendRef, PredictorHost, Keyed, ServiceCall, Do, DoAll;
    if PredictorUsesGateway(p) {
      var cleared := if p.backendKeySecret == "" then Do(st, Delete(BackendPolicy)) else st;
      GatewayLeaves(cleared, p.common, p.common.name, chart, PredictorBackendRef(p, routeName), PredictorBackends(p), routeName);
      if p.backendKeySecret == "" { Deleted(st, BackendPolicy); }
      PredictorBackendsApplied(Keyed(cleared, p.common, chart), p);
    } else {
      RemovalLeaves(st, kind);
    }
  }

  lemma Deleted(st: State, kind: Kind)
    requires !Do(st, Delete(kind)).failed
    ensures !st.failed && At(Do(st, Delete(kind)).objects, kind) == None
    ensures forall other :: other != kind ==> At(Do(st, Delete(kind)).objects, other) == At(st.objects, other)
  {
  }

  lemma RemovalLeaves(st: State, kind: Kind)
    requires kind in GATEWAY_KINDS && kind != ExternalService
    requires !Do(Do(Do(CleanupGateway(st), Delete(BackendPolicy)), Delete(AIServiceBackend)), Delete(Backend)).failed
    ensures At(Do(Do(Do(CleanupGateway(st), Delete(BackendPolicy)), Delete(AIServiceBackend)), Delete(Backend)).objects, kind) == None
  {
    hide Do;
    var unrouted := Do(st, Delete(AccessRoute));
    var cleaned := CleanupGateway(st);
    var unguarded := Do(cleaned, Delete(BackendPolicy));
    var unbacked := Do(unguarded, Delete(AIServiceBackend));
    Deleted(unbacked, Backend);
    Deleted(unguarded, AIServiceBackend);
    Deleted(cleaned, BackendPolicy);
    Deleted(unrouted, TokenLimit);
    Deleted(st, AccessRoute);
  }

  /** Wherever cleaning up stops, the route is not left without its token limit: it goes first. */
  lemma CleanupRouteFirst(st: State)
    ensures var after := CleanupGateway(st).objects;
      AccessRoute in st.objects && AccessRoute in after ==> after == st.objects
  {
  }

  /** Wherever registering stops, the token limit has changed only once the new route stands. */
  lemma LimitAfterRoute(st: State, c: Common, model: string, chart: ChartSettings, backendRef: Json, calls: seq<Call>,
                        routeName: string -> string)
    requires At(DoAll(Keyed(st, c, chart), calls).objects, TokenLimit) == At(st.objects, TokenLimit)
    ensures var after := SyncGateway(st, c, model, chart, backendRef, calls, routeName).objects;
      At(after, TokenLimit) != At(st.objects, TokenLimit) ==>
        At(after, AccessRoute) == Published(RouteCall(c, model, chart, backendRef, routeName))
  {
    hide RouteSpec, Keyed, DoAll;
  }

  lemma ServiceLeaves(st: State, c: Common, port: int, targetPort: int)
    requires !Do(st, ServiceCall(c, port, targetPort)).failed
    ensures var after := Do(st, ServiceCall(c, port, targetPort)).objects;
      && !st.failed
      && At(after, ExternalService) == Published(ServiceCall(c, port, targetPort))
      && forall kind :: kind != ExternalService ==> At(after, kind) == At(st.objects, kind)
  {
  }

  /** Another access path with the chart's gateway disabled: the gateway kinds are not touched. */
  lemma PredictorGatewayIdle(st: State, p: Predictor, chart: ChartSettings, routeName: string -> string)
    requires !SyncPredictorGateway(st, p, chart, routeName).failed && !chart.gatewayEnabled
    ensures SyncPredictorGateway(st, p, chart, routeName) == st && !PredictorUsesGateway(p)
  {
    hide PredictorBackends, PredictorBackendRef;
  }

  lemma OtherKind(st: State, call: Call, kind: Kind)
    requires !call.EnsureKey? && call.kind != kind
    ensures At(Do(st, call).objects, kind) == At(st.objects, kind)
  {
  }

  lemma PredictorWorkloadLeaves(st: State, p: Predictor, chart: ChartSettings, kind: Kind)
    requires kind in GATEWAY_KINDS
    ensures At(SyncPredictorWorkload(st, p, chart).objects, kind) == At(st.objects, kind)
  {
    hide Do;
    var puller, workload := Apply(ModelPuller, ModelPullerContent), Apply(Workload, PredictorContent(p.spec));
    var pulled := if p.hfServiceAccount then Do(st, puller) else st;
    OtherKind(st, puller, kind);
    OtherKind(pulled, workload, kind);
    OtherKind(Do(pulled, workload), MonitorCall(p.common, chart), kind);
  }

  /** What a complete sync leaves of each gateway kind and of the external Service. With the
      gateway enabled it is what the current parameters say, whatever was there before; with the
      gateway disabled that is so of the Service only, and the rest stays as it was. */
  lemma PredictorSyncLeaves(st: State, p: Predictor, chart: ChartSettings, routeName: string -> string, kind: Kind)
    requires !SyncPredictor(st, p, chart, routeName).failed && kind in GATEWAY_KINDS
    ensures At(SyncPredictor(st, p, chart, routeName).objects, kind) ==
      if chart.gatewayEnabled || kind == ExternalService then PredictorTarget(p, chart, routeName, kind) else At(st.objects, kind)
  {
    hide SyncPredictorGateway, SyncPredictorWorkload, ServiceCall, RouteCall, TokenLimitCall, PredictorBackendRef, PredictorHost, Do;
    var worked := SyncPredictorWorkload(st, p, chart);
    var gated := SyncPredictorGateway(worked, p, chart, routeName);
    ServiceLeaves(gated, p.common, 80, TargetPort.ServicePort(p.spec));
    if kind != ExternalService {
      if chart.gatewayEnabled {
        PredictorGatewayLeaves(worked, p, chart, routeName, kind);
      } else {
        PredictorGatewayIdle(worked, p, chart, routeName);
        PredictorWorkloadLeaves(st, p, chart, kind);
      }
    }
  }

  lemma LlmWorkloadLeaves(st: State, l: Llm, chart: ChartSettings, kind: Kind)
    requires kind in GATEWAY_KINDS
    ensures At(SyncLlmWorkload(st, l, chart).objects, kind) == At(st.objects, kind)
  {
    hide Do;
    var puller, workload := Apply(ModelPuller, ModelPullerContent), Apply(Workload, LlmContent(l.llm));
    var pulled := if chart.hfToken then Do(st, puller) else st;
    var configured := if l.config.Some? then Do(pulled, Apply(LlmConfig, ConfigContent(l.config.value))) else pulled;
    OtherKind(st, puller, kind);
    if l.config.Some? { OtherKind(pulled, Apply(LlmConfig, ConfigContent(l.config.value)), kind); }
    OtherKind(configured, workload, kind);
    OtherKind(Do(configured, workload), MonitorCall(l.common, chart), kind);
  }

  lemma LlmSyncLeaves(st: State, l: Llm, chart: ChartSettings, routeName: string -> string, kind: Kind)
    requires !SyncLlm(st, l, chart, routeName).failed && kind in {AccessRoute, TokenLimit, ExternalService}
    ensures At(SyncLlm(st, l, chart, routeName).objects, kind) ==
      if chart.gatewayEnabled || kind == ExternalService then LlmTarget(l, chart, routeName, kind) else At(st.objects, kind)
  {
    hide SyncGateway, RouteCall, TokenLimitCall, PoolRef, ServiceCall, SyncLlmWorkload, Do;
    var worked := SyncLlmWorkload(st, l, chart);
    LlmWorkloadLeaves(st, l, chart, kind);
    if LlmUsesGateway(l) {
      var cleared := Do(worked, Delete(ExternalService));
      GatewayLeaves(cleared, l.common, ServedModelName(l), chart, PoolRef(l), [], routeName);
      Deleted(worked, ExternalService);
    } else {
      ServiceLeaves(if chart.gatewayEnabled then CleanupGateway(worked) else worked, l.common, 8000, 8000);
      if chart.gatewayEnabled {
        Deleted(Do(worked, Delete(AccessRoute)), TokenLimit);
        Deleted(worked, AccessRoute);
      }
    }
  }

  /** Complete syncs with the same parameters and chart agree on every gateway kind and on the
      external Service, whatever complete and interrupted syncs ran before. */
  ghost predicate PredictorHistoryFree(p: Predictor, chart: ChartSettings, routeName: string -> string) {
    forall a: seq<PredictorAttempt>, b: seq<PredictorAttempt>, m: nat, n: nat, kind |
      && kind in GATEWAY_KINDS
      && !PredictorAfter(a, PredictorAttempt(p, chart, m), routeName).failed
      && !PredictorAfter(b, PredictorAttempt(p, chart, n), routeName).failed ::
      At(PredictorAfter(a, PredictorAttempt(p, chart, m), routeName).objects, kind)
      == At(PredictorAfter(b, PredictorAttempt(p, chart, n), routeName).objects, kind)
  }

  /** Exactly when the outcome does not depend on history: the chart's gateway is enabled, or the
      Instance uses it (and then the sync cannot complete without it). Otherwise the route of a
      sync under an earlier chart stays. */
  lemma HistoryFreeIff(p: Predictor, chart: ChartSettings, routeName: string -> string)
    ensures PredictorHistoryFree(p, chart, routeName) <==> chart.gatewayEnabled || PredictorUsesGateway(p)
  {
    hide SyncPredictor, PredictorTarget, RunPredictor;
    if chart.gatewayEnabled || PredictorUsesGateway(p) {
      forall a: seq<PredictorAttempt>, b: seq<PredictorAttempt>, m: nat, n: nat, kind |
        && kind in GATEWAY_KINDS
        && !PredictorAfter(a, PredictorAttempt(p, chart, m), routeName).failed
        && !PredictorAfter(b, PredictorAttempt(p, chart, n), routeName).failed
        ensures At(PredictorAfter(a, PredictorAttempt(p, chart, m), routeName).objects, kind)
             == At(PredictorAfter(b, PredictorAttempt(p, chart, n), routeName).objects, kind)
      {
        var x, y := State(RunPredictor(a, routeName), m, false), State(RunPredictor(b, routeName), n, false);
        PredictorCompletes(x, p, chart, routeName);
        PredictorSyncLeaves(x, p, chart, routeName, kind);
        PredictorSyncLeaves(y, p, chart, routeName, kind);
      }
    } else {
      RouteOutlivesGateway(p, chart, routeName);
    }
  }

  const CALLS := 12

  lemma {:induction false} DoAllBudget(st: State, calls: seq<Call>)
    requires !st.failed && st.budget >= |calls|
    ensures !DoAll(st, calls).failed && DoAll(st, calls).budget == st.budget - |calls|
  {
    if calls != [] { DoAllBudget(st, calls[..|calls| - 1]); }
  }

  lemma GatewayCompletes(st: State, c: Common, model: string, chart: ChartSettings, backendRef: Json, calls: seq<Call>,
                         routeName: string -> string)
    ensures !GatewayConfigured(chart) ==> SyncGateway(st, c, model, chart, backendRef, calls, routeName).failed
    ensures GatewayConfigured(chart) && !st.failed && st.budget >= |calls| + 3 ==>
      var after := SyncGateway(st, c, model, chart, backendRef, calls, routeName);
      !after.failed && after.budget >= st.budget - |calls| - 3
  {
    hide Effect, DoAll;
    if GatewayConfigured(chart) && !st.failed && st.budget >= |calls| + 3 {
      DoAllBudget(Keyed(st, c, chart), calls);
    }
  }

  /** A sync of an Instance that uses the gateway needs it configured in the chart; every other
      one completes when its calls succeed. */
  lemma PredictorCompletes(st: State, p: Predictor, chart: ChartSettings, routeName: string -> string)
    ensures PredictorUsesGateway(p) && !GatewayConfigured(chart) ==> SyncPredictor(st, p, chart, routeName).failed
    ensures (PredictorUsesGateway(p) ==> GatewayConfigured(chart)) && !st.failed && st.budget >= CALLS ==>
      !SyncPredictor(st, p, chart, routeName).failed
  {
    hide Effect, SyncGateway, PredictorBackendRef, PredictorHost, ServiceCall, MonitorCall;
    var worked := SyncPredictorWorkload(st, p, chart);
    var cleared := if p.backendKeySecret == "" then Do(worked, Delete(BackendPolicy)) else worked;
    GatewayCompletes(cleared, p.common, p.common.name, chart, PredictorBackendRef(p, routeName), PredictorBackends(p), routeName);
  }

  /** The chart with a configured gateway. */
  function Enabled(chart: ChartSettings): ChartSettings {
    chart.(gatewayEnabled := true, gateway := GATEWAY)
  }

  const GATEWAY := Gateway("gateway-system", "gateway", "")

  lemma EnabledIsConfigured(chart: ChartSettings)
    ensures GatewayConfigured(Enabled(chart))
  {
  }

  /** A complete sync through an enabled gateway, then the chart's gateway is disabled and a
      complete sync for another access path follows: the route stays. It would not be there
      without the first sync. */
  lemma RouteOutlivesGateway(p: Predictor, chart: ChartSettings, routeName: string -> string)
    requires !chart.gatewayEnabled && !PredictorUsesGateway(p)
    ensures var exposed := p.(common := p.common.(access := EnvoyAIGateway));
      var first, last := PredictorAttempt(exposed, Enabled(chart), CALLS), PredictorAttempt(p, chart, CALLS);
      && !PredictorAfter([], first, routeName).failed
      && !PredictorAfter([first], last, routeName).failed && !PredictorAfter([], last, routeName).failed
      && At(PredictorAfter([first], last, routeName).objects, AccessRoute)
         == Published(RouteCall(p.common, p.common.name, Enabled(chart), PredictorBackendRef(p, routeName), routeName))
      && At(PredictorAfter([], last, routeName).objects, AccessRoute) == None
  {
    hide SyncPredictor, GatewayConfigured;
    var exposed := p.(common := p.common.(access := EnvoyAIGateway));
    var first := PredictorAttempt(exposed, Enabled(chart), CALLS);
    var empty, reached := State(map[], CALLS, false), State(RunPredictor([first], routeName), CALLS, false);
    EnabledIsConfigured(chart);
    PredictorCompletes(empty, exposed, Enabled(chart), routeName);
    PredictorSyncLeaves(empty, exposed, Enabled(chart), routeName, AccessRoute);
    assert [first][..0] == [];
    SameRoute(p, exposed, Enabled(chart), routeName);
    PredictorCompletes(empty, p, chart, routeName);
    PredictorSyncLeaves(empty, p, chart, routeName, AccessRoute);
    PredictorCompletes(reached, p, chart, routeName);
    PredictorSyncLeaves(reached, p, chart, routeName, AccessRoute);
  }

  lemma SameRoute(p: Predictor, exposed: Predictor, chart: ChartSettings, routeName: string -> string)
    requires exposed == p.(common := p.common.(access := EnvoyAIGateway))
    ensures PredictorTarget(exposed, chart, routeName, AccessRoute)
      == Published(RouteCall(p.common, p.common.name, chart, PredictorBackendRef(p, routeName), routeName))
  {
  }

  // ---------- a chart that does not change ----------

  lemma PredictorSyncAbsent(st: State, p: Predictor, chart: ChartSettings, routeName: string -> string, kind: Kind)
    requires !chart.gatewayEnabled && kind in GATEWAY_KINDS && kind != ExternalService
    requires At(st.objects, kind) == None
    ensures At(SyncPredictor(st, p, chart, routeName).objects, kind) == None
  {
    hide PredictorBackends, PredictorBackendRef, SyncPredictorWorkload;
    PredictorWorkloadLeaves(st, p, chart, kind);
  }

  lemma {:induction false} DisabledRunsBare(attempts: seq<PredictorAttempt>, routeName: string -> string, kind: Kind)
    requires kind in GATEWAY_KINDS && kind != ExternalService
    requires forall i :: 0 <= i < |attempts| ==> !attempts[i].chart.gatewayEnabled
    ensures At(RunPredictor(attempts, routeName), kind) == None
  {
    hide SyncPredictor;
    if attempts != [] {
      var init, last := attempts[..|attempts| - 1], attempts[|attempts| - 1];
      DisabledRunsBare(init, routeName, kind);
      PredictorSyncAbsent(State(RunPredictor(init, routeName), last.budget, false), last.p, last.chart, routeName, kind);
    }
  }

  /** Under a chart whose gateway is never switched off, or was never on, a complete sync always
      leaves exactly what the current parameters say. */
  lemma SettledChartHistoryFree(earlier: seq<PredictorAttempt>, last: PredictorAttempt, routeName: string -> string, kind: Kind)
    requires kind in GATEWAY_KINDS && !PredictorAfter(earlier, last, routeName).failed
    requires !last.chart.gatewayEnabled ==> forall i :: 0 <= i < |earlier| ==> !earlier[i].chart.gatewayEnabled
    ensures At(PredictorAfter(earlier, last, routeName).objects, kind) == PredictorTarget(last.p, last.chart, routeName, kind)
  {
    hide SyncPredictor, RunPredictor;
    var before := State(RunPredictor(earlier, routeName), last.budget, false);
    PredictorSyncLeaves(before, last.p, last.chart, routeName, kind);
    if !last.chart.gatewayEnabled && kind != ExternalService {
      DisabledRunsBare(earlier, routeName, kind);
      PredictorCompletes(before, last.p, last.chart, routeName);
    }
  }

  // ---------- the llm topology ----------

  /** A call that leaves the objects behind a predictor's route alone. */
  predicate SparesBackends(call: Call) {
    var spared := {Backend, AIServiceBackend, BackendPolicy};
    (call.Apply? ==> call.kind !in spared) && (call.Delete? ==> call.kind !in spared)
  }

  lemma SparingCall(st: State, call: Call, kind: Kind)
    requires SparesBackends(call) && kind in {Backend, AIServiceBackend, BackendPolicy}
    ensures At(Do(st, call).objects, kind) == At(st.objects, kind)
  {
  }

  /** llm syncs never touch the backend kinds, complete or not. */
  lemma LlmLeavesBackends(st: State, l: Llm, chart: ChartSettings, routeName: string -> string, kind: Kind)
    requires kind in {Backend, AIServiceBackend, BackendPolicy}
    ensures At(SyncLlm(st, l, chart, routeName).objects, kind) == At(st.objects, kind)
  {
    hide Do, PoolRef, SyncLlmWorkload;
    LlmWorkloadLeaves(st, l, chart, kind);
    forall s: State, call: Call | SparesBackends(call) ensures At(Do(s, call).objects, kind) == At(s.objects, kind) {
      SparingCall(s, call, kind);
    }
  }

  /** So no run of llm syncs ever has them. */
  lemma {:induction false} LlmRunsNoBackends(attempts: seq<LlmAttempt>, routeName: string -> string, kind: Kind)
    requires kind in {Backend, AIServiceBackend, BackendPolicy}
    ensures At(RunLlm(attempts, routeName), kind) == None
  {
    hide SyncLlm;
    if attempts != [] {
      var init, last := attempts[..|attempts| - 1], attempts[|attempts| - 1];
      LlmRunsNoBackends(init, routeName, kind);
      LlmLeavesBackends(State(RunLlm(init, routeName), last.budget, false), last.l, last.chart, routeName, kind);
    }
  }

  /** In every run of llm syncs, after one complete sync with the gateway enabled, all gateway
      kinds are what the last parameters say: there are no backends, and the rest is the target. */
  lemma LlmHistoryFree(earlier: seq<LlmAttempt>, last: LlmAttempt, routeName: string -> string, kind: Kind)
    requires last.chart.gatewayEnabled && kind in GATEWAY_KINDS
    requires !LlmAfter(earlier, last, routeName).failed
    ensures At(LlmAfter(earlier, last, routeName).objects, kind) ==
      if kind in {AccessRoute, TokenLimit, ExternalService} then LlmTarget(last.l, last.chart, routeName, kind) else None
  {
    hide SyncLlm, LlmTarget, RunLlm;
    var before := State(RunLlm(earlier, routeName), last.budget, false);
    if kind in {AccessRoute, TokenLimit, ExternalService} {
      LlmSyncLeaves(before, last.l, last.chart, routeName, kind);
    } else {
      LlmLeavesBackends(before, last.l, last.chart, routeName, kind);
      LlmRunsNoBackends(earlier, routeName, kind);
    }
  }

  ghost predicate LlmHistoryFreeFor(l: Llm, chart: ChartSettings, routeName: string -> string) {
    forall a: seq<LlmAttempt>, b: seq<LlmAttempt>, m: nat, n: nat, kind |
      && kind in GATEWAY_KINDS
      && !LlmAfter(a, LlmAttempt(l, chart, m), routeName).failed
      && !LlmAfter(b, LlmAttempt(l, chart, n), routeName).failed ::
      At(LlmAfter(a, LlmAttempt(l, chart, m), routeName).objects, kind)
      == At(LlmAfter(b, LlmAttempt(l, chart, n), routeName).objects, kind)
  }

  lemma LlmCompletes(st: State, l: Llm, chart: ChartSettings, routeName: string -> string)
    ensures LlmUsesGateway(l) && !GatewayConfigured(chart) ==> SyncLlm(st, l, chart, routeName).failed
    ensures (LlmUsesGateway(l) ==> GatewayConfigured(chart)) && !st.failed && st.budget >= CALLS ==>
      !SyncLlm(st, l, chart, routeName).failed
  {
    hide Effect, SyncGateway, PoolRef, ServiceCall, MonitorCall;
    var cleared := Do(SyncLlmWorkload(st, l, chart), Delete(ExternalService));
    GatewayCompletes(cleared, l.common, ServedModelName(l), chart, PoolRef(l), [], routeName);
  }

  /** The same condition decides for the llm topology. */
  lemma LlmHistoryFreeIff(l: Llm, chart: ChartSettings, routeName: string -> string)
    ensures LlmHistoryFreeFor(l, chart, routeName) <==> chart.gatewayEnabled || LlmUsesGateway(l)
  {
    hide SyncLlm, LlmTarget, RunLlm;
    if chart.gatewayEnabled || LlmUsesGateway(l) {
      forall a: seq<LlmAttempt>, b: seq<LlmAttempt>, m: nat, n: nat, kind |
        && kind in GATEWAY_KINDS
        && !LlmAfter(a, LlmAttempt(l, chart, m), routeName).failed
        && !LlmAfter(b, LlmAttempt(l, chart, n), routeName).failed
        ensures At(LlmAfter(a, LlmAttempt(l, chart, m), routeName).objects, kind)
             == At(LlmAfter(b, LlmAttempt(l, chart, n), routeName).objects, kind)
      {
        LlmCompletes(State(RunLlm(a, routeName), m, false), l, chart, routeName);
        LlmHistoryFree(a, LlmAttempt(l, chart, m), routeName, kind);
        LlmHistoryFree(b, LlmAttempt(l, chart, n), routeName, kind);
      }
    } else {
      LlmRouteOutlivesGateway(l, chart, routeName);
    }
  }

  lemma LlmRouteOutlivesGateway(l: Llm, chart: ChartSettings, routeName: string -> string)
    requires !chart.gatewayEnabled && !LlmUsesGateway(l)
    ensures var exposed := l.(common := l.common.(access := EnvoyAIGateway));
      var first, last := LlmAttempt(exposed, Enabled(chart), CALLS), LlmAttempt(l, chart, CALLS);
      && !LlmAfter([], first, routeName).failed
      && !LlmAfter([first], last, routeName).failed && !LlmAfter([], last, routeName).failed
      && At(LlmAfter([first], last, routeName).objects, AccessRoute).Some?
      && At(LlmAfter([], last, routeName).objects, AccessRoute) == None
  {
    hide SyncLlm, GatewayConfigured;
    var exposed := l.(common := l.common.(access := EnvoyAIGateway));
    var first := LlmAttempt(exposed, Enabled(chart), CALLS);
    var empty, reached := State(map[], CALLS, false), State(RunLlm([first], routeName), CALLS, false);
    EnabledIsConfigured(chart);
    LlmCompletes(empty, exposed, Enabled(chart), routeName);
    LlmSyncLeaves(empty, exposed, Enabled(chart), routeName, AccessRoute);
    assert [first][..0] == [];
    LlmCompletes(empty, l, chart, routeName);
    LlmSyncLeaves(empty, l, chart, routeName, AccessRoute);
    LlmCompletes(reached, l, chart, routeName);
    LlmSyncLeaves(reached, l, chart, routeName, AccessRoute);
  }
}
