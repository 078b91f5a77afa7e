/** Exposing Instances on the shared Gateway: one route per model name, and what that means for
    an Instance's own key. */
module Access {
  import opened Text
  import opened ApiKeys
  import opened Json
  import opened Chart
  import opened Routes
  import opened GatewayKeys
  import opened GatewayGrants
  import opened GatewayAuth

  predicate TransportAllowed(chart: ChartSettings) {
    !chart.authEnabled || chart.https || chart.allowInsecureHttp
  }

  /** No other route attached to the gateway matches on the model. */
  ghost predicate ModelFree(routes: set<Route>, gateway: Gateway, ns: string, ownRoute: string, model: string) {
    forall r :: r in routes && !(r.ns == ns && r.name == ownRoute) ==> !Serves(r, gateway, model)
  }

  method ValidateAIGatewayAccess(chart: ChartSettings, routes: seq<Route>, ns: string, ownRoute: string, model: string)
    returns (ok: bool)
    ensures ok <==> TransportAllowed(chart) && ModelFree(Elements(routes), chart.gateway, ns, ownRoute, model)
  {
    if chart.authEnabled && !chart.https && !chart.allowInsecureHttp {
      return false;
    }
    for i := 0 to |routes|
      invariant forall j :: 0 <= j < i && !(routes[j].ns == ns && routes[j].name == ownRoute) ==>
        !Serves(routes[j], chart.gateway, model)
    {
      var route := routes[i];
      if route.ns == ns && route.name == ownRoute {
        continue;
      }
      var attached := RouteAttachedToGateway(route, chart.gateway);
      if !attached {
        continue;
      }
      var models := AIGatewayRouteModels(route);
      if model in models {
        assert route in Elements(routes);
        return false;
      }
    }
    return true;
  }

  /** With keys required, nothing is accepted over plain HTTP unless the chart exempts it; otherwise
      only a name that is taken stands in the way. */
  lemma TransportMeaning(routes: set<Route>, e: Event, chart: ChartSettings, routeName: string -> string)
    requires e.Expose?
    ensures chart.authEnabled && !chart.https && !chart.allowInsecureHttp ==> !IsAccepted(routes, e, chart, routeName)
    ensures !chart.authEnabled || chart.https || chart.allowInsecureHttp ==>
      (IsAccepted(routes, e, chart, routeName) <==>
        forall r :: r in routes && Serves(r, chart.gateway, e.model) ==> r.ns == e.ns && r.name == routeName(e.instance))
  {
  }

  // ---------- runs of atomic validate-and-sync steps ----------

  /** An Instance is exposed under a model name, if validation accepts it, or taken off the gateway. */
  datatype Event =
    | Expose(ns: string, instance: string, model: string, backendRef: Json)
    | Withdraw(ns: string, instance: string)

  ghost predicate IsAccepted(routes: set<Route>, e: Event, chart: ChartSettings, routeName: string -> string) {
    e.Expose? && TransportAllowed(chart) && ModelFree(routes, chart.gateway, e.ns, routeName(e.instance), e.model)
  }

  /** Server-side apply of a route: it replaces the one of its namespace and name. */
  ghost function ApplyRoute(routes: set<Route>, r: Route): set<Route> {
    DeleteRoute(routes, r.ns, r.name) + {r}
  }

  ghost function DeleteRoute(routes: set<Route>, ns: string, name: string): set<Route> {
    set r | r in routes && !(r.ns == ns && r.name == name)
  }

  function OwnRoute(e: Event, chart: ChartSettings, routeName: string -> string): Route
    requires e.Expose?
  {
    Route(e.ns, routeName(e.instance), RouteSpec(e.model, chart.gateway, e.backendRef))
  }

  ghost function Step(routes: set<Route>, e: Event, chart: ChartSettings, routeName: string -> string): set<Route> {
    match e
    case Expose(_, _, _, _) =>
      if IsAccepted(routes, e, chart, routeName) then ApplyRoute(routes, OwnRoute(e, chart, routeName)) else routes
    case Withdraw(ns, instance) => DeleteRoute(routes, ns, routeName(instance))
  }

  ghost function Run(routes: set<Route>, events: seq<Event>, chart: ChartSettings, routeName: string -> string): set<Route> {
    if events == [] then routes
    else Step(Run(routes, events[..|events| - 1], chart, routeName), events[|events| - 1], chart, routeName)
  }

  /** No two attached routes serve the same model name. */
  ghost predicate OneRoutePerModel(routes: set<Route>, gateway: Gateway) {
    forall r, q, model | r in routes && q in routes && Serves(r, gateway, model) && Serves(q, gateway, model) :: r == q
  }

  predicate NamedEvent(e: Event) {
    e.Expose? ==> e.model != ""
  }

  /** A route that serves one name keeps names unique exactly when no other route serves it. */
  lemma UniqueAfterApplyIff(routes: set<Route>, own: Route, gateway: Gateway, served: string)
    requires OneRoutePerModel(routes, gateway) && Attached(own, gateway) && RouteModels(own) == [served]
    ensures OneRoutePerModel(ApplyRoute(routes, own), gateway) <==> ModelFree(routes, gateway, own.ns, own.name, served)
  {
    hide RouteModels, Attached;
    var after := ApplyRoute(routes, own);
    assert Serves(own, gateway, served) && own in after;
    if OneRoutePerModel(after, gateway) {
      forall r | r in routes && !(r.ns == own.ns && r.name == own.name) ensures !Serves(r, gateway, served) {
        assert r in after;
      }
    }
    assert forall model :: Serves(own, gateway, model) ==> model == served;
    assert forall r :: r in after && r != own ==> r in routes && !(r.ns == own.ns && r.name == own.name);
  }

  lemma StepKeepsUnique(routes: set<Route>, e: Event, chart: ChartSettings, routeName: string -> string)
    requires chart.gateway.ns != "" && NamedEvent(e) && OneRoutePerModel(routes, chart.gateway)
    ensures OneRoutePerModel(Step(routes, e, chart, routeName), chart.gateway)
  {
    if IsAccepted(routes, e, chart, routeName) {
      var own := OwnRoute(e, chart, routeName);
      BuiltRoute(own.ns, own.name, e.model, chart.gateway, e.backendRef, chart.gateway);
      UniqueAfterApplyIff(routes, own, chart.gateway, e.model);
    }
  }

  /** In every run of atomic steps no two attached routes ever serve the same model name. */
  lemma {:induction false} ModelNamesUnique(routes: set<Route>, events: seq<Event>, chart: ChartSettings, routeName: string -> string)
    requires chart.gateway.ns != "" && OneRoutePerModel(routes, chart.gateway)
    requires forall i :: 0 <= i < |events| ==> NamedEvent(events[i])
    ensures OneRoutePerModel(Run(routes, events, chart, routeName), chart.gateway)
  {
    if events != [] {
      ModelNamesUnique(routes, events[..|events| - 1], chart, routeName);
      StepKeepsUnique(Run(routes, events[..|events| - 1], chart, routeName), events[|events| - 1], chart, routeName);
    }
  }

  // ---------- an Instance's own key ----------

  /** The Secret as the renderer sees it once the key of an Instance was created. */
  function CreatedKey(ns: string, instance: string, random: seq<byte>, value: string): KeySecret
    requires |random| == 10
  {
    var stored := Ensure(None, None, ns, instance, NewKeyId(random), value).0.value;
    KeySecret(ns, instance + "-ai-gateway-key", stored.id, stored.key, stored.models)
  }

  predicate InstanceName(s: string) {
    s != "" && forall i :: 0 <= i < |s| ==> !IsSpace(s[i]) && s[i] != ',' && s[i] != '/'
  }

  lemma OwnRefIsPlain(ns: string, instance: string)
    requires InstanceName(ns) && InstanceName(instance)
    ensures PlainRef(Slashed(ns, instance)) && '/' !in ns
  {
    var ref := Slashed(ns, instance);
    assert forall i :: 0 <= i < |ref| ==> ref[i] == '/' || ref[i] in ns || ref[i] in instance;
    assert ref[0] == ns[0] && ref[|ref| - 1] == instance[|instance| - 1];
  }

  lemma StandingRouteGrants(e: Event, chart: ChartSettings, routeName: string -> string, routes: set<Route>, own: KeySecret)
    requires chart.gateway.ns != "" && OneRoutePerModel(routes, chart.gateway)
    requires e.Expose? && NamedEvent(e) && InstanceName(e.ns) && InstanceName(e.instance)
    requires OwnRoute(e, chart, routeName) in routes
    requires own.ns == e.ns && own.models == Slashed(e.ns, e.instance)
    ensures Granted(own, routes, chart.gateway, routeName, e.model)
  {
    hide RouteModels, Attached, RouteSpec, ModelRefs, Slashed;
    var route := OwnRoute(e, chart, routeName);
    BuiltRoute(route.ns, route.name, e.model, chart.gateway, e.backendRef, chart.gateway);
    assert Serves(route, chart.gateway, e.model);
    OwnRefIsPlain(e.ns, e.instance);
    OwnRefParses(own.models);
    assert own.models in ModelRefs(own.models);
  }

  /** In every state that a run reaches, a well-formed key Secret of an Instance whose route stands
      reaches the Instance's model exactly when no other eligible Secret shares its ID or value. */
  lemma KeyReachesModel(start: set<Route>, events: seq<Event>, e: Event, chart: ChartSettings, routeName: string -> string,
                        secrets: seq<KeySecret>, routes: seq<Route>, placeholder: string, own: KeySecret)
    requires chart.gateway.ns != "" && OneRoutePerModel(start, chart.gateway)
    requires forall i :: 0 <= i < |events| ==> NamedEvent(events[i])
    requires e.Expose? && NamedEvent(e) && InstanceName(e.ns) && InstanceName(e.instance)
    requires ApiRoutes(routes) && Elements(routes) == Run(start, events, chart, routeName)
    requires OwnRoute(e, chart, routeName) in routes
    requires own in secrets && own.ns == e.ns && own.models == Slashed(e.ns, e.instance)
    requires ValidKeyId(own.id) && own.value != ""
    requires ApiSecrets(secrets) && forall s :: s in secrets ==> s.value != placeholder
    ensures var keys := Resolve(secrets, routes, chart.gateway, routeName);
      Allowed(CredentialsOf(placeholder, keys), PolicyOf(chart.gateway, keys), own.value, e.model)
      <==> !HasRival(own, Elements(secrets), Elements(routes), chart.gateway, routeName)
  {
    hide Resolve, Allowed, CredentialsOf, PolicyOf, HasRival, Granted, OneRoutePerModel, Run, OwnRoute, ValidKeyId, Authorized;
    ModelNamesUnique(start, events, chart, routeName);
    StandingRouteGrants(e, chart, routeName, Elements(routes), own);
    AuthorizedIffNoRival(own, Elements(secrets), Elements(routes), chart.gateway, routeName, e.model);
    ExactAuthorization(secrets, routes, chart.gateway, routeName, placeholder, own.value, e.model);
  }

  /** So it is for a key just created and an Instance just exposed. */
  lemma OwnKeyReachesOwnModel(start: set<Route>, events: seq<Event>, e: Event, chart: ChartSettings, routeName: string -> string,
                              secrets: seq<KeySecret>, routes: seq<Route>, placeholder: string, random: seq<byte>, value: string)
    requires chart.gateway.ns != "" && OneRoutePerModel(start, chart.gateway)
    requires forall i :: 0 <= i < |events| ==> NamedEvent(events[i])
    requires e.Expose? && NamedEvent(e) && InstanceName(e.ns) && InstanceName(e.instance)
    requires IsAccepted(Run(start, events, chart, routeName), e, chart, routeName)
    requires ApiRoutes(routes) && Elements(routes) == Run(start, events + [e], chart, routeName)
    requires |random| == 10 && value != "" && CreatedKey(e.ns, e.instance, random, value) in secrets
    requires ApiSecrets(secrets) && forall s :: s in secrets ==> s.value != placeholder
    ensures var keys, own := Resolve(secrets, routes, chart.gateway, routeName), CreatedKey(e.ns, e.instance, random, value);
      Allowed(CredentialsOf(placeholder, keys), PolicyOf(chart.gateway, keys), value, e.model)
      <==> !HasRival(own, Elements(secrets), Elements(routes), chart.gateway, routeName)
  {
    hide Resolve, Allowed, CredentialsOf, PolicyOf, HasRival, RouteSpec;
    var all := events + [e];
    assert all[..|all| - 1] == events;
    assert OwnRoute(e, chart, routeName) in Elements(routes);
    GeneratedIds(random, random);
    KeyReachesModel(start, all, e, chart, routeName, secrets, routes, placeholder, CreatedKey(e.ns, e.instance, random, value));
  }

  // ---------- runs in which validations and syncs interleave ----------

  /** Validation reads the routes; some time later the sync carries the event out, whatever
      happened in between. */
  datatype Stage = Validate(e: Event) | Carry(e: Event)

  ghost function StepStage(routes: set<Route>, st: Stage, chart: ChartSettings, routeName: string -> string): set<Route> {
    match st
    case Validate(_) => routes
    case Carry(Expose(ns, instance, model, backendRef)) => ApplyRoute(routes, OwnRoute(st.e, chart, routeName))
    case Carry(Withdraw(ns, instance)) => DeleteRoute(routes, ns, routeName(instance))
  }

  ghost function RunStages(start: set<Route>, stages: seq<Stage>, chart: ChartSettings, routeName: string -> string): set<Route> {
    if stages == [] then start
    else StepStage(RunStages(start, stages[..|stages| - 1], chart, routeName), stages[|stages| - 1], chart, routeName)
  }

  predicate Lands(st: Stage) { st.Carry? && st.e.Expose? }

  /** A route that lands finds its name free. */
  ghost predicate FindsFree(routes: set<Route>, st: Stage, chart: ChartSettings, routeName: string -> string) {
    Lands(st) ==> ModelFree(routes, chart.gateway, st.e.ns, routeName(st.e.instance), st.e.model)
  }

  lemma StageUniqueIff(routes: set<Route>, st: Stage, chart: ChartSettings, routeName: string -> string)
    requires chart.gateway.ns != "" && NamedEvent(st.e) && OneRoutePerModel(routes, chart.gateway)
    ensures OneRoutePerModel(StepStage(routes, st, chart, routeName), chart.gateway) <==> FindsFree(routes, st, chart, routeName)
  {
    if Lands(st) {
      var own := OwnRoute(st.e, chart, routeName);
      BuiltRoute(own.ns, own.name, st.e.model, chart.gateway, st.e.backendRef, chart.gateway);
      UniqueAfterApplyIff(routes, own, chart.gateway, st.e.model);
    }
  }

  /** Names are unique in every state of the run. */
  ghost predicate AlwaysUnique(start: set<Route>, stages: seq<Stage>, chart: ChartSettings, routeName: string -> string) {
    forall k | 0 <= k <= |stages| :: OneRoutePerModel(RunStages(start, stages[..k], chart, routeName), chart.gateway)
  }

  ghost predicate AllFindFree(start: set<Route>, stages: seq<Stage>, chart: ChartSettings, routeName: string -> string) {
    forall j | 0 <= j < |stages| :: FindsFree(RunStages(start, stages[..j], chart, routeName), stages[j], chart, routeName)
  }

  /** However validations and syncs interleave, names are unique in every state exactly when every
      route finds its name free at the moment it lands. */
  lemma {:induction false} AlwaysUniqueIff(start: set<Route>, stages: seq<Stage>, chart: ChartSettings, routeName: string -> string)
    requires chart.gateway.ns != "" && OneRoutePerModel(start, chart.gateway)
    requires forall i :: 0 <= i < |stages| ==> NamedEvent(stages[i].e)
    ensures AlwaysUnique(start, stages, chart, routeName) <==> AllFindFree(start, stages, chart, routeName)
  {
    hide AlwaysUnique, AllFindFree, OneRoutePerModel, FindsFree, StepStage;
    AlwaysUniqueLast(start, stages, chart, routeName);
    AllFindFreeLast(start, stages, chart, routeName);
    if stages != [] {
      var init, last := stages[..|stages| - 1], stages[|stages| - 1];
      AlwaysUniqueIff(start, init, chart, routeName);
      AlwaysUniqueLast(start, init, chart, routeName);
      if OneRoutePerModel(RunStages(start, init, chart, routeName), chart.gateway) {
        StageUniqueIff(RunStages(start, init, chart, routeName), last, chart, routeName);
      }
    }
  }

  lemma AlwaysUniqueLast(start: set<Route>, stages: seq<Stage>, chart: ChartSettings, routeName: string -> string)
    ensures AlwaysUnique(start, stages, chart, routeName) <==>
      && (stages != [] ==> AlwaysUnique(start, stages[..|stages| - 1], chart, routeName))
      && OneRoutePerModel(RunStages(start, stages, chart, routeName), chart.gateway)
  {
    hide OneRoutePerModel, RunStages;
    assert stages[..|stages|] == stages;
    if stages != [] {
      var init := stages[..|stages| - 1];
      assert forall k | 0 <= k <= |init| :: init[..k] == stages[..k];
    }
  }

  lemma AllFindFreeLast(start: set<Route>, stages: seq<Stage>, chart: ChartSettings, routeName: string -> string)
    ensures AllFindFree(start, stages, chart, routeName) <==>
      stages == [] || (
        var init, last := stages[..|stages| - 1], stages[|stages| - 1];
        AllFindFree(start, init, chart, routeName) && FindsFree(RunStages(start, init, chart, routeName), last, chart, routeName))
  {
    hide FindsFree, RunStages;
    if stages != [] {
      var init := stages[..|stages| - 1];
      assert forall k | 0 <= k < |init| :: init[..k] == stages[..k] && init[k] == stages[k];
    }
  }

  /** The stage changes the route of this namespace and name. */
  predicate Touches(st: Stage, ns: string, name: string, routeName: string -> string) {
    st.Carry? && st.e.ns == ns && routeName(st.e.instance) == name
  }

  /** At `n`, the route of this namespace and name stands as it landed at `l`. */
  ghost predicate StandsAt(stages: seq<Stage>, l: nat, n: nat, ns: string, name: string, model: string, routeName: string -> string) {
    && l < n <= |stages| && Lands(stages[l]) && stages[l].e.model == model && Touches(stages[l], ns, name, routeName)
    && forall m :: l < m < n ==> !Touches(stages[m], ns, name, routeName)
  }

  ghost predicate LandedSince(stages: seq<Stage>, i: nat, n: nat, ns: string, name: string, model: string, routeName: string -> string) {
    exists l: nat :: i <= l && StandsAt(stages, l, n, ns, name, model, routeName)
  }

  ghost predicate ServedBy(routes: set<Route>, ns: string, name: string, gateway: Gateway, model: string) {
    exists r :: r in routes && r.ns == ns && r.name == name && Serves(r, gateway, model)
  }

  /** A route that did not serve the model at `i` serves it at `n` iff it landed with it in
      between and stands. */
  lemma {:induction false} ServedIffStands(start: set<Route>, stages: seq<Stage>, i: nat, n: nat, ns: string, name: string, model: string,
                                           chart: ChartSettings, routeName: string -> string)
    requires chart.gateway.ns != "" && i <= n <= |stages|
    requires forall k :: 0 <= k < |stages| ==> NamedEvent(stages[k].e)
    requires !ServedBy(RunStages(start, stages[..i], chart, routeName), ns, name, chart.gateway, model)
    ensures ServedBy(RunStages(start, stages[..n], chart, routeName), ns, name, chart.gateway, model) <==>
      LandedSince(stages, i, n, ns, name, model, routeName)
    decreases n - i
  {
    hide Serves, RouteSpec, ServedBy, StepStage, NamedEvent;
    if i < n {
      var st, before := stages[n - 1], RunStages(start, stages[..n - 1], chart, routeName);
      ServedIffStands(start, stages, i, n - 1, ns, name, model, chart, routeName);
      assert stages[..n][..n - 1] == stages[..n - 1];
      StageServes(before, st, ns, name, model, chart, routeName);
      assert RunStages(start, stages[..n], chart, routeName) == StepStage(before, st, chart, routeName);
      if Touches(st, ns, name, routeName) {
        LandsOver(stages, i, n, ns, name, model, routeName);
      } else {
        StillStands(stages, i, n, ns, name, model, routeName);
      }
    }
  }

  lemma StillStands(stages: seq<Stage>, i: nat, n: nat, ns: string, name: string, model: string, routeName: string -> string)
    requires 0 < n <= |stages| && !Touches(stages[n - 1], ns, name, routeName)
    ensures LandedSince(stages, i, n, ns, name, model, routeName) <==> LandedSince(stages, i, n - 1, ns, name, model, routeName)
  {
    if LandedSince(stages, i, n, ns, name, model, routeName) {
      var l: nat :| i <= l && StandsAt(stages, l, n, ns, name, model, routeName);
      assert StandsAt(stages, l, n - 1, ns, name, model, routeName);
    }
    if LandedSince(stages, i, n - 1, ns, name, model, routeName) {
      var l: nat :| i <= l && StandsAt(stages, l, n - 1, ns, name, model, routeName);
      assert StandsAt(stages, l, n, ns, name, model, routeName);
    }
  }

  lemma LandsOver(stages: seq<Stage>, i: nat, n: nat, ns: string, name: string, model: string, routeName: string -> string)
    requires i < n <= |stages| && Touches(stages[n - 1], ns, name, routeName)
    ensures LandedSince(stages, i, n, ns, name, model, routeName) <==> Lands(stages[n - 1]) && stages[n - 1].e.model == model
  {
    if Lands(stages[n - 1]) && stages[n - 1].e.model == model {
      assert StandsAt(stages, n - 1, n, ns, name, model, routeName);
    }
    if LandedSince(stages, i, n, ns, name, model, routeName) {
      var l: nat :| i <= l && StandsAt(stages, l, n, ns, name, model, routeName);
      assert l == n - 1;
    }
  }

  lemma StageServes(routes: set<Route>, st: Stage, ns: string, name: string, model: string, chart: ChartSettings, routeName: string -> string)
    requires chart.gateway.ns != "" && NamedEvent(st.e)
    ensures ServedBy(StepStage(routes, st, chart, routeName), ns, name, chart.gateway, model) <==>
      if Touches(st, ns, name, routeName) then Lands(st) && st.e.model == model
      else ServedBy(routes, ns, name, chart.gateway, model)
  {
    hide RouteModels, Attached;
    if Lands(st) {
      var own := OwnRoute(st.e, chart, routeName);
      BuiltRoute(own.ns, own.name, st.e.model, chart.gateway, st.e.backendRef, chart.gateway);
      assert Serves(own, chart.gateway, model) <==> model == st.e.model;
      assert own in StepStage(routes, st, chart, routeName);
    }
    assert !Touches(st, ns, name, routeName) ==> forall r: Route :: r.ns == ns && r.name == name ==>
      (r in StepStage(routes, st, chart, routeName) <==> r in routes);
  }

  /** The route that lands at `j` was accepted by a validation at `i`. */
  ghost predicate AcceptedAt(start: set<Route>, stages: seq<Stage>, i: nat, j: nat, chart: ChartSettings, routeName: string -> string) {
    && i < j < |stages| && Lands(stages[j]) && stages[i] == Validate(stages[j].e)
    && IsAccepted(RunStages(start, stages[..i], chart, routeName), stages[j].e, chart, routeName)
  }

  /** Between the two, another Instance's route landed with the same model name and still stands. */
  ghost predicate Overtaken(stages: seq<Stage>, i: nat, j: nat, routeName: string -> string)
    requires j < |stages| && Lands(stages[j])
  {
    var e := stages[j].e;
    exists ns: string, name: string ::
      !(ns == e.ns && name == routeName(e.instance)) && LandedSince(stages, i, j, ns, name, e.model, routeName)
  }

  lemma FreeIffNotOvertaken(start: set<Route>, stages: seq<Stage>, i: nat, j: nat, chart: ChartSettings, routeName: string -> string)
    requires chart.gateway.ns != "" && AcceptedAt(start, stages, i, j, chart, routeName)
    requires forall k :: 0 <= k < |stages| ==> NamedEvent(stages[k].e)
    ensures FindsFree(RunStages(start, stages[..j], chart, routeName), stages[j], chart, routeName) <==>
      !Overtaken(stages, i, j, routeName)
  {
    hide Serves, LandedSince, StepStage, NamedEvent, ModelFree, ServedBy;
    var e, gateway := stages[j].e, chart.gateway;
    var seen, now := RunStages(start, stages[..i], chart, routeName), RunStages(start, stages[..j], chart, routeName);
    FreeIffUnserved(seen, gateway, e.ns, routeName(e.instance), e.model);
    forall ns: string, name: string | !(ns == e.ns && name == routeName(e.instance))
      ensures ServedBy(now, ns, name, gateway, e.model) <==>
        LandedSince(stages, i, j, ns, name, e.model, routeName)
    {
      assert !ServedBy(seen, ns, name, gateway, e.model);
      ServedIffStands(start, stages, i, j, ns, name, e.model, chart, routeName);
    }
    FreeIffUnserved(now, gateway, e.ns, routeName(e.instance), e.model);
  }

  lemma FreeIffUnserved(routes: set<Route>, gateway: Gateway, ns: string, ownRoute: string, model: string)
    ensures ModelFree(routes, gateway, ns, ownRoute, model) <==>
      forall ns': string, name: string :: !(ns' == ns && name == ownRoute) ==> !ServedBy(routes, ns', name, gateway, model)
  {
    hide Serves;
    if r :| r in routes && !(r.ns == ns && r.name == ownRoute) && Serves(r, gateway, model) {
      assert ServedBy(routes, r.ns, r.name, gateway, model);
    }
  }

  /** When every route that lands was accepted by an earlier validation, names are unique in every
      state exactly when no other Instance's route of the same name overtakes one in between. */
  lemma InterleavedUniqueIff(start: set<Route>, stages: seq<Stage>, chart: ChartSettings, routeName: string -> string)
    requires chart.gateway.ns != "" && OneRoutePerModel(start, chart.gateway)
    requires forall i :: 0 <= i < |stages| ==> NamedEvent(stages[i].e)
    requires forall j :: 0 <= j < |stages| && Lands(stages[j]) ==> exists i: nat :: AcceptedAt(start, stages, i, j, chart, routeName)
    ensures AlwaysUnique(start, stages, chart, routeName) <==>
      forall i: nat, j: nat :: AcceptedAt(start, stages, i, j, chart, routeName) ==> !Overtaken(stages, i, j, routeName)
  {
    hide AlwaysUnique, FindsFree, Overtaken, NamedEvent, RunStages;
    AlwaysUniqueIff(start, stages, chart, routeName);
    forall i: nat, j: nat | AcceptedAt(start, stages, i, j, chart, routeName)
      ensures FindsFree(RunStages(start, stages[..j], chart, routeName), stages[j], chart, routeName) <==> !Overtaken(stages, i, j, routeName)
    {
      FreeIffNotOvertaken(start, stages, i, j, chart, routeName);
    }
    forall j | 0 <= j < |stages| && !Lands(stages[j])
      ensures FindsFree(RunStages(start, stages[..j], chart, routeName), stages[j], chart, routeName)
    {
      LandsNot(RunStages(start, stages[..j], chart, routeName), stages[j], chart, routeName);
    }
  }

  lemma LandsNot(routes: set<Route>, st: Stage, chart: ChartSettings, routeName: string -> string)
    requires !Lands(st)
    ensures FindsFree(routes, st, chart, routeName)
  {
  }

  /** So two Instances that are validated for one name before either is synced are both accepted,
      and then both serve it. */
  lemma RacingValidationsDuplicate(start: set<Route>, chart: ChartSettings, routeName: string -> string, a: Event, b: Event)
    requires chart.gateway.ns != "" && OneRoutePerModel(start, chart.gateway) && NamedEvent(a) && NamedEvent(b)
    requires IsAccepted(start, a, chart, routeName) && IsAccepted(start, b, chart, routeName)
    requires a.model == b.model && !(a.ns == b.ns && routeName(a.instance) == routeName(b.instance))
    ensures var stages := [Validate(a), Validate(b), Carry(a), Carry(b)];
      && AcceptedAt(start, stages, 0, 2, chart, routeName) && AcceptedAt(start, stages, 1, 3, chart, routeName)
      && !AlwaysUnique(start, stages, chart, routeName)
  {
    hide RouteSpec;
    var stages := [Validate(a), Validate(b), Carry(a), Carry(b)];
    assert stages[..1][..0] == [] && stages[..1][0] == Validate(a);
    assert RunStages(start, stages[..1], chart, routeName) == start;
    assert AcceptedAt(start, stages, 0, 2, chart, routeName) && AcceptedAt(start, stages, 1, 3, chart, routeName);
    assert StandsAt(stages, 2, 3, a.ns, routeName(a.instance), b.model, routeName);
    assert LandedSince(stages, 1, 3, a.ns, routeName(a.instance), b.model, routeName);
    assert Overtaken(stages, 1, 3, routeName);
    FreeIffNotOvertaken(start, stages, 1, 3, chart, routeName);
    AlwaysUniqueIff(start, stages, chart, routeName);
  }

  /** Then the rendering fails closed: a name that two attached routes serve is allowed to nobody. */
  lemma DuplicateNameDenied(secrets: seq<KeySecret>, routes: seq<Route>, gateway: Gateway, routeName: string -> string,
                            placeholder: string, r: Route, q: Route, value: string, model: string)
    requires ApiSecrets(secrets) && ApiRoutes(routes) && forall s :: s in secrets ==> s.value != placeholder
    requires r in routes && q in routes && r != q && Serves(r, gateway, model) && Serves(q, gateway, model)
    ensures var keys := Resolve(secrets, routes, gateway, routeName);
      !Allowed(CredentialsOf(placeholder, keys), PolicyOf(gateway, keys), value, model)
  {
    ExactAuthorization(secrets, routes, gateway, routeName, placeholder, value, model);
    assert r in Elements(routes) && q in Elements(routes);
    assert forall s :: !Granted(s, Elements(routes), gateway, routeName, model);
  }

  // ---------- a route that is not local ----------

  function Plain(name: string): string { name }

  /** The Secret's one reference is to the Instance behind `route`, which serves one model. */
  ghost predicate RefersTo(s: KeySecret, route: Route, gateway: Gateway, model: string) {
    && InstanceName(s.ns) && InstanceName(route.name) && s.models == Slashed(s.ns, route.name)
    && route.ns == s.ns && Attached(route, gateway) && RouteModels(route) == [model]
  }

  lemma OneRefGrant(s: KeySecret, route: Route, routes: set<Route>, gateway: Gateway, model: string)
    requires RefersTo(s, route, gateway, model) && OnlyServer(route, routes, gateway, model)
    ensures Granted(s, routes, gateway, Plain, model)
  {
    OwnRefIsPlain(s.ns, route.name);
    OwnRefParses(s.models);
    assert Slashed(s.ns, route.name) in ModelRefs(s.models) && route.name == Plain(route.name);
  }

  lemma OneRefOnly(s: KeySecret, route: Route, routes: set<Route>, gateway: Gateway, model: string, other: string)
    requires RefersTo(s, route, gateway, model) && Granted(s, routes, gateway, Plain, other)
    requires forall r :: r in routes && r.ns == s.ns && r.name == route.name ==> r == route
    ensures other == model && OnlyServer(route, routes, gateway, model)
  {
    OwnRefIsPlain(s.ns, route.name);
    OwnRefParses(s.models);
    var i: string, r: Route :| i != "" && Slashed(s.ns, i) in ModelRefs(s.models) && r.ns == s.ns && r.name == Plain(i)
      && OnlyServer(r, routes, gateway, other);
    SlashedInjective(s.ns, i, s.ns, route.name);
  }

  /** Two Secrets share an ID and refer to different Instances. A second route on one's model
      takes that Secret's only grant, and so frees the other's key on its own model. */
  ghost predicate FreedByDuplicate(s: KeySecret, t: KeySecret, x: Route, y: Route, z: Route, gateway: Gateway, mx: string, my: string) {
    && RefersTo(s, x, gateway, mx) && RefersTo(t, y, gateway, my) && mx != my
    && s != t && s.id == t.id && ValidKeyId(s.id) && s.value != "" && t.value != ""
    && x.name != y.name && z.ns != y.ns && Attached(z, gateway) && RouteModels(z) == [my]
  }

  lemma RivalBefore(s: KeySecret, t: KeySecret, x: Route, y: Route, z: Route, gateway: Gateway, mx: string, my: string,
                    secrets: set<KeySecret>, routes: set<Route>)
    requires FreedByDuplicate(s, t, x, y, z, gateway, mx, my)
    requires t in secrets && y in routes && forall r :: r in routes ==> r == x || r == y
    ensures HasRival(s, secrets, routes, gateway, Plain)
  {
    assert OnlyServer(y, routes, gateway, my);
    OneRefGrant(t, y, routes, gateway, my);
    assert Eligible(t, routes, gateway, Plain) && Clash(s, t);
  }

  lemma RivalGone(s: KeySecret, t: KeySecret, x: Route, y: Route, z: Route, gateway: Gateway, mx: string, my: string,
                  secrets: set<KeySecret>, routes: set<Route>)
    requires FreedByDuplicate(s, t, x, y, z, gateway, mx, my)
    requires y in routes && z in routes && forall r :: r in routes ==> r == x || r == y || r == z
    requires forall u :: u in secrets ==> u == s || u == t
    ensures !HasRival(s, secrets, routes, gateway, Plain)
  {
    hide RouteModels, Attached, ValidKeyId, InstanceName, Slashed, Granted;
    if HasRival(s, secrets, routes, gateway, Plain) {
      var u :| u in secrets && u != s && Eligible(u, routes, gateway, Plain) && Clash(s, u);
      var other :| Granted(u, routes, gateway, Plain, other);
      OneRefOnly(t, y, routes, gateway, my, other);
    }
  }

  lemma NotLocalAt(s: KeySecret, secrets: set<KeySecret>, routes: set<Route>, z: Route, gateway: Gateway, model: string)
    requires s in secrets && ValidKeyId(s.id) && s.value != ""
    requires !Serves(z, gateway, model) && Granted(s, routes, gateway, Plain, model)
    requires HasRival(s, secrets, routes, gateway, Plain) && !HasRival(s, secrets, routes + {z}, gateway, Plain)
    ensures !RouteLocal(secrets, routes, z, gateway, Plain)
  {
    BesideUnchanged(s, secrets, routes, z, gateway, Plain, model);
  }

  lemma DuplicateFreesRival(s: KeySecret, t: KeySecret, x: Route, y: Route, z: Route, gateway: Gateway, mx: string, my: string,
                            secrets: set<KeySecret>, routes: set<Route>)
    requires FreedByDuplicate(s, t, x, y, z, gateway, mx, my)
    requires forall u :: u in secrets <==> u == s || u == t
    requires forall r :: r in routes <==> r == x || r == y
    ensures !RouteLocal(secrets, routes, z, gateway, Plain)
  {
    hide Granted, HasRival, RouteModels, Attached, ValidKeyId, RouteLocal, InstanceName, Slashed;
    RivalBefore(s, t, x, y, z, gateway, mx, my, secrets, routes);
    RivalGone(s, t, x, y, z, gateway, mx, my, secrets, routes + {z});
    assert OnlyServer(x, routes, gateway, mx);
    OneRefGrant(s, x, routes, gateway, mx);
    NotLocalAt(s, secrets, routes, z, gateway, mx);
  }

  lemma RefersToBuilt(s: KeySecret, name: string, model: string, gateway: Gateway)
    requires gateway.ns != "" && model != "" && InstanceName(s.ns) && InstanceName(name) && s.models == Slashed(s.ns, name)
    ensures RefersTo(s, Route(s.ns, name, RouteSpec(model, gateway, Null)), gateway, model)
  {
    BuiltRoute(s.ns, name, model, gateway, Null, gateway);
  }

  const GATEWAY := Gateway("gw", "gw", "")

  function ModelRoute(ns: string, name: string, model: string): Route {
    Route(ns, name, RouteSpec(model, GATEWAY, Null))
  }

  /** A concrete case in which adding a route changes what is allowed on another route's model. */
  lemma RouteNotAlwaysLocal()
    ensures !RouteLocal({KeySecret("a", "s", "k_1", "v", "a/x"), KeySecret("a", "t", "k_1", "w", "a/y")},
      {ModelRoute("a", "x", "mx"), ModelRoute("a", "y", "my")}, ModelRoute("b", "z", "my"), GATEWAY, Plain)
  {
    hide RouteSpec, RouteModels, Attached, RefersTo, RouteLocal;
    var s, t := KeySecret("a", "s", "k_1", "v", "a/x"), KeySecret("a", "t", "k_1", "w", "a/y");
    assert Slashed("a", "x") == "a/x" && Slashed("a", "y") == "a/y";
    RefersToBuilt(s, "x", "mx", GATEWAY);
    RefersToBuilt(t, "y", "my", GATEWAY);
    BuiltRoute("b", "z", "my", GATEWAY, Null, GATEWAY);
    var x, y, z := ModelRoute("a", "x", "mx"), ModelRoute("a", "y", "my"), ModelRoute("b", "z", "my");
    assert "mx"[1] != "my"[1] && s.value[0] != t.value[0] && x.name[0] != y.name[0] && z.ns[0] != y.ns[0];
    DuplicateFreesRival(s, t, x, y, z, GATEWAY, "mx", "my", {s, t}, {x, y});
  }
}
