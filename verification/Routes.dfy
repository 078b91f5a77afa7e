/** AI Gateway routes: what the provider builds, and what it reads out of any route. */
module Routes {
  import opened Text
  import opened Json

  const MODEL_HEADER := "x-ai-eg-model"
  const GATEWAY_KIND := "Gateway"
  const GATEWAY_GROUP := "gateway.networking.k8s.io"

  /** An AIGatewayRoute object; `spec` is Null when it has none. */
  datatype Route = Route(ns: string, name: string, spec: Json)

  /** The shared Gateway; an empty listener name attaches to every listener. */
  datatype Gateway = Gateway(ns: string, name: string, listener: string)

  // ---------- the models a route matches on ----------

  predicate IsModelMatch(header: Json) {
    var kind := Chars(Field(header, "type"));
    EqualFold(Chars(Field(header, "name")), MODEL_HEADER) && (kind == "" || kind == "Exact")
    && Chars(Field(header, "value")) != ""
  }

  function HeaderModels(header: Json): seq<string> {
    if IsModelMatch(header) then [Chars(Field(header, "value"))] else []
  }

  /** A field of an object that is absent, not a string, or empty. */
  predicate NoText(j: Json, key: string) {
    !(j.Obj? && key in j.fields && j.fields[key].Str?) || j.fields[key] == Str("")
  }

  predicate TextIs(j: Json, key: string, text: string) {
    j.Obj? && key in j.fields && j.fields[key] == Str(text)
  }

  /** A header condition names a model exactly when it is on the model header, in any case, matches
      exactly or does not say how, and has that non-empty value. */
  lemma HeaderMeaning(header: Json, model: string)
    ensures model in HeaderModels(header) <==>
      && model != "" && TextIs(header, "value", model)
      && (NoText(header, "type") || TextIs(header, "type", "Exact"))
      && (exists name: string :: CaseVariant(name, "x-ai-eg-model") && TextIs(header, "name", name))
  {
    var name := Chars(Field(header, "name"));
    FoldMeaning(name, "x-ai-eg-model");
    KindMeaning(header, "type", "Exact");
    assert model in HeaderModels(header) ==> TextIs(header, "name", name);
    assert forall other: string :: TextIs(header, "name", other) ==> other == name;
  }

  lemma KindMeaning(j: Json, key: string, text: string)
    requires text != ""
    ensures Chars(Field(j, key)) == "" <==> NoText(j, key)
    ensures Chars(Field(j, key)) == text <==> TextIs(j, key, text)
  {
  }

  function MatchModels(headers: seq<Json>): seq<string> {
    if headers == [] then [] else MatchModels(headers[..|headers| - 1]) + HeaderModels(headers[|headers| - 1])
  }

  function RuleModels(matches: seq<Json>): seq<string> {
    if matches == [] then []
    else RuleModels(matches[..|matches| - 1]) + MatchModels(Items(Field(matches[|matches| - 1], "headers")))
  }

  function RulesModels(rules: seq<Json>): seq<string> {
    if rules == [] then []
    else RulesModels(rules[..|rules| - 1]) + RuleModels(Items(Field(rules[|rules| - 1], "matches")))
  }

  function RouteModels(route: Route): seq<string> {
    RulesModels(Items(Field(route.spec, "rules")))
  }

  lemma MatchModelsNext(headers: seq<Json>, n: nat)
    requires n < |headers|
    ensures MatchModels(headers[..n + 1]) == MatchModels(headers[..n]) + HeaderModels(headers[n])
  {
    assert headers[..n + 1][..n] == headers[..n];
  }

  lemma RuleModelsNext(matches: seq<Json>, n: nat)
    requires n < |matches|
    ensures RuleModels(matches[..n + 1]) == RuleModels(matches[..n]) + MatchModels(Items(Field(matches[n], "headers")))
  {
    assert matches[..n + 1][..n] == matches[..n];
  }

  lemma RulesModelsNext(rules: seq<Json>, n: nat)
    requires n < |rules|
    ensures RulesModels(rules[..n + 1]) == RulesModels(rules[..n]) + RuleModels(Items(Field(rules[n], "matches")))
  {
    assert rules[..n + 1][..n] == rules[..n];
  }

  method AIGatewayRouteModels(route: Route) returns (models: seq<string>)
    ensures models == RouteModels(route)
  {
    var rules := Items(Field(route.spec, "rules"));
    models := [];
    for i := 0 to |rules|
      invariant models == RulesModels(rules[..i])
    {
      models := AppendRuleModels(models, Items(Field(rules[i], "matches")));
      RulesModelsNext(rules, i);
    }
    assert rules[..|rules|] == rules;
  }

  method AppendRuleModels(found: seq<string>, matches: seq<Json>) returns (models: seq<string>)
    ensures models == found + RuleModels(matches)
  {
    models := found;
    for j := 0 to |matches|
      invariant models == found + RuleModels(matches[..j])
    {
      models := AppendMatchModels(models, Items(Field(matches[j], "headers")));
      RuleModelsNext(matches, j);
      ConcatAssociates(found, RuleModels(matches[..j]), MatchModels(Items(Field(matches[j], "headers"))));
    }
    assert matches[..|matches|] == matches;
  }

  method AppendMatchModels(found: seq<string>, headers: seq<Json>) returns (models: seq<string>)
    ensures models == found + MatchModels(headers)
  {
    models := found;
    for k := 0 to |headers|
      invariant models == found + MatchModels(headers[..k])
    {
      MatchModelsNext(headers, k);
      ConcatAssociates(found, MatchModels(headers[..k]), HeaderModels(headers[k]));
      if IsModelMatch(headers[k]) {
        models := models + [Chars(Field(headers[k], "value"))];
      }
    }
    assert headers[..|headers|] == headers;
  }

  /** The route lists, somewhere, a non-empty exact match of the model header on `model`. */
  ghost predicate MatchesModel(route: Route, model: string) {
    exists rule, match_, header ::
      && rule in Items(Field(route.spec, "rules"))
      && match_ in Items(Field(rule, "matches"))
      && header in Items(Field(match_, "headers"))
      && model in HeaderModels(header)
  }

  lemma {:induction false} MatchModelsMeaning(headers: seq<Json>, model: string)
    ensures model in MatchModels(headers) <==> exists header :: header in headers && model in HeaderModels(header)
  {
    if headers != [] {
      MatchModelsMeaning(headers[..|headers| - 1], model);
      LastMember(headers);
    }
  }

  lemma {:induction false} RuleModelsMeaning(matches: seq<Json>, model: string)
    ensures model in RuleModels(matches) <==>
      exists match_ :: match_ in matches && model in MatchModels(Items(Field(match_, "headers")))
  {
    if matches != [] {
      RuleModelsMeaning(matches[..|matches| - 1], model);
      LastMember(matches);
    }
  }

  lemma {:induction false} RulesModelsMeaning(rules: seq<Json>, model: string)
    ensures model in RulesModels(rules) <==>
      exists rule :: rule in rules && model in RuleModels(Items(Field(rule, "matches")))
  {
    if rules != [] {
      RulesModelsMeaning(rules[..|rules| - 1], model);
      LastMember(rules);
    }
  }

  lemma RouteModelsMeaning(route: Route, model: string)
    ensures model in RouteModels(route) <==> MatchesModel(route, model)
  {
    var rules := Items(Field(route.spec, "rules"));
    RulesModelsMeaning(rules, model);
    if model in RouteModels(route) {
      var rule :| rule in rules && model in RuleModels(Items(Field(rule, "matches")));
      RuleModelsMeaning(Items(Field(rule, "matches")), model);
      var m :| m in Items(Field(rule, "matches")) && model in MatchModels(Items(Field(m, "headers")));
      MatchModelsMeaning(Items(Field(m, "headers")), model);
    }
    if MatchesModel(route, model) {
      var rule, m, header :| rule in rules && m in Items(Field(rule, "matches"))
        && header in Items(Field(m, "headers")) && model in HeaderModels(header);
      MatchModelsMeaning(Items(Field(m, "headers")), model);
      RuleModelsMeaning(Items(Field(rule, "matches")), model);
    }
  }

  // ---------- attachment ----------

  predicate ParentIs(parent: Json, routeNs: string, gateway: Gateway) {
    var ns, kind := Chars(Field(parent, "namespace")), Chars(Field(parent, "kind"));
    && Chars(Field(parent, "name")) == gateway.name
    && (if ns == "" then routeNs else ns) == gateway.ns
    && (kind == "" || kind == GATEWAY_KIND)
  }

  predicate Attached(route: Route, gateway: Gateway) {
    exists parent :: parent in Items(Field(route.spec, "parentRefs")) && ParentIs(parent, route.ns, gateway)
  }

  /** A parent reference is to the gateway exactly when it has its name, its namespace (the route's
      own where it has none) and the kind Gateway or none. */
  lemma ParentMeaning(parent: Json, routeNs: string, gateway: Gateway)
    ensures ParentIs(parent, routeNs, gateway) <==>
      && (TextIs(parent, "name", gateway.name) || (gateway.name == "" && NoText(parent, "name")))
      && (if NoText(parent, "namespace") then routeNs == gateway.ns else TextIs(parent, "namespace", gateway.ns))
      && (NoText(parent, "kind") || TextIs(parent, "kind", "Gateway"))
  {
    KindMeaning(parent, "kind", "Gateway");
    if gateway.name != "" { KindMeaning(parent, "name", gateway.name); }
    if gateway.ns != "" { KindMeaning(parent, "namespace", gateway.ns); }
  }

  method RouteAttachedToGateway(route: Route, gateway: Gateway) returns (attached: bool)
    ensures attached == Attached(route, gateway)
  {
    var parents := Items(Field(route.spec, "parentRefs"));
    for i := 0 to |parents|
      invariant forall parent :: parent in parents[..i] ==> !ParentIs(parent, route.ns, gateway)
    {
      if ParentIs(parents[i], route.ns, gateway) {
        return true;
      }
      assert parents[..i + 1] == parents[..i] + [parents[i]];
    }
    assert parents[..|parents|] == parents;
    return false;
  }

  /** The route is attached to the gateway and matches on the model. */
  predicate Serves(route: Route, gateway: Gateway, model: string) {
    Attached(route, gateway) && model in RouteModels(route)
  }

  // ---------- the route the provider builds ----------

  function ParentRef(gateway: Gateway): Json {
    Obj((if gateway.listener != "" then map["sectionName" := Str(gateway.listener)] else map[])
      + map["group" := Str(GATEWAY_GROUP), "kind" := Str(GATEWAY_KIND), "namespace" := Str(gateway.ns), "name" := Str(gateway.name)])
  }

  function ModelMatch(model: string): Json {
    Obj(map["type" := Str("Exact"), "name" := Str(MODEL_HEADER), "value" := Str(model)])
  }

  function Cost(key: string, kind: string): Json {
    Obj(map["metadataKey" := Str(key), "type" := Str(kind)])
  }

  function RouteRule(model: string, backendRef: Json): Json {
    Obj(map["backendRefs" := List([backendRef]),
            "timeouts" := Obj(map["request" := Str("60s")]),
            "matches" := List([Obj(map["headers" := List([ModelMatch(model)])])])])
  }

  function RouteSpec(model: string, gateway: Gateway, backendRef: Json): Json {
    Obj(map["llmRequestCosts" := List([Cost("llm_input_token", "InputToken"), Cost("llm_output_token", "OutputToken"),
                                       Cost("llm_total_token", "TotalToken")]),
            "rules" := List([RouteRule(model, backendRef)]),
            "parentRefs" := List([ParentRef(gateway)])])
  }

  /** What the built route holds: one rule, which forwards to the backend it was built for within
      60 seconds, the three token costs, and one parent with the gateway's listener, if it has one. */
  lemma RouteFields(model: string, gateway: Gateway, backendRef: Json)
    ensures var spec := RouteSpec(model, gateway, backendRef);
      && spec.Obj? && spec.fields.Keys == {"rules", "parentRefs", "llmRequestCosts"}
      && var rules, parents := Items(spec.fields["rules"]), Items(spec.fields["parentRefs"]);
      && |rules| == 1 && rules[0].Obj? && |parents| == 1
      && "backendRefs" in rules[0].fields && rules[0].fields["backendRefs"] == List([backendRef])
      && "timeouts" in rules[0].fields && rules[0].fields["timeouts"] == Obj(map["request" := Str("60s")])
    ensures var spec := RouteSpec(model, gateway, backendRef);
      spec.fields["llmRequestCosts"] == List([
        Obj(map["metadataKey" := Str("llm_input_token"), "type" := Str("InputToken")]),
        Obj(map["metadataKey" := Str("llm_output_token"), "type" := Str("OutputToken")]),
        Obj(map["metadataKey" := Str("llm_total_token"), "type" := Str("TotalToken")])])
  {
    hide ParentRef, ModelMatch;
  }

  /** Its one condition is an exact match of the model header. */
  lemma RouteMatch(model: string, gateway: Gateway, backendRef: Json)
    ensures var rule := Items(Field(RouteSpec(model, gateway, backendRef), "rules"))[0];
      Field(rule, "matches") == List([Obj(map["headers" := List([
        Obj(map["type" := Str("Exact"), "name" := Str("x-ai-eg-model"), "value" := Str(model)])])])])
  {
    hide ParentRef;
  }

  lemma RouteParent(model: string, gateway: Gateway, backendRef: Json)
    ensures Items(Field(RouteSpec(model, gateway, backendRef), "parentRefs")) == [ParentRef(gateway)]
    ensures var parent := ParentRef(gateway);
      && TextIs(parent, "name", gateway.name) && TextIs(parent, "namespace", gateway.ns)
      && TextIs(parent, "kind", "Gateway") && TextIs(parent, "group", "gateway.networking.k8s.io")
      && (if gateway.listener != "" then TextIs(parent, "sectionName", gateway.listener) else NoText(parent, "sectionName"))
  {
    hide RouteRule;
  }

  lemma OneModel(header: Json, match_: Json, rule: Json)
    ensures MatchModels([header]) == HeaderModels(header)
    ensures RuleModels([match_]) == MatchModels(Items(Field(match_, "headers")))
    ensures RulesModels([rule]) == RuleModels(Items(Field(rule, "matches")))
  {
    MatchModelsNext([header], 0);
    RuleModelsNext([match_], 0);
    RulesModelsNext([rule], 0);
    assert [header][..1] == [header] && [match_][..1] == [match_] && [rule][..1] == [rule];
  }

  lemma ModelMatchFacts(model: string)
    requires model != ""
    ensures HeaderModels(ModelMatch(model)) == [model]
  {
    var header := ModelMatch(model);
    assert header.fields["name"] == Str(MODEL_HEADER) && header.fields["value"] == Str(model);
    assert header.fields["type"] == Str("Exact");
  }

  lemma ParentRefFacts(gateway: Gateway, ns: string, other: Gateway)
    requires gateway.ns != ""
    ensures ParentIs(ParentRef(gateway), ns, other) <==> other.ns == gateway.ns && other.name == gateway.name
  {
    var parent := ParentRef(gateway);
    assert parent.fields["name"] == Str(gateway.name) && parent.fields["namespace"] == Str(gateway.ns);
    assert parent.fields["kind"] == Str(GATEWAY_KIND);
  }

  /** A built route is attached to the gateway it was built for, and to no other one, and is
      read back as serving just its model. */
  lemma BuiltRoute(ns: string, name: string, model: string, gateway: Gateway, backendRef: Json, other: Gateway)
    requires gateway.ns != "" && model != ""
    ensures var route := Route(ns, name, RouteSpec(model, gateway, backendRef));
      && RouteModels(route) == [model]
      && (Attached(route, other) <==> other.ns == gateway.ns && other.name == gateway.name)
  {
    var rule := RouteRule(model, backendRef);
    var match_ := Obj(map["headers" := List([ModelMatch(model)])]);
    assert Items(Field(rule, "matches")) == [match_];
    OneModel(ModelMatch(model), match_, rule);
    ModelMatchFacts(model);
    ParentRefFacts(gateway, ns, other);
    var spec := RouteSpec(model, gateway, backendRef);
    assert Items(Field(spec, "rules")) == [rule] && Items(Field(spec, "parentRefs")) == [ParentRef(gateway)];
  }
}
