/** Which API keys the shared Gateway accepts, and the models each may call. */
module GatewayKeys {
  import opened Text
  import opened ApiKeys
  import opened Routes

  /** An API key Secret as the renderer reads it: the key-id and models annotations and the
      api_key entry, empty when absent. */
  datatype KeySecret = KeySecret(ns: string, name: string, id: string, value: string, models: string)

  datatype GatewayKey = GatewayKey(id: string, value: string, models: seq<string>)

  function SecretRef(s: KeySecret): string { Slashed(s.ns, s.name) }
  function SecretId(s: KeySecret): string { s.id }
  function SecretValue(s: KeySecret): string { s.value }
  function RouteRef(r: Route): string { Slashed(r.ns, r.name) }

  // ---------- the routing snapshot ----------

  /** Served model names by route, and by how many attached routes each name is served. */
  datatype Routing = Routing(models: map<string, seq<string>>, served: multiset<string>)

  function ServedModels(route: Route): seq<string> {
    Canonical(RouteModels(route))
  }

  function RoutingOf(routes: seq<Route>, gateway: Gateway): Routing {
    if routes == [] then Routing(map[], multiset{})
    else
      var rest, route := RoutingOf(routes[..|routes| - 1], gateway), routes[|routes| - 1];
      if Attached(route, gateway) then
        Routing(rest.models[RouteRef(route) := ServedModels(route)], rest.served + multiset(ServedModels(route)))
      else rest
  }

  // ---------- from Secrets to keys ----------

  function Unambiguous(models: seq<string>, served: multiset<string>): seq<string> {
    if models == [] then []
    else
      var last := models[|models| - 1];
      Unambiguous(models[..|models| - 1], served) + if served[last] > 1 then [] else [last]
  }

  function RefModels(ns: string, ref: string, routing: Routing, routeName: string -> string): seq<string> {
    var cut := Cut(ref, '/');
    if !cut.found || cut.before == "" || cut.after == "" || cut.before != ns then []
    else
      var route := Slashed(cut.before, routeName(cut.after));
      Unambiguous(if route in routing.models then routing.models[route] else [], routing.served)
  }

  function RefsModels(ns: string, refs: seq<string>, routing: Routing, routeName: string -> string): seq<string> {
    if refs == [] then []
    else RefsModels(ns, refs[..|refs| - 1], routing, routeName) + RefModels(ns, refs[|refs| - 1], routing, routeName)
  }

  function SecretModels(s: KeySecret, routing: Routing, routeName: string -> string): seq<string> {
    RefsModels(s.ns, ModelRefs(s.models), routing, routeName)
  }

  predicate IsCandidate(s: KeySecret, routing: Routing, routeName: string -> string) {
    ValidKeyId(s.id) && s.value != "" && SecretModels(s, routing, routeName) != []
  }

  function Candidates(secrets: seq<KeySecret>, routing: Routing, routeName: string -> string): seq<KeySecret> {
    if secrets == [] then []
    else
      var last := secrets[|secrets| - 1];
      Candidates(secrets[..|secrets| - 1], routing, routeName) + if IsCandidate(last, routing, routeName) then [last] else []
  }

  function Unclashed(secrets: seq<KeySecret>, ids: multiset<string>, values: multiset<string>): seq<KeySecret> {
    if secrets == [] then []
    else
      var last := secrets[|secrets| - 1];
      Unclashed(secrets[..|secrets| - 1], ids, values) + if ids[last.id] > 1 || values[last.value] > 1 then [] else [last]
  }

  function KeyOf(s: KeySecret, routing: Routing, routeName: string -> string): GatewayKey {
    GatewayKey(s.id, s.value, Canonical(SecretModels(s, routing, routeName)))
  }

  function KeysOf(secrets: seq<KeySecret>, routing: Routing, routeName: string -> string): (r: seq<GatewayKey>)
    ensures |r| == |secrets|
    ensures forall i :: 0 <= i < |r| ==> r[i] == KeyOf(secrets[i], routing, routeName)
  {
    seq(|secrets|, i requires 0 <= i < |secrets| => KeyOf(secrets[i], routing, routeName))
  }

  /** The Secrets whose keys are rendered, in the order they are rendered. */
  function RenderedSecrets(secrets: seq<KeySecret>, routes: seq<Route>, gateway: Gateway, routeName: string -> string): seq<KeySecret> {
    var candidates := Candidates(SortBy(SecretRef, secrets), RoutingOf(routes, gateway), routeName);
    Unclashed(candidates, Tally(SecretId, candidates), Tally(SecretValue, candidates))
  }

  function Resolve(secrets: seq<KeySecret>, routes: seq<Route>, gateway: Gateway, routeName: string -> string): seq<GatewayKey> {
    KeysOf(RenderedSecrets(secrets, routes, gateway, routeName), RoutingOf(routes, gateway), routeName)
  }

  // ---------- the loops ----------

  /** A Go counting map agrees with a multiset. */
  ghost predicate Counts(counts: map<string, int>, m: multiset<string>) {
    forall k :: m[k] == if k in counts then counts[k] else 0
  }

  function Increment(counts: map<string, int>, k: string): map<string, int> {
    counts[k := if k in counts then counts[k] + 1 else 1]
  }

  function CountOf(counts: map<string, int>, k: string): int {
    if k in counts then counts[k] else 0
  }

  lemma CountsIncrement(counts: map<string, int>, m: multiset<string>, k: string)
    requires Counts(counts, m)
    ensures Counts(Increment(counts, k), m + multiset{k})
  {
  }

  method CountAll(counts: map<string, int>, ghost m: multiset<string>, names: seq<string>) returns (r: map<string, int>)
    requires Counts(counts, m)
    ensures Counts(r, m + multiset(names))
  {
    r := counts;
    assert m + multiset(names[..0]) == m;
    for j := 0 to |names|
      invariant Counts(r, m + multiset(names[..j]))
    {
      CountsIncrement(r, m + multiset(names[..j]), names[j]);
      assert names[..j + 1] == names[..j] + [names[j]];
      assert m + multiset(names[..j + 1]) == m + multiset(names[..j]) + multiset{names[j]};
      r := Increment(r, names[j]);
    }
    assert names[..|names|] == names;
  }

  lemma RoutingNext(routes: seq<Route>, gateway: Gateway, n: nat)
    requires n < |routes|
    ensures var rest, route := RoutingOf(routes[..n], gateway), routes[n];
      RoutingOf(routes[..n + 1], gateway) ==
        if Attached(route, gateway) then
          Routing(rest.models[RouteRef(route) := ServedModels(route)], rest.served + multiset(ServedModels(route)))
        else rest
  {
    assert routes[..n + 1][..n] == routes[..n];
  }

  method ReadRoutes(routes: seq<Route>, gateway: Gateway) returns (models: map<string, seq<string>>, served: map<string, int>)
    ensures models == RoutingOf(routes, gateway).models
    ensures Counts(served, RoutingOf(routes, gateway).served)
  {
    models, served := map[], map[];
    for i := 0 to |routes|
      invariant models == RoutingOf(routes[..i], gateway).models
      invariant Counts(served, RoutingOf(routes[..i], gateway).served)
    {
      RoutingNext(routes, gateway, i);
      var attached := RouteAttachedToGateway(routes[i], gateway);
      if attached {
        var names := AIGatewayRouteModels(routes[i]);
        names := Canonical(names);
        models := models[RouteRef(routes[i]) := names];
        served := CountAll(served, RoutingOf(routes[..i], gateway).served, names);
      }
    }
    assert routes[..|routes|] == routes;
  }

  lemma UnambiguousNext(models: seq<string>, served: multiset<string>, n: nat)
    requires n < |models|
    ensures Unambiguous(models[..n + 1], served) == Unambiguous(models[..n], served) + if served[models[n]] > 1 then [] else [models[n]]
  {
    assert models[..n + 1][..n] == models[..n];
  }

  method AppendUnambiguous(found: seq<string>, names: seq<string>, served: map<string, int>, ghost counted: multiset<string>)
    returns (models: seq<string>)
    requires Counts(served, counted)
    ensures models == found + Unambiguous(names, counted)
  {
    models := found;
    for j := 0 to |names|
      invariant models == found + Unambiguous(names[..j], counted)
    {
      UnambiguousNext(names, counted, j);
      ConcatAssociates(found, Unambiguous(names[..j], counted), if counted[names[j]] > 1 then [] else [names[j]]);
      if CountOf(served, names[j]) <= 1 {
        models := models + [names[j]];
      }
    }
    assert names[..|names|] == names;
  }

  lemma RefsModelsNext(ns: string, refs: seq<string>, routing: Routing, routeName: string -> string, n: nat)
    requires n < |refs|
    ensures RefsModels(ns, refs[..n + 1], routing, routeName)
         == RefsModels(ns, refs[..n], routing, routeName) + RefModels(ns, refs[n], routing, routeName)
  {
    assert refs[..n + 1][..n] == refs[..n];
  }

  method ModelsOfSecret(s: KeySecret, ghost routing: Routing, models: map<string, seq<string>>, served: map<string, int>,
                        routeName: string -> string) returns (found: seq<string>)
    requires routing.models == models && Counts(served, routing.served)
    ensures found == SecretModels(s, routing, routeName)
  {
    hide Cut, Slashed, Unambiguous, ModelRefs;
    found := [];
    var refs := ParseModelRefs(s.models);
    for i := 0 to |refs|
      invariant found == RefsModels(s.ns, refs[..i], routing, routeName)
    {
      RefsModelsNext(s.ns, refs, routing, routeName, i);
      var cut := Cut(refs[i], '/');
      if cut.found && cut.before != "" && cut.after != "" && cut.before == s.ns {
        var route := Slashed(cut.before, routeName(cut.after));
        found := AppendUnambiguous(found, if route in models then models[route] else [], served, routing.served);
      }
    }
    assert refs[..|refs|] == refs;
  }

  /** sort.Slice by namespace/name. */
  method SortSecrets(secrets: array<KeySecret>)
    modifies secrets
    ensures secrets[..] == SortBy(SecretRef, old(secrets[..]))
  {
    var sorted := SortBy(SecretRef, secrets[..]);
    forall i | 0 <= i < secrets.Length {
      secrets[i] := sorted[i];
    }
  }

  lemma CandidatesNext(secrets: seq<KeySecret>, routing: Routing, routeName: string -> string, n: nat)
    requires n < |secrets|
    ensures Candidates(secrets[..n + 1], routing, routeName) ==
      Candidates(secrets[..n], routing, routeName) + if IsCandidate(secrets[n], routing, routeName) then [secrets[n]] else []
  {
    assert secrets[..n + 1][..n] == secrets[..n];
  }

  lemma KeysOfNext(secrets: seq<KeySecret>, s: KeySecret, routing: Routing, routeName: string -> string)
    ensures KeysOf(secrets + [s], routing, routeName) == KeysOf(secrets, routing, routeName) + [KeyOf(s, routing, routeName)]
  {
  }

  method ResolveGatewayKeys(secrets: array<KeySecret>, routes: seq<Route>, gateway: Gateway, routeName: string -> string)
    returns (keys: seq<GatewayKey>)
    modifies secrets
    ensures keys == Resolve(old(secrets[..]), routes, gateway, routeName)
    ensures secrets[..] == SortBy(SecretRef, old(secrets[..]))
  {
    var models, served := ReadRoutes(routes, gateway);
    SortSecrets(secrets);
    ghost var chosen: seq<KeySecret>;
    var candidates;
    candidates, chosen := CandidateKeys(secrets[..], RoutingOf(routes, gateway), models, served, routeName);
    keys := DropClashes(candidates, chosen, RoutingOf(routes, gateway), routeName);
  }

  method CandidateKeys(secrets: seq<KeySecret>, ghost routing: Routing, models: map<string, seq<string>>,
                       served: map<string, int>, routeName: string -> string)
    returns (candidates: seq<GatewayKey>, ghost chosen: seq<KeySecret>)
    requires routing.models == models && Counts(served, routing.served)
    ensures chosen == Candidates(secrets, routing, routeName)
    ensures candidates == KeysOf(chosen, routing, routeName)
  {
    chosen, candidates := [], [];
    for i := 0 to |secrets|
      invariant chosen == Candidates(secrets[..i], routing, routeName)
      invariant candidates == KeysOf(chosen, routing, routeName)
    {
      CandidatesNext(secrets, routing, routeName, i);
      var secret := secrets[i];
      if ValidKeyId(secret.id) && secret.value != "" {
        var found := ModelsOfSecret(secret, routing, models, served, routeName);
        if |found| != 0 {
          KeysOfNext(chosen, secret, routing, routeName);
          candidates := candidates + [GatewayKey(secret.id, secret.value, Canonical(found))];
          chosen := chosen + [secret];
        }
      }
    }
    assert secrets[..|secrets|] == secrets;
  }

  lemma UnclashedNext(secrets: seq<KeySecret>, ids: multiset<string>, values: multiset<string>, n: nat)
    requires n < |secrets|
    ensures Unclashed(secrets[..n + 1], ids, values) == Unclashed(secrets[..n], ids, values)
      + if ids[secrets[n].id] > 1 || values[secrets[n].value] > 1 then [] else [secrets[n]]
  {
    assert secrets[..n + 1][..n] == secrets[..n];
  }

  method CountIdsAndValues(candidates: seq<GatewayKey>, ghost chosen: seq<KeySecret>)
    returns (ids: map<string, int>, values: map<string, int>)
    requires |candidates| == |chosen|
    requires forall i :: 0 <= i < |chosen| ==> candidates[i].id == chosen[i].id && candidates[i].value == chosen[i].value
    ensures Counts(ids, Tally(SecretId, chosen)) && Counts(values, Tally(SecretValue, chosen))
  {
    ids, values := map[], map[];
    for i := 0 to |candidates|
      invariant Counts(ids, Tally(SecretId, chosen[..i])) && Counts(values, Tally(SecretValue, chosen[..i]))
    {
      TallyNext(SecretId, chosen, i);
      TallyNext(SecretValue, chosen, i);
      CountsIncrement(ids, Tally(SecretId, chosen[..i]), candidates[i].id);
      CountsIncrement(values, Tally(SecretValue, chosen[..i]), candidates[i].value);
      ids := Increment(ids, candidates[i].id);
      values := Increment(values, candidates[i].value);
    }
    assert chosen[..|chosen|] == chosen;
  }

  method DropClashes(candidates: seq<GatewayKey>, ghost chosen: seq<KeySecret>, ghost routing: Routing, routeName: string -> string)
    returns (keys: seq<GatewayKey>)
    requires candidates == KeysOf(chosen, routing, routeName)
    ensures keys == KeysOf(Unclashed(chosen, Tally(SecretId, chosen), Tally(SecretValue, chosen)), routing, routeName)
  {
    ghost var allIds, allValues := Tally(SecretId, chosen), Tally(SecretValue, chosen);
    var ids, values := CountIdsAndValues(candidates, chosen);
    keys := [];
    for i := 0 to |candidates|
      invariant keys == KeysOf(Unclashed(chosen[..i], allIds, allValues), routing, routeName)
    {
      UnclashedNext(chosen, allIds, allValues, i);
      if CountOf(ids, candidates[i].id) <= 1 && CountOf(values, candidates[i].value) <= 1 {
        KeysOfNext(Unclashed(chosen[..i], allIds, allValues), chosen[i], routing, routeName);
        keys := keys + [candidates[i]];
      }
    }
    assert chosen[..|chosen|] == chosen;
  }
}
