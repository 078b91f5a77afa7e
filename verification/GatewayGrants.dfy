/** What the resolved keys mean, stated over the sets of Secrets and routes in the cluster. */
module GatewayGrants {
  import opened Text
  import opened ApiKeys
  import opened Routes
  import opened GatewayKeys

  /** What the API server guarantees of a list of routes: each namespace and name occurs once,
      and a namespace holds no slash. */
  ghost predicate ApiRoutes(routes: seq<Route>) {
    && Distinct(routes)
    && (forall r :: r in routes ==> '/' !in r.ns)
    && (forall r, q :: r in routes && q in routes && r.ns == q.ns && r.name == q.name ==> r == q)
  }

  ghost predicate ApiSecrets(secrets: seq<KeySecret>) {
    && Distinct(secrets)
    && (forall s :: s in secrets ==> '/' !in s.ns)
    && (forall s, t :: s in secrets && t in secrets && s.ns == t.ns && s.name == t.name ==> s == t)
  }

  /** `r` serves the model and no other route does. */
  ghost predicate OnlyServer(r: Route, routes: set<Route>, gateway: Gateway, model: string) {
    && r in routes && Serves(r, gateway, model)
    && forall q :: q in routes && Serves(q, gateway, model) ==> q == r
  }

  /** The Secret refers to an Instance of its own namespace whose route alone serves the model. */
  ghost predicate Granted(s: KeySecret, routes: set<Route>, gateway: Gateway, routeName: string -> string, model: string) {
    s.ns != "" && exists instance: string, r: Route ::
      && instance != "" && Slashed(s.ns, instance) in ModelRefs(s.models)
      && r.ns == s.ns && r.name == routeName(instance)
      && OnlyServer(r, routes, gateway, model)
  }

  ghost predicate Eligible(s: KeySecret, routes: set<Route>, gateway: Gateway, routeName: string -> string) {
    ValidKeyId(s.id) && s.value != "" && exists model :: Granted(s, routes, gateway, routeName, model)
  }

  predicate Clash(s: KeySecret, t: KeySecret) {
    s.id == t.id || s.value == t.value
  }

  /** Some other eligible Secret shares the ID or the value. */
  ghost predicate HasRival(s: KeySecret, secrets: set<KeySecret>, routes: set<Route>, gateway: Gateway, routeName: string -> string) {
    exists t :: t in secrets && t != s && Eligible(t, routes, gateway, routeName) && Clash(s, t)
  }

  ghost predicate Rendered(s: KeySecret, secrets: set<KeySecret>, routes: set<Route>, gateway: Gateway, routeName: string -> string) {
    s in secrets && Eligible(s, routes, gateway, routeName) && !HasRival(s, secrets, routes, gateway, routeName)
  }

  // ---------- the routing snapshot ----------

  lemma ApiRoutesInit(routes: seq<Route>)
    requires ApiRoutes(routes) && routes != []
    ensures ApiRoutes(routes[..|routes| - 1])
    ensures routes[|routes| - 1] !in routes[..|routes| - 1]
  {
    LastMember(routes);
    var init := routes[..|routes| - 1];
    assert forall i :: 0 <= i < |init| ==> init[i] == routes[i];
  }

  lemma {:induction false} TableFrom(routes: seq<Route>, gateway: Gateway, key: string)
    requires key in RoutingOf(routes, gateway).models
    ensures exists r :: r in routes && Attached(r, gateway) && RouteRef(r) == key
              && RoutingOf(routes, gateway).models[key] == ServedModels(r)
  {
    LastMember(routes);
    var last := routes[|routes| - 1];
    if !(Attached(last, gateway) && RouteRef(last) == key) {
      TableFrom(routes[..|routes| - 1], gateway, key);
    }
  }

  lemma {:induction false} TableHas(routes: seq<Route>, gateway: Gateway, r: Route)
    requires ApiRoutes(routes) && r in routes && Attached(r, gateway)
    ensures RouteRef(r) in RoutingOf(routes, gateway).models
    ensures RoutingOf(routes, gateway).models[RouteRef(r)] == ServedModels(r)
  {
    LastMember(routes);
    ApiRoutesInit(routes);
    var last := routes[|routes| - 1];
    if last != r {
      TableHas(routes[..|routes| - 1], gateway, r);
      if RouteRef(last) == RouteRef(r) { SlashedInjective(last.ns, last.name, r.ns, r.name); }
    }
  }

  ghost function Servers(routes: seq<Route>, gateway: Gateway, model: string): set<Route> {
    set r | r in routes && Serves(r, gateway, model)
  }

  lemma ServedOnce(r: Route, model: string)
    ensures multiset(ServedModels(r))[model] == if model in RouteModels(r) then 1 else 0
  {
    var models := ServedModels(r);
    CanonicalMeaning(RouteModels(r));
    forall i, j | 0 <= i < j < |models| ensures models[i] != models[j] {
      LessTotal(Self(models[i]), Self(models[j]));
    }
    DistinctMultiset(models);
    assert model in models <==> model in multiset(models);
  }

  lemma ServersNext(routes: seq<Route>, gateway: Gateway, model: string)
    requires ApiRoutes(routes) && routes != []
    ensures var init, last := routes[..|routes| - 1], routes[|routes| - 1];
      && last !in Servers(init, gateway, model)
      && Servers(routes, gateway, model) == Servers(init, gateway, model) + if Serves(last, gateway, model) then {last} else {}
  {
    ApiRoutesInit(routes);
    LastMember(routes);
  }

  lemma {:induction false} ServedCount(routes: seq<Route>, gateway: Gateway, model: string)
    requires ApiRoutes(routes)
    ensures RoutingOf(routes, gateway).served[model] == |Servers(routes, gateway, model)|
  {
    if routes != [] {
      var init, last := routes[..|routes| - 1], routes[|routes| - 1];
      ApiRoutesInit(routes);
      ServersNext(routes, gateway, model);
      ServedCount(init, gateway, model);
      ServedOnce(last, model);
    }
  }

  lemma AtMostOne<T>(s: set<T>)
    ensures |s| <= 1 <==> forall x, y :: x in s && y in s ==> x == y
  {
    if s != {} {
      var x :| x in s;
      assert s == {x} + (s - {x});
      if s - {x} != {} {
        var y :| y in s - {x};
        assert |s - {x} - {y}| == |s| - 2;
      }
    }
  }

  /** A name is counted at most once exactly when its server is the only one. */
  lemma OnlyServerCount(routes: seq<Route>, gateway: Gateway, r: Route, model: string)
    requires ApiRoutes(routes) && r in routes && Serves(r, gateway, model)
    ensures RoutingOf(routes, gateway).served[model] <= 1 <==> OnlyServer(r, Elements(routes), gateway, model)
  {
    ServedCount(routes, gateway, model);
    var servers := Servers(routes, gateway, model);
    AtMostOne(servers);
    assert r in servers;
    assert forall q :: q in Elements(routes) && Serves(q, gateway, model) <==> q in servers;
  }

  // ---------- the models of a Secret ----------

  lemma {:induction false} UnambiguousMeaning(models: seq<string>, served: multiset<string>, model: string)
    ensures model in Unambiguous(models, served) <==> model in models && served[model] <= 1
  {
    if models != [] {
      UnambiguousMeaning(models[..|models| - 1], served, model);
      LastMember(models);
    }
  }

  /** One reference grants a model through one of its routes. */
  ghost predicate GrantedBy(ns: string, ref: string, r: Route, instance: string, routes: set<Route>,
                            gateway: Gateway, routeName: string -> string, model: string) {
    && ns != "" && instance != "" && ref == Slashed(ns, instance)
    && r.ns == ns && r.name == routeName(instance)
    && OnlyServer(r, routes, gateway, model)
  }

  lemma RefGrants(ns: string, ref: string, routes: seq<Route>, gateway: Gateway, routeName: string -> string, model: string)
    requires ApiRoutes(routes) && '/' !in ns
    requires model in RefModels(ns, ref, RoutingOf(routes, gateway), routeName)
    ensures exists instance: string, r: Route :: GrantedBy(ns, ref, r, instance, Elements(routes), gateway, routeName, model)
  {
    var routing := RoutingOf(routes, gateway);
    var cut := Cut(ref, '/');
    CutMeaning(ref, '/', cut.before, cut.after);
    var key := Slashed(ns, routeName(cut.after));
    UnambiguousMeaning(if key in routing.models then routing.models[key] else [], routing.served, model);
    TableFrom(routes, gateway, key);
    var r :| r in routes && Attached(r, gateway) && RouteRef(r) == key && routing.models[key] == ServedModels(r);
    SlashedInjective(r.ns, r.name, ns, routeName(cut.after));
    CanonicalMeaning(RouteModels(r));
    OnlyServerCount(routes, gateway, r, model);
    assert GrantedBy(ns, ref, r, cut.after, Elements(routes), gateway, routeName, model);
  }

  lemma GrantIsFound(ns: string, ref: string, r: Route, instance: string, routes: seq<Route>,
                     gateway: Gateway, routeName: string -> string, model: string)
    requires ApiRoutes(routes) && '/' !in ns
    requires GrantedBy(ns, ref, r, instance, Elements(routes), gateway, routeName, model)
    ensures model in RefModels(ns, ref, RoutingOf(routes, gateway), routeName)
  {
    CutMeaning(ref, '/', ns, instance);
    TableHas(routes, gateway, r);
    CanonicalMeaning(RouteModels(r));
    OnlyServerCount(routes, gateway, r, model);
    UnambiguousMeaning(ServedModels(r), RoutingOf(routes, gateway).served, model);
  }

  lemma {:induction false} RefsModelsMeaning(ns: string, refs: seq<string>, routing: Routing, routeName: string -> string, model: string)
    ensures model in RefsModels(ns, refs, routing, routeName) <==>
      exists ref :: ref in refs && model in RefModels(ns, ref, routing, routeName)
  {
    if refs != [] {
      RefsModelsMeaning(ns, refs[..|refs| - 1], routing, routeName, model);
      LastMember(refs);
    }
  }

  lemma SecretModelsMeaning(s: KeySecret, routes: seq<Route>, gateway: Gateway, routeName: string -> string, model: string)
    requires ApiRoutes(routes) && '/' !in s.ns
    ensures model in SecretModels(s, RoutingOf(routes, gateway), routeName) <==>
      Granted(s, Elements(routes), gateway, routeName, model)
  {
    var routing, refs := RoutingOf(routes, gateway), ModelRefs(s.models);
    RefsModelsMeaning(s.ns, refs, routing, routeName, model);
    if model in SecretModels(s, routing, routeName) {
      var ref :| ref in refs && model in RefModels(s.ns, ref, routing, routeName);
      RefGrants(s.ns, ref, routes, gateway, routeName, model);
    }
    if Granted(s, Elements(routes), gateway, routeName, model) {
      var instance: string, r: Route :| instance != "" && Slashed(s.ns, instance) in refs && r.ns == s.ns && r.name == routeName(instance)
        && OnlyServer(r, Elements(routes), gateway, model);
      GrantIsFound(s.ns, Slashed(s.ns, instance), r, instance, routes, gateway, routeName, model);
    }
  }

  lemma CandidateMeaning(s: KeySecret, routes: seq<Route>, gateway: Gateway, routeName: string -> string)
    requires ApiRoutes(routes) && '/' !in s.ns
    ensures IsCandidate(s, RoutingOf(routes, gateway), routeName) <==> Eligible(s, Elements(routes), gateway, routeName)
  {
    var models := SecretModels(s, RoutingOf(routes, gateway), routeName);
    if models != [] {
      SecretModelsMeaning(s, routes, gateway, routeName, models[0]);
    }
    if Eligible(s, Elements(routes), gateway, routeName) {
      var model :| Granted(s, Elements(routes), gateway, routeName, model);
      SecretModelsMeaning(s, routes, gateway, routeName, model);
    }
  }

  // ---------- the order and the clashes ----------

  lemma {:induction false} CandidatesMeaning(secrets: seq<KeySecret>, routing: Routing, routeName: string -> string)
    requires Distinct(secrets)
    ensures var r := Candidates(secrets, routing, routeName);
      && (forall s :: s in r <==> s in secrets && IsCandidate(s, routing, routeName))
      && Distinct(r)
      && (IncreasingBy(SecretRef, secrets) ==> IncreasingBy(SecretRef, r))
  {
    if secrets != [] {
      var init := secrets[..|secrets| - 1];
      LastMember(secrets);
      CandidatesMeaning(init, routing, routeName);
      forall i | 0 <= i < |Candidates(init, routing, routeName)|
        ensures Candidates(init, routing, routeName)[i] in init
      {
      }
    }
  }

  lemma {:induction false} UnclashedMeaning(secrets: seq<KeySecret>, ids: multiset<string>, values: multiset<string>)
    ensures var r := Unclashed(secrets, ids, values);
      && (forall s :: s in r <==> s in secrets && ids[s.id] <= 1 && values[s.value] <= 1)
      && (IncreasingBy(SecretRef, secrets) ==> IncreasingBy(SecretRef, r))
  {
    if secrets != [] {
      var init := secrets[..|secrets| - 1];
      LastMember(secrets);
      UnclashedMeaning(init, ids, values);
      forall i | 0 <= i < |Unclashed(init, ids, values)|
        ensures Unclashed(init, ids, values)[i] in init
      {
      }
    }
  }

  lemma SortedIncreasing(secrets: seq<KeySecret>)
    requires ApiSecrets(secrets)
    ensures var sorted := SortBy(SecretRef, secrets);
      IncreasingBy(SecretRef, sorted) && Distinct(sorted) && forall s :: s in sorted <==> s in secrets
  {
    var sorted := SortBy(SecretRef, secrets);
    SortIsSorted(SecretRef, secrets);
    SortMembers(SecretRef, secrets);
    SortDistinct(SecretRef, secrets);
    forall i, j | 0 <= i < j < |sorted| ensures Less(SecretRef(sorted[i]), SecretRef(sorted[j])) {
      var s, t := sorted[i], sorted[j];
      assert s in secrets && t in secrets;
      LessTotal(SecretRef(s), SecretRef(t));
      if SecretRef(s) == SecretRef(t) { SlashedInjective(s.ns, s.name, t.ns, t.name); }
    }
  }

  lemma ClashFree(s: KeySecret, candidates: seq<KeySecret>)
    requires Distinct(candidates) && s in candidates
    ensures Tally(SecretId, candidates)[s.id] <= 1 && Tally(SecretValue, candidates)[s.value] <= 1
      <==> forall t :: t in candidates && t != s ==> !Clash(s, t)
  {
    TallyOne(SecretId, candidates, s);
    TallyOne(SecretValue, candidates, s);
    if t :| t in candidates && t != s && Clash(s, t) {
      assert SecretId(t) == SecretId(s) || SecretValue(t) == SecretValue(s);
    }
  }

  /** The rendered keys are, in strictly increasing namespace/name order, those of exactly the
      Secrets that are eligible and have no rival. */
  lemma RenderedMeaning(secrets: seq<KeySecret>, routes: seq<Route>, gateway: Gateway, routeName: string -> string)
    requires ApiSecrets(secrets) && ApiRoutes(routes)
    ensures var chosen := RenderedSecrets(secrets, routes, gateway, routeName);
      && IncreasingBy(SecretRef, chosen)
      && forall s :: s in chosen <==> Rendered(s, Elements(secrets), Elements(routes), gateway, routeName)
  {
    var routing := RoutingOf(routes, gateway);
    var sorted := SortBy(SecretRef, secrets);
    SortedIncreasing(secrets);
    var candidates := Candidates(sorted, routing, routeName);
    CandidatesMeaning(sorted, routing, routeName);
    var ids, values := Tally(SecretId, candidates), Tally(SecretValue, candidates);
    UnclashedMeaning(candidates, ids, values);
    forall s ensures s in candidates <==> s in secrets && Eligible(s, Elements(routes), gateway, routeName) {
      if s in secrets { CandidateMeaning(s, routes, gateway, routeName); }
    }
    forall s | s in candidates
      ensures ids[s.id] <= 1 && values[s.value] <= 1 <==>
        !HasRival(s, Elements(secrets), Elements(routes), gateway, routeName)
    {
      ClashFree(s, candidates);
    }
  }

  /** Each rendered key carries its Secret's ID and value and exactly the granted models. */
  lemma KeyMeaning(s: KeySecret, routes: seq<Route>, gateway: Gateway, routeName: string -> string)
    requires ApiRoutes(routes) && '/' !in s.ns
    ensures var key := KeyOf(s, RoutingOf(routes, gateway), routeName);
      && key.id == s.id && key.value == s.value && IncreasingBy(Self, key.models)
      && forall model :: model in key.models <==> Granted(s, Elements(routes), gateway, routeName, model)
  {
    var routing := RoutingOf(routes, gateway);
    CanonicalMeaning(SecretModels(s, routing, routeName));
    forall model ensures model in KeyOf(s, routing, routeName).models <==> Granted(s, Elements(routes), gateway, routeName, model) {
      SecretModelsMeaning(s, routes, gateway, routeName, model);
    }
  }

  // ---------- two runs ----------

  lemma SameElements<T>(a: seq<T>, b: seq<T>)
    requires multiset(a) == multiset(b)
    ensures Elements(a) == Elements(b)
    ensures Distinct(a) <==> Distinct(b)
  {
    assert forall x :: x in a <==> x in multiset(a);
    assert forall x :: x in b <==> x in multiset(b);
    DistinctMultiset(a);
    DistinctMultiset(b);
  }

  /** Listing the same Secrets and routes in another order gives the identical key list. */
  lemma OrderIndependent(secrets: seq<KeySecret>, secrets': seq<KeySecret>, routes: seq<Route>, routes': seq<Route>,
                         gateway: Gateway, routeName: string -> string)
    requires ApiSecrets(secrets) && ApiRoutes(routes)
    requires multiset(secrets) == multiset(secrets') && multiset(routes) == multiset(routes')
    ensures Resolve(secrets, routes, gateway, routeName) == Resolve(secrets', routes', gateway, routeName)
  {
    SameElements(secrets, secrets');
    SameElements(routes, routes');
    assert forall s :: s in secrets' <==> s in Elements(secrets);
    assert forall r :: r in routes' <==> r in Elements(routes);
    assert ApiSecrets(secrets') && ApiRoutes(routes');
    RenderedMeaning(secrets, routes, gateway, routeName);
    RenderedMeaning(secrets', routes', gateway, routeName);
    var chosen := RenderedSecrets(secrets, routes, gateway, routeName);
    IncreasingUnique(SecretRef, chosen, RenderedSecrets(secrets', routes', gateway, routeName));
    forall i | 0 <= i < |chosen|
      ensures KeyOf(chosen[i], RoutingOf(routes, gateway), routeName) == KeyOf(chosen[i], RoutingOf(routes', gateway), routeName)
    {
      assert chosen[i] in chosen;
      KeyMeaning(chosen[i], routes, gateway, routeName);
      KeyMeaning(chosen[i], routes', gateway, routeName);
      IncreasingUnique(Self, KeyOf(chosen[i], RoutingOf(routes, gateway), routeName).models,
        KeyOf(chosen[i], RoutingOf(routes', gateway), routeName).models);
    }
  }

  lemma RenderedAfterAdding(s: KeySecret, added: KeySecret, secrets: set<KeySecret>, routes: set<Route>,
                            gateway: Gateway, routeName: string -> string)
    requires added !in secrets
    ensures var before, after := Rendered(s, secrets, routes, gateway, routeName),
                                 Rendered(s, secrets + {added}, routes, gateway, routeName);
      if !Eligible(added, routes, gateway, routeName) then after == before
      else if s == added then after <==> !HasRival(added, secrets, routes, gateway, routeName)
      else after <==> before && !Clash(s, added)
  {
    var all := secrets + {added};
    if HasRival(s, secrets, routes, gateway, routeName) {
      var t :| t in secrets && t != s && Eligible(t, routes, gateway, routeName) && Clash(s, t);
      assert t in all;
    }
    if HasRival(s, all, routes, gateway, routeName) {
      var t :| t in all && t != s && Eligible(t, routes, gateway, routeName) && Clash(s, t);
      assert t in secrets || t == added;
    }
  }

  lemma ApiSecretsInit(secrets: seq<KeySecret>, added: KeySecret)
    requires ApiSecrets(secrets + [added])
    ensures ApiSecrets(secrets) && added !in secrets
    ensures Elements(secrets + [added]) == Elements(secrets) + {added}
  {
    var all := secrets + [added];
    LastMember(all);
    assert all[..|all| - 1] == secrets;
    assert forall i :: 0 <= i < |secrets| ==> all[i] == secrets[i];
    assert all[|secrets|] == added;
  }

  /** Adding one Secret: if it resolves to no model nothing changes; otherwise exactly the keys
      that share its ID or value go, and its own comes iff no other eligible Secret shares either. */
  lemma CollisionLocality(secrets: seq<KeySecret>, added: KeySecret, routes: seq<Route>, gateway: Gateway, routeName: string -> string)
    requires ApiSecrets(secrets + [added]) && ApiRoutes(routes)
    ensures var before, after := RenderedSecrets(secrets, routes, gateway, routeName),
                                 RenderedSecrets(secrets + [added], routes, gateway, routeName);
      if !Eligible(added, Elements(routes), gateway, routeName) then
        Resolve(secrets + [added], routes, gateway, routeName) == Resolve(secrets, routes, gateway, routeName)
      else
        && (forall s :: s != added ==> (s in after <==> s in before && !Clash(s, added)))
        && (added in after <==> !HasRival(added, Elements(secrets), Elements(routes), gateway, routeName))
  {
    ApiSecretsInit(secrets, added);
    RenderedMeaning(secrets, routes, gateway, routeName);
    RenderedMeaning(secrets + [added], routes, gateway, routeName);
    forall s {
      RenderedAfterAdding(s, added, Elements(secrets), Elements(routes), gateway, routeName);
    }
    if !Eligible(added, Elements(routes), gateway, routeName) {
      IncreasingUnique(SecretRef, RenderedSecrets(secrets, routes, gateway, routeName),
        RenderedSecrets(secrets + [added], routes, gateway, routeName));
    }
  }
}
