/** The rendered credentials Secret and SecurityPolicy, and what Envoy makes of them. */
module GatewayAuth {
  import opened Text
  import opened ApiKeys
  import opened Routes
  import opened GatewayKeys
  import opened GatewayGrants

  const PLACEHOLDER := "placeholder"
  const KEY_ID_HEADER := "x-openeverest-key-id"

  type Credentials = map<string, string>

  /** A rule's header condition: any of the values matches. */
  datatype HeaderMatch = HeaderMatch(name: string, values: seq<string>)

  /** An Allow rule: every header condition must hold. */
  datatype Rule = Rule(headers: seq<HeaderMatch>)

  /** The SecurityPolicy on the Gateway; what no rule allows is denied. */
  datatype Policy = Policy(target: Gateway, clientIdHeader: string, rules: seq<Rule>)

  // ---------- building the outputs ----------

  function RuleOf(key: GatewayKey): Rule {
    Rule([HeaderMatch(KEY_ID_HEADER, [key.id]), HeaderMatch(MODEL_HEADER, key.models)])
  }

  function CredentialsOf(placeholder: string, keys: seq<GatewayKey>): Credentials {
    if keys == [] then map[PLACEHOLDER := placeholder]
    else CredentialsOf(placeholder, keys[..|keys| - 1])[keys[|keys| - 1].id := keys[|keys| - 1].value]
  }

  function PolicyOf(gateway: Gateway, keys: seq<GatewayKey>): Policy {
    Policy(gateway, KEY_ID_HEADER, seq(|keys|, i requires 0 <= i < |keys| => RuleOf(keys[i])))
  }

  method BuildGatewayCredentials(placeholder: string, keys: seq<GatewayKey>) returns (data: Credentials)
    ensures data == CredentialsOf(placeholder, keys)
  {
    data := map[PLACEHOLDER := placeholder];
    for i := 0 to |keys|
      invariant data == CredentialsOf(placeholder, keys[..i])
    {
      assert keys[..i + 1][..i] == keys[..i];
      data := data[keys[i].id := keys[i].value];
    }
    assert keys[..|keys|] == keys;
  }

  method BuildGatewayAuthPolicy(gateway: Gateway, keys: seq<GatewayKey>) returns (policy: Policy)
    ensures policy == PolicyOf(gateway, keys)
  {
    var rules: seq<Rule> := [];
    for i := 0 to |keys|
      invariant |rules| == i && forall j :: 0 <= j < i ==> rules[j] == RuleOf(keys[j])
    {
      var models: seq<string> := [];
      for j := 0 to |keys[i].models|
        invariant models == keys[i].models[..j]
      {
        models := models + [keys[i].models[j]];
      }
      assert models == keys[i].models;
      rules := rules + [Rule([HeaderMatch(KEY_ID_HEADER, [keys[i].id]), HeaderMatch(MODEL_HEADER, models)])];
    }
    policy := Policy(gateway, KEY_ID_HEADER, rules);
  }

  /** The policy is on the Gateway it was built for, listener included, forwards the client ID in
      the header its rules read, and has one rule per key with that header and the model header. */
  lemma PolicyFields(gateway: Gateway, keys: seq<GatewayKey>)
    ensures var policy := PolicyOf(gateway, keys);
      && policy.target.ns == gateway.ns && policy.target.name == gateway.name && policy.target.listener == gateway.listener
      && policy.clientIdHeader == "x-openeverest-key-id"
      && |policy.rules| == |keys|
      && forall i :: 0 <= i < |keys| ==>
           policy.rules[i].headers == [HeaderMatch("x-openeverest-key-id", [keys[i].id]), HeaderMatch("x-ai-eg-model", keys[i].models)]
  {
    assert forall i :: 0 <= i < |keys| ==> PolicyOf(gateway, keys).rules[i] == RuleOf(keys[i]);
  }

  // ---------- what Envoy does with them ----------

  /** Envoy rejects the policy when two clients share a value (IDs are map keys already). */
  ghost predicate Accepted(credentials: Credentials) {
    forall id, id' :: id in credentials && id' in credentials && credentials[id] == credentials[id'] ==> id == id'
  }

  predicate RuleAllows(rule: Rule, headers: map<string, string>) {
    forall h :: h in rule.headers ==> h.name in headers && headers[h.name] in h.values
  }

  predicate PolicyAllows(policy: Policy, id: string, model: string) {
    exists rule :: rule in policy.rules && RuleAllows(rule, map[policy.clientIdHeader := id, MODEL_HEADER := model])
  }

  /** A request that presents `value` reaches `model`: the value selects a client ID and some
      rule matches both that ID and the model. */
  ghost predicate Allowed(credentials: Credentials, policy: Policy, value: string, model: string) {
    Accepted(credentials) &&
    exists id :: id in credentials && credentials[id] == value && PolicyAllows(policy, id, model)
  }

  lemma RuleMeaning(key: GatewayKey, id: string, model: string)
    ensures RuleAllows(RuleOf(key), map[KEY_ID_HEADER := id, MODEL_HEADER := model]) <==> key.id == id && model in key.models
  {
    var headers := map[KEY_ID_HEADER := id, MODEL_HEADER := model];
    var rule := RuleOf(key);
    assert |KEY_ID_HEADER| != |MODEL_HEADER|;
    assert headers[KEY_ID_HEADER] == id && headers[MODEL_HEADER] == model;
    assert rule.headers[0] in rule.headers && rule.headers[1] in rule.headers;
  }

  lemma PolicyMeaning(gateway: Gateway, keys: seq<GatewayKey>, id: string, model: string)
    ensures PolicyAllows(PolicyOf(gateway, keys), id, model) <==> exists key :: key in keys && key.id == id && model in key.models
  {
    var policy := PolicyOf(gateway, keys);
    var headers := map[KEY_ID_HEADER := id, MODEL_HEADER := model];
    if PolicyAllows(policy, id, model) {
      var rule :| rule in policy.rules && RuleAllows(rule, headers);
      var i :| 0 <= i < |policy.rules| && policy.rules[i] == rule;
      RuleMeaning(keys[i], id, model);
      assert keys[i] in keys;
    }
    if key :| key in keys && key.id == id && model in key.models {
      var i :| 0 <= i < |keys| && keys[i] == key;
      RuleMeaning(key, id, model);
      assert policy.rules[i] == RuleOf(key) && policy.rules[i] in policy.rules;
    }
  }

  /** Keys with valid IDs, no two sharing an ID or a value. */
  ghost predicate CleanKeys(keys: seq<GatewayKey>) {
    && (forall i :: 0 <= i < |keys| ==> ValidKeyId(keys[i].id))
    && (forall i, j :: 0 <= i < j < |keys| ==> keys[i].id != keys[j].id && keys[i].value != keys[j].value)
  }

  lemma PlaceholderIsNoKeyId()
    ensures !ValidKeyId(PLACEHOLDER)
  {
    assert PLACEHOLDER[..2][0] == 'p';
    assert ID_PREFIX[0] == 'k';
  }

  lemma {:induction false} CredentialsMeaning(placeholder: string, keys: seq<GatewayKey>)
    requires CleanKeys(keys)
    ensures var data := CredentialsOf(placeholder, keys);
      && PLACEHOLDER in data && data[PLACEHOLDER] == placeholder
      && (forall i :: 0 <= i < |keys| ==> keys[i].id in data && data[keys[i].id] == keys[i].value)
      && (forall id :: id in data && id != PLACEHOLDER ==> exists i :: 0 <= i < |keys| && keys[i].id == id)
  {
    PlaceholderIsNoKeyId();
    if keys != [] {
      var n := |keys| - 1;
      CredentialsMeaning(placeholder, keys[..n]);
      var data := CredentialsOf(placeholder, keys);
      forall id | id in data && id != PLACEHOLDER ensures exists i :: 0 <= i < |keys| && keys[i].id == id {
        if id != keys[n].id {
          var i :| 0 <= i < n && keys[..n][i].id == id;
          assert keys[i].id == id;
        }
      }
    }
  }

  lemma CleanAccepted(placeholder: string, keys: seq<GatewayKey>)
    requires CleanKeys(keys) && forall i :: 0 <= i < |keys| ==> keys[i].value != placeholder
    ensures Accepted(CredentialsOf(placeholder, keys))
  {
    CredentialsMeaning(placeholder, keys);
  }

  /** Resolved keys are clean: rivals are gone and every ID passed the check. */
  lemma ResolvedKeysClean(secrets: seq<KeySecret>, routes: seq<Route>, gateway: Gateway, routeName: string -> string)
    requires ApiSecrets(secrets) && ApiRoutes(routes)
    ensures CleanKeys(Resolve(secrets, routes, gateway, routeName))
    ensures var keys, chosen := Resolve(secrets, routes, gateway, routeName), RenderedSecrets(secrets, routes, gateway, routeName);
      |keys| == |chosen| && forall i :: 0 <= i < |keys| ==>
        chosen[i] in secrets && keys[i].id == chosen[i].id && keys[i].value == chosen[i].value
  {
    RenderedMeaning(secrets, routes, gateway, routeName);
    var keys, chosen := Resolve(secrets, routes, gateway, routeName), RenderedSecrets(secrets, routes, gateway, routeName);
    forall i | 0 <= i < |keys| ensures Rendered(chosen[i], Elements(secrets), Elements(routes), gateway, routeName) {
      assert chosen[i] in chosen;
    }
    forall i, j | 0 <= i < j < |keys| ensures keys[i].id != keys[j].id && keys[i].value != keys[j].value {
      LessTotal(SecretRef(chosen[i]), SecretRef(chosen[j]));
      assert chosen[i] != chosen[j] && !HasRival(chosen[i], Elements(secrets), Elements(routes), gateway, routeName);
      assert !Clash(chosen[i], chosen[j]);
    }
  }

  /** The Secret's key is rendered and covers the model. */
  ghost predicate Authorizes(s: KeySecret, secrets: set<KeySecret>, routes: set<Route>, gateway: Gateway,
                             routeName: string -> string, model: string) {
    Rendered(s, secrets, routes, gateway, routeName) && Granted(s, routes, gateway, routeName, model)
  }

  ghost predicate Authorized(secrets: set<KeySecret>, routes: set<Route>, gateway: Gateway, routeName: string -> string,
                             value: string, model: string) {
    exists s: KeySecret :: s.value == value && Authorizes(s, secrets, routes, gateway, routeName, model)
  }

  lemma KeyAuthorizes(secrets: seq<KeySecret>, routes: seq<Route>, gateway: Gateway, routeName: string -> string,
                      i: nat, model: string)
    requires ApiSecrets(secrets) && ApiRoutes(routes)
    requires var keys := Resolve(secrets, routes, gateway, routeName); i < |keys| && model in keys[i].models
    ensures var chosen := RenderedSecrets(secrets, routes, gateway, routeName);
      Authorizes(chosen[i], Elements(secrets), Elements(routes), gateway, routeName, model)
  {
    var chosen := RenderedSecrets(secrets, routes, gateway, routeName);
    RenderedMeaning(secrets, routes, gateway, routeName);
    assert chosen[i] in chosen;
    KeyMeaning(chosen[i], routes, gateway, routeName);
  }

  lemma AuthorizesKey(secrets: seq<KeySecret>, routes: seq<Route>, gateway: Gateway, routeName: string -> string,
                      s: KeySecret, model: string)
    requires ApiSecrets(secrets) && ApiRoutes(routes)
    requires Authorizes(s, Elements(secrets), Elements(routes), gateway, routeName, model)
    ensures var keys := Resolve(secrets, routes, gateway, routeName);
      exists i :: 0 <= i < |keys| && keys[i].id == s.id && keys[i].value == s.value && model in keys[i].models
  {
    var chosen := RenderedSecrets(secrets, routes, gateway, routeName);
    RenderedMeaning(secrets, routes, gateway, routeName);
    assert s in chosen;
    var i :| 0 <= i < |chosen| && chosen[i] == s;
    KeyMeaning(s, routes, gateway, routeName);
    assert Resolve(secrets, routes, gateway, routeName)[i] == KeyOf(s, RoutingOf(routes, gateway), routeName);
  }

  /** Over clean keys, a value reaches a model iff one of the keys has both. */
  lemma AllowedByKey(gateway: Gateway, keys: seq<GatewayKey>, placeholder: string, value: string, model: string)
    requires CleanKeys(keys) && forall i :: 0 <= i < |keys| ==> keys[i].value != placeholder
    ensures Allowed(CredentialsOf(placeholder, keys), PolicyOf(gateway, keys), value, model) <==>
      exists i :: 0 <= i < |keys| && keys[i].value == value && model in keys[i].models
  {
    var credentials, policy := CredentialsOf(placeholder, keys), PolicyOf(gateway, keys);
    CleanAccepted(placeholder, keys);
    CredentialsMeaning(placeholder, keys);
    if Allowed(credentials, policy, value, model) {
      var id :| id in credentials && credentials[id] == value && PolicyAllows(policy, id, model);
      PolicyMeaning(gateway, keys, id, model);
      var key :| key in keys && key.id == id && model in key.models;
      var i :| 0 <= i < |keys| && keys[i] == key;
      assert keys[i].value == value;
    }
    if i :| 0 <= i < |keys| && keys[i].value == value && model in keys[i].models {
      assert keys[i] in keys;
      PolicyMeaning(gateway, keys, keys[i].id, model);
    }
  }

  /** No identifier but "k_" and then lower-case letters and digits is ever rendered. */
  lemma RenderedIds(secrets: seq<KeySecret>, routes: seq<Route>, gateway: Gateway, routeName: string -> string, key: GatewayKey)
    requires ApiSecrets(secrets) && ApiRoutes(routes) && key in Resolve(secrets, routes, gateway, routeName)
    ensures exists rest: string :: key.id == "k_" + rest && rest != "" && LowerOrDigits(rest)
  {
    ResolvedKeysClean(secrets, routes, gateway, routeName);
    ValidKeyIdIff(key.id);
  }

  /** Exact authorization: Envoy accepts what is rendered, and then a value reaches a model iff
      it belongs to a Secret with a valid ID, without rival, that is granted the model. */
  lemma ExactAuthorization(secrets: seq<KeySecret>, routes: seq<Route>, gateway: Gateway, routeName: string -> string,
                           placeholder: string, value: string, model: string)
    requires ApiSecrets(secrets) && ApiRoutes(routes)
    requires forall s :: s in secrets ==> s.value != placeholder
    ensures var keys := Resolve(secrets, routes, gateway, routeName);
      var credentials, policy := CredentialsOf(placeholder, keys), PolicyOf(gateway, keys);
      && Accepted(credentials)
      && (Allowed(credentials, policy, value, model) <==>
            Authorized(Elements(secrets), Elements(routes), gateway, routeName, value, model))
      && !Allowed(credentials, policy, placeholder, model)
  {
    var keys, chosen := Resolve(secrets, routes, gateway, routeName), RenderedSecrets(secrets, routes, gateway, routeName);
    ResolvedKeysClean(secrets, routes, gateway, routeName);
    CleanAccepted(placeholder, keys);
    AllowedByKey(gateway, keys, placeholder, value, model);
    AllowedByKey(gateway, keys, placeholder, placeholder, model);
    if i :| 0 <= i < |keys| && keys[i].value == value && model in keys[i].models {
      KeyAuthorizes(secrets, routes, gateway, routeName, i, model);
      assert chosen[i].value == value;
    }
    if s: KeySecret :| s.value == value && Authorizes(s, Elements(secrets), Elements(routes), gateway, routeName, model) {
      AuthorizesKey(secrets, routes, gateway, routeName, s, model);
    }
  }

  // ---------- route locality ----------

  lemma GrantsElsewhere(s: KeySecret, routes: set<Route>, added: Route, gateway: Gateway, routeName: string -> string, model: string)
    requires !Serves(added, gateway, model)
    ensures Granted(s, routes + {added}, gateway, routeName, model) <==> Granted(s, routes, gateway, routeName, model)
  {
    forall r ensures OnlyServer(r, routes + {added}, gateway, model) <==> OnlyServer(r, routes, gateway, model) {
      assert forall q :: q in routes + {added} && Serves(q, gateway, model) <==> q in routes && Serves(q, gateway, model);
    }
  }

  /** Adding (or, read backwards, removing) the route changes nothing on models it does not serve. */
  ghost predicate RouteLocal(secrets: set<KeySecret>, routes: set<Route>, added: Route, gateway: Gateway, routeName: string -> string) {
    forall value, model | !Serves(added, gateway, model) ::
      Authorized(secrets, routes + {added}, gateway, routeName, value, model)
      == Authorized(secrets, routes, gateway, routeName, value, model)
  }

  /** The Secret has a well-formed key and is granted a model that `added` does not serve. */
  ghost predicate GrantedBeside(s: KeySecret, routes: set<Route>, added: Route, gateway: Gateway, routeName: string -> string) {
    ValidKeyId(s.id) && s.value != "" &&
    exists model :: !Serves(added, gateway, model) && Granted(s, routes, gateway, routeName, model)
  }

  /** One of the Secret's references is to the Instance behind the route. */
  ghost predicate RefersBehind(s: KeySecret, r: Route, routeName: string -> string) {
    s.ns != "" && r.ns == s.ns &&
    exists instance: string :: instance != "" && Slashed(s.ns, instance) in ModelRefs(s.models) && r.name == routeName(instance)
  }

  /** The route serves a model that no route serves yet. */
  ghost predicate ServesNew(added: Route, routes: set<Route>, gateway: Gateway) {
    exists model :: Serves(added, gateway, model) && forall q :: q in routes ==> !Serves(q, gateway, model)
  }

  /** Told from the routes as they are: the Secret keeps a grant beside the route, or the route
      brings it one. */
  ghost predicate StaysEligible(s: KeySecret, routes: set<Route>, added: Route, gateway: Gateway, routeName: string -> string) {
    || GrantedBeside(s, routes, added, gateway, routeName)
    || (ValidKeyId(s.id) && s.value != "" && RefersBehind(s, added, routeName) && ServesNew(added, routes, gateway))
  }

  lemma EligibleWithRoute(s: KeySecret, routes: set<Route>, added: Route, gateway: Gateway, routeName: string -> string)
    requires added !in routes
    ensures Eligible(s, routes + {added}, gateway, routeName) <==> StaysEligible(s, routes, added, gateway, routeName)
  {
    hide ValidKeyId, ModelRefs, Slashed;
    var all := routes + {added};
    forall model ensures Granted(s, all, gateway, routeName, model) <==>
      if Serves(added, gateway, model) then RefersBehind(s, added, routeName) && (forall q :: q in routes ==> !Serves(q, gateway, model))
      else Granted(s, routes, gateway, routeName, model)
    {
      if Serves(added, gateway, model) {
        GrantThrough(s, routes, added, gateway, routeName, model);
      } else {
        GrantsElsewhere(s, routes, added, gateway, routeName, model);
      }
    }
  }

  lemma GrantThrough(s: KeySecret, routes: set<Route>, added: Route, gateway: Gateway, routeName: string -> string, model: string)
    requires added !in routes && Serves(added, gateway, model)
    ensures Granted(s, routes + {added}, gateway, routeName, model) <==>
      RefersBehind(s, added, routeName) && forall q :: q in routes ==> !Serves(q, gateway, model)
  {
    hide ValidKeyId, ModelRefs, Slashed, Serves;
    var all := routes + {added};
    assert forall r :: OnlyServer(r, all, gateway, model) ==> r == added;
    assert OnlyServer(added, all, gateway, model) <==> forall q :: q in routes ==> !Serves(q, gateway, model);
  }

  /** Some Secret that shares the ID or the value has a key once the route is added. */
  ghost predicate RivalBeside(s: KeySecret, secrets: set<KeySecret>, routes: set<Route>, added: Route, gateway: Gateway, routeName: string -> string) {
    exists t :: t in secrets && t != s && StaysEligible(t, routes, added, gateway, routeName) && Clash(s, t)
  }

  lemma RivalWithRoute(s: KeySecret, secrets: set<KeySecret>, routes: set<Route>, added: Route, gateway: Gateway, routeName: string -> string)
    requires added !in routes
    ensures HasRival(s, secrets, routes + {added}, gateway, routeName) <==> RivalBeside(s, secrets, routes, added, gateway, routeName)
  {
    hide Eligible, StaysEligible;
    forall t ensures Eligible(t, routes + {added}, gateway, routeName) <==> StaysEligible(t, routes, added, gateway, routeName) {
      EligibleWithRoute(t, routes, added, gateway, routeName);
    }
  }

  /** Told from the routes as they are, for every Secret that is granted a model beside the route:
      it has a rival now iff a Secret that shares its ID or value is granted a model beside the
      route too, or refers behind the route, which then serves a new model. */
  ghost predicate RivalsStay(secrets: set<KeySecret>, routes: set<Route>, added: Route, gateway: Gateway, routeName: string -> string) {
    forall s | s in secrets && GrantedBeside(s, routes, added, gateway, routeName) ::
      HasRival(s, secrets, routes, gateway, routeName) == RivalBeside(s, secrets, routes, added, gateway, routeName)
  }

  /** A Secret granted a model authorizes its value for it exactly when it has no rival. */
  lemma AuthorizedIffNoRival(s: KeySecret, secrets: set<KeySecret>, routes: set<Route>, gateway: Gateway,
                             routeName: string -> string, model: string)
    requires s in secrets && ValidKeyId(s.id) && s.value != "" && Granted(s, routes, gateway, routeName, model)
    ensures Authorized(secrets, routes, gateway, routeName, s.value, model) <==> !HasRival(s, secrets, routes, gateway, routeName)
  {
    assert Eligible(s, routes, gateway, routeName);
    if !HasRival(s, secrets, routes, gateway, routeName) {
      assert Authorizes(s, secrets, routes, gateway, routeName, model);
    }
    if t: KeySecret :| t.value == s.value && Authorizes(t, secrets, routes, gateway, routeName, model) {
      assert t != s ==> Clash(t, s);
    }
  }

  lemma BesideUnchanged(s: KeySecret, secrets: set<KeySecret>, routes: set<Route>, added: Route, gateway: Gateway,
                        routeName: string -> string, model: string)
    requires !Serves(added, gateway, model) && s in secrets && ValidKeyId(s.id) && s.value != ""
    requires Granted(s, routes, gateway, routeName, model)
    ensures Authorized(secrets, routes + {added}, gateway, routeName, s.value, model)
         == Authorized(secrets, routes, gateway, routeName, s.value, model)
      <==> HasRival(s, secrets, routes + {added}, gateway, routeName) == HasRival(s, secrets, routes, gateway, routeName)
  {
    GrantsElsewhere(s, routes, added, gateway, routeName, model);
    AuthorizedIffNoRival(s, secrets, routes, gateway, routeName, model);
    AuthorizedIffNoRival(s, secrets, routes + {added}, gateway, routeName, model);
  }

  lemma LocalIfRivalsStay(secrets: set<KeySecret>, routes: set<Route>, added: Route, gateway: Gateway,
                          routeName: string -> string, value: string, model: string)
    requires added !in routes
    requires RivalsStay(secrets, routes, added, gateway, routeName) && !Serves(added, gateway, model)
    ensures Authorized(secrets, routes + {added}, gateway, routeName, value, model)
         == Authorized(secrets, routes, gateway, routeName, value, model)
  {
    hide RivalBeside;
    if s: KeySecret :| s.value == value && Authorizes(s, secrets, routes + {added}, gateway, routeName, model) {
      GrantsElsewhere(s, routes, added, gateway, routeName, model);
      RivalWithRoute(s, secrets, routes, added, gateway, routeName);
      BesideUnchanged(s, secrets, routes, added, gateway, routeName, model);
    }
    if s: KeySecret :| s.value == value && Authorizes(s, secrets, routes, gateway, routeName, model) {
      RivalWithRoute(s, secrets, routes, added, gateway, routeName);
      BesideUnchanged(s, secrets, routes, added, gateway, routeName, model);
    }
  }

  /** Exactly when adding a route is local. */
  lemma RouteLocalIff(secrets: set<KeySecret>, routes: set<Route>, added: Route, gateway: Gateway, routeName: string -> string)
    ensures RouteLocal(secrets, routes, added, gateway, routeName) <==>
      added in routes || RivalsStay(secrets, routes, added, gateway, routeName)
  {
    if added in routes {
      assert routes + {added} == routes;
    } else {
      NewRouteLocalIff(secrets, routes, added, gateway, routeName);
    }
  }

  lemma NewRouteLocalIff(secrets: set<KeySecret>, routes: set<Route>, added: Route, gateway: Gateway, routeName: string -> string)
    requires added !in routes
    ensures RouteLocal(secrets, routes, added, gateway, routeName) <==> RivalsStay(secrets, routes, added, gateway, routeName)
  {
    hide RivalBeside;
    if RivalsStay(secrets, routes, added, gateway, routeName) {
      forall value, model | !Serves(added, gateway, model)
        ensures Authorized(secrets, routes + {added}, gateway, routeName, value, model)
             == Authorized(secrets, routes, gateway, routeName, value, model)
      {
        LocalIfRivalsStay(secrets, routes, added, gateway, routeName, value, model);
      }
    }
    if RouteLocal(secrets, routes, added, gateway, routeName) {
      forall s | s in secrets && GrantedBeside(s, routes, added, gateway, routeName)
        ensures HasRival(s, secrets, routes, gateway, routeName) == RivalBeside(s, secrets, routes, added, gateway, routeName)
      {
        var model :| !Serves(added, gateway, model) && Granted(s, routes, gateway, routeName, model);
        RivalWithRoute(s, secrets, routes, added, gateway, routeName);
        BesideUnchanged(s, secrets, routes, added, gateway, routeName, model);
      }
    }
  }

  /** With no ID or value shared between Secrets, every route is local. */
  lemma DistinctKeysLocal(secrets: set<KeySecret>, routes: set<Route>, added: Route, gateway: Gateway, routeName: string -> string)
    requires forall s, t :: s in secrets && t in secrets && s != t ==> !Clash(s, t)
    ensures RouteLocal(secrets, routes, added, gateway, routeName)
  {
    RouteLocalIff(secrets, routes, added, gateway, routeName);
  }
}
