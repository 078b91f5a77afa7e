/** The auth reconciler over runs in which it may stop between its writes. */
module AuthRenderer {
  import opened Text
  import opened ApiKeys
  import opened Routes
  import opened GatewayKeys
  import opened GatewayGrants
  import opened GatewayAuth

  datatype Outputs = Outputs(credentials: Option<Credentials>, policy: Option<Policy>)

  /** What one reconcile reads besides its own outputs. */
  datatype Inputs = Inputs(authEnabled: bool, secrets: seq<KeySecret>, routes: seq<Route>)

  datatype Setup = Setup(gateway: Gateway, routeName: string -> string)

  function Placeholder(out: Outputs, generated: string): string {
    if out.credentials.Some? && Lookup(out.credentials.value, PLACEHOLDER) != ""
    then Lookup(out.credentials.value, PLACEHOLDER) else generated
  }

  function Keys(inputs: Inputs, setup: Setup): seq<GatewayKey> {
    Resolve(inputs.secrets, inputs.routes, setup.gateway, setup.routeName)
  }

  function Lookup(m: map<string, string>, key: string): string {
    if key in m then m[key] else ""
  }

  /** The outputs after `writes` of the reconcile's two writes. */
  function Reconciled(out: Outputs, inputs: Inputs, setup: Setup, generated: string, writes: nat): Outputs {
    if inputs.authEnabled then
      Outputs(
        if writes >= 1 then Some(CredentialsOf(Placeholder(out, generated), Keys(inputs, setup))) else out.credentials,
        if writes >= 2 then Some(PolicyOf(setup.gateway, Keys(inputs, setup))) else out.policy)
    else
      Outputs(if writes >= 2 then None else out.credentials, if writes >= 1 then None else out.policy)
  }

  /** The cluster's copy of the outputs; `budget` API writes succeed before the next one fails. */
  class AuthCluster {
    var out: Outputs
    var budget: nat

    method ApplyCredentials(data: Credentials) returns (ok: bool)
      modifies this
      ensures ok == (old(budget) > 0) && budget == if ok then old(budget) - 1 else 0
      ensures out == if ok then old(out).(credentials := Some(data)) else old(out)
    {
      ok := budget > 0;
      if ok { out, budget := out.(credentials := Some(data)), budget - 1; }
    }

    method ApplyPolicy(policy: Policy) returns (ok: bool)
      modifies this
      ensures ok == (old(budget) > 0) && budget == if ok then old(budget) - 1 else 0
      ensures out == if ok then old(out).(policy := Some(policy)) else old(out)
    {
      ok := budget > 0;
      if ok { out, budget := out.(policy := Some(policy)), budget - 1; }
    }

    method DeletePolicy() returns (ok: bool)
      modifies this
      ensures ok == (old(budget) > 0) && budget == if ok then old(budget) - 1 else 0
      ensures out == if ok then old(out).(policy := None) else old(out)
    {
      ok := budget > 0;
      if ok { out, budget := out.(policy := None), budget - 1; }
    }

    method DeleteCredentials() returns (ok: bool)
      modifies this
      ensures ok == (old(budget) > 0) && budget == if ok then old(budget) - 1 else 0
      ensures out == if ok then old(out).(credentials := None) else old(out)
    {
      ok := budget > 0;
      if ok { out, budget := out.(credentials := None), budget - 1; }
    }

    method PlaceholderKey(generated: string) returns (value: string)
      ensures value == Placeholder(out, generated)
    {
      if out.credentials.Some? {
        value := Lookup(out.credentials.value, PLACEHOLDER);
        if value != "" {
          return;
        }
      }
      value := generated;
    }

    method DeleteOutputs() returns (ok: bool)
      modifies this
      ensures ok == (old(budget) >= 2)
      ensures out == Outputs(if old(budget) >= 2 then None else old(out).credentials,
                             if old(budget) >= 1 then None else old(out).policy)
    {
      ok := DeletePolicy();
      if ok {
        ok := DeleteCredentials();
      }
    }

    method Reconcile(inputs: Inputs, setup: Setup, generated: string) returns (ok: bool)
      modifies this
      ensures ok == (old(budget) >= 2)
      ensures out == Reconciled(old(out), inputs, setup, generated, old(budget))
    {
      if !inputs.authEnabled {
        ok := DeleteOutputs();
        return;
      }
      var listed := new KeySecret[|inputs.secrets|](i requires 0 <= i < |inputs.secrets| => inputs.secrets[i]);
      assert listed[..] == inputs.secrets;
      var keys := ResolveGatewayKeys(listed, inputs.routes, setup.gateway, setup.routeName);
      var placeholder := PlaceholderKey(generated);
      var credentials := BuildGatewayCredentials(placeholder, keys);
      ok := ApplyCredentials(credentials);
      if !ok {
        return;
      }
      var policy := BuildGatewayAuthPolicy(setup.gateway, keys);
      ok := ApplyPolicy(policy);
    }
  }

  // ---------- runs ----------

  datatype Attempt = Attempt(inputs: Inputs, generated: string, writes: nat)

  /** The outputs, and the inputs of the reconciles that last wrote each of them. */
  datatype State = State(out: Outputs, credentialsFrom: Inputs, policyFrom: Inputs)

  function Advance(st: State, a: Attempt, setup: Setup): State {
    State(Reconciled(st.out, a.inputs, setup, a.generated, a.writes),
      if a.inputs.authEnabled && a.writes >= 1 then a.inputs else st.credentialsFrom,
      if a.inputs.authEnabled && a.writes >= 2 then a.inputs else st.policyFrom)
  }

  function RunAll(st: State, attempts: seq<Attempt>, setup: Setup): State {
    if attempts == [] then st else Advance(RunAll(st, attempts[..|attempts| - 1], setup), attempts[|attempts| - 1], setup)
  }

  ghost predicate ValidInputs(inputs: Inputs) {
    ApiSecrets(inputs.secrets) && ApiRoutes(inputs.routes)
  }

  ghost predicate ValidAttempt(a: Attempt) {
    ValidInputs(a.inputs) && a.generated != ""
  }

  /** The policy never stands without credentials, credentials always hold a placeholder, and
      each output is the rendering of the inputs it was last written from. */
  ghost predicate Safe(st: State, setup: Setup) {
    && (st.out.policy.Some? ==> st.out.credentials.Some?)
    && CredentialsSafe(st.out.credentials, st.credentialsFrom, setup)
    && PolicySafe(st.out.policy, st.policyFrom, setup)
  }

  lemma PlaceholderStored(placeholder: string, inputs: Inputs, setup: Setup)
    requires ValidInputs(inputs)
    ensures Lookup(CredentialsOf(placeholder, Keys(inputs, setup)), PLACEHOLDER) == placeholder
  {
    ResolvedKeysClean(inputs.secrets, inputs.routes, setup.gateway, setup.routeName);
    CredentialsMeaning(placeholder, Keys(inputs, setup));
  }

  ghost predicate CredentialsSafe(credentials: Option<Credentials>, from: Inputs, setup: Setup) {
    credentials.Some? ==>
      && Lookup(credentials.value, PLACEHOLDER) != "" && ValidInputs(from)
      && credentials.value == CredentialsOf(Lookup(credentials.value, PLACEHOLDER), Keys(from, setup))
  }

  ghost predicate PolicySafe(policy: Option<Policy>, from: Inputs, setup: Setup) {
    policy.Some? ==> ValidInputs(from) && policy.value == PolicyOf(setup.gateway, Keys(from, setup))
  }

  /** One reconcile, wherever it stops, keeps the state safe and the placeholder unchanged. */
  lemma AdvanceSafe(st: State, a: Attempt, setup: Setup)
    requires Safe(st, setup) && ValidAttempt(a)
    ensures Safe(Advance(st, a, setup), setup)
    ensures var next := Advance(st, a, setup);
      st.out.credentials.Some? && next.out.credentials.Some? ==>
        Lookup(next.out.credentials.value, PLACEHOLDER) == Lookup(st.out.credentials.value, PLACEHOLDER)
  {
    hide CredentialsOf, PolicyOf, Keys, ApiSecrets, ApiRoutes;
    WrittenSafe(Placeholder(st.out, a.generated), a.inputs, setup);
  }

  lemma WrittenSafe(placeholder: string, inputs: Inputs, setup: Setup)
    requires ValidInputs(inputs) && placeholder != ""
    ensures var credentials := CredentialsOf(placeholder, Keys(inputs, setup));
      CredentialsSafe(Some(credentials), inputs, setup) && Lookup(credentials, PLACEHOLDER) == placeholder
    ensures PolicySafe(Some(PolicyOf(setup.gateway, Keys(inputs, setup))), inputs, setup)
  {
    PlaceholderStored(placeholder, inputs, setup);
  }

  /** Every state of every run from no outputs is safe. */
  lemma {:induction false} RunsSafe(attempts: seq<Attempt>, start: Inputs, setup: Setup)
    requires forall i :: 0 <= i < |attempts| ==> ValidAttempt(attempts[i])
    ensures Safe(RunAll(State(Outputs(None, None), start, start), attempts, setup), setup)
  {
    if attempts != [] {
      RunsSafe(attempts[..|attempts| - 1], start, setup);
      AdvanceSafe(RunAll(State(Outputs(None, None), start, start), attempts[..|attempts| - 1], setup),
        attempts[|attempts| - 1], setup);
    }
  }

  /** After a complete reconcile, another one on the same inputs changes nothing, wherever it stops. */
  lemma RepeatChangesNothing(out: Outputs, inputs: Inputs, setup: Setup, generated: string, again: string, writes: nat)
    requires ValidInputs(inputs) && generated != ""
    ensures var done := Reconciled(out, inputs, setup, generated, 2);
      Reconciled(done, inputs, setup, again, writes) == done
  {
    PlaceholderStored(Placeholder(out, generated), inputs, setup);
  }

  /** A complete reconcile with authentication on leaves, whatever was there: credentials with the
      placeholder that was stored, or else the generated one, and a policy on the Gateway; and with
      these a value reaches a model exactly when a Secret of the snapshot authorizes it. */
  lemma CompleteReconcile(out: Outputs, inputs: Inputs, setup: Setup, generated: string, placeholder: string, writes: nat,
                          value: string, model: string)
    requires ValidInputs(inputs) && inputs.authEnabled && writes >= 2
    requires placeholder != "" && placeholder ==
      if out.credentials.Some? && "placeholder" in out.credentials.value && out.credentials.value["placeholder"] != ""
      then out.credentials.value["placeholder"] else generated
    requires forall s :: s in inputs.secrets ==> s.value != placeholder
    ensures var after := Reconciled(out, inputs, setup, generated, writes);
      && after.credentials.Some? && after.policy.Some? && after.policy.value.target == setup.gateway
      && "placeholder" in after.credentials.value && after.credentials.value["placeholder"] == placeholder
      && (Allowed(after.credentials.value, after.policy.value, value, model) <==>
            Authorized(Elements(inputs.secrets), Elements(inputs.routes), setup.gateway, setup.routeName, value, model))
  {
    hide Allowed, Authorized, CredentialsOf, Resolve;
    ExactAuthorization(inputs.secrets, inputs.routes, setup.gateway, setup.routeName, placeholder, value, model);
    PlaceholderStored(placeholder, inputs, setup);
    PolicyFields(setup.gateway, Keys(inputs, setup));
  }

  /** What an interrupted reconcile has done: with authentication on the credentials are written
      before the policy, with authentication off the policy is deleted before the credentials. */
  lemma InterruptedReconcile(out: Outputs, inputs: Inputs, setup: Setup, generated: string)
    ensures Reconciled(out, inputs, setup, generated, 0) == out
    ensures inputs.authEnabled ==>
      Reconciled(out, inputs, setup, generated, 1) == Outputs(Reconciled(out, inputs, setup, generated, 2).credentials, out.policy)
    ensures !inputs.authEnabled ==> Reconciled(out, inputs, setup, generated, 1) == Outputs(out.credentials, None)
  {
  }

  /** After any run whose last reconcile is complete and found authentication off, neither the
      policy nor the credentials are left. */
  lemma DisabledLeavesNothing(start: State, attempts: seq<Attempt>, setup: Setup)
    requires attempts != [] && attempts[|attempts| - 1].writes >= 2 && !attempts[|attempts| - 1].inputs.authEnabled
    ensures RunAll(start, attempts, setup).out == Outputs(None, None)
  {
    hide CredentialsOf, PolicyOf, Keys;
  }

  /** What is reachable in any safe state, also between the two writes: the value is that of a
      Secret rendered when the credentials were last written, and its ID was granted the model
      in the snapshot the policy was last written from. */
  lemma AllowedWasGranted(st: State, setup: Setup, value: string, model: string)
    requires Safe(st, setup) && st.out.policy.Some?
    requires Allowed(st.out.credentials.value, st.out.policy.value, value, model)
    ensures exists holder: KeySecret, granted: KeySecret ::
      && holder.id == granted.id && holder.value == value
      && Rendered(holder, Elements(st.credentialsFrom.secrets), Elements(st.credentialsFrom.routes), setup.gateway, setup.routeName)
      && Authorizes(granted, Elements(st.policyFrom.secrets), Elements(st.policyFrom.routes), setup.gateway, setup.routeName, model)
  {
    hide PolicyAllows, Granted, PolicyOf, Resolve, RenderedSecrets, CredentialsOf, Eligible, HasRival;
    var credentials, policy := st.out.credentials.value, st.out.policy.value;
    var id :| id in credentials && credentials[id] == value && PolicyAllows(policy, id, model);
    var granted := PairGranted(st.policyFrom, setup, id, model);
    var keys := Keys(st.credentialsFrom, setup);
    ResolvedKeysClean(st.credentialsFrom.secrets, st.credentialsFrom.routes, setup.gateway, setup.routeName);
    CredentialsMeaning(Lookup(credentials, PLACEHOLDER), keys);
    PlaceholderIsNoKeyId();
    var i :| 0 <= i < |keys| && keys[i].id == id;
    var chosen := RenderedSecrets(st.credentialsFrom.secrets, st.credentialsFrom.routes, setup.gateway, setup.routeName);
    RenderedMeaning(st.credentialsFrom.secrets, st.credentialsFrom.routes, setup.gateway, setup.routeName);
    assert chosen[i] in chosen && chosen[i].id == id && chosen[i].value == value;
  }

  /** A pair a rendered policy allows was granted in its snapshot. */
  lemma PairGranted(from: Inputs, setup: Setup, id: string, model: string) returns (granted: KeySecret)
    requires ValidInputs(from) && PolicyAllows(PolicyOf(setup.gateway, Keys(from, setup)), id, model)
    ensures granted.id == id && ValidKeyId(id)
    ensures Authorizes(granted, Elements(from.secrets), Elements(from.routes), setup.gateway, setup.routeName, model)
  {
    hide PolicyAllows, Granted, PolicyOf, HasRival, RenderedSecrets, RoutingOf, Canonical, Slashed;
    var keys := Keys(from, setup);
    PolicyMeaning(setup.gateway, keys, id, model);
    var key :| key in keys && key.id == id && model in key.models;
    var i :| 0 <= i < |keys| && keys[i] == key;
    KeyAuthorizes(from.secrets, from.routes, setup.gateway, setup.routeName, i, model);
    granted := RenderedSecrets(from.secrets, from.routes, setup.gateway, setup.routeName)[i];
  }
}
