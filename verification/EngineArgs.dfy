/** Carrying inherited vLLM arguments over when the engine settings are added to them. */
module EngineArgs {
  import opened Text
  import opened Ints

  const MAIN := "main"

  type Args = seq<string>
  type Quantities = map<string, int>

  /** A container: `args` distinguishes unset from set; `env` maps names to values. */
  datatype Container = Container(name: string, args: Option<Args>, limits: Quantities, requests: Quantities, env: map<string, string>)

  datatype Pod = Pod(containers: seq<Container>, serviceAccount: string)

  const EMPTY_POD := Pod([], "")

  function EmptyContainer(name: string): Container {
    Container(name, None, map[], map[], map[])
  }

  datatype PrefillPods = PrefillPods(template: Option<Pod>, worker: Option<Pod>)

  /** The pod templates of an LLMInferenceService or of one of its configs. */
  datatype Pods = Pods(template: Option<Pod>, worker: Option<Pod>, prefill: Option<PrefillPods>)

  const NO_PODS := Pods(None, None, None)

  datatype Slot = Template | Worker | PrefillTemplate | PrefillWorker

  function PodAt(pods: Pods, slot: Slot): Option<Pod> {
    match slot
    case Template => pods.template
    case Worker => pods.worker
    case PrefillTemplate => if pods.prefill.Some? then pods.prefill.value.template else None
    case PrefillWorker => if pods.prefill.Some? then pods.prefill.value.worker else None
  }

  function Find(containers: seq<Container>, name: string): Option<Container> {
    if containers == [] then None
    else if containers[0].name == name then Some(containers[0])
    else Find(containers[1..], name)
  }

  /** The arguments of a pod's main container, if it has one and they are set. */
  function PodArgs(pod: Option<Pod>): Option<Args> {
    if pod.None? then None
    else match Find(pod.value.containers, MAIN)
      case None => None
      case Some(c) => c.args
  }

  // ---------- KServe's strategic merge of configs ----------

  function MergeContainer(base: Container, over: Container): Container {
    Container(base.name, if over.args.Some? then over.args else base.args,
      base.limits + over.limits, base.requests + over.requests, base.env + over.env)
  }

  /** Containers are merged by name; those only the overlay has are added. */
  function MergeContainers(base: seq<Container>, over: seq<Container>): seq<Container> {
    MergeKnown(base, over) + AddUnknown(base, over)
  }

  function MergeKnown(base: seq<Container>, over: seq<Container>): seq<Container> {
    if base == [] then []
    else
      var same := Find(over, base[0].name);
      [if same.Some? then MergeContainer(base[0], same.value) else base[0]] + MergeKnown(base[1..], over)
  }

  function AddUnknown(base: seq<Container>, over: seq<Container>): seq<Container> {
    if over == [] then []
    else (if Find(base, over[0].name).Some? then [] else [over[0]]) + AddUnknown(base, over[1..])
  }

  function MergePod(base: Option<Pod>, over: Option<Pod>): Option<Pod> {
    if base.None? then over
    else if over.None? then base
    else Some(Pod(MergeContainers(base.value.containers, over.value.containers),
      if over.value.serviceAccount != "" then over.value.serviceAccount else base.value.serviceAccount))
  }

  function MergePods(base: Pods, over: Pods): Pods {
    Pods(MergePod(base.template, over.template), MergePod(base.worker, over.worker),
      if base.prefill.None? then over.prefill
      else if over.prefill.None? then base.prefill
      else Some(PrefillPods(MergePod(base.prefill.value.template, over.prefill.value.template),
                            MergePod(base.prefill.value.worker, over.prefill.value.worker))))
  }

  /** The configs layered in baseRefs order. */
  function MergedConfigs(configs: seq<Pods>): Pods {
    if configs == [] then NO_PODS else MergePods(MergedConfigs(configs[..|configs| - 1]), configs[|configs| - 1])
  }

  /** Merging containers of one name: the overlay's arguments where set, and its entries before
      the base's. */
  lemma MergedContainerFields(base: Container, over: Container, key: string)
    ensures var merged := MergeContainer(base, over);
      && merged.name == base.name && merged.args == (if over.args.Some? then over.args else base.args)
      && (key in merged.limits <==> key in base.limits || key in over.limits)
      && (key in over.limits ==> merged.limits[key] == over.limits[key])
      && (key in base.limits && key !in over.limits ==> merged.limits[key] == base.limits[key])
      && (key in merged.requests <==> key in base.requests || key in over.requests)
      && (key in over.requests ==> merged.requests[key] == over.requests[key])
      && (key in base.requests && key !in over.requests ==> merged.requests[key] == base.requests[key])
      && (key in merged.env <==> key in base.env || key in over.env)
      && (key in over.env ==> merged.env[key] == over.env[key])
      && (key in base.env && key !in over.env ==> merged.env[key] == base.env[key])
  {
  }

  lemma PodAtMerge(base: Pods, over: Pods, slot: Slot)
    ensures PodAt(MergePods(base, over), slot) == MergePod(PodAt(base, slot), PodAt(over, slot))
  {
  }

  lemma {:induction false} FindName(containers: seq<Container>, name: string)
    ensures Find(containers, name).Some? ==> Find(containers, name).value.name == name
  {
    if containers != [] { FindName(containers[1..], name); }
  }

  lemma {:induction false} FindConcat(a: seq<Container>, b: seq<Container>, name: string)
    ensures Find(a + b, name) == if Find(a, name).Some? then Find(a, name) else Find(b, name)
  {
    if a == [] {
      assert a + b == b;
    } else {
      assert (a + b)[1..] == a[1..] + b;
      FindConcat(a[1..], b, name);
    }
  }

  lemma {:induction false} FindKnown(base: seq<Container>, over: seq<Container>, name: string)
    ensures Find(MergeKnown(base, over), name) ==
      match Find(base, name)
      case None => None
      case Some(c) => Some(if Find(over, name).Some? then MergeContainer(c, Find(over, name).value) else c)
  {
    if base != [] { FindKnown(base[1..], over, name); }
  }

  lemma {:induction false} FindUnknown(base: seq<Container>, over: seq<Container>, name: string)
    ensures Find(AddUnknown(base, over), name) == if Find(base, name).Some? then None else Find(over, name)
  {
    if over != [] {
      FindUnknown(base, over[1..], name);
      FindConcat(if Find(base, over[0].name).Some? then [] else [over[0]], AddUnknown(base, over[1..]), name);
    }
  }

  /** Merging acts container by container. */
  lemma FindMerge(base: seq<Container>, over: seq<Container>, name: string)
    ensures Find(MergeContainers(base, over), name) ==
      match Find(base, name)
      case None => Find(over, name)
      case Some(c) => Some(if Find(over, name).Some? then MergeContainer(c, Find(over, name).value) else c)
  {
    FindConcat(MergeKnown(base, over), AddUnknown(base, over), name);
    FindKnown(base, over, name);
    FindUnknown(base, over, name);
  }

  /** The last layer that sets main args wins whole. */
  lemma PodArgsMerge(base: Option<Pod>, over: Option<Pod>)
    ensures PodArgs(MergePod(base, over)) == if PodArgs(over).Some? then PodArgs(over) else PodArgs(base)
  {
    if base.Some? && over.Some? {
      FindMerge(base.value.containers, over.value.containers, MAIN);
    }
  }

  /** Config `j` is the last one that sets the main container's arguments of the template. */
  ghost predicate LastSetter(configs: seq<Pods>, slot: Slot, j: nat) {
    j < |configs| && PodArgs(PodAt(configs[j], slot)).Some? &&
    forall k :: j < k < |configs| ==> PodArgs(PodAt(configs[k], slot)).None?
  }

  /** The merged arguments of a template are those of the last config that sets them. */
  lemma {:induction false} LastSetterWins(configs: seq<Pods>, slot: Slot, j: nat)
    ensures LastSetter(configs, slot, j) ==> PodArgs(PodAt(MergedConfigs(configs), slot)) == PodArgs(PodAt(configs[j], slot))
    ensures (forall k :: 0 <= k < |configs| ==> PodArgs(PodAt(configs[k], slot)).None?) ==>
      PodArgs(PodAt(MergedConfigs(configs), slot)).None?
  {
    hide MergePods, PodArgs, PodAt;
    if configs != [] {
      var init, last := configs[..|configs| - 1], configs[|configs| - 1];
      LastSetterWins(init, slot, j);
      PodAtMerge(MergedConfigs(init), last, slot);
      PodArgsMerge(PodAt(MergedConfigs(init), slot), PodAt(last, slot));
    } else {
      NoPods(slot);
    }
  }

  lemma NoPods(slot: Slot)
    ensures PodArgs(PodAt(MergedConfigs([]), slot)).None?
  {
  }

  /** The arguments in question are those of the pod's first container named main. */
  lemma {:induction false} PodArgsMeaning(pod: Pod, i: nat)
    requires i < |pod.containers| && pod.containers[i].name == "main"
    requires forall j :: 0 <= j < i ==> pod.containers[j].name != "main"
    ensures PodArgs(Some(pod)) == pod.containers[i].args
    decreases |pod.containers|
  {
    if i > 0 { PodArgsMeaning(Pod(pod.containers[1..], pod.serviceAccount), i - 1); }
  }

  // ---------- the provider's own walk over the configs ----------

  /** The API server keeps container names unique within a pod. */
  ghost predicate ApiPod(pod: Option<Pod>) {
    pod.Some? ==> forall i, j :: 0 <= i < j < |pod.value.containers| ==> pod.value.containers[i].name != pod.value.containers[j].name
  }

  ghost predicate ApiPods(pods: Pods) {
    forall slot: Slot :: ApiPod(PodAt(pods, slot))
  }

  function FirstMainArgs(containers: seq<Container>): Option<Args> {
    if containers == [] then None
    else if containers[0].name == MAIN && containers[0].args.Some? then containers[0].args
    else FirstMainArgs(containers[1..])
  }

  function MainArgs(pod: Option<Pod>): Option<Args> {
    if pod.None? then None else FirstMainArgs(pod.value.containers)
  }

  method ReadMainArgs(pod: Option<Pod>) returns (args: Option<Args>)
    ensures args == MainArgs(pod)
  {
    if pod.None? {
      return None;
    }
    var containers := pod.value.containers;
    var i := 0;
    while i < |containers|
      invariant 0 <= i <= |containers|
      invariant FirstMainArgs(containers[i..]) == FirstMainArgs(containers)
    {
      if containers[i].name == MAIN && containers[i].args.Some? {
        return containers[i].args;
      }
      i := i + 1;
    }
    return None;
  }

  lemma {:induction false} FirstMainArgsNone(containers: seq<Container>)
    requires forall i :: 0 <= i < |containers| ==> containers[i].name != MAIN
    ensures FirstMainArgs(containers) == None
  {
    if containers != [] { FirstMainArgsNone(containers[1..]); }
  }

  lemma {:induction false} FirstMainArgsFound(containers: seq<Container>)
    requires forall i, j :: 0 <= i < j < |containers| ==> containers[i].name != containers[j].name
    ensures FirstMainArgs(containers) == PodArgs(Some(Pod(containers, "")))
  {
    if containers != [] {
      if containers[0].name == MAIN {
        FirstMainArgsNone(containers[1..]);
      } else {
        FirstMainArgsFound(containers[1..]);
      }
    }
  }

  lemma MainArgsMeaning(pod: Option<Pod>)
    requires ApiPod(pod)
    ensures MainArgs(pod) == PodArgs(pod)
  {
    if pod.Some? { FirstMainArgsFound(pod.value.containers); }
  }

  datatype Inherited = Inherited(
    template: Option<Args>, worker: Option<Args>, prefill: Option<Args>, prefillWorker: Option<Args>,
    hasWorker: bool, hasPrefill: bool, hasPrefillWorker: bool)

  const NOTHING := Inherited(None, None, None, None, false, false, false)

  function Over(args: Option<Args>, earlier: Option<Args>): Option<Args> {
    if args.Some? then args else earlier
  }

  function Layer(earlier: Inherited, config: Pods): Inherited {
    Inherited(Over(MainArgs(config.template), earlier.template), Over(MainArgs(config.worker), earlier.worker),
      Over(MainArgs(PodAt(config, PrefillTemplate)), earlier.prefill),
      Over(MainArgs(PodAt(config, PrefillWorker)), earlier.prefillWorker),
      earlier.hasWorker || config.worker.Some?, earlier.hasPrefill || config.prefill.Some?,
      earlier.hasPrefillWorker || PodAt(config, PrefillWorker).Some?)
  }

  function InheritedFrom(configs: seq<Pods>): Inherited {
    if configs == [] then NOTHING else Layer(InheritedFrom(configs[..|configs| - 1]), configs[|configs| - 1])
  }

  class InheritedArgs {
    var value: Inherited

    constructor ()
      ensures value == NOTHING
    {
      value := NOTHING;
    }

    method Add(config: Pods)
      modifies this
      ensures value == Layer(old(value), config)
    {
      var args := ReadMainArgs(config.template);
      if args.Some? {
        value := value.(template := args);
      }
      if config.worker.Some? {
        value := value.(hasWorker := true);
        args := ReadMainArgs(config.worker);
        if args.Some? {
          value := value.(worker := args);
        }
      }
      if config.prefill.Some? {
        value := value.(hasPrefill := true);
        args := ReadMainArgs(config.prefill.value.template);
        if args.Some? {
          value := value.(prefill := args);
        }
        if config.prefill.value.worker.Some? {
          value := value.(hasPrefillWorker := true);
          args := ReadMainArgs(config.prefill.value.worker);
          if args.Some? {
            value := value.(prefillWorker := args);
          }
        }
      }
    }
  }

  /** Where configs are looked up: the Instance's namespace, then KServe's (empty if unknown). */
  datatype ConfigStore = ConfigStore(configs: map<(string, string), Pods>, ns: string, kserveNs: string)

  function LookupConfig(store: ConfigStore, name: string): Option<Pods> {
    if (store.ns, name) in store.configs then Some(store.configs[(store.ns, name)])
    else if store.kserveNs != "" && (store.kserveNs, name) in store.configs then Some(store.configs[(store.kserveNs, name)])
    else None
  }

  /** One baseRef: the inline config under its own name, else a stored one, else nothing. */
  function RefConfig(store: ConfigStore, ref: string, inlineName: string, inline_: Option<Pods>): Option<Pods> {
    if inline_.Some? && ref == inlineName then inline_ else LookupConfig(store, ref)
  }

  function ConfigsOf(store: ConfigStore, refs: seq<string>, inlineName: string, inline_: Option<Pods>): seq<Pods> {
    if refs == [] then []
    else
      var config := RefConfig(store, refs[|refs| - 1], inlineName, inline_);
      ConfigsOf(store, refs[..|refs| - 1], inlineName, inline_) + if config.Some? then [config.value] else []
  }

  /** The stores agree on the Instance's namespace, and on KServe's for names not found there. */
  ghost predicate SameUnshadowed(a: ConfigStore, b: ConfigStore) {
    && a.ns == b.ns && a.kserveNs == b.kserveNs
    && (forall name :: (a.ns, name) in a.configs <==> (a.ns, name) in b.configs)
    && (forall name :: (a.ns, name) in a.configs ==> a.configs[(a.ns, name)] == b.configs[(a.ns, name)])
    && (forall name :: a.kserveNs != "" && (a.ns, name) !in a.configs ==>
          && ((a.kserveNs, name) in a.configs <==> (a.kserveNs, name) in b.configs)
          && ((a.kserveNs, name) in a.configs ==> a.configs[(a.kserveNs, name)] == b.configs[(a.kserveNs, name)]))
  }

  /** A config of the Instance's namespace shadows KServe's of the same name, configs of any other
      namespace are never read, and without a KServe namespace only the Instance's own are. */
  lemma {:induction false} OwnNamespaceShadows(a: ConfigStore, b: ConfigStore, refs: seq<string>, inlineName: string, inline_: Option<Pods>)
    requires SameUnshadowed(a, b)
    ensures ConfigsOf(a, refs, inlineName, inline_) == ConfigsOf(b, refs, inlineName, inline_)
  {
    if refs != [] {
      OwnNamespaceShadows(a, b, refs[..|refs| - 1], inlineName, inline_);
      assert LookupConfig(a, refs[|refs| - 1]) == LookupConfig(b, refs[|refs| - 1]);
    }
  }

  /** What one reference stands for: the inline config under its own name, else the config of the
      Instance's namespace, else that of KServe's namespace if it is known, else nothing. */
  lemma OneRef(store: ConfigStore, ref: string, inlineName: string, inline_: Option<Pods>)
    ensures var found := ConfigsOf(store, [ref], inlineName, inline_);
      && (inline_.Some? && ref == inlineName ==> found == [inline_.value])
      && (!(inline_.Some? && ref == inlineName) ==>
            var own, kserve := (store.ns, ref), (store.kserveNs, ref);
            && (own in store.configs ==> found == [store.configs[own]])
            && (own !in store.configs && store.kserveNs != "" && kserve in store.configs ==> found == [store.configs[kserve]])
            && (own !in store.configs && (store.kserveNs == "" || kserve !in store.configs) ==> found == []))
  {
    assert [ref][..0] == [];
    assert ConfigsOf(store, [], inlineName, inline_) == [];
  }

  /** The configs of a list of references are those of its parts, in order. */
  lemma {:induction false} ConfigsConcat(store: ConfigStore, a: seq<string>, b: seq<string>, inlineName: string, inline_: Option<Pods>)
    ensures ConfigsOf(store, a + b, inlineName, inline_) ==
      ConfigsOf(store, a, inlineName, inline_) + ConfigsOf(store, b, inlineName, inline_)
  {
    if b == [] {
      assert a + b == a;
    } else {
      var all := a + b;
      assert all[..|all| - 1] == a + b[..|b| - 1] && all[|all| - 1] == b[|b| - 1];
      ConfigsConcat(store, a, b[..|b| - 1], inlineName, inline_);
    }
  }

  lemma ConfigsNext(store: ConfigStore, refs: seq<string>, inlineName: string, inline_: Option<Pods>, n: nat)
    requires n < |refs|
    ensures var before, after := ConfigsOf(store, refs[..n], inlineName, inline_), ConfigsOf(store, refs[..n + 1], inlineName, inline_);
      match RefConfig(store, refs[n], inlineName, inline_)
      case None => after == before
      case Some(config) => InheritedFrom(after) == Layer(InheritedFrom(before), config)
  {
    assert refs[..n + 1][..n] == refs[..n];
  }

  method ResolveInheritedArgs(store: ConfigStore, refs: seq<string>, inlineName: string, inline_: Option<Pods>)
    returns (inherited: Inherited)
    ensures inherited == InheritedFrom(ConfigsOf(store, refs, inlineName, inline_))
  {
    var found := new InheritedArgs();
    for i := 0 to |refs|
      invariant fresh(found)
      invariant found.value == InheritedFrom(ConfigsOf(store, refs[..i], inlineName, inline_))
    {
      ConfigsNext(store, refs, inlineName, inline_, i);
      if inline_.Some? && refs[i] == inlineName {
        found.Add(inline_.value);
      } else {
        var config := LookupConfig(store, refs[i]);
        if config.Some? {
          found.Add(config.value);
        }
      }
    }
    assert refs[..|refs|] == refs;
    inherited := found.value;
  }

  function InheritedAt(inherited: Inherited, slot: Slot): Option<Args> {
    match slot
    case Template => inherited.template
    case Worker => inherited.worker
    case PrefillTemplate => inherited.prefill
    case PrefillWorker => inherited.prefillWorker
  }

  /** The walk finds just what the strategic merge of the configs holds. */
  lemma {:induction false} InheritedMeaning(configs: seq<Pods>)
    requires forall i :: 0 <= i < |configs| ==> ApiPods(configs[i])
    ensures var merged, inherited := MergedConfigs(configs), InheritedFrom(configs);
      && (forall slot: Slot :: InheritedAt(inherited, slot) == PodArgs(PodAt(merged, slot)))
      && inherited.hasWorker == merged.worker.Some? && inherited.hasPrefill == merged.prefill.Some?
      && inherited.hasPrefillWorker == PodAt(merged, PrefillWorker).Some?
  {
    if configs != [] {
      var earlier, last := configs[..|configs| - 1], configs[|configs| - 1];
      InheritedMeaning(earlier);
      forall slot: Slot ensures InheritedAt(InheritedFrom(configs), slot) == PodArgs(PodAt(MergedConfigs(configs), slot)) {
        PodAtMerge(MergedConfigs(earlier), last, slot);
        PodArgsMerge(PodAt(MergedConfigs(earlier), slot), PodAt(last, slot));
        MainArgsMeaning(PodAt(last, slot));
      }
    }
  }

  // ---------- writing the flags into the spec ----------

  function ArgsOrEmpty(args: Option<Args>): Args {
    if args.Some? then args.value else []
  }

  function SetArgs(containers: seq<Container>, args: Args): seq<Container> {
    if containers == [] then [EmptyContainer(MAIN).(args := Some(args))]
    else if containers[0].name == MAIN then [containers[0].(args := Some(args))] + containers[1..]
    else [containers[0]] + SetArgs(containers[1..], args)
  }

  function SetMainArgs(pod: Option<Pod>, inherited: Option<Args>, flags: Args): Pod {
    var p := if pod.Some? then pod.value else EMPTY_POD;
    p.(containers := SetArgs(p.containers, ArgsOrEmpty(inherited) + flags))
  }

  function WithEngineArgs(spec: Pods, inherited: Inherited, flags: Args): Pods {
    Pods(Some(SetMainArgs(spec.template, inherited.template, flags)),
      if spec.worker.Some? || inherited.hasWorker then Some(SetMainArgs(spec.worker, inherited.worker, flags)) else None,
      if spec.prefill.None? && !inherited.hasPrefill then None
      else Some(PrefillPods(
        Some(SetMainArgs(PodAt(spec, PrefillTemplate), inherited.prefill, flags)),
        if PodAt(spec, PrefillWorker).Some? || inherited.hasPrefillWorker
        then Some(SetMainArgs(PodAt(spec, PrefillWorker), inherited.prefillWorker, flags)) else None)))
  }

  lemma SetArgsStep(containers: seq<Container>, i: nat, args: Args)
    requires i < |containers|
    ensures containers[..i] + SetArgs(containers[i..], args) ==
      if containers[i].name == MAIN then containers[i := containers[i].(args := Some(args))]
      else containers[..i + 1] + SetArgs(containers[i + 1..], args)
  {
    assert containers[i..][0] == containers[i] && containers[i..][1..] == containers[i + 1..];
    assert containers[..i + 1] == containers[..i] + [containers[i]];
  }

  method WriteMainArgs(pod: Pod, inherited: Option<Args>, flags: Args) returns (r: Pod)
    ensures r == SetMainArgs(Some(pod), inherited, flags)
  {
    var args := ArgsOrEmpty(inherited) + flags;
    var containers := pod.containers;
    var i := 0;
    while i < |containers|
      invariant 0 <= i <= |containers|
      invariant SetArgs(containers, args) == containers[..i] + SetArgs(containers[i..], args)
    {
      SetArgsStep(containers, i, args);
      if containers[i].name == MAIN {
        return pod.(containers := containers[i := containers[i].(args := Some(args))]);
      }
      i := i + 1;
    }
    return pod.(containers := containers + [EmptyContainer(MAIN).(args := Some(args))]);
  }

  /** The spec being built, written in place. */
  class PodsSpec {
    var pods: Pods

    constructor (pods: Pods)
      ensures this.pods == pods
    {
      this.pods := pods;
    }

    method ApplyEngineArgs(inherited: Inherited, flags: Args)
      modifies this
      ensures pods == WithEngineArgs(old(pods), inherited, flags)
    {
      if pods.template.None? {
        pods := pods.(template := Some(EMPTY_POD));
      }
      var pod := WriteMainArgs(pods.template.value, inherited.template, flags);
      pods := pods.(template := Some(pod));
      if pods.worker.Some? || inherited.hasWorker {
        if pods.worker.None? {
          pods := pods.(worker := Some(EMPTY_POD));
        }
        pod := WriteMainArgs(pods.worker.value, inherited.worker, flags);
        pods := pods.(worker := Some(pod));
      }
      if pods.prefill.None? && !inherited.hasPrefill {
        return;
      }
      var prefill := if pods.prefill.Some? then pods.prefill.value else PrefillPods(None, None);
      if prefill.template.None? {
        prefill := prefill.(template := Some(EMPTY_POD));
      }
      pod := WriteMainArgs(prefill.template.value, inherited.prefill, flags);
      prefill := prefill.(template := Some(pod));
      if prefill.worker.Some? || inherited.hasPrefillWorker {
        if prefill.worker.None? {
          prefill := prefill.(worker := Some(EMPTY_POD));
        }
        pod := WriteMainArgs(prefill.worker.value, inherited.prefillWorker, flags);
        prefill := prefill.(worker := Some(pod));
      }
      pods := pods.(prefill := Some(prefill));
    }
  }

  // ---------- what the merged result holds ----------

  lemma {:induction false} FindSetArgs(containers: seq<Container>, args: Args, name: string)
    ensures Find(SetArgs(containers, args), name) ==
      if name != MAIN then Find(containers, name)
      else if Find(containers, MAIN).Some? then Some(Find(containers, MAIN).value.(args := Some(args)))
      else Some(EmptyContainer(MAIN).(args := Some(args)))
  {
    if containers != [] && containers[0].name != MAIN {
      FindSetArgs(containers[1..], args, name);
    }
  }

  function ServiceAccountOf(pod: Option<Pod>): string {
    if pod.None? then "" else pod.value.serviceAccount
  }

  /** Only the first main container is rewritten, in its place; one is added behind the others when
      there is none. */
  lemma {:induction false} SetArgsShape(containers: seq<Container>, args: Args, i: nat)
    ensures i < |containers| && (containers[i].name != "main" || exists j :: 0 <= j < i && containers[j].name == "main") ==>
      i < |SetArgs(containers, args)| && SetArgs(containers, args)[i] == containers[i]
    ensures i < |containers| && containers[i].name == "main" && (forall j :: 0 <= j < i ==> containers[j].name != "main") ==>
      i < |SetArgs(containers, args)| && SetArgs(containers, args)[i] == containers[i].(args := Some(args))
    ensures (forall j :: 0 <= j < |containers| ==> containers[j].name != "main") ==>
      SetArgs(containers, args) == containers + [Container("main", Some(args), map[], map[], map[])]
    ensures (exists j :: 0 <= j < |containers| && containers[j].name == "main") ==> |SetArgs(containers, args)| == |containers|
  {
    if containers != [] && containers[0].name != MAIN {
      SetArgsShape(containers[1..], args, if i > 0 then i - 1 else 0);
    }
  }

  /** Two versions of a pod agree but for main's args, which may also exist on one side only. */
  ghost predicate SameButArgs(with: Option<Pod>, without: Option<Pod>) {
    ServiceAccountOf(with) == ServiceAccountOf(without) && forall name ::
      var a, b := ContainerOf(with, name), ContainerOf(without, name);
      if name != MAIN then a == b
      else a.Some? && a.value.(args := None) == (if b.Some? then b.value.(args := None) else EmptyContainer(MAIN))
  }

  function ContainerOf(pod: Option<Pod>, name: string): Option<Container> {
    if pod.None? then None else Find(pod.value.containers, name)
  }

  lemma ContainerOfMerge(base: Option<Pod>, over: Option<Pod>, name: string)
    ensures ContainerOf(MergePod(base, over), name) ==
      match ContainerOf(base, name)
      case None => ContainerOf(over, name)
      case Some(c) => Some(if ContainerOf(over, name).Some? then MergeContainer(c, ContainerOf(over, name).value) else c)
  {
    if base.Some? && over.Some? { FindMerge(base.value.containers, over.value.containers, name); }
  }

  /** One pod template, merged without and with the engine flags. */
  lemma SlotArgs(base: Option<Pod>, spec: Option<Pod>, flags: Args)
    requires PodArgs(spec).None?
    ensures var with := MergePod(base, Some(SetMainArgs(spec, PodArgs(base), flags)));
      var without := MergePod(base, spec);
      && PodArgs(with) == Some(ArgsOrEmpty(PodArgs(without)) + flags)
      && SameButArgs(with, without)
  {
    hide MergePod, SetMainArgs;
    var over := Some(SetMainArgs(spec, PodArgs(base), flags));
    PodArgsMerge(base, spec);
    PodArgsMerge(base, over);
    WrittenArgs(spec, PodArgs(base), flags);
    AccountMerge(base, spec);
    AccountMerge(base, over);
    forall name
      ensures var a, b := ContainerOf(MergePod(base, over), name), ContainerOf(MergePod(base, spec), name);
        if name != MAIN then a == b
        else a.Some? && a.value.(args := None) == (if b.Some? then b.value.(args := None) else EmptyContainer(MAIN))
    {
      SlotContainer(base, spec, PodArgs(base), flags, name);
    }
  }

  lemma WrittenArgs(spec: Option<Pod>, inherited: Option<Args>, flags: Args)
    ensures PodArgs(Some(SetMainArgs(spec, inherited, flags))) == Some(ArgsOrEmpty(inherited) + flags)
    ensures ServiceAccountOf(Some(SetMainArgs(spec, inherited, flags))) == ServiceAccountOf(spec)
  {
    FindSetArgs(if spec.Some? then spec.value.containers else [], ArgsOrEmpty(inherited) + flags, MAIN);
  }

  lemma AccountMerge(base: Option<Pod>, over: Option<Pod>)
    ensures ServiceAccountOf(MergePod(base, over)) ==
      if ServiceAccountOf(over) != "" then ServiceAccountOf(over) else ServiceAccountOf(base)
  {
  }

  lemma SlotContainer(base: Option<Pod>, spec: Option<Pod>, inherited: Option<Args>, flags: Args, name: string)
    ensures var a := ContainerOf(MergePod(base, Some(SetMainArgs(spec, inherited, flags))), name);
      var b := ContainerOf(MergePod(base, spec), name);
      if name != MAIN then a == b
      else a.Some? && a.value.(args := None) == (if b.Some? then b.value.(args := None) else EmptyContainer(MAIN))
  {
    hide MergePod;
    var over, containers := Some(SetMainArgs(spec, inherited, flags)), if spec.Some? then spec.value.containers else [];
    ContainerOfMerge(base, over, name);
    ContainerOfMerge(base, spec, name);
    FindSetArgs(containers, ArgsOrEmpty(inherited) + flags, name);
    FindName(containers, name);
    if base.Some? { FindName(base.value.containers, name); }
  }

  /** A template exists in the merged result: the decode template always, a prefill template
      whenever there is a prefill workload, workers only when they did without the flags. */
  predicate SlotExists(without: Pods, slot: Slot) {
    match slot
    case Template => true
    case Worker => without.worker.Some?
    case PrefillTemplate => without.prefill.Some?
    case PrefillWorker => PodAt(without, PrefillWorker).Some?
  }

  /** For any list of configs and any built spec that sets no main args of its own: layered over
      their merge, the spec with the flags gives each existing template the merged args followed
      by the flags, changes nothing else, and brings up no other template. */
  lemma EngineArgsCarryOver(configs: seq<Pods>, spec: Pods, flags: Args, slot: Slot)
    requires forall i :: 0 <= i < |configs| ==> ApiPods(configs[i])
    requires forall s: Slot :: PodArgs(PodAt(spec, s)).None?
    ensures var base := MergedConfigs(configs);
      var without := MergePods(base, spec);
      var with := MergePods(base, WithEngineArgs(spec, InheritedFrom(configs), flags));
      && (PodAt(with, slot).Some? <==> SlotExists(without, slot))
      && (with.prefill.Some? <==> without.prefill.Some?)
      && (SlotExists(without, slot) ==>
            && PodArgs(PodAt(with, slot)) == Some(ArgsOrEmpty(PodArgs(PodAt(without, slot))) + flags)
            && SameButArgs(PodAt(with, slot), PodAt(without, slot)))
  {
    hide SetMainArgs, SameButArgs, PodArgs, MergePod, MergedConfigs, InheritedFrom, WithEngineArgs, ApiPods;
    var base, inherited := MergedConfigs(configs), InheritedFrom(configs);
    InheritedMeaning(configs);
    PodAtMerge(base, spec, slot);
    PodAtMerge(base, WithEngineArgs(spec, inherited, flags), slot);
    WithArgsAt(spec, inherited, flags, slot);
    MergedExists(PodAt(base, slot), PodAt(spec, slot));
    MergedExists(PodAt(base, slot), PodAt(WithEngineArgs(spec, inherited, flags), slot));
    SlotArgs(PodAt(base, slot), PodAt(spec, slot), flags);
  }

  lemma MergedExists(base: Option<Pod>, over: Option<Pod>)
    ensures MergePod(base, over).Some? <==> base.Some? || over.Some?
  {
  }

  /** The flags are written into every template of the spec, and into those that it adds because
      the configs have them. */
  lemma WithArgsAt(spec: Pods, inherited: Inherited, flags: Args, slot: Slot)
    ensures var written := WithEngineArgs(spec, inherited, flags);
      && (written.prefill.Some? <==> spec.prefill.Some? || inherited.hasPrefill)
      && PodAt(written, slot) ==
        if match slot
           case Template => true
           case Worker => spec.worker.Some? || inherited.hasWorker
           case PrefillTemplate => spec.prefill.Some? || inherited.hasPrefill
           case PrefillWorker => (spec.prefill.Some? || inherited.hasPrefill) && (PodAt(spec, slot).Some? || inherited.hasPrefillWorker)
        then Some(SetMainArgs(PodAt(spec, slot), InheritedAt(inherited, slot), flags)) else None
  {
    hide SetMainArgs;
  }

  // ---------- what vLLM makes of the flags ----------

  /** The engine settings; `gpuMemoryUtilization` is the decimal text of the number. */
  datatype Engine = Engine(maxModelLen: Option<int32>, gpuMemoryUtilization: Option<string>, maxNumSeqs: Option<int32>,
                           dtype: string, quantization: string, kvCacheDtype: string, toolCallParser: string, reasoningParser: string)

  datatype Setting = Setting(flag: string, value: Option<string>)

  function SettingIf(flag: string, value: string): seq<Setting> {
    if value == "" then [] else [Setting(flag, Some(value))]
  }

  function NumberIf(flag: string, value: Option<string>): seq<Setting> {
    if value.None? then [] else [Setting(flag, value)]
  }

  function Text32(n: Option<int32>): Option<string> {
    if n.None? then None else Some(Itoa(n.value))
  }

  const MAX_MODEL_LEN := "--max-model-len"
  const GPU_MEMORY_UTILIZATION := "--gpu-memory-utilization"
  const MAX_NUM_SEQS := "--max-num-seqs"
  const DTYPE := "--dtype"
  const QUANTIZATION := "--quantization"
  const KV_CACHE_DTYPE := "--kv-cache-dtype"
  const ENABLE_AUTO_TOOL_CHOICE := "--enable-auto-tool-choice"
  const TOOL_CALL_PARSER := "--tool-call-parser"
  const REASONING_PARSER := "--reasoning-parser"

  const ENGINE_FLAGS := [MAX_MODEL_LEN, GPU_MEMORY_UTILIZATION, MAX_NUM_SEQS, DTYPE, QUANTIZATION, KV_CACHE_DTYPE,
                         ENABLE_AUTO_TOOL_CHOICE, TOOL_CALL_PARSER, REASONING_PARSER]

  function EngineSettings(e: Engine): seq<Setting> {
    NumberIf(MAX_MODEL_LEN, Text32(e.maxModelLen)) + NumberIf(GPU_MEMORY_UTILIZATION, e.gpuMemoryUtilization)
    + NumberIf(MAX_NUM_SEQS, Text32(e.maxNumSeqs)) + SettingIf(DTYPE, e.dtype) + SettingIf(QUANTIZATION, e.quantization)
    + SettingIf(KV_CACHE_DTYPE, e.kvCacheDtype)
    + ParserSettings(e.toolCallParser) + SettingIf(REASONING_PARSER, e.reasoningParser)
  }

  /** A tool call parser also switches automatic tool choice on. */
  function ParserSettings(parser: string): seq<Setting> {
    if parser == "" then [] else [Setting(ENABLE_AUTO_TOOL_CHOICE, None), Setting(TOOL_CALL_PARSER, Some(parser))]
  }

  function RenderSetting(s: Setting): string {
    if s.value.Some? then s.flag + "=" + s.value.value else s.flag
  }

  function RenderSettings(settings: seq<Setting>): Args {
    if settings == [] then [] else [RenderSetting(settings[0])] + RenderSettings(settings[1..])
  }

  /** The `vllm serve` flags of the engine settings. */
  function EngineFlags(engine: Option<Engine>): Args {
    if engine.None? then [] else RenderSettings(EngineSettings(engine.value))
  }

  lemma {:induction false} RenderConcat(a: seq<Setting>, b: seq<Setting>)
    ensures RenderSettings(a + b) == RenderSettings(a) + RenderSettings(b)
  {
    if a == [] {
      assert a + b == b;
    } else {
      assert (a + b)[1..] == a[1..] + b;
      RenderConcat(a[1..], b);
    }
  }

  /** One more optional setting, rendered behind those before it. */
  lemma RenderNext(done: seq<Setting>, next: seq<Setting>, args: Args)
    requires args == RenderSettings(done) && |next| <= 1
    ensures RenderSettings(done + next) == if next == [] then args else args + [RenderSetting(next[0])]
  {
    RenderConcat(done, next);
    assert next == [] ==> done + next == done;
    assert next != [] ==> next == [next[0]] && RenderSettings(next) == [RenderSetting(next[0])];
  }

  lemma NumberNext(done: seq<Setting>, args: Args, flag: string, value: Option<string>)
    requires args == RenderSettings(done)
    ensures RenderSettings(done + NumberIf(flag, value)) == if value.Some? then args + [flag + "=" + value.value] else args
  {
    RenderNext(done, NumberIf(flag, value), args);
  }

  lemma NumberFirst(flag: string, value: Option<string>)
    ensures RenderSettings(NumberIf(flag, value)) == if value.Some? then [flag + "=" + value.value] else []
  {
    NumberNext([], [], flag, value);
    assert [] + NumberIf(flag, value) == NumberIf(flag, value);
  }

  lemma TextNext(done: seq<Setting>, args: Args, flag: string, value: string)
    requires args == RenderSettings(done)
    ensures RenderSettings(done + SettingIf(flag, value)) == if value != "" then args + [flag + "=" + value] else args
  {
    RenderNext(done, SettingIf(flag, value), args);
  }

  lemma ParserNext(done: seq<Setting>, args: Args, parser: string)
    requires args == RenderSettings(done)
    ensures RenderSettings(done + ParserSettings(parser)) ==
      if parser != "" then args + [ENABLE_AUTO_TOOL_CHOICE, TOOL_CALL_PARSER + "=" + parser] else args
  {
    RenderConcat(done, ParserSettings(parser));
    if parser != "" {
      var bare, valued := Setting(ENABLE_AUTO_TOOL_CHOICE, None), Setting(TOOL_CALL_PARSER, Some(parser));
      RenderConcat([bare], [valued]);
      assert [bare] + [valued] == ParserSettings(parser);
      assert RenderSettings([bare]) == [RenderSetting(bare)] && RenderSettings([valued]) == [RenderSetting(valued)];
    }
  }

  method RenderEngineArgs(engine: Option<Engine>) returns (args: Args)
    ensures args == EngineFlags(engine)
  {
    hide RenderSettings, NumberIf, SettingIf, ParserSettings;
    args := [];
    if engine.None? {
      return;
    }
    var e := engine.value;
    ghost var done := NumberIf(MAX_MODEL_LEN, Text32(e.maxModelLen));
    NumberFirst(MAX_MODEL_LEN, Text32(e.maxModelLen));
    if e.maxModelLen.Some? {
      args := args + [MAX_MODEL_LEN + "=" + Itoa(e.maxModelLen.value)];
    }
    NumberNext(done, args, GPU_MEMORY_UTILIZATION, e.gpuMemoryUtilization);
    done := done + NumberIf(GPU_MEMORY_UTILIZATION, e.gpuMemoryUtilization);
    if e.gpuMemoryUtilization.Some? {
      args := args + [GPU_MEMORY_UTILIZATION + "=" + e.gpuMemoryUtilization.value];
    }
    NumberNext(done, args, MAX_NUM_SEQS, Text32(e.maxNumSeqs));
    done := done + NumberIf(MAX_NUM_SEQS, Text32(e.maxNumSeqs));
    if e.maxNumSeqs.Some? {
      args := args + [MAX_NUM_SEQS + "=" + Itoa(e.maxNumSeqs.value)];
    }
    TextNext(done, args, DTYPE, e.dtype);
    done := done + SettingIf(DTYPE, e.dtype);
    if e.dtype != "" {
      args := args + [DTYPE + "=" + e.dtype];
    }
    TextNext(done, args, QUANTIZATION, e.quantization);
    done := done + SettingIf(QUANTIZATION, e.quantization);
    if e.quantization != "" {
      args := args + [QUANTIZATION + "=" + e.quantization];
    }
    TextNext(done, args, KV_CACHE_DTYPE, e.kvCacheDtype);
    done := done + SettingIf(KV_CACHE_DTYPE, e.kvCacheDtype);
    if e.kvCacheDtype != "" {
      args := args + [KV_CACHE_DTYPE + "=" + e.kvCacheDtype];
    }
    ParserNext(done, args, e.toolCallParser);
    done := done + ParserSettings(e.toolCallParser);
    if e.toolCallParser != "" {
      args := args + [ENABLE_AUTO_TOOL_CHOICE, TOOL_CALL_PARSER + "=" + e.toolCallParser];
    }
    TextNext(done, args, REASONING_PARSER, e.reasoningParser);
    done := done + SettingIf(REASONING_PARSER, e.reasoningParser);
    if e.reasoningParser != "" {
      args := args + [REASONING_PARSER + "=" + e.reasoningParser];
    }
    assert done == EngineSettings(e);
  }

  predicate IsFlag(arg: string) {
    |arg| >= 2 && arg[0] == '-' && arg[1] == '-'
  }

  /** A command line read as settings: `--flag=value`, `--flag value` or a bare `--flag`. */
  function ParseArgs(args: Args): seq<Setting> {
    if args == [] then []
    else if !IsFlag(args[0]) then ParseArgs(args[1..])
    else
      var cut := Cut(args[0], '=');
      if cut.found then [Setting(cut.before, Some(cut.after))] + ParseArgs(args[1..])
      else if |args| > 1 && !IsFlag(args[1]) then [Setting(args[0], Some(args[1]))] + ParseArgs(args[2..])
      else [Setting(args[0], None)] + ParseArgs(args[1..])
  }

  /** vLLM uses the last setting of a repeated flag. */
  function Effective(settings: seq<Setting>, flag: string): Option<Setting> {
    if settings == [] then None
    else if settings[|settings| - 1].flag == flag then Some(settings[|settings| - 1])
    else Effective(settings[..|settings| - 1], flag)
  }

  lemma {:induction false} ParseConcat(a: Args, b: Args)
    requires b == [] || IsFlag(b[0])
    ensures ParseArgs(a + b) == ParseArgs(a) + ParseArgs(b)
    decreases |a|
  {
    hide Cut, IsFlag;
    if a == [] {
      assert a + b == b;
    } else {
      var all := a + b;
      assert all[0] == a[0] && all[1..] == a[1..] + b;
      ParseConcat(a[1..], b);
      if |a| > 1 {
        assert all[1] == a[1] && all[2..] == a[2..] + b;
        ParseConcat(a[2..], b);
      } else {
        assert a[1..] == [] && (b != [] ==> all[1] == b[0]);
      }
    }
  }

  lemma {:induction false} EffectiveConcat(a: seq<Setting>, b: seq<Setting>, flag: string)
    ensures Effective(a + b, flag) == if Effective(b, flag).Some? then Effective(b, flag) else Effective(a, flag)
  {
    if b == [] {
      assert a + b == a;
    } else {
      var all := a + b;
      assert all[..|all| - 1] == a + b[..|b| - 1] && all[|all| - 1] == b[|b| - 1];
      EffectiveConcat(a, b[..|b| - 1], flag);
    }
  }

  /** The setting in effect is the last one of its flag. */
  lemma {:induction false} EffectiveMeaning(settings: seq<Setting>, flag: string, i: nat)
    requires i < |settings| && settings[i].flag == flag
    requires forall j :: i < j < |settings| ==> settings[j].flag != flag
    ensures Effective(settings, flag) == Some(settings[i])
  {
    if i < |settings| - 1 { EffectiveMeaning(settings[..|settings| - 1], flag, i); }
  }

  /** A flag name as written on the command line: it starts with dashes and holds no '='. */
  predicate FlagName(flag: string) {
    IsFlag(flag) && '=' !in flag
  }

  lemma {:induction false} NoCut(s: string, sep: char)
    requires sep !in s
    ensures !Cut(s, sep).found
  {
    if s != [] { NoCut(s[1..], sep); }
  }

  /** Reading the rendered flags back gives the settings. */
  lemma {:induction false} ParseRendered(settings: seq<Setting>)
    requires forall i :: 0 <= i < |settings| ==> FlagName(settings[i].flag)
    ensures ParseArgs(RenderSettings(settings)) == settings
    ensures settings != [] ==> IsFlag(RenderSettings(settings)[0])
  {
    if settings != [] {
      var s, rest := settings[0], RenderSettings(settings[1..]);
      ParseRendered(settings[1..]);
      if s.value.Some? {
        CutMeaning(RenderSetting(s), '=', s.flag, s.value.value);
      } else {
        NoCut(s.flag, '=');
      }
      assert rest != [] ==> settings[1..] != [];
      assert RenderSettings(settings)[1..] == rest;
    }
  }

  ghost predicate FlagsOnce(settings: seq<Setting>) {
    forall i, j :: 0 <= i < j < |settings| ==> settings[i].flag != settings[j].flag
  }

  lemma {:induction false} EffectiveOnce(settings: seq<Setting>, s: Setting)
    requires FlagsOnce(settings) && s in settings
    ensures Effective(settings, s.flag) == Some(s)
  {
    LastMember(settings);
    var init := settings[..|settings| - 1];
    if s != settings[|settings| - 1] {
      var i :| 0 <= i < |init| && init[i] == s;
      EffectiveOnce(init, s);
    }
  }

  lemma EngineFlagName(i: nat)
    requires i < |ENGINE_FLAGS|
    ensures FlagName(ENGINE_FLAGS[i])
  {
  }

  lemma EngineFlagsDiffer(i: nat, j: nat)
    requires i < j < |ENGINE_FLAGS|
    ensures ENGINE_FLAGS[i] != ENGINE_FLAGS[j]
  {
    assert ENGINE_FLAGS[i][2] != ENGINE_FLAGS[j][2] || |ENGINE_FLAGS[i]| != |ENGINE_FLAGS[j]|;
  }

  /** The position of a flag among the engine flags, at or after `from`. */
  function Rank(flag: string, from: nat): int
    requires from <= |ENGINE_FLAGS|
    decreases |ENGINE_FLAGS| - from
  {
    if from == |ENGINE_FLAGS| then -1 else if ENGINE_FLAGS[from] == flag then from else Rank(flag, from + 1)
  }

  lemma {:induction false} RankOfFlag(k: nat, from: nat)
    requires from <= k < |ENGINE_FLAGS|
    ensures Rank(ENGINE_FLAGS[k], from) == k
    decreases k - from
  {
    if from < k {
      EngineFlagsDiffer(from, k);
      RankOfFlag(k, from + 1);
    }
  }

  /** Engine flags with ranks in [lo, hi), in increasing order. */
  ghost predicate Ranked(settings: seq<Setting>, lo: int, hi: int) {
    && (forall i :: 0 <= i < |settings| ==> FlagName(settings[i].flag) && lo <= Rank(settings[i].flag, 0) < hi)
    && (forall i, j :: 0 <= i < j < |settings| ==> Rank(settings[i].flag, 0) < Rank(settings[j].flag, 0))
  }

  lemma RankedConcat(a: seq<Setting>, b: seq<Setting>, lo: int, mid: int, hi: int)
    requires lo <= mid <= hi && Ranked(a, lo, mid) && Ranked(b, mid, hi)
    ensures Ranked(a + b, lo, hi)
  {
    hide Rank, FlagName;
  }

  lemma RankedOne(settings: seq<Setting>, k: nat)
    requires k < |ENGINE_FLAGS| && (settings == [] || (|settings| == 1 && settings[0].flag == ENGINE_FLAGS[k]))
    ensures Ranked(settings, k, k + 1)
  {
    EngineFlagName(k);
    RankOfFlag(k, 0);
  }

  lemma EngineSettingsShape(e: Engine)
    ensures FlagsOnce(EngineSettings(e))
    ensures forall i :: 0 <= i < |EngineSettings(e)| ==> FlagName(EngineSettings(e)[i].flag)
  {
    hide Ranked;
    var s0, s1, s2 := NumberIf(MAX_MODEL_LEN, Text32(e.maxModelLen)), NumberIf(GPU_MEMORY_UTILIZATION, e.gpuMemoryUtilization), NumberIf(MAX_NUM_SEQS, Text32(e.maxNumSeqs));
    var s3, s4, s5 := SettingIf(DTYPE, e.dtype), SettingIf(QUANTIZATION, e.quantization), SettingIf(KV_CACHE_DTYPE, e.kvCacheDtype);
    var s6 := if e.toolCallParser == "" then [] else [Setting(ENABLE_AUTO_TOOL_CHOICE, None)];
    var s7, s8 := SettingIf(TOOL_CALL_PARSER, e.toolCallParser), SettingIf(REASONING_PARSER, e.reasoningParser);
    var parsers := ParserSettings(e.toolCallParser);
    assert parsers == s6 + s7;
    RankedOne(s0, 0); RankedOne(s1, 1); RankedOne(s2, 2); RankedOne(s3, 3); RankedOne(s4, 4);
    RankedOne(s5, 5); RankedOne(s6, 6); RankedOne(s7, 7); RankedOne(s8, 8);
    RankedConcat(s6, s7, 6, 7, 8);
    RankedConcat(s0, s1, 0, 1, 2);
    RankedConcat(s0 + s1, s2, 0, 2, 3);
    RankedConcat(s0 + s1 + s2, s3, 0, 3, 4);
    RankedConcat(s0 + s1 + s2 + s3, s4, 0, 4, 5);
    RankedConcat(s0 + s1 + s2 + s3 + s4, s5, 0, 5, 6);
    RankedConcat(s0 + s1 + s2 + s3 + s4 + s5, parsers, 0, 6, 8);
    RankedConcat(s0 + s1 + s2 + s3 + s4 + s5 + parsers, s8, 0, 8, 9);
    RankedFlags(EngineSettings(e));
  }

  lemma RankedFlags(settings: seq<Setting>)
    requires Ranked(settings, 0, 9)
    ensures FlagsOnce(settings) && forall i :: 0 <= i < |settings| ==> FlagName(settings[i].flag)
  {
    hide Rank, FlagName;
  }

  /** What the engine settings say of the flag at each position of ENGINE_FLAGS: nothing, or
      its value (none for a bare flag). */
  function Asked(e: Engine, k: nat): Option<Option<string>>
    requires k < |ENGINE_FLAGS|
  {
    match k
    case 0 => AskedNumber(Text32(e.maxModelLen))
    case 1 => AskedNumber(e.gpuMemoryUtilization)
    case 2 => AskedNumber(Text32(e.maxNumSeqs))
    case 3 => AskedText(e.dtype)
    case 4 => AskedText(e.quantization)
    case 5 => AskedText(e.kvCacheDtype)
    case 6 => if e.toolCallParser != "" then Some(None) else None
    case 7 => AskedText(e.toolCallParser)
    case _ => AskedText(e.reasoningParser)
  }

  function AskedNumber(value: Option<string>): Option<Option<string>> {
    if value.Some? then Some(value) else None
  }

  function AskedText(value: string): Option<Option<string>> {
    if value != "" then Some(Some(value)) else None
  }

  lemma EngineSettingsMembers(e: Engine, s: Setting)
    ensures s in EngineSettings(e) <==>
      exists k: nat :: k < |ENGINE_FLAGS| && s.flag == ENGINE_FLAGS[k] && Asked(e, k) == Some(s.value)
  {
    hide Itoa;
    var listed := (k: nat) => k < |ENGINE_FLAGS| && s.flag == ENGINE_FLAGS[k] && Asked(e, k) == Some(s.value);
    assert s in NumberIf(MAX_MODEL_LEN, Text32(e.maxModelLen)) <==> listed(0);
    assert s in NumberIf(GPU_MEMORY_UTILIZATION, e.gpuMemoryUtilization) <==> listed(1);
    assert s in NumberIf(MAX_NUM_SEQS, Text32(e.maxNumSeqs)) <==> listed(2);
    assert s in SettingIf(DTYPE, e.dtype) <==> listed(3);
    assert s in SettingIf(QUANTIZATION, e.quantization) <==> listed(4);
    assert s in SettingIf(KV_CACHE_DTYPE, e.kvCacheDtype) <==> listed(5);
    assert s in ParserSettings(e.toolCallParser) <==> listed(6) || listed(7);
    assert s in SettingIf(REASONING_PARSER, e.reasoningParser) <==> listed(8);
  }

  lemma EngineSettingsEffect(inherited: Args, e: Engine, flag: string)
    ensures var settings := EngineSettings(e);
      var effective := Effective(ParseArgs(inherited + RenderSettings(settings)), flag);
      && (forall s :: s in settings && s.flag == flag ==> effective == Some(s))
      && ((forall s :: s in settings ==> s.flag != flag) ==> effective == Effective(ParseArgs(inherited), flag))
  {
    var settings := EngineSettings(e);
    EngineSettingsShape(e);
    ParseRendered(settings);
    ParseConcat(inherited, RenderSettings(settings));
    EffectiveConcat(ParseArgs(inherited), settings, flag);
    forall s | s in settings ensures Effective(settings, s.flag) == Some(s) {
      EffectiveOnce(settings, s);
    }
    EffectiveMember(settings, flag);
  }

  /** Every engine flag that is asked for takes effect with its own value over any inherited
      arguments; every other flag, of the engine or not, keeps its inherited meaning. */
  lemma EngineSettingsWin(inherited: Args, e: Engine, flag: string)
    ensures var effective := Effective(ParseArgs(inherited + EngineFlags(Some(e))), flag);
      && (forall k: nat :: k < |ENGINE_FLAGS| && flag == ENGINE_FLAGS[k] && Asked(e, k).Some? ==>
            effective == Some(Setting(flag, Asked(e, k).value)))
      && ((forall k: nat :: k < |ENGINE_FLAGS| && flag == ENGINE_FLAGS[k] ==> Asked(e, k).None?) ==>
            effective == Effective(ParseArgs(inherited), flag))
  {
    hide EngineSettings, Asked, ParseArgs, RenderSettings, Effective;
    EngineSettingsEffect(inherited, e, flag);
    forall s ensures s in EngineSettings(e) <==>
      exists k: nat :: k < |ENGINE_FLAGS| && s.flag == ENGINE_FLAGS[k] && Asked(e, k) == Some(s.value)
    {
      EngineSettingsMembers(e, s);
    }
    forall k: nat | k < |ENGINE_FLAGS| && flag == ENGINE_FLAGS[k] && Asked(e, k).Some?
      ensures Setting(flag, Asked(e, k).value) in EngineSettings(e)
    {
      EngineSettingsMembers(e, Setting(flag, Asked(e, k).value));
    }
  }

  /** The value of a flag as the engine settings and the inherited arguments give it. */
  ghost predicate InEffect(inherited: Args, e: Engine, flag: string, value: Option<string>) {
    Effective(ParseArgs(inherited + EngineFlags(Some(e))), flag) ==
      if value.Some? then Some(Setting(flag, value)) else Effective(ParseArgs(inherited), flag)
  }

  function TextOf(s: string): Option<string> {
    if s != "" then Some(s) else None
  }

  /** Each setting by the flag that vLLM knows it under. */
  lemma FlagsByName(inherited: Args, e: Engine)
    ensures InEffect(inherited, e, "--max-model-len", if e.maxModelLen.Some? then Some(Itoa(e.maxModelLen.value)) else None)
    ensures InEffect(inherited, e, "--gpu-memory-utilization", e.gpuMemoryUtilization)
    ensures InEffect(inherited, e, "--max-num-seqs", if e.maxNumSeqs.Some? then Some(Itoa(e.maxNumSeqs.value)) else None)
    ensures InEffect(inherited, e, "--dtype", TextOf(e.dtype))
    ensures InEffect(inherited, e, "--quantization", TextOf(e.quantization))
    ensures InEffect(inherited, e, "--kv-cache-dtype", TextOf(e.kvCacheDtype))
    ensures e.toolCallParser != "" ==>
      Effective(ParseArgs(inherited + EngineFlags(Some(e))), "--enable-auto-tool-choice") == Some(Setting("--enable-auto-tool-choice", None))
    ensures InEffect(inherited, e, "--tool-call-parser", TextOf(e.toolCallParser))
    ensures InEffect(inherited, e, "--reasoning-parser", TextOf(e.reasoningParser))
  {
    hide Effective, ParseArgs, EngineFlags, Itoa;
    FlagInEffect(inherited, e, 0);
    FlagInEffect(inherited, e, 1);
    FlagInEffect(inherited, e, 2);
    FlagInEffect(inherited, e, 3);
    FlagInEffect(inherited, e, 4);
    FlagInEffect(inherited, e, 5);
    FlagInEffect(inherited, e, 6);
    FlagInEffect(inherited, e, 7);
    FlagInEffect(inherited, e, 8);
  }

  lemma FlagInEffect(inherited: Args, e: Engine, k: nat)
    requires k < |ENGINE_FLAGS|
    ensures var effective := Effective(ParseArgs(inherited + EngineFlags(Some(e))), ENGINE_FLAGS[k]);
      if Asked(e, k).Some? then effective == Some(Setting(ENGINE_FLAGS[k], Asked(e, k).value))
      else effective == Effective(ParseArgs(inherited), ENGINE_FLAGS[k])
  {
    hide Effective, ParseArgs, EngineFlags, Asked;
    EngineSettingsWin(inherited, e, ENGINE_FLAGS[k]);
    forall j: nat | j < |ENGINE_FLAGS| && ENGINE_FLAGS[j] == ENGINE_FLAGS[k] ensures j == k {
      if j < k { EngineFlagsDiffer(j, k); } else if k < j { EngineFlagsDiffer(k, j); }
    }
  }

  lemma {:induction false} EffectiveMember(settings: seq<Setting>, flag: string)
    ensures Effective(settings, flag).Some? ==> Effective(settings, flag).value in settings && Effective(settings, flag).value.flag == flag
  {
    if settings != [] {
      LastMember(settings);
      EffectiveMember(settings[..|settings| - 1], flag);
    }
  }
}
