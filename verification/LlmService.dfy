/** Validating an llm Instance and building its LLMInferenceService. */
module LlmService {
  import opened Text
  import opened Ints
  import opened EngineArgs

  const GPU := "nvidia.com/gpu"
  const HPA := "hpa"
  const KEDA := "keda"

  datatype Resources = Resources(limits: Quantities, requests: Quantities)

  /** min/max/actuator of one workload, as configured. */
  datatype Autoscaling = Autoscaling(min: Option<int32>, max: Option<int32>, actuator: string)

  /** A worker group: how many workers, their pipeline size and their resources. */
  datatype Workers = Workers(count: Option<int32>, pipeline: Option<int32>, resources: Option<Resources>)

  /** What building and its checks read of an Instance. `hasPolicy` is whether a scheduling
      policy is set and `serviceAccount` the model puller's, empty without a token Secret. */
  datatype Instance = Instance(
    replicas: Option<int32>, resources: Option<Resources>, hasPolicy: bool, serviceAccount: string,
    scaling: Autoscaling, tensor: Option<int32>, data: Option<int32>, expert: string, workers: Workers,
    computeProfile: string, gpuCount: Option<int32>, kvCacheSpaceGi: Option<int32>,
    baseRefs: seq<string>, configName: string, config: Option<Pods>, engine: Option<Engine>,
    enableGatewayRouting: bool, usesAIGateway: bool,
    enablePrefill: bool, prefillReplicas: Option<int32>, prefillScaling: Autoscaling, prefillWorkers: Workers)

  predicate IsCpu(i: Instance) {
    EqualFold(i.computeProfile, "cpu")
  }

  // ---------- resources ----------

  function HeadResources(res: Option<Resources>, gpuCount: Option<int32>, cpu: bool): Option<Resources> {
    if cpu then res
    else
      var r := if res.Some? then res.value else Resources(map[], map[]);
      Some(r.(limits :=
        if gpuCount.Some? then r.limits[GPU := if gpuCount.value < 1 then 1 else gpuCount.value]
        else if GPU in r.limits then r.limits else r.limits[GPU := 1]))
  }

  method WithGPUCount(res: Option<Resources>, gpuCount: Option<int32>, cpu: bool) returns (r: Option<Resources>)
    ensures r == HeadResources(res, gpuCount, cpu)
  {
    if cpu {
      return res;
    }
    var out := Resources(map[], map[]);
    if res.Some? {
      out := res.value;
    }
    if gpuCount.Some? {
      var count: int := gpuCount.value;
      if count < 1 {
        count := 1;
      }
      out := out.(limits := out.limits[GPU := count]);
    } else if GPU !in out.limits {
      out := out.(limits := out.limits[GPU := 1]);
    }
    return Some(out);
  }

  function Overlay(head: Option<Resources>, overlay: Option<Resources>): Option<Resources> {
    if overlay.None? then head
    else if head.None? then overlay
    else Some(Resources(head.value.limits + overlay.value.limits, head.value.requests + overlay.value.requests))
  }

  /** The range loop over a resource list, in any order of its keys. */
  method SetAll(list: Quantities, overlay: Quantities) returns (r: Quantities)
    ensures r == list + overlay
  {
    r := list;
    var todo := overlay.Keys;
    while todo != {}
      invariant todo <= overlay.Keys
      invariant r.Keys == list.Keys + (overlay.Keys - todo)
      invariant forall k :: k in r ==> r[k] == if k in overlay.Keys - todo then overlay[k] else list[k]
      decreases todo
    {
      var k :| k in todo;
      r := r[k := overlay[k]];
      todo := todo - {k};
    }
  }

  method OverlayResources(head: Option<Resources>, overlay: Option<Resources>) returns (r: Option<Resources>)
    ensures r == Overlay(head, overlay)
  {
    if overlay.None? {
      return head;
    }
    if head.None? {
      return overlay;
    }
    var out := head.value;
    var limits := SetAll(out.limits, overlay.value.limits);
    var requests := SetAll(out.requests, overlay.value.requests);
    return Some(Resources(limits, requests));
  }

  function MirrorLimits(res: Resources): Resources {
    Resources(res.limits, res.limits + res.requests)
  }

  // ---------- validation ----------

  predicate Enabled(s: Autoscaling) {
    s.min.Some? || s.max.Some? || s.actuator != ""
  }

  function ResolvedActuator(actuator: string): string {
    if EqualFold(TrimSpace(actuator), HPA) then HPA else KEDA
  }

  predicate ValidScaling(s: Autoscaling) {
    !Enabled(s) || (
      && s.max.Some? && s.max.value >= 1
      && (s.min.Some? ==> 1 <= s.min.value <= s.max.value)
      && (TrimSpace(s.actuator) == "" || EqualFold(TrimSpace(s.actuator), HPA) || EqualFold(TrimSpace(s.actuator), KEDA)))
  }

  predicate ValidWorkers(w: Workers) {
    if w.count.None? then w.resources.None?
    else w.count.value >= 1 && w.pipeline.Some? && w.pipeline.value == ToInt32(w.count.value + 1)
  }

  predicate EnoughGpus(res: Option<Resources>, tensor: Option<int32>, cpu: bool) {
    cpu || tensor.None? || tensor.value < 1 || res.None? || GPU !in res.value.limits || res.value.limits[GPU] >= tensor.value
  }

  /** The numeric, scaling, worker and GPU checks of validateLLM. */
  predicate Accepted(i: Instance) {
    var effective := HeadResources(i.resources, i.gpuCount, IsCpu(i));
    && (i.replicas.Some? ==> i.replicas.value >= 0)
    && !(i.data.Some? && i.data.value > 1 && i.workers.pipeline.Some? && i.workers.pipeline.value > 1)
    && ValidScaling(i.scaling)
    && (Enabled(i.prefillScaling) ==> i.enablePrefill)
    && ValidScaling(i.prefillScaling)
    && (Enabled(i.scaling) && Enabled(i.prefillScaling) ==>
          ResolvedActuator(i.scaling.actuator) == ResolvedActuator(i.prefillScaling.actuator))
    && ValidWorkers(i.workers)
    && (i.gpuCount.Some? ==> !IsCpu(i) && i.gpuCount.value >= 1)
    && EnoughGpus(effective, i.tensor, IsCpu(i))
    && (i.workers.count.Some? ==> EnoughGpus(Overlay(effective, i.workers.resources), i.tensor, IsCpu(i)))
    && (i.prefillWorkers.count.Some? || i.prefillWorkers.resources.Some? ==> i.enablePrefill)
    && ValidWorkers(i.prefillWorkers)
    && (i.prefillWorkers.count.Some? ==> EnoughGpus(Overlay(effective, i.prefillWorkers.resources), i.tensor, IsCpu(i)))
  }

  /** The checks in the order they are made. */
  method ValidateLlm(i: Instance) returns (ok: bool)
    ensures ok <==> Accepted(i)
  {
    hide ValidScaling, ValidWorkers, EnoughGpus, Overlay, HeadResources, EqualFold, ResolvedActuator;
    if i.replicas.Some? && i.replicas.value < 0 {
      return false;
    }
    if i.data.Some? && i.data.value > 1 && i.workers.pipeline.Some? && i.workers.pipeline.value > 1 {
      return false;
    }
    if !ValidScaling(i.scaling) {
      return false;
    }
    if Enabled(i.prefillScaling) && !i.enablePrefill {
      return false;
    }
    if !ValidScaling(i.prefillScaling) {
      return false;
    }
    if Enabled(i.scaling) && Enabled(i.prefillScaling)
      && ResolvedActuator(i.scaling.actuator) != ResolvedActuator(i.prefillScaling.actuator) {
      return false;
    }
    if !ValidWorkers(i.workers) {
      return false;
    }
    var cpu := IsCpu(i);
    if i.gpuCount.Some? && (cpu || i.gpuCount.value < 1) {
      return false;
    }
    var effective := WithGPUCount(i.resources, i.gpuCount, cpu);
    if !EnoughGpus(effective, i.tensor, cpu) {
      return false;
    }
    if i.workers.count.Some? {
      var res := OverlayResources(effective, i.workers.resources);
      if !EnoughGpus(res, i.tensor, cpu) {
        return false;
      }
    }
    if (i.prefillWorkers.count.Some? || i.prefillWorkers.resources.Some?) && !i.enablePrefill {
      return false;
    }
    if !ValidWorkers(i.prefillWorkers) {
      return false;
    }
    if i.prefillWorkers.count.Some? {
      var res := OverlayResources(effective, i.prefillWorkers.resources);
      if !EnoughGpus(res, i.tensor, cpu) {
        return false;
      }
    }
    return true;
  }

  // ---------- building ----------

  datatype ScalingSpec = ScalingSpec(min: Option<int32>, max: int32, hpa: bool, keda: bool)

  datatype Parallelism = Parallelism(tensor: Option<int32>, pipeline: Option<int32>, data: Option<int32>, dataLocal: Option<int32>, expert: bool)

  datatype Sizing = Sizing(replicas: Option<int32>, scaling: Option<ScalingSpec>, parallelism: Option<Parallelism>)

  datatype LlmSpec = LlmSpec(pods: Pods, decode: Sizing, prefill: Option<Sizing>, baseRefs: seq<string>)

  function BuildScaling(s: Autoscaling): Option<ScalingSpec> {
    if !Enabled(s) || s.max.None? then None
    else
      var hpa := ResolvedActuator(s.actuator) == HPA;
      Some(ScalingSpec(s.min, s.max.value, hpa, !hpa))
  }

  function DecodeParallelism(i: Instance): Option<Parallelism> {
    var expert := EqualFold(i.expert, "enabled");
    var data := i.data.Some? && i.data.value > 1;
    if i.tensor.None? && i.workers.pipeline.None? && !data && !expert then None
    else if data then Some(Parallelism(i.tensor, None, i.data, i.data, expert))
    else Some(Parallelism(i.tensor, i.workers.pipeline, None, None, expert))
  }

  function GpuEnv(cpu: bool): map<string, string> {
    if cpu then map[] else map["LIBRARY_PATH" := "/usr/lib/x86_64-linux-gnu:/usr/local/cuda/lib64"]
  }

  function WorkerPod(res: Option<Resources>, cpu: bool): Pod {
    var r := if res.Some? then res.value else Resources(map[], map[]);
    Pod([Container(MAIN, None, r.limits, r.requests, GpuEnv(cpu))], "")
  }

  /** A main container carrying the effective resources, mirrored into requests on CPU. */
  function HeadContainer(res: Option<Resources>, cpu: bool, env: map<string, string>): Container {
    var r := if res.None? then Resources(map[], map[]) else if cpu then MirrorLimits(res.value) else res.value;
    Container(MAIN, None, r.limits, r.requests, env)
  }

  function HeadEnv(i: Instance): map<string, string> {
    if IsCpu(i) && i.kvCacheSpaceGi.Some? then
      map["VLLM_CPU_KVCACHE_SPACE" := Decimal(if i.kvCacheSpaceGi.value < 1 then 1 else i.kvCacheSpaceGi.value)]
    else GpuEnv(IsCpu(i))
  }

  function HeadPod(i: Instance, res: Option<Resources>): Option<Pod> {
    var overridden := res.Some? || !IsCpu(i) || i.kvCacheSpaceGi.Some?;
    if overridden then Some(Pod([HeadContainer(res, IsCpu(i), HeadEnv(i))], i.serviceAccount))
    else if i.serviceAccount != "" || i.hasPolicy then Some(Pod([], i.serviceAccount))
    else None
  }

  function PrefillHead(i: Instance, res: Option<Resources>): Option<Pod> {
    if res.Some? || !IsCpu(i) then Some(Pod([HeadContainer(res, IsCpu(i), GpuEnv(IsCpu(i)))], ""))
    else if i.hasPolicy then Some(EMPTY_POD)
    else None
  }

  function WorkersPod(w: Workers, res: Option<Resources>, cpu: bool): Option<Pod> {
    if w.count.None? then None else Some(WorkerPod(Overlay(res, w.resources), cpu))
  }

  function BasePods(i: Instance): Pods {
    var res := HeadResources(i.resources, i.gpuCount, IsCpu(i));
    Pods(HeadPod(i, res), WorkersPod(i.workers, res, IsCpu(i)),
      if i.enablePrefill then Some(PrefillPods(PrefillHead(i, res), WorkersPod(i.prefillWorkers, res, IsCpu(i)))) else None)
  }

  function BaseRefs(i: Instance): seq<string> {
    (if IsCpu(i) then ["kserve-config-llm-cpu"] else [])
    + (if i.enableGatewayRouting || i.usesAIGateway then ["kserve-config-llm-scheduler"] else [])
    + (if i.enableGatewayRouting then ["kserve-config-llm-router-route"] else [])
    + i.baseRefs
    + (if i.config.Some? then [i.configName] else [])
  }

  function DecodeSizing(i: Instance): Sizing {
    if Enabled(i.scaling) then Sizing(None, BuildScaling(i.scaling), DecodeParallelism(i))
    else Sizing(i.replicas, None, DecodeParallelism(i))
  }

  function PrefillSizing(i: Instance): Sizing {
    var parallelism := if i.prefillWorkers.pipeline.Some?
      then Some(Parallelism(None, i.prefillWorkers.pipeline, None, None, false)) else None;
    if Enabled(i.prefillScaling) then Sizing(None, BuildScaling(i.prefillScaling), parallelism)
    else Sizing(i.prefillReplicas, None, parallelism)
  }

  /** The configs the Instance's baseRefs resolve to. */
  function BaseConfigs(i: Instance, store: ConfigStore): seq<Pods> {
    ConfigsOf(store, BaseRefs(i), i.configName, i.config)
  }

  function Build(i: Instance, store: ConfigStore): LlmSpec {
    var flags := EngineFlags(i.engine);
    LlmSpec(
      if flags == [] then BasePods(i) else WithEngineArgs(BasePods(i), InheritedFrom(BaseConfigs(i, store)), flags),
      DecodeSizing(i), if i.enablePrefill then Some(PrefillSizing(i)) else None, BaseRefs(i))
  }

  method BuildPrefill(i: Instance, effective: Option<Resources>) returns (pods: PrefillPods, sizing: Sizing)
    ensures pods == PrefillPods(PrefillHead(i, effective), WorkersPod(i.prefillWorkers, effective, IsCpu(i)))
    ensures sizing == PrefillSizing(i)
  {
    hide EqualFold, BuildScaling, Enabled, Overlay, WorkerPod, PrefillHead;
    sizing := Sizing(None, None, None);
    if Enabled(i.prefillScaling) {
      sizing := sizing.(scaling := BuildScaling(i.prefillScaling));
    } else if i.prefillReplicas.Some? {
      sizing := sizing.(replicas := i.prefillReplicas);
    }
    if i.prefillWorkers.pipeline.Some? {
      sizing := sizing.(parallelism := Some(Parallelism(None, i.prefillWorkers.pipeline, None, None, false)));
    }
    var template := BuildPrefillHead(i, effective);
    pods := PrefillPods(template, None);
    if i.prefillWorkers.count.Some? {
      var res := OverlayResources(effective, i.prefillWorkers.resources);
      pods := pods.(worker := Some(WorkerPod(res, IsCpu(i))));
    }
  }

  method BuildPrefillHead(i: Instance, effective: Option<Resources>) returns (template: Option<Pod>)
    ensures template == PrefillHead(i, effective)
  {
    hide EqualFold, MirrorLimits;
    var main := EmptyContainer(MAIN);
    var haveMain := false;
    if effective.Some? {
      main := HeadContainer(effective, IsCpu(i), map[]);
      haveMain := true;
    }
    if !IsCpu(i) {
      main := main.(env := GpuEnv(false));
      haveMain := true;
    }
    template := None;
    if haveMain {
      template := Some(Pod([main], ""));
    }
    if i.hasPolicy && template.None? {
      template := Some(EMPTY_POD);
    }
  }

  method BuildLLMInferenceService(i: Instance, store: ConfigStore) returns (spec: LlmSpec)
    ensures spec == Build(i, store)
  {
    hide EqualFold, BuildScaling, Enabled, HeadResources, HeadPod, PrefillHead, PrefillSizing, DecodeParallelism, WithEngineArgs, ConfigsOf, BaseRefs, EngineFlags, Overlay, WorkerPod;
    spec := LlmSpec(NO_PODS, Sizing(None, None, None), None, []);
    if Enabled(i.scaling) {
      spec := spec.(decode := spec.decode.(scaling := BuildScaling(i.scaling)));
    } else if i.replicas.Some? {
      spec := spec.(decode := spec.decode.(replicas := i.replicas));
    }
    spec := spec.(decode := spec.decode.(parallelism := DecodeParallelism(i)));
    var cpu := IsCpu(i);
    var effective := WithGPUCount(i.resources, i.gpuCount, cpu);
    if i.workers.count.Some? {
      var res := OverlayResources(effective, i.workers.resources);
      spec := spec.(pods := spec.pods.(worker := Some(WorkerPod(res, cpu))));
    }
    var template := BuildHead(i, effective);
    spec := spec.(pods := spec.pods.(template := template));
    spec := spec.(baseRefs := BaseRefs(i));
    if i.enablePrefill {
      var pods, sizing := BuildPrefill(i, effective);
      spec := spec.(pods := spec.pods.(prefill := Some(pods)), prefill := Some(sizing));
    }
    var flags := RenderEngineArgs(i.engine);
    if |flags| > 0 {
      var inherited := ResolveInheritedArgs(store, spec.baseRefs, i.configName, i.config);
      var written := new PodsSpec(spec.pods);
      written.ApplyEngineArgs(inherited, flags);
      spec := spec.(pods := written.pods);
    }
  }

  method BuildHead(i: Instance, effective: Option<Resources>) returns (template: Option<Pod>)
    ensures template == HeadPod(i, effective)
  {
    var cpu := IsCpu(i);
    var main := EmptyContainer(MAIN);
    var haveMain := false;
    if effective.Some? {
      main := HeadContainer(effective, cpu, map[]);
      haveMain := true;
    }
    if cpu && i.kvCacheSpaceGi.Some? {
      var kv: int := i.kvCacheSpaceGi.value;
      if kv < 1 {
        kv := 1;
      }
      main := main.(env := map["VLLM_CPU_KVCACHE_SPACE" := Decimal(kv)]);
      haveMain := true;
    }
    if !cpu {
      main := main.(env := GpuEnv(false));
      haveMain := true;
    }
    template := None;
    if haveMain {
      template := Some(Pod([main], ""));
    }
    if i.serviceAccount != "" {
      if template.None? {
        template := Some(EMPTY_POD);
      }
      template := Some(template.value.(serviceAccount := i.serviceAccount));
    }
    if i.hasPolicy && template.None? {
      template := Some(EMPTY_POD);
    }
  }

  // ---------- accepted implies well built ----------

  /** Replicas and scaling exclude each other, as do pipeline and data parallelism, and scaling
      has 1 <= min <= max and exactly one actuator. */
  predicate WellSized(s: Sizing) {
    && !(s.replicas.Some? && s.scaling.Some?)
    && (s.parallelism.Some? ==> !(s.parallelism.value.pipeline.Some? && s.parallelism.value.data.Some?))
    && (s.scaling.Some? ==>
          && 1 <= s.scaling.value.max
          && (s.scaling.value.min.Some? ==> 1 <= s.scaling.value.min.value <= s.scaling.value.max)
          && s.scaling.value.hpa != s.scaling.value.keda)
  }

  /** Autoscaling as configured ends up in the spec. */
  predicate Scales(s: Sizing, configured: Autoscaling) {
    s.scaling.Some? == Enabled(configured) &&
    (s.scaling.Some? ==> s.scaling.value.min == configured.min && Some(s.scaling.value.max) == configured.max)
  }

  lemma SizingWellBuilt(i: Instance, store: ConfigStore)
    requires Accepted(i)
    ensures var spec := Build(i, store);
      && WellSized(spec.decode) && Scales(spec.decode, i.scaling)
      && (spec.prefill.Some? <==> i.enablePrefill)
      && (spec.prefill.Some? ==> WellSized(spec.prefill.value) && Scales(spec.prefill.value, i.prefillScaling))
      && (spec.decode.scaling.Some? && spec.prefill.Some? && spec.prefill.value.scaling.Some? ==>
            spec.decode.scaling.value.hpa == spec.prefill.value.scaling.value.hpa)
  {
    hide WithEngineArgs, InheritedFrom, BasePods, EngineFlags, EqualFold, TrimSpace, BaseRefs, ConfigsOf, EnoughGpus, HeadResources, ValidWorkers, Overlay;
  }

  /** A requested worker group has pipeline parallelism over the head and every worker, and no
      data parallelism. */
  predicate PipelinesOver(s: Sizing, count: int) {
    s.parallelism.Some? && s.parallelism.value.data.None? &&
    s.parallelism.value.pipeline.Some? && s.parallelism.value.pipeline.value == count + 1
  }

  /** It holds exactly for the counts that have a successor in int32, in which validation adds. */
  lemma WorkersWellBuilt(i: Instance, store: ConfigStore)
    requires Accepted(i)
    ensures var spec := Build(i, store);
      && (i.workers.count.Some? ==>
            (PipelinesOver(spec.decode, i.workers.count.value) <==> i.workers.count.value != MAX_INT32))
      && (i.enablePrefill && i.prefillWorkers.count.Some? ==>
            (PipelinesOver(spec.prefill.value, i.prefillWorkers.count.value) <==> i.prefillWorkers.count.value != MAX_INT32))
  {
    hide WithEngineArgs, InheritedFrom, BasePods, EngineFlags, EqualFold, TrimSpace, BaseRefs, ConfigsOf, EnoughGpus, HeadResources, ValidScaling, Overlay;
  }

  /** An Instance with a worker group and no other setting. */
  function WorkerInstance(count: int32, pipeline: int32): Instance {
    var off, none := Autoscaling(None, None, ""), Workers(None, None, None);
    Instance(None, None, false, "", off, None, None, "", Workers(Some(count), Some(pipeline), None),
      "", None, None, [], "", None, None, false, false, false, None, off, none)
  }

  /** The largest count is accepted, and the object built has a negative pipeline size. */
  lemma LargestWorkerCountAccepted(store: ConfigStore)
    ensures var i := WorkerInstance(MAX_INT32, MIN_INT32);
      && Accepted(i)
      && Build(i, store).decode.parallelism.Some?
      && Build(i, store).decode.parallelism.value.pipeline == Some(MIN_INT32)
  {
    hide WithEngineArgs, InheritedFrom, ConfigsOf;
  }

  // ---------- GPUs ----------

  /** The pod's main container has a GPU limit of at least `n`. */
  predicate HasGpus(pod: Option<Pod>, n: int) {
    var main := ContainerOf(pod, "main");
    main.Some? && "nvidia.com/gpu" in main.value.limits && main.value.limits["nvidia.com/gpu"] >= n
  }

  /** The pods that the Instance asks for. */
  predicate Requested(i: Instance, slot: Slot) {
    match slot
    case Template => true
    case Worker => i.workers.count.Some?
    case PrefillTemplate => i.enablePrefill
    case PrefillWorker => i.enablePrefill && i.prefillWorkers.count.Some?
  }

  lemma BasePodHasGpus(i: Instance, slot: Slot)
    requires Accepted(i) && !IsCpu(i) && i.tensor.Some? && i.tensor.value >= 1 && Requested(i, slot)
    ensures PodAt(BasePods(i), slot).Some? && HasGpus(PodAt(BasePods(i), slot), i.tensor.value)
  {
    hide Enabled, ValidScaling, ResolvedActuator, EqualFold;
  }

  lemma FlagsKeepGpus(pod: Option<Pod>, inherited: Option<Args>, flags: Args, n: int)
    requires HasGpus(pod, n)
    ensures HasGpus(Some(SetMainArgs(pod, inherited, flags)), n)
  {
    FindSetArgs(pod.value.containers, ArgsOrEmpty(inherited) + flags, MAIN);
  }

  /** On the GPU profile every requested pod has a GPU limit of at least tensorParallelSize. */
  lemma GpusWellBuilt(i: Instance, store: ConfigStore, slot: Slot)
    requires Accepted(i) && !IsCpu(i) && i.tensor.Some? && i.tensor.value >= 1 && Requested(i, slot)
    ensures HasGpus(PodAt(Build(i, store).pods, slot), i.tensor.value)
  {
    hide Accepted, IsCpu, BasePods, EngineFlags, ConfigsOf, SetMainArgs, HasGpus;
    BasePodHasGpus(i, slot);
    var inherited := InheritedFrom(BaseConfigs(i, store));
    FlagsKeepGpus(PodAt(BasePods(i), slot), InheritedAt(inherited, slot), EngineFlags(i.engine), i.tensor.value);
  }

  // ---------- resources and environment of the requested pods ----------

  function Quantity(quantities: Quantities, key: string): Option<int> {
    if key in quantities then Some(quantities[key]) else None
  }

  function OrElse(first: Option<int>, second: Option<int>): Option<int> {
    if first.Some? then first else second
  }

  /** What a worker group sets for its own pods. */
  function OwnResources(i: Instance, slot: Slot): Resources {
    match slot
    case Worker => ResourcesOrNone(i.workers.resources)
    case PrefillWorker => ResourcesOrNone(i.prefillWorkers.resources)
    case _ => ResourcesOrNone(None)
  }

  function ResourcesOrNone(res: Option<Resources>): Resources {
    if res.Some? then res.value else Resources(map[], map[])
  }

  /** A worker group's own limit comes first, then the GPU count, then the component's limit,
      and a GPU pod without any of them gets one GPU. */
  function LimitOf(i: Instance, slot: Slot, key: string): Option<int> {
    var configured := Quantity(ResourcesOrNone(i.resources).limits, key);
    var head := if key != "nvidia.com/gpu" || IsCpu(i) then configured
      else if i.gpuCount.Some? then Some(if i.gpuCount.value < 1 then 1 else i.gpuCount.value)
      else OrElse(configured, Some(1));
    OrElse(Quantity(OwnResources(i, slot).limits, key), head)
  }

  /** Heads of the CPU profile request what they are limited to, unless they request otherwise. */
  function RequestOf(i: Instance, slot: Slot, key: string): Option<int> {
    var configured := Quantity(ResourcesOrNone(i.resources).requests, key);
    if slot == Worker || slot == PrefillWorker then OrElse(Quantity(OwnResources(i, slot).requests, key), configured)
    else if IsCpu(i) then OrElse(configured, LimitOf(i, slot, key))
    else configured
  }

  function MainOf(pod: Option<Pod>): Container {
    var main := ContainerOf(pod, MAIN);
    if main.Some? then main.value.(args := None) else EmptyContainer(MAIN)
  }

  ghost predicate WellResourced(i: Instance, slot: Slot, main: Container) {
    && (forall key :: Quantity(main.limits, key) == LimitOf(i, slot, key))
    && (forall key :: Quantity(main.requests, key) == RequestOf(i, slot, key))
    && (!IsCpu(i) ==> "LIBRARY_PATH" in main.env)
  }

  lemma OverlayAt(head: Option<Resources>, overlay: Option<Resources>, key: string)
    ensures var r, h, o := ResourcesOrNone(Overlay(head, overlay)), ResourcesOrNone(head), ResourcesOrNone(overlay);
      && Quantity(r.limits, key) == OrElse(Quantity(o.limits, key), Quantity(h.limits, key))
      && Quantity(r.requests, key) == OrElse(Quantity(o.requests, key), Quantity(h.requests, key))
  {
  }

  lemma EffectiveAt(i: Instance, key: string)
    ensures var r := ResourcesOrNone(HeadResources(i.resources, i.gpuCount, IsCpu(i)));
      && Quantity(r.limits, key) == LimitOf(i, Template, key)
      && Quantity(r.requests, key) == Quantity(ResourcesOrNone(i.resources).requests, key)
  {
    hide EqualFold;
  }

  lemma WorkerWellResourced(i: Instance, slot: Slot, w: Workers)
    requires OwnResources(i, slot) == ResourcesOrNone(w.resources) && (slot == Worker || slot == PrefillWorker)
    ensures var effective := HeadResources(i.resources, i.gpuCount, IsCpu(i));
      WellResourced(i, slot, WorkerPod(Overlay(effective, w.resources), IsCpu(i)).containers[0])
  {
    hide IsCpu, HeadResources, Overlay;
    var effective := HeadResources(i.resources, i.gpuCount, IsCpu(i));
    var main := WorkerPod(Overlay(effective, w.resources), IsCpu(i)).containers[0];
    forall key
      ensures Quantity(main.limits, key) == LimitOf(i, slot, key) && Quantity(main.requests, key) == RequestOf(i, slot, key)
    {
      OverlayAt(effective, w.resources, key);
      EffectiveAt(i, key);
    }
  }

  lemma HeadWellResourced(i: Instance, slot: Slot, env: map<string, string>)
    requires slot == Template || slot == PrefillTemplate
    requires !IsCpu(i) ==> "LIBRARY_PATH" in env
    ensures WellResourced(i, slot, HeadContainer(HeadResources(i.resources, i.gpuCount, IsCpu(i)), IsCpu(i), env))
  {
    hide EqualFold;
  }

  lemma NoHeadWellResourced(i: Instance, slot: Slot)
    requires slot == Template || slot == PrefillTemplate
    requires IsCpu(i) && i.resources.None?
    ensures WellResourced(i, slot, EmptyContainer(MAIN))
  {
    hide EqualFold;
  }

  lemma OnlyMain(c: Container, serviceAccount: string)
    requires c.name == MAIN && c.args.None?
    ensures MainOf(Some(Pod([c], serviceAccount))) == c
  {
  }

  lemma NoMain(serviceAccount: string)
    ensures MainOf(Some(Pod([], serviceAccount))) == MainOf(None) == EmptyContainer(MAIN)
  {
  }

  lemma BasePodWellResourced(i: Instance, slot: Slot)
    requires Requested(i, slot)
    ensures WellResourced(i, slot, MainOf(PodAt(BasePods(i), slot)))
  {
    hide EqualFold, WellResourced, Decimal, MirrorLimits, Overlay, GpuEnv, MainOf;
    var effective := HeadResources(i.resources, i.gpuCount, IsCpu(i));
    if !IsCpu(i) { HasLibraryPath(i); }
    match slot
    case Worker =>
      WorkerWellResourced(i, slot, i.workers);
      OnlyMain(WorkerPod(Overlay(effective, i.workers.resources), IsCpu(i)).containers[0], "");
    case PrefillWorker =>
      WorkerWellResourced(i, slot, i.prefillWorkers);
      OnlyMain(WorkerPod(Overlay(effective, i.prefillWorkers.resources), IsCpu(i)).containers[0], "");
    case Template =>
      HeadSlotWellResourced(i, slot, HeadEnv(i));
      OnlyMain(HeadContainer(effective, IsCpu(i), HeadEnv(i)), i.serviceAccount);
      NoMain(i.serviceAccount);
    case PrefillTemplate =>
      HeadSlotWellResourced(i, slot, GpuEnv(IsCpu(i)));
      OnlyMain(HeadContainer(effective, IsCpu(i), GpuEnv(IsCpu(i))), "");
      NoMain("");
  }

  lemma HasLibraryPath(i: Instance)
    requires !IsCpu(i)
    ensures "LIBRARY_PATH" in GpuEnv(IsCpu(i))
  {
  }

  lemma HeadSlotWellResourced(i: Instance, slot: Slot, env: map<string, string>)
    requires slot == Template || slot == PrefillTemplate
    requires !IsCpu(i) ==> "LIBRARY_PATH" in env
    ensures WellResourced(i, slot, HeadContainer(HeadResources(i.resources, i.gpuCount, IsCpu(i)), IsCpu(i), env))
    ensures IsCpu(i) && i.resources.None? ==> WellResourced(i, slot, EmptyContainer(MAIN))
  {
    hide WellResourced, IsCpu;
    HeadWellResourced(i, slot, env);
    if IsCpu(i) && i.resources.None? { NoHeadWellResourced(i, slot); }
  }

  lemma FlagsKeepMain(pod: Option<Pod>, inherited: Option<Args>, flags: Args)
    ensures MainOf(Some(SetMainArgs(pod, inherited, flags))) == MainOf(pod)
  {
    var containers := if pod.Some? then pod.value.containers else [];
    FindSetArgs(containers, ArgsOrEmpty(inherited) + flags, MAIN);
  }

  /** The main container of every requested pod has, for every resource, the limit and request
      that the configuration asks for, with or without engine settings. */
  lemma ResourcesWellBuilt(i: Instance, store: ConfigStore, slot: Slot)
    requires Requested(i, slot)
    ensures WellResourced(i, slot, MainOf(PodAt(Build(i, store).pods, slot)))
  {
    hide WellResourced, IsCpu, BasePods, EngineFlags, ConfigsOf, SetMainArgs, MainOf;
    BasePodWellResourced(i, slot);
    var inherited := InheritedFrom(BaseConfigs(i, store));
    BasePodsRequested(i, slot);
    FlagsKeepMain(PodAt(BasePods(i), slot), InheritedAt(inherited, slot), EngineFlags(i.engine));
  }

  lemma BasePodsRequested(i: Instance, slot: Slot)
    requires Requested(i, slot)
    ensures slot == PrefillTemplate || slot == PrefillWorker ==> BasePods(i).prefill.Some?
    ensures slot == Worker || slot == PrefillWorker ==> PodAt(BasePods(i), slot).Some?
  {
    hide EqualFold, Decimal;
  }

  // ---------- engine arguments of the built spec ----------

  lemma BuiltSetsNoArgs(i: Instance, slot: Slot)
    ensures PodArgs(PodAt(BasePods(i), slot)).None?
  {
    hide EqualFold, Decimal, Overlay, HeadResources;
  }

  /** For every Instance and every set of stored configs: the built spec, layered over what its
      baseRefs resolve to, gives each pod template the arguments it would have had without engine
      settings, followed by the engine flags. */
  lemma BuiltEngineArgs(i: Instance, store: ConfigStore, slot: Slot)
    requires EngineFlags(i.engine) != []
    requires var configs := BaseConfigs(i, store); forall k :: 0 <= k < |configs| ==> ApiPods(configs[k])
    ensures var base := MergedConfigs(BaseConfigs(i, store));
      var without, with := MergePods(base, BasePods(i)), MergePods(base, Build(i, store).pods);
      && (PodAt(with, slot).Some? <==> SlotExists(without, slot))
      && (SlotExists(without, slot) ==>
            && PodArgs(PodAt(with, slot)) == Some(ArgsOrEmpty(PodArgs(PodAt(without, slot))) + EngineFlags(i.engine))
            && SameButArgs(PodAt(with, slot), PodAt(without, slot)))
  {
    hide BasePods, EngineFlags, MergePods, MergedConfigs, WithEngineArgs, SameButArgs, SlotExists, ConfigsOf;
    forall s: Slot ensures PodArgs(PodAt(BasePods(i), s)).None? {
      BuiltSetsNoArgs(i, s);
    }
    EngineArgsCarryOver(BaseConfigs(i, store), BasePods(i), EngineFlags(i.engine), slot);
  }

  /** So in every template that exists, each engine setting is in effect whatever the configs
      say, and every other flag means what it meant without engine settings. */
  lemma BuiltSettingsEffective(i: Instance, store: ConfigStore, slot: Slot, flag: string)
    requires i.engine.Some?
    requires var configs := BaseConfigs(i, store); forall k :: 0 <= k < |configs| ==> ApiPods(configs[k])
    requires SlotExists(MergePods(MergedConfigs(BaseConfigs(i, store)), BasePods(i)), slot)
    ensures var base := MergedConfigs(BaseConfigs(i, store));
      var without, with := MergePods(base, BasePods(i)), MergePods(base, Build(i, store).pods);
      var effective := Effective(ParseArgs(ArgsOrEmpty(PodArgs(PodAt(with, slot)))), flag);
      && (forall k: nat :: k < |ENGINE_FLAGS| && flag == ENGINE_FLAGS[k] && Asked(i.engine.value, k).Some? ==>
            effective == Some(Setting(flag, Asked(i.engine.value, k).value)))
      && ((forall k: nat :: k < |ENGINE_FLAGS| && flag == ENGINE_FLAGS[k] ==> Asked(i.engine.value, k).None?) ==>
            effective == Effective(ParseArgs(ArgsOrEmpty(PodArgs(PodAt(without, slot)))), flag))
  {
    hide BasePods, EngineFlags, MergePods, MergedConfigs, WithEngineArgs, SameButArgs, SlotExists, ConfigsOf, PodArgs, PodAt, Effective, ParseArgs, Asked;
    var flags := EngineFlags(i.engine);
    var inherited := ArgsOrEmpty(PodArgs(PodAt(MergePods(MergedConfigs(BaseConfigs(i, store)), BasePods(i)), slot)));
    EngineSettingsWin(inherited, i.engine.value, flag);
    if flags == [] {
      assert inherited + flags == inherited;
    } else {
      BuiltEngineArgs(i, store, slot);
    }
  }
}
