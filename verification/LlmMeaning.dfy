/** What validation accepts and what is built, told from the Instance's fields alone. */
module LlmMeaning {
  import opened Text
  import opened Ints
  import opened EngineArgs
  import opened LlmService

  const OFF := Autoscaling(None, None, "")

  // ---------- reading the settings ----------

  /** An actuator of "hpa", in any case and padding, means hpa; everything else means keda. */
  lemma ActuatorMeaning(actuator: string)
    ensures ResolvedActuator(actuator) == if PaddedVariant(actuator, "hpa") then "hpa" else "keda"
  {
    hide TrimSpace, EqualFold;
    TrimFoldMeaning(actuator, "hpa");
  }

  lemma ProfileMeaning(i: Instance)
    ensures IsCpu(i) <==> CaseVariant(i.computeProfile, "cpu")
  {
    FoldMeaning(i.computeProfile, "cpu");
  }

  lemma ExpertMeaning(i: Instance)
    ensures EqualFold(i.expert, "enabled") <==> CaseVariant(i.expert, "enabled")
  {
    FoldMeaning(i.expert, "enabled");
  }

  // ---------- what is accepted ----------

  /** No autoscaling, or bounds 1 <= min <= max, and an actuator that is blank, hpa or keda. */
  ghost predicate SoundScaling(s: Autoscaling) {
    s != OFF ==>
      && s.max.Some? && 1 <= s.max.value
      && (s.min.Some? ==> 1 <= s.min.value <= s.max.value)
      && (AllSpaces(s.actuator) || PaddedVariant(s.actuator, "hpa") || PaddedVariant(s.actuator, "keda"))
  }

  lemma ScalingMeaning(s: Autoscaling)
    ensures ValidScaling(s) <==> SoundScaling(s)
  {
    hide TrimSpace, EqualFold, AllSpaces, PaddedVariant;
    TrimEmptyIff(s.actuator);
    TrimFoldMeaning(s.actuator, "hpa");
    TrimFoldMeaning(s.actuator, "keda");
  }

  /** Either no worker settings but a pipeline size, or at least one worker and a pipeline over it
      and the head, where the largest int32 is followed by the smallest. */
  predicate SoundWorkers(w: Workers) {
    if w.count.None? then w.resources.None?
    else
      && 1 <= w.count.value && w.pipeline.Some?
      && w.pipeline.value == if w.count.value == 0x7fff_ffff then -0x8000_0000 else w.count.value + 1
  }

  /** The pods whose GPU limit validation looks at. */
  predicate Checked(i: Instance, slot: Slot) {
    match slot
    case Template => true
    case Worker => i.workers.count.Some?
    case PrefillTemplate => false
    case PrefillWorker => i.prefillWorkers.count.Some?
  }

  ghost predicate SoundGpus(i: Instance) {
    && (i.gpuCount.Some? ==> !CaseVariant(i.computeProfile, "cpu") && 1 <= i.gpuCount.value)
    && (!CaseVariant(i.computeProfile, "cpu") && i.tensor.Some? && 1 <= i.tensor.value ==>
          forall slot: Slot :: Checked(i, slot) ==>
            LimitOf(i, slot, "nvidia.com/gpu").Some? && LimitOf(i, slot, "nvidia.com/gpu").value >= i.tensor.value)
  }

  ghost predicate SoundPrefill(i: Instance) {
    && (i.prefillScaling != OFF ==> i.enablePrefill)
    && (i.prefillWorkers.count.Some? || i.prefillWorkers.resources.Some? ==> i.enablePrefill)
    && (i.scaling != OFF && i.prefillScaling != OFF ==>
          (PaddedVariant(i.scaling.actuator, "hpa") <==> PaddedVariant(i.prefillScaling.actuator, "hpa")))
  }

  /** Exactly what validation accepts, in terms of the fields and of the GPU limits of the pods
      that are built. */
  lemma AcceptedIff(i: Instance)
    ensures Accepted(i) <==>
      && (i.replicas.Some? ==> 0 <= i.replicas.value)
      && !(i.data.Some? && i.data.value > 1 && i.workers.pipeline.Some? && i.workers.pipeline.value > 1)
      && SoundScaling(i.scaling) && SoundScaling(i.prefillScaling)
      && SoundWorkers(i.workers) && SoundWorkers(i.prefillWorkers)
      && SoundPrefill(i) && SoundGpus(i)
  {
    hide EqualFold, TrimSpace, ValidScaling, SoundScaling, IsCpu, EnoughGpus, HeadResources, Overlay, PaddedVariant, ResolvedActuator, LimitOf;
    ProfileMeaning(i);
    ScalingMeaning(i.scaling);
    ScalingMeaning(i.prefillScaling);
    ActuatorMeaning(i.scaling.actuator);
    ActuatorMeaning(i.prefillScaling.actuator);
    assert "hpa"[0] != "keda"[0];
    GpuCheck(i, Template, Workers(None, None, None));
    GpuCheck(i, Worker, i.workers);
    GpuCheck(i, PrefillWorker, i.prefillWorkers);
    NothingOver(HeadResources(i.resources, i.gpuCount, IsCpu(i)));
  }

  lemma NothingOver(res: Option<Resources>)
    ensures Overlay(res, None) == res
  {
  }

  /** The check of one pod's resources, by the limit it is built with. */
  lemma GpuCheck(i: Instance, slot: Slot, w: Workers)
    requires slot != PrefillTemplate && OwnResources(i, slot) == ResourcesOrNone(w.resources)
    ensures EnoughGpus(Overlay(HeadResources(i.resources, i.gpuCount, IsCpu(i)), w.resources), i.tensor, IsCpu(i)) <==>
      (!IsCpu(i) && i.tensor.Some? && 1 <= i.tensor.value ==>
        LimitOf(i, slot, "nvidia.com/gpu").Some? && LimitOf(i, slot, "nvidia.com/gpu").value >= i.tensor.value)
  {
    hide IsCpu;
    if !IsCpu(i) {
      OverlayAt(HeadResources(i.resources, i.gpuCount, IsCpu(i)), w.resources, "nvidia.com/gpu");
      EffectiveAt(i, "nvidia.com/gpu");
    }
  }

  // ---------- sizing ----------

  /** Replicas as configured unless autoscaling is; bounds and actuator as configured. */
  ghost predicate SizedBy(s: Sizing, replicas: Option<int32>, scaling: Autoscaling) {
    && s.replicas == (if scaling == OFF then replicas else None)
    && (s.scaling.Some? <==> scaling.max.Some?)
    && (s.scaling.Some? ==>
          && s.scaling.value.min == scaling.min && Some(s.scaling.value.max) == scaling.max
          && (s.scaling.value.hpa <==> PaddedVariant(scaling.actuator, "hpa"))
          && (s.scaling.value.keda <==> !PaddedVariant(scaling.actuator, "hpa")))
  }

  lemma ScalingBuilt(s: Autoscaling)
    ensures var built := BuildScaling(s);
      && (built.Some? <==> s.max.Some?)
      && (built.Some? ==>
            && built.value.min == s.min && Some(built.value.max) == s.max
            && (built.value.hpa <==> PaddedVariant(s.actuator, "hpa"))
            && (built.value.keda <==> !PaddedVariant(s.actuator, "hpa")))
  {
    hide PaddedVariant, ResolvedActuator;
    ActuatorMeaning(s.actuator);
    assert "hpa"[0] != "keda"[0];
  }

  /** The sizing of both workloads, for every Instance. */
  lemma SizingBuilt(i: Instance, store: ConfigStore)
    ensures var spec := Build(i, store);
      && SizedBy(spec.decode, i.replicas, i.scaling)
      && (spec.prefill.Some? <==> i.enablePrefill)
      && (spec.prefill.Some? ==> SizedBy(spec.prefill.value, i.prefillReplicas, i.prefillScaling))
  {
    hide PaddedVariant, BuildScaling, DecodeParallelism, BasePods, EngineFlags, WithEngineArgs, BaseRefs, ConfigsOf, InheritedFrom;
    ScalingBuilt(i.scaling);
    ScalingBuilt(i.prefillScaling);
  }

  /** The parallelism of both workloads, for every Instance: data parallelism only above one, and
      then instead of the pipeline. */
  lemma ParallelismBuilt(i: Instance, store: ConfigStore)
    ensures var spec := Build(i, store);
      var data, expert := i.data.Some? && i.data.value > 1, CaseVariant(i.expert, "enabled");
      && (spec.decode.parallelism.Some? <==> i.tensor.Some? || i.workers.pipeline.Some? || data || expert)
      && (spec.decode.parallelism.Some? ==>
            var p := spec.decode.parallelism.value;
            && p.tensor == i.tensor && p.expert == expert
            && p.pipeline == (if data then None else i.workers.pipeline)
            && p.data == (if data then i.data else None) && p.dataLocal == p.data)
      && (spec.prefill.Some? ==>
            && (spec.prefill.value.parallelism.Some? <==> i.prefillWorkers.pipeline.Some?)
            && (spec.prefill.value.parallelism.Some? ==>
                  spec.prefill.value.parallelism.value == Parallelism(None, i.prefillWorkers.pipeline, None, None, false)))
  {
    hide EqualFold, CaseVariant, BuildScaling, BasePods, EngineFlags, WithEngineArgs, BaseRefs, ConfigsOf, InheritedFrom;
    ExpertMeaning(i);
  }

  // ---------- base references ----------

  /** The bundled configs that come before the user's: the CPU config, the scheduler for either way
      of routing, and the route for Gateway API routing. */
  ghost predicate Bundled(refs: seq<string>, cpu: bool, routing: bool, aiGateway: bool) {
    && ("kserve-config-llm-cpu" in refs <==> cpu)
    && ("kserve-config-llm-scheduler" in refs <==> routing || aiGateway)
    && ("kserve-config-llm-router-route" in refs <==> routing)
    && |refs| == (if cpu then 1 else 0) + (if routing then 2 else if aiGateway then 1 else 0)
    && (cpu ==> refs[0] == "kserve-config-llm-cpu")
    && (routing ==> refs[|refs| - 1] == "kserve-config-llm-router-route")
  }

  /** Later references win: the bundled ones, the user's in their order, and the inline config. */
  lemma BaseRefsBuilt(i: Instance, store: ConfigStore) returns (bundled: seq<string>)
    ensures Bundled(bundled, CaseVariant(i.computeProfile, "cpu"), i.enableGatewayRouting, i.usesAIGateway)
    ensures Build(i, store).baseRefs == bundled + i.baseRefs + if i.config.Some? then [i.configName] else []
  {
    hide EqualFold, CaseVariant, BasePods, EngineFlags, WithEngineArgs, ConfigsOf, InheritedFrom, IsCpu;
    ProfileMeaning(i);
    bundled := (if IsCpu(i) then ["kserve-config-llm-cpu"] else [])
      + (if i.enableGatewayRouting || i.usesAIGateway then ["kserve-config-llm-scheduler"] else [])
      + (if i.enableGatewayRouting then ["kserve-config-llm-router-route"] else []);
    assert |"kserve-config-llm-cpu"| == 21 && |"kserve-config-llm-scheduler"| == 27 && |"kserve-config-llm-router-route"| == 30;
  }

  // ---------- environment and accounts ----------

  /** On the GPU profile every requested pod finds the driver; on the CPU profile the head has the
      cache size, at least one, if it is set; nothing else is set. */
  ghost predicate EnvBuilt(i: Instance, slot: Slot, env: map<string, string>) {
    if !CaseVariant(i.computeProfile, "cpu") then
      env == map["LIBRARY_PATH" := "/usr/lib/x86_64-linux-gnu:/usr/local/cuda/lib64"]
    else if slot == Template && i.kvCacheSpaceGi.Some? then
      env == map["VLLM_CPU_KVCACHE_SPACE" := Itoa(if i.kvCacheSpaceGi.value < 1 then 1 else i.kvCacheSpaceGi.value)]
    else env == map[]
  }

  lemma EnvironmentBuilt(i: Instance, store: ConfigStore, slot: Slot)
    requires Requested(i, slot)
    ensures EnvBuilt(i, slot, MainOf(PodAt(Build(i, store).pods, slot)).env)
  {
    hide IsCpu, EnvBuilt, BasePods, EngineFlags, ConfigsOf, SetMainArgs, MainOf;
    BaseEnvironment(i, slot);
    BasePodsRequested(i, slot);
    var inherited := InheritedFrom(BaseConfigs(i, store));
    FlagsKeepMain(PodAt(BasePods(i), slot), InheritedAt(inherited, slot), EngineFlags(i.engine));
  }

  lemma BaseEnvironment(i: Instance, slot: Slot)
    requires Requested(i, slot)
    ensures EnvBuilt(i, slot, MainOf(PodAt(BasePods(i), slot)).env)
  {
    hide EqualFold, CaseVariant, Decimal, Overlay, HeadResources, MirrorLimits;
    ProfileMeaning(i);
  }

  /** The head runs under the model puller's account and the others under none of their own. */
  lemma AccountsBuilt(i: Instance, store: ConfigStore, slot: Slot)
    ensures ServiceAccountOf(PodAt(Build(i, store).pods, slot)) == if slot == Template then i.serviceAccount else ""
  {
    hide BasePods, EngineFlags, ConfigsOf, WithEngineArgs, SetMainArgs, InheritedFrom;
    var inherited, flags := InheritedFrom(BaseConfigs(i, store)), EngineFlags(i.engine);
    PodsBuilt(i, slot);
    WithArgsAt(BasePods(i), inherited, flags, slot);
    WrittenArgs(PodAt(BasePods(i), slot), InheritedAt(inherited, slot), flags);
    SlotOfPrefill(BasePods(i), slot);
  }

  lemma SlotOfPrefill(pods: Pods, slot: Slot)
    ensures slot == Worker ==> PodAt(pods, slot) == pods.worker
    ensures (slot == PrefillTemplate || slot == PrefillWorker) && PodAt(pods, slot).Some? ==> pods.prefill.Some?
  {
  }

  /** Without engine settings: whose account each pod runs under, and that the pods of a worker
      group or of prefill are built exactly when they are requested. */
  lemma PodsBuilt(i: Instance, slot: Slot)
    ensures slot == Template ==>
      ServiceAccountOf(PodAt(BasePods(i), slot)) == i.serviceAccount
    ensures slot != Template ==> ServiceAccountOf(PodAt(BasePods(i), slot)) == ""
    ensures slot == Worker || slot == PrefillWorker ==> (PodAt(BasePods(i), slot).Some? <==> Requested(i, slot))
    ensures BasePods(i).prefill.Some? <==> i.enablePrefill
  {
    hide EqualFold, Decimal, Overlay, HeadResources, MirrorLimits;
  }
}
