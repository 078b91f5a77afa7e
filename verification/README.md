# provider-kserve: verified model of the provider's core

This project models the parts of the KServe provider that decide who may call which model and
what is written to the cluster, and proves what they promise, for every input and every run.

- **API keys at the shared AI Gateway.** `ApiKeys` covers key identifiers (base32, section 6 of
  RFC 4648), model references and the key Secret under stale reads and lost create races.
  `Routes` reads and builds AI Gateway routes. `GatewayKeys` is the resolution of all key Secrets against all routes, as the
  loops, counting maps and in-place sort of the source; `GatewayGrants` says what it means over
  the sets of Secrets and routes; `GatewayAuth` renders the credentials Secret and the policy and
  evaluates them the way Envoy does; `AuthRenderer` is the reconciler, which may stop between its
  writes; `Access` is the validation that keeps one route per model name, runs in which
  validations and syncs interleave, and what an Instance's own key reaches.
- **Merging a predictor's config with the generated spec.** `SpecMerge` has the recursive merge of
  parsed trees as a function and as the in-place code that refines it; `TargetPort` follows the
  spec of a custom image through the merge to the port of the external Service.
- **vLLM arguments.** `EngineArgs` models KServe's strategic merge of configs and the provider's own
  walk over them, and proves that the composition of the two keeps the inherited arguments.
- **Validating, building and syncing.** `LlmService` relates acceptance by the validator to the
  object built, and `LlmMeaning` tells both from the Instance's fields alone. `Sync` has the sync sequences of both topologies as API calls that may fail at any
  point, and `SyncSafety` proves ordering at every such point and independence of history;
  `SyncContents` tells what a complete sync leaves from the parameters alone.
- `Chart` holds the provider chart's settings; `Text`, `Json` and `Ints` hold the library functions that the rest needs: Go string order,
  sorting, splitting, trimming, parsed trees and 32-bit integers.

Code that changes state is a method or a class, proved equal to a function of its old state; the
theorems are then about that function. The theorems that say most are
`GatewayAuth.ExactAuthorization`, `GatewayGrants.CollisionLocality`, `GatewayAuth.RouteLocalIff`,
`Access.InterleavedUniqueIff`, `Access.KeyReachesModel`, `SpecMerge.IdempotentIffWellNamed`,
`SpecMerge.NamedListConservation`, `TargetPort.TargetPortAfterMerge`,
`LlmService.BuiltSettingsEffective`, `SyncSafety.PredictorRunsOrdered` and
`SyncSafety.HistoryFreeIff`.

## What is false of the code

- A second merge of the same generated tree changes nothing only when every item of its named
  lists is an object with a name: otherwise each merge adds the item again
  (`SpecMerge.IdempotentIffWellNamed`, `SpecMerge.UnnamedItemGrows`). The spec generated for a
  custom image is of the good kind (`TargetPort.CustomSpecMergesOnce`).
- Adding or removing a route can change who is allowed on a model that the route does not serve: a
  Secret that loses its last model frees the key it collided with. `Access.RouteNotAlwaysLocal` is
  such a case and `GatewayAuth.RouteLocalIff` says exactly when it cannot happen, in terms of the
  cluster before the change.
- An ensure step can replace a stored key when its cached copy of the Secret had an empty ID or
  value (`ApiKeys.BlankSecretRekeyed`, `ApiKeys.EnsureKeepsKeyIff`).
- The worker count check adds in int32, so the largest count is accepted with a negative pipeline
  size (`LlmService.LargestWorkerCountAccepted`, `LlmService.WorkersWellBuilt`).
- When the chart's gateway is switched off between two syncs, a sync for another access path leaves
  the route of the first one in place, so what remains depends on history. It is independent of
  history exactly when the gateway is enabled at the last sync or the Instance uses it
  (`SyncSafety.HistoryFreeIff`, `SyncSafety.LlmHistoryFreeIff`; `SyncSafety.RouteOutlivesGateway` is
  the run). Under a chart that does not change it always is (`SyncSafety.SettledChartHistoryFree`).
- When validation and sync are not one step, two Instances may be accepted for one model name and
  both serve it (`Access.RacingValidationsDuplicate`); the name is then allowed to nobody
  (`Access.DuplicateNameDenied`). Names stay unique exactly when no other Instance's route of the
  name lands between a validation and its sync and still stands (`Access.InterleavedUniqueIff`).

Where the documentation and the code disagree, the model follows the code: the design document
looks a key Secret up by its owner labels (docs/proposals/ai-gateway-api-keys.md:94), the code
reads it by name (internal/provider/apikey.go:90-99).

## Model

| member | source | states |
|---|---|---|
| GatewayKeys.ResolveGatewayKeys | internal/provider/gatewayauth.go:175-265 | the keys it returns are the specification's for the Secrets and routes as given, and the Secret array is left sorted by namespace/name |
| GatewayKeys.ReadRoutes | internal/provider/gatewayauth.go:180-200 | the model table and the counting map of the first loop hold, for attached routes only, each route's distinct models and by how many routes each is served |
| GatewayKeys.ModelsOfSecret | internal/provider/gatewayauth.go:206-236 | a Secret's models come from references into its own namespace, without names served more than once |
| GatewayKeys.DropClashes | internal/provider/gatewayauth.go:244-265 | a candidate stays iff no second candidate has its ID and none has its value |
| GatewayGrants.OnlyServerCount | internal/provider/gatewayauth.go:180-232 | the counting map says at most one for a served name exactly when no other attached route serves it |
| GatewayGrants.SecretModelsMeaning | internal/provider/gatewayauth.go:206-236 | the loops find a model for a Secret iff it refers to an Instance of its own namespace whose route alone serves that model |
| GatewayGrants.RenderedMeaning | internal/provider/gatewayauth.go:200-265 | the Secrets rendered are, in strictly increasing namespace/name order, exactly those with a valid ID, a value and a granted model that no other such Secret rivals in ID or value |
| GatewayGrants.KeyMeaning | internal/provider/gatewayauth.go:236-244 | a rendered key carries its Secret's ID and value and, strictly increasing, exactly the granted models |
| GatewayGrants.OrderIndependent | internal/provider/gatewayauth.go:175-265 | permuting the listed Secrets and routes gives the identical key list |
| GatewayGrants.CollisionLocality | internal/provider/gatewayauth.go:200-265 | adding a Secret that resolves to no model changes nothing; otherwise exactly the keys sharing its ID or value go, and its own comes iff no other eligible Secret shares either |
| GatewayAuth.BuildGatewayCredentials | internal/provider/gatewayauth.go:267-284 | the credentials are the placeholder entry overlaid with each key's value under its ID |
| GatewayAuth.BuildGatewayAuthPolicy | internal/provider/gatewayauth.go:286-334 | one rule per key that needs both the key's ID header and one of its models in the model header |
| GatewayAuth.PolicyFields | internal/provider/gatewayauth.go:286-334 | the policy targets the Gateway it was built for, listener included, forwards the client ID in the header its rules read, and has exactly one rule of two headers per key |
| GatewayAuth.CredentialsMeaning | internal/provider/gatewayauth.go:267-284 | over keys with valid distinct IDs, the Secret holds the placeholder, every key's value under its own ID, and nothing else |
| GatewayAuth.PolicyMeaning | docs/proposals/ai-gateway-api-keys.md:159-166 | the policy allows an ID on a model iff one of the keys has that ID and that model; everything else is denied |
| GatewayAuth.ResolvedKeysClean | internal/provider/gatewayauth.go:244-265 | no two resolved keys share an ID or a value and every ID passes the check |
| GatewayAuth.RenderedIds | internal/provider/gatewayauth.go:203-215 | no identifier but "k_" and lower-case letters and digits is ever rendered |
| GatewayAuth.AllowedByKey | docs/proposals/ai-gateway-api-keys.md:159-166 | a presented value reaches a model iff some rendered key has that value and that model |
| GatewayAuth.ExactAuthorization | internal/provider/gatewayauth.go:175-334 | Envoy accepts the rendered objects, a value reaches a model iff a Secret with that value has a valid ID, no rival and a grant of the model, and the placeholder reaches nothing |
| GatewayAuth.AuthorizedIffNoRival | internal/provider/gatewayauth.go:244-265 | a Secret granted a model authorizes its value for it iff it has no rival |
| GatewayAuth.EligibleWithRoute | internal/provider/gatewayauth.go:180-244 | once a route is added, a Secret is eligible iff it was granted a model that the route does not serve, or refers behind the route and the route serves a model that none served |
| GatewayAuth.RouteLocalIff | internal/provider/gatewayauth.go:180-265 | adding or removing a route leaves every model it does not serve alone iff, for every Secret granted such a model, having a rival before agrees with the rivals told from the routes before and the added one |
| GatewayAuth.DistinctKeysLocal | internal/provider/gatewayauth.go:180-265 | when no two Secrets share an ID or value every route is local |
| AuthRenderer.AuthCluster.Reconcile | internal/provider/gatewayauth.go:100-140 | the outputs after a reconcile that may stop after any of its writes |
| AuthRenderer.AuthCluster.PlaceholderKey | internal/provider/gatewayauth.go:142-152 | the stored non-empty placeholder is reused |
| AuthRenderer.AuthCluster.DeleteOutputs | internal/provider/gatewayauth.go:154-166 | the policy goes before the credentials |
| AuthRenderer.AdvanceSafe | internal/provider/gatewayauth.go:100-166 | one reconcile, wherever it stops, keeps: policy only with credentials, a non-empty placeholder that never changes, and outputs that render one snapshot each |
| AuthRenderer.RunsSafe | internal/provider/gatewayauth.go:100-166 | so does every run of complete and interrupted reconciles |
| AuthRenderer.RepeatChangesNothing | internal/provider/gatewayauth.go:142-152 | after a complete reconcile a repeated one on unchanged inputs changes nothing, also when interrupted |
| AuthRenderer.CompleteReconcile | internal/provider/gatewayauth.go:100-152 | after a complete reconcile with authentication on, from any outputs: a value reaches a model iff a Secret of the snapshot authorizes it, and the placeholder is the stored one or else the generated |
| AuthRenderer.InterruptedReconcile | internal/provider/gatewayauth.go:125-166 | an interrupted one has written the credentials but not the policy, or deleted the policy but not the credentials |
| AuthRenderer.DisabledLeavesNothing | internal/provider/gatewayauth.go:100-103 | after any run that ends in a complete reconcile with authentication off neither output is left |
| AuthRenderer.PairGranted | internal/provider/gatewayauth.go:286-334 | every ID and model a rendered policy allows were granted in the snapshot it was rendered from |
| AuthRenderer.AllowedWasGranted | internal/provider/gatewayauth.go:100-140 | in every reachable state, also between the two writes, what is allowed was granted in the snapshot of the last policy, and the value was rendered in that of the last credentials |
| Routes.AIGatewayRouteModels | internal/provider/aigateway.go:251-272 | the models listed by a route, in order |
| Routes.RouteModelsMeaning | internal/provider/aigateway.go:251-272 | they are exactly the non-empty values of exact matches on the model header, its name compared without case |
| Routes.HeaderMeaning | internal/provider/aigateway.go:264-267 | a header condition names a model iff it is on x-ai-eg-model in any case, is Exact or untyped, and has that non-empty value |
| Routes.RouteAttachedToGateway | internal/provider/aigateway.go:275-290 | a route is attached iff some parent reference names the gateway, in the route's own namespace when it names none |
| Routes.ParentMeaning | internal/provider/aigateway.go:278-286 | a parent is the gateway iff name and namespace agree, the route's namespace standing in for none, and its kind is Gateway or none |
| Routes.BuiltRoute | internal/provider/aigateway.go:292-339 | a built route is attached to the gateway it was built for and to no other, and is read back as serving just its model |
| Routes.RouteFields | internal/provider/aigateway.go:311-337 | the built route forwards to the backend it was given within 60 seconds and counts the three kinds of tokens |
| Routes.RouteMatch | internal/provider/aigateway.go:317-325 | its only condition is an exact match of the model header |
| Routes.RouteParent | internal/provider/aigateway.go:301-309 | its only parent is the gateway, with the listener where there is one |
| Access.ValidateAIGatewayAccess | internal/provider/aigateway.go:120-146 | accepts iff keys travel over HTTPS or insecure HTTP is allowed, and no other attached route serves the name |
| Access.TransportMeaning | internal/provider/aigateway.go:120-124 | with keys required nothing is accepted over plain HTTP without the exemption; otherwise only a taken name stands in the way |
| Access.StepKeepsUnique | internal/provider/aigateway.go:120-146 | an accepted Instance's sync leaves at most one attached route per model name |
| Access.ModelNamesUnique | internal/provider/aigateway.go:116-146 | so does every run in which validation and sync are one step |
| Access.UniqueAfterApplyIff | internal/provider/aigateway.go:120-146 | applying a route of one name keeps names unique iff no other attached route serves the name |
| Access.KeyReachesModel | internal/provider/gatewayauth.go:175-334 | in every state a run of atomic steps reaches, any well-formed key Secret of an Instance whose route stands reaches its model iff no other eligible Secret shares the key's ID or value |
| Access.OwnKeyReachesOwnModel | internal/provider/gatewayauth.go:175-334 | in particular the key just created of an Instance just exposed |
| Access.AlwaysUniqueIff | internal/provider/aigateway.go:120-146 | however validations and syncs interleave, names are unique in every state iff every route finds its name free when it lands |
| Access.ServedIffStands | internal/provider/aigateway.go:251-339 | a route that did not serve a name serves it later iff it landed with it in between and was not touched since |
| Access.InterleavedUniqueIff | internal/provider/aigateway.go:120-146 | when every route that lands was accepted earlier, names are unique in every state iff no other Instance's route of the name landed between validation and sync and still stands |
| Access.RacingValidationsDuplicate | internal/provider/aigateway.go:120-146 | from every state, two Instances that are acceptable for one name and validated before either is synced are both accepted and make a state with a duplicate |
| Access.DuplicateNameDenied | internal/provider/gatewayauth.go:220-234 | a name that two attached routes serve is allowed to nobody |
| Access.DuplicateFreesRival | internal/provider/gatewayauth.go:220-265 | a second route on the only model of a colliding Secret changes access to the other Secret's model |
| Access.RouteNotAlwaysLocal | internal/provider/gatewayauth.go:220-265 | a concrete case of it |
| ApiKeys.ParseModelRefs | internal/provider/apikey.go:77-86 | the specification's list, by the append, sort and compact loop |
| ApiKeys.ModelRefsMeaning | internal/provider/apikey.go:77-86 | the strictly increasing list of exactly the trimmed non-empty segments |
| ApiKeys.ModelRefsExactly | internal/provider/apikey.go:77-86 | a text is among the references iff it is non-empty, has no space at its ends, and some comma-separated segment is that text between spaces |
| ApiKeys.PaddedRefParses | internal/provider/apikey.go:77-86 | a plain reference between spaces parses to just itself |
| Text.TrimTakes | internal/provider/apikey.go:80-80 | trimming takes nothing but spaces away, from both ends |
| Text.TrimPadded | internal/provider/apikey.go:80-80 | and it takes all of them away |
| Text.LessMeaning | internal/provider/apikey.go:84-85 | the order of sorting is that of the first differing character, a prefix first |
| ApiKeys.ModelRefsCanonical | internal/provider/apikey.go:77-86 | parsing the comma-join of a parsed list gives the list back |
| ApiKeys.JoinedRefsParse | internal/provider/apikey.go:77-86 | any strictly increasing list of plain references survives join and parse |
| ApiKeys.OwnRefParses | internal/provider/apikey.go:54-57 | a reference parses to just itself iff it is non-empty, trimmed and without comma |
| ApiKeys.QuintetsSpellOctets | internal/provider/apikey.go:43-43 | five bytes and their eight quintets spell the same 40-bit number |
| ApiKeys.Base32Injective | internal/provider/apikey.go:43-43 | the encoding never maps two byte strings to one text |
| ApiKeys.GeneratedIds | internal/provider/apikey.go:59-66 | every generated ID passes the renderer's check and identifies its ten random bytes |
| ApiKeys.ValidKeyIdIff | internal/provider/gatewayauth.go:41-41 | the identifiers accepted are "k_" followed by one or more lower-case letters and digits |
| ApiKeys.SecretObject.SetKeyFields | internal/provider/apikey.go:137-169 | labels and model reference are set, ID and value only when empty, in place |
| ApiKeys.SecretStore.EnsureKey | internal/provider/apikey.go:90-111 | one ensure step over a possibly stale copy: create, nothing, or a merge patch of what differs |
| ApiKeys.SecretStore.CreateKey | internal/provider/apikey.go:113-133 | creation fails without writing when the Secret exists |
| ApiKeys.EnsureKeepsKeyIff | internal/provider/apikey.go:90-169 | a step leaves a complete stored ID and value alone iff its copy was absent or had both (or it generated the same) |
| ApiKeys.EnsureRestores | internal/provider/apikey.go:137-169 | a step that sees the current Secret succeeds, restores labels and model reference, keeps an ID and a value that are there and fills in one that is not |
| ApiKeys.CreatedSecret | internal/provider/apikey.go:113-169 | a created Secret has the four labels and no other, the fresh ID and value and its own reference |
| ApiKeys.PatchedLabels | internal/provider/apikey.go:99-169 | a step over any version it has read makes the four labels right where that version was wrong and leaves all other labels as stored |
| ApiKeys.PatchedFields | internal/provider/apikey.go:99-169 | it writes ID, value and reference only where the version read lacked them, writes nothing when that version was right, and fails when the Secret is gone |
| ApiKeys.KeyStable | internal/provider/apikey.go:90-169 | over every run with stale reads in which nobody stores a Secret without ID or value, no ensure step changes either, and one that lost the race to create the Secret changes nothing |
| ApiKeys.BlankSecretRekeyed | internal/provider/apikey.go:90-169 | a concrete run without that assumption in which a key is replaced |
| SpecMerge.SpecObject.MergeSpecMaps | internal/provider/predictor_config.go:53-69 | the in-place merge equals the functional one for every order of the generated keys, and ends by the size of the generated tree |
| SpecMerge.MergeNamedLists | internal/provider/predictor_config.go:83-102 | the loops over both lists with the used flags equal the functional list merge |
| SpecMerge.MergedField | internal/provider/predictor_config.go:53-78 | each field of the result: one side's where only it has one, else merged objects, lists merged by name under the four keys, or the generated value |
| SpecMerge.ListsUnderKey | internal/provider/predictor_config.go:71-102 | under containers, volumes, volumeMounts and imagePullSecrets no config item is lost whose name no generated item has; under every other key the generated list stands |
| SpecMerge.FindByName | internal/provider/predictor_config.go:104-113 | the first unused object of the name, or -1 also for an empty or missing name |
| SpecMerge.MatchFits | internal/provider/predictor_config.go:83-113 | a generated item takes an unused object of the same non-empty name |
| SpecMerge.MatchGreedy | internal/provider/predictor_config.go:83-113 | it goes without only when every config object of its name is taken before it |
| SpecMerge.MatchFirst | internal/provider/predictor_config.go:104-113 | an item takes the first config object of its name that is still free |
| SpecMerge.TakesItsName | internal/provider/predictor_config.go:83-113 | with distinct names in the config, the first generated item of a name takes the config item of that name |
| SpecMerge.MatchedItemMerged | internal/provider/predictor_config.go:88-98 | a matched item is merged field by field with the config item it takes, an unmatched one stands alone |
| SpecMerge.NamedListConservation | internal/provider/predictor_config.go:83-102 | generated items in order, each merged with at most one config item; then exactly the untaken config items, verbatim and in order; each config item once; the length adds up |
| SpecMerge.NamesStayDistinct | internal/provider/predictor_config.go:83-113 | distinct names on both sides give distinct names in the output |
| SpecMerge.GeneratedLeafWins | internal/provider/predictor_config.go:53-102 | every generated scalar or atomic list sits at the same path of the result, whatever the config |
| SpecMerge.ConfigKept | internal/provider/predictor_config.go:53-69 | whatever lies under a key the generated object does not have is unchanged |
| SpecMerge.SelfMerge | internal/provider/predictor_config.go:53-113 | a tree merged into itself is unchanged iff every named-list item is a named object |
| SpecMerge.MergeFieldsTwice | internal/provider/predictor_config.go:53-113 | a second merge of a well-named tree changes nothing, for every config |
| SpecMerge.IdempotentIffWellNamed | internal/provider/predictor_config.go:53-113 | those are exactly the trees that can be merged again without effect on every config |
| SpecMerge.UnnamedItemGrows | internal/provider/predictor_config.go:83-113 | an item that is not a named object makes the list longer at every merge |
| TargetPort.PredictorTargetPort | internal/provider/inferenceservice.go:705-729 | the loop returns the port of the specification, with its fallbacks and the int32 conversions |
| TargetPort.ServicePortMeaning | internal/provider/inferenceservice.go:705-718 | the port is that of the first transformer-container, else of the first container, else 8080 |
| TargetPort.FirstPortMeaning | internal/provider/inferenceservice.go:719-729 | the port of a container is its first listed one, whole modulo 2^32 or cut off towards zero, and 8080 without a number |
| TargetPort.ModelServerFields | internal/provider/inferenceservice.go:488-517 | the generated container's name, image, port, shared memory and resources |
| TargetPort.ModelServerOptions | internal/provider/inferenceservice.go:488-517 | its command, args, environment with the storage URI, security context and probe are there exactly when asked for |
| TargetPort.CustomSpecFields | internal/provider/inferenceservice.go:397-409 | the generated predictor has just that container, the memory volume and the named pull secret |
| TargetPort.FirstTransformerMeaning | internal/provider/inferenceservice.go:705-718 | the container looked for is the first transformer container of the list |
| TargetPort.ModelServerFirst | internal/provider/predictor_config.go:83-102 | merging the model server into any container list keeps it first with its ports and keeps the config's first transformer container |
| TargetPort.TargetPortAfterMerge | internal/provider/inferenceservice.go:705-729 | for every config, the port is the configured container port, or that of the config's first transformer container |
| TargetPort.CustomSpecWellNamed | internal/provider/inferenceservice.go:399-409 | the spec generated for a custom image has only named objects in its named lists, if the resources, security context and other fields do |
| TargetPort.CustomSpecMergesOnce | internal/provider/predictor_config.go:53-113 | so merging it into any config a second time changes nothing |
| EngineArgs.FindMerge | internal/provider/vllm_engine.go:104-129 | KServe's merge of configs acts container by container, by name |
| EngineArgs.MergedContainerFields | internal/provider/vllm_engine.go:104-106 | of two containers of one name the overlay's arguments and entries win and the base's others stay |
| EngineArgs.LastSetterWins | internal/provider/vllm_engine.go:104-106 | the merged arguments of a template are those of the last config that sets them |
| EngineArgs.ReadMainArgs | internal/provider/vllm_engine.go:131-141 | the first main container with set arguments |
| EngineArgs.InheritedArgs.Add | internal/provider/vllm_engine.go:107-129 | layers one config over the ones before it, in place |
| EngineArgs.ResolveInheritedArgs | internal/provider/vllm_engine.go:147-163 | walks the base references in order, inline config included, missing configs skipped |
| EngineArgs.OwnNamespaceShadows | internal/provider/vllm_engine.go:165-184 | the configs found depend only on those of the Instance's namespace and, for names not found there, on those of KServe's |
| EngineArgs.OneRef | internal/provider/vllm_engine.go:147-184 | one reference gives the inline config under its own name, else the config of the Instance's namespace, else that of KServe's, else nothing |
| EngineArgs.ConfigsConcat | internal/provider/vllm_engine.go:147-163 | the configs of a list of references are those of its parts in order |
| EngineArgs.InheritedMeaning | internal/provider/vllm_engine.go:99-163 | the walk finds exactly the arguments and templates that the strategic merge of the configs holds |
| EngineArgs.WriteMainArgs | internal/provider/vllm_engine.go:219-228 | writes inherited arguments and flags into the main container, adding one if there is none |
| EngineArgs.SetArgsShape | internal/provider/vllm_engine.go:219-228 | only the first main container is rewritten, in its place, and one is added at the end when there is none |
| EngineArgs.PodsSpec.ApplyEngineArgs | internal/provider/vllm_engine.go:190-217 | writes all four pod templates in place |
| EngineArgs.EngineArgsCarryOver | internal/provider/vllm_engine.go:107-228 | layered over the merged configs, each existing template has the merged arguments followed by the flags, every container is otherwise the same and so is the service account, and no worker or prefill template is brought up |
| EngineArgs.RenderEngineArgs | internal/provider/vllm_engine.go:64-94 | the flags, by the appends of the source |
| Ints.ItoaReadsBack | internal/provider/vllm_engine.go:69-75 | the decimal text of a number in a flag reads back as the number |
| EngineArgs.ParseRendered | internal/provider/vllm_engine.go:64-94 | reading rendered settings back gives the settings |
| EngineArgs.ParseConcat | internal/provider/vllm_engine.go:219-228 | appending flags to any arguments appends their settings |
| EngineArgs.EngineSettingsWin | internal/provider/vllm_engine.go:64-94 | every flag asked for takes effect with its own field's value and every other flag keeps its inherited meaning |
| EngineArgs.FlagsByName | internal/provider/vllm_engine.go:64-94 | each setting by the name of the vLLM flag it is in effect under |
| LlmService.WithGPUCount | internal/provider/llminferenceservice.go:294-318 | the effective head resources |
| LlmService.OverlayResources | internal/provider/llminferenceservice.go:335-360 | overlay entries win, in any order of their keys |
| LlmService.ValidateLlm | internal/provider/llminferenceservice.go:94-213 | the numeric, scaling, worker and GPU checks, in the order they are made |
| LlmMeaning.AcceptedIff | internal/provider/llminferenceservice.go:94-213 | exactly what they accept, in terms of the fields and of the GPU limits of the pods built |
| LlmService.BuildLLMInferenceService | internal/provider/llminferenceservice.go:616-864 | builds the specification's pods, sizing and base references step by step; what these are is stated by the rows that follow |
| LlmMeaning.SizingBuilt | internal/provider/llminferenceservice.go:642-647 | replicas as configured unless autoscaling is, its bounds as configured, and hpa iff the actuator says hpa in any case and padding |
| LlmMeaning.ParallelismBuilt | internal/provider/llminferenceservice.go:649-670 | tensor, pipeline, data and expert parallelism from the fields, data only above one and then instead of the pipeline |
| LlmMeaning.BaseRefsBuilt | internal/provider/llminferenceservice.go:601-614 | the bundled configs that apply, then the user's in their order, then the inline config |
| LlmMeaning.EnvironmentBuilt | internal/provider/llminferenceservice.go:374-382 | the driver path on the GPU profile, the cache size of at least one on the CPU profile's head, and nothing else |
| LlmMeaning.AccountsBuilt | internal/provider/llminferenceservice.go:730-736 | the head runs under the model puller's account and no other pod under one |
| LlmService.SizingWellBuilt | internal/provider/llminferenceservice.go:140-169 | for every accepted Instance: replicas never with scaling, pipeline never with data parallelism, 1 <= min <= max, exactly one actuator, the same for decode and prefill, and scaling exactly as configured |
| LlmService.WorkersWellBuilt | internal/provider/llminferenceservice.go:269-286 | a requested worker group has pipeline size count + 1 and no data parallelism, iff the count is not the largest int32 |
| LlmService.LargestWorkerCountAccepted | internal/provider/llminferenceservice.go:282-284 | an accepted Instance with the largest count, whose built object has a negative pipeline size |
| LlmService.GpusWellBuilt | internal/provider/llminferenceservice.go:320-332 | on the GPU profile every requested pod's main container has a GPU limit of at least tensorParallelSize |
| LlmService.ResourcesWellBuilt | internal/provider/llminferenceservice.go:294-376 | every requested pod's main container has for each resource the limit and request that the worker group, GPU count and component ask for in this order |
| LlmService.BuiltEngineArgs | internal/provider/vllm_engine.go:190-217 | the carry-over law for the object that is really built and the base references it carries |
| LlmService.BuiltSettingsEffective | internal/provider/vllm_engine.go:64-228 | in every existing template of that object each engine setting is in effect and every other flag means what it meant without them |
| Sync.Cluster.SyncAIGateway | internal/provider/aigateway.go:69-107 | key, backends, route, token limit, stopping at the first failed call |
| Sync.Cluster.CleanupAIGateway | internal/provider/aigateway.go:109-114 | the route goes first |
| SyncSafety.CleanupRouteFirst | internal/provider/aigateway.go:109-114 | wherever cleaning up stops, a route that is still there has lost nothing |
| SyncSafety.LimitAfterRoute | internal/provider/aigateway.go:92-106 | wherever registering stops, the token limit has changed only once the new route stands |
| Sync.Cluster.SyncPredictorAIGateway | internal/provider/inferenceservice.go:766-792 | registers the predictor or removes its gateway objects |
| Sync.Cluster.SyncPodMonitor | internal/provider/podmonitor.go:123-128 | applies the pod monitor when the chart and the Instance both want metrics, else deletes it |
| Sync.Cluster.ReconcileExternalService | internal/provider/externalservice.go:41-51 | applies the external Service of the resolved type, or deletes it for ClusterIP; SyncContents states which it is |
| Sync.Cluster.SyncPredictorInstance | internal/provider/inferenceservice.go:670-700 | the whole predictor sync as a function of the state it found |
| Sync.Cluster.SyncLlmInstance | internal/provider/llminferenceservice.go:923-977 | the whole llm sync as a function of the state it found |
| SyncSafety.PredictorSyncOrdered | internal/provider/inferenceservice.go:766-792 | whatever the parameters and wherever it stops, a predictor sync keeps: a route only with Backend and AIServiceBackend, and with auth only with the key Secret |
| SyncSafety.LlmSyncOrdered | internal/provider/llminferenceservice.go:923-977 | the same for the llm route and its key |
| SyncSafety.PredictorRunsOrdered | internal/provider/aigateway.go:69-114 | at every point of every run of complete and interrupted predictor syncs, under changing parameters and chart settings, a route has its backends; it has its key when the chart required keys throughout |
| SyncSafety.LlmRunsOrdered | internal/provider/aigateway.go:69-114 | in every run of llm syncs under charts that require keys a route has its key |
| SyncSafety.PredictorSyncLeaves | internal/provider/inferenceservice.go:670-792 | a complete predictor sync leaves of each gateway kind and of the external Service just what the current parameters say; with the gateway disabled the gateway kinds stay as they were |
| SyncSafety.LlmSyncLeaves | internal/provider/llminferenceservice.go:923-991 | the same for a complete llm sync |
| SyncContents.PredictorExternalService | internal/provider/externalservice.go:28-47 | by access: a load balancer with its source ranges, a node port without, none for ClusterIP or the gateway, and the component's type or none where access is unset |
| SyncContents.LlmExternalService | internal/provider/llminferenceservice.go:983-991 | the same on port 8000, and none for an Instance on the gateway by either switch |
| SyncContents.PredictorOnGateway | internal/provider/inferenceservice.go:778-803 | route, token limit, backends and backend policy of a predictor on the gateway, from its fields and the chart; the route is that of the accepted exposure and refers to the predictor's own backend |
| SyncContents.PredictorOffGateway | internal/provider/inferenceservice.go:766-777 | none of them for any other predictor while the gateway is enabled |
| SyncContents.LlmOnGateway | internal/provider/llminferenceservice.go:950-968 | the route under the served model name through the inference pool, and its token limit |
| SyncContents.LlmOffGateway | internal/provider/llminferenceservice.go:970-975 | neither of them for any other llm Instance while the gateway is enabled |
| SyncContents.PredictorKey | internal/provider/apikey.go:90-169 | with keys required, the key Secret keeps the ID and value it had or has fresh ones, and has the Instance's labels and reference |
| SyncContents.LlmKey | internal/provider/apikey.go:90-169 | the same for the llm topology |
| SyncContents.PredictorWorkload | internal/provider/inferenceservice.go:670-697 | the workload is the spec given, with the pod monitor where wanted and the model puller where needed |
| SyncContents.LlmWorkload | internal/provider/llminferenceservice.go:923-950 | the same for the llm topology, with the inline config |
| SyncSafety.HistoryFreeIff | internal/provider/inferenceservice.go:766-777 | over all runs from an empty cluster under changing charts, the outcome of a complete predictor sync is independent of history iff the chart's gateway is then enabled or the Instance uses it |
| SyncSafety.RouteOutlivesGateway | internal/provider/inferenceservice.go:766-771 | the run of two complete syncs, with the gateway switched off in between, that leaves the first one's route |
| SyncSafety.SettledChartHistoryFree | internal/provider/inferenceservice.go:670-792 | if the gateway is enabled at the last sync or never was before, a complete sync after any run leaves exactly what the current parameters say |
| SyncSafety.LlmLeavesBackends | internal/provider/llminferenceservice.go:923-977 | no llm sync, complete or not, touches the backend kinds |
| SyncSafety.LlmHistoryFree | internal/provider/llminferenceservice.go:923-991 | after any run of llm syncs ending in a complete one with the gateway enabled, every gateway kind is what the last parameters say |
| SyncSafety.LlmHistoryFreeIff | internal/provider/llminferenceservice.go:960-977 | the outcome of a complete llm sync is independent of history iff the gateway is then enabled or the Instance uses it |

## Left out

What the contracts assume, and what they leave open:

- SpecMerge.SpecObject.MergeSpecMaps: nested trees are values and only the root's fields are reassigned, so sharing of subtrees between the generated and the config tree is not captured.
- GatewayKeys.ResolveGatewayKeys: the warnings are not modelled, and sort.Slice is a sort function whose result is written back.
- GatewayAuth.ExactAuthorization: assumes, as the API server guarantees, that a namespace and name occur once and a namespace has no slash, and that no key value equals the random placeholder; the Gateway's own handling of keys and headers is the evaluator described by the design document.
- AuthRenderer.AuthCluster.Reconcile: reads its own outputs as they are stored, not from a cache, and the Gateway as existing; failed reads change nothing and are not modelled.
- Access.ModelNamesUnique: validation and the apply of the route are one step; interleaved ones are Access.InterleavedUniqueIff. Validation reads the routes as they are, not a cache.
- ApiKeys.KeyStable: assumes that nobody stores a Secret with an empty ID or value; ApiKeys.BlankSecretRekeyed shows why.
- ApiKeys.SecretStore.EnsureKey: other annotations and entries of the Secret are not modelled, and a missing annotation is the empty string; the random value's encoding is a parameter.
- EngineArgs.InheritedMeaning: assumes that container names are unique in each config's pods, which the API server enforces; KServe's merge is modelled from the source's description of it and KServe itself is not part of this model.
- EngineArgs.RenderEngineArgs: gpuMemoryUtilization is given as its decimal text, so the formatting of a floating-point number is not modelled.
- EngineArgs.ResolveInheritedArgs: failed reads of a config, other than not found, are not modelled.
- TargetPort.PredictorTargetPort: a floating-point port out of the int32 range, whose conversion Go leaves to the implementation, wraps around here.
- TargetPort.TargetPortAfterMerge: predictor fields that do not depend on the image are an arbitrary map.
- LlmService.SizingWellBuilt: acceptance is the numeric, scaling, worker and GPU checks; the others only accept less. Which error is reported first is not modelled.
- LlmService.ResourcesWellBuilt: quantities are integers and an environment is a map from names to values.
- LlmService.BuildLLMInferenceService: the router, rollout strategy, scheduling, tracing, init containers, model fields and labels are not modelled.
- LlmService.LargestWorkerCountAccepted: acceptance as for LlmService.SizingWellBuilt.
- Sync.Cluster.SyncPodMonitor: the kind is taken as installed in the cluster; without it both calls do nothing, which is not modelled.
- Sync.Cluster.SyncAIGateway: an apply replaces the object and a delete of a missing object does nothing; field ownership, owner references and stale reads are not modelled, and setting checks before the first call only fail the sync.
- SyncSafety.LlmHistoryFree: the Instance keeps its topology; switching between predictor and llm and final clean-up are not modelled.

What is not modelled at all:

- The name of a route or key Secret made by shortening an Instance's name: it is an arbitrary function of the name.
- The random source, the regular expression engine (a character predicate instead) and the clock.
- Reading YAML and JSON, conversion to unstructured objects and the dry-run patch.
- Tolerations, labels and annotations, rollout strategies, init containers, pull secrets and storage initializer resources, which may also add an otherwise empty pod template.
- Pod monitor contents, status and connection details, catalogs, LoRA, tracing, URL and DNS name checks, and checks of service types and engine values.
- The Helm chart, dashboards and UI schema.
