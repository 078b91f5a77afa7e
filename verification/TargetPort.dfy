/** The port the external Service of a custom-image predictor forwards to. */
module TargetPort {
  import opened Json
  import opened SpecMerge
  import opened Ints
  import Text

  const CONTAINER_PORT := 8080
  const MODEL_SERVER := "kserve-container"
  const TRANSFORMER := "transformer-container"
  const SHARED_MEMORY := "dshm"

  /** The custom-container part of a predictor's parameters. */
  datatype CustomImage = CustomImage(
    image: string, command: seq<Json>, args: seq<Json>, env: seq<Json>, port: Text.Option<int32>,
    storageUri: string, healthPath: string, imagePullSecret: string,
    resources: Text.Option<Json>, securityContext: Text.Option<Json>)

  function ContainerPort(p: CustomImage): int32 {
    if p.port.Some? then p.port.value else CONTAINER_PORT
  }

  function Optional(set_: bool, key: string, value: Json): map<string, Json> {
    if set_ then map[key := value] else map[]
  }

  function HttpPort(port: int): Json {
    Obj(map["name" := Str("http"), "containerPort" := Int(port), "protocol" := Str("TCP")])
  }

  /** The container fields that are set only when asked for. */
  function ContainerOptions(p: CustomImage): map<string, Json> {
    var env := p.env + if p.storageUri != "" then
      [Obj(map["name" := Str("STORAGE_URI"), "value" := Str(p.storageUri)])] else [];
    Optional(p.command != [], "command", List(p.command))
    + Optional(p.args != [], "args", List(p.args))
    + Optional(env != [], "env", List(env))
    + (if p.securityContext.Some? then map["securityContext" := p.securityContext.value] else map[])
    + Optional(p.healthPath != "", "readinessProbe", Obj(map[
        "httpGet" := Obj(map["path" := Str(p.healthPath), "port" := Int(ContainerPort(p))]), "periodSeconds" := Int(10)]))
  }

  /** customPredictorContainer, as the unstructured object it is converted to. */
  function ModelServerContainer(p: CustomImage): Json {
    Obj(
      map["image" := Str(p.image),
          "volumeMounts" := List([Obj(map["name" := Str(SHARED_MEMORY), "mountPath" := Str("/dev/shm")])]),
          "resources" := if p.resources.Some? then p.resources.value else Obj(map[])]
      + ContainerOptions(p)
      + map["name" := Str(MODEL_SERVER), "ports" := List([HttpPort(ContainerPort(p))])])
  }

  /** The fields that a custom image adds to the predictor. */
  function ImageFields(p: CustomImage): map<string, Json> {
    map["containers" := List([ModelServerContainer(p)]),
        "volumes" := List([Obj(map["name" := Str(SHARED_MEMORY), "emptyDir" := Obj(map["medium" := Str("Memory")])])])]
  }

  /** The generated InferenceService spec; `others` are the predictor fields that do not
      depend on the image, such as labels, replicas and scheduling. */
  function CustomSpec(p: CustomImage, others: map<string, Json>): Json {
    Obj(map["predictor" := Obj(others + ImageFields(p)
      + Optional(p.imagePullSecret != "", "imagePullSecrets", List([Obj(map["name" := Str(p.imagePullSecret)])])))])
  }

  // ---------- choosing the port ----------

  function Truncate(x: real): int {
    if x >= 0.0 then x.Floor else -((-x).Floor)
  }

  predicate IsTransformer(container: Json) {
    container.Obj? && Field(container, "name") == Str(TRANSFORMER)
  }

  function FirstTransformer(containers: seq<Json>): Text.Option<Json> {
    if containers == [] then Text.None
    else if IsTransformer(containers[0]) then Text.Some(containers[0])
    else FirstTransformer(containers[1..])
  }

  function FirstPort(container: Json): int {
    var ports := Items(Field(container, "ports"));
    if ports == [] then CONTAINER_PORT
    else match Field(ports[0], "containerPort")
      case Int(n) => ToInt32(n)
      case Float(x) => ToInt32(Truncate(x))
      case _ => CONTAINER_PORT
  }

  function Containers(spec: Json): seq<Json> {
    Items(Field(Field(spec, "predictor"), "containers"))
  }

  function ServicePort(spec: Json): int {
    var containers := Containers(spec);
    if containers == [] then CONTAINER_PORT
    else match FirstTransformer(containers)
      case Some(c) => FirstPort(c)
      case None => FirstPort(containers[0])
  }

  method PredictorTargetPort(spec: Json) returns (port: int)
    ensures port == ServicePort(spec)
  {
    var containers := Items(Field(Field(spec, "predictor"), "containers"));
    if |containers| == 0 {
      return CONTAINER_PORT;
    }
    var container := containers[0];
    var i := 0;
    while i < |containers|
      invariant 0 <= i <= |containers|
      invariant container == containers[0]
      invariant FirstTransformer(containers[i..]) == FirstTransformer(containers)
    {
      if IsTransformer(containers[i]) {
        container := containers[i];
        break;
      }
      i := i + 1;
    }
    var ports := Items(Field(container, "ports"));
    if |ports| == 0 {
      return CONTAINER_PORT;
    }
    match Field(ports[0], "containerPort") {
      case Int(n) => return ToInt32(n);
      case Float(x) => return ToInt32(Truncate(x));
      case _ => return CONTAINER_PORT;
    }
  }

  // ---------- what the port means ----------

  lemma {:induction false} FirstTransformerMeaning(containers: seq<Json>)
    ensures match FirstTransformer(containers)
      case None => forall i :: 0 <= i < |containers| ==> !IsTransformer(containers[i])
      case Some(c) => exists i :: 0 <= i < |containers| && containers[i] == c && IsTransformer(c)
                        && forall j :: 0 <= j < i ==> !IsTransformer(containers[j])
  {
    if containers != [] && !IsTransformer(containers[0]) {
      FirstTransformerMeaning(containers[1..]);
      match FirstTransformer(containers[1..])
      case None =>
      case Some(c) =>
        var i :| 0 <= i < |containers[1..]| && containers[1..][i] == c && forall j :: 0 <= j < i ==> !IsTransformer(containers[1..][j]);
        assert containers[i + 1] == c;
        assert forall j :: 1 <= j < i + 1 ==> containers[j] == containers[1..][j - 1];
    }
  }

  /** The list under a container's "ports", empty when there is none. */
  function PortList(container: Json): seq<Json> {
    if container.Obj? && "ports" in container.fields && container.fields["ports"].List? then container.fields["ports"].items else []
  }

  /** The value under a port's "containerPort". */
  function PortNumber(port: Json): Json {
    if port.Obj? && "containerPort" in port.fields then port.fields["containerPort"] else Null
  }

  /** The first listed port counts, 8080 without one or when it is no number; a whole number is
      taken modulo 2^32, a fraction cut off towards zero. */
  lemma FirstPortMeaning(container: Json)
    ensures var ports, port := PortList(container), FirstPort(container);
      if ports == [] then port == 8080
      else match PortNumber(ports[0])
        case Int(n) => -0x8000_0000 <= port <= 0x7fff_ffff && (n - port) % 0x1_0000_0000 == 0
        case Float(x) =>
          && (0.0 <= x < 2147483648.0 ==> port as real <= x < port as real + 1.0)
          && (-2147483649.0 < x < 0.0 ==> port as real - 1.0 < x <= port as real)
        case _ => port == 8080
  {
    var ports := PortList(container);
    assert Items(Field(container, "ports")) == ports;
    if ports != [] {
      match PortNumber(ports[0])
      case Int(n) => ToInt32Meaning(n, ToInt32(n));
      case Float(x) => ToInt32Meaning(Truncate(x), ToInt32(Truncate(x)));
      case _ =>
    }
  }

  predicate NamedContainer(container: Json, name: string) {
    container.Obj? && "name" in container.fields && container.fields["name"] == Str(name)
  }

  /** The containers of a predictor, none when any level of the tree is missing. */
  function ListedContainers(spec: Json): seq<Json> {
    if spec.Obj? && "predictor" in spec.fields && spec.fields["predictor"].Obj?
      && "containers" in spec.fields["predictor"].fields && spec.fields["predictor"].fields["containers"].List?
    then spec.fields["predictor"].fields["containers"].items else []
  }

  /** The port is that of the first container named transformer-container, of the first container
      when none is, and 8080 without containers. */
  lemma ServicePortMeaning(spec: Json, i: nat)
    ensures var listed := ListedContainers(spec);
      && (listed == [] ==> ServicePort(spec) == 8080)
      && (listed != [] && (forall j :: 0 <= j < |listed| ==> !NamedContainer(listed[j], "transformer-container")) ==>
            ServicePort(spec) == FirstPort(listed[0]))
      && (i < |listed| && NamedContainer(listed[i], "transformer-container")
          && (forall j :: 0 <= j < i ==> !NamedContainer(listed[j], "transformer-container")) ==>
            ServicePort(spec) == FirstPort(listed[i]))
  {
    var listed := ListedContainers(spec);
    assert Containers(spec) == listed;
    assert forall c :: IsTransformer(c) <==> NamedContainer(c, "transformer-container");
    FirstTransformerMeaning(listed);
  }

  predicate FieldIs(j: Json, key: string, value: Json) {
    j.Obj? && key in j.fields && j.fields[key] == value
  }

  predicate FieldUnset(j: Json, key: string) {
    j.Obj? && key !in j.fields
  }

  predicate OptionalField(j: Json, key: string, set_: bool, value: Json) {
    if set_ then FieldIs(j, key, value) else FieldUnset(j, key)
  }

  function EnvOf(p: CustomImage): seq<Json> {
    if p.storageUri == "" then p.env
    else p.env + [Obj(map["name" := Str("STORAGE_URI"), "value" := Str(p.storageUri)])]
  }

  function ContextOf(p: CustomImage): Json {
    if p.securityContext.Some? then p.securityContext.value else Null
  }

  function ProbeOf(p: CustomImage): Json {
    Obj(map["httpGet" := Obj(map["path" := Str(p.healthPath), "port" := Int(if p.port.Some? then p.port.value else 8080)]),
            "periodSeconds" := Int(10)])
  }

  /** The optional fields of the generated container: each is there exactly when asked for. */
  lemma ModelServerOptions(p: CustomImage)
    ensures var c := ModelServerContainer(p);
      && OptionalField(c, "command", p.command != [], List(p.command))
      && OptionalField(c, "args", p.args != [], List(p.args))
      && OptionalField(c, "env", EnvOf(p) != [], List(EnvOf(p)))
      && OptionalField(c, "securityContext", p.securityContext.Some?, ContextOf(p))
      && OptionalField(c, "readinessProbe", p.healthPath != "", ProbeOf(p))
  {
    hide OptionalField, ModelServerContainer, EnvOf, ContextOf, ProbeOf;
    CommandField(p);
    ArgsField(p);
    EnvField(p);
    ContextField(p);
    ProbeField(p);
  }

  lemma CommandField(p: CustomImage)
    ensures OptionalField(ModelServerContainer(p), "command", p.command != [], List(p.command))
  {
    assert OptionalField(Obj(ContainerOptions(p)), "command", p.command != [], List(p.command));
    AsOption(p, "command");
  }

  lemma ArgsField(p: CustomImage)
    ensures OptionalField(ModelServerContainer(p), "args", p.args != [], List(p.args))
  {
    assert OptionalField(Obj(ContainerOptions(p)), "args", p.args != [], List(p.args));
    AsOption(p, "args");
  }

  lemma EnvField(p: CustomImage)
    ensures OptionalField(ModelServerContainer(p), "env", EnvOf(p) != [], List(EnvOf(p)))
  {
    assert OptionalField(Obj(ContainerOptions(p)), "env", EnvOf(p) != [], List(EnvOf(p)));
    AsOption(p, "env");
  }

  lemma ContextField(p: CustomImage)
    ensures OptionalField(ModelServerContainer(p), "securityContext", p.securityContext.Some?, ContextOf(p))
  {
    assert OptionalField(Obj(ContainerOptions(p)), "securityContext", p.securityContext.Some?, ContextOf(p));
    AsOption(p, "securityContext");
  }

  lemma ProbeField(p: CustomImage)
    ensures OptionalField(ModelServerContainer(p), "readinessProbe", p.healthPath != "", ProbeOf(p))
  {
    assert OptionalField(Obj(ContainerOptions(p)), "readinessProbe", p.healthPath != "", ProbeOf(p));
    AsOption(p, "readinessProbe");
  }

  lemma AsOption(p: CustomImage, key: string)
    requires key == "command" || key == "args" || key == "env" || key == "securityContext" || key == "readinessProbe"
    ensures var c, options := ModelServerContainer(p).fields, ContainerOptions(p);
      && (key in c <==> key in options)
      && (key in options ==> c[key] == options[key])
  {
    hide ContainerOptions;
  }

  /** Its other fields: name, image, one port, the shared memory and the resources. */
  lemma ModelServerFields(p: CustomImage)
    ensures var c := ModelServerContainer(p);
      && FieldIs(c, "name", Str("kserve-container")) && FieldIs(c, "image", Str(p.image))
      && FieldIs(c, "ports", List([Obj(map["name" := Str("http"),
           "containerPort" := Int(if p.port.Some? then p.port.value else 8080), "protocol" := Str("TCP")])]))
      && FieldIs(c, "volumeMounts", List([Obj(map["name" := Str("dshm"), "mountPath" := Str("/dev/shm")])]))
      && FieldIs(c, "resources", if p.resources.Some? then p.resources.value else Obj(map[]))
  {
    hide ContainerOptions;
    NoOption(p, "image");
    NoOption(p, "volumeMounts");
    NoOption(p, "resources");
  }

  lemma NoOption(p: CustomImage, key: string)
    requires key == "image" || key == "volumeMounts" || key == "resources"
    ensures key !in ContainerOptions(p)
  {
  }

  /** The generated predictor has just that container, the shared memory volume and, if named, the
      pull secret. */
  lemma CustomSpecFields(p: CustomImage, others: map<string, Json>)
    ensures var spec := CustomSpec(p, others);
      && spec.Obj? && spec.fields.Keys == {"predictor"}
      && var predictor := spec.fields["predictor"];
      && FieldIs(predictor, "containers", List([ModelServerContainer(p)]))
      && FieldIs(predictor, "volumes", List([Obj(map["name" := Str("dshm"), "emptyDir" := Obj(map["medium" := Str("Memory")])])]))
      && (p.imagePullSecret != "" ==>
            FieldIs(predictor, "imagePullSecrets", List([Obj(map["name" := Str(p.imagePullSecret)])])))
      && (forall key :: key in others && key != "containers" && key != "volumes" && key != "imagePullSecrets" ==>
            FieldIs(predictor, key, others[key]))
  {
    hide ModelServerContainer;
  }

  lemma {:induction false} TakingKeepsTransformer(config: seq<Json>, used: seq<bool>)
    requires |used| == |config|
    requires forall i :: 0 <= i < |config| && used[i] ==> !IsTransformer(config[i])
    ensures FirstTransformer(Unused(config, used)) == FirstTransformer(config)
  {
    if config != [] {
      TakingKeepsTransformer(config[1..], used[1..]);
      var rest := Unused(config[1..], used[1..]);
      assert ([config[0]] + rest)[1..] == rest && [] + rest == rest;
    }
  }

  /** A model server container: the only generated container, with an atomic list of ports. */
  ghost predicate IsModelServer(server: Json) {
    server.Obj? && NameOf(server) == MODEL_SERVER && "ports" in server.fields && server.fields["ports"].List?
  }

  /** Merging one generated model server into any container list keeps it first, keeps its
      ports and keeps the config's transformer. */
  lemma ModelServerFirst(config: seq<Json>, server: Json)
    requires IsModelServer(server)
    ensures var out := MergeLists(config, [server]);
      && out != []
      && Field(out[0], "ports") == server.fields["ports"]
      && FirstTransformer(out) == FirstTransformer(config)
  {
    var none := NoneUsed(|config|);
    var took := Matches(config, none, [server]);
    var out := MergeLists(config, [server]);
    MergeShape(config, none, [server]);
    MatchFits(config, none, [server], 0);
    MergeItemName(config, took[0], server);
    assert took == [took[0]];
    MergedField(if took[0] >= 0 then config[took[0]].fields else map[], server, "ports");
    TakingKeepsTransformer(config, LeftUsed(none, took));
    assert out[1..] == Unused(config, LeftUsed(none, took));
    assert !IsTransformer(out[0]);
  }

  lemma MergedContainers(generated: Json, server: Json, config: map<string, Json>)
    requires generated.Obj? && "predictor" in generated.fields && generated.fields["predictor"].Obj?
    requires "containers" in generated.fields["predictor"].fields
    requires generated.fields["predictor"].fields["containers"] == List([server])
    ensures var merged, listed := Containers(Obj(MergeFields(config, generated))), Containers(Obj(config));
      merged == MergeLists(listed, [server]) || (listed == [] && merged == [server])
  {
    var predictor := generated.fields["predictor"];
    MergedField(config, generated, "predictor");
    if "predictor" in config && config["predictor"].Obj? {
      MergedField(config["predictor"].fields, predictor, "containers");
    }
  }

  lemma CustomSpecFacts(p: CustomImage, others: map<string, Json>)
    ensures var spec, server := CustomSpec(p, others), ModelServerContainer(p);
      && spec.Obj? && "predictor" in spec.fields && spec.fields["predictor"].Obj?
      && "containers" in spec.fields["predictor"].fields
      && spec.fields["predictor"].fields["containers"] == List([server])
      && IsModelServer(server)
      && FirstPort(server) == ContainerPort(p)
  {
    ModelServerFacts(p);
  }

  lemma ModelServerFacts(p: CustomImage)
    ensures var server := ModelServerContainer(p);
      && IsModelServer(server)
      && FirstPort(server) == ContainerPort(p)
  {
    var server := ModelServerContainer(p);
    assert server.fields["name"] == Str(MODEL_SERVER);
    assert server.fields["ports"] == List([HttpPort(ContainerPort(p))]);
    assert Field(HttpPort(ContainerPort(p)), "containerPort") == Int(ContainerPort(p));
  }

  /** For every config, the port computed from the merged object is the configured container
      port, unless the config lists a transformer container: then it is that one's. */
  lemma TargetPortAfterMerge(p: CustomImage, others: map<string, Json>, config: map<string, Json>)
    ensures ServicePort(Obj(MergeFields(config, CustomSpec(p, others)))) ==
      match FirstTransformer(Containers(Obj(config)))
      case Some(transformer) => FirstPort(transformer)
      case None => ContainerPort(p)
  {
    var server := ModelServerContainer(p);
    CustomSpecFacts(p, others);
    MergedContainers(CustomSpec(p, others), server, config);
    ModelServerFirst(Containers(Obj(config)), server);
    assert !IsTransformer(server) && FirstTransformer([server]) == Text.None;
  }

  // ---------- merging the generated spec again ----------

  /** Every field of an object is well named under its key. */
  ghost predicate WellNamedFields(fields: map<string, Json>) {
    forall key :: key in fields ==> WellNamed(key, fields[key])
  }

  lemma UnionWellNamed(a: map<string, Json>, b: map<string, Json>)
    requires WellNamedFields(a) && WellNamedFields(b)
    ensures WellNamedFields(a + b)
  {
    hide WellNamed;
  }

  lemma FieldsWellNamed(key: string, fields: map<string, Json>)
    ensures WellNamed(key, Obj(fields)) <==> WellNamedFields(fields)
  {
  }

  lemma NamedListWellNamed(key: string, item: map<string, Json>)
    requires WellNamedFields(item) && NameOf(Obj(item)) != ""
    ensures WellNamed(key, List([Obj(item)]))
  {
    FieldsWellNamed("", item);
  }

  lemma AtomicListWellNamed(key: string, items: seq<Json>)
    requires key !in NAMED_LISTS
    ensures WellNamed(key, List(items))
  {
  }

  /** What the user's own trees bring into the spec is well named: the resources, the security
      context and the fields that do not depend on the image. */
  ghost predicate WellNamedInputs(p: CustomImage, others: map<string, Json>) {
    && WellNamedFields(others)
    && (p.resources.Some? ==> WellNamed("resources", p.resources.value))
    && (p.securityContext.Some? ==> WellNamed("securityContext", p.securityContext.value))
  }

  lemma OptionsWellNamed(p: CustomImage)
    requires p.securityContext.Some? ==> WellNamed("securityContext", p.securityContext.value)
    ensures WellNamedFields(ContainerOptions(p))
  {
    hide WellNamed;
    var env := p.env + if p.storageUri != "" then
      [Obj(map["name" := Str("STORAGE_URI"), "value" := Str(p.storageUri)])] else [];
    AtomicListWellNamed("command", p.command);
    AtomicListWellNamed("args", p.args);
    AtomicListWellNamed("env", env);
    ProbeWellNamed(p);
    var a := Optional(p.command != [], "command", List(p.command));
    var b, c := Optional(p.args != [], "args", List(p.args)), Optional(env != [], "env", List(env));
    UnionWellNamed(a, b);
    UnionWellNamed(a + b, c);
    UnionWellNamed(a + b + c, if p.securityContext.Some? then map["securityContext" := p.securityContext.value] else map[]);
  }

  lemma ProbeWellNamed(p: CustomImage)
    ensures WellNamed("readinessProbe", Obj(map[
      "httpGet" := Obj(map["path" := Str(p.healthPath), "port" := Int(ContainerPort(p))]), "periodSeconds" := Int(10)]))
  {
  }

  lemma ServerWellNamed(p: CustomImage)
    requires p.resources.Some? ==> WellNamed("resources", p.resources.value)
    requires p.securityContext.Some? ==> WellNamed("securityContext", p.securityContext.value)
    ensures WellNamedFields(ModelServerContainer(p).fields) && NameOf(ModelServerContainer(p)) != ""
  {
    hide WellNamed, ContainerOptions, HttpPort;
    var mount := map["name" := Str(SHARED_MEMORY), "mountPath" := Str("/dev/shm")];
    MountWellNamed(mount);
    FieldsWellNamed("resources", map[]);
    OptionsWellNamed(p);
    var resources := if p.resources.Some? then p.resources.value else Obj(map[]);
    var base := map["image" := Str(p.image), "volumeMounts" := List([Obj(mount)]), "resources" := resources];
    BaseWellNamed(p.image, List([Obj(mount)]), resources);
    var ends := map["name" := Str(MODEL_SERVER), "ports" := List([HttpPort(ContainerPort(p))])];
    EndsWellNamed(List([HttpPort(ContainerPort(p))]));
    UnionWellNamed(base, ContainerOptions(p));
    UnionWellNamed(base + ContainerOptions(p), ends);
    assert ModelServerContainer(p).fields["name"] == Str(MODEL_SERVER);
  }

  lemma MountWellNamed(mount: map<string, Json>)
    requires mount == map["name" := Str(SHARED_MEMORY), "mountPath" := Str("/dev/shm")]
    ensures WellNamed("volumeMounts", List([Obj(mount)]))
  {
    NamedListWellNamed("volumeMounts", mount);
  }

  lemma BaseWellNamed(image: string, mounts: Json, resources: Json)
    requires WellNamed("volumeMounts", mounts) && WellNamed("resources", resources)
    ensures WellNamedFields(map["image" := Str(image), "volumeMounts" := mounts, "resources" := resources])
  {
  }

  lemma EndsWellNamed(ports: Json)
    requires ports.List?
    ensures WellNamedFields(map["name" := Str(MODEL_SERVER), "ports" := ports])
  {
    AtomicListWellNamed("ports", ports.items);
  }

  lemma VolumeWellNamed()
    ensures WellNamed("volumes", List([Obj(map["name" := Str(SHARED_MEMORY), "emptyDir" := Obj(map["medium" := Str("Memory")])])]))
  {
    var medium := map["medium" := Str("Memory")];
    FieldsWellNamed("emptyDir", medium);
    NamedListWellNamed("volumes", map["name" := Str(SHARED_MEMORY), "emptyDir" := Obj(medium)]);
  }

  lemma PullSecretWellNamed(secret: string)
    ensures WellNamedFields(Optional(secret != "", "imagePullSecrets", List([Obj(map["name" := Str(secret)])])))
  {
    if secret != "" { NamedListWellNamed("imagePullSecrets", map["name" := Str(secret)]); }
  }

  lemma ImageFieldsWellNamed(p: CustomImage)
    requires p.resources.Some? ==> WellNamed("resources", p.resources.value)
    requires p.securityContext.Some? ==> WellNamed("securityContext", p.securityContext.value)
    ensures WellNamedFields(ImageFields(p))
  {
    hide WellNamed, ModelServerContainer;
    ServerWellNamed(p);
    ServerIsObject(p);
    NamedListWellNamed("containers", ModelServerContainer(p).fields);
    VolumeWellNamed();
  }

  lemma ServerIsObject(p: CustomImage)
    ensures ModelServerContainer(p).Obj?
  {
  }

  /** So is the spec generated for a custom image: each item that the provider itself puts into a
      named list has a name. */
  lemma CustomSpecWellNamed(p: CustomImage, others: map<string, Json>)
    requires WellNamedInputs(p, others)
    ensures WellNamed("", CustomSpec(p, others))
  {
    hide WellNamed, ModelServerContainer;
    var secrets := Optional(p.imagePullSecret != "", "imagePullSecrets", List([Obj(map["name" := Str(p.imagePullSecret)])]));
    ImageFieldsWellNamed(p);
    PullSecretWellNamed(p.imagePullSecret);
    UnionWellNamed(others, ImageFields(p));
    UnionWellNamed(others + ImageFields(p), secrets);
    var predictor := others + ImageFields(p) + secrets;
    FieldsWellNamed("predictor", predictor);
    FieldsWellNamed("", map["predictor" := Obj(predictor)]);
    assert CustomSpec(p, others) == Obj(map["predictor" := Obj(predictor)]);
  }

  /** Merging it into any config a second time changes nothing. */
  lemma CustomSpecMergesOnce(p: CustomImage, others: map<string, Json>, config: map<string, Json>)
    requires WellNamedInputs(p, others)
    ensures var g := CustomSpec(p, others); MergeFields(MergeFields(config, g), g) == MergeFields(config, g)
  {
    hide WellNamedInputs;
    CustomSpecWellNamed(p, others);
    MergeFieldsTwice(config, CustomSpec(p, others));
  }
}
