/**
 * The reconciliation handlers of the config-server operator.
 *
 * A ConfigServer resource gets three derived objects in its namespace: the
 * config map `<name>-values` holding one JSON-encoded entry per
 * KeyValuePair declared for it, a ClusterIP service `<name>` and a
 * one-replica deployment `<name>` that mounts the config map. A KeyValuePair
 * resource is written into (or removed from) the config map of the
 * ConfigServer it names.
 *
 * Each handler is a method on a `ClusterStore` and is specified by a function
 * on `Cluster` values (`CreateServerOn`, `DeleteCascade`, `UpsertOn`,
 * `DeleteKeyOn`); the lemmas state what those functions promise.
 */
module Operator {
  import opened Wrappers
  import opened Json
  import opened Kube

  /** The metadata of a resource, as the handlers read it. */
  datatype Metadata = Metadata(name: string, namespace: string)

  /** The spec of a ConfigServer resource. */
  datatype ServerSpec = ServerSpec(image: string, imagePullPolicy: string, containerPort: int, configMountPath: string)

  /**
   * How a handler ends: normally, with a permanent error (the framework
   * gives up on the resource), or with an API exception it does not catch
   * (the framework retries the handler later).
   */
  datatype HandlerResult = Done | PermanentError(message: string) | ApiException(reason: string)

  /** The environment variables through which the deployment configures the server. */
  const DirVariable: string := "CONFIG_SERVER_DIR"
  const PortVariable: string := "CONFIG_SERVER_PORT"

  /** The reason an API exception carries. */
  function Reason<T>(r: ApiResult<T>): string
    requires !r.Ok?
  {
    if r.NotFound? then "Not Found" else r.reason
  }

  /** The uncaught exception a failed call raises. */
  function Raised<T>(r: ApiResult<T>): (h: HandlerResult)
    requires !r.Ok?
    ensures h.ApiException? && h.reason == Reason(r)
  {
    ApiException(Reason(r))
  }

  // ---------------------------------------------------------------------------
  // Names and manifests
  // ---------------------------------------------------------------------------

  function ValuesName(name: string): string { name + "-values" }

  /** Where the config map of ConfigServer `configName` lives. */
  function ValuesKey(configName: string, namespace: string): ObjectKey {
    ObjectKey(namespace, ValuesName(configName))
  }

  /** Where the service and the deployment of a ConfigServer live. */
  function ServerKey(meta: Metadata): ObjectKey { ObjectKey(meta.namespace, meta.name) }

  function AppLabels(name: string): map<string, string> { map["app" := name] }

  function ConfigMapManifest(meta: Metadata, data: map<string, string>): ConfigMap {
    ConfigMap(ValuesName(meta.name), meta.namespace, Some(data))
  }

  function ServiceManifest(meta: Metadata, spec: ServerSpec): Service {
    Service(meta.name, meta.namespace, "ClusterIP",
            [ServicePort("TCP", spec.containerPort, spec.containerPort, "http")],
            AppLabels(meta.name))
  }

  /** The deployment; its config volume's `defaultMode` is the decimal number 444. */
  function DeploymentManifest(meta: Metadata, spec: ServerSpec): Deployment {
    var container := Container(
      meta.name, spec.image, spec.imagePullPolicy,
      [ContainerPort("http", spec.containerPort, "TCP")],
      [EnvVar(DirVariable, spec.configMountPath), EnvVar(PortVariable, IntToString(spec.containerPort))],
      [VolumeMount("config", spec.configMountPath)]);
    Deployment(meta.name, meta.namespace, AppLabels(meta.name), 1, AppLabels(meta.name),
               PodTemplate(AppLabels(meta.name), [container],
                           [Volume("config", ConfigMapVolume(444, ValuesName(meta.name)))]))
  }

  /** The value of the first variable called `name`, if any. */
  function EnvValue(env: seq<EnvVar>, name: string): (r: Option<string>)
    ensures r.Some? <==> exists i :: 0 <= i < |env| && env[i].name == name
  {
    if env == [] then None
    else if env[0].name == name then Some(env[0].value)
    else EnvValue(env[1..], name)
  }

  /**
   * The three derived objects agree with one another and with the
   * ConfigServer: names, labels and selector, ports, the mounted config map
   * and the environment the server reads.
   */
  predicate Wired(meta: Metadata, spec: ServerSpec, cm: ConfigMap, svc: Service, dep: Deployment) {
    && cm.Key() == ValuesKey(meta.name, meta.namespace)
    && svc.Key() == ServerKey(meta)
    && dep.Key() == ServerKey(meta)
    && svc.serviceType == "ClusterIP"
    && svc.selector == dep.matchLabels == dep.template.labels == dep.labels == map["app" := meta.name]
    && dep.replicas == 1
    && |svc.ports| == 1
    && svc.ports[0].port == svc.ports[0].targetPort == spec.containerPort
    && |dep.template.containers| == 1
    && |dep.template.volumes| == 1
    && dep.template.volumes[0].configMap.name == cm.name
    && var ctr := dep.template.containers[0];
       && ctr.name == meta.name
       && |ctr.ports| == 1
       && ctr.ports[0].containerPort == spec.containerPort
       && ctr.ports[0].name == svc.ports[0].name
       && |ctr.volumeMounts| == 1
       && ctr.volumeMounts[0].name == dep.template.volumes[0].name
       && ctr.volumeMounts[0].mountPath == spec.configMountPath
       && EnvValue(ctr.env, DirVariable) == Some(ctr.volumeMounts[0].mountPath)
       && EnvValue(ctr.env, PortVariable).Some?
       && ParseNumber(EnvValue(ctr.env, PortVariable).value) == Some((spec.containerPort, ""))
  }

  /** The manifests the create handler builds are wired to one another. */
  lemma ManifestsWired(meta: Metadata, spec: ServerSpec, data: map<string, string>)
    ensures Wired(meta, spec, ConfigMapManifest(meta, data), ServiceManifest(meta, spec), DeploymentManifest(meta, spec))
    ensures DeploymentManifest(meta, spec).template.volumes[0].configMap.defaultMode == 444
  {
    var env := DeploymentManifest(meta, spec).template.containers[0].env;
    assert EnvValue(env, PortVariable) == Some(IntToString(spec.containerPort));
    NumberRoundTrip(spec.containerPort, "");
    assert IntToString(spec.containerPort) + "" == IntToString(spec.containerPort);
  }

  // ---------------------------------------------------------------------------
  // Seeding the config map
  // ---------------------------------------------------------------------------

  /**
   * The initial data of `<name>-values`: for every KeyValuePair declared for
   * ConfigServer `name`, in list order, its key maps to its encoded value.
   */
  function Seed(items: seq<KeyValuePairSpec>, name: string): map<string, string> {
    if items == [] then map[]
    else
      var last := items[|items| - 1];
      var data := Seed(items[..|items| - 1], name);
      if last.config == name then data[last.key := Enc(last.value)] else data
  }

  /** Exactly the keys of the pairs declared for this server are seeded. */
  lemma {:induction false} SeedKeys(items: seq<KeyValuePairSpec>, name: string, key: string)
    ensures key in Seed(items, name) <==> exists i :: 0 <= i < |items| && items[i].config == name && items[i].key == key
  {
    if items != [] {
      var init := items[..|items| - 1];
      SeedKeys(init, name, key);
      if (exists i :: 0 <= i < |init| && init[i].config == name && init[i].key == key) {
        var i :| 0 <= i < |init| && init[i].config == name && init[i].key == key;
        assert items[i] == init[i];
      }
      if (exists i :: 0 <= i < |items| && items[i].config == name && items[i].key == key) {
        var i :| 0 <= i < |items| && items[i].config == name && items[i].key == key;
        if i < |init| {
          assert init[i] == items[i];
        }
      }
    }
  }

  /** A seeded key holds the value of the last pair for this server that declares it. */
  lemma {:induction false} SeedLastWins(items: seq<KeyValuePairSpec>, name: string, i: nat)
    requires i < |items| && items[i].config == name
    requires forall j | i < j < |items| :: items[j].config == name ==> items[j].key != items[i].key
    ensures items[i].key in Seed(items, name)
    ensures Seed(items, name)[items[i].key] == Enc(items[i].value)
  {
    var init := items[..|items| - 1];
    if i < |items| - 1 {
      assert init[i] == items[i];
      SeedLastWins(init, name, i);
    }
  }

  /**
   * Inserting one more pair anywhere in the list: a pair for another server
   * changes nothing, and a pair for this server whose key no later pair
   * overrides adds its own entry.
   */
  lemma {:induction false} SeedInsert(items: seq<KeyValuePairSpec>, name: string, p: nat, kv: KeyValuePairSpec)
    requires p <= |items|
    requires kv.config == name ==> forall j | p <= j < |items| :: items[j].config == name ==> items[j].key != kv.key
    ensures Seed(items[..p] + [kv] + items[p..], name)
         == if kv.config == name then Seed(items, name)[kv.key := Enc(kv.value)] else Seed(items, name)
  {
    if p == |items| {
      assert items[..p] + [kv] + items[p..] == items + [kv];
      SeedSnoc(items, kv, name);
    } else {
      var init, last := items[..|items| - 1], items[|items| - 1];
      var shorter := init[..p] + [kv] + init[p..];
      assert items[..p] + [kv] + items[p..] == shorter + [last];
      assert items == init + [last];
      assert forall j | p <= j < |init| :: init[j] == items[j];
      SeedInsert(init, name, p, kv);
      SeedSnoc(shorter, last, name);
      SeedSnoc(init, last, name);
      if kv.config == name && last.config == name {
        UpdatesCommute(Seed(init, name), kv.key, Enc(kv.value), last.key, Enc(last.value));
      }
    }
  }

  /** One more pair at the end of the list. */
  lemma SeedSnoc(items: seq<KeyValuePairSpec>, last: KeyValuePairSpec, name: string)
    ensures Seed(items + [last], name)
         == if last.config == name then Seed(items, name)[last.key := Enc(last.value)] else Seed(items, name)
  {
    assert (items + [last])[..|items|] == items;
  }

  /** Updates at two different keys can be made in either order. */
  lemma UpdatesCommute(m: map<string, string>, k1: string, v1: string, k2: string, v2: string)
    requires k1 != k2
    ensures m[k1 := v1][k2 := v2] == m[k2 := v2][k1 := v1]
  {
  }

  // ---------------------------------------------------------------------------
  // create_fn
  // ---------------------------------------------------------------------------

  /**
   * The create handler on a cluster value: list the KeyValuePairs, then
   * create the config map seeded from them, the service and the deployment.
   */
  function CreateServerOn(c: Cluster, meta: Metadata, spec: ServerSpec): (Cluster, HandlerResult) {
    var listed := ListKeyValuePairs(c, meta.namespace);
    if !listed.Ok? then (c, Raised(listed))
    else CreateObjects(c, ConfigMapManifest(meta, Seed(listed.value, meta.name)),
                       ServiceManifest(meta, spec), DeploymentManifest(meta, spec))
  }

  /**
   * The three creations, in order: the config map, the service, the
   * deployment. The first failing call ends the handler with its exception.
   */
  function CreateObjects(c: Cluster, cm: ConfigMap, svc: Service, dep: Deployment): (Cluster, HandlerResult) {
    var (c1, r1) := CreateConfigMap(c, cm);
    if !r1.Ok? then (c1, Raised(r1))
    else
      var (c2, r2) := CreateService(c1, svc);
      if !r2.Ok? then (c2, Raised(r2))
      else
        var (c3, r3) := CreateDeployment(c2, dep);
        if !r3.Ok? then (c3, Raised(r3)) else (c3, Done)
  }

  /** Where the manifests of a ConfigServer are created. */
  lemma ManifestKeys(meta: Metadata, spec: ServerSpec, data: map<string, string>)
    ensures ConfigMapManifest(meta, data).Key() == ValuesKey(meta.name, meta.namespace)
    ensures ServiceManifest(meta, spec).Key() == ServerKey(meta)
    ensures DeploymentManifest(meta, spec).Key() == ServerKey(meta)
  {
  }

  method CreateServer(store: ClusterStore, meta: Metadata, spec: ServerSpec) returns (r: HandlerResult)
    requires store.Valid()
    modifies store
    ensures store.Valid()
    ensures (store.State(), r) == CreateServerOn(old(store.State()), meta, spec)
  {
    var listed := store.ListNamespacedKeyValuePairs(meta.namespace);
    if !listed.Ok? {
      return Raised(listed);
    }
    var items := listed.value;
    var data: map<string, string> := map[];
    for i := 0 to |items|
      invariant data == Seed(items[..i], meta.name)
    {
      assert items[..i + 1][..i] == items[..i];
      if items[i].config == meta.name {
        data := data[items[i].key := Enc(items[i].value)];
      }
    }
    assert items[..|items|] == items;
    var created := store.CreateNamespacedConfigMap(ConfigMapManifest(meta, data));
    if !created.Ok? {
      return Raised(created);
    }
    created := store.CreateNamespacedService(ServiceManifest(meta, spec));
    if !created.Ok? {
      return Raised(created);
    }
    created := store.CreateNamespacedDeployment(DeploymentManifest(meta, spec));
    if !created.Ok? {
      return Raised(created);
    }
    return Done;
  }

  /** The data a ConfigServer's config map holds (none is the empty map), if the map exists. */
  function ValuesData(c: Cluster, configName: string, namespace: string): Option<map<string, string>> {
    var key := ValuesKey(configName, namespace);
    if key in c.configMaps then Some(c.configMaps[key].data.GetOr(map[])) else None
  }

  /** An object that the call (from `c` to `d`) created. */
  predicate Created(c: Cluster, d: Cluster, kind: Kind, key: ObjectKey) {
    !Has(c, kind, key) && Has(d, kind, key)
  }

  /** `d` differs from `c` at most in the config map `vk` and the service and deployment `sk`. */
  predicate Untouched(c: Cluster, d: Cluster, vk: ObjectKey, sk: ObjectKey) {
    && d.keyValuePairs == c.keyValuePairs && d.faults == c.faults
    && d.configMaps - {vk} == c.configMaps - {vk}
    && d.services - {sk} == c.services - {sk}
    && d.deployments - {sk} == c.deployments - {sk}
  }

  /**
   * The create handler touches nothing but the three objects of its
   * ConfigServer, and leaves an existing config map as it was.
   */
  lemma CreateServerFrame(c: Cluster, meta: Metadata, spec: ServerSpec)
    ensures Untouched(c, CreateServerOn(c, meta, spec).0, ValuesKey(meta.name, meta.namespace), ServerKey(meta))
    ensures ValuesKey(meta.name, meta.namespace) in c.configMaps ==> CreateServerOn(c, meta, spec).0.configMaps == c.configMaps
  {
    var listed := ListKeyValuePairs(c, meta.namespace);
    if listed.Ok? {
      var data := Seed(listed.value, meta.name);
      ManifestKeys(meta, spec, data);
      CreateObjectsFrame(c, ConfigMapManifest(meta, data), ServiceManifest(meta, spec), DeploymentManifest(meta, spec));
    }
  }

  lemma CreateObjectsFrame(c: Cluster, cm: ConfigMap, svc: Service, dep: Deployment)
    requires svc.Key() == dep.Key()
    ensures Untouched(c, CreateObjects(c, cm, svc, dep).0, cm.Key(), svc.Key())
    ensures cm.Key() in c.configMaps ==> CreateObjects(c, cm, svc, dep).0 == c
  {
    var vk, sk := cm.Key(), svc.Key();
    var d := CreateObjects(c, cm, svc, dep).0;
    var c1 := CreateConfigMap(c, cm).0;
    var c2 := CreateService(c1, svc).0;
    var c3 := CreateDeployment(c2, dep).0;
    CreateConfigMapFrame(c, cm);
    CreateServiceFrame(c1, svc);
    CreateDeploymentFrame(c2, dep);
    assert d == c1 || d == c2 || d == c3;
    assert vk in c.configMaps ==> d == c;
  }

  /**
   * The create handler creates its objects in order and stops at the first
   * failure: a deployment is created only after the service, the service
   * only after the config map, and the handler succeeds exactly when it
   * created the deployment.
   */
  lemma CreateServerOrder(c: Cluster, meta: Metadata, spec: ServerSpec)
    ensures var (d, r) := CreateServerOn(c, meta, spec);
            var (vk, sk) := (ValuesKey(meta.name, meta.namespace), ServerKey(meta));
            && (Created(c, d, DeploymentKind, sk) ==> Created(c, d, ServiceKind, sk))
            && (Created(c, d, ServiceKind, sk) ==> Created(c, d, ConfigMapKind, vk))
            && (r == Done <==> Created(c, d, DeploymentKind, sk))
            && (r == Done || r.ApiException?)
  {
    var listed := ListKeyValuePairs(c, meta.namespace);
    if listed.Ok? {
      var data := Seed(listed.value, meta.name);
      ManifestKeys(meta, spec, data);
      CreateObjectsOrder(c, ConfigMapManifest(meta, data), ServiceManifest(meta, spec), DeploymentManifest(meta, spec));
    }
  }

  lemma CreateObjectsOrder(c: Cluster, cm: ConfigMap, svc: Service, dep: Deployment)
    requires svc.Key() == dep.Key()
    ensures var (d, r) := CreateObjects(c, cm, svc, dep);
            var (vk, sk) := (cm.Key(), svc.Key());
            && (Created(c, d, DeploymentKind, sk) ==> Created(c, d, ServiceKind, sk))
            && (Created(c, d, ServiceKind, sk) ==> Created(c, d, ConfigMapKind, vk))
            && (r == Done <==> Created(c, d, DeploymentKind, sk))
            && (r == Done || r.ApiException?)
  {
    var (vk, sk) := (cm.Key(), svc.Key());
    var (c1, r1) := CreateConfigMap(c, cm);
    CreateConfigMapFrame(c, cm);
    if r1.Ok? {
      assert Created(c, c1, ConfigMapKind, vk);
      var (c2, r2) := CreateService(c1, svc);
      CreateServiceFrame(c1, svc);
      if r2.Ok? {
        assert Created(c, c2, ServiceKind, sk);
        CreateDeploymentFrame(c2, dep);
      }
    }
  }

  /** The cluster with the three objects of a ConfigServer added, its config map holding `data`. */
  function WithServer(c: Cluster, meta: Metadata, spec: ServerSpec, data: map<string, string>): Cluster {
    c.(configMaps := c.configMaps[ValuesKey(meta.name, meta.namespace) := ConfigMap(ValuesName(meta.name), meta.namespace, StoredData(data))],
       services := c.services[ServerKey(meta) := ServiceManifest(meta, spec)],
       deployments := c.deployments[ServerKey(meta) := DeploymentManifest(meta, spec)])
  }

  /**
   * On a cluster where the calls succeed and the objects do not exist yet,
   * the handler adds the three wired objects and the config map holds the
   * seeded data.
   */
  lemma CreateServerSucceeds(c: Cluster, meta: Metadata, spec: ServerSpec)
    requires ListKeyValuePairsCall(meta.namespace) !in c.faults
    requires ObjectCall(Create, ConfigMapKind, ValuesKey(meta.name, meta.namespace)) !in c.faults
    requires ObjectCall(Create, ServiceKind, ServerKey(meta)) !in c.faults
    requires ObjectCall(Create, DeploymentKind, ServerKey(meta)) !in c.faults
    requires ValuesKey(meta.name, meta.namespace) !in c.configMaps
    requires ServerKey(meta) !in c.services && ServerKey(meta) !in c.deployments
    ensures var items := ListKeyValuePairs(c, meta.namespace).value;
            var d := WithServer(c, meta, spec, Seed(items, meta.name));
            && CreateServerOn(c, meta, spec) == (d, Done)
            && ValuesData(d, meta.name, meta.namespace) == Some(Seed(items, meta.name))
            && Wired(meta, spec, d.configMaps[ValuesKey(meta.name, meta.namespace)],
                     d.services[ServerKey(meta)], d.deployments[ServerKey(meta)])
  {
    var items := ListKeyValuePairs(c, meta.namespace).value;
    ManifestsWired(meta, spec, Seed(items, meta.name));
  }

  // ---------------------------------------------------------------------------
  // delete_fn
  // ---------------------------------------------------------------------------

  /** An object the delete handler removes. */
  datatype Target = Target(kind: Kind, key: ObjectKey)

  /** The deployment, then the service, then the config map. */
  function DeleteTargets(meta: Metadata): seq<Target> {
    [Target(DeploymentKind, ServerKey(meta)),
     Target(ServiceKind, ServerKey(meta)),
     Target(ConfigMapKind, ValuesKey(meta.name, meta.namespace))]
  }

  function DeleteFailure(name: string, reason: string): string {
    "Failed to delete config server " + name + ": " + reason
  }

  function DeleteCall(t: Target): Call { ObjectCall(Delete, t.kind, t.key) }

  /**
   * The delete handler on a cluster value: delete each target in turn,
   * passing over the ones that are already gone; the first other failure
   * ends the handler with a permanent error.
   */
  function DeleteCascade(c: Cluster, targets: seq<Target>, name: string): (Cluster, HandlerResult)
    decreases |targets|
  {
    if targets == [] then (c, Done)
    else
      var (c1, r) := DeleteObject(c, targets[0].kind, targets[0].key);
      if r.OtherError? then (c1, PermanentError(DeleteFailure(name, r.reason)))
      else DeleteCascade(c1, targets[1..], name)
  }

  method DeleteServer(store: ClusterStore, meta: Metadata) returns (r: HandlerResult)
    requires store.Valid()
    modifies store
    ensures store.Valid()
    ensures (store.State(), r) == DeleteCascade(old(store.State()), DeleteTargets(meta), meta.name)
  {
    var targets := DeleteTargets(meta);
    for i := 0 to |targets|
      invariant store.Valid()
      invariant DeleteCascade(store.State(), targets[i..], meta.name)
             == DeleteCascade(old(store.State()), targets, meta.name)
    {
      var deleted := store.DeleteNamespaced(targets[i].kind, targets[i].key);
      if deleted.OtherError? {
        return PermanentError(DeleteFailure(meta.name, deleted.reason));
      }
      assert targets[i..][1..] == targets[i + 1..];
    }
    return Done;
  }

  /** The cluster without every one of the targets. */
  function RemoveAll(c: Cluster, targets: seq<Target>): Cluster
    decreases |targets|
  {
    if targets == [] then c else RemoveAll(Remove(c, targets[0].kind, targets[0].key), targets[1..])
  }

  /** The keys of the targets of one kind. */
  function TargetKeys(targets: seq<Target>, kind: Kind): set<ObjectKey>
    decreases |targets|
  {
    if targets == [] then {}
    else (if targets[0].kind == kind then {targets[0].key} else {}) + TargetKeys(targets[1..], kind)
  }

  /** Removing the targets removes exactly them and keeps everything else. */
  lemma RemoveAllEffect(c: Cluster, targets: seq<Target>)
    ensures RemoveAll(c, targets)
         == c.(configMaps := c.configMaps - TargetKeys(targets, ConfigMapKind),
               services := c.services - TargetKeys(targets, ServiceKind),
               deployments := c.deployments - TargetKeys(targets, DeploymentKind))
  {
    RemoveAllConfigMaps(c, targets);
    RemoveAllServices(c, targets);
    RemoveAllDeployments(c, targets);
    RemoveAllKeepsRest(c, targets);
  }

  lemma {:induction false} RemoveAllKeepsRest(c: Cluster, targets: seq<Target>)
    ensures RemoveAll(c, targets).keyValuePairs == c.keyValuePairs
    ensures RemoveAll(c, targets).faults == c.faults
    decreases |targets|
  {
    if targets != [] {
      RemoveAllKeepsRest(Remove(c, targets[0].kind, targets[0].key), targets[1..]);
    }
  }

  lemma {:induction false} RemoveAllConfigMaps(c: Cluster, targets: seq<Target>)
    ensures RemoveAll(c, targets).configMaps == c.configMaps - TargetKeys(targets, ConfigMapKind)
    decreases |targets|
  {
    if targets == [] {
      assert c.configMaps - {} == c.configMaps;
    } else {
      var t := targets[0];
      RemoveAllConfigMaps(Remove(c, t.kind, t.key), targets[1..]);
      if t.kind == ConfigMapKind {
        assert c.configMaps - {t.key} - TargetKeys(targets[1..], ConfigMapKind) == c.configMaps - TargetKeys(targets, ConfigMapKind);
      } else {
        assert TargetKeys(targets, ConfigMapKind) == TargetKeys(targets[1..], ConfigMapKind);
      }
    }
  }

  lemma {:induction false} RemoveAllServices(c: Cluster, targets: seq<Target>)
    ensures RemoveAll(c, targets).services == c.services - TargetKeys(targets, ServiceKind)
    decreases |targets|
  {
    if targets == [] {
      assert c.services - {} == c.services;
    } else {
      var t := targets[0];
      RemoveAllServices(Remove(c, t.kind, t.key), targets[1..]);
      if t.kind == ServiceKind {
        assert c.services - {t.key} - TargetKeys(targets[1..], ServiceKind) == c.services - TargetKeys(targets, ServiceKind);
      } else {
        assert TargetKeys(targets, ServiceKind) == TargetKeys(targets[1..], ServiceKind);
      }
    }
  }

  lemma {:induction false} RemoveAllDeployments(c: Cluster, targets: seq<Target>)
    ensures RemoveAll(c, targets).deployments == c.deployments - TargetKeys(targets, DeploymentKind)
    decreases |targets|
  {
    if targets == [] {
      assert c.deployments - {} == c.deployments;
    } else {
      var t := targets[0];
      RemoveAllDeployments(Remove(c, t.kind, t.key), targets[1..]);
      if t.kind == DeploymentKind {
        assert c.deployments - {t.key} - TargetKeys(targets[1..], DeploymentKind) == c.deployments - TargetKeys(targets, DeploymentKind);
      } else {
        assert TargetKeys(targets, DeploymentKind) == TargetKeys(targets[1..], DeploymentKind);
      }
    }
  }

  /** Removing an object that is not there leaves the cluster as it was. */
  lemma RemoveAbsent(c: Cluster, kind: Kind, key: ObjectKey)
    requires !Has(c, kind, key)
    ensures Remove(c, kind, key) == c
  {
    match kind
    case ConfigMapKind => assert c.configMaps - {key} == c.configMaps;
    case ServiceKind => assert c.services - {key} == c.services;
    case DeploymentKind => assert c.deployments - {key} == c.deployments;
  }

  /** When no deletion fails other than with "not found", every target is removed and the handler succeeds. */
  lemma {:induction false} CascadeSucceeds(c: Cluster, targets: seq<Target>, name: string)
    requires forall t | t in targets :: DeleteCall(t) !in c.faults
    ensures DeleteCascade(c, targets, name) == (RemoveAll(c, targets), Done)
    decreases |targets|
  {
    if targets != [] {
      var t := targets[0];
      assert t in targets;
      if !Has(c, t.kind, t.key) {
        RemoveAbsent(c, t.kind, t.key);
      }
      assert DeleteObject(c, t.kind, t.key) == (Remove(c, t.kind, t.key), if Has(c, t.kind, t.key) then Ok(()) else NotFound);
      forall u | u in targets[1..]
        ensures DeleteCall(u) !in Remove(c, t.kind, t.key).faults
      {
        assert u in targets;
      }
      CascadeSucceeds(Remove(c, t.kind, t.key), targets[1..], name);
    }
  }

  /**
   * The first deletion that fails other than with "not found" ends the
   * handler: the targets before it are removed, the ones after it are not
   * attempted.
   */
  lemma {:induction false} CascadeStops(c: Cluster, targets: seq<Target>, name: string, j: nat)
    requires j < |targets| && DeleteCall(targets[j]) in c.faults
    requires forall i | 0 <= i < j :: DeleteCall(targets[i]) !in c.faults
    ensures DeleteCascade(c, targets, name)
         == (RemoveAll(c, targets[..j]), PermanentError(DeleteFailure(name, c.faults[DeleteCall(targets[j])])))
    decreases j
  {
    if j > 0 {
      var t := targets[0];
      if !Has(c, t.kind, t.key) {
        RemoveAbsent(c, t.kind, t.key);
      }
      assert targets[1..][..j - 1] == targets[..j][1..];
      CascadeStops(Remove(c, t.kind, t.key), targets[1..], name, j - 1);
    }
  }

  /** A successful cascade met no failure other than "not found". */
  lemma {:induction false} CascadeDoneMeetsNoFault(c: Cluster, targets: seq<Target>, name: string)
    requires DeleteCascade(c, targets, name).1 == Done
    ensures forall t | t in targets :: DeleteCall(t) !in c.faults
    decreases |targets|
  {
    if targets != [] {
      var t := targets[0];
      var c1 := DeleteObject(c, t.kind, t.key).0;
      assert c1.faults == c.faults;
      CascadeDoneMeetsNoFault(c1, targets[1..], name);
      forall u | u in targets
        ensures DeleteCall(u) !in c.faults
      {
        if u != t {
          assert u in targets[1..];
        }
      }
    }
  }

  /** The objects the delete handler removes, kind by kind. */
  lemma DeleteTargetKeys(meta: Metadata)
    ensures TargetKeys(DeleteTargets(meta), ConfigMapKind) == {ValuesKey(meta.name, meta.namespace)}
    ensures TargetKeys(DeleteTargets(meta), ServiceKind) == {ServerKey(meta)}
    ensures TargetKeys(DeleteTargets(meta), DeploymentKind) == {ServerKey(meta)}
  {
    var ts := DeleteTargets(meta);
    forall kind | true
      ensures TargetKeys(ts, kind) == TargetKey(ts[0], kind) + TargetKey(ts[1], kind) + TargetKey(ts[2], kind)
    {
      assert ts == [ts[0]] + ([ts[1]] + ([ts[2]] + []));
      TargetKeysCons(ts[2], [], kind);
      TargetKeysCons(ts[1], [ts[2]] + [], kind);
      TargetKeysCons(ts[0], [ts[1]] + ([ts[2]] + []), kind);
    }
  }

  function TargetKey(t: Target, kind: Kind): set<ObjectKey> {
    if t.kind == kind then {t.key} else {}
  }

  lemma TargetKeysCons(t: Target, rest: seq<Target>, kind: Kind)
    ensures TargetKeys([t] + rest, kind) == TargetKey(t, kind) + TargetKeys(rest, kind)
  {
    assert ([t] + rest)[1..] == rest;
  }

  /**
   * What deleting a ConfigServer does: without failures the three objects
   * are gone and nothing else changed; a failure on a step leaves that
   * object and the later ones in place and removes the earlier ones.
   */
  lemma DeleteServerOutcome(c: Cluster, meta: Metadata)
    ensures var ts := DeleteTargets(meta);
            var (d, r) := DeleteCascade(c, ts, meta.name);
            && ((forall t | t in ts :: DeleteCall(t) !in c.faults) ==>
                 r == Done
                 && d == c.(configMaps := c.configMaps - {ValuesKey(meta.name, meta.namespace)},
                            services := c.services - {ServerKey(meta)},
                            deployments := c.deployments - {ServerKey(meta)}))
            && (DeleteCall(ts[0]) in c.faults ==>
                 d == c && r == PermanentError(DeleteFailure(meta.name, c.faults[DeleteCall(ts[0])])))
            && (DeleteCall(ts[0]) !in c.faults && DeleteCall(ts[1]) in c.faults ==>
                 d == c.(deployments := c.deployments - {ServerKey(meta)})
                 && r == PermanentError(DeleteFailure(meta.name, c.faults[DeleteCall(ts[1])])))
            && (DeleteCall(ts[0]) !in c.faults && DeleteCall(ts[1]) !in c.faults && DeleteCall(ts[2]) in c.faults ==>
                 d == c.(services := c.services - {ServerKey(meta)}, deployments := c.deployments - {ServerKey(meta)})
                 && r == PermanentError(DeleteFailure(meta.name, c.faults[DeleteCall(ts[2])])))
  {
    var ts := DeleteTargets(meta);
    if forall t | t in ts :: DeleteCall(t) !in c.faults {
      DeleteServerClean(c, meta);
    }
    DeleteServerFaulted(c, meta);
  }

  /** Without faults the three objects are removed. */
  lemma DeleteServerClean(c: Cluster, meta: Metadata)
    requires forall t | t in DeleteTargets(meta) :: DeleteCall(t) !in c.faults
    ensures DeleteCascade(c, DeleteTargets(meta), meta.name)
         == (c.(configMaps := c.configMaps - {ValuesKey(meta.name, meta.namespace)},
                services := c.services - {ServerKey(meta)},
                deployments := c.deployments - {ServerKey(meta)}), Done)
  {
    var ts := DeleteTargets(meta);
    CascadeSucceeds(c, ts, meta.name);
    RemoveAllEffect(c, ts);
    DeleteTargetKeys(meta);
  }

  /** A failing delete call ends the handler after the objects deleted before it. */
  lemma DeleteServerFaulted(c: Cluster, meta: Metadata)
    ensures var ts := DeleteTargets(meta);
            var (d, r) := DeleteCascade(c, ts, meta.name);
            && (DeleteCall(ts[0]) in c.faults ==>
                 d == c && r == PermanentError(DeleteFailure(meta.name, c.faults[DeleteCall(ts[0])])))
            && (DeleteCall(ts[0]) !in c.faults && DeleteCall(ts[1]) in c.faults ==>
                 d == c.(deployments := c.deployments - {ServerKey(meta)})
                 && r == PermanentError(DeleteFailure(meta.name, c.faults[DeleteCall(ts[1])])))
            && (DeleteCall(ts[0]) !in c.faults && DeleteCall(ts[1]) !in c.faults && DeleteCall(ts[2]) in c.faults ==>
                 d == c.(services := c.services - {ServerKey(meta)}, deployments := c.deployments - {ServerKey(meta)})
                 && r == PermanentError(DeleteFailure(meta.name, c.faults[DeleteCall(ts[2])])))
  {
    var ts := DeleteTargets(meta);
    if DeleteCall(ts[0]) in c.faults {
      CascadeStops(c, ts, meta.name, 0);
    } else if DeleteCall(ts[1]) in c.faults {
      CascadeStops(c, ts, meta.name, 1);
      assert ts[..1][1..] == [];
    } else if DeleteCall(ts[2]) in c.faults {
      CascadeStops(c, ts, meta.name, 2);
      var c1 := Remove(c, ts[0].kind, ts[0].key);
      assert ts[..2][1..] == [ts[1]] && [ts[1]][1..] == [];
      assert RemoveAll(c, ts[..2]) == RemoveAll(c1, [ts[1]]) == Remove(c1, ts[1].kind, ts[1].key);
    }
  }

  /** With all three objects already gone, deleting again succeeds and changes nothing. */
  lemma DeleteAbsentServer(c: Cluster, meta: Metadata)
    requires forall t | t in DeleteTargets(meta) :: DeleteCall(t) !in c.faults
    requires ValuesKey(meta.name, meta.namespace) !in c.configMaps
    requires ServerKey(meta) !in c.services && ServerKey(meta) !in c.deployments
    ensures DeleteCascade(c, DeleteTargets(meta), meta.name) == (c, Done)
  {
    DeleteServerOutcome(c, meta);
    assert c.configMaps - {ValuesKey(meta.name, meta.namespace)} == c.configMaps;
    assert c.services - {ServerKey(meta)} == c.services;
    assert c.deployments - {ServerKey(meta)} == c.deployments;
  }

  /** Once the delete handler has succeeded, running it again is a no-op. */
  lemma DeleteServerIdempotent(c: Cluster, meta: Metadata)
    requires DeleteCascade(c, DeleteTargets(meta), meta.name).1 == Done
    ensures var d := DeleteCascade(c, DeleteTargets(meta), meta.name).0;
            DeleteCascade(d, DeleteTargets(meta), meta.name) == (d, Done)
  {
    CascadeDoneMeetsNoFault(c, DeleteTargets(meta), meta.name);
    DeleteServerOutcome(c, meta);
    DeleteAbsentServer(DeleteCascade(c, DeleteTargets(meta), meta.name).0, meta);
  }

  // ---------------------------------------------------------------------------
  // _get_config_map
  // ---------------------------------------------------------------------------

  /** The outcome of loading a ConfigServer's config map: its data, its absence, or a permanent error. */
  datatype Lookup = Found(data: map<string, string>) | Missing | Failed(message: string)

  function LoadFailure(configName: string, reason: string): string {
    "Failed to load config values '" + configName + "': " + reason
  }

  function LookupConfigMap(c: Cluster, configName: string, namespace: string): Lookup {
    match ReadConfigMap(c, ValuesKey(configName, namespace))
    case Ok(cm) => Found(cm.data.GetOr(map[]))
    case NotFound => Missing
    case OtherError(reason) => Failed(LoadFailure(configName, reason))
  }

  method GetConfigMap(store: ClusterStore, configName: string, namespace: string) returns (r: Lookup)
    ensures r == LookupConfigMap(store.State(), configName, namespace)
    ensures var key := ValuesKey(configName, namespace);
            var read := ObjectCall(Read, ConfigMapKind, key);
            && (r.Found? <==> read !in store.faults && key in store.configMaps)
            && (r.Found? ==> Some(r.data) == ValuesData(store.State(), configName, namespace))
            && (r.Missing? <==> read !in store.faults && key !in store.configMaps)
            && (r.Failed? <==> read in store.faults)
            && (r.Failed? ==> r.message == LoadFailure(configName, store.faults[read]))
  {
    var read := store.ReadNamespacedConfigMap(ValuesKey(configName, namespace));
    match read
    case Ok(cm) =>
      var data := if cm.data.None? then map[] else cm.data.value;
      r := Found(data);
    case NotFound =>
      r := Missing;
    case OtherError(reason) =>
      r := Failed(LoadFailure(configName, reason));
  }

  // ---------------------------------------------------------------------------
  // create_config_fn and delete_config_fn
  // ---------------------------------------------------------------------------

  /** The handler's result once the patch call has answered. */
  function Patched(step: (Cluster, ApiResult<()>)): (Cluster, HandlerResult) {
    (step.0, if step.1.Ok? then Done else Raised(step.1))
  }

  /** The KeyValuePair create and update handler on a cluster value. */
  function UpsertOn(c: Cluster, namespace: string, kv: KeyValuePairSpec): (Cluster, HandlerResult) {
    match LookupConfigMap(c, kv.config, namespace)
    case Failed(message) => (c, PermanentError(message))
    case Missing => (c, Done)
    case Found(data) => Patched(PatchConfigMapData(c, ValuesKey(kv.config, namespace), data[kv.key := Enc(kv.value)]))
  }

  /** The KeyValuePair delete handler on a cluster value. */
  function DeleteKeyOn(c: Cluster, namespace: string, kv: KeyValuePairSpec): (Cluster, HandlerResult) {
    match LookupConfigMap(c, kv.config, namespace)
    case Failed(message) => (c, PermanentError(message))
    case Missing => (c, Done)
    case Found(data) => Patched(PatchConfigMapData(c, ValuesKey(kv.config, namespace), data - {kv.key}))
  }

  method CreateConfig(store: ClusterStore, namespace: string, kv: KeyValuePairSpec) returns (r: HandlerResult)
    requires store.Valid()
    modifies store
    ensures store.Valid()
    ensures (store.State(), r) == UpsertOn(old(store.State()), namespace, kv)
  {
    var lookup := GetConfigMap(store, kv.config, namespace);
    match lookup
    case Failed(message) =>
      r := PermanentError(message);
    case Missing =>
      r := Done;
    case Found(data) =>
      var updated := data[kv.key := Enc(kv.value)];
      var patched := store.PatchNamespacedConfigMap(ValuesKey(kv.config, namespace), updated);
      r := if patched.Ok? then Done else Raised(patched);
  }

  method DeleteConfig(store: ClusterStore, namespace: string, kv: KeyValuePairSpec) returns (r: HandlerResult)
    requires store.Valid()
    modifies store
    ensures store.Valid()
    ensures (store.State(), r) == DeleteKeyOn(old(store.State()), namespace, kv)
  {
    var lookup := GetConfigMap(store, kv.config, namespace);
    match lookup
    case Failed(message) =>
      r := PermanentError(message);
    case Missing =>
      r := Done;
    case Found(data) =>
      var updated := data - {kv.key};
      var patched := store.PatchNamespacedConfigMap(ValuesKey(kv.config, namespace), updated);
      r := if patched.Ok? then Done else Raised(patched);
  }

  /** The cluster `d` equals `c` except, at most, for the data of the config map at `key`. */
  predicate OnlyDataOf(c: Cluster, d: Cluster, key: ObjectKey) {
    && d.services == c.services && d.deployments == c.deployments
    && d.keyValuePairs == c.keyValuePairs && d.faults == c.faults
    && d.configMaps.Keys == c.configMaps.Keys
    && (forall k | k in c.configMaps && k != key :: d.configMaps[k] == c.configMaps[k])
    && (key in c.configMaps ==> d.configMaps[key].(data := None) == c.configMaps[key].(data := None))
  }

  /** A patch of a config map's data changes that data and nothing else. */
  lemma PatchEffect(c: Cluster, key: ObjectKey, data: map<string, string>)
    ensures var (d, r) := PatchConfigMapData(c, key, data);
            && OnlyDataOf(c, d, key)
            && (r.Ok? <==> ObjectCall(Patch, ConfigMapKind, key) !in c.faults && key in c.configMaps)
            && (r.Ok? ==> d.configMaps[key].data.GetOr(map[]) == data)
            && (!r.Ok? ==> d == c)
  {
    var (d, r) := PatchConfigMapData(c, key, data);
    if r.Ok? {
      assert d.configMaps == c.configMaps[key := c.configMaps[key].(data := StoredData(data))];
    }
  }

  /** What the read at the start of both KeyValuePair handlers finds. */
  lemma LookupEffect(c: Cluster, configName: string, namespace: string)
    ensures var key := ValuesKey(configName, namespace);
            var read := ObjectCall(Read, ConfigMapKind, key);
            var l := LookupConfigMap(c, configName, namespace);
            && (l.Found? <==> read !in c.faults && key in c.configMaps)
            && (l.Found? ==> Some(l.data) == ValuesData(c, configName, namespace))
            && (l.Missing? <==> read !in c.faults && key !in c.configMaps)
            && (l.Failed? ==> read in c.faults && l.message == LoadFailure(configName, c.faults[read]))
  {
  }

  /**
   * Upserting a pair: with the config map present, its data becomes the old
   * data with the pair's key mapped to the encoded value, and nothing else
   * changes; with the map absent nothing changes and the handler succeeds;
   * a failure to read the map is a permanent error.
   */
  lemma UpsertEffect(c: Cluster, namespace: string, kv: KeyValuePairSpec)
    ensures var (d, r) := UpsertOn(c, namespace, kv);
            var key := ValuesKey(kv.config, namespace);
            && OnlyDataOf(c, d, key)
            && (ObjectCall(Patch, ConfigMapKind, key) !in c.faults && ObjectCall(Read, ConfigMapKind, key) !in c.faults ==>
                 r == Done
                 && ValuesData(d, kv.config, namespace)
                    == if key in c.configMaps then Some(ValuesData(c, kv.config, namespace).value[kv.key := Enc(kv.value)])
                       else None)
            && (ObjectCall(Read, ConfigMapKind, key) !in c.faults && key !in c.configMaps ==> d == c && r == Done)
            && (ObjectCall(Read, ConfigMapKind, key) in c.faults ==>
                 d == c && r == PermanentError(LoadFailure(kv.config, c.faults[ObjectCall(Read, ConfigMapKind, key)])))
  {
    var key := ValuesKey(kv.config, namespace);
    LookupEffect(c, kv.config, namespace);
    var l := LookupConfigMap(c, kv.config, namespace);
    if l.Found? {
      PatchEffect(c, key, l.data[kv.key := Enc(kv.value)]);
    }
  }

  /** Repeating an upsert changes nothing more and ends the same way. */
  lemma UpsertIdempotent(c: Cluster, namespace: string, kv: KeyValuePairSpec)
    ensures var (d, r) := UpsertOn(c, namespace, kv);
            UpsertOn(d, namespace, kv) == (d, r)
  {
    var key := ValuesKey(kv.config, namespace);
    var lookup := LookupConfigMap(c, kv.config, namespace);
    if lookup.Found? && ObjectCall(Patch, ConfigMapKind, key) !in c.faults {
      var data := lookup.data[kv.key := Enc(kv.value)];
      assert data[kv.key := Enc(kv.value)] == data;
      PatchTwice(c, key, data, data);
    }
  }

  /** Of two upserts of the same key, the later one decides the entry. */
  lemma UpsertOverwrites(c: Cluster, namespace: string, first: KeyValuePairSpec, second: KeyValuePairSpec)
    requires first.config == second.config && first.key == second.key
    ensures UpsertOn(UpsertOn(c, namespace, first).0, namespace, second) == UpsertOn(c, namespace, second)
  {
    var key := ValuesKey(first.config, namespace);
    var lookup := LookupConfigMap(c, first.config, namespace);
    if lookup.Found? && ObjectCall(Patch, ConfigMapKind, key) !in c.faults {
      var data := lookup.data[first.key := Enc(first.value)];
      assert data[second.key := Enc(second.value)] == lookup.data[second.key := Enc(second.value)];
      PatchTwice(c, key, data, lookup.data[second.key := Enc(second.value)]);
    }
  }

  /**
   * Deleting a pair's key: with the config map present, its data becomes the
   * old data without that key and nothing else changes; with the map absent
   * nothing changes and the handler succeeds; a failure to read the map is
   * a permanent error.
   */
  lemma DeleteKeyEffect(c: Cluster, namespace: string, kv: KeyValuePairSpec)
    ensures var (d, r) := DeleteKeyOn(c, namespace, kv);
            var key := ValuesKey(kv.config, namespace);
            && OnlyDataOf(c, d, key)
            && (ObjectCall(Patch, ConfigMapKind, key) !in c.faults && ObjectCall(Read, ConfigMapKind, key) !in c.faults ==>
                 r == Done
                 && ValuesData(d, kv.config, namespace)
                    == if key in c.configMaps then Some(ValuesData(c, kv.config, namespace).value - {kv.key}) else None)
            && (ObjectCall(Read, ConfigMapKind, key) !in c.faults && key !in c.configMaps ==> d == c && r == Done)
            && (ObjectCall(Read, ConfigMapKind, key) in c.faults ==>
                 d == c && r == PermanentError(LoadFailure(kv.config, c.faults[ObjectCall(Read, ConfigMapKind, key)])))
  {
    var key := ValuesKey(kv.config, namespace);
    LookupEffect(c, kv.config, namespace);
    var l := LookupConfigMap(c, kv.config, namespace);
    if l.Found? {
      PatchEffect(c, key, l.data - {kv.key});
    }
  }

  /** Deleting a key the config map does not hold leaves the cluster as it was. */
  lemma DeleteAbsentKey(c: Cluster, namespace: string, kv: KeyValuePairSpec)
    requires WellFormed(c)
    requires ObjectCall(Read, ConfigMapKind, ValuesKey(kv.config, namespace)) !in c.faults
    requires ObjectCall(Patch, ConfigMapKind, ValuesKey(kv.config, namespace)) !in c.faults
    requires ValuesData(c, kv.config, namespace).Some? ==> kv.key !in ValuesData(c, kv.config, namespace).value
    ensures DeleteKeyOn(c, namespace, kv) == (c, Done)
  {
    var key := ValuesKey(kv.config, namespace);
    if key in c.configMaps {
      var data := c.configMaps[key].data.GetOr(map[]);
      assert data - {kv.key} == data;
      PatchUnchanged(c, key, data);
    }
  }

  /** Deleting a key that an upsert has just added restores the cluster. */
  lemma DeleteUndoesUpsert(c: Cluster, namespace: string, kv: KeyValuePairSpec)
    requires WellFormed(c)
    requires ObjectCall(Read, ConfigMapKind, ValuesKey(kv.config, namespace)) !in c.faults
    requires ObjectCall(Patch, ConfigMapKind, ValuesKey(kv.config, namespace)) !in c.faults
    requires ValuesData(c, kv.config, namespace).Some? ==> kv.key !in ValuesData(c, kv.config, namespace).value
    ensures DeleteKeyOn(UpsertOn(c, namespace, kv).0, namespace, kv) == (c, Done)
  {
    var key := ValuesKey(kv.config, namespace);
    if key in c.configMaps {
      var data := c.configMaps[key].data.GetOr(map[]);
      var added := data[kv.key := Enc(kv.value)];
      assert added - {kv.key} == data;
      PatchTwice(c, key, added, data);
      PatchUnchanged(c, key, data);
    }
  }

  // ---------------------------------------------------------------------------
  // Declaring a pair before or after its server
  // ---------------------------------------------------------------------------

  /** No call on the cluster fails other than with "not found" or "already exists". */
  predicate Healthy(c: Cluster) { c.faults == map[] }

  /** No pair listed at or after position `p` declares `kv`'s key for `kv`'s ConfigServer. */
  predicate NotOverridden(items: seq<KeyValuePairSpec>, p: nat, kv: KeyValuePairSpec) {
    forall j | p <= j < |items| :: items[j].config == kv.config ==> items[j].key != kv.key
  }

  /**
   * A KeyValuePair declared before its ConfigServer first meets the upsert
   * handler, which finds no config map and does nothing, and is then seeded
   * by the create handler; declared after it, it is added by the upsert
   * handler. Both orders end in the same cluster, and the config map's entry
   * for the key decodes to the pair's value.
   */
  lemma OrderIndependent(c: Cluster, meta: Metadata, spec: ServerSpec, p: nat, kv: KeyValuePairSpec)
    requires WellFormed(c) && Healthy(c)
    requires kv.config == meta.name
    requires ValuesKey(meta.name, meta.namespace) !in c.configMaps
    requires ServerKey(meta) !in c.services && ServerKey(meta) !in c.deployments
    requires meta.namespace in c.keyValuePairs ==> NotOverridden(c.keyValuePairs[meta.namespace], p, kv)
    ensures var (declared, r0) := UpsertOn(AddKeyValuePair(c, meta.namespace, p, kv), meta.namespace, kv);
            var (before, r1) := CreateServerOn(declared, meta, spec);
            var (created, r2) := CreateServerOn(c, meta, spec);
            var (after, r3) := UpsertOn(AddKeyValuePair(created, meta.namespace, p, kv), meta.namespace, kv);
            && r0 == r1 == r2 == r3 == Done
            && before == after
            && ValuesData(before, meta.name, meta.namespace).Some?
            && kv.key in ValuesData(before, meta.name, meta.namespace).value
            && Parse(ValuesData(before, meta.name, meta.namespace).value[kv.key]) == Some(kv.value)
  {
    var seeded := Seed(ListKeyValuePairs(c, meta.namespace).value, meta.name)[kv.key := Enc(kv.value)];
    var result := WithServer(AddKeyValuePair(c, meta.namespace, p, kv), meta, spec, seeded);
    DeclaredBefore(c, meta, spec, p, kv);
    DeclaredAfter(c, meta, spec, p, kv);
    assert ValuesData(result, meta.name, meta.namespace) == Some(seeded);
    RoundTrip(kv.value);
  }

  /**
   * Declared before its server, the pair is passed over by the upsert
   * handler (there is no config map yet) and seeded by the create handler.
   */
  lemma DeclaredBefore(c: Cluster, meta: Metadata, spec: ServerSpec, p: nat, kv: KeyValuePairSpec)
    requires Healthy(c)
    requires kv.config == meta.name
    requires ValuesKey(meta.name, meta.namespace) !in c.configMaps
    requires ServerKey(meta) !in c.services && ServerKey(meta) !in c.deployments
    requires meta.namespace in c.keyValuePairs ==> NotOverridden(c.keyValuePairs[meta.namespace], p, kv)
    ensures UpsertOn(AddKeyValuePair(c, meta.namespace, p, kv), meta.namespace, kv)
         == (AddKeyValuePair(c, meta.namespace, p, kv), Done)
    ensures var seeded := Seed(ListKeyValuePairs(c, meta.namespace).value, meta.name)[kv.key := Enc(kv.value)];
            CreateServerOn(AddKeyValuePair(c, meta.namespace, p, kv), meta, spec)
            == (WithServer(AddKeyValuePair(c, meta.namespace, p, kv), meta, spec, seeded), Done)
  {
    var declared := AddKeyValuePair(c, meta.namespace, p, kv);
    UpsertEffect(declared, meta.namespace, kv);
    SeedAfterAdd(c, meta.namespace, p, kv);
    CreateServerSucceeds(declared, meta, spec);
  }

  /** Adding a pair for ConfigServer `kv.config` adds its entry to the data the create handler seeds. */
  lemma SeedAfterAdd(c: Cluster, ns: string, p: nat, kv: KeyValuePairSpec)
    requires ListKeyValuePairsCall(ns) !in c.faults
    requires ns in c.keyValuePairs ==> NotOverridden(c.keyValuePairs[ns], p, kv)
    ensures ListKeyValuePairs(AddKeyValuePair(c, ns, p, kv), ns).Ok?
    ensures Seed(ListKeyValuePairs(AddKeyValuePair(c, ns, p, kv), ns).value, kv.config)
         == Seed(ListKeyValuePairs(c, ns).value, kv.config)[kv.key := Enc(kv.value)]
  {
    var items := ListKeyValuePairs(c, ns).value;
    var q := if p <= |items| then p else |items|;
    assert ListKeyValuePairs(AddKeyValuePair(c, ns, p, kv), ns).value == items[..q] + [kv] + items[q..];
    SeedInsert(items, kv.config, q, kv);
  }

  /** Declared after its server, the pair is added by the upsert handler. */
  lemma DeclaredAfter(c: Cluster, meta: Metadata, spec: ServerSpec, p: nat, kv: KeyValuePairSpec)
    requires Healthy(c)
    requires kv.config == meta.name
    requires ValuesKey(meta.name, meta.namespace) !in c.configMaps
    requires ServerKey(meta) !in c.services && ServerKey(meta) !in c.deployments
    ensures var seeded := Seed(ListKeyValuePairs(c, meta.namespace).value, meta.name)[kv.key := Enc(kv.value)];
            var (created, r) := CreateServerOn(c, meta, spec);
            && r == Done
            && UpsertOn(AddKeyValuePair(created, meta.namespace, p, kv), meta.namespace, kv)
            == (WithServer(AddKeyValuePair(c, meta.namespace, p, kv), meta, spec, seeded), Done)
  {
    var data := Seed(ListKeyValuePairs(c, meta.namespace).value, meta.name);
    CreateServerSucceeds(c, meta, spec);
    var created := WithServer(c, meta, spec, data);
    var declared := AddKeyValuePair(c, meta.namespace, p, kv);
    assert AddKeyValuePair(created, meta.namespace, p, kv) == WithServer(declared, meta, spec, data);
    UpsertIntoServer(declared, meta, spec, data, kv);
  }

  /** Upserting a pair into a freshly created ConfigServer adds its entry to the seeded data. */
  lemma UpsertIntoServer(c: Cluster, meta: Metadata, spec: ServerSpec, data: map<string, string>, kv: KeyValuePairSpec)
    requires Healthy(c) && kv.config == meta.name
    ensures UpsertOn(WithServer(c, meta, spec, data), meta.namespace, kv)
         == (WithServer(c, meta, spec, data[kv.key := Enc(kv.value)]), Done)
  {
    var key := ValuesKey(meta.name, meta.namespace);
    var d := WithServer(c, meta, spec, data);
    assert LookupConfigMap(d, kv.config, meta.namespace) == Found(data);
    assert d.configMaps[key := d.configMaps[key].(data := StoredData(data[kv.key := Enc(kv.value)]))]
        == WithServer(c, meta, spec, data[kv.key := Enc(kv.value)]).configMaps;
  }
}
