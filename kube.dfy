/**
 * The part of the Kubernetes API that the operator uses, as an in-memory
 * store: config maps, services and deployments keyed by namespace and name,
 * and the KeyValuePair resources of each namespace in the order a list call
 * returns them.
 *
 * Every call answers `Ok`, `NotFound` or `OtherError`. Which calls fail with
 * an error other than "not found" (a forbidden request, a server error) is
 * part of the state: the table `faults` names those calls and the reason the
 * API gives. Everything else follows the API server: creating an object that
 * exists fails with "AlreadyExists", reading, patching or deleting a missing
 * object answers NotFound, and a config map whose data is empty is stored
 * without data.
 *
 * The functions below give each call's effect on a `Cluster` value; the class
 * `ClusterStore` holds that state in fields and performs the calls.
 */
module Kube {
  import opened Wrappers
  import opened Json

  datatype ObjectKey = ObjectKey(namespace: string, name: string)

  datatype Kind = ConfigMapKind | ServiceKind | DeploymentKind

  datatype Verb = Create | Read | Patch | Delete

  /** An API call, as the fault table names it. */
  datatype Call =
    | ListKeyValuePairsCall(namespace: string)
    | ObjectCall(verb: Verb, kind: Kind, key: ObjectKey)

  /** What one API call answers; `NotFound` is the HTTP status 404. */
  datatype ApiResult<T> = Ok(value: T) | NotFound | OtherError(reason: string)

  const AlreadyExists: string := "AlreadyExists"

  /** The spec of a KeyValuePair resource: the ConfigServer it belongs to, a key and a JSON value. */
  datatype KeyValuePairSpec = KeyValuePairSpec(config: string, key: string, value: Json)

  // ---------------------------------------------------------------------------
  // Objects
  // ---------------------------------------------------------------------------

  datatype ConfigMap = ConfigMap(name: string, namespace: string, data: Option<map<string, string>>) {
    function Key(): ObjectKey { ObjectKey(namespace, name) }
  }

  datatype ServicePort = ServicePort(protocol: string, port: int, targetPort: int, name: string)

  datatype Service = Service(
    name: string,
    namespace: string,
    serviceType: string,
    ports: seq<ServicePort>,
    selector: map<string, string>)
  {
    function Key(): ObjectKey { ObjectKey(namespace, name) }
  }

  datatype ContainerPort = ContainerPort(name: string, containerPort: int, protocol: string)

  datatype EnvVar = EnvVar(name: string, value: string)

  datatype VolumeMount = VolumeMount(name: string, mountPath: string)

  datatype Container = Container(
    name: string,
    image: string,
    imagePullPolicy: string,
    ports: seq<ContainerPort>,
    env: seq<EnvVar>,
    volumeMounts: seq<VolumeMount>)

  /** A volume filled from a config map: one file per key, with permission bits `defaultMode`. */
  datatype ConfigMapVolume = ConfigMapVolume(defaultMode: int, name: string)

  datatype Volume = Volume(name: string, configMap: ConfigMapVolume)

  datatype PodTemplate = PodTemplate(labels: map<string, string>, containers: seq<Container>, volumes: seq<Volume>)

  datatype Deployment = Deployment(
    name: string,
    namespace: string,
    labels: map<string, string>,
    replicas: int,
    matchLabels: map<string, string>,
    template: PodTemplate)
  {
    function Key(): ObjectKey { ObjectKey(namespace, name) }
  }

  // ---------------------------------------------------------------------------
  // The cluster state and the calls on it
  // ---------------------------------------------------------------------------

  datatype Cluster = Cluster(
    configMaps: map<ObjectKey, ConfigMap>,
    services: map<ObjectKey, Service>,
    deployments: map<ObjectKey, Deployment>,
    keyValuePairs: map<string, seq<KeyValuePairSpec>>,
    faults: map<Call, string>)

  /**
   * What the API server guarantees of its objects: each is stored under its
   * own namespace and name, and a config map never holds an empty data map.
   */
  ghost predicate WellFormed(c: Cluster) {
    && (forall k | k in c.configMaps :: c.configMaps[k].Key() == k && c.configMaps[k].data != Some(map[]))
    && (forall k | k in c.services :: c.services[k].Key() == k)
    && (forall k | k in c.deployments :: c.deployments[k].Key() == k)
  }

  /** How the API server stores config map data: an empty map is dropped. */
  function StoredData(data: map<string, string>): (r: Option<map<string, string>>)
    ensures r.Some? <==> data != map[]
    ensures r.GetOr(map[]) == data
  {
    if data == map[] then None else Some(data)
  }

  function Stored(cm: ConfigMap): ConfigMap {
    match cm.data
    case None => cm
    case Some(data) => cm.(data := StoredData(data))
  }

  predicate Has(c: Cluster, kind: Kind, key: ObjectKey) {
    match kind
    case ConfigMapKind => key in c.configMaps
    case ServiceKind => key in c.services
    case DeploymentKind => key in c.deployments
  }

  /** The cluster without the object `kind`/`key` (the same cluster if there is none). */
  function Remove(c: Cluster, kind: Kind, key: ObjectKey): Cluster {
    match kind
    case ConfigMapKind => c.(configMaps := c.configMaps - {key})
    case ServiceKind => c.(services := c.services - {key})
    case DeploymentKind => c.(deployments := c.deployments - {key})
  }

  /** The KeyValuePair resources of a namespace, in list order. */
  function ListKeyValuePairs(c: Cluster, namespace: string): ApiResult<seq<KeyValuePairSpec>> {
    var call := ListKeyValuePairsCall(namespace);
    if call in c.faults then OtherError(c.faults[call])
    else if namespace in c.keyValuePairs then Ok(c.keyValuePairs[namespace])
    else Ok([])
  }

  function CreateConfigMap(c: Cluster, cm: ConfigMap): (Cluster, ApiResult<()>) {
    var call := ObjectCall(Create, ConfigMapKind, cm.Key());
    if call in c.faults then (c, OtherError(c.faults[call]))
    else if cm.Key() in c.configMaps then (c, OtherError(AlreadyExists))
    else (c.(configMaps := c.configMaps[cm.Key() := Stored(cm)]), Ok(()))
  }

  function CreateService(c: Cluster, svc: Service): (Cluster, ApiResult<()>) {
    var call := ObjectCall(Create, ServiceKind, svc.Key());
    if call in c.faults then (c, OtherError(c.faults[call]))
    else if svc.Key() in c.services then (c, OtherError(AlreadyExists))
    else (c.(services := c.services[svc.Key() := svc]), Ok(()))
  }

  function CreateDeployment(c: Cluster, dep: Deployment): (Cluster, ApiResult<()>) {
    var call := ObjectCall(Create, DeploymentKind, dep.Key());
    if call in c.faults then (c, OtherError(c.faults[call]))
    else if dep.Key() in c.deployments then (c, OtherError(AlreadyExists))
    else (c.(deployments := c.deployments[dep.Key() := dep]), Ok(()))
  }

  function ReadConfigMap(c: Cluster, key: ObjectKey): ApiResult<ConfigMap> {
    var call := ObjectCall(Read, ConfigMapKind, key);
    if call in c.faults then OtherError(c.faults[call])
    else if key !in c.configMaps then NotFound
    else Ok(c.configMaps[key])
  }

  /** A patch whose body carries the whole data map replaces the data. */
  function PatchConfigMapData(c: Cluster, key: ObjectKey, data: map<string, string>): (Cluster, ApiResult<()>) {
    var call := ObjectCall(Patch, ConfigMapKind, key);
    if call in c.faults then (c, OtherError(c.faults[call]))
    else if key !in c.configMaps then (c, NotFound)
    else (c.(configMaps := c.configMaps[key := c.configMaps[key].(data := StoredData(data))]), Ok(()))
  }

  function DeleteObject(c: Cluster, kind: Kind, key: ObjectKey): (Cluster, ApiResult<()>) {
    var call := ObjectCall(Delete, kind, key);
    if call in c.faults then (c, OtherError(c.faults[call]))
    else if !Has(c, kind, key) then (c, NotFound)
    else (Remove(c, kind, key), Ok(()))
  }

  /** A create call changes the store of its kind at its own key, and nothing else. */
  lemma CreateConfigMapFrame(c: Cluster, cm: ConfigMap)
    ensures var d := CreateConfigMap(c, cm).0;
            && d.services == c.services && d.deployments == c.deployments
            && d.keyValuePairs == c.keyValuePairs && d.faults == c.faults
            && d.configMaps - {cm.Key()} == c.configMaps - {cm.Key()}
  {
  }

  lemma CreateServiceFrame(c: Cluster, svc: Service)
    ensures var d := CreateService(c, svc).0;
            && d.configMaps == c.configMaps && d.deployments == c.deployments
            && d.keyValuePairs == c.keyValuePairs && d.faults == c.faults
            && d.services - {svc.Key()} == c.services - {svc.Key()}
  {
  }

  lemma CreateDeploymentFrame(c: Cluster, dep: Deployment)
    ensures var d := CreateDeployment(c, dep).0;
            && d.configMaps == c.configMaps && d.services == c.services
            && d.keyValuePairs == c.keyValuePairs && d.faults == c.faults
            && d.deployments - {dep.Key()} == c.deployments - {dep.Key()}
  {
  }

  /** A second patch of the same config map overrides the first. */
  lemma PatchTwice(c: Cluster, key: ObjectKey, first: map<string, string>, second: map<string, string>)
    requires ObjectCall(Patch, ConfigMapKind, key) !in c.faults
    ensures PatchConfigMapData(PatchConfigMapData(c, key, first).0, key, second) == PatchConfigMapData(c, key, second)
  {
    if key in c.configMaps {
      var cm := c.configMaps[key];
      assert cm.(data := StoredData(first)).(data := StoredData(second)) == cm.(data := StoredData(second));
      assert c.configMaps[key := cm.(data := StoredData(first))][key := cm.(data := StoredData(second))]
          == c.configMaps[key := cm.(data := StoredData(second))];
    }
  }

  /** Patching a config map with the data it already holds changes nothing. */
  lemma PatchUnchanged(c: Cluster, key: ObjectKey, data: map<string, string>)
    requires WellFormed(c)
    requires ObjectCall(Patch, ConfigMapKind, key) !in c.faults
    requires key in c.configMaps && data == c.configMaps[key].data.GetOr(map[])
    ensures PatchConfigMapData(c, key, data) == (c, Ok(()))
  {
    var cm := c.configMaps[key];
    assert StoredData(data) == cm.data;
    assert cm.(data := cm.data) == cm;
    assert c.configMaps[key := cm] == c.configMaps;
  }

  /** A user creates a KeyValuePair resource; `position` is where the list order puts it. */
  function AddKeyValuePair(c: Cluster, namespace: string, position: nat, kv: KeyValuePairSpec): Cluster {
    var items := if namespace in c.keyValuePairs then c.keyValuePairs[namespace] else [];
    var p := if position <= |items| then position else |items|;
    c.(keyValuePairs := c.keyValuePairs[namespace := items[..p] + [kv] + items[p..]])
  }

  // ---------------------------------------------------------------------------
  // The store
  // ---------------------------------------------------------------------------

  /** The cluster as the operator's API client sees it. */
  class ClusterStore {
    var configMaps: map<ObjectKey, ConfigMap>
    var services: map<ObjectKey, Service>
    var deployments: map<ObjectKey, Deployment>
    var keyValuePairs: map<string, seq<KeyValuePairSpec>>
    var faults: map<Call, string>

    function State(): Cluster
      reads this
    {
      Cluster(configMaps, services, deployments, keyValuePairs, faults)
    }

    ghost predicate Valid()
      reads this
    {
      WellFormed(State())
    }

    constructor (c: Cluster)
      requires WellFormed(c)
      ensures Valid() && State() == c
    {
      configMaps, services, deployments := c.configMaps, c.services, c.deployments;
      keyValuePairs, faults := c.keyValuePairs, c.faults;
    }

    // Each call performs the API function of the same name on the fields:
    // the new fields are those of the cluster the function returns.

    method ListNamespacedKeyValuePairs(namespace: string) returns (r: ApiResult<seq<KeyValuePairSpec>>)
      ensures r == ListKeyValuePairs(State(), namespace)
      ensures r.Ok? <==> ListKeyValuePairsCall(namespace) !in faults
    {
      r := ListKeyValuePairs(State(), namespace);
    }

    method CreateNamespacedConfigMap(cm: ConfigMap) returns (r: ApiResult<()>)
      requires Valid()
      modifies this
      ensures Valid()
      ensures (State(), r) == CreateConfigMap(old(State()), cm)
    {
      var (d, result) := CreateConfigMap(State(), cm);
      configMaps, r := d.configMaps, result;
    }

    method CreateNamespacedService(svc: Service) returns (r: ApiResult<()>)
      requires Valid()
      modifies this
      ensures Valid()
      ensures (State(), r) == CreateService(old(State()), svc)
    {
      var (d, result) := CreateService(State(), svc);
      services, r := d.services, result;
    }

    method CreateNamespacedDeployment(dep: Deployment) returns (r: ApiResult<()>)
      requires Valid()
      modifies this
      ensures Valid()
      ensures (State(), r) == CreateDeployment(old(State()), dep)
    {
      var (d, result) := CreateDeployment(State(), dep);
      deployments, r := d.deployments, result;
    }

    method ReadNamespacedConfigMap(key: ObjectKey) returns (r: ApiResult<ConfigMap>)
      ensures r == ReadConfigMap(State(), key)
      ensures r.Ok? ==> key in configMaps && r.value == configMaps[key]
      ensures r.NotFound? <==> ObjectCall(Read, ConfigMapKind, key) !in faults && key !in configMaps
    {
      r := ReadConfigMap(State(), key);
    }

    method PatchNamespacedConfigMap(key: ObjectKey, data: map<string, string>) returns (r: ApiResult<()>)
      requires Valid()
      modifies this
      ensures Valid()
      ensures (State(), r) == PatchConfigMapData(old(State()), key, data)
    {
      var (d, result) := PatchConfigMapData(State(), key, data);
      configMaps, r := d.configMaps, result;
    }

    method DeleteNamespaced(kind: Kind, key: ObjectKey) returns (r: ApiResult<()>)
      requires Valid()
      modifies this
      ensures Valid()
      ensures (State(), r) == DeleteObject(old(State()), kind, key)
    {
      var (d, result) := DeleteObject(State(), kind, key);
      configMaps, services, deployments, r := d.configMaps, d.services, d.deployments, result;
    }
  }
}
