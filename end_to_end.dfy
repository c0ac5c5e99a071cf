/**
 * How the operator and the server fit together: the deployment hands the
 * server the variables it reads, and an entry the operator writes into a
 * ConfigServer's config map is answered under its key as the server writes
 * that value.
 */
module EndToEnd {
  import opened Wrappers
  import opened Json
  import opened Kube
  import Operator
  import Server

  /** A config map volume as the server sees it: one file per key, holding that key's data. */
  function Mount(data: map<string, string>): (dir: Server.Directory)
    ensures dir.Keys == data.Keys
  {
    map key | key in data :: Server.File(data[key])
  }

  /** The deployment sets the very variables the server reads. */
  lemma EnvironmentNamesMatch()
    ensures Operator.DirVariable == Server.DirVariable
    ensures Operator.PortVariable == Server.PortVariable
  {
  }

  /**
   * After the upsert handler has written a pair into an existing config map,
   * a server on that map answers the pair's key as `Write` renders the
   * pair's value: the escaped encoding of an object, the text of a string,
   * status 500 for any other value.
   */
  lemma ServesUpsertedValue(c: Cluster, namespace: string, kv: KeyValuePairSpec)
    requires Server.ValidKey(kv.key) && !Server.IsDotName(kv.key)
    requires Operator.ValuesKey(kv.config, namespace) in c.configMaps
    requires ObjectCall(Read, ConfigMapKind, Operator.ValuesKey(kv.config, namespace)) !in c.faults
    requires ObjectCall(Patch, ConfigMapKind, Operator.ValuesKey(kv.config, namespace)) !in c.faults
    ensures var d := Operator.UpsertOn(c, namespace, kv).0;
            && Operator.ValuesData(d, kv.config, namespace).Some?
            && Server.Serve(Mount(Operator.ValuesData(d, kv.config, namespace).value), Server.RoutePrefix + kv.key)
               == Server.Write(kv.value)
  {
    Operator.UpsertEffect(c, namespace, kv);
    var data := Operator.ValuesData(Operator.UpsertOn(c, namespace, kv).0, kv.config, namespace).value;
    Server.ServeStored(Mount(data), kv.key, kv.value);
  }

  /**
   * A pair whose value is neither an object nor a string is stored by the
   * upsert handler but never served: writing it fails with status 500.
   */
  lemma UpsertedValueRefused(c: Cluster, namespace: string, kv: KeyValuePairSpec)
    requires Server.ValidKey(kv.key) && !Server.IsDotName(kv.key)
    requires !kv.value.Object? && !kv.value.String?
    requires Operator.ValuesKey(kv.config, namespace) in c.configMaps
    requires ObjectCall(Read, ConfigMapKind, Operator.ValuesKey(kv.config, namespace)) !in c.faults
    requires ObjectCall(Patch, ConfigMapKind, Operator.ValuesKey(kv.config, namespace)) !in c.faults
    ensures var d := Operator.UpsertOn(c, namespace, kv).0;
            && Operator.ValuesData(d, kv.config, namespace).Some?
            && kv.key in Operator.ValuesData(d, kv.config, namespace).value
            && Server.Serve(Mount(Operator.ValuesData(d, kv.config, namespace).value), Server.RoutePrefix + kv.key)
               == Server.Failure(500, "Internal Server Error")
  {
    ServesUpsertedValue(c, namespace, kv);
  }

  /**
   * After the create handler has seeded a new config map, a server on that
   * map answers each key as `Write` renders the value of the last pair
   * declaring it.
   */
  lemma ServesSeededValue(c: Cluster, meta: Operator.Metadata, spec: Operator.ServerSpec, i: nat)
    requires ListKeyValuePairsCall(meta.namespace) !in c.faults
    requires ObjectCall(Create, ConfigMapKind, Operator.ValuesKey(meta.name, meta.namespace)) !in c.faults
    requires ObjectCall(Create, ServiceKind, Operator.ServerKey(meta)) !in c.faults
    requires ObjectCall(Create, DeploymentKind, Operator.ServerKey(meta)) !in c.faults
    requires Operator.ValuesKey(meta.name, meta.namespace) !in c.configMaps
    requires Operator.ServerKey(meta) !in c.services && Operator.ServerKey(meta) !in c.deployments
    requires var items := ListKeyValuePairs(c, meta.namespace).value;
             && i < |items| && items[i].config == meta.name
             && Server.ValidKey(items[i].key) && !Server.IsDotName(items[i].key)
             && forall j | i < j < |items| :: items[j].config == meta.name ==> items[j].key != items[i].key
    ensures var items := ListKeyValuePairs(c, meta.namespace).value;
            var d := Operator.CreateServerOn(c, meta, spec).0;
            && Operator.ValuesData(d, meta.name, meta.namespace).Some?
            && Server.Serve(Mount(Operator.ValuesData(d, meta.name, meta.namespace).value), Server.RoutePrefix + items[i].key)
               == Server.Write(items[i].value)
  {
    var items := ListKeyValuePairs(c, meta.namespace).value;
    Operator.CreateServerSucceeds(c, meta, spec);
    Operator.SeedLastWins(items, meta.name, i);
    Server.ServeStored(Mount(Operator.Seed(items, meta.name)), items[i].key, items[i].value);
  }
}
