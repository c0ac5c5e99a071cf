# Config-server operator and key server, in Dafny

This project models the config-server operator and the key lookup server it deploys.

A **ConfigServer** resource gets three objects in its namespace:
- the config map `<name>-values`;
- a ClusterIP service `<name>`;
- a one-replica deployment `<name>`, which mounts the config map and runs the server.

A **KeyValuePair** resource (`config`, `key`, `value`) names a ConfigServer. Its value is written, JSON-encoded, into that ConfigServer's config map under its key:
- when the ConfigServer is created, from the list of existing pairs;
- when the pair is created or updated, by a patch of the map.

Deleting a pair removes its key from the map. Deleting a ConfigServer deletes the deployment, the service and the config map, in that order. Objects that are already gone are passed over.

The server answers `GET /key/<key>` by parsing the file `<key>` of the mounted directory as JSON and writing the value. An object is written as its encoding with `</` escaped, and a string as its raw text. Any other value (a number, a boolean, null or an array) is refused by the web framework with status 500.

Modules:
- `Json` models the JSON text format as `json.dumps` writes it and `json.loads` reads it: default separators and ASCII-only escaping. The main result is the round trip `Parse(Enc(v)) == Some(v)`.
- `Kube` models the part of the Kubernetes API the operator uses:
  - a `Cluster` value;
  - one function per API call;
  - the class `ClusterStore`, whose methods perform those calls on its fields.

  Calls that fail with an error other than 404 are part of the state: the table `faults` maps a call to the reason the API gives.
- `Operator` models the four handlers of `opr/operator.py` and the config-map lookup. Each handler is:
  - a method on a `ClusterStore`, with a loop where the source has one;
  - proved equal to a function on `Cluster` values (`CreateServerOn`, `DeleteCascade`, `UpsertOn`, `DeleteKeyOn`), about which the lemmas are stated.
- `Server` models routing and the GET handler of `srv/server.py`. The mounted directory is a parameter: a map from file name to entry.
- `EndToEnd` connects the two programs. An entry the operator writes into a config map is answered under its key as the server writes that value: the escaped JSON for an object, the raw text for a string, and status 500 for any other value.

The config volume's `defaultMode` is written as the decimal number 444, that is octal 0674. It is modelled as that number and not as read-only permissions.

## Model

| member | source | states |
|---|---|---|
| Json.RoundTrip | srv/server.py:32-33 | Every value the operator encodes with `json.dumps` is read back by `json.load` as the same value. |
| Json.EncInjective | opr/operator.py:25 | Two values with the same encoding are equal, so an entry of the config map determines its value. |
| Kube.StoredData | tests/operator_tests/test_config_server.py:95 | The API stores a config map whose data is empty without data; otherwise the data is kept unchanged. |
| Kube.PatchTwice | opr/operator.py:152 | A second data patch of the same config map overrides the first. |
| Kube.PatchUnchanged | opr/operator.py:152 | Patching a config map with the data it already holds leaves the cluster unchanged. |
| Kube.ClusterStore.ListNamespacedKeyValuePairs | opr/operator.py:21 | Lists a namespace's KeyValuePairs in list order; it succeeds exactly when the call is not faulted. |
| Kube.ClusterStore.CreateNamespacedConfigMap | opr/operator.py:31 | Creates the config map, or fails with the fault or with AlreadyExists and changes nothing. |
| Kube.ClusterStore.CreateNamespacedService | opr/operator.py:42 | Creates the service, or fails with the fault or with AlreadyExists and changes nothing. |
| Kube.ClusterStore.CreateNamespacedDeployment | opr/operator.py:98 | Creates the deployment, or fails with the fault or with AlreadyExists and changes nothing. |
| Kube.ClusterStore.ReadNamespacedConfigMap | opr/operator.py:128 | Returns the stored config map. It answers 404 exactly when the call is not faulted and the map is absent. |
| Kube.ClusterStore.PatchNamespacedConfigMap | opr/operator.py:152 | Replaces the map's data, or answers 404 or the fault and changes nothing. |
| Kube.ClusterStore.DeleteNamespaced | opr/operator.py:110-112 | Removes the object, or answers 404 or the fault and changes nothing. |
| Operator.CreateServer | opr/operator.py:10-98 | The create handler's new cluster and result are those of `CreateServerOn`: list the pairs, seed the data in a loop, then create the three objects, stopping at the first exception. |
| Operator.SeedKeys | opr/operator.py:20-25 | A key is seeded if and only if some listed pair for this ConfigServer declares it. |
| Operator.SeedLastWins | opr/operator.py:23-25 | A seeded key holds the encoded value of the last pair for this ConfigServer that declares it. |
| Operator.SeedInsert | opr/operator.py:20-25 | Inserting a pair anywhere in the list adds exactly its own entry when no later pair overrides its key. A pair for another ConfigServer changes nothing. |
| Operator.ManifestsWired | opr/operator.py:28-98 | The three manifests agree on names, labels and selector, one replica, ports, the mounted config map, and the mount path and port passed in the environment. The port variable parses back to the port. `defaultMode` is 444. |
| Operator.CreateServerFrame | opr/operator.py:28-98 | The create handler changes nothing but the ConfigServer's config map, service and deployment. An existing config map is left as it was. |
| Operator.CreateServerOrder | opr/operator.py:31-98 | The deployment is created only after the service, and the service only after the config map. The handler ends normally exactly when it created the deployment; otherwise it ends with an API exception. |
| Operator.CreateServerSucceeds | opr/operator.py:10-98 | Without faults and with none of the objects present, the handler adds the three wired objects and ends normally. The config map holds the seeded data. |
| Operator.DeleteServer | opr/operator.py:101-121 | The delete handler's new cluster and result are those of `DeleteCascade` over deployment, service and config map. |
| Operator.CascadeSucceeds | opr/operator.py:114-119 | When no deletion fails other than with 404, every target is removed and the handler ends normally. |
| Operator.CascadeStops | opr/operator.py:117-121 | The first deletion failing other than with 404 ends the handler with a permanent error carrying its reason. The targets before it are removed; the later ones are left. |
| Operator.CascadeDoneMeetsNoFault | opr/operator.py:114-121 | A cascade that ends normally met no failure other than 404. |
| Operator.RemoveAllEffect | opr/operator.py:114-119 | Removing the targets removes exactly the targets' keys, kind by kind, and keeps everything else. |
| Operator.DeleteServerOutcome | opr/operator.py:101-121 | Without faults the three objects are gone and nothing else changed. A fault on the deployment changes nothing. A fault on the service removes only the deployment. Each fault gives a permanent error with the API's reason. |
| Operator.DeleteServerClean | opr/operator.py:114-119 | Without faults the delete handler removes exactly the deployment, the service and the config map of the ConfigServer and ends normally. |
| Operator.DeleteServerFaulted | opr/operator.py:117-121 | A fault on the k-th delete call leaves the cluster with only the earlier objects removed, and the handler ends with a permanent error naming the ConfigServer and the reason. |
| Operator.DeleteAbsentServer | opr/operator.py:118-119 | Deleting a ConfigServer whose objects are all gone succeeds and changes nothing. |
| Operator.DeleteServerIdempotent | opr/operator.py:114-119 | After a successful delete, running the handler again succeeds and changes nothing. |
| Operator.GetConfigMap | opr/operator.py:124-138 | The lookup finds the map's data, with no data read as empty. It reports the map missing exactly on 404. It fails with the "Failed to load config values" message exactly when the read is faulted. |
| Operator.CreateConfig | opr/operator.py:141-152 | The upsert handler's new cluster and result are those of `UpsertOn`. |
| Operator.DeleteConfig | opr/operator.py:155-163 | The key delete handler's new cluster and result are those of `DeleteKeyOn`. |
| Operator.PatchEffect | opr/operator.py:152 | A data patch changes only that config map's data. It succeeds exactly when it is not faulted and the map exists. On failure nothing changes. |
| Operator.LookupEffect | opr/operator.py:128-138 | The lookup result in terms of the cluster: found if and only if readable and present, missing if and only if readable and absent, failed if and only if faulted. |
| Operator.UpsertEffect | opr/operator.py:141-152 | With the config map present, its data becomes the old data with the key mapped to the encoded value, and nothing else changes. A missing map is a no-op that ends normally. A failed read is a permanent error. |
| Operator.UpsertIdempotent | opr/operator.py:141-152 | Repeating an upsert changes nothing more and ends the same way. |
| Operator.UpsertOverwrites | opr/operator.py:151-152 | Of two upserts of the same key, the later one decides the cluster and the result. |
| Operator.DeleteKeyEffect | opr/operator.py:155-163 | With the config map present, its data becomes the old data without the key, and nothing else changes. A missing map is a no-op that ends normally. A failed read is a permanent error. |
| Operator.DeleteAbsentKey | opr/operator.py:161-163 | Deleting a key the map does not hold (or a pair whose map is missing) leaves the cluster as it was. |
| Operator.DeleteUndoesUpsert | opr/operator.py:155-163 | Deleting a key that an upsert has just added restores the cluster. |
| Operator.SeedAfterAdd | opr/operator.py:20-25 | Adding a pair for a ConfigServer, when no pair listed after it declares the same key, adds exactly its entry to the data the create handler seeds. |
| Operator.DeclaredBefore | tests/operator_tests/test_key_value.py:34-100 | A pair declared before its ConfigServer is passed over by the upsert handler, which finds no config map, and is then seeded by the create handler into the new config map. Only pairs listed after it must not declare the same key. |
| Operator.DeclaredAfter | tests/operator_tests/test_key_value.py:103-171 | A pair declared after its ConfigServer is added by the upsert handler. |
| Operator.UpsertIntoServer | opr/operator.py:150-152 | Upserting into a freshly created ConfigServer adds the pair's entry to the seeded data. |
| Operator.OrderIndependent | tests/operator_tests/test_key_value.py:34-171 | Declared before its ConfigServer, a pair meets the upsert handler (a no-op) and then the create handler; declared after it, the create handler and then the upsert handler. All handlers end normally, both orders end in the same cluster, and the map's entry for the key decodes to the pair's value. |
| Server.Route | srv/server.py:44 | A routed key consists of key characters only and contains no `/`. |
| Server.RouteMatches | srv/server.py:44 | A path is routed with `key` if and only if the key is valid and the path is `/key/<key>` or `/key/<key>/`. |
| Server.EscapeRemovesCloseTags | srv/server.py:34 | The JSON written for an object holds no `</`. |
| Server.EscapeWithoutCloseTag | srv/server.py:34 | Text without `</` is written unchanged. |
| Server.GetOutcomes | srv/server.py:29-38 | The handler answers 404 exactly when the key has no entry, and 400 exactly when the file is not JSON. It answers 200 exactly for a file holding an object or a string. Every status is 200, 400, 404 or 500. |
| Server.GetReadsOneEntry | srv/server.py:31-33 | The response depends on the directory only through the entry named by the key. |
| Server.ServeStored | srv/server.py:29-34 | A file holding the encoding of a value is served, with or without the trailing `/`, as that value is written. |
| Server.ServeStoredObject | srv/server.py:34 | An object is served as its encoding with `</` escaped, and without `</` in it as the encoding itself. |
| Server.ServeUnrouted | tests/server_tests/test_key_handler.py:22-24 | `/` and `/key/` are answered 404. |
| Server.ServeMissing | tests/server_tests/test_key_handler.py:26-28 | A key without a file is answered 404. |
| Server.ServeWordObject | tests/server_tests/test_key_handler.py:31-37 | A file holding `{"foo": "bar"}` (any one-member object of lower-case words) is served as that very text with status 200. |
| Server.ServeNotJson | tests/server_tests/test_key_handler.py:41-46 | A file holding `something: not json` is answered 400. |
| EndToEnd.EnvironmentNamesMatch | opr/operator.py:78-81 | A cross-check of two literals: the variable names the deployment sets are the ones the server reads at srv/server.py lines 18 and 22. |
| EndToEnd.ServesUpsertedValue | opr/operator.py:150-152 | After an upsert into an existing config map, a server on that map answers the pair's key with `Write` of the pair's value: the escaped JSON for an object, the raw text for a string, 500 for any other value. |
| EndToEnd.UpsertedValueRefused | srv/server.py:34 | A pair whose value is a number, boolean, null or array is stored in the config map by the upsert handler, but the server answers its key with status 500. |
| EndToEnd.ServesSeededValue | opr/operator.py:20-31 | After the create handler, a server on the new map answers each seeded key with `Write` of the value of the last pair declaring it: the escaped JSON for an object, the raw text for a string, 500 for any other value. |

## Left out

- Floating-point JSON numbers (and NaN, Infinity) are not modelled. JSON values here are null, booleans, integers, strings, arrays and objects.
- Json.ParseEscape refuses a `\u` escape of a lone surrogate, which `json.loads` accepts: a Dafny `char` is a Unicode scalar value, so such strings cannot be represented.
- Json.Parse reads an object with repeated keys member by member, where `json.loads` keeps the last occurrence. `json.dumps` never writes repeated keys, because a Python dict has none. The model's `Json` admits objects with repeated keys, which stand for no Python value, and `Enc` writes them as given.
- Json.Parse accepts the subset of JSON that `Enc` writes plus whitespace, `true`, `false`, `null`, integers and all escapes. It does not cover exponents and fractions, so a file holding a float is answered 400 here.
- Server.IsKeyChar: the route's `\w` is limited to ASCII letters, digits and `_`. Python also accepts non-ASCII word characters.
- Kube.PatchConfigMapData replaces the data of the config map. The API's strategic merge patch would keep keys absent from the body. The handlers always send the whole data map, so only a key deleted by `delete_config_fn` differs.
- Concurrency, watch events, resource versions and conflicts between handlers running at the same time are not modelled.
- The kopf framework's retries after an `ApiException` are not modelled: a handler ends with that result.
- Building API clients from the in-cluster or kube configuration is not modelled. It is I/O outside the handlers' logic.
- Logging, including the warning for a missing config map, is not modelled.
- `get_parser`, `init_logs`, `start` and `main` of the server are not modelled: argument parsing, logging and the event loop.
- The server's directory is a parameter, not a file system. File permissions, symbolic links and nested paths are not modelled.
- UTF-8 decoding errors when reading a file are not modelled.
- The body of tornado's error pages and the content type of responses are not modelled. A response is its status and body or reason.
- operator/operator.py and server/server.py are earlier versions of the two core files. They are not part of this model.
- The pytest fixtures, the kopf runner and the HTTP client of the test suite are not part of this model. Their assertions appear as lemmas.
