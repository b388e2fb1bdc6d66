# rbd-chaos component handler, modelled in Dafny

This project models the `rbd-chaos` handler of the Rainbond operator
(`pkg/controller/rbdcomponent/handler/chaos.go`). The handler works in two phases:

- **Phase one, `Before`, is imperative.** It resolves the region database descriptor, the
  optional etcd TLS secret and the read-write-many storage-class parameters, and stores them in
  three handler fields: `db`, `etcdSecret` and `pvcParametersRWX`.
- **Phase two builds the desired objects.** It reads only those fields and the cluster and
  component descriptors:
  - a DaemonSet, with its volume mounts, volumes, arguments and environment assembled by
    successive appends and a node-affinity built in a loop;
  - a Service;
  - the maven settings ConfigMap;
  - the two claims to create when absent;
  - the replica count.

Files:

- `base.dfy` (module `Base`): `Option`, `Result`, Go's `int32` and its wrapping conversion, and
  `strings.Join`.
- `kube.dfy` (module `Kube`): the fields of the Kubernetes objects the handler fills in.
- `rainbond.dfy` (module `Rainbond`): the parts of the cluster and component descriptors it reads.
- `chaos.dfy` (module `ChaosHandler`): the handler itself.
  - `Externals` holds the collaborators and constants that chaos.go does not define.
  - Value-level specification functions: `BeforeStep`, the `Injected…` lists, `NodeNames`,
    `AffinityFor` and `DaemonSetOf`.
  - The class `Chaos` holds the mutable fields. Its `Before` and `SetStorageClassNameRWX`
    methods assign them. Its `Deployment` method is proved equal to `DaemonSetOf`.
- `chaos_properties.dfy` (module `ChaosProperties`): properties that span several calls.
  - After any sequence of `Before` and setter calls, the handler holds the most recent setter
    argument. This is proved over the field values (`Run`) and on a handler object driven
    through the calls (`RunCalls`, `FreshHandlerClaims`).
  - The Service selects the DaemonSet's pods.
  - Two `Resources` calls return equal results.

External cluster lookups are not performed. The model takes their outcomes as inputs:

- `getDefaultDBInfo`, `etcdSecret` and `setStorageCassName` become the three `Result` arguments
  of `Chaos.Before`.
- For `setStorageCassName`, a successful outcome carries the parameters that the helper passes
  on to `SetStorageClassNameRWX`. A failed outcome sets nothing.

The collaborators from other files are uninterpreted function-valued fields of `Externals`, and
nothing is assumed about what they compute:

- `mergeEnvs`, `mergeVolumeMounts`, `mergeVolumes` and `mergeArgs`;
- `volumeByEtcd`, `etcdEndpoints`, `etcdSSLArgs` and `RegionDataSource`;
- `hostsAliases`, `imagePullSecrets` and `ImagePullPolicy`;
- the label helpers and `path.Join`.

The constants `GrDataPVC`, `CachePVC`, `ResourceProxyName` and `RegionDatabaseName` are defined
outside chaos.go, so they are `Externals` fields too.

A few facts of the code that the model keeps exactly:

- **Registry variables.** With an image hub, the code appends three environment variables
  (chaos.go:207-220): the domain joined with the namespace, the user and the password. Their
  names are spelled `BUILD_IMAGE_REPOSTORY_…`, as in the code.
- **Storage-class errors.** The database and etcd-secret errors are wrapped with context text
  (chaos.go:62, chaos.go:71). The storage-class error is returned unchanged (chaos.go:75-77), as
  `BeforeError.Message` states.
- **Ordering.** `Resources` returns an ordered list: the DaemonSet, the Service, then the
  ConfigMap (chaos.go:82-88). The model keeps that order.

## Model

| member | source | states |
|---|---|---|
| `Base.Int32` | pkg/controller/rbdcomponent/handler/chaos.go:109 | Go's `int32(n)`: equal to `n` when it fits in 31 bits, and always congruent to `n` modulo 2^32 |
| `Base.Join` | pkg/controller/rbdcomponent/handler/chaos.go:162 | Go's `strings.Join` used for the etcd endpoints: no parts give the empty string, one part gives itself, two parts give the first, the separator and the second |
| `ChaosHandler.BeforeError.Message` | pkg/controller/rbdcomponent/handler/chaos.go:61-77 | database and etcd-secret errors are wrapped with their context text; the storage-class error is passed on as it is |
| `ChaosHandler.WithDefaultName` | pkg/controller/rbdcomponent/handler/chaos.go:64-66 | an empty database name becomes the default name; a non-empty descriptor passes through unchanged |
| `ChaosHandler.BeforeStep` | pkg/controller/rbdcomponent/handler/chaos.go:59-80 | a database lookup error is returned and leaves every field as it was, whatever the later lookups would give; on success the descriptor is stored with its name defaulted; an etcd-secret error is returned after `db` is stored, and leaves the secret and parameters unchanged; a storage-class error leaves the parameters unchanged; the call succeeds exactly when all three lookups succeed, and then the parameters are set |
| `ChaosHandler.Chaos.constructor` | pkg/controller/rbdcomponent/handler/chaos.go:47-57 | the handler keeps the descriptors and the component's labels; `db`, `etcdSecret` and `pvcParametersRWX` start empty |
| `ChaosHandler.Chaos.Before` | pkg/controller/rbdcomponent/handler/chaos.go:59-80 | the new fields and the returned error are exactly what `BeforeStep` gives for the old fields |
| `ChaosHandler.Chaos.After` | pkg/controller/rbdcomponent/handler/chaos.go:90-92 | never returns an error |
| `ChaosHandler.Chaos.SetStorageClassNameRWX` | pkg/controller/rbdcomponent/handler/chaos.go:97-99 | stores its argument in `pvcParametersRWX` and changes no other field |
| `ChaosHandler.Chaos.ResourcesCreateIfNotExists` | pkg/controller/rbdcomponent/handler/chaos.go:101-106 | exactly two claims, the grdata claim and then the cache claim, both in the component's namespace and both carrying the handler's current parameters (absent if none were set) |
| `ChaosHandler.Chaos.Replicas` | pkg/controller/rbdcomponent/handler/chaos.go:108-110 | the number of designated nodes whenever that number fits in an `int32`; zero nodes give zero |
| `ChaosHandler.InjectedVolumeMounts` | pkg/controller/rbdcomponent/handler/chaos.go:113-174 | the four fixed mounts in order; a secret appends exactly one more mount (the one `volumeByEtcd` gives) and leaves the first four unchanged |
| `ChaosHandler.InjectedVolumes` | pkg/controller/rbdcomponent/handler/chaos.go:132-174 | the three fixed volumes in order; a secret appends exactly one more volume and leaves the first three unchanged |
| `ChaosHandler.InjectedArgs` | pkg/controller/rbdcomponent/handler/chaos.go:159-174 | the seven fixed arguments in order; a secret appends the etcd SSL arguments after them and nothing else |
| `ChaosHandler.InjectedEnv` | pkg/controller/rbdcomponent/handler/chaos.go:185-220 | the four fixed variables `POD_IP` (from `status.podIP`), `SOURCE_DIR`, `CACHE_DIR` and `IMAGE_PULL_SECRET` come first, in order; with an image hub exactly the domain, user and password variables follow, in order; without one there are no other entries and no registry variable appears |
| `ChaosHandler.NodeNames` | pkg/controller/rbdcomponent/handler/chaos.go:176-179 | one name per designated node, in list order |
| `ChaosHandler.AffinityFor` | pkg/controller/rbdcomponent/handler/chaos.go:176-183 | there is no affinity exactly when the node list is empty; otherwise it requires exactly the nodes' names, one per node, in list order |
| `ChaosHandler.DaemonSetOf` | pkg/controller/rbdcomponent/handler/chaos.go:112-274 | one container; each of its lists is the merge of the fully injected base list with the component's override list of the same kind; the affinity is the one built from the designated nodes; the grace period is 0; there is one `Exists` toleration; the probe port is 3228; the selector and pod labels are the handler's labels |
| `ChaosHandler.Chaos.Deployment` | pkg/controller/rbdcomponent/handler/chaos.go:112-274 | the appends, the node-name loop and the merge hand-off produce exactly `DaemonSetOf` of the handler's fields |
| `ChaosHandler.Chaos.Service` | pkg/controller/rbdcomponent/handler/chaos.go:276-297 | one port `api` 3228 targeting 3228, selecting the handler's labels, in the component's namespace |
| `ChaosHandler.Chaos.DefaultMavenSetting` | pkg/controller/rbdcomponent/handler/chaos.go:299-373 | ConfigMap `java-maven-aliyun` in the component's namespace, whose data has exactly one key, `mavensetting`, holding the settings document |
| `ChaosHandler.Chaos.Resources` | pkg/controller/rbdcomponent/handler/chaos.go:82-88 | exactly three objects, in the order DaemonSet, Service, maven ConfigMap, built from the current fields |
| `ChaosProperties.Step` | pkg/controller/rbdcomponent/handler/chaos.go:59-99 | a call that invokes the setter leaves its argument in `pvcParametersRWX`; any other call leaves the parameters as they were |
| `ChaosProperties.RunKeepsLastSetterArgument` | pkg/controller/rbdcomponent/handler/chaos.go:97-106 | after any sequence of calls, `pvcParametersRWX` is the most recent setter argument, or its earlier value if the setter was never invoked |
| `ChaosProperties.FreshHandlerHoldsLastSetterArgument` | pkg/controller/rbdcomponent/handler/chaos.go:97-106 | starting from a new handler's fields, `pvcParametersRWX` (the value both claims of `ResourcesCreateIfNotExists` carry) is the most recent setter argument, or absent if the setter was never invoked |
| `ChaosProperties.RunCalls` | pkg/controller/rbdcomponent/handler/chaos.go:59-99 | calling `Before` and `SetStorageClassNameRWX` on a handler object, in order, leaves its fields exactly as `Run` gives them |
| `ChaosProperties.FreshHandlerClaims` | pkg/controller/rbdcomponent/handler/chaos.go:97-106 | on a new handler driven through any calls, both claims of `ResourcesCreateIfNotExists` carry the parameters most recently passed to the setter, or none if it was never invoked |
| `ChaosProperties.ServiceSelectsDaemonSetPods` | pkg/controller/rbdcomponent/handler/chaos.go:228-294 | the Service selects the labels of the DaemonSet's pod template, in the same namespace; its single target port is the port the readiness probe checks |
| `ChaosProperties.ResourcesAreRepeatable` | pkg/controller/rbdcomponent/handler/chaos.go:82-88 | two `Resources` calls on the same handler return equal objects, so nothing accumulates between calls |

## Left out

- `ListPods` (chaos.go:93-95): it queries the API server. It is I/O, so it is not modelled.
- The cluster lookups `getDefaultDBInfo`, `etcdSecret` and `setStorageCassName`: their results
  are inputs of `Chaos.Before`.
  - `setStorageCassName`'s body is not part of this model.
  - Assumption: on success it hands one parameter value to the setter, and on failure it
    sets nothing.
- Aliasing of the database pointer: in Go, defaulting `db.Name` writes through the pointer that
  `getDefaultDBInfo` returned. The model stores a defaulted copy and says nothing about other
  holders of that pointer.
- `getStorageRequest` and the fields `cacheStorageRequest` and `grdataStorageRequest`: they read
  process environment variables, and nothing in chaos.go uses them after construction.
- The `ctx` and `client` fields: they are only used for the lookups above.
- The bodies of the merge functions and of the other helpers defined in other files. They are
  uninterpreted functions in `Externals`.
- The values of `GrDataPVC`, `CachePVC`, `ResourceProxyName` and `RegionDatabaseName`: they are
  defined outside chaos.go and are parameters here.
- The literal maven settings document (chaos.go:300-358): it is static data. It is the opaque
  string `Externals.mavenSettings`.
- The content of the ConfigMap's labels: the label helper is uninterpreted.
- The full `DaemonSet`, `Service` and `PodSpec` shapes: only the fields the handler sets are
  kept.
- The `ComponentHandler`, `StorageClassRWXer` and `Replicaser` interface assertions
  (chaos.go:42-44): they are compile-time facts of Go, with no behaviour.
- `Chaos.Replicas`: it returns Go's `*int32`, which is never nil here. The model returns the
  `int32` value.
- Three helpers from other files are represented by records of their arguments, not by
  uninterpreted functions:
  - `affinityForRequiredNodes(nodeNames)` (chaos.go:182) is `Affinity.RequiredNodes(nodeNames)`;
  - `probeutil.MakeReadinessProbeHTTP("", path, port)` (chaos.go:228) is `Probe.HttpGetProbe`;
  - `createPersistentVolumeClaimRWX(namespace, name, parameters, labels)` (chaos.go:103-104) is
    `Claim`.
  So `AffinityFor`'s promise that the affinity requires exactly the nodes' names is about the
  names handed to `affinityForRequiredNodes`. Nothing is claimed about the Kubernetes object
  that helper builds from them.
- Calling `Deployment` or `Resources` before `Before` has stored `db` is excluded by
  `requires db.Some?`. In Go that call dereferences a nil database pointer at chaos.go:161; the
  model does not describe that panic.
- The cluster's own region-database field is only the argument of the `getDefaultDBInfo` lookup
  (chaos.go:60). The model takes that lookup's result as the input of `Chaos.Before`, so the
  cluster descriptor does not carry the field.
