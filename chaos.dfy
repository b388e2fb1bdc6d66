/**
 * The rbd-chaos component handler (pkg/controller/rbdcomponent/handler/chaos.go).
 *
 * Phase one, `Before`, resolves the database descriptor, the optional etcd secret and the
 * storage-class parameters and stores them in the handler. Phase two builds the desired
 * resources from those fields and the cluster and component descriptors alone.
 */
module ChaosHandler {
  import opened Base
  import opened Kube
  import opened Rainbond

  const CHAOS_NAME: string := "rbd-chaos"
  const SERVICE_ACCOUNT: string := "rainbond-operator"
  const HEALTH_PATH: string := "/v2/builder/health"
  const HEALTH_PORT: int := 3228
  const TOLERATION_OP_EXISTS: string := "Exists"
  const MAVEN_SETTING_NAME: string := "java-maven-aliyun"
  const MAVEN_SETTING_KEY: string := "mavensetting"

  const REGISTRY_DOMAIN: string := "BUILD_IMAGE_REPOSTORY_DOMAIN"
  const REGISTRY_USER: string := "BUILD_IMAGE_REPOSTORY_USER"
  const REGISTRY_PASS: string := "BUILD_IMAGE_REPOSTORY_PASS"

  /** The names of the environment variables that carry the image-hub configuration. */
  function RegistryVariables(): set<string>
  {
    {REGISTRY_DOMAIN, REGISTRY_USER, REGISTRY_PASS}
  }

  /**
   * What the handler uses but chaos.go does not define: constants and helpers of other
   * files of the operator, and the static maven settings document. They are uninterpreted:
   * the model makes no claim about what they compute.
   */
  datatype Externals = Externals(
    grDataPvc: string,
    cachePvc: string,
    resourceProxyName: string,
    regionDatabaseName: string,
    mavenSettings: string,
    labelsForRainbondComponent: Component -> map<string, string>,
    labelsForRainbond: map<string, string> -> map<string, string>,
    regionDataSource: Database -> string,
    etcdEndpoints: Cluster -> seq<string>,
    etcdSslArgs: seq<string>,
    volumeByEtcd: Secret -> (Volume, VolumeMount),
    pathJoin: (string, string) -> string,
    imagePullSecrets: (Component, Cluster) -> seq<string>,
    hostAliases: Cluster -> seq<HostAlias>,
    imagePullPolicy: Component -> string,
    mergeEnvs: (seq<EnvVar>, seq<EnvVar>) -> seq<EnvVar>,
    mergeVolumeMounts: (seq<VolumeMount>, seq<VolumeMount>) -> seq<VolumeMount>,
    mergeVolumes: (seq<Volume>, seq<Volume>) -> seq<Volume>,
    mergeArgs: (seq<string>, seq<string>) -> seq<string>)

  /** Why `Before` failed, with the cause the lookup returned. */
  datatype BeforeError =
    | DbInfoError(cause: string)
    | EtcdSecretError(cause: string)
    | StorageClassError(cause: string)
  {
    /** The error text: the first two are wrapped with context, the third is passed on as it is. */
    function Message(): (m: string)
      ensures DbInfoError? ==> m == "get db info: " + cause
      ensures EtcdSecretError? ==> m == "failed to get etcd secret: " + cause
      ensures StorageClassError? ==> m == cause
    {
      match this
      case DbInfoError(c) => "get db info: " + c
      case EtcdSecretError(c) => "failed to get etcd secret: " + c
      case StorageClassError(c) => c
    }
  }

  /** The handler's mutable fields, as a value. */
  datatype HandlerState = HandlerState(
    db: Option<Database>,
    etcdSecret: Option<Secret>,
    pvcParametersRWX: Option<PvcParameters>)

  /** The fields of a freshly constructed handler: all nil. */
  const INITIAL_STATE: HandlerState := HandlerState(None, None, None)

  /** The database descriptor as `Before` stores it: an empty name becomes the default name. */
  function WithDefaultName(db: Database, defaultName: string): (stored: Database)
    ensures db.name != "" ==> stored == db
    ensures db.name == "" ==> stored == db.(name := defaultName)
  {
    if db.name == "" then db.(name := defaultName) else db
  }

  /**
   * `Before` on the handler state `s`, given the outcomes of the three lookups it makes in
   * order: the database descriptor, the etcd secret and the storage-class parameters (which,
   * on success, are handed to `SetStorageClassNameRWX`). Returns the new state and the error.
   */
  function BeforeStep(
    s: HandlerState,
    defaultDbName: string,
    dbInfo: Result<Database, string>,
    secret: Result<Option<Secret>, string>,
    storageClass: Result<Option<PvcParameters>, string>): (r: (HandlerState, Option<BeforeError>))
    // A failed database lookup is reported and no field is set; the later lookups do not matter.
    ensures dbInfo.Failure? ==> r == (s, Some(DbInfoError(dbInfo.error)))
    // Otherwise the descriptor is stored, an empty name defaulted and a non-empty one kept.
    ensures dbInfo.Success? && dbInfo.value.name != "" ==> r.0.db == Some(dbInfo.value)
    ensures dbInfo.Success? && dbInfo.value.name == "" ==> r.0.db == Some(dbInfo.value.(name := defaultDbName))
    // A failed secret lookup is reported after the descriptor has been stored.
    ensures dbInfo.Success? && secret.Failure? ==>
      r.1 == Some(EtcdSecretError(secret.error)) && r.0.etcdSecret == s.etcdSecret
      && r.0.pvcParametersRWX == s.pvcParametersRWX
    ensures dbInfo.Success? && secret.Success? ==> r.0.etcdSecret == secret.value
    ensures dbInfo.Success? && secret.Success? && storageClass.Failure? ==>
      r.1 == Some(StorageClassError(storageClass.error)) && r.0.pvcParametersRWX == s.pvcParametersRWX
    // It succeeds exactly when all three lookups do, and then the parameters have been set.
    ensures r.1.None? <==> dbInfo.Success? && secret.Success? && storageClass.Success?
    ensures r.1.None? ==> r.0.pvcParametersRWX == storageClass.value
  {
    match dbInfo
    case Failure(e) => (s, Some(DbInfoError(e)))
    case Success(d) =>
      var s1 := s.(db := Some(WithDefaultName(d, defaultDbName)));
      match secret
      case Failure(e) => (s1, Some(EtcdSecretError(e)))
      case Success(sec) =>
        var s2 := s1.(etcdSecret := sec);
        match storageClass
        case Failure(e) => (s2, Some(StorageClassError(e)))
        case Success(p) => (s2.(pvcParametersRWX := p), None)
  }

  // ---- Phase two: the lists `deployment()` assembles ----

  function BaseVolumeMounts(): seq<VolumeMount>
  {
    [ VolumeMount("grdata", "/grdata", ""),
      VolumeMount("dockersock", "/var/run/docker.sock", ""),
      VolumeMount("cache", "/cache", ""),
      VolumeMount("grdata", "/root/.ssh", "services/ssh") ]
  }

  function BaseVolumes(ext: Externals): seq<Volume>
  {
    [ Volume("grdata", ClaimSource(ext.grDataPvc)),
      Volume("dockersock", HostPathSource("/var/run/docker.sock", "Socket")),
      Volume("cache", ClaimSource(ext.cachePvc)) ]
  }

  function BaseArgs(db: Database, cluster: Cluster, component: Component, ext: Externals): seq<string>
  {
    [ "--hostIP=$(POD_IP)",
      ext.regionDataSource(db),
      "--etcd-endpoints=" + Join(ext.etcdEndpoints(cluster), ","),
      "--pvc-grdata-name=" + ext.grDataPvc,
      "--pvc-cache-name=" + ext.cachePvc,
      "--rbd-namespace=" + component.namespace,
      "--rbd-repo=" + ext.resourceProxyName ]
  }

  function BaseEnv(cluster: Cluster): seq<EnvVar>
  {
    [ EnvVar("POD_IP", FieldRef("status.podIP")),
      EnvVar("SOURCE_DIR", Literal("/cache/source")),
      EnvVar("CACHE_DIR", Literal("/cache")),
      EnvVar("IMAGE_PULL_SECRET", Literal(cluster.imagePullSecretName)) ]
  }

  function ImageHubEnv(hub: ImageHub, ext: Externals): seq<EnvVar>
  {
    [ EnvVar(REGISTRY_DOMAIN, Literal(ext.pathJoin(hub.domain, hub.namespace))),
      EnvVar(REGISTRY_USER, Literal(hub.username)),
      EnvVar(REGISTRY_PASS, Literal(hub.password)) ]
  }

  /** The volume mounts handed to the override merge. */
  function InjectedVolumeMounts(etcdSecret: Option<Secret>, ext: Externals): (mounts: seq<VolumeMount>)
    ensures |mounts| == if etcdSecret.Some? then 5 else 4
    ensures mounts[0] == VolumeMount("grdata", "/grdata", "")
    ensures mounts[1] == VolumeMount("dockersock", "/var/run/docker.sock", "")
    ensures mounts[2] == VolumeMount("cache", "/cache", "")
    ensures mounts[3] == VolumeMount("grdata", "/root/.ssh", "services/ssh")
    ensures etcdSecret.Some? ==> mounts[4] == ext.volumeByEtcd(etcdSecret.value).1
  {
    BaseVolumeMounts() + if etcdSecret.Some? then [ext.volumeByEtcd(etcdSecret.value).1] else []
  }

  /** The volumes handed to the override merge. */
  function InjectedVolumes(etcdSecret: Option<Secret>, ext: Externals): (volumes: seq<Volume>)
    ensures |volumes| == if etcdSecret.Some? then 4 else 3
    ensures volumes[0] == Volume("grdata", ClaimSource(ext.grDataPvc))
    ensures volumes[1] == Volume("dockersock", HostPathSource("/var/run/docker.sock", "Socket"))
    ensures volumes[2] == Volume("cache", ClaimSource(ext.cachePvc))
    ensures etcdSecret.Some? ==> volumes[3] == ext.volumeByEtcd(etcdSecret.value).0
  {
    BaseVolumes(ext) + if etcdSecret.Some? then [ext.volumeByEtcd(etcdSecret.value).0] else []
  }

  /** The arguments handed to the override merge. */
  function InjectedArgs(db: Database, etcdSecret: Option<Secret>, cluster: Cluster, component: Component, ext: Externals): (args: seq<string>)
    ensures |args| == 7 + if etcdSecret.Some? then |ext.etcdSslArgs| else 0
    ensures args[0] == "--hostIP=$(POD_IP)" && args[1] == ext.regionDataSource(db)
    ensures args[2] == "--etcd-endpoints=" + Join(ext.etcdEndpoints(cluster), ",")
    ensures args[3] == "--pvc-grdata-name=" + ext.grDataPvc && args[4] == "--pvc-cache-name=" + ext.cachePvc
    ensures args[5] == "--rbd-namespace=" + component.namespace && args[6] == "--rbd-repo=" + ext.resourceProxyName
    ensures etcdSecret.Some? ==> args[7..] == ext.etcdSslArgs
  {
    BaseArgs(db, cluster, component, ext) + if etcdSecret.Some? then ext.etcdSslArgs else []
  }

  /** The environment handed to the override merge. */
  function InjectedEnv(cluster: Cluster, ext: Externals): (env: seq<EnvVar>)
    ensures |env| == if cluster.imageHub.Some? then 7 else 4
    ensures env[0] == EnvVar("POD_IP", FieldRef("status.podIP"))
    ensures env[1] == EnvVar("SOURCE_DIR", Literal("/cache/source"))
    ensures env[2] == EnvVar("CACHE_DIR", Literal("/cache"))
    ensures env[3] == EnvVar("IMAGE_PULL_SECRET", Literal(cluster.imagePullSecretName))
    // Without an image hub no registry variable appears at all.
    ensures cluster.imageHub.None? ==> forall k :: 0 <= k < |env| ==> env[k].name !in RegistryVariables()
    // With one, its three variables follow, in this order.
    ensures cluster.imageHub.Some? ==>
      var hub := cluster.imageHub.value;
      && env[4] == EnvVar(REGISTRY_DOMAIN, Literal(ext.pathJoin(hub.domain, hub.namespace)))
      && env[5] == EnvVar(REGISTRY_USER, Literal(hub.username))
      && env[6] == EnvVar(REGISTRY_PASS, Literal(hub.password))
  {
    BaseEnv(cluster) + match cluster.imageHub case None => [] case Some(hub) => ImageHubEnv(hub, ext)
  }

  /** The names of the designated nodes, one per node, in list order. */
  function NodeNames(nodes: seq<K8sNode>): (names: seq<string>)
    ensures |names| == |nodes|
    ensures forall k :: 0 <= k < |nodes| ==> names[k] == nodes[k].name
  {
    if nodes == [] then [] else NodeNames(nodes[..|nodes| - 1]) + [nodes[|nodes| - 1].name]
  }

  /** The node affinity: none for an empty node list, else the required names of the nodes. */
  function AffinityFor(nodes: seq<K8sNode>): (affinity: Option<Affinity>)
    ensures affinity.None? <==> nodes == []
    ensures affinity.Some? ==>
      |affinity.value.nodeNames| == |nodes|
      && forall k :: 0 <= k < |nodes| ==> affinity.value.nodeNames[k] == nodes[k].name
  {
    var names := NodeNames(nodes);
    if |names| > 0 then Some(RequiredNodes(names)) else None
  }

  const READINESS_PROBE: Probe := HttpGetProbe("", HEALTH_PATH, HEALTH_PORT)

  /**
   * The DaemonSet `deployment()` builds: one container whose lists are the component's
   * overrides merged into the fully injected base lists, the node affinity, and fixed settings.
   */
  function DaemonSetOf(
    component: Component, cluster: Cluster, labels: map<string, string>, ext: Externals,
    db: Database, etcdSecret: Option<Secret>): (ds: DaemonSet)
    ensures ds.name == CHAOS_NAME && ds.namespace == component.namespace
    ensures ds.selector == labels && ds.template.labels == labels
    ensures |ds.template.spec.containers| == 1
    ensures var c := ds.template.spec.containers[0];
      && c.env == ext.mergeEnvs(InjectedEnv(cluster, ext), component.env)
      && c.volumeMounts == ext.mergeVolumeMounts(InjectedVolumeMounts(etcdSecret, ext), component.volumeMounts)
      && c.args == ext.mergeArgs(InjectedArgs(db, etcdSecret, cluster, component, ext), component.args)
      && c.readinessProbe.port == HEALTH_PORT && c.image == component.image
    ensures ds.template.spec.volumes == ext.mergeVolumes(InjectedVolumes(etcdSecret, ext), component.volumes)
    ensures ds.template.spec.affinity == AffinityFor(cluster.nodesForChaos)
    ensures ds.template.spec.terminationGracePeriodSeconds == 0
    ensures ds.template.spec.tolerations == [Toleration(TOLERATION_OP_EXISTS)]
  {
    var container := Container(
      CHAOS_NAME, component.image, ext.imagePullPolicy(component),
      ext.mergeEnvs(InjectedEnv(cluster, ext), component.env),
      ext.mergeArgs(InjectedArgs(db, etcdSecret, cluster, component, ext), component.args),
      ext.mergeVolumeMounts(InjectedVolumeMounts(etcdSecret, ext), component.volumeMounts),
      READINESS_PROBE, component.resources);
    var podSpec := PodSpec(
      0, SERVICE_ACCOUNT, ext.imagePullSecrets(component, cluster),
      [Toleration(TOLERATION_OP_EXISTS)], ext.hostAliases(cluster),
      AffinityFor(cluster.nodesForChaos), [container],
      ext.mergeVolumes(InjectedVolumes(etcdSecret, ext), component.volumes));
    DaemonSet(CHAOS_NAME, component.namespace, labels, labels, PodTemplate(CHAOS_NAME, labels, podSpec))
  }

  /** The rbd-chaos handler. */
  class Chaos {
    const component: Component
    const cluster: Cluster
    const labels: map<string, string>
    const ext: Externals
    var db: Option<Database>
    var etcdSecret: Option<Secret>
    var pvcParametersRWX: Option<PvcParameters>

    /** The handler's mutable fields as a value. */
    function State(): HandlerState
      reads this
    {
      HandlerState(db, etcdSecret, pvcParametersRWX)
    }

    /** `NewChaos`: the descriptors and the component's labels; no field resolved yet. */
    constructor (component: Component, cluster: Cluster, ext: Externals)
      ensures this.component == component && this.cluster == cluster && this.ext == ext
      ensures labels == ext.labelsForRainbondComponent(component)
      ensures State() == INITIAL_STATE
    {
      this.component := component;
      this.cluster := cluster;
      this.ext := ext;
      this.labels := ext.labelsForRainbondComponent(component);
      db, etcdSecret, pvcParametersRWX := None, None, None;
    }

    /** Phase one, given the outcomes of the database, etcd-secret and storage-class lookups. */
    method Before(
      dbInfo: Result<Database, string>,
      secret: Result<Option<Secret>, string>,
      storageClass: Result<Option<PvcParameters>, string>) returns (err: Option<BeforeError>)
      modifies this
      ensures (State(), err) == BeforeStep(old(State()), ext.regionDatabaseName, dbInfo, secret, storageClass)
    {
      if dbInfo.Failure? {
        return Some(DbInfoError(dbInfo.error));
      }
      var resolved := dbInfo.value;
      if resolved.name == "" {
        resolved := resolved.(name := ext.regionDatabaseName);
      }
      db := Some(resolved);

      if secret.Failure? {
        return Some(EtcdSecretError(secret.error));
      }
      etcdSecret := secret.value;

      if storageClass.Failure? {
        return Some(StorageClassError(storageClass.error));
      }
      SetStorageClassNameRWX(storageClass.value);
      return None;
    }

    /** The post-apply hook: nothing to do, never fails. */
    method After() returns (err: Option<string>)
      ensures err == None
    {
      return None;
    }

    /** Stores the storage-class parameters; nothing else changes. */
    method SetStorageClassNameRWX(parameters: Option<PvcParameters>)
      modifies this
      ensures State() == old(State()).(pvcParametersRWX := parameters)
    {
      pvcParametersRWX := parameters;
    }

    /** The claims to create when absent: the grdata claim, then the cache claim. */
    function ResourcesCreateIfNotExists(): (claims: seq<Object>)
      reads this
      ensures |claims| == 2
      ensures claims[0] == ClaimObject(Claim(component.namespace, ext.grDataPvc, pvcParametersRWX, labels))
      ensures claims[1] == ClaimObject(Claim(component.namespace, ext.cachePvc, pvcParametersRWX, labels))
    {
      [ ClaimObject(Claim(component.namespace, ext.grDataPvc, pvcParametersRWX, labels)),
        ClaimObject(Claim(component.namespace, ext.cachePvc, pvcParametersRWX, labels)) ]
    }

    /** One replica per designated node, as a Go int32. */
    function Replicas(): (r: int32)
      ensures |cluster.nodesForChaos| <= MAX_INT32 ==> r as int == |cluster.nodesForChaos|
      ensures cluster.nodesForChaos == [] ==> r == 0
    {
      Int32(|cluster.nodesForChaos|)
    }

    /** `service()`: port "api" 3228 of the pods that carry the handler's labels. */
    function Service(): (svc: Kube.Service)
      ensures svc.name == CHAOS_NAME && svc.namespace == component.namespace && svc.labels == labels
      ensures svc.ports == [ServicePort("api", HEALTH_PORT, HEALTH_PORT)]
      ensures svc.selector == labels
    {
      Kube.Service(CHAOS_NAME, component.namespace, labels, [ServicePort("api", HEALTH_PORT, HEALTH_PORT)], labels)
    }

    /** `defaultMavenSetting()`: the maven settings document under a single key. */
    function DefaultMavenSetting(): (cm: ConfigMap)
      ensures cm.name == MAVEN_SETTING_NAME && cm.namespace == component.namespace
      ensures cm.data.Keys == {MAVEN_SETTING_KEY} && cm.data[MAVEN_SETTING_KEY] == ext.mavenSettings
    {
      ConfigMap(
        MAVEN_SETTING_NAME, component.namespace,
        ext.labelsForRainbond(map["configtype" := "mavensetting", "default" := "true"]),
        map[MAVEN_SETTING_KEY := ext.mavenSettings])
    }

    /**
     * `deployment()`: builds the lists by successive appends, collects the node names in a
     * loop, and hands the injected lists to the override merge. Needs `Before` to have stored
     * the database descriptor (the source dereferences it).
     */
    method Deployment() returns (ds: DaemonSet)
      requires db.Some?
      ensures ds == DaemonSetOf(component, cluster, labels, ext, db.value, etcdSecret)
    {
      var volumeMounts := BaseVolumeMounts();
      var volumes := BaseVolumes(ext);
      var args := BaseArgs(db.value, cluster, component, ext);

      if etcdSecret.Some? {
        var (volume, mount) := ext.volumeByEtcd(etcdSecret.value);
        volumeMounts := volumeMounts + [mount];
        volumes := volumes + [volume];
        args := args + ext.etcdSslArgs;
      }

      var nodes := cluster.nodesForChaos;
      var nodeNames: seq<string> := [];
      for i := 0 to |nodes|
        invariant nodeNames == NodeNames(nodes[..i])
      {
        assert nodes[..i + 1][..i] == nodes[..i];
        nodeNames := nodeNames + [nodes[i].name];
      }
      assert nodes[..|nodes|] == nodes;
      var affinity: Option<Affinity> := None;
      if |nodeNames| > 0 {
        affinity := Some(RequiredNodes(nodeNames));
      }

      var env := BaseEnv(cluster);
      if cluster.imageHub.Some? {
        var hub := cluster.imageHub.value;
        env := env + [EnvVar(REGISTRY_DOMAIN, Literal(ext.pathJoin(hub.domain, hub.namespace)))];
        env := env + [EnvVar(REGISTRY_USER, Literal(hub.username))];
        env := env + [EnvVar(REGISTRY_PASS, Literal(hub.password))];
      }

      assert env == InjectedEnv(cluster, ext);
      assert volumeMounts == InjectedVolumeMounts(etcdSecret, ext);
      assert volumes == InjectedVolumes(etcdSecret, ext);
      assert args == InjectedArgs(db.value, etcdSecret, cluster, component, ext);
      assert affinity == AffinityFor(nodes);
      env := ext.mergeEnvs(env, component.env);
      volumeMounts := ext.mergeVolumeMounts(volumeMounts, component.volumeMounts);
      volumes := ext.mergeVolumes(volumes, component.volumes);
      args := ext.mergeArgs(args, component.args);

      var container := Container(
        CHAOS_NAME, component.image, ext.imagePullPolicy(component),
        env, args, volumeMounts, READINESS_PROBE, component.resources);
      var podSpec := PodSpec(
        0, SERVICE_ACCOUNT, ext.imagePullSecrets(component, cluster),
        [Toleration(TOLERATION_OP_EXISTS)], ext.hostAliases(cluster),
        affinity, [container], volumes);
      ds := DaemonSet(CHAOS_NAME, component.namespace, labels, labels, PodTemplate(CHAOS_NAME, labels, podSpec));
    }

    /** The steady-state objects: the DaemonSet, the Service and the maven ConfigMap, in this order. */
    method Resources() returns (objects: seq<Object>)
      requires db.Some?
      ensures |objects| == 3
      ensures objects[0] == DaemonSetObject(DaemonSetOf(component, cluster, labels, ext, db.value, etcdSecret))
      ensures objects[1] == ServiceObject(Service())
      ensures objects[2] == ConfigMapObject(DefaultMavenSetting())
    {
      var ds := Deployment();
      objects := [DaemonSetObject(ds), ServiceObject(Service()), ConfigMapObject(DefaultMavenSetting())];
    }
  }
}
