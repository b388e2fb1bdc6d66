/**
 * The few fields of the Kubernetes objects that the rbd-chaos handler populates.
 * Everything else of the DaemonSet, Service, ConfigMap and PersistentVolumeClaim shapes is left out.
 */
module Kube {
  import opened Base

  /** Where an environment variable's value comes from: a literal, or a field of the running pod. */
  datatype EnvSource = Literal(value: string) | FieldRef(fieldPath: string)

  datatype EnvVar = EnvVar(name: string, source: EnvSource)

  /** A volume mount; an empty `subPath` is Go's zero value (the whole volume). */
  datatype VolumeMount = VolumeMount(name: string, mountPath: string, subPath: string)

  datatype VolumeSource =
    | ClaimSource(claimName: string)
    | HostPathSource(path: string, hostPathType: string)
    | SecretSource(secretName: string)

  datatype Volume = Volume(name: string, source: VolumeSource)

  /** A required node affinity that restricts scheduling to the named nodes. */
  datatype Affinity = RequiredNodes(nodeNames: seq<string>)

  datatype Toleration = Toleration(operator: string)

  datatype HostAlias = HostAlias(ip: string, hostnames: seq<string>)

  /** An HTTP GET readiness probe. */
  datatype Probe = HttpGetProbe(host: string, path: string, port: int)

  datatype ResourceRequirements = ResourceRequirements(limits: map<string, string>, requests: map<string, string>)

  datatype Container = Container(
    name: string,
    image: string,
    imagePullPolicy: string,
    env: seq<EnvVar>,
    args: seq<string>,
    volumeMounts: seq<VolumeMount>,
    readinessProbe: Probe,
    resources: ResourceRequirements)

  datatype PodSpec = PodSpec(
    terminationGracePeriodSeconds: int,
    serviceAccountName: string,
    imagePullSecrets: seq<string>,
    tolerations: seq<Toleration>,
    hostAliases: seq<HostAlias>,
    affinity: Option<Affinity>,
    containers: seq<Container>,
    volumes: seq<Volume>)

  datatype PodTemplate = PodTemplate(name: string, labels: map<string, string>, spec: PodSpec)

  datatype DaemonSet = DaemonSet(
    name: string,
    namespace: string,
    labels: map<string, string>,
    selector: map<string, string>,
    template: PodTemplate)

  datatype ServicePort = ServicePort(name: string, port: int, targetPort: int)

  datatype Service = Service(
    name: string,
    namespace: string,
    labels: map<string, string>,
    ports: seq<ServicePort>,
    selector: map<string, string>)

  datatype ConfigMap = ConfigMap(
    name: string,
    namespace: string,
    labels: map<string, string>,
    data: map<string, string>)

  /** The storage-class parameters a read-write-many claim is created with. */
  datatype PvcParameters = PvcParameters(storageClassName: string)

  /**
   * The inputs of the operator's `createPersistentVolumeClaimRWX`: a claim named `name` in
   * `namespace`, with the given (possibly absent) storage-class parameters and labels.
   */
  datatype Claim = Claim(
    namespace: string,
    name: string,
    parameters: Option<PvcParameters>,
    labels: map<string, string>)

  /** Go's `interface{}` elements of a handler's resource lists. */
  datatype Object =
    | DaemonSetObject(daemonSet: DaemonSet)
    | ServiceObject(service: Service)
    | ConfigMapObject(configMap: ConfigMap)
    | ClaimObject(claim: Claim)
}
