/** The parts of the Rainbond custom resources that the rbd-chaos handler reads. */
module Rainbond {
  import opened Base
  import opened Kube

  /** A region database descriptor. */
  datatype Database = Database(host: string, port: int, username: string, password: string, name: string)

  /** The etcd TLS secret; only its identity matters to the handler. */
  datatype Secret = Secret(name: string)

  /** An external image registry and its credentials. */
  datatype ImageHub = ImageHub(domain: string, namespace: string, username: string, password: string)

  /** A node designated for rbd-chaos. */
  datatype K8sNode = K8sNode(name: string, internalIP: string)

  /** The cluster descriptor: spec fields and the image-pull secret recorded in its status. */
  datatype Cluster = Cluster(
    nodesForChaos: seq<K8sNode>,
    imageHub: Option<ImageHub>,
    imagePullSecretName: string)

  /** The component descriptor: image, resources and the user's override lists. */
  datatype Component = Component(
    namespace: string,
    image: string,
    resources: ResourceRequirements,
    env: seq<EnvVar>,
    volumeMounts: seq<VolumeMount>,
    volumes: seq<Volume>,
    args: seq<string>)
}
