// The Kubernetes objects the service reads from YAML and sends to the
// cluster, reduced to the parts the service looks at or changes.

module Kube {

  /** The object kinds the client dispatches on; every other kind is `OtherKind`. */
  datatype Kind =
    | PersistentVolumeClaim | PersistentVolume | ConfigMap | Namespace | ServiceAccount
    | ClusterRole | ClusterRoleBinding | Deployment | CronJob | Pod | Job
    | OtherKind(kindName: string)

  datatype VolumeMount = VolumeMount(name: string, mountPath: string, readOnly: bool)

  /** A pod volume; `source` stands for everything but its name. */
  datatype Volume = Volume(name: string, source: string)

  datatype Container = Container(name: string, image: string, args: seq<string>, volumeMounts: seq<VolumeMount>)

  /**
   * An object: its kind, metadata name and namespace ("" when unset), the
   * metadata annotations, the pod-template annotations, whether the pod
   * template carries an annotation dictionary at all (it is null on the
   * client otherwise), and the pod template's containers and volumes
   * (empty for kinds without one).
   */
  datatype KubeObject = KubeObject(
    kind: Kind,
    name: string,
    nameSpace: string,
    annotations: map<string, string>,
    templateAnnotations: map<string, string>,
    templateAnnotated: bool,
    containers: seq<Container>,
    volumes: seq<Volume>)
}
