/** The cluster resources the controller reads and writes, reduced to the fields it uses. */
module Kube {
  import opened Common

  /** The field map of an opaque secret: field name to base64 text. */
  type Data = map<string, string>

  /** A secret is addressed by namespace and name. */
  datatype SecretRef = SecretRef(namespace: string, name: string)

  const DefaultNamespace := "default"

  /** The namespace an API handle is scoped to: the given one, or `"default"`. */
  function NamespaceOrDefault(namespace: Option<string>): string {
    namespace.GetOr(DefaultNamespace)
  }

  datatype Container = Container(name: string, image: Option<string>)

  datatype PodSpec = PodSpec(containers: seq<Container>)

  /** A deployment: metadata and the optional pod spec of its template. */
  datatype Deployment = Deployment(
    name: string,
    namespace: Option<string>,
    annotations: map<string, string>,
    podSpec: Option<PodSpec>)

  /** What the deployment informer delivers. */
  datatype WatchEvent =
    | Added(deployment: Deployment)
    | Modified(deployment: Deployment)
    | Deleted(deployment: Deployment)
    | WatchError

  /** A pod volume backed by a secret. */
  datatype Volume = Volume(name: string, secretName: string)

  datatype VolumeMount = VolumeMount(name: string, mountPath: string)

  /** One entry of the `containers` array in a deployment patch. */
  datatype ContainerPatch = ContainerPatch(name: string, image: Option<string>, volumeMounts: seq<VolumeMount>)

  /** The `spec.template.spec` part of a deployment patch. */
  datatype DeploymentPatch = DeploymentPatch(containers: seq<ContainerPatch>, volumes: seq<Volume>)

  /** A patch addressed to one deployment. */
  datatype PatchRequest = PatchRequest(namespace: string, name: string, patch: DeploymentPatch)
}
