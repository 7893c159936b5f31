/**
 * The deployment patch that mounts the private and the public secret into every container.
 * Building it is pure; sending it is one request, made by the controller.
 */
module Mounter {
  import opened Common
  import opened Kube
  import opened Settings

  /** `make_patch`: one volume per secret, each named after the secret it is backed by. */
  function MakePatch(deployment: Deployment, settings: Settings, secretName: string -> string): (volumes: seq<Volume>)
    ensures |volumes| == 2
    ensures forall v :: v in volumes ==> v.name == v.secretName
    ensures volumes[0].secretName == secretName(deployment.name)
    ensures volumes[1].secretName == settings.secrets.publicName
  {
    var privateName := secretName(deployment.name);
    var publicName := settings.secrets.publicName;
    [Volume(privateName, privateName), Volume(publicName, publicName)]
  }

  /** The two mounts every container gets: the private secret, then the public one. */
  function Mounts(deployment: Deployment, settings: Settings, secretName: string -> string): seq<VolumeMount> {
    [VolumeMount(secretName(deployment.name), settings.volumes.private.path),
     VolumeMount(settings.secrets.publicName, settings.volumes.public.path)]
  }

  /** `make_containers_patch`: fails without a pod spec; otherwise every container, in order,
      keeps its name and image and gets exactly the two mounts. */
  function MakeContainersPatch(deployment: Deployment, podSpec: Option<PodSpec>, settings: Settings,
                               secretName: string -> string): (r: Result<seq<ContainerPatch>>)
    ensures r.Err? <==> podSpec.None?
    ensures r.Err? ==> r.error == MissingContainers(deployment.name)
    ensures r.Ok? ==>
      && |r.value| == |podSpec.value.containers|
      && forall i :: 0 <= i < |r.value| ==>
           && r.value[i].name == podSpec.value.containers[i].name
           && r.value[i].image == podSpec.value.containers[i].image
           && |r.value[i].volumeMounts| == 2
           && r.value[i].volumeMounts[0] == VolumeMount(secretName(deployment.name), settings.volumes.private.path)
           && r.value[i].volumeMounts[1] == VolumeMount(settings.secrets.publicName, settings.volumes.public.path)
  {
    match podSpec
    case None => Err(MissingContainers(deployment.name))
    case Some(spec) =>
      var mounts := Mounts(deployment, settings, secretName);
      Ok(seq(|spec.containers|, i requires 0 <= i < |spec.containers| =>
               ContainerPatch(spec.containers[i].name, spec.containers[i].image, mounts)))
  }

  /** The patch `mount` sends, addressed to the deployment in its namespace or in `"default"`. */
  function Mount(deployment: Deployment, settings: Settings, secretName: string -> string): (r: Result<PatchRequest>)
    ensures r.Err? <==> deployment.podSpec.None?
    ensures r.Ok? ==>
      && r.value.namespace == NamespaceOrDefault(deployment.namespace)
      && r.value.name == deployment.name
      && r.value.patch.volumes == MakePatch(deployment, settings, secretName)
      && MakeContainersPatch(deployment, deployment.podSpec, settings, secretName) == Ok(r.value.patch.containers)
  {
    var volumes := MakePatch(deployment, settings, secretName);
    match MakeContainersPatch(deployment, deployment.podSpec, settings, secretName)
    case Err(e) => Err(e)
    case Ok(containers) =>
      Ok(PatchRequest(NamespaceOrDefault(deployment.namespace), deployment.name, DeploymentPatch(containers, volumes)))
  }

  function VolumeNames(patch: DeploymentPatch): set<string> {
    set v | v in patch.volumes :: v.name
  }

  /** Every mount of every container names a volume of the same patch. */
  lemma MountsReferToVolumes(deployment: Deployment, settings: Settings, secretName: string -> string)
    requires Mount(deployment, settings, secretName).Ok?
    ensures var patch := Mount(deployment, settings, secretName).value.patch;
      forall c, m :: c in patch.containers && m in c.volumeMounts ==> m.name in VolumeNames(patch)
  {
    var patch := Mount(deployment, settings, secretName).value.patch;
    var volumes := patch.volumes;
    assert volumes[0] in volumes && volumes[1] in volumes;
    assert secretName(deployment.name) in VolumeNames(patch);
    assert settings.secrets.publicName in VolumeNames(patch);
    forall c, m | c in patch.containers && m in c.volumeMounts
      ensures m.name in VolumeNames(patch)
    {
      var i :| 0 <= i < |patch.containers| && patch.containers[i] == c;
    }
  }
}
