/** The controller's configuration, as plain values (loading it is not modelled). */
module Settings {

  datatype VolumeSettings = VolumeSettings(path: string)

  datatype Volumes = Volumes(mount: bool, public: VolumeSettings, private: VolumeSettings)

  datatype Secrets = Secrets(publicName: string, publicNamespaces: seq<string>)

  datatype Rsa = Rsa(bits: nat)

  /** `annotation` and `rsa.bits` are loaded but never read: the controller uses constants. */
  datatype Settings = Settings(
    debug: bool,
    annotation: string,
    rsa: Rsa,
    secrets: Secrets,
    volumes: Volumes)
}
