/**
 * Functions the controller calls but whose code is not part of this model. Each is a
 * field of `Env`, so every result below holds for every choice of them.
 */
module Collaborators {
  import opened Common

  /** The PEM outputs of one RSA key generation. */
  datatype KeyMaterial = KeyMaterial(privateKey: Bytes, publicKey: Bytes, certificate: Bytes)

  datatype Env = Env(
    secretName: string -> string,            // utils::secret_name
    encode: string -> string,                // base64::encode
    fromUtf8: Bytes -> Option<string>,       // std::str::from_utf8
    rsa: (nat, string) -> Option<KeyMaterial>)   // OpenSSL key and certificate generation

  /** A generated keypair, labelled with the common name it was generated for. */
  datatype Generator = Generator(name: string, privateKey: Bytes, publicKey: Bytes, certificate: Bytes)

  /** `Generator::new`: fails when the key material cannot be produced, otherwise keeps `nid` as name. */
  function GenerateKeys(env: Env, bits: nat, nid: string): (r: Option<Generator>)
    ensures r.Some? <==> env.rsa(bits, nid).Some?
    ensures r.Some? ==> r.value.name == nid
  {
    match env.rsa(bits, nid)
    case None => None
    case Some(keys) => Some(Generator(nid, keys.privateKey, keys.publicKey, keys.certificate))
  }
}
