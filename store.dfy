/**
 * The credential store: writes one keypair into a private secret and into the shared public
 * secret of every configured namespace, and removes it again. Neither direction is
 * transactional: the first failing request ends the operation and nothing is rolled back.
 */
module Store {
  import opened Common
  import opened Kube
  import opened Cluster
  import opened Settings
  import opened Collaborators
  import opened Secret

  const PrivateField := "private.pem"

  /** The field of a public secret that holds the public key of service `name`. */
  function KeyName(name: string): string {
    name + ".pem"
  }

  /** The per-service secret holding the private key. */
  function PrivateRef(env: Env, namespace: Option<string>, name: string): SecretRef {
    SecretRef(NamespaceOrDefault(namespace), env.secretName(name))
  }

  /** The shared public secret of one namespace. */
  function PublicRef(config: Settings, ns: string): SecretRef {
    SecretRef(ns, config.secrets.publicName)
  }

  function PublicRefs(config: Settings, namespaces: seq<string>): set<SecretRef> {
    set ns | ns in namespaces :: PublicRef(config, ns)
  }

  /** The base64 text written for the public key, when its bytes are UTF-8. */
  function PublishedValue(env: Env, generator: Generator): Option<string> {
    match env.fromUtf8(generator.publicKey)
    case None => None
    case Some(publicKey) => Some(env.encode(publicKey))
  }

  /** The loop of `handle_add` over the public namespaces, in order, stopping at the first error. */
  function Publish(s: ApiState, config: Settings, env: Env, generator: Generator, namespaces: seq<string>): Reply<()>
    decreases |namespaces|
  {
    if namespaces == [] then Reply(Ok(()), s)
    else
      match env.fromUtf8(generator.publicKey)
      case None => Reply(Err(InvalidUtf8), s)
      case Some(publicKey) =>
        var written := UpdateSecret(s, PublicRef(config, namespaces[0]),
                                    map[KeyName(generator.name) := env.encode(publicKey)]);
        if written.result.Err? then written
        else Publish(written.state, config, env, generator, namespaces[1..])
  }

  /** `handle_add`: the private secret first, then the public secrets. */
  function AddKeys(s: ApiState, config: Settings, env: Env, namespace: Option<string>, generator: Generator): Reply<()> {
    match env.fromUtf8(generator.privateKey)
    case None => Reply(Err(InvalidUtf8), s)
    case Some(privateKey) =>
      var written := UpdateSecret(s, PrivateRef(env, namespace, generator.name),
                                  map[PrivateField := env.encode(privateKey)]);
      if written.result.Err? then written
      else Publish(written.state, config, env, generator, config.secrets.publicNamespaces)
  }

  /** The loop of `handle_delete` over the public namespaces, in order, stopping at the first error. */
  function Unpublish(s: ApiState, config: Settings, keyName: string, namespaces: seq<string>): Reply<()>
    decreases |namespaces|
  {
    if namespaces == [] then Reply(Ok(()), s)
    else
      var cleaned := CleanSecret(s, PublicRef(config, namespaces[0]), [keyName]);
      if cleaned.result.Err? then cleaned
      else Unpublish(cleaned.state, config, keyName, namespaces[1..])
  }

  /** `handle_delete`: the public secrets first, then the private secret. */
  function RemoveKeys(s: ApiState, config: Settings, env: Env, namespace: Option<string>, serviceName: string): Reply<()> {
    var unpublished := Unpublish(s, config, KeyName(serviceName), config.secrets.publicNamespaces);
    if unpublished.result.Err? then unpublished
    else CleanSecret(unpublished.state, PrivateRef(env, namespace, serviceName), [PrivateField])
  }

  class Store {
    const client: Api
    const config: Settings
    const env: Env

    constructor (client: Api, config: Settings, env: Env)
      ensures this.client == client && this.config == config && this.env == env
    {
      this.client := client;
      this.config := config;
      this.env := env;
    }

    method HandleAdd(namespace: Option<string>, generator: Generator) returns (r: Result<()>)
      modifies client
      ensures Reply(r, client.State()) == AddKeys(old(client.State()), config, env, namespace, generator)
    {
      var privateSecret := new RsaSecret(client, env.secretName(generator.name), namespace);
      var privateKey := env.fromUtf8(generator.privateKey);
      if privateKey.None? {
        return Err(InvalidUtf8);
      }
      privateSecret.AddField(PrivateField, privateKey.value, env.encode);
      assert privateSecret.fields == map[PrivateField := env.encode(privateKey.value)];
      r := privateSecret.Update();
      if r.Err? {
        return;
      }
      r := PublishPublicKey(generator);
    }

    /** The loop of `handle_add` over `public_namespaces`. */
    method PublishPublicKey(generator: Generator) returns (r: Result<()>)
      modifies client
      ensures Reply(r, client.State()) == Publish(old(client.State()), config, env, generator, config.secrets.publicNamespaces)
    {
      var keyName := KeyName(generator.name);
      var namespaces := config.secrets.publicNamespaces;
      for i := 0 to |namespaces|
        invariant Publish(old(client.State()), config, env, generator, namespaces)
               == Publish(client.State(), config, env, generator, namespaces[i..])
      {
        var publicSecret := new RsaSecret(client, config.secrets.publicName, Some(namespaces[i]));
        var publicKey := env.fromUtf8(generator.publicKey);
        if publicKey.None? {
          return Err(InvalidUtf8);
        }
        publicSecret.AddField(keyName, publicKey.value, env.encode);
        assert publicSecret.fields == map[keyName := env.encode(publicKey.value)];
        PublishStep(client.State(), config, env, generator, namespaces, i);
        r := publicSecret.Update();
        if r.Err? {
          return;
        }
      }
      r := Ok(());
    }

    method HandleDelete(namespace: Option<string>, serviceName: string) returns (r: Result<()>)
      modifies client
      ensures Reply(r, client.State()) == RemoveKeys(old(client.State()), config, env, namespace, serviceName)
    {
      var keyName := KeyName(serviceName);
      var namespaces := config.secrets.publicNamespaces;
      for i := 0 to |namespaces|
        invariant Unpublish(old(client.State()), config, keyName, namespaces)
               == Unpublish(client.State(), config, keyName, namespaces[i..])
      {
        var publicSecret := new RsaSecret(client, config.secrets.publicName, Some(namespaces[i]));
        assert publicSecret.Ref() == PublicRef(config, namespaces[i]);
        assert namespaces[i..][0] == namespaces[i] && namespaces[i..][1..] == namespaces[i + 1..];
        r := publicSecret.Clean([keyName]);
        if r.Err? {
          return;
        }
      }
      var privateSecret := new RsaSecret(client, env.secretName(serviceName), namespace);
      r := privateSecret.Clean([PrivateField]);
    }
  }

  /** One iteration of the publishing loop, seen from the index it starts at. */
  lemma PublishStep(s: ApiState, config: Settings, env: Env, generator: Generator, namespaces: seq<string>, i: nat)
    requires i < |namespaces| && env.fromUtf8(generator.publicKey).Some?
    ensures var written := UpdateSecret(s, PublicRef(config, namespaces[i]),
                                        map[KeyName(generator.name) := env.encode(env.fromUtf8(generator.publicKey).value)]);
      Publish(s, config, env, generator, namespaces[i..])
        == if written.result.Err? then written else Publish(written.state, config, env, generator, namespaces[i + 1..])
  {
    assert namespaces[i..][0] == namespaces[i] && namespaces[i..][1..] == namespaces[i + 1..];
  }

  // Facts about secret maps used below

  /** `ref` is present in both maps with the same data, or absent from both. */
  ghost predicate Agree(before: map<SecretRef, Data>, after: map<SecretRef, Data>, ref: SecretRef) {
    (ref in before <==> ref in after) && (ref in before ==> before[ref] == after[ref])
  }

  /** Secret `ref` exists and holds `value` under `key`. */
  ghost predicate Holds(secrets: map<SecretRef, Data>, ref: SecretRef, key: string, value: string) {
    ref in secrets && key in secrets[ref] && secrets[ref][key] == value
  }

  /** Secret `ref` does not hold `key`, possibly because it does not exist. */
  ghost predicate Lacks(secrets: map<SecretRef, Data>, ref: SecretRef, key: string) {
    ref !in secrets || key !in secrets[ref]
  }

  /** No secret and no field appeared between `before` and `after`. */
  ghost predicate Shrunk(before: map<SecretRef, Data>, after: map<SecretRef, Data>) {
    forall ref :: ref in after ==> ref in before && after[ref].Keys <= before[ref].Keys
  }

  // Properties of `handle_add`

  /** Private key bytes that are not UTF-8 fail the add before any request is sent. */
  lemma AddRejectsInvalidPrivateKey(s: ApiState, config: Settings, env: Env, namespace: Option<string>, generator: Generator)
    requires env.fromUtf8(generator.privateKey).None?
    ensures AddKeys(s, config, env, namespace, generator) == Reply(Err(InvalidUtf8), s)
  {
  }

  /** The private secret is written first: when that write fails the add stops there and
      every other secret is as it was. */
  lemma AddPrivateFirst(s: ApiState, config: Settings, env: Env, namespace: Option<string>, generator: Generator)
    requires env.fromUtf8(generator.privateKey).Some?
    requires UpdateSecret(s, PrivateRef(env, namespace, generator.name),
                          map[PrivateField := env.encode(env.fromUtf8(generator.privateKey).value)]).result.Err?
    ensures var a := AddKeys(s, config, env, namespace, generator);
      a.result == UpdateSecret(s, PrivateRef(env, namespace, generator.name),
                               map[PrivateField := env.encode(env.fromUtf8(generator.privateKey).value)]).result &&
      a.state.secrets - {PrivateRef(env, namespace, generator.name)} == s.secrets - {PrivateRef(env, namespace, generator.name)}
  {
    var pr := PrivateRef(env, namespace, generator.name);
    UpdateFailureEffect(s, pr, map[PrivateField := env.encode(env.fromUtf8(generator.privateKey).value)]);
  }

  /** Public key bytes that are not UTF-8 fail the add right after the private write, before
      any public secret is touched (when there is at least one public namespace). */
  lemma AddRejectsInvalidPublicKey(s: ApiState, config: Settings, env: Env, namespace: Option<string>, generator: Generator)
    requires env.fromUtf8(generator.privateKey).Some? && env.fromUtf8(generator.publicKey).None?
    requires config.secrets.publicNamespaces != []
    ensures var written := UpdateSecret(s, PrivateRef(env, namespace, generator.name),
                                        map[PrivateField := env.encode(env.fromUtf8(generator.privateKey).value)]);
      AddKeys(s, config, env, namespace, generator)
        == if written.result.Err? then written else Reply(Err(InvalidUtf8), written.state)
  {
  }

  /** Publishing touches only the public secrets of the listed namespaces, and no deployment. */
  lemma {:induction false} PublishFrame(s: ApiState, config: Settings, env: Env, generator: Generator, namespaces: seq<string>)
    ensures var p := Publish(s, config, env, generator, namespaces).state;
      && p.patches == s.patches && p.rejected == s.rejected
      && forall ref :: ref !in PublicRefs(config, namespaces) ==> Agree(s.secrets, p.secrets, ref)
    decreases |namespaces|
  {
    if namespaces != [] && env.fromUtf8(generator.publicKey).Some? {
      var ref0 := PublicRef(config, namespaces[0]);
      var fields := map[KeyName(generator.name) := env.encode(env.fromUtf8(generator.publicKey).value)];
      var written := UpdateSecret(s, ref0, fields);
      UpdateStoresFields(s, ref0, fields);
      UpdateFailureEffect(s, ref0, fields);
      if written.result.Ok? {
        PublishFrame(written.state, config, env, generator, namespaces[1..]);
        assert PublicRefs(config, namespaces) == {ref0} + PublicRefs(config, namespaces[1..]);
        forall ref | ref !in PublicRefs(config, namespaces)
          ensures Agree(s.secrets, Publish(s, config, env, generator, namespaces).state.secrets, ref)
        {
          assert ref != ref0 && ref !in PublicRefs(config, namespaces[1..]);
          assert Agree(s.secrets, written.state.secrets, ref);
        }
      }
    }
  }

  /** The namespaces are handled one after another and the first error ends the loop: publishing
      to `a + b` is publishing to `a` and then, only if that succeeded, to `b`. */
  lemma {:induction false} PublishSequential(s: ApiState, config: Settings, env: Env, generator: Generator, a: seq<string>, b: seq<string>)
    ensures var first := Publish(s, config, env, generator, a);
      Publish(s, config, env, generator, a + b)
        == if first.result.Err? then first else Publish(first.state, config, env, generator, b)
    decreases |a|
  {
    if a != [] {
      assert (a + b)[0] == a[0] && (a + b)[1..] == a[1..] + b;
      if env.fromUtf8(generator.publicKey).Some? {
        var written := UpdateSecret(s, PublicRef(config, a[0]),
                                    map[KeyName(generator.name) := env.encode(env.fromUtf8(generator.publicKey).value)]);
        if written.result.Ok? {
          PublishSequential(written.state, config, env, generator, a[1..], b);
        }
      }
    } else {
      assert a + b == b;
    }
  }

  /** Publishing never takes back a field: every field a secret held is still there with the same
      value, unless publishing overwrote it with a different public key. */
  lemma {:induction false} PublishKeeps(s: ApiState, config: Settings, env: Env, generator: Generator, namespaces: seq<string>,
                                        ref: SecretRef, key: string, value: string)
    requires Holds(s.secrets, ref, key, value)
    requires key == KeyName(generator.name) && ref in PublicRefs(config, namespaces) ==>
               PublishedValue(env, generator) == Some(value)
    ensures Holds(Publish(s, config, env, generator, namespaces).state.secrets, ref, key, value)
    decreases |namespaces|
  {
    if namespaces != [] && env.fromUtf8(generator.publicKey).Some? {
      var ref0 := PublicRef(config, namespaces[0]);
      var fields := map[KeyName(generator.name) := env.encode(env.fromUtf8(generator.publicKey).value)];
      var written := UpdateSecret(s, ref0, fields);
      UpdateStoresFields(s, ref0, fields);
      UpdateFailureEffect(s, ref0, fields);
      assert Holds(written.state.secrets, ref, key, value);
      if written.result.Ok? {
        assert PublicRefs(config, namespaces[1..]) <= PublicRefs(config, namespaces);
        PublishKeeps(written.state, config, env, generator, namespaces[1..], ref, key, value);
      }
    }
  }

  /** After a successful publish every listed namespace's public secret holds the public key. */
  lemma {:induction false} PublishWrites(s: ApiState, config: Settings, env: Env, generator: Generator, namespaces: seq<string>, ns: string)
    requires Publish(s, config, env, generator, namespaces).result.Ok?
    requires ns in namespaces
    ensures PublishedValue(env, generator).Some?
    ensures Holds(Publish(s, config, env, generator, namespaces).state.secrets, PublicRef(config, ns),
                  KeyName(generator.name), PublishedValue(env, generator).value)
    decreases |namespaces|
  {
    var ref0 := PublicRef(config, namespaces[0]);
    var value := PublishedValue(env, generator).value;
    var fields := map[KeyName(generator.name) := value];
    var written := UpdateSecret(s, ref0, fields);
    UpdateStoresFields(s, ref0, fields);
    if ns == namespaces[0] {
      PublishKeeps(written.state, config, env, generator, namespaces[1..], ref0, KeyName(generator.name), value);
    } else {
      PublishWrites(written.state, config, env, generator, namespaces[1..], ns);
    }
  }

  /** A successful add leaves every public secret holding the public key and the private secret
      holding the private key, unless the two fields collide in one secret: the service is named
      "private" and its private secret is also one of the public secrets. */
  lemma AddEstablishes(s: ApiState, config: Settings, env: Env, namespace: Option<string>, generator: Generator)
    requires AddKeys(s, config, env, namespace, generator).result.Ok?
    ensures env.fromUtf8(generator.privateKey).Some?
    ensures config.secrets.publicNamespaces != [] ==> PublishedValue(env, generator).Some?
    ensures forall ns :: ns in config.secrets.publicNamespaces ==>
      Holds(AddKeys(s, config, env, namespace, generator).state.secrets, PublicRef(config, ns),
            KeyName(generator.name), PublishedValue(env, generator).value)
    ensures (KeyName(generator.name) != PrivateField || PrivateRef(env, namespace, generator.name) !in PublicRefs(config, config.secrets.publicNamespaces)) ==>
      Holds(AddKeys(s, config, env, namespace, generator).state.secrets, PrivateRef(env, namespace, generator.name),
            PrivateField, env.encode(env.fromUtf8(generator.privateKey).value))
  {
    var namespaces := config.secrets.publicNamespaces;
    var pr := PrivateRef(env, namespace, generator.name);
    var fields := map[PrivateField := env.encode(env.fromUtf8(generator.privateKey).value)];
    var written := UpdateSecret(s, pr, fields);
    UpdateStoresFields(s, pr, fields);
    forall ns | ns in namespaces
      ensures PublishedValue(env, generator).Some?
      ensures Holds(AddKeys(s, config, env, namespace, generator).state.secrets, PublicRef(config, ns),
                    KeyName(generator.name), PublishedValue(env, generator).value)
    {
      PublishWrites(written.state, config, env, generator, namespaces, ns);
    }
    if KeyName(generator.name) != PrivateField || pr !in PublicRefs(config, namespaces) {
      PublishKeeps(written.state, config, env, generator, namespaces, pr, PrivateField, fields[PrivateField]);
    }
  }

  /** No rollback: once the private write succeeded, the private key stays in place whatever
      happens to the public writes after it. */
  lemma AddNoRollback(s: ApiState, config: Settings, env: Env, namespace: Option<string>, generator: Generator)
    requires env.fromUtf8(generator.privateKey).Some?
    requires UpdateSecret(s, PrivateRef(env, namespace, generator.name),
                          map[PrivateField := env.encode(env.fromUtf8(generator.privateKey).value)]).result.Ok?
    requires (KeyName(generator.name) != PrivateField || PrivateRef(env, namespace, generator.name) !in PublicRefs(config, config.secrets.publicNamespaces))
    ensures Holds(AddKeys(s, config, env, namespace, generator).state.secrets, PrivateRef(env, namespace, generator.name),
                  PrivateField, env.encode(env.fromUtf8(generator.privateKey).value))
  {
    var pr := PrivateRef(env, namespace, generator.name);
    var fields := map[PrivateField := env.encode(env.fromUtf8(generator.privateKey).value)];
    var written := UpdateSecret(s, pr, fields);
    UpdateStoresFields(s, pr, fields);
    PublishKeeps(written.state, config, env, generator, config.secrets.publicNamespaces, pr, PrivateField, fields[PrivateField]);
  }

  /** `handle_add` leaves every secret other than the service's private secret and the listed
      public secrets as it was, whatever its outcome. */
  lemma AddKeysTouchesOnly(s: ApiState, config: Settings, env: Env, namespace: Option<string>, generator: Generator,
                           ref: SecretRef)
    requires ref != PrivateRef(env, namespace, generator.name)
    requires ref !in PublicRefs(config, config.secrets.publicNamespaces)
    ensures Agree(s.secrets, AddKeys(s, config, env, namespace, generator).state.secrets, ref)
  {
    if env.fromUtf8(generator.privateKey).Some? {
      var pr := PrivateRef(env, namespace, generator.name);
      var fields := map[PrivateField := env.encode(env.fromUtf8(generator.privateKey).value)];
      var written := UpdateSecret(s, pr, fields);
      UpdateStoresFields(s, pr, fields);
      UpdateFailureEffect(s, pr, fields);
      assert Agree(s.secrets, written.state.secrets, ref) by {
        if written.result.Ok? {
          assert ref in s.secrets <==> ref in s.secrets - {pr};
          assert ref in written.state.secrets <==> ref in written.state.secrets - {pr};
        }
      }
      if written.result.Ok? {
        PublishFrame(written.state, config, env, generator, config.secrets.publicNamespaces);
      }
    }
  }

  /** `handle_add` sends no deployment patch. */
  lemma AddKeysFrame(s: ApiState, config: Settings, env: Env, namespace: Option<string>, generator: Generator)
    ensures AddKeys(s, config, env, namespace, generator).state.patches == s.patches
    ensures AddKeys(s, config, env, namespace, generator).state.rejected == s.rejected
  {
    if env.fromUtf8(generator.privateKey).Some? {
      var written := UpdateSecret(s, PrivateRef(env, namespace, generator.name),
                                  map[PrivateField := env.encode(env.fromUtf8(generator.privateKey).value)]);
      PublishFrame(written.state, config, env, generator, config.secrets.publicNamespaces);
    }
  }

  // Properties of `handle_delete`

  /** Unpublishing touches only the public secrets of the listed namespaces, and no deployment. */
  lemma {:induction false} UnpublishFrame(s: ApiState, config: Settings, keyName: string, namespaces: seq<string>)
    ensures var u := Unpublish(s, config, keyName, namespaces).state;
      && u.patches == s.patches && u.rejected == s.rejected
      && forall ref :: ref !in PublicRefs(config, namespaces) ==> Agree(s.secrets, u.secrets, ref)
    decreases |namespaces|
  {
    if namespaces != [] {
      var ref0 := PublicRef(config, namespaces[0]);
      var cleaned := CleanSecret(s, ref0, [keyName]);
      CleanPrunes(s, ref0, [keyName]);
      CleanFailureUnchanged(s, ref0, [keyName]);
      if cleaned.result.Ok? {
        UnpublishFrame(cleaned.state, config, keyName, namespaces[1..]);
        assert PublicRefs(config, namespaces) == {ref0} + PublicRefs(config, namespaces[1..]);
        forall ref | ref !in PublicRefs(config, namespaces)
          ensures Agree(s.secrets, Unpublish(s, config, keyName, namespaces).state.secrets, ref)
        {
          assert ref != ref0 && ref !in PublicRefs(config, namespaces[1..]);
          assert Agree(s.secrets, cleaned.state.secrets, ref);
        }
      }
    }
  }

  /** A public secret that is missing when unpublishing starts makes it fail. */
  lemma {:induction false} UnpublishMissing(s: ApiState, config: Settings, keyName: string, namespaces: seq<string>, ref: SecretRef)
    requires ref in PublicRefs(config, namespaces) && ref !in s.secrets
    ensures Unpublish(s, config, keyName, namespaces).result.Err?
    decreases |namespaces|
  {
    var ref0 := PublicRef(config, namespaces[0]);
    var cleaned := CleanSecret(s, ref0, [keyName]);
    CleanFailureUnchanged(s, ref0, [keyName]);
    CleanPrunes(s, ref0, [keyName]);
    if ref != ref0 && cleaned.result.Ok? {
      assert ref !in cleaned.state.secrets;
      UnpublishMissing(cleaned.state, config, keyName, namespaces[1..], ref);
    }
  }

  /** The public secrets go first: if any of them is missing, `handle_delete` fails and the
      private secret is left exactly as it was (when it is not itself one of the public secrets). */
  lemma RemoveAbortsOnMissingPublic(s: ApiState, config: Settings, env: Env, namespace: Option<string>, serviceName: string, ns: string)
    requires ns in config.secrets.publicNamespaces && PublicRef(config, ns) !in s.secrets
    requires PrivateRef(env, namespace, serviceName) !in PublicRefs(config, config.secrets.publicNamespaces)
    ensures var r := RemoveKeys(s, config, env, namespace, serviceName);
      r.result.Err? && Agree(s.secrets, r.state.secrets, PrivateRef(env, namespace, serviceName))
  {
    var namespaces := config.secrets.publicNamespaces;
    UnpublishMissing(s, config, KeyName(serviceName), namespaces, PublicRef(config, ns));
    UnpublishFrame(s, config, KeyName(serviceName), namespaces);
  }

  /** Cleaning never creates a secret or a field, and the cleaned secret lacks the named fields. */
  lemma CleanShrinks(s: ApiState, ref: SecretRef, names: seq<string>)
    ensures Shrunk(s.secrets, CleanSecret(s, ref, names).state.secrets)
    ensures CleanSecret(s, ref, names).result.Ok? ==>
      forall n :: n in names ==> Lacks(CleanSecret(s, ref, names).state.secrets, ref, n)
  {
    CleanPrunes(s, ref, names);
    CleanFailureUnchanged(s, ref, names);
    var after := CleanSecret(s, ref, names).state.secrets;
    forall r | r in after
      ensures r in s.secrets && after[r].Keys <= s.secrets[r].Keys
    {
      if r != ref {
        assert r in after - {ref};
      }
    }
  }

  lemma ShrunkTransitive(a: map<SecretRef, Data>, b: map<SecretRef, Data>, c: map<SecretRef, Data>)
    requires Shrunk(a, b) && Shrunk(b, c)
    ensures Shrunk(a, c)
  {
  }

  /** After a successful unpublish no listed public secret holds the key name, and nothing grew. */
  lemma {:induction false} UnpublishClears(s: ApiState, config: Settings, keyName: string, namespaces: seq<string>)
    requires Unpublish(s, config, keyName, namespaces).result.Ok?
    ensures Shrunk(s.secrets, Unpublish(s, config, keyName, namespaces).state.secrets)
    ensures forall ns :: ns in namespaces ==>
      Lacks(Unpublish(s, config, keyName, namespaces).state.secrets, PublicRef(config, ns), keyName)
    decreases |namespaces|
  {
    if namespaces != [] {
      var ref0 := PublicRef(config, namespaces[0]);
      var cleaned := CleanSecret(s, ref0, [keyName]);
      CleanShrinks(s, ref0, [keyName]);
      var rest := Unpublish(cleaned.state, config, keyName, namespaces[1..]).state.secrets;
      UnpublishClears(cleaned.state, config, keyName, namespaces[1..]);
      ShrunkTransitive(s.secrets, cleaned.state.secrets, rest);
      assert Lacks(rest, ref0, keyName);
    }
  }

  /** Deletion completeness: after a successful `handle_delete` no public secret holds
      `<name>.pem` and the private secret holds no `private.pem`. */
  lemma RemoveClears(s: ApiState, config: Settings, env: Env, namespace: Option<string>, serviceName: string)
    requires RemoveKeys(s, config, env, namespace, serviceName).result.Ok?
    ensures forall ns :: ns in config.secrets.publicNamespaces ==>
      Lacks(RemoveKeys(s, config, env, namespace, serviceName).state.secrets, PublicRef(config, ns), KeyName(serviceName))
    ensures Lacks(RemoveKeys(s, config, env, namespace, serviceName).state.secrets, PrivateRef(env, namespace, serviceName), PrivateField)
  {
    var unpublished := Unpublish(s, config, KeyName(serviceName), config.secrets.publicNamespaces);
    UnpublishClears(s, config, KeyName(serviceName), config.secrets.publicNamespaces);
    CleanShrinks(unpublished.state, PrivateRef(env, namespace, serviceName), [PrivateField]);
  }

  /** `handle_delete` sends no deployment patch. */
  lemma RemoveKeysFrame(s: ApiState, config: Settings, env: Env, namespace: Option<string>, serviceName: string)
    ensures RemoveKeys(s, config, env, namespace, serviceName).state.patches == s.patches
    ensures RemoveKeys(s, config, env, namespace, serviceName).state.rejected == s.rejected
  {
    UnpublishFrame(s, config, KeyName(serviceName), config.secrets.publicNamespaces);
  }

  /** Cleaning keeps every field it is not asked to remove, whatever its outcome. */
  lemma CleanKeeps(s: ApiState, ref: SecretRef, names: seq<string>, r: SecretRef, key: string, value: string)
    requires Holds(s.secrets, r, key, value) && key !in names
    ensures Holds(CleanSecret(s, ref, names).state.secrets, r, key, value)
  {
    CleanPrunes(s, ref, names);
    CleanFailureUnchanged(s, ref, names);
    var c := CleanSecret(s, ref, names);
    if c.result.Ok? {
      if r == ref {
        assert key in s.secrets[ref].Keys - NameSet(names);
      } else {
        assert r in s.secrets - {ref};
      }
    }
  }

  /** Unpublishing one service's key leaves every other field of every secret in place, the other
      services' keys in the shared public secrets included, whatever its outcome. */
  lemma {:induction false} UnpublishKeeps(s: ApiState, config: Settings, keyName: string, namespaces: seq<string>,
                                          ref: SecretRef, key: string, value: string)
    requires Holds(s.secrets, ref, key, value) && key != keyName
    ensures Holds(Unpublish(s, config, keyName, namespaces).state.secrets, ref, key, value)
    decreases |namespaces|
  {
    if namespaces != [] {
      var cleaned := CleanSecret(s, PublicRef(config, namespaces[0]), [keyName]);
      CleanKeeps(s, PublicRef(config, namespaces[0]), [keyName], ref, key, value);
      if cleaned.result.Ok? {
        UnpublishKeeps(cleaned.state, config, keyName, namespaces[1..], ref, key, value);
      }
    }
  }

  /** `handle_delete` removes only the service's own two fields: every other field of every
      secret survives, whatever its outcome. */
  lemma RemoveKeeps(s: ApiState, config: Settings, env: Env, namespace: Option<string>, serviceName: string,
                    ref: SecretRef, key: string, value: string)
    requires Holds(s.secrets, ref, key, value)
    requires key != KeyName(serviceName) && key != PrivateField
    ensures Holds(RemoveKeys(s, config, env, namespace, serviceName).state.secrets, ref, key, value)
  {
    var unpublished := Unpublish(s, config, KeyName(serviceName), config.secrets.publicNamespaces);
    UnpublishKeeps(s, config, KeyName(serviceName), config.secrets.publicNamespaces, ref, key, value);
    if unpublished.result.Ok? {
      CleanKeeps(unpublished.state, PrivateRef(env, namespace, serviceName), [PrivateField], ref, key, value);
    }
  }

  // Add followed by delete

  /** Every secret is one the keypair may use and holds only fields that the keypair owns:
      `private.pem` in a secret of `privateRefs`, `keyName` in a secret of `publicRefs`. */
  ghost predicate Confined(secrets: map<SecretRef, Data>, privateRefs: set<SecretRef>, publicRefs: set<SecretRef>, keyName: string) {
    forall ref :: ref in secrets ==>
      (ref in privateRefs || ref in publicRefs) && Owned(secrets[ref], ref, privateRefs, publicRefs, keyName)
  }

  ghost predicate Owned(data: Data, ref: SecretRef, privateRefs: set<SecretRef>, publicRefs: set<SecretRef>, keyName: string) {
    forall k :: k in data ==> (ref in privateRefs && k == PrivateField) || (ref in publicRefs && k == keyName)
  }

  lemma ConfinedWeaken(secrets: map<SecretRef, Data>, pr: set<SecretRef>, pu: set<SecretRef>,
                       pr': set<SecretRef>, pu': set<SecretRef>, keyName: string)
    requires Confined(secrets, pr, pu, keyName) && pr <= pr' && pu <= pu'
    ensures Confined(secrets, pr', pu', keyName)
  {
  }

  /** No secret may exist once no secret is allowed. */
  lemma ConfinedToNothing(secrets: map<SecretRef, Data>, keyName: string)
    requires Confined(secrets, {}, {}, keyName)
    ensures secrets == map[]
  {
  }

  /** An update of an allowed secret with owned fields keeps confinement, whatever its outcome:
      a failure at most leaves that secret empty. */
  lemma UpdateConfined(s: ApiState, ref: SecretRef, fields: Data,
                       pr: set<SecretRef>, pu: set<SecretRef>, keyName: string)
    requires Confined(s.secrets, pr, pu, keyName)
    requires (ref in pr || ref in pu) && Owned(fields, ref, pr, pu, keyName)
    ensures Confined(UpdateSecret(s, ref, fields).state.secrets, pr, pu, keyName)
  {
    UpdateStoresFields(s, ref, fields);
    UpdateFailureEffect(s, ref, fields);
    var after := UpdateSecret(s, ref, fields).state.secrets;
    forall r | r in after && r != ref
      ensures after[r] == s.secrets[r]
    {
      assert r in after - {ref};
    }
  }

  /** A successful clean of one key keeps confinement and releases the cleaned secret for that key. */
  lemma CleanConfined(s: ApiState, ref: SecretRef, key: string,
                      pr: set<SecretRef>, pu: set<SecretRef>, keyName: string)
    requires Confined(s.secrets, pr, pu, keyName)
    requires CleanSecret(s, ref, [key]).result.Ok?
    ensures Confined(CleanSecret(s, ref, [key]).state.secrets,
                     if key == PrivateField then pr - {ref} else pr,
                     if key == keyName then pu - {ref} else pu, keyName)
  {
    CleanPrunes(s, ref, [key]);
    var after := CleanSecret(s, ref, [key]).state.secrets;
    var pr' := if key == PrivateField then pr - {ref} else pr;
    var pu' := if key == keyName then pu - {ref} else pu;
    forall r | r in after
      ensures (r in pr' || r in pu') && Owned(after[r], r, pr', pu', keyName)
    {
      if r != ref {
        assert r in after - {ref};
      } else {
        var k :| k in s.secrets[ref].Keys && k !in NameSet([key]);
        assert k in after[r];
      }
    }
  }

  /** Publishing keeps confinement, whatever its outcome. */
  lemma {:induction false} PublishConfined(s: ApiState, config: Settings, env: Env, generator: Generator, namespaces: seq<string>,
                                           pr: set<SecretRef>, pu: set<SecretRef>)
    requires Confined(s.secrets, pr, pu, KeyName(generator.name))
    requires PublicRefs(config, namespaces) <= pu
    ensures Confined(Publish(s, config, env, generator, namespaces).state.secrets, pr, pu, KeyName(generator.name))
    decreases |namespaces|
  {
    if namespaces != [] && env.fromUtf8(generator.publicKey).Some? {
      var ref0 := PublicRef(config, namespaces[0]);
      var fields := map[KeyName(generator.name) := PublishedValue(env, generator).value];
      assert ref0 in pu;
      UpdateConfined(s, ref0, fields, pr, pu, KeyName(generator.name));
      assert PublicRefs(config, namespaces[1..]) <= PublicRefs(config, namespaces);
      PublishConfined(UpdateSecret(s, ref0, fields).state, config, env, generator, namespaces[1..], pr, pu);
    }
  }

  lemma {:induction false} UnpublishConfined(s: ApiState, config: Settings, keyName: string, namespaces: seq<string>,
                                             pr: set<SecretRef>, pu: set<SecretRef>)
    requires Confined(s.secrets, pr, pu, keyName)
    requires Unpublish(s, config, keyName, namespaces).result.Ok?
    ensures Confined(Unpublish(s, config, keyName, namespaces).state.secrets, pr, pu - PublicRefs(config, namespaces), keyName)
    decreases |namespaces|
  {
    if namespaces == [] {
      assert pu - PublicRefs(config, namespaces) == pu;
    } else {
      var ref0 := PublicRef(config, namespaces[0]);
      var cleaned := CleanSecret(s, ref0, [keyName]);
      CleanConfined(s, ref0, keyName, pr, pu, keyName);
      ConfinedWeaken(cleaned.state.secrets, if keyName == PrivateField then pr - {ref0} else pr, pu - {ref0},
                     pr, pu - {ref0}, keyName);
      UnpublishConfined(cleaned.state, config, keyName, namespaces[1..], pr, pu - {ref0});
      assert PublicRefs(config, namespaces) == {ref0} + PublicRefs(config, namespaces[1..]);
      assert pu - {ref0} - PublicRefs(config, namespaces[1..]) == pu - PublicRefs(config, namespaces);
    }
  }

  /** Starting from a cluster without secrets, any add, complete, partial or failed, followed by
      a successful delete of the same service leaves no secret behind: every secret the add
      created or filled, an empty one left by a lost patch included, is emptied by the delete and
      therefore removed. */
  lemma AddThenRemoveLeavesNothing(s: ApiState, config: Settings, env: Env, namespace: Option<string>, generator: Generator)
    requires s.secrets == map[]
    requires RemoveKeys(AddKeys(s, config, env, namespace, generator).state, config, env, namespace, generator.name).result.Ok?
    ensures RemoveKeys(AddKeys(s, config, env, namespace, generator).state, config, env, namespace, generator.name).state.secrets == map[]
  {
    var namespaces := config.secrets.publicNamespaces;
    var pr := PrivateRef(env, namespace, generator.name);
    var pu := PublicRefs(config, namespaces);
    var keyName := KeyName(generator.name);
    if env.fromUtf8(generator.privateKey).Some? {
      var fields := map[PrivateField := env.encode(env.fromUtf8(generator.privateKey).value)];
      UpdateConfined(s, pr, fields, {pr}, pu, keyName);
      var written := UpdateSecret(s, pr, fields);
      if written.result.Ok? {
        PublishConfined(written.state, config, env, generator, namespaces, {pr}, pu);
      }
    }
    var added := AddKeys(s, config, env, namespace, generator).state;
    assert Confined(added.secrets, {pr}, pu, keyName);
    var unpublished := Unpublish(added, config, keyName, namespaces);
    UnpublishConfined(added, config, keyName, namespaces, {pr}, pu);
    assert pu - PublicRefs(config, namespaces) == {};
    CleanConfined(unpublished.state, pr, PrivateField, {pr}, {}, keyName);
    ConfinedToNothing(RemoveKeys(added, config, env, namespace, generator.name).state.secrets, keyName);
  }
}
