/**
 * One opaque secret (`RsaSecret`): a local buffer of fields, and the operations that push
 * the buffer to the cluster (`update`, `create`) or prune fields from it (`clean`).
 */
module Secret {
  import opened Common
  import opened Kube
  import opened Cluster

  /** `entry(name).or_insert_with(..)`: the first value buffered under a name wins. */
  function InsertIfAbsent(fields: Data, name: string, value: string): (r: Data)
    ensures name in r && r[name] == (if name in fields then fields[name] else value)
    ensures r.Keys == fields.Keys + {name}
    ensures forall k :: k in fields ==> r[k] == fields[k]
    ensures |r| <= |fields| + 1
  {
    if name in fields then fields else fields[name := value]
  }

  /** `update`: create the secret when the GET fails, then merge-patch the buffered fields. */
  function UpdateSecret(s: ApiState, ref: SecretRef, fields: Data): Reply<()> {
    var got := GetSecret(s, ref);
    if got.result.Err? then
      var created := CreateSecret(got.state, ref);
      if created.result.Err? then created else PatchSecret(created.state, ref, fields)
    else
      PatchSecret(got.state, ref, fields)
  }

  function NameSet(names: seq<string>): set<string> {
    set n | n in names
  }

  /** The field map left once every listed name is removed. */
  function Without(data: Data, names: seq<string>): Data {
    map k | k in data && k !in names :: data[k]
  }

  /** `clean`: read the secret, prune the names, then delete it if nothing is left or replace it. */
  function CleanSecret(s: ApiState, ref: SecretRef, names: seq<string>): Reply<()> {
    var got := GetSecret(s, ref);
    if got.result.Err? then Reply(Err(got.result.error), got.state)
    else
      var data := Without(got.result.value, names);
      if data == map[] then DeleteSecret(got.state, ref) else ReplaceSecret(got.state, ref, data)
  }

  /** The loop of `clean` that removes each named field from the fetched map. */
  method RemoveFields(data: Data, names: seq<string>) returns (pruned: Data)
    ensures pruned.Keys == data.Keys - NameSet(names)
    ensures forall k :: k in pruned ==> pruned[k] == data[k]
    ensures pruned == Without(data, names)
  {
    pruned := data;
    for i := 0 to |names|
      invariant pruned == Without(data, names[..i])
    {
      assert names[..i + 1] == names[..i] + [names[i]];
      pruned := pruned - {names[i]};
    }
    assert names[..|names|] == names;
  }

  class RsaSecret {
    const api: Api
    const name: string
    const namespace: string
    var fields: Data

    function Ref(): SecretRef {
      SecretRef(namespace, name)
    }

    /** `RsaSecret::new`: an empty buffer, scoped to the namespace or to `"default"`. */
    constructor (api: Api, name: string, namespace: Option<string>)
      ensures this.api == api && this.name == name
      ensures this.namespace == NamespaceOrDefault(namespace)
      ensures fields == map[]
    {
      this.api := api;
      this.name := name;
      this.namespace := NamespaceOrDefault(namespace);
      this.fields := map[];
    }

    /** `add_field`: buffer `encode(value)` under `name` unless `name` is already buffered. */
    method AddField(name: string, value: string, encode: string -> string)
      modifies this`fields
      ensures fields == InsertIfAbsent(old(fields), name, encode(value))
    {
      if name !in fields {
        fields := fields[name := encode(value)];
      }
    }

    method Update() returns (r: Result<()>)
      modifies api
      ensures Reply(r, api.State()) == UpdateSecret(old(api.State()), Ref(), fields)
    {
      var got := api.Get(Ref());
      if got.Err? {
        r := Create();
        if r.Err? {
          return;
        }
      }
      r := api.Patch(Ref(), fields);
    }

    method Create() returns (r: Result<()>)
      modifies api
      ensures Reply(r, api.State()) == CreateSecret(old(api.State()), Ref())
    {
      r := api.Create(Ref());
    }

    method Clean(names: seq<string>) returns (r: Result<()>)
      modifies api
      ensures Reply(r, api.State()) == CleanSecret(old(api.State()), Ref(), names)
    {
      var got := api.Get(Ref());
      if got.Err? {
        return Err(got.error);
      }
      var data := RemoveFields(got.value, names);
      if data == map[] {
        r := api.Delete(Ref());
        return;
      }
      r := api.Replace(Ref(), data);
    }
  }

  // Properties of `update`

  /** A successful update leaves the secret holding every buffered field, keeps its other
      fields, creates it with exactly the buffer when it was missing, and touches no other secret. */
  lemma UpdateStoresFields(s: ApiState, ref: SecretRef, fields: Data)
    ensures var u := UpdateSecret(s, ref, fields);
      u.result.Ok? ==>
        && ref in u.state.secrets
        && (forall k :: k in fields ==> k in u.state.secrets[ref] && u.state.secrets[ref][k] == fields[k])
        && (ref in s.secrets ==>
              u.state.secrets[ref].Keys == s.secrets[ref].Keys + fields.Keys &&
              forall k :: k in s.secrets[ref] && k !in fields ==> u.state.secrets[ref][k] == s.secrets[ref][k])
        && (ref !in s.secrets ==> u.state.secrets[ref] == fields)
        && u.state.secrets - {ref} == s.secrets - {ref}
  {
  }

  /** A failed update changes nothing, except that it may leave behind the empty secret it created. */
  lemma UpdateFailureEffect(s: ApiState, ref: SecretRef, fields: Data)
    ensures var u := UpdateSecret(s, ref, fields);
      u.result.Err? ==>
        u.state.secrets == s.secrets || (ref !in s.secrets && u.state.secrets == s.secrets[ref := map[]])
  {
  }

  /** The empty shell is reachable: GET says not found, the create succeeds, the patch is lost. */
  lemma UpdateCanLeaveEmptySecret(ref: SecretRef, fields: Data)
    ensures var u := UpdateSecret(ApiState(map[], 0, [], {2}), ref, fields);
      u.result == Err(Transport) && u.state.secrets == map[ref := map[]]
  {
  }

  /** Running update again with the same buffer after a success leaves every secret as it is,
      whatever the second run's outcome. */
  lemma UpdateIdempotent(s: ApiState, ref: SecretRef, fields: Data)
    requires UpdateSecret(s, ref, fields).result.Ok?
    ensures var once := UpdateSecret(s, ref, fields).state;
      UpdateSecret(once, ref, fields).state.secrets == once.secrets
  {
    var once := UpdateSecret(s, ref, fields).state;
    assert ref in once.secrets;
    var data := once.secrets[ref];
    assert forall k :: k in fields ==> k in data && data[k] == fields[k];
    assert MergeData(data, fields) == data;
  }

  // Properties of `clean`

  /** `clean` succeeds exactly when the secret exists and neither of its two requests is lost;
      which names are listed, present or not, plays no part. */
  lemma CleanOutcome(s: ApiState, ref: SecretRef, names: seq<string>)
    ensures CleanSecret(s, ref, names).result.Ok? <==> ref in s.secrets && !Lost(s) && !Lost(Sent(s))
  {
  }

  /** A failed clean leaves every secret as it was; in particular a missing secret is an error. */
  lemma CleanFailureUnchanged(s: ApiState, ref: SecretRef, names: seq<string>)
    ensures ref !in s.secrets ==> CleanSecret(s, ref, names).result.Err?
    ensures CleanSecret(s, ref, names).result.Err? ==> CleanSecret(s, ref, names).state.secrets == s.secrets
  {
  }

  /** After a successful clean the secret is gone if pruning emptied it, and otherwise holds
      exactly its old fields minus the named ones; no other secret changes. */
  lemma CleanPrunes(s: ApiState, ref: SecretRef, names: seq<string>)
    ensures var c := CleanSecret(s, ref, names);
      c.result.Ok? ==>
        && ref in s.secrets
        && (s.secrets[ref].Keys <= NameSet(names) ==> ref !in c.state.secrets)
        && (!(s.secrets[ref].Keys <= NameSet(names)) ==>
              ref in c.state.secrets &&
              c.state.secrets[ref].Keys == s.secrets[ref].Keys - NameSet(names) &&
              forall k :: k in c.state.secrets[ref] ==> c.state.secrets[ref][k] == s.secrets[ref][k])
        && c.state.secrets - {ref} == s.secrets - {ref}
  {
    if ref in s.secrets {
      var data := s.secrets[ref];
      var pruned := Without(data, names);
      assert pruned.Keys == data.Keys - NameSet(names);
      if !(data.Keys <= NameSet(names)) {
        var k :| k in data.Keys && k !in NameSet(names);
        assert k in pruned;
      }
    }
  }
}
