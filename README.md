# rsa-keys-operator, modelled in Dafny

rsa-keys-operator is a Kubernetes controller. It watches Deployments. When a deployment
annotated with `career.evrone.com/service` appears, the controller does three things:

- It generates a 2048-bit RSA keypair named after the deployment.
- It stores the private key as the `private.pem` field of a per-service secret in the
  deployment's namespace.
- It publishes the public key as the field `<service>.pem` of one shared public secret in every
  configured public namespace.

When mounting is configured, it also patches the deployment so that every container mounts both
secrets. When such a deployment is deleted, the controller removes those fields again. A secret
left without fields is deleted. The controller counts the events it handled and records the time
of the last one.

This project models that core and proves properties about it:

- `Secret.RsaSecret` models `src/secret.rs`. It has a field buffer, plus `update`
  (GET, create if absent, merge-patch), `create` and `clean` (GET, prune, delete or replace).
- `Store.Store` models `src/store.rs`: `handle_add` and `handle_delete`.
- `Mounter` models `src/mounter.rs`: the deployment patch built by `make_patch`,
  `make_containers_patch` and `mount`.
- `State.Controller` models `src/state.rs`: `handle_event`, `get_service_name`, `poll`, the
  `handled_events` counter and `last_event`.

The cluster is `Cluster.Api`. It is a class holding the secrets map, the number of requests sent
so far and the deployment patches accepted so far. A constant set `rejected` holds the request
indices that fail in transport, so partial failure is deterministic.

Some lemmas are proof steps for others and have no row below. `Store.ShrunkTransitive`,
`Store.ConfinedWeaken` and `Store.ConfinedToNothing` are facts about the helper predicates
`Store.Shrunk` and `Store.Confined`.

Every state-changing method is proved equal to a pure function of the state it changes, for
example `Store.AddKeys` over `Cluster.ApiState` or `State.Handle` over `State.ControllerState`. The lemmas are stated about those functions.

Some collaborators are outside the model: `utils::secret_name`, base64 `encode`,
`str::from_utf8` and RSA generation. They are given as function-valued fields of
`Collaborators.Env`, and nothing is assumed about them.

Where the repository's prose and its code differ, the model follows the code:

- `add_field` inserts only if the field is absent (`or_insert_with`), although its comment says
  it overwrites. See `Secret.InsertIfAbsent`.
- The annotation key and the key size are the constants `State.AnnotationKey` and
  `State.RsaBits`. The `annotation` and `rsa.bits` settings are never read, as
  `State.HandleIgnoresAnnotationAndBits` proves.
- There is no namespace filter. Every annotated deployment in every namespace is handled.
- A failed event returns before `last_event` is written, so only events whose handling does not fail move the clock.
  See `State.HandleFailureKeepsClock`.
- A failed `update` can leave behind an empty secret: the create succeeds and then the patch is
  lost. `Secret.UpdateCanLeaveEmptySecret` exhibits it. A later successful delete removes it
  again: `Store.AddThenRemoveLeavesNothing` holds after any add, complete, partial or failed.

## Model

| member | source | states |
|---|---|---|
| Cluster.MergeData | src/secret.rs:51-61 | patching `data` sets every listed field to its new value and keeps every other field of the secret |
| Cluster.Api.constructor | src/secret.rs:25 | a client over a given set of secrets, with no request sent and no patch recorded |
| Cluster.Api.Get | src/secret.rs:41-43 | GET returns the secret's data, or NotFound, or a transport error; only the request count changes |
| Cluster.Api.Create | src/secret.rs:79-81 | POST adds an empty secret unless it exists (AlreadyExists) or the request is lost |
| Cluster.Api.Patch | src/secret.rs:55-61 | merge-PATCH of a secret's data; NotFound when the secret is missing |
| Cluster.Api.Replace | src/secret.rs:114-116 | PUT makes the secret's data exactly the given map; NotFound when it is missing |
| Cluster.Api.Delete | src/secret.rs:98-100 | DELETE removes the secret; NotFound when it is missing |
| Cluster.Api.ApplyPatch | src/mounter.rs:54-58 | the deployment patch is recorded unless the request is lost |
| Collaborators.GenerateKeys | src/state.rs:118 | key generation succeeds exactly when the RSA generator does, and names the keypair after the service |
| Secret.InsertIfAbsent | src/secret.rs:33-38 | the field holds its old value if it was already set, otherwise the new one; other fields are untouched |
| Secret.RemoveFields | src/secret.rs:89-93 | the loop leaves exactly the fields not named, with their values |
| Secret.RsaSecret.constructor | src/secret.rs:23-29 | the secret addresses the given name in the given namespace or in "default", with an empty buffer |
| Secret.RsaSecret.AddField | src/secret.rs:33-38 | the buffer gains the encoded value only if the field is not buffered yet |
| Secret.RsaSecret.Update | src/secret.rs:46-64 | the requests and outcome are those of GET, then create on any GET error, then merge-PATCH |
| Secret.RsaSecret.Create | src/secret.rs:67-84 | creates the secret with empty data |
| Secret.RsaSecret.Clean | src/secret.rs:87-118 | the requests and outcome are those of GET, prune, then DELETE when nothing is left or PUT otherwise |
| Secret.UpdateStoresFields | src/secret.rs:46-64 | after a successful update the secret holds every buffered field and keeps its other fields; a new secret holds exactly the buffer; no other secret changes |
| Secret.UpdateFailureEffect | src/secret.rs:46-64 | a failed update changes nothing, except possibly leaving a new empty secret |
| Secret.UpdateCanLeaveEmptySecret | src/secret.rs:47-61 | a lost PATCH after a successful create leaves an empty secret behind |
| Secret.UpdateIdempotent | src/secret.rs:46-64 | repeating a successful update with the same buffer changes no secret |
| Secret.CleanOutcome | src/secret.rs:87-118 | clean succeeds iff the secret exists and neither of its two requests is lost |
| Secret.CleanFailureUnchanged | src/secret.rs:89 | cleaning a missing secret is an error, and a failed clean changes no secret |
| Secret.CleanPrunes | src/secret.rs:90-117 | a successful clean deletes the secret when pruning empties it, otherwise keeps exactly the unnamed fields; no other secret changes |
| Store.Store.constructor | src/store.rs:23-25 | the store keeps the client and the settings it is given |
| Store.Store.HandleAdd | src/store.rs:28-62 | the requests and outcome are those of `AddKeys`: the private secret first, then each public namespace in order, stopping at the first error |
| Store.Store.PublishPublicKey | src/store.rs:44-59 | the loop over the public namespaces equals `Publish` |
| Store.Store.HandleDelete | src/store.rs:65-95 | the requests and outcome are those of `RemoveKeys`: each public secret cleaned in order, then the private one |
| Store.PublishStep | src/store.rs:46-59 | one loop iteration: update the public secret of this namespace, stop on error, otherwise continue |
| Store.AddRejectsInvalidPrivateKey | src/store.rs:39 | private key bytes that are not UTF-8 fail the add before any request |
| Store.AddPrivateFirst | src/store.rs:38-42 | a failed private write ends the add with that error, and no public secret is touched |
| Store.AddRejectsInvalidPublicKey | src/store.rs:55 | non-UTF-8 public key bytes fail the add right after the private write |
| Store.PublishFrame | src/store.rs:46-59 | publishing changes only the public secrets of the listed namespaces, and patches no deployment |
| Store.PublishSequential | src/store.rs:46-59 | namespaces are handled in order: publishing a ++ b is publishing a, then b if a succeeded |
| Store.PublishKeeps | src/store.rs:46-59 | publishing never removes a field or changes its value, except the key field of the listed public secrets |
| Store.PublishWrites | src/store.rs:54-58 | after a successful publish every listed namespace's public secret holds the encoded public key under `<service>.pem` |
| Store.AddEstablishes | src/store.rs:28-62 | a successful add leaves every public secret holding `<service>.pem`, and the private secret holding `private.pem` unless the two fields collide in one secret |
| Store.AddNoRollback | src/store.rs:38-59 | once the private write succeeds, the private key stays even if a public write fails, unless the two fields collide in one secret |
| Store.AddKeysTouchesOnly | src/store.rs:28-62 | handle_add leaves every secret other than the private secret and the listed public secrets as it was, whatever the outcome |
| Store.AddKeysFrame | src/store.rs:28-62 | handle_add patches no deployment |
| Store.UnpublishFrame | src/store.rs:74-83 | unpublishing changes only the public secrets of the listed namespaces |
| Store.UnpublishMissing | src/store.rs:82 | a missing public secret makes unpublishing fail |
| Store.RemoveAbortsOnMissingPublic | src/store.rs:74-92 | a missing public secret makes handle_delete fail before the private secret is touched |
| Store.CleanShrinks | src/secret.rs:87-118 | cleaning creates no secret and no field, and the cleaned secret lacks the named fields |
| Store.UnpublishClears | src/store.rs:74-83 | after a successful unpublish no listed public secret holds the key field, and nothing grew |
| Store.RemoveClears | src/store.rs:65-95 | after a successful delete no public secret holds `<service>.pem` and the private secret lacks `private.pem` |
| Store.CleanKeeps | src/secret.rs:87-118 | clean keeps every field it is not asked to remove, in every secret, whatever its outcome |
| Store.UnpublishKeeps | src/store.rs:74-83 | unpublishing one service's key keeps every other field, the other services' keys in the shared public secrets included, whatever its outcome |
| Store.RemoveKeeps | src/store.rs:65-95 | handle_delete keeps every field other than the service's `<service>.pem` and `private.pem`, whatever its outcome |
| Store.RemoveKeysFrame | src/store.rs:65-95 | handle_delete patches no deployment |
| Store.UpdateConfined | src/secret.rs:46-64 | updating an allowed secret with a keypair's own fields keeps every secret allowed and holding only that keypair's fields, whatever the outcome |
| Store.CleanConfined | src/secret.rs:87-118 | cleaning one key field keeps confinement and releases that secret for the field |
| Store.PublishConfined | src/store.rs:46-59 | publishing keeps confinement, whatever the outcome |
| Store.UnpublishConfined | src/store.rs:74-83 | a successful unpublish keeps confinement and releases every listed public secret |
| Store.AddThenRemoveLeavesNothing | src/store.rs:28-95 | from a cluster with no secrets, any add (complete, partial or failed) followed by a successful delete leaves no secret |
| Mounter.MakePatch | src/mounter.rs:86-102 | two volumes, the private secret's then the public secret's, each named after its secret |
| Mounter.MakeContainersPatch | src/mounter.rs:62-84 | fails iff there is no pod spec; otherwise every container, in order, keeps its name and image and gets exactly the private and public mounts at the configured paths |
| Mounter.Mount | src/mounter.rs:33-60 | the patch targets the deployment by name in its namespace or "default", carries the volume and container patches, and fails iff there is no pod spec |
| Mounter.MountsReferToVolumes | src/mounter.rs:38-47 | every container mount names a volume of the same patch |
| State.GetServiceName | src/state.rs:147-152 | succeeds iff the annotation is present; the service name is the deployment's name, not the annotation's value |
| State.Controller.constructor | src/state.rs:75-85 | the counter starts at zero and `last_event` at the current time |
| State.Controller.HandleEvent | src/state.rs:112-145 | the requests, result, counter and `last_event` are those of `Handle` |
| State.Controller.Poll | src/state.rs:100-109 | the loop over the stream equals `Run`: each event is handled, event errors are ignored, and a stream error ends the loop |
| State.HandleUnannotated | src/state.rs:114-135 | an unannotated Added or Deleted deployment fails with nothing changed |
| State.HandleAddedOk | src/state.rs:114-131 | a successful Added event generated 2048-bit keys for the deployment, stored them, sent the mount patch exactly when mounting is on, counted once and set `last_event` |
| State.HandleDeletedOk | src/state.rs:132-139 | a successful Deleted event ran handle_delete for the deployment, sent no patch, counted once and set `last_event` |
| State.HandleOther | src/state.rs:140-144 | any other event only sets `last_event` |
| State.HandleFailureKeepsClock | src/state.rs:112-145 | a failed event leaves the counter and `last_event` unchanged |
| State.HandleCounter | src/state.rs:130-138 | the counter grows by one exactly for a successful Added or Deleted event |
| State.MountRepeatable | src/state.rs:121-128 | two successful Added events for one deployment send the same patch twice |
| State.HandleIgnoresAnnotationAndBits | src/state.rs:24-25 | the annotation and key-size settings do not affect handling |
| State.PublishReadsSecretsOnly | src/store.rs:46-59 | publishing reads only the `secrets` settings |
| State.UnpublishReadsSecretsOnly | src/store.rs:74-83 | unpublishing reads only the `secrets` settings |
| State.RunMonotone | src/state.rs:100-109 | the counter never decreases over a poll |
| State.RunContinues | src/state.rs:102-106 | failed events do not stop the loop; the result is Ok when every item is an event |
| State.RunStopsAtStreamError | src/state.rs:103 | the loop returns an error at the first stream error, after handling exactly the events before it |
| State.RunResult | src/state.rs:100-109 | poll returns Ok iff the stream holds no error item |

## Left out

- `src/main.rs` and `src/lib.rs` (web server, `/metrics` and `/` endpoints, logger setup) are outside the model.
- Loading settings from files and the environment (`src/settings.rs`) is outside the model. Settings are a plain value.
- RSA generation (`src/rsa_generator.rs`), `utils::secret_name`, base64 encoding and `str::from_utf8` are not part of this model. They are opaque functions in `Collaborators.Env`. The generator is a fixed function of (bits, name), so its randomness is not modelled.
- The informer (`Informer::new(...).timeout(15).init()`, its resource version and polling) is modelled only as a finite sequence of stream items. A failed `poll` is equivalent to a stream whose first item is an error.
- The `init` loop, which restarts `poll` forever and exits the process on error, is not modelled: it never terminates, and process exit is outside Dafny.
- `Arc<RwLock<…>>`, concurrent readers of the state and lock poisoning are not modelled. The controller is single-threaded here.
- The Prometheus counter is modelled as the unbounded `handledEvents: nat`. Its 64-bit overflow is not modelled.
- `last_event` is an opaque `Time` (an `int`) supplied with each event. The clock is not modelled.
- JSON serialisation of secrets and patches, and the `apiVersion`, `kind`, `type: Opaque` and `metadata` fields of the request bodies, are not modelled. Only the `data` map and the patch contents are.
- How the API server applies a deployment patch is not modelled. Accepted patches are recorded in order, and the model reasons only about which patch is sent.
- Error messages are modelled as error kinds (`Common.Error`), not as text.
- Secret.UpdateFailureEffect, Secret.CleanFailureUnchanged: a failed request is assumed to have had no effect on the server. A request the server applied but whose reply was lost or timed out is not modelled, so these lemmas do not cover a PATCH, PUT or DELETE that took effect and still made `update` or `clean` return an error.
- Transport failures are modelled as a fixed set of failing request indices. Server-side conflicts other than AlreadyExists and NotFound are not modelled.
- Secret and key names are not validated. A service named `private` makes `<service>.pem` coincide with `private.pem`.
- Store.AddEstablishes, Store.AddNoRollback: say nothing about `private.pem` when the service is named `private` and its private secret is also one of the public secrets. In that case the public write really does overwrite `private.pem` with the public key.
- Store.RemoveAbortsOnMissingPublic: requires that the private secret is not also one of the public secrets, since a clash between the two names would let the private clean run on a public secret.
