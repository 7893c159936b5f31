/**
 * The Kubernetes API as the controller sees it: a store of secrets addressed by
 * (namespace, name), plus the deployment patches it has accepted. Every request may be
 * lost in transport; which ones are is fixed in advance by `rejected`, a set of request
 * indices, so that partial failure is deterministic and can be reasoned about.
 */
module Cluster {
  import opened Common
  import opened Kube

  datatype ApiState = ApiState(
    secrets: map<SecretRef, Data>,
    sent: nat,                    // number of requests issued so far
    patches: seq<PatchRequest>,   // deployment patches accepted, oldest first
    rejected: set<nat>)           // indices of the requests that fail in transport

  /** The outcome of a request together with the server state after it. */
  datatype Reply<T> = Reply(result: Result<T>, state: ApiState)

  /** The next request is one that the transport loses. */
  predicate Lost(s: ApiState) {
    s.sent in s.rejected
  }

  function Sent(s: ApiState): ApiState {
    s.(sent := s.sent + 1)
  }

  /** JSON Merge Patch (section 2 of RFC 7386) of a string map: listed keys are set, all others kept. */
  function MergeData(target: Data, patch: Data): (r: Data)
    ensures r.Keys == target.Keys + patch.Keys
    ensures forall k :: k in patch ==> r[k] == patch[k]
    ensures forall k :: k in target && k !in patch ==> r[k] == target[k]
  {
    target + patch
  }

  /** GET of a secret's data. */
  function GetSecret(s: ApiState, ref: SecretRef): Reply<Data> {
    if Lost(s) then Reply(Err(Transport), Sent(s))
    else if ref in s.secrets then Reply(Ok(s.secrets[ref]), Sent(s))
    else Reply(Err(NotFound), Sent(s))
  }

  /** POST of a secret with empty `data`. */
  function CreateSecret(s: ApiState, ref: SecretRef): Reply<()> {
    if Lost(s) then Reply(Err(Transport), Sent(s))
    else if ref in s.secrets then Reply(Err(AlreadyExists), Sent(s))
    else Reply(Ok(()), Sent(s).(secrets := s.secrets[ref := map[]]))
  }

  /** Merge PATCH of `{"data": fields}`. */
  function PatchSecret(s: ApiState, ref: SecretRef, fields: Data): Reply<()> {
    if Lost(s) then Reply(Err(Transport), Sent(s))
    else if ref !in s.secrets then Reply(Err(NotFound), Sent(s))
    else Reply(Ok(()), Sent(s).(secrets := s.secrets[ref := MergeData(s.secrets[ref], fields)]))
  }

  /** PUT of a secret whose `data` is exactly `data`. */
  function ReplaceSecret(s: ApiState, ref: SecretRef, data: Data): Reply<()> {
    if Lost(s) then Reply(Err(Transport), Sent(s))
    else if ref !in s.secrets then Reply(Err(NotFound), Sent(s))
    else Reply(Ok(()), Sent(s).(secrets := s.secrets[ref := data]))
  }

  /** DELETE of a secret. */
  function DeleteSecret(s: ApiState, ref: SecretRef): Reply<()> {
    if Lost(s) then Reply(Err(Transport), Sent(s))
    else if ref !in s.secrets then Reply(Err(NotFound), Sent(s))
    else Reply(Ok(()), Sent(s).(secrets := s.secrets - {ref}))
  }

  /** PATCH of a deployment; the request is recorded as an output of the controller. */
  function PatchDeployment(s: ApiState, request: PatchRequest): Reply<()> {
    if Lost(s) then Reply(Err(Transport), Sent(s))
    else Reply(Ok(()), Sent(s).(patches := s.patches + [request]))
  }

  /** The client handle (`Api<v1Secret>`, `Api<Deployment>`) and the server behind it. */
  class Api {
    var secrets: map<SecretRef, Data>
    var sent: nat
    var patches: seq<PatchRequest>
    const rejected: set<nat>

    function State(): ApiState
      reads this
    {
      ApiState(secrets, sent, patches, rejected)
    }

    constructor (secrets: map<SecretRef, Data>, rejected: set<nat>)
      ensures State() == ApiState(secrets, 0, [], rejected)
    {
      this.secrets := secrets;
      this.sent := 0;
      this.patches := [];
      this.rejected := rejected;
    }

    method Get(ref: SecretRef) returns (r: Result<Data>)
      modifies this
      ensures Reply(r, State()) == GetSecret(old(State()), ref)
    {
      if sent in rejected {
        r := Err(Transport);
      } else if ref in secrets {
        r := Ok(secrets[ref]);
      } else {
        r := Err(NotFound);
      }
      sent := sent + 1;
    }

    method Create(ref: SecretRef) returns (r: Result<()>)
      modifies this
      ensures Reply(r, State()) == CreateSecret(old(State()), ref)
    {
      if sent in rejected {
        r := Err(Transport);
      } else if ref in secrets {
        r := Err(AlreadyExists);
      } else {
        secrets := secrets[ref := map[]];
        r := Ok(());
      }
      sent := sent + 1;
    }

    method Patch(ref: SecretRef, fields: Data) returns (r: Result<()>)
      modifies this
      ensures Reply(r, State()) == PatchSecret(old(State()), ref, fields)
    {
      if sent in rejected {
        r := Err(Transport);
      } else if ref !in secrets {
        r := Err(NotFound);
      } else {
        secrets := secrets[ref := MergeData(secrets[ref], fields)];
        r := Ok(());
      }
      sent := sent + 1;
    }

    method Replace(ref: SecretRef, data: Data) returns (r: Result<()>)
      modifies this
      ensures Reply(r, State()) == ReplaceSecret(old(State()), ref, data)
    {
      if sent in rejected {
        r := Err(Transport);
      } else if ref !in secrets {
        r := Err(NotFound);
      } else {
        secrets := secrets[ref := data];
        r := Ok(());
      }
      sent := sent + 1;
    }

    method Delete(ref: SecretRef) returns (r: Result<()>)
      modifies this
      ensures Reply(r, State()) == DeleteSecret(old(State()), ref)
    {
      if sent in rejected {
        r := Err(Transport);
      } else if ref !in secrets {
        r := Err(NotFound);
      } else {
        secrets := secrets - {ref};
        r := Ok(());
      }
      sent := sent + 1;
    }

    method ApplyPatch(request: PatchRequest) returns (r: Result<()>)
      modifies this
      ensures Reply(r, State()) == PatchDeployment(old(State()), request)
    {
      if sent in rejected {
        r := Err(Transport);
      } else {
        patches := patches + [request];
        r := Ok(());
      }
      sent := sent + 1;
    }
  }
}
