/**
 * The controller: filters deployment events on the service annotation, provisions or removes
 * the keypair's secrets, optionally mounts them, and keeps an activity counter and the time of
 * the last event it completed.
 */
module State {
  import opened Common
  import opened Kube
  import opened Cluster
  import opened Settings
  import opened Collaborators
  import opened Secret
  import opened Store
  import opened Mounter

  /** Both are fixed in the code; the `annotation` and `rsa.bits` settings are never read. */
  const AnnotationKey := "career.evrone.com/service"
  const RsaBits: nat := 2048

  /** `get_service_name`: succeeds exactly for annotated deployments and yields the deployment's
      own name, not the annotation's value. */
  function GetServiceName(deployment: Deployment): (r: Result<string>)
    ensures r.Ok? <==> AnnotationKey in deployment.annotations
    ensures r.Ok? ==> r.value == deployment.name
    ensures r.Err? ==> r.error == NotAnnotated(deployment.name)
  {
    if AnnotationKey in deployment.annotations then Ok(deployment.name) else Err(NotAnnotated(deployment.name))
  }

  /** The cluster as the controller sees it, with the `handled_events` counter and `last_event`. */
  datatype ControllerState = ControllerState(api: ApiState, handledEvents: nat, lastEvent: Time)

  datatype Handled = Handled(result: Result<()>, state: ControllerState)

  /** Counter and timestamp once an event has gone through without error. */
  function Finish(c: ControllerState, counted: bool, now: Time): ControllerState {
    c.(handledEvents := if counted then c.handledEvents + 1 else c.handledEvents, lastEvent := now)
  }

  /** `handle_event`: the first error returns at once, skipping the counter and the timestamp. */
  function Handle(c: ControllerState, config: Settings, env: Env, event: WatchEvent, now: Time): Handled {
    match event
    case Added(deployment) => HandleAdded(c, config, env, deployment, now)
    case Deleted(deployment) => HandleDeleted(c, config, env, deployment, now)
    case _ => Handled(Ok(()), Finish(c, false, now))
  }

  function HandleAdded(c: ControllerState, config: Settings, env: Env, deployment: Deployment, now: Time): Handled {
    match GetServiceName(deployment)
    case Err(e) => Handled(Err(e), c)
    case Ok(serviceName) =>
      match GenerateKeys(env, RsaBits, serviceName)
      case None => Handled(Err(KeyGeneration), c)
      case Some(generator) =>
        var added := AddKeys(c.api, config, env, deployment.namespace, generator);
        if added.result.Err? then Handled(added.result, c.(api := added.state))
        else if !config.volumes.mount then Handled(Ok(()), Finish(c.(api := added.state), true, now))
        else MountAfterAdd(c.(api := added.state), config, env, deployment, now)
  }

  function MountAfterAdd(c: ControllerState, config: Settings, env: Env, deployment: Deployment, now: Time): Handled {
    match Mount(deployment, config, env.secretName)
    case Err(e) => Handled(Err(e), c)
    case Ok(request) =>
      var patched := PatchDeployment(c.api, request);
      if patched.result.Err? then Handled(patched.result, c.(api := patched.state))
      else Handled(Ok(()), Finish(c.(api := patched.state), true, now))
  }

  function HandleDeleted(c: ControllerState, config: Settings, env: Env, deployment: Deployment, now: Time): Handled {
    match GetServiceName(deployment)
    case Err(e) => Handled(Err(e), c)
    case Ok(serviceName) =>
      var removed := RemoveKeys(c.api, config, env, deployment.namespace, serviceName);
      if removed.result.Err? then Handled(removed.result, c.(api := removed.state))
      else Handled(Ok(()), Finish(c.(api := removed.state), true, now))
  }

  /** One item of the informer's stream: an event, with the clock reading taken after handling
      it, or an error. */
  datatype StreamItem = Delivered(event: WatchEvent, now: Time) | StreamError

  /** `poll`: handle every event in order, ignoring their errors, until the stream ends (`Ok`) or
      yields an error (`Err`). */
  function Run(c: ControllerState, config: Settings, env: Env, items: seq<StreamItem>): Handled
    decreases |items|
  {
    if items == [] then Handled(Ok(()), c)
    else
      match items[0]
      case StreamError => Handled(Err(StreamFailure), c)
      case Delivered(event, now) => Run(Handle(c, config, env, event, now).state, config, env, items[1..])
  }

  class Controller {
    const config: Settings
    const env: Env
    const api: Api
    const store: Store
    var handledEvents: nat
    var lastEvent: Time

    ghost predicate Valid() {
      store.client == api && store.config == config && store.env == env
    }

    function State(): ControllerState
      reads this, api
    {
      ControllerState(api.State(), handledEvents, lastEvent)
    }

    /** `Controller::new`: a fresh counter, and `last_event` set to the current time. */
    constructor (api: Api, config: Settings, env: Env, now: Time)
      ensures Valid()
      ensures this.api == api && this.config == config && this.env == env
      ensures handledEvents == 0 && lastEvent == now
    {
      this.config := config;
      this.env := env;
      this.api := api;
      this.store := new Store(api, config, env);
      this.handledEvents := 0;
      this.lastEvent := now;
    }

    method HandleEvent(event: WatchEvent, now: Time) returns (r: Result<()>)
      requires Valid()
      modifies this, api
      ensures Handled(r, State()) == Handle(old(State()), config, env, event, now)
    {
      match event {
        case Added(deployment) =>
          var serviceName := GetServiceName(deployment);
          if serviceName.Err? {
            return Err(serviceName.error);
          }
          var generator := GenerateKeys(env, RsaBits, serviceName.value);
          if generator.None? {
            return Err(KeyGeneration);
          }
          r := store.HandleAdd(deployment.namespace, generator.value);
          if r.Err? {
            return;
          }
          if config.volumes.mount {
            var request := Mount(deployment, config, env.secretName);
            if request.Err? {
              return Err(request.error);
            }
            r := api.ApplyPatch(request.value);
            if r.Err? {
              return;
            }
          }
          handledEvents := handledEvents + 1;
        case Deleted(deployment) =>
          var serviceName := GetServiceName(deployment);
          if serviceName.Err? {
            return Err(serviceName.error);
          }
          r := store.HandleDelete(deployment.namespace, serviceName.value);
          if r.Err? {
            return;
          }
          handledEvents := handledEvents + 1;
        case Modified(_) =>
        case WatchError =>
      }
      lastEvent := now;
      r := Ok(());
    }

    method Poll(items: seq<StreamItem>) returns (r: Result<()>)
      requires Valid()
      modifies this, api
      ensures Handled(r, State()) == Run(old(State()), config, env, items)
    {
      for i := 0 to |items|
        invariant Run(old(State()), config, env, items) == Run(State(), config, env, items[i..])
      {
        assert items[i..][0] == items[i] && items[i..][1..] == items[i + 1..];
        match items[i] {
          case StreamError =>
            return Err(StreamFailure);
          case Delivered(event, now) =>
            // a failed event is only logged
            var _ := HandleEvent(event, now);
        }
      }
      r := Ok(());
    }
  }

  // Properties of `handle_event`

  /** An unannotated deployment is dropped at once: no secret request, no patch, and neither the
      counter nor `last_event` moves. */
  lemma HandleUnannotated(c: ControllerState, config: Settings, env: Env, event: WatchEvent, now: Time)
    requires event.Added? || event.Deleted?
    requires AnnotationKey !in event.deployment.annotations
    ensures Handle(c, config, env, event, now) == Handled(Err(NotAnnotated(event.deployment.name)), c)
  {
  }

  /** A successful Added event generated a 2048-bit keypair for the deployment's name, stored it
      through `handle_add`, sent the mount patch exactly when mounting is configured, counted the
      event once and recorded the time. */
  lemma HandleAddedOk(c: ControllerState, config: Settings, env: Env, deployment: Deployment, now: Time)
    requires Handle(c, config, env, Added(deployment), now).result.Ok?
    ensures AnnotationKey in deployment.annotations
    ensures GenerateKeys(env, RsaBits, deployment.name).Some?
    ensures var h := Handle(c, config, env, Added(deployment), now).state;
      var added := AddKeys(c.api, config, env, deployment.namespace, GenerateKeys(env, RsaBits, deployment.name).value);
      && added.result.Ok?
      && h.api.secrets == added.state.secrets
      && (config.volumes.mount ==> Mount(deployment, config, env.secretName).Ok?)
      && h.api.patches == c.api.patches +
           (if config.volumes.mount then [Mount(deployment, config, env.secretName).value] else [])
      && h.handledEvents == c.handledEvents + 1
      && h.lastEvent == now
  {
    AddKeysFrame(c.api, config, env, deployment.namespace, GenerateKeys(env, RsaBits, deployment.name).value);
  }

  /** A successful Deleted event removed the keys through `handle_delete` for the deployment's
      namespace and name, generated and mounted nothing, counted the event once and recorded the time. */
  lemma HandleDeletedOk(c: ControllerState, config: Settings, env: Env, deployment: Deployment, now: Time)
    requires Handle(c, config, env, Deleted(deployment), now).result.Ok?
    ensures AnnotationKey in deployment.annotations
    ensures var h := Handle(c, config, env, Deleted(deployment), now).state;
      var removed := RemoveKeys(c.api, config, env, deployment.namespace, deployment.name);
      && removed.result.Ok?
      && h.api == removed.state
      && h.api.patches == c.api.patches
      && h.handledEvents == c.handledEvents + 1
      && h.lastEvent == now
  {
    RemoveKeysFrame(c.api, config, env, deployment.namespace, deployment.name);
  }

  /** Any other event changes nothing but `last_event`. */
  lemma HandleOther(c: ControllerState, config: Settings, env: Env, event: WatchEvent, now: Time)
    requires !event.Added? && !event.Deleted?
    ensures Handle(c, config, env, event, now) == Handled(Ok(()), c.(lastEvent := now))
  {
  }

  /** A failed event returns before the counter and `last_event` are written. */
  lemma HandleFailureKeepsClock(c: ControllerState, config: Settings, env: Env, event: WatchEvent, now: Time)
    requires Handle(c, config, env, event, now).result.Err?
    ensures Handle(c, config, env, event, now).state.handledEvents == c.handledEvents
    ensures Handle(c, config, env, event, now).state.lastEvent == c.lastEvent
  {
  }

  /** The counter moves by one exactly for a successful Added or Deleted event, and never down. */
  lemma HandleCounter(c: ControllerState, config: Settings, env: Env, event: WatchEvent, now: Time)
    ensures var h := Handle(c, config, env, event, now);
      h.state.handledEvents == c.handledEvents + (if h.result.Ok? && (event.Added? || event.Deleted?) then 1 else 0)
  {
  }

  /** Handling the same Added deployment twice in a row, successfully and with mounting on,
      sends the same patch twice. */
  lemma MountRepeatable(c: ControllerState, config: Settings, env: Env, deployment: Deployment, now: Time, later: Time)
    requires config.volumes.mount
    requires Handle(c, config, env, Added(deployment), now).result.Ok?
    requires Handle(Handle(c, config, env, Added(deployment), now).state, config, env, Added(deployment), later).result.Ok?
    ensures var twice := Handle(Handle(c, config, env, Added(deployment), now).state, config, env, Added(deployment), later).state;
      |twice.api.patches| == |c.api.patches| + 2 &&
      twice.api.patches[|c.api.patches|] == twice.api.patches[|c.api.patches| + 1]
  {
    var once := Handle(c, config, env, Added(deployment), now).state;
    HandleAddedOk(c, config, env, deployment, now);
    HandleAddedOk(once, config, env, deployment, later);
  }

  /** Only `secrets` and `volumes` of the settings are read: the annotation key and the key size
      come from constants, whatever the settings say. */
  lemma HandleIgnoresAnnotationAndBits(c: ControllerState, config: Settings, env: Env, event: WatchEvent, now: Time,
                                       annotation: string, bits: nat)
    ensures Handle(c, config.(annotation := annotation, rsa := Rsa(bits)), env, event, now)
         == Handle(c, config, env, event, now)
  {
    var other := config.(annotation := annotation, rsa := Rsa(bits));
    forall s: ApiState, generator: Generator, namespaces: seq<string>
      ensures Publish(s, other, env, generator, namespaces) == Publish(s, config, env, generator, namespaces)
    {
      PublishReadsSecretsOnly(s, config, other, env, generator, namespaces);
    }
    forall s: ApiState, keyName: string, namespaces: seq<string>
      ensures Unpublish(s, other, keyName, namespaces) == Unpublish(s, config, keyName, namespaces)
    {
      UnpublishReadsSecretsOnly(s, config, other, keyName, namespaces);
    }
  }

  lemma {:induction false} PublishReadsSecretsOnly(s: ApiState, config: Settings, other: Settings, env: Env,
                                                   generator: Generator, namespaces: seq<string>)
    requires other.secrets == config.secrets
    ensures Publish(s, other, env, generator, namespaces) == Publish(s, config, env, generator, namespaces)
    decreases |namespaces|
  {
    if namespaces != [] && env.fromUtf8(generator.publicKey).Some? {
      var written := UpdateSecret(s, PublicRef(config, namespaces[0]),
                                  map[KeyName(generator.name) := env.encode(env.fromUtf8(generator.publicKey).value)]);
      if written.result.Ok? {
        PublishReadsSecretsOnly(written.state, config, other, env, generator, namespaces[1..]);
      }
    }
  }

  lemma {:induction false} UnpublishReadsSecretsOnly(s: ApiState, config: Settings, other: Settings,
                                                     keyName: string, namespaces: seq<string>)
    requires other.secrets == config.secrets
    ensures Unpublish(s, other, keyName, namespaces) == Unpublish(s, config, keyName, namespaces)
    decreases |namespaces|
  {
    if namespaces != [] {
      var cleaned := CleanSecret(s, PublicRef(config, namespaces[0]), [keyName]);
      if cleaned.result.Ok? {
        UnpublishReadsSecretsOnly(cleaned.state, config, other, keyName, namespaces[1..]);
      }
    }
  }

  // Properties of `poll`

  /** The counter never decreases over a run of the loop. */
  lemma {:induction false} RunMonotone(c: ControllerState, config: Settings, env: Env, items: seq<StreamItem>)
    ensures Run(c, config, env, items).state.handledEvents >= c.handledEvents
    decreases |items|
  {
    if items != [] && items[0].Delivered? {
      var h := Handle(c, config, env, items[0].event, items[0].now);
      HandleCounter(c, config, env, items[0].event, items[0].now);
      RunMonotone(h.state, config, env, items[1..]);
    }
  }

  predicate AllDelivered(items: seq<StreamItem>) {
    forall j :: 0 <= j < |items| ==> items[j].Delivered?
  }

  /** Failed events do not stop the loop: after a run of delivered events, whatever their
      outcomes, the loop goes on with the next item from the state they left. */
  lemma {:induction false} RunContinues(c: ControllerState, config: Settings, env: Env, items: seq<StreamItem>, more: seq<StreamItem>)
    requires AllDelivered(items)
    ensures Run(c, config, env, items).result == Ok(())
    ensures Run(c, config, env, items + more) == Run(Run(c, config, env, items).state, config, env, more)
    decreases |items|
  {
    if items == [] {
      assert items + more == more;
    } else {
      assert (items + more)[0] == items[0] && (items + more)[1..] == items[1..] + more;
      var h := Handle(c, config, env, items[0].event, items[0].now);
      RunContinues(h.state, config, env, items[1..], more);
    }
  }

  /** The loop returns `Err` at the first stream error, after handling exactly the events before it. */
  lemma RunStopsAtStreamError(c: ControllerState, config: Settings, env: Env, items: seq<StreamItem>, k: nat)
    requires k < |items| && items[k].StreamError? && AllDelivered(items[..k])
    ensures Run(c, config, env, items) == Handled(Err(StreamFailure), Run(c, config, env, items[..k]).state)
  {
    assert items == items[..k] + items[k..];
    RunContinues(c, config, env, items[..k], items[k..]);
  }

  /** The loop ends with `Ok` exactly when the stream ends without an error item. */
  lemma {:induction false} RunResult(c: ControllerState, config: Settings, env: Env, items: seq<StreamItem>)
    ensures Run(c, config, env, items).result.Ok? <==> AllDelivered(items)
    decreases |items|
  {
    if items != [] && items[0].Delivered? {
      var h := Handle(c, config, env, items[0].event, items[0].now);
      RunResult(h.state, config, env, items[1..]);
      assert AllDelivered(items) <==> AllDelivered(items[1..]) by {
        if AllDelivered(items[1..]) {
          forall j | 0 <= j < |items| ensures items[j].Delivered? {
            if j > 0 { assert items[j] == items[1..][j - 1]; }
          }
        }
      }
    }
  }
}
