/** Starting, initialising and stopping one backend. */
module Runtime {
  import opened Wrappers
  import opened Dicts
  import opened Fleet
  import opened Registry

  /** What the adapter was told and what came back: it may refuse, and LM Studio loads may not be ours. */
  datatype Start = Start(id: string, dryRun: bool, owned: bool, raises: bool, now: Instant)

  /** The record of a started backend: its GPU, its memory, its port, and the shape of its profile. */
  function NewInstance(profile: Profile, gpu: string, required: int, port: int, start: Start): Instance {
    Instance(start.id, profile.name, profile.backendModel, profile.runtime, [gpu],
             if start.dryRun then Ready else Starting,
             required, Some(port), 0, start.dryRun, start.owned, profile.context, profile.parallel, "",
             Some(profile.idleTtl),
             start.now, start.now, None, None)
  }

  /** `start_instance`; None when the adapter raises. Nothing is registered yet. */
  method StartInstance(registry: BackendRegistry, profile: Profile, gpu: string, required: int, start: Start)
    returns (r: Option<Instance>)
    requires registry.Valid()
    ensures start.raises ==> r == None
    ensures !start.raises ==>
      (r.Some? && r.value.port.Some?
       && NextPort(registry.instances.Values(), profile.portStart, r.value.port.value)
       && r.value == NewInstance(profile, gpu, required, r.value.port.value, start))
    ensures r.Some? ==>
      var i := r.value;
      && i.id == start.id && i.model == profile.name && i.backendModel == profile.backendModel
      && i.runtime == profile.runtime && i.gpus == [gpu] && i.reserved == required
      && i.state == (if start.dryRun then Ready else Starting) && i.active == 0
      && i.dryRun == start.dryRun && i.ownedLoad == start.owned
      && i.context == profile.context && i.parallel == profile.parallel
      && i.loadName == "" && i.idleTtl == Some(profile.idleTtl)
      && i.createdAt == i.updatedAt == start.now && i.lastUsedAt == None && i.failure == None
  {
    var port := registry.NextHostPort(profile.portStart);
    if start.raises { return None; }
    r := Some(NewInstance(profile, gpu, required, port, start));
  }

  datatype Health = Healthy | Unhealthy(reason: string) | WarmupFails(reason: string)

  /** How initialisation ends for an instance. */
  function Initialised(i: Instance, health: Health, now: Instant): Instance {
    if i.dryRun || health.Healthy? then i.Marked(Ready, now) else i.MarkedFailed(health.reason, now)
  }

  /** Writing one key twice is writing it once. */
  lemma {:induction false} PutTwice(d: Instances, id: string, a: Instance, b: Instance)
    requires d.Valid()
    ensures d.Put(id, a).Put(id, b) == d.Put(id, b)
  {
    assert d.items[id := a][id := b] == d.items[id := b];
  }

  /** `initialize_instance` without interruption: warming in between, then ready, or failed at either stage. */
  method InitializeInstance(registry: BackendRegistry, id: string, health: Health, now: Instant)
    returns (r: Instance, ghost between: Instances)
    requires registry.Valid() && id in registry.instances.items
    modifies registry
    ensures registry.Valid()
    ensures r == Initialised(old(registry.instances.items[id]), health, now)
    ensures var i := old(registry.instances.items[id]);
      r == if i.dryRun || health.Healthy? then i.(state := Ready, updatedAt := now)
      else i.(state := Failed, failure := Some(health.reason), updatedAt := now)
    ensures registry.instances == old(registry.instances).Put(id, r)
    // what others see while the warmup runs, unless it is never reached
    ensures var i := old(registry.instances.items[id]);
      between == if i.dryRun || health.Unhealthy? then old(registry.instances)
      else old(registry.instances).Put(id, i.(state := Warming, updatedAt := now))
  {
    ghost var d := registry.instances;
    between := d;
    var i := registry.instances.items[id];
    if i.dryRun {
      var ready := registry.MarkState(id, Ready, now);
      return ready.value, d;
    }
    if health.Unhealthy? {
      var failed := registry.MarkFailed(id, health.reason, now);
      return failed.value, d;
    }
    var warming := registry.MarkState(id, Warming, now);
    between := registry.instances;
    PutTwice(d, id, warming.value, Initialised(i, health, now));
    if health.WarmupFails? {
      var failed := registry.MarkFailed(id, health.reason, now);
      r := failed.value;
    } else {
      var ready := registry.MarkState(id, Ready, now);
      r := ready.value;
    }
  }

  /** How stopping ends: stopped, or failed when the adapter raises. */
  function StoppedAs(i: Instance, failure: Option<string>, now: Instant): Instance {
    match failure
    case None => i.Marked(Stopped, now)
    case Some(reason) => i.MarkedFailed(reason, now)
  }

  /** `stop_instance`: draining in between; either end gives the memory back. */
  method StopInstance(registry: BackendRegistry, id: string, failure: Option<string>, now: Instant)
    returns (r: Instance, ghost between: Instances)
    requires registry.Valid() && id in registry.instances.items
    modifies registry
    ensures registry.Valid()
    ensures r == StoppedAs(old(registry.instances.items[id]), failure, now) && !r.state.Reserved()
    ensures var i := old(registry.instances.items[id]);
      r == if failure.None? then i.(state := Stopped, updatedAt := now)
      else i.(state := Failed, failure := failure, updatedAt := now)
    ensures registry.instances == old(registry.instances).Put(id, r)
    // what the adapter finds while it stops the backend
    ensures between
      == old(registry.instances).Put(id, old(registry.instances.items[id]).(state := Draining, updatedAt := now))
  {
    ghost var d := registry.instances;
    var i := registry.instances.items[id];
    var draining := registry.MarkState(id, Draining, now);
    between := registry.instances;
    PutTwice(d, id, draining.value, StoppedAs(i, failure, now));
    if failure.None? {
      var stopped := registry.MarkState(id, Stopped, now);
      r := stopped.value;
    } else {
      var failed := registry.MarkFailed(id, failure.value, now);
      r := failed.value;
    }
  }
}
