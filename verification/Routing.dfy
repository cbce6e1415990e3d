/** Picking, leasing and returning a backend, and the request that must return what it took exactly once. */
module Routing {
  import opened Wrappers
  import opened Dicts
  import opened Fleet
  import opened Registry
  import Limiter
  import Gateway

  /** How a call to the registry service ends: a lost call took effect although the caller sees an error. */
  datatype Call = Answered | Lost | Unreached

  /** What `ensure_allocation` comes back with: 403 and 409 refuse, every other error is nothing. */
  datatype Allocation = Refused | Nothing | Given(instance: Instance)

  datatype Route = NoBackend | Upstream | Backend(id: string)

  /** The lease counts that the gateway reasons about. */
  function LeaseCounts(d: Instances): map<string, int> {
    map id | id in d.items :: d.items[id].active
  }

  /** `adjust_active_requests` on the records is the gateway's step on the counts. */
  lemma {:induction false} AdjustCounts(d: Instances, id: string, delta: int, now: Instant)
    requires id in d.items
    ensures LeaseCounts(d.Put(id, d.items[id].Adjusted(delta, now))) == Gateway.Adjust(LeaseCounts(d), id, delta)
  {
  }

  /** What a resolution does to the lease counts. */
  function Taken(counts: map<string, int>, route: Route): map<string, int> {
    if route.Backend? then Gateway.Adjust(counts, route.id, 1) else counts
  }

  // ---- choosing ---------------------------------------------------------------------------

  predicate IsReady(i: Instance, reachable: Instance -> bool) { i.state.Ready? && reachable(i) }

  predicate Serves(i: Instance, model: string, reachable: Instance -> bool) {
    i.model == model && IsReady(i, reachable)
  }

  /** A serving instance with the fewest active requests, the earliest listed of these. */
  ghost predicate LeastBusy(listed: seq<Instance>, model: string, reachable: Instance -> bool, k: nat) {
    && k < |listed| && Serves(listed[k], model, reachable)
    && (forall j | 0 <= j < |listed| && Serves(listed[j], model, reachable) ::
          listed[k].active <= listed[j].active && (j < k ==> listed[k].active < listed[j].active))
  }

  lemma {:induction false} LeastBusyUnique(listed: seq<Instance>, model: string, reachable: Instance -> bool, j: nat,
                                           k: nat)
    requires LeastBusy(listed, model, reachable, j) && LeastBusy(listed, model, reachable, k)
    ensures j == k
  {
    assert Serves(listed[j], model, reachable) && Serves(listed[k], model, reachable);
  }

  /** `choose_backend`. */
  method ChooseBackend(listed: seq<Instance>, model: string, reachable: Instance -> bool)
    returns (chosen: Option<Instance>)
    ensures chosen.None? <==> forall j | 0 <= j < |listed| :: !Serves(listed[j], model, reachable)
    ensures chosen.None? <==>
      forall i | i in listed :: !(i.model == model && i.state == BackendState.Ready && reachable(i))
    ensures chosen.Some? ==>
      && chosen.value in listed && chosen.value.model == model && chosen.value.state == BackendState.Ready
      && reachable(chosen.value)
    ensures chosen.Some? ==> exists k: nat :: LeastBusy(listed, model, reachable, k) && chosen.value == listed[k]
  {
    chosen := None;
    ghost var best := 0;
    for n := 0 to |listed|
      invariant chosen.None? ==> forall j | 0 <= j < n :: !Serves(listed[j], model, reachable)
      invariant chosen.Some? ==> LeastBusy(listed[..n], model, reachable, best) && chosen.value == listed[best]
    {
      if Serves(listed[n], model, reachable) && (chosen.None? || listed[n].active < chosen.value.active) {
        chosen, best := Some(listed[n]), n;
      }
    }
    assert listed[..|listed|] == listed;
  }

  /** The instances of a model are within one request of each other. */
  ghost predicate Balanced(listed: seq<Instance>, model: string, reachable: Instance -> bool) {
    forall j, k | 0 <= j < |listed| && 0 <= k < |listed| && Serves(listed[j], model, reachable)
      && Serves(listed[k], model, reachable) ::
      listed[j].active <= listed[k].active + 1
  }

  /** Leasing the least busy instance keeps the load balanced; leasing any other one may not. */
  lemma {:induction false} LeastBusyBalances(listed: seq<Instance>, model: string, reachable: Instance -> bool, k: nat,
                                             now: Instant)
    requires k < |listed| && Serves(listed[k], model, reachable) && listed[k].active >= 0
    requires Serves(listed[k].Adjusted(1, now), model, reachable)
    requires Balanced(listed, model, reachable)
    ensures Balanced(listed[k := listed[k].Adjusted(1, now)], model, reachable) <==>
      forall j | 0 <= j < |listed| && Serves(listed[j], model, reachable) :: listed[k].active <= listed[j].active
  {
    var after := listed[k := listed[k].Adjusted(1, now)];
    if Balanced(after, model, reachable) {
      forall j | 0 <= j < |listed| && Serves(listed[j], model, reachable) ensures listed[k].active <= listed[j].active {
        assert Serves(after[j], model, reachable) && Serves(after[k], model, reachable);
      }
    }
  }

  // ---- resolving --------------------------------------------------------------------------

  /** The instance a resolution tries to lease: a listed one, else a ready one that allocation gave. */
  ghost predicate Target(listed: seq<Instance>, model: string, reachable: Instance -> bool, allocation: Allocation,
                         id: string) {
    || (exists k: nat :: LeastBusy(listed, model, reachable, k) && listed[k].id == id)
    || (NoneServes(listed, model, reachable) && allocation.Given? && IsReady(allocation.instance, reachable)
        && allocation.instance.id == id)
  }

  ghost predicate NoneServes(listed: seq<Instance>, model: string, reachable: Instance -> bool) {
    forall j | 0 <= j < |listed| :: !Serves(listed[j], model, reachable)
  }

  /** The lease call as the caller sees it: it got an answer, and that answer is not "unknown instance". */
  ghost predicate LeaseAnswered(d: Instances, id: string, lease: Call) { lease.Answered? && id in d.items }

  class BackendResolver {
    const routing: bool
    const required: bool
    const registry: BackendRegistry

    constructor (routing: bool, required: bool, registry: BackendRegistry)
      ensures this.routing == routing && this.required == required && this.registry == registry
    {
      this.routing, this.required, this.registry := routing, required, registry;
    }

    function Fallback(): Route { if required then NoBackend else Upstream }

    /**
     * `resolve`. `listed` is the registry as it was when it was listed, None when that call failed;
     * by the time of the lease the registry may have moved on.
     */
    method Resolve(model: string, reachable: Instance -> bool, listed: Option<seq<Instance>>, allocation: Allocation,
                   lease: Call, now: Instant) returns (route: Route)
      requires registry.Valid()
      modifies registry
      ensures registry.Valid()
      ensures route.Backend? <==>
        (routing && listed.Some?
         && exists id ::
           Target(listed.value, model, reachable, allocation, id) && LeaseAnswered(old(registry.instances), id, lease))
      ensures route.Backend? ==> Target(listed.value, model, reachable, allocation, route.id)
      ensures route.NoBackend? <==>
        (routing && !route.Backend?
         && (required || (listed.Some? && NoneServes(listed.value, model, reachable) && allocation.Refused?)))
      // a lost answer leaks: the request goes elsewhere and nobody will return the lease that was counted
      ensures lease.Lost? && routing && listed.Some? ==>
        forall id | Target(listed.value, model, reachable, allocation, id) && id in old(registry.instances).items ::
          LeaseCounts(registry.instances) == Gateway.Adjust(LeaseCounts(old(registry.instances)), id, 1)
      // that is the only leak: otherwise the counters rise by the lease that is reported, or stand still
      ensures LeaseCounts(registry.instances) == Taken(LeaseCounts(old(registry.instances)), route) <==>
        !(routing && listed.Some? && lease.Lost?
          && exists id :: Target(listed.value, model, reachable, allocation, id) && id in old(registry.instances).items)
      ensures !(routing && listed.Some? && !lease.Unreached?
                && exists id ::
                  Target(listed.value, model, reachable, allocation, id) && id in old(registry.instances).items) ==>
        registry.instances == old(registry.instances)
      ensures !lease.Lost? ==>
        LeaseCounts(registry.instances) == Taken(LeaseCounts(old(registry.instances)), route)
      ensures !route.Backend? && !lease.Lost? ==> registry.instances == old(registry.instances)
      ensures route.Backend? ==>
        (route.id in old(registry.instances).items
         && registry.instances == old(registry.instances).Put(route.id,
                                                              old(registry.instances).items[route.id].Adjusted(1, now)))
    {
      if !routing { return Upstream; }
      if listed.None? { return Fallback(); }
      hide Target, LeaseCounts, Gateway.Adjust, NoneServes, Dict.Valid, NoDuplicates, Dict.Put;
      var backend, refused := FindBackend(model, reachable, listed.value, allocation);
      if refused { return NoBackend; }
      if backend.None? { return Fallback(); }
      ghost var before := registry.instances;
      var leased := LeaseBackend(backend.value, lease, now);
      if backend.value in before.items { AdjustCounts(before, backend.value, 1, now); }
      if !leased { return Fallback(); }
      return Backend(backend.value);
    }

    /** The lookup, and the allocation when nothing serves: the one instance to lease, if there is one. */
    method FindBackend(model: string, reachable: Instance -> bool, listed: seq<Instance>, allocation: Allocation)
      returns (backend: Option<string>, refused: bool)
      ensures refused <==> NoneServes(listed, model, reachable) && allocation.Refused?
      ensures refused ==> backend == None
      ensures forall id :: Target(listed, model, reachable, allocation, id) <==> backend == Some(id)
    {
      var chosen := ChooseBackend(listed, model, reachable);
      if chosen.Some? {
        OneTarget(listed, model, reachable, allocation, chosen.value.id);
        return Some(chosen.value.id), false;
      }
      if !allocation.Given? || !IsReady(allocation.instance, reachable) { return None, allocation.Refused?; }
      OneTarget(listed, model, reachable, allocation, allocation.instance.id);
      return Some(allocation.instance.id), false;
    }

    /** The lease call; an unknown instance answers with an error. */
    method LeaseBackend(id: string, lease: Call, now: Instant) returns (leased: bool)
      requires registry.Valid()
      modifies registry
      ensures registry.Valid()
      ensures leased <==> LeaseAnswered(old(registry.instances), id, lease)
      ensures leased <==> lease.Answered? && id in old(registry.instances).items
      ensures registry.instances == if !lease.Unreached? && id in old(registry.instances).items
        then old(registry.instances).Put(id, old(registry.instances).items[id].Adjusted(1, now))
          else old(registry.instances)
    {
      leased := false;
      if !lease.Unreached? {
        var adjusted := registry.AdjustActiveRequests(id, 1, now);
        leased := lease.Answered? && adjusted.Some?;
      }
    }

    /** `release`: errors are logged and forgotten. */
    method Release(lease: Option<string>, call: Call, now: Instant)
      requires registry.Valid()
      modifies registry
      ensures registry.Valid()
      ensures registry.instances ==
        if lease.None? || call.Unreached? || lease.value !in old(registry.instances).items then old(registry.instances)
        else old(registry.instances).Put(lease.value, old(registry.instances).items[lease.value].Adjusted(-1, now))
    {
      if lease.None? || call.Unreached? { return; }
      var _ := registry.AdjustActiveRequests(lease.value, -1, now);
    }
  }

  /** A lost answer at a registry with one idle backend: the request goes upstream, and one lease stays counted. */
  method LostAnswerLeaks(idle: Instance, reachable: Instance -> bool, now: Instant)
    returns (route: Route, counts: map<string, int>)
    requires idle.state.Ready? && idle.active == 0 && reachable(idle)
    ensures route == Upstream && counts == map[idle.id := 1]
  {
    var registry := new BackendRegistry();
    registry.Upsert(idle, false, now);
    var resolver := new BackendResolver(true, false, registry);
    var listed := registry.instances.Values();
    assert listed == [idle] by {
      var d: Instances := Empty();
      assert d.Values() == [];
      d.ValuesPut(idle.id, idle);
    }
    assert LeastBusy(listed, idle.model, reachable, 0) && listed[0].id == idle.id;
    assert Target(listed, idle.model, reachable, Nothing, idle.id);
    route := resolver.Resolve(idle.model, reachable, Some(listed), Nothing, Lost, now);
    counts := LeaseCounts(registry.instances);
  }

  lemma {:induction false} OneTarget(listed: seq<Instance>, model: string, reachable: Instance -> bool,
                                     allocation: Allocation, id: string)
    requires Target(listed, model, reachable, allocation, id)
    ensures forall x :: Target(listed, model, reachable, allocation, x) <==> x == id
  {
    forall x | Target(listed, model, reachable, allocation, x) ensures x == id {
      assert NoneServes(listed, model, reachable) ==> forall k: nat :: !LeastBusy(listed, model, reachable, k);
      forall j: nat, k: nat | LeastBusy(listed, model, reachable, j) && LeastBusy(listed, model, reachable, k)
        ensures j == k
      {
        LeastBusyUnique(listed, model, reachable, j, k);
      }
    }
  }

  // ---- one request ------------------------------------------------------------------------

  /** A forwarded request between its acquisition and its end: what it holds and whether it gave it back. */
  class Forwarding {
    const resolver: BackendResolver
    const limiter: Limiter.ModelLimiter
    ghost const caller: nat
    var lease: Option<string>
    var released: bool

    ghost predicate Valid() reads this, resolver.registry { resolver.registry.Valid() }

    /** It still holds its slot. */
    ghost predicate Holding() reads this, limiter { !released && caller in limiter.holders && limiter.View().Exact() }

    constructor (resolver: BackendResolver, limiter: Limiter.ModelLimiter, lease: Option<string>, ghost caller: nat)
      ensures this.resolver == resolver && this.limiter == limiter && this.lease == lease && this.caller == caller
        && !released
    {
      this.resolver, this.limiter, this.lease, this.caller, released := resolver, limiter, lease, caller, false;
    }

    /** `release_once`: the first call gives back the lease and then the slot, later calls do nothing. */
    method ReleaseOnce(call: Call, now: Instant)
      requires Valid() && (released || Holding())
      modifies this`released, resolver.registry, limiter
      ensures Valid() && released
      ensures old(released) ==>
        limiter.View() == old(limiter.View()) && resolver.registry.instances == old(resolver.registry.instances)
      ensures !old(released) ==>
        && limiter.View() == Limiter.Apply(old(limiter.View()), Limiter.Leave(caller))
        && limiter.activeRequests == old(limiter.activeRequests) - 1
        && LeaseCounts(resolver.registry.instances) ==
             if lease.None? || call.Unreached? then LeaseCounts(old(resolver.registry.instances))
             else Gateway.Adjust(LeaseCounts(old(resolver.registry.instances)), lease.value, -1)
    {
      if released { return; }
      released := true;
      Limiter.ReleaseNeverClamps(limiter.View(), caller);
      if lease.Some? && lease.value in resolver.registry.instances.items {
        AdjustCounts(resolver.registry.instances, lease.value, -1, now);
      }
      resolver.Release(lease, call, now);
      limiter.Release(caller);
    }
  }
}
