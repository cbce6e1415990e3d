/** The registry of backend instances: reserved memory per GPU, free host ports, and in-place updates. */
module Registry {
  import opened Wrappers
  import opened Seqs
  import opened Dicts
  import opened Fleet

  type Instances = Dict<string, Instance>

  // ---- memory -----------------------------------------------------------------------------

  function Occurrences(gpus: seq<string>, gpu: string): nat { multiset(gpus)[gpu] }

  /** What one instance holds on a GPU; a GPU that is listed twice counts twice. */
  function Holding(gpu: string): Instance -> int {
    (i: Instance) => if i.state.Reserved() then Occurrences(i.gpus, gpu) * i.reserved else 0
  }

  /** An active or an external backend holds its memory once for every listing of a GPU, any other holds none. */
  lemma {:induction false} HoldingIs(i: Instance, gpu: string)
    ensures Holding(gpu)(i) ==
      if i.state in {Starting, Warming, Ready, Draining, Stopping, External} then multiset(i.gpus)[gpu] * i.reserved
      else 0
  {
  }

  function ReservedOn(values: seq<Instance>, gpu: string): int { Sum(values, Holding(gpu)) }

  function Lookup(m: map<string, int>, gpu: string): int { if gpu in m then m[gpu] else 0 }

  // ---- ports ------------------------------------------------------------------------------

  function UsedPorts(values: seq<Instance>): (r: set<int>)
    ensures forall p :: p in r <==> exists i :: i in values && i.port == Some(p)
  {
    set i | i in values && i.port.Some? :: i.port.value
  }

  /** The least free port at or above the start. */
  ghost predicate NextPort(values: seq<Instance>, start: int, port: int) {
    && port >= start && port !in UsedPorts(values)
    && forall p | start <= p < port :: p in UsedPorts(values)
  }

  ghost predicate PortsUnique(d: Instances) {
    forall a, b | a in d.items && b in d.items && a != b && d.items[a].port.Some? :: d.items[a].port != d.items[b].port
  }

  /** The pigeonhole behind the search: a run of used ports is no longer than the set of them. */
  lemma {:induction false} UsedRun(used: set<int>, start: int, n: nat)
    requires forall p | start <= p < start + n :: p in used
    ensures n <= |used|
  {
    if n > 0 {
      var top := start + n - 1;
      UsedRun(used - {top}, start, n - 1);
    }
  }

  lemma {:induction false} NextPortUnique(values: seq<Instance>, start: int, p: int, q: int)
    requires NextPort(values, start, p) && NextPort(values, start, q)
    ensures p == q
  {
  }

  ghost predicate NoDuplicates(d: Instances) { d.Valid() && forall id | id in d.items :: d.items[id].id == id }

  predicate InState(i: Instance, model: string, ready: bool) {
    i.model == model && if ready then i.state.Ready? else i.state.Active()
  }

  /** `ready_for_model` and `active_for_model`, in registry order. */
  function ForModel(values: seq<Instance>, model: string, ready: bool): (r: seq<Instance>)
    ensures forall i :: i in r <==> i in values && InState(i, model, ready)
    ensures forall i :: i in r <==>
      && i in values && i.model == model
      && if ready then i.state == Ready else i.state in {Starting, Warming, Ready, Draining, Stopping}
    ensures |r| <= |values|
  {
    if values == [] then []
    else
      var n := |values| - 1;
      assert values == values[..n] + [values[n]];
      ForModel(values[..n], model, ready) + if InState(values[n], model, ready) then [values[n]] else []
  }

  class BackendRegistry {
    var instances: Instances

    ghost predicate Valid() reads this { NoDuplicates(instances) }

    constructor ()
      ensures Valid() && instances == Empty()
    {
      instances := Empty();
    }

    /** `reserved_vram_by_gpu`. */
    method ReservedVramByGpu() returns (reserved: map<string, int>)
      requires Valid()
      ensures forall g :: Lookup(reserved, g) == ReservedOn(instances.Values(), g)
    {
      var values := instances.Values();
      reserved := map[];
      for n := 0 to |values|
        invariant forall g :: Lookup(reserved, g) == ReservedOn(values[..n], g)
      {
        assert values[..n + 1] == values[..n] + [values[n]];
        forall g { SumAppend(values[..n], values[n], Holding(g)); }
        if values[n].state.Reserved() {
          reserved := AddHeld(reserved, values[n].gpus, values[n].reserved);
        }
      }
      assert values[..|values|] == values;
    }

    /** The inner loop: one instance's memory on each of its GPUs. */
    static method AddHeld(before: map<string, int>, gpus: seq<string>, amount: int) returns (reserved: map<string, int>)
      ensures forall g :: Lookup(reserved, g) == Lookup(before, g) + Occurrences(gpus, g) * amount
    {
      reserved := before;
      for n := 0 to |gpus|
        invariant forall g :: Lookup(reserved, g) == Lookup(before, g) + Occurrences(gpus[..n], g) * amount
      {
        assert gpus[..n + 1] == gpus[..n] + [gpus[n]];
        ghost var prior := reserved;
        reserved := reserved[gpus[n] := Lookup(reserved, gpus[n]) + amount];
        forall g ensures Lookup(reserved, g) == Lookup(before, g) + Occurrences(gpus[..n + 1], g) * amount {
          OneMore(gpus[..n], gpus[n], g, amount);
        }
      }
      assert gpus[..|gpus|] == gpus;
    }

    /** `next_host_port`: at most as many steps as there are used ports. */
    method NextHostPort(start: int) returns (port: int)
      requires Valid()
      ensures NextPort(instances.Values(), start, port)
      ensures port - start <= |UsedPorts(instances.Values())|
    {
      var values := instances.Values();
      var used := UsedPorts(values);
      hide UsedPorts, Dict.Values, Dict.Valid, NoDuplicates;
      var offset := 0;
      while start + offset in used
        invariant 0 <= offset <= |used|
        invariant forall p | start <= p < start + offset :: p in used
        decreases |used| - offset
      {
        UsedRun(used, start, offset + 1);
        offset := offset + 1;
      }
      port := start + offset;
    }

    method Upsert(instance: Instance, touch: bool, now: Instant)
      requires Valid()
      modifies this
      ensures Valid()
      ensures instances == old(instances).Put(instance.id, if touch then instance.(updatedAt := now) else instance)
    {
      instances := instances.Put(instance.id, if touch then instance.(updatedAt := now) else instance);
    }

    /** None is the `KeyError` for an unknown instance. */
    method MarkState(id: string, state: BackendState, now: Instant) returns (r: Option<Instance>)
      requires Valid()
      modifies this
      ensures Valid()
      ensures id !in old(instances).items ==> r == None && instances == old(instances)
      ensures id in old(instances).items ==>
        r == Some(old(instances).items[id].Marked(state, now)) && instances == old(instances).Put(id, r.value)
      ensures id in old(instances).items ==> r == Some(old(instances).items[id].(state := state, updatedAt := now))
    {
      if id !in instances.items { return None; }
      var marked := instances.items[id].Marked(state, now);
      instances := instances.Put(id, marked);
      r := Some(marked);
    }

    method MarkFailed(id: string, reason: string, now: Instant) returns (r: Option<Instance>)
      requires Valid()
      modifies this
      ensures Valid()
      ensures id !in old(instances).items ==> r == None && instances == old(instances)
      ensures id in old(instances).items ==>
        r == Some(old(instances).items[id].MarkedFailed(reason, now)) && instances == old(instances).Put(id, r.value)
      ensures id in old(instances).items ==>
        r == Some(old(instances).items[id].(state := Failed, failure := Some(reason), updatedAt := now))
    {
      if id !in instances.items { return None; }
      var marked := instances.items[id].MarkedFailed(reason, now);
      instances := instances.Put(id, marked);
      r := Some(marked);
    }

    method AdjustActiveRequests(id: string, delta: int, now: Instant) returns (r: Option<Instance>)
      requires Valid()
      modifies this
      ensures Valid()
      ensures id !in old(instances).items ==> r == None && instances == old(instances)
      ensures id in old(instances).items ==>
        r == Some(old(instances).items[id].Adjusted(delta, now)) && instances == old(instances).Put(id, r.value)
      ensures id in old(instances).items ==>
        var i := old(instances).items[id];
        r == Some(i.(active := if i.active + delta > 0 then i.active + delta else 0, updatedAt := now,
                     lastUsedAt := if delta > 0 then Some(now) else i.lastUsedAt))
    {
      if id !in instances.items { return None; }
      var adjusted := instances.items[id].Adjusted(delta, now);
      instances := instances.Put(id, adjusted);
      r := Some(adjusted);
    }

    method Remove(id: string)
      requires Valid()
      modifies this
      ensures Valid() && instances == old(instances).Remove(id)
    {
      instances := instances.Remove(id);
    }
  }

  lemma {:induction false} OneMore(gpus: seq<string>, last: string, g: string, amount: int)
    ensures Occurrences(gpus + [last], g) == Occurrences(gpus, g) + if g == last then 1 else 0
    ensures Occurrences(gpus + [last], g) * amount == Occurrences(gpus, g) * amount + if g == last then amount else 0
  {
  }

  // ---- how one update changes the sums ----------------------------------------------------

  lemma {:induction false} PutReserved(d: Instances, id: string, i: Instance, gpu: string)
    requires d.Valid()
    ensures ReservedOn(d.Put(id, i).Values(), gpu)
      == ReservedOn(d.Values(), gpu) - (if id in d.items then Holding(gpu)(d.items[id]) else 0) + Holding(gpu)(i)
  {
    d.ValuesPut(id, i);
    hide Holding;
    if id in d.items {
      var k := d.IndexOf(id);
      SumUpdate(d.Values(), k, i, Holding(gpu));
    } else {
      SumAppend(d.Values(), i, Holding(gpu));
    }
  }

  lemma {:induction false} RemoveReserved(d: Instances, id: string, gpu: string)
    requires d.Valid() && id in d.items
    ensures ReservedOn(d.Remove(id).Values(), gpu) == ReservedOn(d.Values(), gpu) - Holding(gpu)(d.items[id])
  {
    d.ValuesRemove(id);
    hide Holding;
    SumRemove(d.Values(), d.IndexOf(id), Holding(gpu));
  }

  lemma {:induction false} ValuesAre(d: Instances, id: string)
    requires d.Valid() && id in d.items
    ensures d.items[id] in d.Values()
  {
    d.ValuesMembers();
  }

  lemma {:induction false} RemovePort(d: Instances, id: string)
    requires d.Valid() && PortsUnique(d)
    ensures PortsUnique(d.Remove(id))
  {
  }

  /** A record that keeps the port it had, or takes a free one, or has none, keeps ports unique. */
  lemma {:induction false} PutPort(d: Instances, id: string, i: Instance)
    requires d.Valid() && PortsUnique(d)
    requires i.port.None? || i.port.value !in UsedPorts(d.Values()) || (id in d.items && i.port == d.items[id].port)
    ensures PortsUnique(d.Put(id, i))
  {
    d.ValuesMembers();
    hide UsedPorts, Dict.Values;
    forall a | a in d.items && i.port.Some? && i.port.value !in UsedPorts(d.Values())
      ensures d.items[a].port != i.port
    {
      assert d.items[a] in d.Values();
    }
  }
}
