/** Stopping idle backends down to the replica floor, and purging stale records. */
module Cleanup {
  import opened Wrappers
  import opened Dicts
  import opened Seqs
  import opened Fleet
  import opened Registry
  import opened Runtime

  /** `idle_reference`. */
  function Reference(i: Instance): Instant { if i.lastUsedAt.Some? then i.lastUsedAt.value else i.updatedAt }

  function IdleTime(i: Instance, now: Instant): int { Max(0, now - Reference(i)) }

  function Ttl(i: Instance, profile: Profile): int { if i.idleTtl.Some? then i.idleTtl.value else profile.idleTtl }

  /** Ready, unleased, and idle for at least its time to live. */
  predicate Stoppable(i: Instance, profile: Profile, now: Instant) {
    InState(i, profile.name, true) && i.active == 0 && IdleTime(i, now) >= Ttl(i, profile) * 1000000
  }

  /** Idle for at least `ttl` seconds since it was last used, or else since it last changed. */
  predicate IdleFor(i: Instance, ttl: int, now: Instant) {
    ttl <= 0 || now - (if i.lastUsedAt.Some? then i.lastUsedAt.value else i.updatedAt) >= ttl * 1000000
  }

  /** What makes a backend stoppable: its own time to live counts, or else that of its profile. */
  lemma {:induction false} StoppableIff(i: Instance, profile: Profile, now: Instant)
    ensures Stoppable(i, profile, now) <==>
      && i.model == profile.name && i.state == BackendState.Ready && i.active == 0
      && IdleFor(i, if i.idleTtl.Some? then i.idleTtl.value else profile.idleTtl, now)
  {
  }

  function Candidates(values: seq<Instance>, profile: Profile, now: Instant): (r: seq<Instance>)
    ensures forall i :: i in r <==> i in values && Stoppable(i, profile, now)
    ensures |r| <= |values|
  {
    if values == [] then []
    else
      var n := |values| - 1;
      assert values == values[..n] + [values[n]];
      Candidates(values[..n], profile, now) + if Stoppable(values[n], profile, now) then [values[n]] else []
  }

  predicate LongerIdle(a: Instance, b: Instance) { Reference(a) < Reference(b) }

  function Removable(values: seq<Instance>, profile: Profile): nat {
    Max(0, |ForModel(values, profile.name, true)| - profile.minReplicas)
  }

  /** The instances that are stopped for one profile: the longest idle candidates that may go. */
  function Victims(values: seq<Instance>, profile: Profile, queueLength: int, now: Instant): seq<Instance> {
    if queueLength > 0 then []
    else
      var sorted := Sort(Candidates(values, profile, now), LongerIdle);
      sorted[..Min(|sorted|, Removable(values, profile))]
  }

  /** Which stops fail in the adapter, and why. */
  type Failures = map<string, string>

  function Ending(i: Instance, failures: Failures, now: Instant): Instance {
    StoppedAs(i, if i.id in failures then Some(failures[i.id]) else None, now)
  }

  /** The report of a sweep: how each victim ended, in order. */
  ghost predicate Reports(stopped: seq<Instance>, victims: seq<Instance>, failures: Failures, now: Instant) {
    |stopped| == |victims| && forall k | 0 <= k < |victims| :: stopped[k] == Ending(victims[k], failures, now)
  }

  lemma {:induction false} ReportsConcat(s: seq<Instance>, v: seq<Instance>, t: seq<Instance>, w: seq<Instance>,
                                         failures: Failures, now: Instant)
    requires Reports(s, v, failures, now) && Reports(t, w, failures, now)
    ensures Reports(s + t, v + w, failures, now)
  {
    hide Ending;
  }

  /** The registry after the victims were stopped one by one. */
  function StopAll(d: Instances, victims: seq<Instance>, failures: Failures, now: Instant): (e: Instances)
    requires d.Valid()
    ensures e.Valid()
  {
    if victims == [] then d
    else
      var n := |victims| - 1;
      StopAll(d, victims[..n], failures, now).Put(victims[n].id, Ending(victims[n], failures, now))
  }

  // ---- the sweep --------------------------------------------------------------------------

  /** All victims of the first profiles, judged on the registry as it was before the sweep. */
  function AllVictims(values: seq<Instance>, profiles: seq<Profile>, queues: map<string, int>,
                      now: Instant): seq<Instance> {
    if profiles == [] then []
    else
      var n := |profiles| - 1;
      AllVictims(values, profiles[..n], queues, now)
        + Victims(values, profiles[n], Lookup(queues, profiles[n].name), now)
  }

  ghost predicate DistinctNames(profiles: seq<Profile>) {
    forall i, j | 0 <= i < j < |profiles| :: profiles[i].name != profiles[j].name
  }

  /** `stop_idle_instances`: whatever one profile stops leaves the judgement of the others alone. */
  method StopIdleInstances(registry: BackendRegistry, profiles: seq<Profile>, queues: map<string, int>,
                           failures: Failures, now: Instant)
    returns (stopped: seq<Instance>)
    requires registry.Valid() && DistinctNames(profiles)
    modifies registry
    ensures registry.Valid()
    ensures registry.instances
      == StopAll(old(registry.instances), AllVictims(old(registry.instances.Values()), profiles, queues, now),
                 failures, now)
    ensures Reports(stopped, AllVictims(old(registry.instances.Values()), profiles, queues, now), failures, now)
  {
    ghost var d := registry.instances;
    ghost var values := d.Values();
    hide AllVictims, Victims, StopAll, Reports, NoDuplicates, Dict.Values, Dict.Valid, DistinctNames;
    stopped := [];
    SweepStarts(d, profiles, queues, failures, now);
    for n := 0 to |profiles|
      invariant registry.Valid()
      invariant registry.instances == StopAll(d, AllVictims(values, profiles[..n], queues, now), failures, now)
      invariant Reports(stopped, AllVictims(values, profiles[..n], queues, now), failures, now)
    {
      var profile := profiles[n];
      SweepStep(d, profiles, n, queues, failures, now);
      if Lookup(queues, profile.name) > 0 { continue; }
      var more := StopIdleOf(registry, profile, failures, now);
      ReportsConcat(stopped, AllVictims(values, profiles[..n], queues, now), more, Victims(values, profile, 0, now),
                    failures, now);
      stopped := stopped + more;
    }
    assert profiles[..|profiles|] == profiles;
  }

  lemma {:induction false} SweepStarts(d: Instances, profiles: seq<Profile>, queues: map<string, int>,
                                       failures: Failures, now: Instant)
    requires d.Valid()
    ensures AllVictims(d.Values(), profiles[..0], queues, now) == []
    ensures StopAll(d, [], failures, now) == d && Reports([], [], failures, now)
  {
  }

  /** What the next profile adds to the sweep, judged on the registry it finds. */
  lemma {:induction false} SweepStep(d: Instances, profiles: seq<Profile>, n: nat, queues: map<string, int>,
                                     failures: Failures, now: Instant)
    requires NoDuplicates(d) && DistinctNames(profiles) && n < |profiles|
    ensures var before, after := AllVictims(d.Values(), profiles[..n], queues, now),
      AllVictims(d.Values(), profiles[..n + 1], queues, now);
      var e, queue := StopAll(d, before, failures, now), Lookup(queues, profiles[n].name);
      var more := Victims(d.Values(), profiles[n], 0, now);
      && (queue > 0 ==> after == before)
      && (queue <= 0 ==> after == before + more)
      && more == Victims(e.Values(), profiles[n], 0, now)
      && (queue <= 0 ==> StopAll(e, more, failures, now) == StopAll(d, after, failures, now))
  {
    var before, queue := AllVictims(d.Values(), profiles[..n], queues, now), Lookup(queues, profiles[n].name);
    assert d.Valid() && forall p | p in profiles[..n] :: p.name != profiles[n].name;
    hide *;
    AllVictimsNext(d.Values(), profiles, n, queues, now);
    SameVictims(d, before, failures, now, profiles[n], 0, profiles[..n], queues);
    StopAllAppend(d, before, Victims(d.Values(), profiles[n], 0, now), failures, now);
  }

  lemma {:induction false} AllVictimsNext(values: seq<Instance>, profiles: seq<Profile>, n: nat,
                                          queues: map<string, int>, now: Instant)
    requires n < |profiles|
    ensures var before, queue := AllVictims(values, profiles[..n], queues, now), Lookup(queues, profiles[n].name);
      AllVictims(values, profiles[..n + 1], queues, now)
        == if queue > 0 then before else before + Victims(values, profiles[n], 0, now)
  {
    var queue := Lookup(queues, profiles[n].name);
    assert profiles[..n + 1][..n] == profiles[..n];
    if queue > 0 {
      assert Victims(values, profiles[n], queue, now) == [];
    } else {
      VictimsIgnoreQueue(values, profiles[n], queue, now);
    }
    hide Victims;
  }

  /** One profile whose queue is empty. */
  method StopIdleOf(registry: BackendRegistry, profile: Profile, failures: Failures, now: Instant)
    returns (stopped: seq<Instance>)
    requires registry.Valid()
    modifies registry
    ensures registry.Valid()
    ensures registry.instances
      == StopAll(old(registry.instances), Victims(old(registry.instances.Values()), profile, 0, now), failures, now)
    ensures Reports(stopped, Victims(old(registry.instances.Values()), profile, 0, now), failures, now)
  {
    var values := registry.instances.Values();
    var ready := ForModel(values, profile.name, true);
    var candidates := Candidates(values, profile, now);
    var sorted := Sort(candidates, LongerIdle);
    var removable := Max(0, |ready| - profile.minReplicas);
    VictimsDistinct(registry.instances, profile, 0, now);
    assert sorted[..Min(|sorted|, removable)] == Victims(values, profile, 0, now);
    hide Sort, Candidates, ForModel, Stoppable, Victims, StopAll, Dict.Values, Dict.Valid, Reports;
    stopped := StopEach(registry, sorted[..Min(|sorted|, removable)], failures, now);
  }

  method StopEach(registry: BackendRegistry, victims: seq<Instance>, failures: Failures, now: Instant)
    returns (stopped: seq<Instance>)
    requires registry.Valid() && DistinctIds(victims)
    requires forall i | i in victims :: i.id in registry.instances.items && registry.instances.items[i.id] == i
    modifies registry
    ensures registry.Valid()
    ensures registry.instances == StopAll(old(registry.instances), victims, failures, now)
    ensures Reports(stopped, victims, failures, now)
  {
    ghost var d := registry.instances;
    StopNone(d, failures, now);
    hide *;
    stopped := [];
    for n := 0 to |victims|
      invariant registry.Valid()
      invariant registry.instances == StopAll(d, victims[..n], failures, now)
      invariant Reports(stopped, victims[..n], failures, now)
    {
      StopAllStep(d, victims, n, failures, now);
      StillThere(d, victims, n, failures, now);
      var ended := StopVictim(registry, victims[n], failures, now);
      ReportsStep(stopped, victims, n, ended, failures, now);
      stopped := stopped + [ended];
    }
    assert victims[..|victims|] == victims;
  }

  lemma {:induction false} ReportsStep(stopped: seq<Instance>, victims: seq<Instance>, n: nat, ended: Instance,
                                       failures: Failures, now: Instant)
    requires n < |victims| && Reports(stopped, victims[..n], failures, now)
    requires ended == Ending(victims[n], failures, now)
    ensures Reports(stopped + [ended], victims[..n + 1], failures, now)
  {
    hide Ending;
  }

  method StopVictim(registry: BackendRegistry, i: Instance, failures: Failures, now: Instant) returns (ended: Instance)
    requires registry.Valid() && i.id in registry.instances.items && registry.instances.items[i.id] == i
    modifies registry
    ensures registry.Valid()
    ensures ended == Ending(i, failures, now) && registry.instances == old(registry.instances).Put(i.id, ended)
  {
    ghost var between;
    ended, between := StopInstance(registry, i.id, if i.id in failures then Some(failures[i.id]) else None, now);
  }

  lemma {:induction false} StopNone(d: Instances, failures: Failures, now: Instant)
    requires d.Valid()
    ensures StopAll(d, [], failures, now) == d && Reports([], [], failures, now)
  {
  }

  lemma {:induction false} StopAllStep(d: Instances, victims: seq<Instance>, n: nat, failures: Failures, now: Instant)
    requires d.Valid() && n < |victims|
    ensures StopAll(d, victims[..n + 1], failures, now)
      == StopAll(d, victims[..n], failures, now).Put(victims[n].id, Ending(victims[n], failures, now))
  {
    hide Ending;
    assert victims[..n + 1][..n] == victims[..n];
  }

  // ---- victims ----------------------------------------------------------------------------

  lemma {:induction false} VictimsIgnoreQueue(values: seq<Instance>, profile: Profile, queueLength: int, now: Instant)
    requires queueLength <= 0
    ensures Victims(values, profile, queueLength, now) == Victims(values, profile, 0, now)
  {
  }

  lemma {:induction false} IdleOrdering()
    ensures Ordering(LongerIdle)
  {
  }

  ghost predicate DistinctIds(s: seq<Instance>) {
    forall i, j | 0 <= i < j < |s| :: s[i].id != s[j].id
  }

  lemma {:induction false} ValuesDistinct(d: Instances)
    requires NoDuplicates(d)
    ensures DistinctIds(d.Values())
    ensures forall v :: v in d.Values() <==> v.id in d.items && d.items[v.id] == v
  {
    d.ValuesMembers();
    var values := d.Values();
    forall i, j | 0 <= i < j < |values| ensures values[i].id != values[j].id {
      assert values[i].id == d.keys[i] && values[j].id == d.keys[j];
    }
  }

  lemma {:induction false} CandidatesDistinct(values: seq<Instance>, profile: Profile, now: Instant)
    requires DistinctIds(values)
    ensures Distinct(Candidates(values, profile, now))
  {
    if values != [] {
      var n := |values| - 1;
      CandidatesDistinct(values[..n], profile, now);
      assert values[n] !in values[..n];
    }
  }

  /** The candidates in the order in which they are stopped. */
  lemma {:induction false} SortedCandidates(d: Instances, profile: Profile, now: Instant)
    requires NoDuplicates(d)
    ensures var c := Sort(Candidates(d.Values(), profile, now), LongerIdle);
      && DistinctIds(c) && Sorted(c, LongerIdle)
      && (forall i :: i in c <==> i in d.Values() && Stoppable(i, profile, now))
      && (forall i | i in c :: i.id in d.items && d.items[i.id] == i)
  {
    var c := Candidates(d.Values(), profile, now);
    var sorted := Sort(c, LongerIdle);
    ValuesDistinct(d);
    CandidatesDistinct(d.Values(), profile, now);
    IdleOrdering();
    hide Stoppable, NoDuplicates, Sort, Candidates, Dict.Values, DistinctIds, LongerIdle;
    DistinctPermutation(c, sorted);
    SortKeeps(c, LongerIdle);
    SortSorted(c, LongerIdle);
    assert DistinctIds(sorted) by { IdsDistinct(d, sorted); }
  }

  lemma {:induction false} IdsDistinct(d: Instances, s: seq<Instance>)
    requires Distinct(s) && forall i | i in s :: i.id in d.items && d.items[i.id] == i
    ensures DistinctIds(s)
  {
    forall i, j | 0 <= i < j < |s| ensures s[i].id != s[j].id { assert s[i] in s && s[j] in s; }
  }

  /** Victims are distinct registered candidates; any candidate that is spared has been idle no longer. */
  lemma {:induction false} VictimsDistinct(d: Instances, profile: Profile, queueLength: int, now: Instant)
    requires NoDuplicates(d)
    ensures var v := Victims(d.Values(), profile, queueLength, now);
      && DistinctIds(v)
      && (forall i | i in v :: queueLength <= 0 && Stoppable(i, profile, now) && i.id in d.items && d.items[i.id] == i)
      && (forall i, j | i in v && j in d.Values() && Stoppable(j, profile, now) && j !in v ::
            Reference(i) <= Reference(j))
  {
    assert d.Valid();
    hide Stoppable, NoDuplicates, Sort, Sorted, Candidates, Dict.Values, Dict.Valid, ForModel, Reference, Removable;
    if queueLength <= 0 {
      var sorted := Sort(Candidates(d.Values(), profile, now), LongerIdle);
      SortedCandidates(d, profile, now);
      PrefixIsLongest(sorted, Victims(d.Values(), profile, queueLength, now));
    }
  }

  lemma {:induction false} PrefixIsLongest(sorted: seq<Instance>, v: seq<Instance>)
    requires Sorted(sorted, LongerIdle) && v <= sorted
    ensures forall i, j | i in v && j in sorted && j !in v :: Reference(i) <= Reference(j)
    ensures forall i | i in v :: i in sorted
    ensures DistinctIds(sorted) ==> DistinctIds(v)
  {
    forall i, j | i in v && j in sorted && j !in v ensures Reference(i) <= Reference(j) {
      var x :| 0 <= x < |v| && v[x] == i;
      var y :| 0 <= y < |sorted| && sorted[y] == j;
      assert y >= |v|;
      assert !LongerIdle(sorted[y], sorted[x]);
    }
  }

  // ---- stopping one by one ----------------------------------------------------------------

  lemma {:induction false} EndingKeepsId(i: Instance, failures: Failures, now: Instant)
    ensures Ending(i, failures, now).id == i.id
  {
  }

  /** Exactly the victims change, and each ends stopped or failed. */
  lemma {:induction false} StopAllIs(d: Instances, victims: seq<Instance>, failures: Failures, now: Instant)
    requires NoDuplicates(d) && forall i | i in victims :: i.id in d.items && d.items[i.id] == i
    ensures var e := StopAll(d, victims, failures, now);
      && e.keys == d.keys && e.items.Keys == d.items.Keys && NoDuplicates(e)
      && (forall id | id in d.items ::
            e.items[id] == if d.items[id] in victims then Ending(d.items[id], failures, now) else d.items[id])
  {
    if victims != [] {
      var n := |victims| - 1;
      assert d.Valid() && forall i | i in victims[..n] :: i in victims;
      hide *;
      StopAllIs(d, victims[..n], failures, now);
      StopAllLast(d, victims, failures, now);
      OneStopped(d, StopAll(d, victims[..n], failures, now), victims, failures, now);
    }
  }

  lemma {:induction false} OneStopped(d: Instances, c: Instances, victims: seq<Instance>, failures: Failures,
                                      now: Instant)
    requires victims != [] && NoDuplicates(d) && NoDuplicates(c) && c.keys == d.keys && c.items.Keys == d.items.Keys
    requires victims[|victims| - 1].id in d.items && d.items[victims[|victims| - 1].id] == victims[|victims| - 1]
    requires forall id | id in d.items ::
      c.items[id] == if d.items[id] in victims[..|victims| - 1] then Ending(d.items[id], failures, now) else d.items[id]
    ensures var v := victims[|victims| - 1];
      var e := c.Put(v.id, Ending(v, failures, now));
      && e.keys == d.keys && e.items.Keys == d.items.Keys && NoDuplicates(e)
      && (forall id | id in d.items ::
            e.items[id] == if d.items[id] in victims then Ending(d.items[id], failures, now) else d.items[id])
  {
    var v := victims[|victims| - 1];
    EndingKeepsId(v, failures, now);
    assert forall id | id in d.items :: d.items[id].id == id;
    hide *;
    SameRecords(c, v.id, Ending(v, failures, now));
    forall id | id in d.items
      ensures c.Put(v.id, Ending(v, failures, now)).items[id]
        == if d.items[id] in victims then Ending(d.items[id], failures, now) else d.items[id]
    {
      InLonger(victims, d.items[id]);
    }
  }

  lemma {:induction false} InLonger(victims: seq<Instance>, i: Instance)
    requires victims != []
    ensures i in victims <==> i in victims[..|victims| - 1] || i == victims[|victims| - 1]
  {
  }

  /** Rewriting a record under its own id. */
  lemma {:induction false} SameRecords(d: Instances, id: string, i: Instance)
    requires NoDuplicates(d) && id in d.items && i.id == id
    ensures d.Put(id, i).keys == d.keys && d.Put(id, i).items == d.items[id := i] && NoDuplicates(d.Put(id, i))
    ensures d.Put(id, i).items.Keys == d.items.Keys
  {
    hide Dict.Valid;
    assert d.items[id := i].Keys == d.items.Keys;
  }

  lemma {:induction false} StillThere(d: Instances, victims: seq<Instance>, n: nat, failures: Failures, now: Instant)
    requires NoDuplicates(d) && DistinctIds(victims) && n < |victims|
    requires forall i | i in victims :: i.id in d.items && d.items[i.id] == i
    ensures var e := StopAll(d, victims[..n], failures, now);
      victims[n].id in e.items && e.items[victims[n].id] == victims[n]
  {
    StopAllIs(d, victims[..n], failures, now);
    assert victims[n] in victims && victims[n] !in victims[..n];
  }

  lemma {:induction false} StopAllLast(d: Instances, victims: seq<Instance>, failures: Failures, now: Instant)
    requires d.Valid() && victims != []
    ensures var n := |victims| - 1;
      StopAll(d, victims, failures, now)
        == StopAll(d, victims[..n], failures, now).Put(victims[n].id, Ending(victims[n], failures, now))
  {
  }

  lemma {:induction false} StopAllAppend(d: Instances, a: seq<Instance>, b: seq<Instance>, failures: Failures,
                                         now: Instant)
    requires d.Valid()
    ensures StopAll(StopAll(d, a, failures, now), b, failures, now) == StopAll(d, a + b, failures, now)
  {
    hide *;
    if b == [] {
      assert a + b == a;
      StopNone(StopAll(d, a, failures, now), failures, now);
    } else {
      var n := |b| - 1;
      StopAllLast(StopAll(d, a, failures, now), b, failures, now);
      StopAllLast(d, a + b, failures, now);
      assert (a + b)[..|a + b| - 1] == a + b[..n] && (a + b)[|a + b| - 1] == b[n];
      StopAllAppend(d, a, b[..n], failures, now);
    }
  }

  // ---- profiles do not disturb each other -------------------------------------------------

  lemma {:induction false} OtherModels(a: seq<Instance>, b: seq<Instance>, profile: Profile, now: Instant)
    requires |a| == |b|
    requires forall k | 0 <= k < |a| :: a[k] == b[k] || (a[k].model != profile.name && b[k].model != profile.name)
    ensures ForModel(a, profile.name, true) == ForModel(b, profile.name, true)
    ensures Candidates(a, profile, now) == Candidates(b, profile, now)
  {
    if a == [] {
    } else {
      LastOne(a, profile, now);
      LastOne(b, profile, now);
      assert a[|a| - 1] == b[|b| - 1]
        || (!InState(a[|a| - 1], profile.name, true) && !InState(b[|b| - 1], profile.name, true));
      hide ForModel, Candidates, InState, Stoppable;
      OtherModels(a[..|a| - 1], b[..|b| - 1], profile, now);
    }
  }

  /** What the last instance adds to the lists of one model. */
  lemma {:induction false} LastOne(values: seq<Instance>, profile: Profile, now: Instant)
    requires values != []
    ensures var n := |values| - 1;
      && ForModel(values, profile.name, true)
           == ForModel(values[..n], profile.name, true)
             + (if InState(values[n], profile.name, true) then [values[n]] else [])
      && Candidates(values, profile, now)
           == Candidates(values[..n], profile, now) + (if Stoppable(values[n], profile, now) then [values[n]] else [])
    ensures Stoppable(values[|values| - 1], profile, now) ==> InState(values[|values| - 1], profile.name, true)
  {
    hide IdleTime, Ttl;
  }

  lemma {:induction false} AllVictimsAre(d: Instances, profiles: seq<Profile>, queues: map<string, int>, now: Instant)
    requires NoDuplicates(d)
    ensures forall i | i in AllVictims(d.Values(), profiles, queues, now) ::
      && i.id in d.items && d.items[i.id] == i
      && exists p :: p in profiles && i in Victims(d.Values(), p, Lookup(queues, p.name), now) && i.model == p.name
  {
    if profiles != [] {
      var n := |profiles| - 1;
      assert profiles == profiles[..n] + [profiles[n]];
      AllVictimsAre(d, profiles[..n], queues, now);
      VictimsDistinct(d, profiles[n], Lookup(queues, profiles[n].name), now);
      hide Victims, Dict.Values;
      assert profiles[n] in profiles && forall p | p in profiles[..n] :: p in profiles;
    }
  }

  lemma {:induction false} SameVictims(d: Instances, before: seq<Instance>, failures: Failures, now: Instant,
                                       profile: Profile, queueLength: int, earlier: seq<Profile>,
                                       queues: map<string, int>)
    requires NoDuplicates(d) && before == AllVictims(d.Values(), earlier, queues, now)
    requires forall p | p in earlier :: p.name != profile.name
    ensures Victims(StopAll(d, before, failures, now).Values(), profile, queueLength, now)
      == Victims(d.Values(), profile, queueLength, now)
  {
    var e := StopAll(d, before, failures, now);
    AllVictimsAre(d, earlier, queues, now);
    StopAllIs(d, before, failures, now);
    hide Victims, AllVictims, StopAll;
    var a, b := e.Values(), d.Values();
    forall k | 0 <= k < |a| ensures a[k] == b[k] || (a[k].model != profile.name && b[k].model != profile.name) {
      var id := d.keys[k];
      if d.items[id] in before {
        var p :| p in earlier && d.items[id] in Victims(d.Values(), p, Lookup(queues, p.name), now)
          && d.items[id].model == p.name;
      }
    }
    OtherModels(a, b, profile, now);
    SameVictimsFrom(a, b, profile, queueLength, now);
  }

  lemma {:induction false} SameVictimsFrom(a: seq<Instance>, b: seq<Instance>, profile: Profile, queueLength: int,
                                           now: Instant)
    requires ForModel(a, profile.name, true) == ForModel(b, profile.name, true)
    requires Candidates(a, profile, now) == Candidates(b, profile, now)
    ensures Victims(a, profile, queueLength, now) == Victims(b, profile, queueLength, now)
  {
    hide Sort, Candidates, ForModel;
  }

  // ---- the floor --------------------------------------------------------------------------

  function Counts(model: string): Instance -> int { (i: Instance) => if InState(i, model, true) then 1 else 0 }

  lemma {:induction false} CountIs(values: seq<Instance>, model: string)
    ensures |ForModel(values, model, true)| == Sum(values, Counts(model))
  {
    if values != [] { CountIs(values[..|values| - 1], model); }
  }

  /** Stopping distinct ready instances of a model takes exactly that many from its ready count. */
  lemma {:induction false} StopCounts(d: Instances, victims: seq<Instance>, failures: Failures, now: Instant,
                                      model: string)
    requires NoDuplicates(d) && DistinctIds(victims)
    requires forall i | i in victims :: i.id in d.items && d.items[i.id] == i && i.state.Ready?
    ensures Sum(StopAll(d, victims, failures, now).Values(), Counts(model)) == Sum(d.Values(), Counts(model))
      - Sum(victims, Counts(model))
  {
    if victims != [] {
      var n := |victims| - 1;
      assert victims == victims[..n] + [victims[n]];
      StopCounts(d, victims[..n], failures, now, model);
      StillThere(d, victims, n, failures, now);
      var e := StopAll(d, victims[..n], failures, now);
      var i := victims[n];
      assert i in victims;
      assert Counts(model)(Ending(i, failures, now)) == 0;
      hide StopAll, Counts;
      e.ValuesPut(i.id, Ending(i, failures, now));
      SumUpdate(e.Values(), e.IndexOf(i.id), Ending(i, failures, now), Counts(model));
    }
  }

  lemma {:induction false} CountAll(s: seq<Instance>, model: string)
    requires forall i | i in s :: InState(i, model, true)
    ensures Sum(s, Counts(model)) == |s|
  {
    if s != [] {
      assert forall i | i in s[..|s| - 1] :: i in s;
      CountAll(s[..|s| - 1], model);
      assert s[|s| - 1] in s;
    }
  }

  lemma {:induction false} CountNone(s: seq<Instance>, model: string)
    requires forall i | i in s :: i.model != model
    ensures Sum(s, Counts(model)) == 0
  {
    if s != [] {
      assert forall i | i in s[..|s| - 1] :: i in s;
      CountNone(s[..|s| - 1], model);
      assert s[|s| - 1] in s;
    }
  }

  lemma {:induction false} CountVictims(d: Instances, profile: Profile, queueLength: int, now: Instant, model: string)
    requires NoDuplicates(d)
    ensures var v := Victims(d.Values(), profile, queueLength, now);
      Sum(v, Counts(model)) == if profile.name == model then |v| else 0
  {
    var v := Victims(d.Values(), profile, queueLength, now);
    VictimsDistinct(d, profile, queueLength, now);
    assert forall i | i in v :: InState(i, profile.name, true);
    hide Victims, NoDuplicates, Dict.Values, Counts, Stoppable;
    if profile.name == model { CountAll(v, model); } else { CountNone(v, model); }
  }

  /** Each model loses exactly its own victims. */
  lemma {:induction false} VictimsOfModel(d: Instances, profiles: seq<Profile>, queues: map<string, int>, now: Instant,
                                          k: nat)
    requires NoDuplicates(d) && DistinctNames(profiles) && k < |profiles|
    ensures Sum(AllVictims(d.Values(), profiles, queues, now), Counts(profiles[k].name))
      == |Victims(d.Values(), profiles[k], Lookup(queues, profiles[k].name), now)|
  {
    var n := |profiles| - 1;
    var model, own := profiles[k].name, Lookup(queues, profiles[n].name);
    NamesApart(profiles);
    assert AllVictims(d.Values(), profiles, queues, now)
      == AllVictims(d.Values(), profiles[..n], queues, now) + Victims(d.Values(), profiles[n], own, now);
    hide Victims, AllVictims, NoDuplicates, Dict.Values, Counts, Lookup, DistinctNames, Sum;
    if k == n {
      OtherVictims(d, profiles[..n], queues, now, model);
    } else {
      VictimsOfModel(d, profiles[..n], queues, now, k);
    }
    CountVictims(d, profiles[n], own, now, model);
    SumConcat(AllVictims(d.Values(), profiles[..n], queues, now), Victims(d.Values(), profiles[n], own, now),
              Counts(model));
  }

  lemma {:induction false} NamesApart(profiles: seq<Profile>)
    requires DistinctNames(profiles) && profiles != []
    ensures var n := |profiles| - 1;
      && DistinctNames(profiles[..n])
      && (forall p | p in profiles[..n] :: p.name != profiles[n].name)
      && (forall k | 0 <= k < n :: profiles[..n][k] == profiles[k] && profiles[k].name != profiles[n].name)
  {
  }

  lemma {:induction false} OtherVictims(d: Instances, profiles: seq<Profile>, queues: map<string, int>, now: Instant,
                                        model: string)
    requires NoDuplicates(d) && forall p | p in profiles :: p.name != model
    ensures Sum(AllVictims(d.Values(), profiles, queues, now), Counts(model)) == 0
  {
    var all := AllVictims(d.Values(), profiles, queues, now);
    AllVictimsAre(d, profiles, queues, now);
    hide Victims, AllVictims, NoDuplicates, Dict.Values, Counts, Lookup;
    forall i | i in all ensures i.model != model {
      var p :| p in profiles && i.model == p.name;
    }
    CountNone(all, model);
  }

  lemma {:induction false} AllVictimsDistinct(d: Instances, profiles: seq<Profile>, queues: map<string, int>,
                                              now: Instant)
    requires NoDuplicates(d) && DistinctNames(profiles)
    ensures DistinctIds(AllVictims(d.Values(), profiles, queues, now))
  {
    if profiles != [] {
      var n := |profiles| - 1;
      var before, last := AllVictims(d.Values(), profiles[..n], queues, now),
        Victims(d.Values(), profiles[n], Lookup(queues, profiles[n].name), now);
      AllVictimsDistinct(d, profiles[..n], queues, now);
      AllVictimsAre(d, profiles[..n], queues, now);
      VictimsDistinct(d, profiles[n], Lookup(queues, profiles[n].name), now);
      hide Victims, AllVictims, NoDuplicates, Dict.Values;
      forall i, j | i in before && j in last ensures i.id != j.id {
        var p :| p in profiles[..n] && i.model == p.name;
        assert i.model != j.model;
      }
    }
  }

  /** The ready count after a sweep, exactly; so every model keeps its floor. */
  lemma {:induction false} FloorKept(d: Instances, profiles: seq<Profile>, queues: map<string, int>,
                                     failures: Failures, now: Instant, k: nat)
    requires NoDuplicates(d) && DistinctNames(profiles) && k < |profiles|
    ensures var p := profiles[k];
      var e := StopAll(d, AllVictims(d.Values(), profiles, queues, now), failures, now);
      var before, after := |ForModel(d.Values(), p.name, true)|, |ForModel(e.Values(), p.name, true)|;
      && after == before - (if Lookup(queues, p.name) > 0 then 0
                            else Min(|Candidates(d.Values(), p, now)|, Max(0, before - p.minReplicas)))
      && after >= Min(before, p.minReplicas)
  {
    hide *;
    var p := profiles[k];
    ReadyAfter(d, profiles, queues, failures, now, k);
    VictimCount(d.Values(), p, Lookup(queues, p.name), now);
    KeepsFloor(|ForModel(d.Values(), p.name, true)|, p.minReplicas, |Candidates(d.Values(), p, now)|);
  }

  /** A model loses as many ready backends as it has victims. */
  lemma {:induction false} ReadyAfter(d: Instances, profiles: seq<Profile>, queues: map<string, int>,
                                      failures: Failures, now: Instant, k: nat)
    requires NoDuplicates(d) && DistinctNames(profiles) && k < |profiles|
    ensures d.Valid()
    ensures var p := profiles[k];
      var e := StopAll(d, AllVictims(d.Values(), profiles, queues, now), failures, now);
      |ForModel(e.Values(), p.name, true)|
      == |ForModel(d.Values(), p.name, true)| - |Victims(d.Values(), p, Lookup(queues, p.name), now)|
  {
    assert d.Valid();
    hide *;
    var p := profiles[k];
    var e := StopAll(d, AllVictims(d.Values(), profiles, queues, now), failures, now);
    SweepCounts(d, profiles, queues, failures, now, p.name);
    VictimsOfModel(d, profiles, queues, now, k);
    CountIs(d.Values(), p.name);
    CountIs(e.Values(), p.name);
  }

  /** A sweep takes exactly the victims of a model from its ready count. */
  lemma {:induction false} SweepCounts(d: Instances, profiles: seq<Profile>, queues: map<string, int>,
                                       failures: Failures, now: Instant, model: string)
    requires NoDuplicates(d) && DistinctNames(profiles)
    ensures d.Valid()
    ensures var all := AllVictims(d.Values(), profiles, queues, now);
      Sum(StopAll(d, all, failures, now).Values(), Counts(model))
      == Sum(d.Values(), Counts(model)) - Sum(all, Counts(model))
  {
    assert d.Valid();
    hide *;
    AllVictimsAre(d, profiles, queues, now);
    AllVictimsReady(d, profiles, queues, now);
    AllVictimsDistinct(d, profiles, queues, now);
    StopCounts(d, AllVictims(d.Values(), profiles, queues, now), failures, now, model);
  }

  lemma {:induction false} KeepsFloor(before: int, floor: int, candidates: nat)
    requires before >= 0
    ensures before - Min(candidates, Max(0, before - floor)) >= Min(before, floor)
    ensures before >= Min(before, floor)
  {
  }

  lemma {:induction false} VictimCount(values: seq<Instance>, profile: Profile, queueLength: int, now: Instant)
    ensures |Victims(values, profile, queueLength, now)| == if queueLength > 0 then 0
      else Min(|Candidates(values, profile, now)|, Max(0, |ForModel(values, profile.name, true)| - profile.minReplicas))
  {
    SortKeeps(Candidates(values, profile, now), LongerIdle);
    hide Sort, Candidates, ForModel;
  }

  lemma {:induction false} AllVictimsReady(d: Instances, profiles: seq<Profile>, queues: map<string, int>, now: Instant)
    requires NoDuplicates(d)
    ensures forall i | i in AllVictims(d.Values(), profiles, queues, now) ::
      exists p :: p in profiles && Lookup(queues, p.name) <= 0 && Stoppable(i, p, now)
    ensures forall i | i in AllVictims(d.Values(), profiles, queues, now) :: i.state.Ready?
  {
    AllVictimsAre(d, profiles, queues, now);
    forall i | i in AllVictims(d.Values(), profiles, queues, now)
      ensures i.state.Ready? && exists p :: p in profiles && Lookup(queues, p.name) <= 0 && Stoppable(i, p, now)
    {
      var p :| p in profiles && i in Victims(d.Values(), p, Lookup(queues, p.name), now);
      VictimsDistinct(d, p, Lookup(queues, p.name), now);
      assert Stoppable(i, p, now);
    }
  }

  /** Within a model whatever has been idle longer than a stopped backend was stopped too. */
  ghost predicate LongestGo(d: Instances, e: Instances, p: Profile, id: string, failures: Failures, now: Instant)
    requires id in d.items
  {
    forall j | j in d.items && j in e.items && Stoppable(d.items[j], p, now)
      && Reference(d.items[j]) < Reference(d.items[id]) ::
      e.items[j] == Ending(d.items[j], failures, now)
  }

  /**
   * A sweep touches nothing but idle backends: every changed record was ready, unleased and past its time
   * to live, of a model with an empty queue, and one of the longest idle.
   */
  lemma {:induction false} OnlyIdleStopped(d: Instances, profiles: seq<Profile>, queues: map<string, int>,
                                           failures: Failures, now: Instant, id: string)
    requires NoDuplicates(d) && id in d.items
    ensures var e := StopAll(d, AllVictims(d.Values(), profiles, queues, now), failures, now);
      && e.items.Keys == d.items.Keys
      && (e.items[id] != d.items[id] ==>
            && e.items[id] == Ending(d.items[id], failures, now)
            && d.items[id].state == BackendState.Ready && d.items[id].active == 0
            && exists p :: p in profiles && Lookup(queues, p.name) <= 0 && Stoppable(d.items[id], p, now)
                           && d.items[id].model == p.name
                           && IdleFor(d.items[id],
                                      if d.items[id].idleTtl.Some? then d.items[id].idleTtl.value else p.idleTtl, now)
                           && LongestGo(d, e, p, id, failures, now))
  {
    var all := AllVictims(d.Values(), profiles, queues, now);
    var e := StopAll(d, all, failures, now);
    AllVictimsAre(d, profiles, queues, now);
    StopAllIs(d, all, failures, now);
    hide StopAll, AllVictims, Victims, Ending, Stoppable;
    if d.items[id] in all {
      var p :| p in profiles && d.items[id] in Victims(d.Values(), p, Lookup(queues, p.name), now);
      VictimsDistinct(d, p, Lookup(queues, p.name), now);
      hide Lookup, NoDuplicates, Dict.Values;
      forall j | j in d.items && Stoppable(d.items[j], p, now) && Reference(d.items[j]) < Reference(d.items[id])
        ensures e.items[j] == Ending(d.items[j], failures, now)
      {
        ValuesAre(d, j);
        VictimInAll(d.Values(), profiles, queues, now, p, d.items[j]);
      }
      assert LongestGo(d, e, p, id, failures, now);
      StoppableIff(d.items[id], p, now);
    }
  }

  lemma {:induction false} VictimInAll(values: seq<Instance>, profiles: seq<Profile>, queues: map<string, int>,
                                       now: Instant, p: Profile, i: Instance)
    requires p in profiles && i in Victims(values, p, Lookup(queues, p.name), now)
    ensures i in AllVictims(values, profiles, queues, now)
  {
    var n := |profiles| - 1;
    hide Victims;
    if p != profiles[n] { VictimInAll(values, profiles[..n], queues, now, p, i); }
  }

  // ---- purge ------------------------------------------------------------------------------

  predicate Stale(i: Instance, ttl: int, now: Instant) {
    i.runtime == "lmstudio" && (i.state.Stopped? || i.state.Failed?) && IdleTime(i, now) >= ttl * 1000000
  }

  lemma {:induction false} StaleIff(i: Instance, ttl: int, now: Instant)
    ensures Stale(i, ttl, now) <==>
      i.runtime == "lmstudio" && (i.state.Stopped? || i.state.Failed?) && IdleFor(i, ttl, now)
  {
  }

  /** The records left once some are gone. */
  ghost predicate Left(d: Instances, removed: seq<Instance>, e: Instances) {
    && (forall id :: id in e.items <==> id in d.items && d.items[id] !in removed)
    && (forall id | id in e.items :: e.items[id] == d.items[id])
  }

  lemma {:induction false} LeftAfter(d: Instances, removed: seq<Instance>, e: Instances, i: Instance)
    requires NoDuplicates(d) && NoDuplicates(e) && Left(d, removed, e) && i in d.Values()
    ensures Left(d, removed + [i], e.Remove(i.id)) && NoDuplicates(e.Remove(i.id))
  {
    ValuesDistinct(d);
  }

  /** `purge_stale_instances`: exactly the stale records go. */
  method PurgeStaleInstances(registry: BackendRegistry, ttl: int, now: Instant) returns (removed: seq<Instance>)
    requires registry.Valid()
    modifies registry
    ensures registry.Valid() && Left(old(registry.instances), removed, registry.instances)
    ensures forall i :: i in removed <==>
      && ttl >= 0 && i in old(registry.instances.Values()) && i.runtime == "lmstudio"
      && (i.state.Stopped? || i.state.Failed?) && IdleFor(i, ttl, now)
  {
    ghost var d := registry.instances;
    var values := registry.instances.Values();
    assert d.Valid();
    PurgedNothing(ttl, now);
    LeftAll(d);
    hide *;
    removed := [];
    if ttl < 0 { return; }
    for n := 0 to |values|
      invariant registry.Valid() && Left(d, removed, registry.instances) && Purged(removed, values[..n], ttl, now)
    {
      assert values[..n + 1] == values[..n] + [values[n]] && values[n] in values;
      PurgedStep(removed, values[..n], values[n], ttl, now);
      StaleIs(values[n], ttl, now);
      if values[n].runtime != "lmstudio" || !(values[n].state.Stopped? || values[n].state.Failed?) { continue; }
      if IdleTime(values[n], now) < ttl * 1000000 { continue; }
      LeftAfter(d, removed, registry.instances, values[n]);
      removed := removed + [values[n]];
      registry.Remove(values[n].id);
    }
    assert values[..|values|] == values;
    PurgedAll(removed, values, ttl, now);
  }

  lemma {:induction false} StaleIs(i: Instance, ttl: int, now: Instant)
    ensures Stale(i, ttl, now) <==>
      i.runtime == "lmstudio" && (i.state.Stopped? || i.state.Failed?) && !(IdleTime(i, now) < ttl * 1000000)
  {
  }

  ghost predicate Purged(removed: seq<Instance>, values: seq<Instance>, ttl: int, now: Instant) {
    forall i :: i in removed <==> i in values && Stale(i, ttl, now)
  }

  lemma {:induction false} PurgedStep(removed: seq<Instance>, values: seq<Instance>, i: Instance, ttl: int,
                                      now: Instant)
    requires Purged(removed, values, ttl, now)
    ensures Purged(if Stale(i, ttl, now) then removed + [i] else removed, values + [i], ttl, now)
  {
    hide Stale;
  }

  lemma {:induction false} PurgedNothing(ttl: int, now: Instant)
    ensures Purged([], [], ttl, now)
  {
  }

  lemma {:induction false} PurgedAll(removed: seq<Instance>, values: seq<Instance>, ttl: int, now: Instant)
    requires Purged(removed, values, ttl, now)
    ensures forall i :: i in removed <==>
      && i in values && i.runtime == "lmstudio" && (i.state.Stopped? || i.state.Failed?) && IdleFor(i, ttl, now)
  {
    forall i { StaleIff(i, ttl, now); }
    hide Stale, IdleFor;
  }

  lemma {:induction false} LeftAll(d: Instances)
    ensures Left(d, [], d)
  {
  }
}
