/** Where a new backend is placed, and how many backends a model should have. */
module Scheduler {
  import opened Wrappers
  import opened Fleet
  import opened Registry

  datatype Placement = Start(gpu: string, available: int) | NoRoom(best: Option<int>)

  /** The profile lets the model run on this GPU, by id, by index, or anywhere. */
  predicate Allowed(profile: Profile, gpu: Gpu) {
    "auto" in profile.preferred || gpu.id in profile.preferred || gpu.index in profile.preferred
  }

  function Room(gpu: Gpu, values: seq<Instance>): int { gpu.free - ReservedOn(values, gpu.id) }

  predicate Candidate(profile: Profile, gpu: Gpu, values: seq<Instance>) {
    Allowed(profile, gpu) && Room(gpu, values) >= profile.Required()
  }

  /** The answer that placement asks for, independent of how the program searches it. */
  ghost predicate IsPlacement(profile: Profile, gpus: seq<Gpu>, values: seq<Instance>, d: Placement) {
    match d
    case Start(id, available) =>
      exists k: nat :: k < |gpus| && Candidate(profile, gpus[k], values)
        && gpus[k].id == id && Room(gpus[k], values) == available
        && (forall j | 0 <= j < |gpus| && Allowed(profile, gpus[j]) :: Room(gpus[j], values) <= available)
        && (forall j | 0 <= j < k && Allowed(profile, gpus[j]) :: Room(gpus[j], values) < available)
    case NoRoom(best) =>
      && (forall g | g in gpus :: !Candidate(profile, g, values))
      && (best.None? <==> gpus == [])
      && (best.Some? ==> (exists g :: g in gpus && Room(g, values) == best.value)
                         && forall g | g in gpus :: Room(g, values) <= best.value)
  }

  /** There is only one such answer. */
  lemma {:induction false} PlacementUnique(profile: Profile, gpus: seq<Gpu>, values: seq<Instance>, a: Placement,
                                           b: Placement)
    requires IsPlacement(profile, gpus, values, a) && IsPlacement(profile, gpus, values, b)
    ensures a == b
  {
    hide ReservedOn, Allowed;
    match (a, b) {
      case (Start(i, m), Start(j, n)) =>
        var k: nat :| k < |gpus| && Candidate(profile, gpus[k], values) && gpus[k].id == i && Room(gpus[k], values) == m
          && (forall x | 0 <= x < |gpus| && Allowed(profile, gpus[x]) :: Room(gpus[x], values) <= m)
          && (forall x | 0 <= x < k && Allowed(profile, gpus[x]) :: Room(gpus[x], values) < m);
        var l: nat :| l < |gpus| && Candidate(profile, gpus[l], values) && gpus[l].id == j && Room(gpus[l], values) == n
          && (forall x | 0 <= x < |gpus| && Allowed(profile, gpus[x]) :: Room(gpus[x], values) <= n)
          && (forall x | 0 <= x < l && Allowed(profile, gpus[x]) :: Room(gpus[x], values) < n);
        assert k == l;
      case _ =>
    }
  }

  lemma {:induction false} CandidateIff(profile: Profile, g: Gpu, values: seq<Instance>)
    ensures Candidate(profile, g, values) <==>
      && ("auto" in profile.preferred || g.id in profile.preferred || g.index in profile.preferred)
      && g.free - ReservedOn(values, g.id) >= profile.estimatedVram + profile.safetyMargin
  {
    hide ReservedOn;
  }

  /** A start is decided iff some allowed GPU has the room. */
  lemma {:induction false} StartsIff(profile: Profile, gpus: seq<Gpu>, values: seq<Instance>, d: Placement)
    requires IsPlacement(profile, gpus, values, d)
    ensures d.Start? <==>
      exists g ::
        g in gpus
        && ("auto" in profile.preferred || g.id in profile.preferred || g.index in profile.preferred)
        && g.free - ReservedOn(values, g.id) >= profile.estimatedVram + profile.safetyMargin
  {
    forall g { CandidateIff(profile, g, values); }
    hide ReservedOn, Allowed, Candidate;
    if d.Start? {
      var k: nat :| k < |gpus| && Candidate(profile, gpus[k], values) && gpus[k].id == d.gpu;
      assert gpus[k] in gpus;
    }
  }

  /** `choose_gpu`: collect the candidates, then take the first with the most room. */
  method ChooseGpu(profile: Profile, gpus: seq<Gpu>, registry: BackendRegistry) returns (d: Placement)
    requires registry.Valid()
    ensures IsPlacement(profile, gpus, registry.instances.Values(), d)
  {
    var reserved := registry.ReservedVramByGpu();
    ghost var values := registry.instances.Values();
    var candidates := Candidates(profile, gpus, reserved, values);
    if candidates == [] {
      var best := BestAvailable(gpus, reserved, values);
      forall g | g in gpus ensures !Candidate(profile, g, values) {
        var i :| 0 <= i < |gpus| && gpus[i] == g;
      }
      return NoRoom(best);
    }
    var k := MostRoom(candidates);
    var chosen := candidates[k];
    FirstOfMost(profile, gpus, values, candidates, k);
    d := Start(gpus[chosen.0].id, chosen.1);
  }

  /** The collected pairs are the positions and rooms of exactly the candidates, in order. */
  ghost predicate Collected(profile: Profile, gpus: seq<Gpu>, values: seq<Instance>, n: nat, c: seq<(nat, int)>)
    requires n <= |gpus|
  {
    && (forall x | 0 <= x < |c| ::
          c[x].0 < n && Candidate(profile, gpus[c[x].0], values) && c[x].1 == Room(gpus[c[x].0], values))
    && (forall x, y | 0 <= x < y < |c| :: c[x].0 < c[y].0)
    && (forall i | 0 <= i < n && Candidate(profile, gpus[i], values) :: exists x :: 0 <= x < |c| && c[x].0 == i)
  }

  method Candidates(profile: Profile, gpus: seq<Gpu>, reserved: map<string, int>, ghost values: seq<Instance>)
    returns (candidates: seq<(nat, int)>)
    requires forall g :: Lookup(reserved, g) == ReservedOn(values, g)
    ensures Collected(profile, gpus, values, |gpus|, candidates)
  {
    hide ReservedOn, Allowed, Lookup;
    candidates := [];
    for i := 0 to |gpus|
      invariant Collected(profile, gpus, values, i, candidates)
    {
      if !Allowed(profile, gpus[i]) { continue; }
      var available := gpus[i].free - Lookup(reserved, gpus[i].id);
      assert available == Room(gpus[i], values);
      if available >= profile.Required() {
        ghost var prior := candidates;
        candidates := candidates + [(i, available)];
        assert candidates[|prior|] == (i, available);
        assert forall x | 0 <= x < |prior| :: candidates[x] == prior[x];
      }
    }
  }

  /** `max(candidates, key=available)`: the first of the largest. */
  method MostRoom(candidates: seq<(nat, int)>) returns (k: nat)
    requires candidates != []
    ensures k < |candidates|
    ensures forall x | 0 <= x < |candidates| :: candidates[x].1 <= candidates[k].1
    ensures forall x | 0 <= x < k :: candidates[x].1 < candidates[k].1
  {
    k := 0;
    for n := 1 to |candidates|
      invariant k < n
      invariant forall x | 0 <= x < n :: candidates[x].1 <= candidates[k].1
      invariant forall x | 0 <= x < k :: candidates[x].1 < candidates[k].1
    {
      if candidates[n].1 > candidates[k].1 { k := n; }
    }
  }

  method BestAvailable(gpus: seq<Gpu>, reserved: map<string, int>, ghost values: seq<Instance>)
    returns (best: Option<int>)
    requires forall g :: Lookup(reserved, g) == ReservedOn(values, g)
    ensures best.None? <==> gpus == []
    ensures best.Some? ==> (exists g :: g in gpus && Room(g, values) == best.value)
                           && forall g | g in gpus :: Room(g, values) <= best.value
  {
    hide ReservedOn, Lookup;
    if gpus == [] { return None; }
    var most := gpus[0].free - Lookup(reserved, gpus[0].id);
    ghost var at := 0;
    for n := 1 to |gpus|
      invariant 0 <= at < |gpus| && Room(gpus[at], values) == most
      invariant forall x | 0 <= x < n :: Room(gpus[x], values) <= most
    {
      var room := gpus[n].free - Lookup(reserved, gpus[n].id);
      assert room == Room(gpus[n], values);
      if room > most { most := room; at := n; }
    }
    assert gpus[at] in gpus;
    best := Some(most);
  }

  lemma {:induction false} FirstOfMost(profile: Profile, gpus: seq<Gpu>, values: seq<Instance>, c: seq<(nat, int)>,
                                       k: nat)
    requires Collected(profile, gpus, values, |gpus|, c) && k < |c|
    requires forall x | 0 <= x < |c| :: c[x].1 <= c[k].1
    requires forall x | 0 <= x < k :: c[x].1 < c[k].1
    ensures IsPlacement(profile, gpus, values, Start(gpus[c[k].0].id, c[k].1))
  {
    hide ReservedOn, Allowed;
    var at := c[k].0;
    forall j | 0 <= j < |gpus| && Allowed(profile, gpus[j])
      ensures Room(gpus[j], values) <= c[k].1 && (j < at ==> Room(gpus[j], values) < c[k].1)
    {
      if Candidate(profile, gpus[j], values) {
        var x :| 0 <= x < |c| && c[x].0 == j;
        assert j < at ==> x < k;
      }
    }
    assert Candidate(profile, gpus[at], values);
  }

  // ---- replicas ---------------------------------------------------------------------------

  /** `desired_replicas`. */
  function DesiredReplicas(profile: Profile, ready: int, queueLength: int): int {
    var desired := Max(profile.minReplicas, ready);
    Min(profile.maxReplicas, if queueLength > 0 then desired + 1 else desired)
  }
}
