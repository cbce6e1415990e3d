/** Allocation on demand, and what all lifecycle steps together keep: memory never overbooked, ports unique. */
module Allocation {
  import opened Wrappers
  import opened Dicts
  import opened Fleet
  import opened Registry
  import opened Scheduler
  import opened Runtime
  import opened LiveSync

  datatype Placed = Refused | Raised | Reserved(gpu: string, instance: Instance)

  /**
   * What happens between the last suspension of `allocate` before a start and the first one after it: nothing
   * is asked of the other backends of the model, which may have become ready in the meantime.
   */
  ghost predicate Places(d: Instances, profile: Profile, gpus: seq<Gpu>, start: Start, placed: Placed, e: Instances)
    requires d.Valid()
  {
    match placed
    case Refused => e == d && forall g | g in gpus :: !Candidate(profile, g, d.Values())
    case Raised => e == d && start.raises && exists g :: g in gpus && Candidate(profile, g, d.Values())
    case Reserved(gpu, i) =>
      && !start.raises && i.port.Some?
      && (exists available :: IsPlacement(profile, gpus, d.Values(), Placement.Start(gpu, available)))
      && NextPort(d.Values(), profile.portStart, i.port.value)
      && i == NewInstance(profile, gpu, profile.Required(), i.port.value, start)
      && e == d.Put(start.id, i)
  }

  /** Choosing a GPU, starting and recording: the part of `allocate` that is not interrupted. */
  method Place(registry: BackendRegistry, profile: Profile, gpus: seq<Gpu>, start: Start) returns (placed: Placed)
    requires registry.Valid()
    modifies registry
    ensures registry.Valid()
    ensures Places(old(registry.instances), profile, gpus, start, placed, registry.instances)
  {
    var decision := ChooseGpu(profile, gpus, registry);
    StartsIff(profile, gpus, registry.instances.Values(), decision);
    if decision.NoRoom? { return Refused; }
    var started := StartInstance(registry, profile, decision.gpu, profile.Required(), start);
    if started.None? { return Raised; }
    registry.Upsert(started.value, true, start.now);
    placed := Reserved(decision.gpu, started.value);
  }

  datatype Outcome = Reused(instance: Instance) | Unverified | Unplaced(placed: Placed) | Created(instance: Instance)

  /** What `allocate` leaves when nothing comes between its steps. */
  ghost predicate Allocates(d: Instances, profile: Profile, gpus: seq<Gpu>, verified: bool, start: Start,
                            health: Health, now: Instant, outcome: Outcome, e: Instances)
    requires d.Valid()
  {
    var ready := ForModel(d.Values(), profile.name, true);
    match outcome
    case Reused(i) => e == d && i in ready && forall j | j in ready :: i.active <= j.active
    case Unverified => e == d && ready == [] && !verified
    case Unplaced(placed) => ready == [] && verified && !placed.Reserved? && Places(d, profile, gpus, start, placed, e)
    case Created(i) =>
      && ready == [] && verified && i.state in {Ready, Failed}
      && exists gpu, starting ::
           (i == Initialised(starting, health, now) && e == d.Put(start.id, i)
            && Places(d, profile, gpus, start, Reserved(gpu, starting), d.Put(start.id, starting)))
  }

  /** `allocate` from the profile on: a ready backend is reused, otherwise one is placed, recorded and initialised. */
  method Allocate(registry: BackendRegistry, profile: Profile, gpus: seq<Gpu>, verified: bool, start: Start,
                  health: Health, now: Instant)
    returns (outcome: Outcome)
    requires registry.Valid()
    modifies registry
    ensures registry.Valid()
    ensures Allocates(old(registry.instances), profile, gpus, verified, start, health, now, outcome, registry.instances)
  {
    ghost var d := registry.instances;
    var ready := ForModel(registry.instances.Values(), profile.name, true);
    if ready != [] {
      var least := LeastActive(ready);
      return Reused(least);
    }
    if !verified { return Unverified; }
    var placed := Place(registry, profile, gpus, start);
    if !placed.Reserved? { return Unplaced(placed); }
    assert placed.instance.id == start.id;
    hide Places, Dict.Values, ForModel, NoDuplicates;
    var created, _ := InitializeInstance(registry, start.id, health, now);
    PutTwice(d, start.id, placed.instance, created);
    outcome := Created(created);
    assert Places(d, profile, gpus, start, Reserved(placed.gpu, placed.instance), d.Put(start.id, placed.instance));
  }

  method LeastActive(ready: seq<Instance>) returns (least: Instance)
    requires ready != []
    ensures least in ready && forall j | j in ready :: least.active <= j.active
  {
    least := ready[0];
    for n := 1 to |ready|
      invariant least in ready && forall x | 0 <= x < n :: least.active <= ready[x].active
    {
      if ready[n].active < least.active { least := ready[n]; }
    }
  }

  // ---- steps ------------------------------------------------------------------------------

  datatype Step =
    | Reserve(profile: Profile, start: Start, placed: Placed)   // an allocation, whatever else is ready
    | Planned(profile: Profile, gpu: string, required: int, port: int, start: Start)   // a start by reconcile or reload
    | Move(id: string, to: BackendState, now: Instant)
    | Fail(id: string, reason: string, now: Instant)
    | Adjust(id: string, delta: int, now: Instant)
    | Sync(id: string, load: Load)   // the load that a known backend goes with
    | Discover(load: Load, profile: Profile, naming: Naming, now: Instant)   // a load that nobody here started
    | Forget(id: string)   // purge, or an external load gone

  /** The state changes that initialising and stopping make. */
  predicate Edge(from: BackendState, to: BackendState) {
    || (from.Starting? && to.Warming?)
    || (from.Warming? && to.Ready?)
    || (from.Ready? && (to.Ready? || to.Draining?))
    || (from.Draining? && (to.Draining? || to.Stopped?))
  }

  ghost predicate Next(gpus: seq<Gpu>, d: Instances, step: Step, e: Instances) {
    d.Valid() &&
    match step
    case Reserve(profile, start, placed) => start.id !in d.items && Places(d, profile, gpus, start, placed, e)
    case Planned(profile, gpu, required, port, start) =>
      && start.id !in d.items && NextPort(d.Values(), profile.portStart, port)
      && e == d.Put(start.id, NewInstance(profile, gpu, required, port, start))
    case Move(id, to, now) => id in d.items && Edge(d.items[id].state, to)
      && e == d.Put(id, d.items[id].Marked(to, now))
    case Fail(id, reason, now) => id in d.items && e == d.Put(id, d.items[id].MarkedFailed(reason, now))
    case Adjust(id, delta, now) => id in d.items && e == d.Put(id, d.items[id].Adjusted(delta, now))
    case Sync(id, load) => id in d.items && e == d.Put(id, Refreshed(d.items[id], load))
    case Discover(load, profile, naming, now) =>
      e == d.Put(naming.idOf(load.identifier), Adopted(load, profile, naming, now))
    case Forget(id) => id in d.items && e == d.Remove(id)
  }

  ghost predicate IsRun(gpus: seq<Gpu>, states: seq<Instances>, steps: seq<Step>) {
    && |states| == |steps| + 1 && states[0].Valid()
    && (forall n | 0 <= n < |steps| :: Next(gpus, states[n], steps[n], states[n + 1]))
  }

  lemma {:induction false} RunSteps(gpus: seq<Gpu>, states: seq<Instances>, steps: seq<Step>, n: nat)
    requires IsRun(gpus, states, steps) && n < |states|
    ensures |states| == |steps| + 1 && states[0].Valid()
    ensures n > 0 ==> Next(gpus, states[n - 1], steps[n - 1], states[n])
  {
    hide Next, Dict.Valid;
  }

  lemma {:induction false} NextValid(gpus: seq<Gpu>, d: Instances, step: Step, e: Instances)
    requires d.Valid() && Next(gpus, d, step, e)
    ensures e.Valid()
  {
    hide Dict.Valid, Dict.Values, NextPort, IsPlacement, Candidate;
  }

  // ---- the life of a backend --------------------------------------------------------------

  /** Initialising a started backend is a run of such moves. */
  lemma {:induction false} InitialisingMoves(gpus: seq<Gpu>, d: Instances, id: string, health: Health, now: Instant)
    requires d.Valid() && id in d.items && d.items[id].state == if d.items[id].dryRun then Ready else Starting
    ensures var i := d.items[id];
      var warming, end := d.Put(id, i.Marked(Warming, now)), d.Put(id, Initialised(i, health, now));
      if i.dryRun then Next(gpus, d, Move(id, Ready, now), end)
      else match health
        case Unhealthy(reason) => Next(gpus, d, Fail(id, reason, now), end)
        case WarmupFails(reason) =>
          Next(gpus, d, Move(id, Warming, now), warming) && Next(gpus, warming, Fail(id, reason, now), end)
        case Healthy =>
          Next(gpus, d, Move(id, Warming, now), warming) && Next(gpus, warming, Move(id, Ready, now), end)
  {
    var i := d.items[id];
    PutTwice(d, id, i.Marked(Warming, now), Initialised(i, health, now));
    hide Dict.Valid;
  }

  /** So is stopping a live one. */
  lemma {:induction false} StoppingMoves(gpus: seq<Gpu>, d: Instances, id: string, failure: Option<string>,
                                         now: Instant)
    requires d.Valid() && id in d.items && d.items[id].state in {Ready, Draining}
    ensures var i := d.items[id];
      var draining, end := d.Put(id, i.Marked(Draining, now)), d.Put(id, StoppedAs(i, failure, now));
      && Next(gpus, d, Move(id, Draining, now), draining)
      && Next(gpus, draining, if failure.None? then Move(id, Stopped, now) else Fail(id, failure.value, now), end)
  {
    var i := d.items[id];
    PutTwice(d, id, i.Marked(Draining, now), StoppedAs(i, failure, now));
    hide Dict.Valid;
  }

  /** How far a backend has come; failing ends everything, and a load that is not ours stands apart. */
  function Stage(s: BackendState): nat {
    match s
    case External => 0
    case Starting => 1
    case Warming => 2
    case Ready => 3
    case Draining => 4
    case Stopping => 5
    case Stopped => 6
    case Failed => 7
  }

  /** No backend ever goes back: once it is stopped or has failed it is never active again. */
  lemma {:induction false} NeverBack(gpus: seq<Gpu>, states: seq<Instances>, steps: seq<Step>, m: nat, n: nat,
                                     id: string)
    requires IsRun(gpus, states, steps) && m <= n < |states|
    requires forall k | m <= k <= n :: id in states[k].items
    requires forall k | m <= k < n :: !steps[k].Discover?
    ensures Stage(states[m].items[id].state) <= Stage(states[n].items[id].state)
  {
    if m < n {
      NeverBack(gpus, states, steps, m, n - 1, id);
      RunSteps(gpus, states, steps, n);
      hide IsRun;
      StageStep(gpus, states[n - 1], steps[n - 1], states[n], id);
    }
  }

  lemma {:induction false} StageStep(gpus: seq<Gpu>, d: Instances, step: Step, e: Instances, id: string)
    requires Next(gpus, d, step, e) && id in d.items && id in e.items && !step.Discover?
    ensures Stage(d.items[id].state) <= Stage(e.items[id].state)
  {
    hide Dict.Valid, Dict.Values, IsPlacement, Candidate, NextPort;
  }

  // ---- ports ------------------------------------------------------------------------------

  lemma {:induction false} StepPorts(gpus: seq<Gpu>, d: Instances, step: Step, e: Instances)
    requires d.Valid() && PortsUnique(d) && Next(gpus, d, step, e)
    ensures e.Valid() && PortsUnique(e)
  {
    NextValid(gpus, d, step, e);
    hide PortsUnique, Dict.Values, IsPlacement, Candidate, Dict.Valid;
    match step
    case Reserve(_, start, placed) => if placed.Reserved? { PutPort(d, start.id, placed.instance); }
    case Planned(profile, gpu, required, port, start) => PutPort(d, start.id,
                                                                 NewInstance(profile, gpu, required, port, start));
    case Move(id, to, now) => PutPort(d, id, d.items[id].Marked(to, now));
    case Fail(id, reason, now) => PutPort(d, id, d.items[id].MarkedFailed(reason, now));
    case Adjust(id, delta, now) => PutPort(d, id, d.items[id].Adjusted(delta, now));
    case Sync(id, load) => PutPort(d, id, Refreshed(d.items[id], load));
    case Discover(load, profile, naming, now) =>
      PutPort(d, naming.idOf(load.identifier), Adopted(load, profile, naming, now));
    case Forget(id) => RemovePort(d, id);
  }

  /** In every run of starts, reloads, syncs and removals no two records share a host port. */
  lemma {:induction false} PortsStayUnique(gpus: seq<Gpu>, states: seq<Instances>, steps: seq<Step>, n: nat)
    requires IsRun(gpus, states, steps) && PortsUnique(states[0]) && n < |states|
    ensures states[n].Valid() && PortsUnique(states[n])
  {
    RunSteps(gpus, states, steps, n);
    hide *;
    if n > 0 {
      PortsStayUnique(gpus, states, steps, n - 1);
      StepPorts(gpus, states[n - 1], steps[n - 1], states[n]);
    }
  }

  // ---- memory -----------------------------------------------------------------------------

  ghost predicate DistinctGpus(gpus: seq<Gpu>) {
    forall i, j | 0 <= i < j < |gpus| :: gpus[i].id != gpus[j].id
  }

  /** Sums of reservations fit into the free memory of the snapshot. */
  ghost predicate Safe(gpus: seq<Gpu>, d: Instances)
    requires d.Valid()
  {
    && (forall id | id in d.items :: d.items[id].reserved >= 0)
    && (forall g | g in gpus :: ReservedOn(d.Values(), g.id) <= g.free)
  }

  /** Starts that looked for room themselves; planned starts and discovered loads did not. */
  predicate Checked(step: Step) {
    !step.Planned? && !step.Discover? && (step.Reserve? ==> step.profile.Required() >= 0)
  }

  /** An allocation adds exactly the required memory, to one GPU that is allowed and has the most room. */
  lemma {:induction false} AllocationAdds(d: Instances, profile: Profile, gpus: seq<Gpu>, start: Start, placed: Placed,
                                          e: Instances, gpu: string)
    requires d.Valid() && start.id !in d.items && Places(d, profile, gpus, start, placed, e)
    ensures e.Valid()
    ensures !placed.Reserved? ==> e == d
    ensures placed.Reserved? ==>
      ReservedOn(e.Values(), gpu) == ReservedOn(d.Values(), gpu) + if gpu == placed.gpu then profile.Required() else 0
    ensures placed.Reserved? ==>
      exists g :: g in gpus && g.id == placed.gpu && Candidate(profile, g, d.Values())
        && forall h | h in gpus && Allowed(profile, h) :: Room(h, d.Values()) <= Room(g, d.Values())
  {
    if placed.Reserved? {
      var i := placed.instance;
      PutReserved(d, start.id, i, gpu);
      HoldingOfNew(profile, placed.gpu, i.port.value, start, gpu);
      var available :| IsPlacement(profile, gpus, d.Values(), Placement.Start(placed.gpu, available));
      var k: nat :| k < |gpus| && Candidate(profile, gpus[k], d.Values())
        && gpus[k].id == placed.gpu && Room(gpus[k], d.Values()) == available
        && (forall j | 0 <= j < |gpus| && Allowed(profile, gpus[j]) :: Room(gpus[j], d.Values()) <= available);
      assert gpus[k] in gpus;
      hide ReservedOn, Allowed, Dict.Values, Room, Candidate;
    }
  }

  lemma {:induction false} HoldingOfNew(profile: Profile, gpu: string, port: int, start: Start, other: string)
    ensures Holding(other)(NewInstance(profile, gpu, profile.Required(), port, start))
      == if other == gpu then profile.Required() else 0
  {
    assert Occurrences([gpu], other) == if other == gpu then 1 else 0;
  }

  /** Even where others have overbooked a GPU, an allocation never pushes one over its free memory. */
  lemma {:induction false} AllocationFits(d: Instances, profile: Profile, gpus: seq<Gpu>, start: Start, placed: Placed,
                                          e: Instances, g: Gpu)
    requires d.Valid() && start.id !in d.items && Places(d, profile, gpus, start, placed, e)
    requires DistinctGpus(gpus) && g in gpus
    ensures e.Valid()
    ensures ReservedOn(e.Values(), g.id) <= Max(ReservedOn(d.Values(), g.id), g.free)
  {
    AllocationAdds(d, profile, gpus, start, placed, e, g.id);
    if placed.Reserved? && g.id == placed.gpu {
      var h :| h in gpus && h.id == placed.gpu && Candidate(profile, h, d.Values());
      assert g == h;
    }
    hide ReservedOn, Places;
  }

  lemma {:induction false} UpdateReserved(d: Instances, id: string, i: Instance, gpu: string)
    requires d.Valid() && id in d.items && d.items[id].reserved >= 0
    requires i.gpus == d.items[id].gpus && i.reserved == d.items[id].reserved
    requires i.state.Reserved() ==> d.items[id].state.Reserved()
    ensures ReservedOn(d.Put(id, i).Values(), gpu) <= ReservedOn(d.Values(), gpu)
  {
    hide *;
    PutReserved(d, id, i, gpu);
    HoldsNoMore(i, d.items[id], gpu);
  }

  lemma {:induction false} HoldsNoMore(i: Instance, j: Instance, gpu: string)
    requires i.gpus == j.gpus && i.reserved == j.reserved >= 0 && (i.state.Reserved() ==> j.state.Reserved())
    ensures Holding(gpu)(i) <= Holding(gpu)(j)
  {
    HoldingNonNegative(j, gpu);
    hide Occurrences, BackendState.Reserved;
  }

  /** Nothing but an allocation ever takes more memory. */
  lemma {:induction false} StepFrees(gpus: seq<Gpu>, d: Instances, step: Step, e: Instances, gpu: string)
    requires d.Valid() && Next(gpus, d, step, e) && Checked(step) && !step.Reserve?
    requires forall id | id in d.items :: d.items[id].reserved >= 0
    ensures e.Valid() && ReservedOn(e.Values(), gpu) <= ReservedOn(d.Values(), gpu)
    ensures forall id | id in e.items :: e.items[id].reserved >= 0
  {
    NextValid(gpus, d, step, e);
    if step.Forget? {
      hide ReservedOn, Occurrences, Dict.Values, Dict.Valid;
      RemoveReserved(d, step.id, gpu);
      HoldingNonNegative(d.items[step.id], gpu);
    } else {
      var i := UpdateIs(gpus, d, step, e);
      hide *;
      UpdateReserved(d, step.id, i, gpu);
    }
  }

  /** The other steps rewrite one record and leave its memory and its GPUs alone. */
  lemma {:induction false} UpdateIs(gpus: seq<Gpu>, d: Instances, step: Step, e: Instances) returns (i: Instance)
    requires Next(gpus, d, step, e) && Checked(step) && !step.Reserve? && !step.Forget?
    ensures step.id in d.items && e == d.Put(step.id, i) && e.items == d.items[step.id := i]
    ensures i.gpus == d.items[step.id].gpus && i.reserved == d.items[step.id].reserved
    ensures i.state.Reserved() ==> d.items[step.id].state.Reserved()
  {
    hide Dict.Valid;
    i := e.items[step.id];
  }

  lemma {:induction false} HoldingNonNegative(i: Instance, gpu: string)
    requires i.reserved >= 0
    ensures Holding(gpu)(i) >= 0
  {
    assert Occurrences(i.gpus, gpu) * i.reserved >= 0;
  }

  lemma {:induction false} StepSafe(gpus: seq<Gpu>, d: Instances, step: Step, e: Instances)
    requires d.Valid() && DistinctGpus(gpus) && Next(gpus, d, step, e) && Checked(step) && Safe(gpus, d)
    ensures e.Valid() && Safe(gpus, e)
  {
    NextValid(gpus, d, step, e);
    hide ReservedOn, Dict.Values, Dict.Valid, IsPlacement, Candidate, NextPort;
    if step.Reserve? {
      forall g | g in gpus ensures ReservedOn(e.Values(), g.id) <= g.free {
        AllocationFits(d, step.profile, gpus, step.start, step.placed, e, g);
      }
    } else {
      StepFrees(gpus, d, step, e, "");
      forall g | g in gpus ensures ReservedOn(e.Values(), g.id) <= g.free {
        StepFrees(gpus, d, step, e, g.id);
      }
    }
  }

  /** Over runs of allocation, initialising, leasing, stopping and purging no GPU is ever overbooked. */
  lemma {:induction false} NeverOverbooked(gpus: seq<Gpu>, states: seq<Instances>, steps: seq<Step>, n: nat)
    requires IsRun(gpus, states, steps) && DistinctGpus(gpus) && Safe(gpus, states[0]) && n < |states|
    requires forall k | 0 <= k < |steps| :: Checked(steps[k])
    ensures states[n].Valid() && Safe(gpus, states[n])
  {
    if n > 0 {
      RunSteps(gpus, states, steps, n);
      assert Checked(steps[n - 1]);
      hide *;
      NeverOverbooked(gpus, states, steps, n - 1);
      StepSafe(gpus, states[n - 1], steps[n - 1], states[n]);
    }
  }
}
