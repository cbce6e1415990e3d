/** One reconcile of the lifecycle controller: sync, stop idle backends, plan every model, then start and reload. */
module Controller {
  import opened Wrappers
  import opened Dicts
  import opened Seqs
  import opened Fleet
  import opened Registry
  import opened Replicas
  import opened LiveSync
  import opened Scheduler
  import opened Runtime
  import opened ContextPlans
  import opened Reload
  import Cleanup

  // ---- planning one model -----------------------------------------------------------------

  datatype Action = StartOn(gpu: string) | ReloadOf(id: string) | Leave

  /** What the outside world answers while a model is planned and acted on. */
  datatype World = World(
    estimate: Option<int>,                                          // memory estimate of the LM Studio command line
    live: seq<Load>,                                                // what LM Studio lists as loaded
    start: Start, health: Health, stopFailure: Option<string>, now: Instant)

  /** `profile_with_lmstudio_estimate` after `profile_with_context_plan`. */
  function Effective(profile: Profile, plan: Option<ContextPlan>, world: World): Profile {
    var p := WithPlan(profile, plan);
    if p.runtime == "lmstudio" && Truthy(world.estimate) then p.(estimatedVram := world.estimate.value) else p
  }

  /** The plan and the estimate change what is started, not which model it is or how many it may have. */
  lemma {:induction false} EffectiveKeeps(d: Instances, profile: Profile, plan: Option<ContextPlan>, world: World)
    ensures var p := Effective(profile, plan, world);
      p.name == profile.name && p.maxReplicas == profile.maxReplicas
      && forall id :: Reloadable(d, p, id) <==> Reloadable(d, profile, id)
  {
  }

  /** `instance_with_live_lmstudio_shape`: all backends of one backend model are seen in the shape of one load. */
  function WithLiveShape(i: Instance, profile: Profile, world: World): Instance {
    var load := Inspected(world.live, i.backendModel);
    if profile.runtime != "lmstudio" || load.None? then i else Refreshed(i, load.value)
  }

  /** The live shape is what the first load of that name tells; where there is none the record stands as it is. */
  lemma {:induction false} LiveShapeIs(i: Instance, profile: Profile, world: World)
    ensures forall k: nat | profile.runtime == "lmstudio" && FirstNamed(world.live, i.backendModel, k) ::
      var l := world.live[k];
      WithLiveShape(i, profile, world)
        == i.(context := if l.context.Some? then l.context else i.context,
              parallel := if l.parallel.Some? then l.parallel else i.parallel, loadName := l.identifier)
    ensures profile.runtime != "lmstudio" || (forall k: nat :: !FirstNamed(world.live, i.backendModel, k)) ==>
      WithLiveShape(i, profile, world) == i
  {
    forall k: nat | FirstNamed(world.live, i.backendModel, k)
      ensures Inspected(world.live, i.backendModel) == Some(world.live[k])
    {
      InspectedFirst(world.live, i.backendModel, k);
    }
    if Inspected(world.live, i.backendModel).Some? { var _ := NamedFirst(world.live, i.backendModel); }
  }

  function LiveShapes(instances: seq<Instance>, profile: Profile, world: World): (r: seq<Instance>)
    ensures |r| == |instances| && forall k | 0 <= k < |r| :: r[k] == WithLiveShape(instances[k], profile, world)
  {
    seq(|instances|, k requires 0 <= k < |instances| => WithLiveShape(instances[k], profile, world))
  }

  function QueueLength(queues: map<string, int>, profile: Profile, plan: Option<ContextPlan>): int {
    Max(Lookup(queues, profile.name), if plan.Some? then plan.value.queuedTasks else 0)
  }

  /** Fewer active backends than `desired_replicas` asks for. */
  predicate Missing(values: seq<Instance>, profile: Profile, queueLength: int) {
    DesiredReplicas(profile, |ForModel(values, profile.name, true)|, queueLength)
      > |ForModel(values, profile.name, false)|
  }

  /** When a model is scaled up, reloaded, or left alone. */
  ghost predicate Planned(values: seq<Instance>, profile: Profile, plan: Option<ContextPlan>, queues: map<string, int>,
                          gpus: seq<Gpu>, world: World, action: Action)
  {
    var p := Effective(profile, plan, world);
    var queue := QueueLength(queues, profile, plan);
    var oversized := plan.Some? && plan.value.oversized != [];
    var decision := Decide(p, LiveShapes(ForModel(values, p.name, false), p, world), plan, world.now);
    match action
    case StartOn(gpu) => !oversized && Missing(values, p, queue) && exists available ::
      IsPlacement(p, gpus, values, Placement.Start(gpu, available))
    case ReloadOf(id) => !oversized && !Missing(values, p, queue) && queue > 0 && decision.Some?
      && decision.value.Replace? && decision.value.id == id
    case Leave =>
      || oversized
      || (Missing(values, p, queue) && forall g | g in gpus :: !Candidate(p, g, values))
      || (!Missing(values, p, queue) && (queue <= 0 || decision.None? || decision.value.Hold?))
  }

  /** Requests wait for the model. */
  predicate Waiting(profile: Profile, plan: Option<ContextPlan>, queues: map<string, int>) {
    (profile.name in queues && queues[profile.name] > 0) || (plan.Some? && plan.value.queuedTasks > 0)
  }

  /** The model has fewer active backends than floor, ready ones and queue call for, and than it may have. */
  predicate TooFew(values: seq<Instance>, profile: Profile, waiting: bool) {
    var active, ready := |ForModel(values, profile.name, false)|, |ForModel(values, profile.name, true)|;
    var wanted := (if ready > profile.minReplicas then ready else profile.minReplicas) + if waiting then 1 else 0;
    active < profile.maxReplicas && active < wanted
  }

  /** When a backend is to be started: nothing is oversized, there are too few, and an allowed GPU has the room. */
  ghost predicate StartDue(values: seq<Instance>, profile: Profile, plan: Option<ContextPlan>,
                           queues: map<string, int>, gpus: seq<Gpu>, world: World)
  {
    var memory := if profile.runtime == "lmstudio" && world.estimate.Some? && world.estimate.value != 0
      then world.estimate.value else profile.estimatedVram;
    && (plan.Some? ==> plan.value.oversized == [])
    && TooFew(values, profile, Waiting(profile, plan, queues))
    && exists g ::
         g in gpus
         && ("auto" in profile.preferred || g.id in profile.preferred || g.index in profile.preferred)
         && g.free - ReservedOn(values, g.id) >= memory + profile.safetyMargin
  }

  /**
   * When a backend is to be replaced: requests wait, nothing is oversized, there are enough backends, and the first
   * live one that does not have the planned shape is one to replace.
   */
  ghost predicate ReloadDue(values: seq<Instance>, profile: Profile, plan: Option<ContextPlan>,
                            queues: map<string, int>, world: World, id: string)
  {
    && plan.Some? && plan.value.oversized == [] && profile.runtime == "lmstudio"
    && Waiting(profile, plan, queues) && !TooFew(values, profile, true)
    && var planned := plan.value.queuedTasks > 0;
    var context := if planned && plan.value.recommendedContext != 0 then Some(plan.value.recommendedContext)
      else profile.context;
    var parallel := if planned && plan.value.recommendedParallel != 0 then Some(plan.value.recommendedParallel)
      else profile.parallel;
    var shaped := profile.(context := context, parallel := parallel);
    var live := LiveShapes(ForModel(values, profile.name, false), profile, world);
    exists k: nat ::
      FirstMisfit(shaped, live, plan.value, k) && live[k].id == id
      && Renewable(live[k], context, parallel, profile.minDwell, profile.bucketOnly, plan.value.maxRequired, world.now)
  }

  lemma {:induction false} TooFewIs(values: seq<Instance>, profile: Profile, plan: Option<ContextPlan>,
                                    queues: map<string, int>, world: World)
    ensures Missing(values, Effective(profile, plan, world), QueueLength(queues, profile, plan)) <==>
      TooFew(values, profile, Waiting(profile, plan, queues))
    ensures QueueLength(queues, profile, plan) > 0 <==> Waiting(profile, plan, queues)
  {
    hide ForModel;
  }

  lemma {:induction false} RoomIs(values: seq<Instance>, profile: Profile, plan: Option<ContextPlan>, world: World,
                                  g: Gpu)
    ensures var memory := if profile.runtime == "lmstudio" && world.estimate.Some? && world.estimate.value != 0
        then world.estimate.value else profile.estimatedVram;
      Candidate(Effective(profile, plan, world), g, values) <==>
        && ("auto" in profile.preferred || g.id in profile.preferred || g.index in profile.preferred)
        && g.free - ReservedOn(values, g.id) >= memory + profile.safetyMargin
  {
    hide ReservedOn;
  }

  /** A backend is started exactly when one is due. */
  lemma {:induction false} StartsWhenDue(values: seq<Instance>, profile: Profile, plan: Option<ContextPlan>,
                                         queues: map<string, int>, gpus: seq<Gpu>, world: World, action: Action)
    requires Planned(values, profile, plan, queues, gpus, world, action)
    ensures action.StartOn? <==> StartDue(values, profile, plan, queues, gpus, world)
  {
    var p := Effective(profile, plan, world);
    TooFewIs(values, profile, plan, queues, world);
    forall g { RoomIs(values, profile, plan, world, g); }
    if action.StartOn? {
      var available :| IsPlacement(p, gpus, values, Placement.Start(action.gpu, available));
      var k: nat :| k < |gpus| && Candidate(p, gpus[k], values);
      assert gpus[k] in gpus;
    }
    hide ForModel, IsPlacement, Decide, LiveShapes, ReservedOn, Effective, QueueLength, Missing, TooFew, Waiting,
      Candidate;
  }

  /** The planned shape, as the decision to reload sees it. */
  lemma {:induction false} ShapeIs(values: seq<Instance>, profile: Profile, plan: ContextPlan, world: World,
                                   shaped: Profile, k: nat)
    requires var planned := plan.queuedTasks > 0;
      shaped == profile.(
        context := if planned && plan.recommendedContext != 0 then Some(plan.recommendedContext) else profile.context,
        parallel := if planned && plan.recommendedParallel != 0 then Some(plan.recommendedParallel)
        else profile.parallel)
    ensures var p := Effective(profile, Some(plan), world);
      var live := LiveShapes(ForModel(values, p.name, false), p, world);
      && live == LiveShapes(ForModel(values, profile.name, false), profile, world) && p.runtime == profile.runtime
      && (FirstMisfit(p, live, plan, k) <==> FirstMisfit(shaped, live, plan, k))
      && p.context == shaped.context && p.parallel == shaped.parallel
      && p.minDwell == profile.minDwell && p.bucketOnly == profile.bucketOnly
  {
    hide ForModel, Inspected, Refreshed;
  }

  predicate Replaces(decision: Option<Decision>, id: string) {
    decision.Some? && decision.value.Replace? && decision.value.id == id
  }

  lemma {:induction false} PlannedReload(values: seq<Instance>, profile: Profile, plan: Option<ContextPlan>,
                                         queues: map<string, int>, gpus: seq<Gpu>, world: World, action: Action,
                                         id: string)
    requires Planned(values, profile, plan, queues, gpus, world, action)
    ensures var p := Effective(profile, plan, world);
      var queue := QueueLength(queues, profile, plan);
      var live := LiveShapes(ForModel(values, p.name, false), p, world);
      action == ReloadOf(id) <==>
        && !(plan.Some? && plan.value.oversized != []) && !Missing(values, p, queue) && queue > 0
        && Replaces(Decide(p, live, plan, world.now), id)
  {
    hide ForModel, IsPlacement, Decide, LiveShapes, Effective, QueueLength, Missing, Candidate;
  }

  /** The decision replaces the first misfit, if that is one to replace. */
  lemma {:induction false} DecisionReplaces(p: Profile, live: seq<Instance>, plan: ContextPlan, now: Instant,
                                            id: string)
    ensures Replaces(Decide(p, live, Some(plan), now), id) <==>
      p.runtime == "lmstudio"
      && exists k: nat ::
           FirstMisfit(p, live, plan, k) && live[k].id == id
           && Renewable(live[k], p.context, p.parallel, p.minDwell, p.bucketOnly, plan.maxRequired, now)
  {
    var k := VerdictIsFirst(p, live, plan, now);
    DecideIs(p, live, plan, now);
    hide Decide, FirstVerdict, Fits, Renewable, Verdict;
    forall j: nat | FirstMisfit(p, live, plan, j)
      ensures FirstVerdict(p, live, plan, now).Some? && j == k
      ensures Verdict(p, live[j], plan, now).Some? && Verdict(p, live[j], plan, now).value.id == live[j].id
      ensures Verdict(p, live[j], plan, now).value.Replace? <==>
        Renewable(live[j], p.context, p.parallel, p.minDwell, p.bucketOnly, plan.maxRequired, now)
    {
      ReplacedIff(p, live[j], plan, now);
      VerdictId(p, live[j], plan, now);
      assert live[j] in live;
    }
  }

  lemma {:induction false} DecideIs(p: Profile, live: seq<Instance>, plan: ContextPlan, now: Instant)
    ensures Decide(p, live, Some(plan), now) ==
      if p.runtime != "lmstudio" then None else FirstVerdict(p, live, plan, now)
  {
  }

  /** A backend is replaced exactly when it is the one whose turn it is. */
  lemma {:induction false} ReloadsWhenDue(values: seq<Instance>, profile: Profile, plan: Option<ContextPlan>,
                                          queues: map<string, int>, gpus: seq<Gpu>, world: World, action: Action,
                                          id: string)
    requires Planned(values, profile, plan, queues, gpus, world, action)
    ensures action == ReloadOf(id) <==> ReloadDue(values, profile, plan, queues, world, id)
  {
    TooFewIs(values, profile, plan, queues, world);
    PlannedReload(values, profile, plan, queues, gpus, world, action, id);
    if plan.None? {
      NoPlanNoReload(values, profile, queues, world, id);
    } else {
      DueIs(values, profile, plan.value, queues, world, id);
    }
    hide *;
  }

  /** Both, for whatever is planned. */
  lemma {:induction false} ActsWhenDue(values: seq<Instance>, profile: Profile, plan: Option<ContextPlan>,
                                       queues: map<string, int>, gpus: seq<Gpu>, world: World, action: Action)
    requires Planned(values, profile, plan, queues, gpus, world, action)
    ensures Due(values, profile, plan, queues, gpus, world, action)
  {
    hide *;
    StartsWhenDue(values, profile, plan, queues, gpus, world, action);
    forall id ensures action == ReloadOf(id) <==> ReloadDue(values, profile, plan, queues, world, id) {
      ReloadsWhenDue(values, profile, plan, queues, gpus, world, action, id);
    }
    DueBoth(values, profile, plan, queues, gpus, world, action);
  }

  /** The action is a start iff a start is due, and the reload of a backend iff that is due. */
  ghost predicate Due(values: seq<Instance>, profile: Profile, plan: Option<ContextPlan>, queues: map<string, int>,
                      gpus: seq<Gpu>, world: World, action: Action)
  {
    && (action.StartOn? <==> StartDue(values, profile, plan, queues, gpus, world))
    && (forall id :: action == ReloadOf(id) <==> ReloadDue(values, profile, plan, queues, world, id))
  }

  lemma {:induction false} DueBoth(values: seq<Instance>, profile: Profile, plan: Option<ContextPlan>,
                                   queues: map<string, int>, gpus: seq<Gpu>, world: World, action: Action)
    requires action.StartOn? <==> StartDue(values, profile, plan, queues, gpus, world)
    requires forall id :: action == ReloadOf(id) <==> ReloadDue(values, profile, plan, queues, world, id)
    ensures Due(values, profile, plan, queues, gpus, world, action)
  {
    hide StartDue, ReloadDue;
  }

  lemma {:induction false} NoPlanNoReload(values: seq<Instance>, profile: Profile, queues: map<string, int>,
                                          world: World, id: string)
    ensures var p := Effective(profile, None, world);
      !Replaces(Decide(p, LiveShapes(ForModel(values, p.name, false), p, world), None, world.now), id)
    ensures !ReloadDue(values, profile, None, queues, world, id)
  {
    hide ForModel, LiveShapes, Effective;
  }

  lemma {:induction false} DueIs(values: seq<Instance>, profile: Profile, plan: ContextPlan, queues: map<string, int>,
                                 world: World, id: string)
    ensures var p := Effective(profile, Some(plan), world);
      var live := LiveShapes(ForModel(values, p.name, false), p, world);
      ReloadDue(values, profile, Some(plan), queues, world, id) <==>
        && plan.oversized == [] && Waiting(profile, Some(plan), queues)
        && !TooFew(values, profile, Waiting(profile, Some(plan), queues))
        && Replaces(Decide(p, live, Some(plan), world.now), id)
  {
    var p := Effective(profile, Some(plan), world);
    var live := LiveShapes(ForModel(values, p.name, false), p, world);
    DecisionReplaces(p, live, plan, world.now, id);
    var planned := plan.queuedTasks > 0;
    var shaped := profile.(
      context := if planned && plan.recommendedContext != 0 then Some(plan.recommendedContext) else profile.context,
      parallel := if planned && plan.recommendedParallel != 0 then Some(plan.recommendedParallel)
      else profile.parallel);
    forall k: nat { ShapeIs(values, profile, plan, world, shaped, k); }
    ShapeIs(values, profile, plan, world, shaped, 0);
    hide ForModel, LiveShapes, Effective, Decide, FirstMisfit, Renewable, Waiting, TooFew, Replaces;
  }

  method PlanModel(registry: BackendRegistry, profile: Profile, plan: Option<ContextPlan>, queues: map<string, int>,
                   gpus: seq<Gpu>, world: World)
    returns (action: Action)
    requires registry.Valid()
    ensures Planned(registry.instances.Values(), profile, plan, queues, gpus, world, action)
    ensures Due(registry.instances.Values(), profile, plan, queues, gpus, world, action)
  {
    hide IsPlacement, Candidate, Decide, Effective, ForModel, StartDue, ReloadDue;
    var p := Effective(profile, plan, world);
    var values := registry.instances.Values();
    var active := LiveShapes(ForModel(values, p.name, false), p, world);
    var queue := QueueLength(queues, profile, plan);
    action := Leave;
    if plan.None? || plan.value.oversized == [] {
      if Missing(values, p, queue) {
        var placement := ChooseGpu(p, gpus, registry);
        PlacementCases(p, gpus, values, placement);
        if placement.Start? { action := StartOn(placement.gpu); }
      } else if queue > 0 {
        var decision := Decide(p, active, plan, world.now);
        if decision.Some? && decision.value.Replace? { action := ReloadOf(decision.value.id); }
      }
    }
    ActsWhenDue(values, profile, plan, queues, gpus, world, action);
  }

  lemma {:induction false} PlacementCases(profile: Profile, gpus: seq<Gpu>, values: seq<Instance>, d: Placement)
    requires IsPlacement(profile, gpus, values, d)
    ensures d.Start? ==> exists available :: IsPlacement(profile, gpus, values, Placement.Start(d.gpu, available))
    ensures d.NoRoom? ==> forall g | g in gpus :: !Candidate(profile, g, values)
  {
    hide Candidate, Room;
    if d.Start? { assert IsPlacement(profile, gpus, values, Placement.Start(d.gpu, d.available)); }
  }

  predicate Reloadable(d: Instances, profile: Profile, id: string) {
    id in d.items && d.items[id].model == profile.name && d.items[id].state.Active()
  }

  /** A start is planned only below the ceiling; a reload only for an active backend of the model. */
  lemma {:induction false} PlannedMeans(d: Instances, profile: Profile, plan: Option<ContextPlan>,
                                        queues: map<string, int>, gpus: seq<Gpu>, world: World, action: Action)
    requires NoDuplicates(d) && Planned(d.Values(), profile, plan, queues, gpus, world, action)
    ensures action.StartOn? ==> Active(d, profile.name) < profile.maxReplicas
    ensures action.ReloadOf? ==> Reloadable(d, profile, action.id)
  {
    assert d.Valid();
    hide *;
    if action.StartOn? {
      StartsWhenDue(d.Values(), profile, plan, queues, gpus, world, action);
      StartBelow(d, profile, plan, queues, gpus, world);
    } else if action.ReloadOf? {
      PlannedReload(d.Values(), profile, plan, queues, gpus, world, action, action.id);
      EffectiveKeeps(d, profile, plan, world);
      var p := Effective(profile, plan, world);
      var s := ForModel(d.Values(), p.name, false);
      var live := LiveShapes(s, p, world);
      DecidesOnPlan(p, live, plan, world.now, action.id);
      var k := DecisionIs(p, live, plan.value, world.now);
      VerdictId(p, live[k], plan.value, world.now);
      MisfitActive(d, s, live, p, world, plan.value, k);
    }
  }

  lemma {:induction false} StartBelow(d: Instances, profile: Profile, plan: Option<ContextPlan>,
                                      queues: map<string, int>, gpus: seq<Gpu>, world: World)
    requires d.Valid() && StartDue(d.Values(), profile, plan, queues, gpus, world)
    ensures Active(d, profile.name) < profile.maxReplicas
  {
    ActiveIs(d.Values(), profile.name);
    hide ForModel, Dict.Values, Dict.Valid, ReservedOn, Waiting;
  }

  lemma {:induction false} DecidesOnPlan(p: Profile, live: seq<Instance>, plan: Option<ContextPlan>, now: Instant,
                                         id: string)
    requires Replaces(Decide(p, live, plan, now), id)
    ensures plan.Some? && Decide(p, live, plan, now).Some? && Decide(p, live, plan, now).value.id == id
  {
    hide FirstVerdict;
  }

  /** A misfit of the list that a plan sees is an active backend of the model. */
  lemma {:induction false} MisfitActive(d: Instances, s: seq<Instance>, live: seq<Instance>, p: Profile, world: World,
                                        plan: ContextPlan, k: nat)
    requires NoDuplicates(d) && s == ForModel(d.Values(), p.name, false) && live == LiveShapes(s, p, world)
    requires FirstMisfit(p, live, plan, k)
    ensures d.Valid() && k < |s| == |live| && live[k].id == s[k].id
    ensures s[k].id in d.items && s[k] == d.items[s[k].id] && Reloadable(d, p, live[k].id)
  {
    Cleanup.ValuesDistinct(d);
    hide NoDuplicates, ForModel, Dict.Values, Dict.Valid, Fits;
    assert s[k] in s;
  }

  lemma {:induction false} VerdictId(profile: Profile, i: Instance, plan: ContextPlan, now: Instant)
    ensures Verdict(profile, i, plan, now).Some? ==> Verdict(profile, i, plan, now).value.id == i.id
  {
  }

  // ---- acting on one model ----------------------------------------------------------------

  datatype Done = Acted | Renewed | Aborted

  /** One new record, with the shape of its profile. */
  ghost predicate Joined(d: Instances, e: Instances, profile: Profile, id: string) {
    exists i: Instance :: i.id == id && i.model == profile.name && ShapedBy(i, profile) && e == d.Put(id, i)
  }

  /** An old record stopped, and a successor of the profile's shape. */
  ghost predicate Succeeded(d: Instances, e: Instances, profile: Profile, id: string, successor: string) {
    exists stopped: Instance :: stopped.model == profile.name && !stopped.state.Active()
      && Joined(d.Put(id, stopped), e, profile, successor)
  }

  /** What starting, registering and initialising one backend leaves: nothing when the adapter raises. */
  ghost predicate Starts(d: Instances, profile: Profile, gpu: string, world: World, done: Done, e: Instances) {
    if world.start.raises then done.Aborted? && e == d
    else done.Renewed? && exists port :: StartsAt(d, profile, gpu, world, port, e)
  }

  /** The new record has the least free port, the required memory, and the state that initialising ends in. */
  ghost predicate StartsAt(d: Instances, profile: Profile, gpu: string, world: World, port: int, e: Instances) {
    && d.Valid() && NextPort(d.Values(), profile.portStart, port)
    && e == d.Put(world.start.id,
                  Initialised(NewInstance(profile, gpu, profile.Required(), port, world.start), world.health,
                              world.now))
  }

  /** Starting, registering and initialising one backend. */
  method StartAndInitialize(registry: BackendRegistry, profile: Profile, gpu: string, world: World) returns (done: Done)
    requires registry.Valid() && world.start.id !in registry.instances.items
    modifies registry
    ensures registry.Valid()
    ensures Grows(old(registry.instances), registry.instances, profile.name, 1)
    ensures OthersKept(old(registry.instances), registry.instances, profile.name)
    ensures ServingKept(old(registry.instances), registry.instances)
    ensures registry.instances.items.Keys <= old(registry.instances.items).Keys + {world.start.id}
    ensures done.Aborted?
      || (done.Renewed? && Joined(old(registry.instances), registry.instances, profile, world.start.id))
    ensures Starts(old(registry.instances), profile, gpu, world, done, registry.instances)
  {
    ghost var d := registry.instances;
    hide Grows, OthersKept, ServingKept, NoDuplicates, NextPort;
    NothingGrows(d, profile.name, 1);
    var started := StartInstance(registry, profile, gpu, profile.Required(), world.start);
    if started.None? { return Aborted; }
    var i := started.value;
    registry.Upsert(i, true, world.start.now);
    var ready, _ := InitializeInstance(registry, i.id, world.health, world.now);
    PutTwice(d, i.id, i.(updatedAt := world.start.now), ready);
    PutGrows(d, i.id, ready, 1);
    assert registry.instances == d.Put(i.id, ready) && ShapedBy(ready, profile) && ready.model == profile.name;
    assert StartsAt(d, profile, gpu, world, i.port.value, registry.instances);
    return Renewed;
  }

  lemma {:induction false} NothingGrows(d: Instances, model: string, n: nat)
    requires d.Valid()
    ensures Grows(d, d, model, n) && OthersKept(d, d, model) && ServingKept(d, d)
  {
  }

  /** What a reload leaves: a drained, a spared, or a stopped and replaced backend. */
  ghost predicate Reloads(d: Instances, profile: Profile, id: string, world: World, done: Done, e: Instances)
    requires id in d.items
  {
    var i := d.items[id];
    if i.active > 0 then done.Acted? && e == if i.state.Draining? then d else d.Put(id, i.Marked(Draining, world.now))
    else if i.runtime == "lmstudio" && !i.dryRun && !i.ownedLoad then done.Acted? && e == d
    else Exchanges(d, profile, id, world, done, e)
  }

  /** What a reload that is not put off leaves. */
  ghost predicate Exchanges(d: Instances, profile: Profile, id: string, world: World, done: Done, e: Instances)
    requires id in d.items
  {
    var rest := d.Put(id, StoppedAs(d.items[id], world.stopFailure, world.now));
    if d.items[id].gpus == [] then done.Aborted? && e == rest
      else Starts(rest, profile, d.items[id].gpus[0], world, done, e)
  }

  /** `reload_instance`: a backend that serves requests is only drained; one that is not ours is left alone. */
  method ReloadInstance(registry: BackendRegistry, profile: Profile, id: string, world: World) returns (done: Done)
    requires registry.Valid() && world.start.id !in registry.instances.items
    requires Reloadable(registry.instances, profile, id)
    modifies registry
    ensures registry.Valid()
    ensures Grows(old(registry.instances), registry.instances, profile.name, 0)
    ensures OthersKept(old(registry.instances), registry.instances, profile.name)
    ensures ServingKept(old(registry.instances), registry.instances)
    ensures registry.instances.items.Keys <= old(registry.instances.items).Keys + {world.start.id}
    ensures done.Renewed? ==> Succeeded(old(registry.instances), registry.instances, profile, id, world.start.id)
    ensures Reloads(old(registry.instances), profile, id, world, done, registry.instances)
  {
    ghost var d := registry.instances;
    assert d.Valid() && id in d.items && d.items[id].model == profile.name && d.items[id].state.Active()
      && d.items[id].id == id;
    hide Grows, OthersKept, ServingKept, NoDuplicates, Joined, Starts, Reloads, StoppedAs, Succeeded, Dict.Valid,
      Reloadable;
    NothingGrows(d, profile.name, 0);
    var i := registry.instances.items[id];
    if i.active > 0 {
      if !i.state.Draining? {
        PutGrows(d, id, i.Marked(Draining, world.now), 0);
        var _ := registry.MarkState(id, Draining, world.now);
      }
      Spared(d, profile, id, world, registry.instances);
      return Acted;
    }
    if i.runtime == "lmstudio" && !i.dryRun && !i.ownedLoad {
      Spared(d, profile, id, world, d);
      return Acted;
    }
    done := Exchange(registry, profile, id, world);
    ReloadsBy(d, profile, id, world, done, registry.instances);
  }

  lemma {:induction false} ReloadsBy(d: Instances, profile: Profile, id: string, world: World, done: Done, e: Instances)
    requires id in d.items && d.items[id].active <= 0
      && !(d.items[id].runtime == "lmstudio" && !d.items[id].dryRun && !d.items[id].ownedLoad)
    requires Exchanges(d, profile, id, world, done, e)
    ensures Reloads(d, profile, id, world, done, e)
  {
    hide Exchanges;
  }

  /** The last part of `reload_instance`: stop the old backend, then start its successor. */
  method Exchange(registry: BackendRegistry, profile: Profile, id: string, world: World) returns (done: Done)
    requires registry.Valid() && world.start.id !in registry.instances.items
    requires Reloadable(registry.instances, profile, id) && registry.instances.items[id].active <= 0
    modifies registry
    ensures registry.Valid()
    ensures Grows(old(registry.instances), registry.instances, profile.name, 0)
    ensures OthersKept(old(registry.instances), registry.instances, profile.name)
    ensures ServingKept(old(registry.instances), registry.instances)
    ensures registry.instances.items.Keys <= old(registry.instances.items).Keys + {world.start.id}
    ensures done.Renewed? ==> Succeeded(old(registry.instances), registry.instances, profile, id, world.start.id)
    ensures !done.Acted? && Exchanges(old(registry.instances), profile, id, world, done, registry.instances)
  {
    ghost var d := registry.instances;
    ReloadableIs(d, profile, id);
    var i := registry.instances.items[id];
    hide *;
    StoppedIs(i, world);
    var stopped, _ := StopInstance(registry, id, world.stopFailure, world.now);
    StopShrinks(d, id, stopped);
    ghost var e := registry.instances;
    if i.gpus == [] {
      GrowsLess(d, e, profile.name);
      ExchangesBy(d, profile, id, world, e, Aborted, e);
      return Aborted;                         // no GPU to start on: the lookup raises
    }
    done := StartAndInitialize(registry, profile, i.gpus[0], world);
    ExchangesBy(d, profile, id, world, e, done, registry.instances);
    GrowsTwice(d, e, registry.instances, profile.name, -1, 1);
    if done.Renewed? { SucceededBy(d, registry.instances, profile, id, world.start.id, stopped); }
  }

  lemma {:induction false} ReloadableIs(d: Instances, profile: Profile, id: string)
    requires NoDuplicates(d) && Reloadable(d, profile, id)
    ensures d.Valid() && id in d.items && d.items[id].id == id
    ensures d.items[id].model == profile.name && d.items[id].state.Active()
  {
  }

  lemma {:induction false} ExchangesBy(d: Instances, profile: Profile, id: string, world: World, rest: Instances,
                                       done: Done, e: Instances)
    requires id in d.items && rest == d.Put(id, StoppedAs(d.items[id], world.stopFailure, world.now))
    requires if d.items[id].gpus == [] then done.Aborted? && e == rest
      else Starts(rest, profile, d.items[id].gpus[0], world, done, e)
    ensures Exchanges(d, profile, id, world, done, e)
  {
    hide Starts, StoppedAs, Dict.Put;
  }

  lemma {:induction false} SucceededBy(d: Instances, e: Instances, profile: Profile, id: string, successor: string,
                                       stopped: Instance)
    requires stopped.model == profile.name && !stopped.state.Active()
      && Joined(d.Put(id, stopped), e, profile, successor)
    ensures Succeeded(d, e, profile, id, successor)
  {
    hide Joined;
  }

  lemma {:induction false} StoppedIs(i: Instance, world: World)
    ensures var stopped := StoppedAs(i, world.stopFailure, world.now);
      stopped.model == i.model && !stopped.state.Active()
  {
  }

  /** Nothing is stopped: only a busy backend that is not draining yet changes. */
  lemma {:induction false} Spared(d: Instances, profile: Profile, id: string, world: World, e: Instances)
    requires id in d.items
    requires var i := d.items[id];
      if i.active > 0 && !i.state.Draining? then e == d.Put(id, i.Marked(Draining, world.now))
      else e == d && (i.active > 0 || (i.runtime == "lmstudio" && !i.dryRun && !i.ownedLoad))
    ensures Reloads(d, profile, id, world, Acted, e)
  {
  }

  lemma {:induction false} StopShrinks(d: Instances, id: string, stopped: Instance)
    requires d.Valid() && id in d.items && d.items[id].state.Active() && d.items[id].active <= 0
    requires stopped.model == d.items[id].model && !stopped.state.Active()
    ensures Grows(d, d.Put(id, stopped), stopped.model, -1)
    ensures OthersKept(d, d.Put(id, stopped), stopped.model) && ServingKept(d, d.Put(id, stopped))
  {
    StopKeeps(d, id, stopped);
    forall m { StopActive(d, id, stopped, m); }
    hide Active, ServingKept, OthersKept;
  }

  lemma {:induction false} StopKeeps(d: Instances, id: string, stopped: Instance)
    requires d.Valid() && id in d.items && d.items[id].active <= 0 && stopped.model == d.items[id].model
    ensures d.Put(id, stopped).Valid()
    ensures OthersKept(d, d.Put(id, stopped), stopped.model) && ServingKept(d, d.Put(id, stopped))
  {
    hide Dict.Valid;
  }

  lemma {:induction false} StopActive(d: Instances, id: string, stopped: Instance, m: string)
    requires d.Valid() && id in d.items && d.items[id].state.Active()
    requires stopped.model == d.items[id].model && !stopped.state.Active()
    ensures d.Put(id, stopped).Valid()
    ensures Active(d.Put(id, stopped), m) == Active(d, m) - if m == stopped.model then 1 else 0
  {
    PutActive(d, id, stopped, m);
    hide Active, Dict.Valid;
  }

  lemma {:induction false} GrowsLess(d: Instances, e: Instances, model: string)
    requires Grows(d, e, model, -1)
    ensures Grows(d, e, model, 0)
  {
    hide Active;
  }

  ghost predicate Acts(d: Instances, profile: Profile, action: Action, world: World, done: Done, e: Instances) {
    match action
    case StartOn(gpu) => Starts(d, profile, gpu, world, done, e)
    case ReloadOf(id) => id in d.items && Reloads(d, profile, id, world, done, e)
    case Leave => done.Acted? && e == d
  }

  method Act(registry: BackendRegistry, profile: Profile, action: Action, world: World) returns (done: Done)
    requires registry.Valid() && world.start.id !in registry.instances.items
    requires action.ReloadOf? ==> Reloadable(registry.instances, profile, action.id)
    modifies registry
    ensures registry.Valid()
    ensures Grows(old(registry.instances), registry.instances, profile.name, if action.StartOn? then 1 else 0)
    ensures OthersKept(old(registry.instances), registry.instances, profile.name)
    ensures ServingKept(old(registry.instances), registry.instances)
    ensures registry.instances.items.Keys <= old(registry.instances.items).Keys + {world.start.id}
    ensures Acts(old(registry.instances), profile, action, world, done, registry.instances)
  {
    NothingGrows(registry.instances, profile.name, 0);
    hide Grows, OthersKept, ServingKept, NoDuplicates, Starts, Reloads;
    match action
    case StartOn(gpu) => done := StartAndInitialize(registry, profile, gpu, world);
    case ReloadOf(id) => done := ReloadInstance(registry, profile, id, world);
    case Leave => return Acted;
  }

  // ---- the whole reconcile ----------------------------------------------------------------

  lemma {:induction false} StopsShrink(d: Instances, victims: seq<Instance>, failures: Cleanup.Failures, now: Instant)
    requires NoDuplicates(d)
    requires forall i | i in victims :: i.id in d.items && d.items[i.id] == i && i.active == 0
    ensures var e := Cleanup.StopAll(d, victims, failures, now);
      Shrinks(d, e) && ServingKept(d, e) && NoDuplicates(e) && e.items.Keys == d.items.Keys
  {
    var e := Cleanup.StopAll(d, victims, failures, now);
    Cleanup.StopAllIs(d, victims, failures, now);
    assert d.Valid() && e.Valid();
    hide *;
    forall m { StopsActive(d, e, failures, now, m); }
    StopsKeep(d, e);
    AllShrink(d, e);
  }

  lemma {:induction false} AllShrink(d: Instances, e: Instances)
    requires d.Valid() && e.Valid() && forall m :: Active(e, m) <= Active(d, m)
    ensures Shrinks(d, e)
  {
    hide Active, Dict.Valid;
  }

  lemma {:induction false} StopsKeep(d: Instances, e: Instances)
    requires forall id | id in d.items :: id in e.items && (e.items[id] == d.items[id] || d.items[id].active == 0)
    ensures ServingKept(d, e)
  {
  }

  lemma {:induction false} StopsActive(d: Instances, e: Instances, failures: Cleanup.Failures, now: Instant, m: string)
    requires d.Valid() && e.Valid() && e.keys == d.keys
    requires forall id | id in d.items ::
      id in e.items && (e.items[id] == d.items[id] || e.items[id] == Cleanup.Ending(d.items[id], failures, now))
    ensures Active(e, m) <= Active(d, m)
  {
    hide ActiveIn, Cleanup.Ending;
    forall k | 0 <= k < |d.keys| ensures ActiveIn(m)(e.Values()[k]) <= ActiveIn(m)(d.Values()[k]) {
      EndingInactive(d.Values()[k], failures, now, m);
    }
    hide Dict.Values, Dict.Valid;
    SumLess(e.Values(), d.Values(), ActiveIn(m));
  }

  lemma {:induction false} EndingInactive(i: Instance, failures: Cleanup.Failures, now: Instant, model: string)
    ensures ActiveIn(model)(Cleanup.Ending(i, failures, now)) == 0 <= ActiveIn(model)(i)
  {
  }

  /** The inputs of a reconcile: one world per model, and instance ids that nobody has used. */
  ghost predicate Inputs(d: Instances, profiles: seq<Profile>, naming: Naming, worlds: seq<World>) {
    && Cleanup.DistinctNames(profiles) && Unused(d, worlds)
    && |worlds| == |profiles|
    && (forall i, name | 0 <= i < |worlds| :: worlds[i].start.id != naming.idOf(name))
  }

  /** No model exceeds the larger of its ceiling and what it had. */
  ghost predicate Ceiling(d: Instances, e: Instances, profiles: seq<Profile>) {
    && d.Valid() && e.Valid()
    && (forall k | 0 <= k < |profiles| ::
          Active(e, profiles[k].name) <= Max(Active(d, profiles[k].name), profiles[k].maxReplicas))
    && (forall m :: (forall k | 0 <= k < |profiles| :: profiles[k].name != m) ==> Active(e, m) <= Active(d, m))
  }

  function PlanOf(plans: map<string, ContextPlan>, model: string): Option<ContextPlan> {
    if model in plans then Some(plans[model]) else None
  }

  /** The registry after idle backends were stopped. */
  ghost function Swept(d: Instances, profiles: seq<Profile>, queues: map<string, int>, failures: Cleanup.Failures,
                       now: Instant): (e: Instances)
    requires d.Valid()
    ensures e.Valid()
  {
    Cleanup.StopAll(d, Cleanup.AllVictims(d.Values(), profiles, queues, now), failures, now)
  }

  /** The registry on which a reconcile plans. */
  ghost function Base(d: Instances, profiles: seq<Profile>, queues: map<string, int>, loads: map<string, seq<Load>>,
                      naming: Naming, failures: Cleanup.Failures, now: Instant): (e: Instances)
    requires d.Valid()
    ensures e.Valid()
  {
    Swept(SyncedAll(d, profiles, loads, naming, now), profiles, queues, failures, now)
  }

  /** `reconcile`. */
  method Reconcile(registry: BackendRegistry, profiles: seq<Profile>, queues: map<string, int>,
                   plans: map<string, ContextPlan>, gpus: seq<Gpu>, loads: map<string, seq<Load>>, naming: Naming,
                   worlds: seq<World>, failures: Cleanup.Failures, now: Instant)
    returns (stopped: seq<Instance>, actions: seq<Action>, aborted: bool, ghost trail: seq<Instances>)
    requires registry.Valid() && Inputs(registry.instances, profiles, naming, worlds)
    modifies registry
    ensures registry.Valid()
    ensures |actions| == |worlds| == |profiles|
    // synchronised, then swept; every model planned on that; then the turns in order
    ensures Turns(trail, aborted, profiles, plans, actions, worlds) && (aborted || |trail| == |profiles| + 1)
    ensures trail[|trail| - 1] == registry.instances
    ensures trail[0] == Base(old(registry.instances), profiles, queues, loads, naming, failures, now)
    ensures forall k | 0 <= k < |profiles| ::
      Planned(trail[0].Values(), profiles[k], PlanOf(plans, profiles[k].name), queues, gpus, worlds[k], actions[k])
    // a start is planned iff one is due on the base, and a reload of a backend iff that is due
    ensures forall k | 0 <= k < |profiles| ::
      Due(trail[0].Values(), profiles[k], PlanOf(plans, profiles[k].name), queues, gpus, worlds[k], actions[k])
    ensures Ceiling(old(registry.instances), registry.instances, profiles)
    ensures Clear(old(registry.instances), naming) ==> ServingKept(old(registry.instances), registry.instances)
  {
    ghost var d := registry.instances;
    hide Shrinks, NoDuplicates, Ceiling, ServingKept, Inputs, Planned, Due, Turns, SyncedAll, Cleanup.StopAll,
      Cleanup.AllVictims, Clear;
    BaseIs(d, profiles, queues, loads, naming, failures, now, worlds);
    SyncLive(registry, profiles, loads, naming, now);
    stopped := Cleanup.StopIdleInstances(registry, profiles, queues, failures, now);
    ghost var e := registry.instances;
    actions := PlanAll(registry, profiles, queues, plans, gpus, worlds);
    aborted, trail := ActAll(registry, profiles, plans, actions, worlds);
    CeilingFrom(d, e, registry.instances, profiles);
    if Clear(d, naming) { KeptTwice(d, e, registry.instances); }
  }

  /** Before the first plan: nothing is started, nothing that serves is stopped, and the fresh ids are still unused. */
  lemma {:induction false} BaseIs(d: Instances, profiles: seq<Profile>, queues: map<string, int>,
                                  loads: map<string, seq<Load>>, naming: Naming, failures: Cleanup.Failures,
                                  now: Instant, worlds: seq<World>)
    requires NoDuplicates(d) && Inputs(d, profiles, naming, worlds)
    ensures var e := Base(d, profiles, queues, loads, naming, failures, now);
      && NoDuplicates(e) && Shrinks(d, e) && Unused(e, worlds)
      && (Clear(d, naming) ==> ServingKept(d, e))
    ensures Cleanup.DistinctNames(profiles) && |worlds| == |profiles|
    ensures NoDuplicates(SyncedAll(d, profiles, loads, naming, now))
  {
    var c := SyncedAll(d, profiles, loads, naming, now);
    var e := Base(d, profiles, queues, loads, naming, failures, now);
    SyncedSyncs(d, profiles, loads, naming, now);
    assert Syncs(d, c, naming);
    IdleSweepShrinks(c, profiles, queues, failures, now);
    hide SyncedAll, Cleanup.StopAll, Cleanup.AllVictims, NoDuplicates, Shrinks, ServingKept, Clear;
    ShrinksTwice(d, c, e);
    if Clear(d, naming) { KeptTwice(d, c, e); }
    assert forall id | id in e.items :: id in c.items.Keys;
  }

  ghost predicate Unused(d: Instances, worlds: seq<World>) {
    && (forall i, j | 0 <= i < j < |worlds| :: worlds[i].start.id != worlds[j].start.id)
    && (forall i | 0 <= i < |worlds| :: worlds[i].start.id !in d.items)
  }

  lemma {:induction false} IdleSweepShrinks(d: Instances, profiles: seq<Profile>, queues: map<string, int>,
                                            failures: Cleanup.Failures, now: Instant)
    requires NoDuplicates(d)
    ensures var e := Cleanup.StopAll(d, Cleanup.AllVictims(d.Values(), profiles, queues, now), failures, now);
      Shrinks(d, e) && ServingKept(d, e) && NoDuplicates(e) && e.items.Keys == d.items.Keys
  {
    Cleanup.AllVictimsAre(d, profiles, queues, now);
    Cleanup.AllVictimsReady(d, profiles, queues, now);
    assert forall i | i in Cleanup.AllVictims(d.Values(), profiles, queues, now) :: i.active == 0;
    hide Cleanup.AllVictims, Cleanup.StopAll, NoDuplicates, Shrinks;
    StopsShrink(d, Cleanup.AllVictims(d.Values(), profiles, queues, now), failures, now);
  }

  /** An action that was sound when it was planned. */
  ghost predicate Sound(d: Instances, profile: Profile, action: Action) {
    && d.Valid()
    && (action.StartOn? ==> Active(d, profile.name) < profile.maxReplicas)
    && (action.ReloadOf? ==> Reloadable(d, profile, action.id))
  }

  /** `plan`: every model is planned on the same registry before anything starts. */
  method PlanAll(registry: BackendRegistry, profiles: seq<Profile>, queues: map<string, int>,
                 plans: map<string, ContextPlan>, gpus: seq<Gpu>, worlds: seq<World>) returns (actions: seq<Action>)
    requires registry.Valid() && |worlds| == |profiles|
    ensures |actions| == |profiles|
    ensures forall k | 0 <= k < |profiles| ::
      Planned(registry.instances.Values(), profiles[k], PlanOf(plans, profiles[k].name), queues, gpus, worlds[k],
              actions[k])
    ensures forall k | 0 <= k < |profiles| ::
      Due(registry.instances.Values(), profiles[k], PlanOf(plans, profiles[k].name), queues, gpus, worlds[k],
          actions[k])
    ensures forall k | 0 <= k < |profiles| :: Sound(registry.instances, profiles[k], actions[k])
  {
    hide Planned, StartDue, ReloadDue;
    actions := [];
    for k := 0 to |profiles|
      invariant |actions| == k
      invariant forall j | 0 <= j < k ::
        Planned(registry.instances.Values(), profiles[j], PlanOf(plans, profiles[j].name), queues, gpus, worlds[j],
                actions[j])
      invariant forall j | 0 <= j < k ::
        Due(registry.instances.Values(), profiles[j], PlanOf(plans, profiles[j].name), queues, gpus, worlds[j],
            actions[j])
      invariant forall j | 0 <= j < k :: Sound(registry.instances, profiles[j], actions[j])
    {
      var action := PlanModel(registry, profiles[k], PlanOf(plans, profiles[k].name), queues, gpus, worlds[k]);
      PlannedMeans(registry.instances, profiles[k], PlanOf(plans, profiles[k].name), queues, gpus, worlds[k], action);
      actions := actions + [action];
    }
  }

  /** One turn of the loop: the planned action, with the profile derived again. */
  ghost predicate Turn(d: Instances, profile: Profile, plan: Option<ContextPlan>, action: Action, world: World,
                       aborted: bool, e: Instances) {
    exists done :: Acts(d, Effective(profile, plan, world), action, world, done, e) && (aborted <==> done.Aborted?)
  }

  /** The registry before and after every turn; an abort ends the loop. */
  ghost predicate Turns(trail: seq<Instances>, aborted: bool, profiles: seq<Profile>, plans: map<string, ContextPlan>,
                        actions: seq<Action>, worlds: seq<World>)
    requires |worlds| == |actions| == |profiles|
  {
    && 1 <= |trail| <= |profiles| + 1
    && (aborted ==> |trail| >= 2)
    && (forall k | 0 <= k < |trail| - 1 ::
          Turn(trail[k], profiles[k], PlanOf(plans, profiles[k].name), actions[k], worlds[k],
               aborted && k == |trail| - 2, trail[k + 1]))
  }

  lemma {:induction false} OneTurnMore(trail: seq<Instances>, e: Instances, aborted: bool, profiles: seq<Profile>,
                                       plans: map<string, ContextPlan>, actions: seq<Action>, worlds: seq<World>)
    requires |worlds| == |actions| == |profiles| && Turns(trail, false, profiles, plans, actions, worlds)
      && |trail| <= |profiles|
    requires var k := |trail| - 1;
      Turn(trail[k], profiles[k], PlanOf(plans, profiles[k].name), actions[k], worlds[k], aborted, e)
    ensures Turns(trail + [e], aborted, profiles, plans, actions, worlds)
  {
    hide Turn;
  }

  /** Acting on the plans in order, until done or until a start raises. */
  method ActAll(registry: BackendRegistry, profiles: seq<Profile>, plans: map<string, ContextPlan>,
                actions: seq<Action>, worlds: seq<World>)
    returns (aborted: bool, ghost trail: seq<Instances>)
    requires registry.Valid() && Cleanup.DistinctNames(profiles) && |worlds| == |actions| == |profiles|
    requires Unused(registry.instances, worlds)
    requires forall k | 0 <= k < |profiles| :: Sound(registry.instances, profiles[k], actions[k])
    modifies registry
    ensures registry.Valid()
    ensures Ceiling(old(registry.instances), registry.instances, profiles)
    ensures ServingKept(old(registry.instances), registry.instances)
    ensures Turns(trail, aborted, profiles, plans, actions, worlds) && (aborted || |trail| == |profiles| + 1)
    ensures trail[0] == old(registry.instances) && trail[|trail| - 1] == registry.instances
  {
    ghost var e := registry.instances;
    LoopStarts(e, profiles, plans, actions, worlds);
    hide Looped, Turns, Ceiling, ServingKept, NoDuplicates, Unused, Cleanup.DistinctNames, Sound;
    trail, aborted := [e], false;
    var n := 0;
    while n < |profiles|
      invariant 0 <= n <= |profiles|
      invariant registry.Valid() && Looped(e, registry.instances, trail, false, profiles, plans, actions, worlds, n)
    {
      aborted, trail := TakeTurn(registry, e, trail, profiles, plans, actions, worlds, n);
      n := n + 1;
      if aborted { break; }
    }
    LoopEnds(e, registry.instances, trail, aborted, profiles, plans, actions, worlds, n);
  }

  /** Between two turns. */
  ghost predicate Looped(e: Instances, c: Instances, trail: seq<Instances>, aborted: bool, profiles: seq<Profile>,
                         plans: map<string, ContextPlan>, actions: seq<Action>, worlds: seq<World>, n: nat)
    requires |worlds| == |actions| == |profiles|
  {
    && ServingKept(e, c) && Ceiling(e, c, profiles) && Pending(e, c, profiles, actions, worlds, n)
    && |trail| == n + 1 && trail[0] == e && trail[n] == c && Turns(trail, aborted, profiles, plans, actions, worlds)
  }

  lemma {:induction false} LoopStarts(e: Instances, profiles: seq<Profile>, plans: map<string, ContextPlan>,
                                      actions: seq<Action>, worlds: seq<World>)
    requires e.Valid() && |worlds| == |actions| == |profiles| && Unused(e, worlds)
    requires forall k | 0 <= k < |profiles| :: Sound(e, profiles[k], actions[k])
    ensures Looped(e, e, [e], false, profiles, plans, actions, worlds, 0)
  {
    hide ServingKept, Ceiling, Pending, Turns, Unused, Dict.Valid, Sound;
    ActStarts(e, profiles, actions, worlds);
    NoTurns(e, profiles, plans, actions, worlds);
  }

  lemma {:induction false} LoopEnds(e: Instances, c: Instances, trail: seq<Instances>, aborted: bool,
                                    profiles: seq<Profile>, plans: map<string, ContextPlan>, actions: seq<Action>,
                                    worlds: seq<World>, n: nat)
    requires |worlds| == |actions| == |profiles| && Looped(e, c, trail, aborted, profiles, plans, actions, worlds, n)
    ensures ServingKept(e, c) && Ceiling(e, c, profiles) && Turns(trail, aborted, profiles, plans, actions, worlds)
    ensures |trail| == n + 1 && trail[0] == e && trail[n] == c
  {
    hide ServingKept, Ceiling, Pending, Turns;
  }

  /** The body of the loop. */
  method TakeTurn(registry: BackendRegistry, ghost e: Instances, ghost trail: seq<Instances>, profiles: seq<Profile>,
                  plans: map<string, ContextPlan>, actions: seq<Action>, worlds: seq<World>, n: nat)
    returns (aborted: bool, ghost longer: seq<Instances>)
    requires registry.Valid() && Cleanup.DistinctNames(profiles) && |worlds| == |actions| == |profiles|
      && n < |profiles|
    requires Unused(e, worlds) && Sound(e, profiles[n], actions[n])
    requires Looped(e, registry.instances, trail, false, profiles, plans, actions, worlds, n)
    modifies registry
    ensures registry.Valid() && Looped(e, registry.instances, longer, aborted, profiles, plans, actions, worlds, n + 1)
  {
    ghost var c := registry.instances;
    LoopEnds(e, c, trail, false, profiles, plans, actions, worlds, n);
    LoopReady(e, c, trail, profiles, plans, actions, worlds, n);
    hide Grows, OthersKept, ServingKept, NoDuplicates, Ceiling, Sound, Reloadable, Effective, Acts, Turns, Turn,
      Pending, Unused,
      Cleanup.DistinctNames, PlanOf, Looped;
    var profile := Effective(profiles[n], PlanOf(plans, profiles[n].name), worlds[n]);
    EffectiveKeeps(c, profiles[n], PlanOf(plans, profiles[n].name), worlds[n]);
    var done := Act(registry, profile, actions[n], worlds[n]);
    aborted, longer := done.Aborted?, trail + [registry.instances];
    TurnTaken(c, profiles[n], PlanOf(plans, profiles[n].name), actions[n], worlds[n], done, registry.instances);
    LoopStep(e, c, registry.instances, trail, aborted, profiles, plans, actions, worlds, n);
  }

  lemma {:induction false} LoopReady(e: Instances, c: Instances, trail: seq<Instances>, profiles: seq<Profile>,
                                     plans: map<string, ContextPlan>, actions: seq<Action>, worlds: seq<World>, n: nat)
    requires |worlds| == |actions| == |profiles| && n < |profiles|
    requires Looped(e, c, trail, false, profiles, plans, actions, worlds, n)
    ensures worlds[n].start.id !in c.items
    ensures actions[n].ReloadOf? ==> Reloadable(c, profiles[n], actions[n].id)
  {
    hide ServingKept, Ceiling, Pending, Turns;
    ActReady(e, c, profiles, actions, worlds, n);
  }

  lemma {:induction false} LoopStep(e: Instances, c: Instances, d: Instances, trail: seq<Instances>, aborted: bool,
                                    profiles: seq<Profile>, plans: map<string, ContextPlan>, actions: seq<Action>,
                                    worlds: seq<World>, n: nat)
    requires |worlds| == |actions| == |profiles| && n < |profiles| && Cleanup.DistinctNames(profiles)
      && Unused(e, worlds)
    requires Sound(e, profiles[n], actions[n]) && Looped(e, c, trail, false, profiles, plans, actions, worlds, n)
    requires Grows(c, d, profiles[n].name, if actions[n].StartOn? then 1 else 0)
    requires OthersKept(c, d, profiles[n].name) && ServingKept(c, d)
    requires d.items.Keys <= c.items.Keys + {worlds[n].start.id}
    requires Turn(c, profiles[n], PlanOf(plans, profiles[n].name), actions[n], worlds[n], aborted, d)
    ensures Looped(e, d, trail + [d], aborted, profiles, plans, actions, worlds, n + 1)
  {
    hide Grows, OthersKept, ServingKept, Ceiling, Sound, Turns, Turn, Pending, Unused, Cleanup.DistinctNames, PlanOf;
    ActStep(e, c, d, profiles, actions, worlds, n);
    OneTurnMore(trail, d, aborted, profiles, plans, actions, worlds);
  }

  lemma {:induction false} NoTurns(e: Instances, profiles: seq<Profile>, plans: map<string, ContextPlan>,
                                   actions: seq<Action>, worlds: seq<World>)
    requires |worlds| == |actions| == |profiles|
    ensures Turns([e], false, profiles, plans, actions, worlds)
  {
  }

  lemma {:induction false} TurnTaken(d: Instances, profile: Profile, plan: Option<ContextPlan>, action: Action,
                                     world: World, done: Done, e: Instances)
    requires Acts(d, Effective(profile, plan, world), action, world, done, e)
    ensures Turn(d, profile, plan, action, world, done.Aborted?, e)
  {
  }

  /** What still holds for the models whose turn has not come. */
  ghost predicate Pending(e: Instances, c: Instances, profiles: seq<Profile>, actions: seq<Action>, worlds: seq<World>,
                          n: nat)
    requires |worlds| == |actions| == |profiles|
  {
    && e.Valid() && c.Valid()
    && (forall k | n <= k < |profiles| :: Active(c, profiles[k].name) <= Active(e, profiles[k].name))
    && (forall k | n <= k < |profiles| && actions[k].ReloadOf? :: Reloadable(c, profiles[k], actions[k].id))
    && (forall k | n <= k < |profiles| :: worlds[k].start.id !in c.items)
  }

  lemma {:induction false} ActStarts(e: Instances, profiles: seq<Profile>, actions: seq<Action>, worlds: seq<World>)
    requires e.Valid() && |worlds| == |actions| == |profiles| && Unused(e, worlds)
    requires forall k | 0 <= k < |profiles| :: Sound(e, profiles[k], actions[k])
    ensures Pending(e, e, profiles, actions, worlds, 0) && ServingKept(e, e) && Ceiling(e, e, profiles)
  {
    hide Active, Reloadable;
    assert forall k | 0 <= k < |profiles| && actions[k].ReloadOf? :: Reloadable(e, profiles[k], actions[k].id);
  }

  lemma {:induction false} ActReady(e: Instances, c: Instances, profiles: seq<Profile>, actions: seq<Action>,
                                    worlds: seq<World>, n: nat)
    requires |worlds| == |actions| == |profiles| && n < |profiles| && Pending(e, c, profiles, actions, worlds, n)
    ensures worlds[n].start.id !in c.items
    ensures actions[n].ReloadOf? ==> Reloadable(c, profiles[n], actions[n].id)
  {
    hide Active, Reloadable;
  }

  lemma {:induction false} ActStep(e: Instances, c: Instances, d: Instances, profiles: seq<Profile>,
                                   actions: seq<Action>, worlds: seq<World>, n: nat)
    requires |worlds| == |actions| == |profiles| && n < |profiles| && Cleanup.DistinctNames(profiles)
      && Unused(e, worlds)
    requires Sound(e, profiles[n], actions[n])
    requires Pending(e, c, profiles, actions, worlds, n) && Ceiling(e, c, profiles) && ServingKept(e, c)
    requires Grows(c, d, profiles[n].name, if actions[n].StartOn? then 1 else 0)
    requires OthersKept(c, d, profiles[n].name) && ServingKept(c, d)
    requires d.items.Keys <= c.items.Keys + {worlds[n].start.id}
    ensures ServingKept(e, d)
    ensures Ceiling(e, d, profiles)
    ensures Pending(e, d, profiles, actions, worlds, n + 1)
  {
    CeilingStep(e, c, d, profiles, actions[n], n) by {
      assert Active(c, profiles[n].name) <= Active(e, profiles[n].name);
      hide Active, ServingKept, OthersKept, Reloadable, Unused;
    }
    PendingStep(e, c, d, profiles, actions, worlds, n) by { hide Active, Ceiling, ServingKept, Sound; }
    assert ServingKept(e, d) by {
      hide Active, Ceiling, Pending, OthersKept, Sound, Grows;
      assert forall id | Serving(e, id) :: Serving(c, id);
    }
  }

  lemma {:induction false} CeilingStep(e: Instances, c: Instances, d: Instances, profiles: seq<Profile>,
                                       action: Action, n: nat)
    requires n < |profiles| && Cleanup.DistinctNames(profiles) && Sound(e, profiles[n], action)
      && Ceiling(e, c, profiles)
    requires Active(c, profiles[n].name) <= Active(e, profiles[n].name)
    requires Grows(c, d, profiles[n].name, if action.StartOn? then 1 else 0)
    ensures Ceiling(e, d, profiles)
  {
    hide Active, Reloadable;
    forall k | 0 <= k < |profiles|
      ensures Active(d, profiles[k].name) <= Max(Active(e, profiles[k].name), profiles[k].maxReplicas)
    {
      if k != n { assert profiles[k].name != profiles[n].name; }
    }
  }

  lemma {:induction false} PendingStep(e: Instances, c: Instances, d: Instances, profiles: seq<Profile>,
                                       actions: seq<Action>, worlds: seq<World>, n: nat)
    requires |worlds| == |actions| == |profiles| && n < |profiles| && Cleanup.DistinctNames(profiles)
      && Unused(e, worlds)
    requires Pending(e, c, profiles, actions, worlds, n)
    requires Grows(c, d, profiles[n].name, if actions[n].StartOn? then 1 else 0) && OthersKept(c, d, profiles[n].name)
    requires d.items.Keys <= c.items.Keys + {worlds[n].start.id}
    ensures Pending(e, d, profiles, actions, worlds, n + 1)
  {
    hide Active;
    forall k | n < k < |profiles|
      ensures Active(d, profiles[k].name) <= Active(e, profiles[k].name)
      ensures actions[k].ReloadOf? ==> Reloadable(d, profiles[k], actions[k].id)
      ensures worlds[k].start.id !in d.items
    {
      assert profiles[k].name != profiles[n].name;
      assert Active(c, profiles[k].name) <= Active(e, profiles[k].name);
      assert worlds[k].start.id !in c.items && worlds[k].start.id != worlds[n].start.id;
      assert worlds[k].start.id !in d.items.Keys;
    }
  }

  lemma {:induction false} CeilingFrom(d: Instances, e: Instances, f: Instances, profiles: seq<Profile>)
    requires Shrinks(d, e) && Ceiling(e, f, profiles)
    ensures Ceiling(d, f, profiles)
  {
    hide Active;
    assert forall m :: Active(e, m) <= Active(d, m);
  }
}
