/** What a whole reconcile does to the memory of each GPU, and exactly when it overbooks one. */
module Overbooking {
  import opened Wrappers
  import opened Dicts
  import opened Fleet
  import opened Registry
  import opened Scheduler
  import opened Runtime
  import opened ContextPlans
  import opened LiveSync
  import opened Controller
  import Cleanup
  import Ports
  import Allocation

  // ---- one turn ---------------------------------------------------------------------------

  /** The start goes through and its initialisation succeeds; a failed one gives its memory back. */
  predicate Stays(world: World) { !world.start.raises && (world.start.dryRun || world.health.Healthy?) }

  /** What a start on `gpu` adds on GPU `g`. */
  function Added(profile: Profile, gpu: string, world: World, g: string): int {
    if gpu == g && Stays(world) then profile.Required() else 0
  }

  /** The backend is stopped by a reload, not merely drained or left alone. */
  predicate Stopped(i: Instance) { i.active <= 0 && !(i.runtime == "lmstudio" && !i.dryRun && !i.ownedLoad) }

  /** What acting on a planned action changes on GPU `g`. */
  function Change(d: Instances, profile: Profile, action: Action, world: World, g: string): int {
    match action
    case StartOn(gpu) => Added(profile, gpu, world, g)
    case ReloadOf(id) =>
      if id !in d.items || !Stopped(d.items[id]) then 0
      else
        var start := if d.items[id].gpus == [] then 0 else Added(profile, d.items[id].gpus[0], world, g);
        start - Holding(g)(d.items[id])
    case Leave => 0
  }

  lemma {:induction false} StartsMemory(d: Instances, profile: Profile, gpu: string, world: World, done: Done,
                                        e: Instances, g: string)
    requires d.Valid() && world.start.id !in d.items && Starts(d, profile, gpu, world, done, e)
    ensures e.Valid() && ReservedOn(e.Values(), g) == ReservedOn(d.Values(), g) + Added(profile, gpu, world, g)
    ensures forall id | id in d.items :: id in e.items && e.items[id] == d.items[id]
    ensures e.items.Keys <= d.items.Keys + {world.start.id}
  {
    hide ReservedOn, Dict.Valid, Dict.Values;
    if !world.start.raises {
      var port :| StartsAt(d, profile, gpu, world, port, e);
      var starting := NewInstance(profile, gpu, profile.Required(), port, world.start);
      PutReserved(d, world.start.id, Initialised(starting, world.health, world.now), g);
      NewHolding(starting, gpu, world, g);
    }
  }

  lemma {:induction false} NewHolding(starting: Instance, gpu: string, world: World, g: string)
    requires starting.gpus == [gpu] && starting.dryRun == world.start.dryRun
    ensures Holding(g)(Initialised(starting, world.health, world.now))
      == if gpu == g && (world.start.dryRun || world.health.Healthy?) then starting.reserved else 0
  {
    assert Occurrences([gpu], g) == if gpu == g then 1 else 0;
  }

  lemma {:induction false} MarkedHolding(i: Instance, state: BackendState, now: Instant, g: string)
    ensures i.state.Reserved() && state.Reserved() ==> Holding(g)(i.Marked(state, now)) == Holding(g)(i)
  {
  }

  lemma {:induction false} StoppedHolding(i: Instance, failure: Option<string>, now: Instant, g: string)
    ensures Holding(g)(StoppedAs(i, failure, now)) == 0
  {
  }

  lemma {:induction false} ReloadsMemory(d: Instances, profile: Profile, id: string, world: World, done: Done,
                                         e: Instances, g: string)
    requires d.Valid() && world.start.id !in d.items && Reloadable(d, profile, id)
      && Reloads(d, profile, id, world, done, e)
    ensures e.Valid()
      && ReservedOn(e.Values(), g) == ReservedOn(d.Values(), g) + Change(d, profile, ReloadOf(id), world, g)
    ensures forall x | x in d.items && x != id :: x in e.items && e.items[x] == d.items[x]
    ensures e.items.Keys <= d.items.Keys + {world.start.id}
  {
    ReloadsCases(d, profile, id, world, done, e, g);
    var drained := d.items[id].Marked(Draining, world.now);
    hide *;
    if Stopped(d.items[id]) {
      ExchangesMemory(d, profile, id, world, done, e, g);
    } else {
      RewriteMemory(d, id, drained, g);
    }
  }

  /** Drained, spared, or exchanged. */
  lemma {:induction false} ReloadsCases(d: Instances, profile: Profile, id: string, world: World, done: Done,
                                        e: Instances, g: string)
    requires Reloadable(d, profile, id) && Reloads(d, profile, id, world, done, e)
    ensures Stopped(d.items[id]) ==> Exchanges(d, profile, id, world, done, e)
    ensures !Stopped(d.items[id]) ==>
      Change(d, profile, ReloadOf(id), world, g) == 0
      && (e == d || e == d.Put(id, d.items[id].Marked(Draining, world.now)))
    ensures Holding(g)(d.items[id].Marked(Draining, world.now)) == Holding(g)(d.items[id])
  {
    hide Exchanges, Added;
    MarkedHolding(d.items[id], Draining, world.now, g);
    assert d.items[id].state.Reserved();
    hide Holding;
  }

  /** Rewriting one record changes what it holds and nothing else. */
  lemma {:induction false} RewriteMemory(d: Instances, id: string, i: Instance, g: string)
    requires d.Valid() && id in d.items
    ensures d.Put(id, i).Valid() && d.Put(id, i).items == d.items[id := i]
    ensures ReservedOn(d.Put(id, i).Values(), g) == ReservedOn(d.Values(), g) - Holding(g)(d.items[id]) + Holding(g)(i)
  {
    PutReserved(d, id, i, g);
    hide ReservedOn, Dict.Values, Dict.Valid, Holding;
  }

  lemma {:induction false} ExchangesMemory(d: Instances, profile: Profile, id: string, world: World, done: Done,
                                           e: Instances, g: string)
    requires d.Valid() && world.start.id !in d.items && id in d.items && Stopped(d.items[id])
    requires Exchanges(d, profile, id, world, done, e)
    ensures e.Valid()
      && ReservedOn(e.Values(), g) == ReservedOn(d.Values(), g) + Change(d, profile, ReloadOf(id), world, g)
    ensures forall x | x in d.items && x != id :: x in e.items && e.items[x] == d.items[x]
    ensures e.items.Keys <= d.items.Keys + {world.start.id}
  {
    var stopped := StoppedAs(d.items[id], world.stopFailure, world.now);
    ExchangesCases(d, profile, id, world, done, e, g);
    hide *;
    RewriteMemory(d, id, stopped, g);
    if d.items[id].gpus != [] { StartsMemory(d.Put(id, stopped), profile, d.items[id].gpus[0], world, done, e, g); }
  }

  lemma {:induction false} ExchangesCases(d: Instances, profile: Profile, id: string, world: World, done: Done,
                                          e: Instances, g: string)
    requires id in d.items && Stopped(d.items[id]) && Exchanges(d, profile, id, world, done, e)
    ensures var rest := d.Put(id, StoppedAs(d.items[id], world.stopFailure, world.now));
      var gpus := d.items[id].gpus;
      && (if gpus == [] then e == rest else Starts(rest, profile, gpus[0], world, done, e))
      && Change(d, profile, ReloadOf(id), world, g)
         == (if gpus == [] then 0 else Added(profile, gpus[0], world, g)) - Holding(g)(d.items[id])
      && Holding(g)(StoppedAs(d.items[id], world.stopFailure, world.now)) == 0
  {
    StoppedHolding(d.items[id], world.stopFailure, world.now, g);
    hide Starts, Added, Holding, StoppedAs;
  }

  /** Every action changes each GPU by exactly what was said, and no record but its own. */
  lemma {:induction false} ActsMemory(d: Instances, profile: Profile, action: Action, world: World, done: Done,
                                      e: Instances, g: string)
    requires d.Valid() && world.start.id !in d.items && Acts(d, profile, action, world, done, e)
    requires action.ReloadOf? ==> Reloadable(d, profile, action.id)
    ensures e.Valid() && ReservedOn(e.Values(), g) == ReservedOn(d.Values(), g) + Change(d, profile, action, world, g)
    ensures forall x | x in d.items && d.items[x].model != profile.name :: x in e.items && e.items[x] == d.items[x]
    ensures e.items.Keys <= d.items.Keys + {world.start.id}
  {
    hide ReservedOn, Dict.Valid, Dict.Values, Starts, Reloads;
    match action
    case StartOn(gpu) => StartsMemory(d, profile, gpu, world, done, e, g);
    case ReloadOf(id) => ReloadsMemory(d, profile, id, world, done, e, g);
    case Leave =>
  }

  // ---- all turns --------------------------------------------------------------------------

  /** The inputs of the turns: what was planned on `d`, one world with a fresh id for each model. */
  ghost predicate Prepared(d: Instances, profiles: seq<Profile>, actions: seq<Action>, worlds: seq<World>) {
    && d.Valid() && |worlds| == |actions| == |profiles| && Cleanup.DistinctNames(profiles) && Unused(d, worlds)
    && (forall k | 0 <= k < |profiles| && actions[k].ReloadOf? :: Reloadable(d, profiles[k], actions[k].id))
  }

  /** What the first `n` actions change on GPU `g`, as far as it can be said before the first of them. */
  function Changed(d: Instances, profiles: seq<Profile>, plans: map<string, ContextPlan>, actions: seq<Action>,
                   worlds: seq<World>, n: nat, g: string): int
    requires |worlds| == |actions| == |profiles| && n <= |profiles|
  {
    if n == 0 then 0
    else
      var k := n - 1;
      Changed(d, profiles, plans, actions, worlds, k, g)
      + Change(d, Effective(profiles[k], PlanOf(plans, profiles[k].name), worlds[k]), actions[k], worlds[k], g)
  }

  /** The models whose turn is still to come find their records as they were planned. */
  ghost predicate Untouched(d: Instances, c: Instances, profiles: seq<Profile>, actions: seq<Action>,
                            worlds: seq<World>, n: nat)
    requires |worlds| == |actions| == |profiles|
  {
    && (forall k | n <= k < |profiles| :: worlds[k].start.id !in c.items)
    && (forall k | n <= k < |profiles| && actions[k].ReloadOf? ::
          actions[k].id in d.items && actions[k].id in c.items && c.items[actions[k].id] == d.items[actions[k].id])
  }

  /** After every turn each GPU holds what it held and what the turns so far were to change. */
  lemma {:induction false} TurnsMemory(trail: seq<Instances>, aborted: bool, profiles: seq<Profile>,
                                       plans: map<string, ContextPlan>, actions: seq<Action>, worlds: seq<World>,
                                       n: nat, g: string)
    requires trail != [] && Prepared(trail[0], profiles, actions, worlds)
    requires Turns(trail, aborted, profiles, plans, actions, worlds) && n < |trail|
    ensures trail[n].Valid() && Untouched(trail[0], trail[n], profiles, actions, worlds, n)
    ensures ReservedOn(trail[n].Values(), g)
      == ReservedOn(trail[0].Values(), g) + Changed(trail[0], profiles, plans, actions, worlds, n, g)
  {
    hide *;
    StartsUntouched(trail[0], profiles, actions, worlds);
    TrailFits(trail, aborted, profiles, plans, actions, worlds);
    if n == 0 {
      NothingChanged(trail[0], profiles, plans, actions, worlds, g);
    } else {
      TurnsMemory(trail, aborted, profiles, plans, actions, worlds, n - 1, g);
      TurnMemory(trail, aborted, profiles, plans, actions, worlds, n - 1, g);
      ChangedStep(trail[0], profiles, plans, actions, worlds, n - 1, g);
    }
  }

  lemma {:induction false} NothingChanged(d: Instances, profiles: seq<Profile>, plans: map<string, ContextPlan>,
                                          actions: seq<Action>, worlds: seq<World>, g: string)
    requires |worlds| == |actions| == |profiles|
    ensures Changed(d, profiles, plans, actions, worlds, 0, g) == 0
  {
  }

  lemma {:induction false} TrailFits(trail: seq<Instances>, aborted: bool, profiles: seq<Profile>,
                                     plans: map<string, ContextPlan>, actions: seq<Action>, worlds: seq<World>)
    requires |worlds| == |actions| == |profiles| && Turns(trail, aborted, profiles, plans, actions, worlds)
    ensures 1 <= |trail| <= |profiles| + 1
  {
    hide Turn;
  }

  lemma {:induction false} StartsUntouched(d: Instances, profiles: seq<Profile>, actions: seq<Action>,
                                           worlds: seq<World>)
    requires Prepared(d, profiles, actions, worlds)
    ensures d.Valid() && |worlds| == |actions| == |profiles| && Untouched(d, d, profiles, actions, worlds, 0)
  {
  }

  lemma {:induction false} ChangedStep(d: Instances, profiles: seq<Profile>, plans: map<string, ContextPlan>,
                                       actions: seq<Action>, worlds: seq<World>, k: nat, g: string)
    requires |worlds| == |actions| == |profiles| && k < |profiles|
    ensures Changed(d, profiles, plans, actions, worlds, k + 1, g) == Changed(d, profiles, plans, actions, worlds, k, g)
      + Change(d, Effective(profiles[k], PlanOf(plans, profiles[k].name), worlds[k]), actions[k], worlds[k], g)
  {
    hide Change, Effective;
  }

  /** The change of an action depends on the record it names only. */
  lemma {:induction false} ChangeSame(d: Instances, c: Instances, profile: Profile, action: Action, world: World,
                                      g: string)
    requires action.ReloadOf? ==>
      action.id in d.items && action.id in c.items && c.items[action.id] == d.items[action.id]
    ensures Change(c, profile, action, world, g) == Change(d, profile, action, world, g)
  {
    hide Holding, Added;
  }

  lemma {:induction false} TurnMemory(trail: seq<Instances>, aborted: bool, profiles: seq<Profile>,
                                      plans: map<string, ContextPlan>, actions: seq<Action>, worlds: seq<World>,
                                      k: nat, g: string)
    requires trail != [] && Prepared(trail[0], profiles, actions, worlds)
    requires Turns(trail, aborted, profiles, plans, actions, worlds) && k + 1 < |trail|
    requires trail[k].Valid() && Untouched(trail[0], trail[k], profiles, actions, worlds, k)
    ensures trail[k + 1].Valid() && Untouched(trail[0], trail[k + 1], profiles, actions, worlds, k + 1)
    ensures ReservedOn(trail[k + 1].Values(), g) == ReservedOn(trail[k].Values(), g)
      + Change(trail[0], Effective(profiles[k], PlanOf(plans, profiles[k].name), worlds[k]), actions[k], worlds[k], g)
  {
    var d, c, e := trail[0], trail[k], trail[k + 1];
    var p := Effective(profiles[k], PlanOf(plans, profiles[k].name), worlds[k]);
    var done := Ports.TurnAt(trail, aborted, profiles, plans, actions, worlds, k);
    EffectiveKeeps(c, profiles[k], PlanOf(plans, profiles[k].name), worlds[k]);
    PreparedAt(d, c, profiles, actions, worlds, k);
    hide *;
    ActsMemory(c, p, actions[k], worlds[k], done, e, g);
    ChangeSame(d, c, p, actions[k], worlds[k], g);
    StaysUntouched(d, c, e, profiles, actions, worlds, k);
  }

  lemma {:induction false} PreparedAt(d: Instances, c: Instances, profiles: seq<Profile>, actions: seq<Action>,
                                      worlds: seq<World>, k: nat)
    requires Prepared(d, profiles, actions, worlds) && k < |profiles|
    requires c.Valid() && Untouched(d, c, profiles, actions, worlds, k)
    ensures |worlds| == |actions| == |profiles| && worlds[k].start.id !in c.items
    ensures actions[k].ReloadOf? ==>
      Reloadable(c, profiles[k], actions[k].id)
      && actions[k].id in d.items && actions[k].id in c.items && c.items[actions[k].id] == d.items[actions[k].id]
  {
  }

  lemma {:induction false} StaysUntouched(d: Instances, c: Instances, e: Instances, profiles: seq<Profile>,
                                          actions: seq<Action>, worlds: seq<World>, k: nat)
    requires Prepared(d, profiles, actions, worlds) && k < |profiles| && Untouched(d, c, profiles, actions, worlds, k)
    requires forall x | x in c.items && c.items[x].model != profiles[k].name :: x in e.items && e.items[x] == c.items[x]
    requires e.items.Keys <= c.items.Keys + {worlds[k].start.id}
    ensures Untouched(d, e, profiles, actions, worlds, k + 1)
  {
    hide Dict.Valid;
    forall j | k < j < |profiles| ensures worlds[j].start.id !in e.items {
      assert worlds[j].start.id !in c.items && worlds[j].start.id != worlds[k].start.id;
      assert worlds[j].start.id !in e.items.Keys;
    }
    forall j | k < j < |profiles| && actions[j].ReloadOf?
      ensures actions[j].id in e.items && e.items[actions[j].id] == d.items[actions[j].id]
    {
      assert Reloadable(d, profiles[j], actions[j].id) && profiles[j].name != profiles[k].name;
    }
  }

  // ---- when the snapshot is kept ----------------------------------------------------------

  /** Every GPU of the snapshot has at least the memory that is reserved on it. */
  ghost predicate Fits(gpus: seq<Gpu>, d: Instances)
    requires d.Valid()
  {
    forall g | g in gpus :: ReservedOn(d.Values(), g.id) <= g.free
  }

  /**
   * A reconcile keeps every GPU within its free memory exactly when, on each, what its actions change is no
   * more than the room there was before the first of them; and that is so after each of its turns.
   */
  lemma {:induction false} ReconcileFitsIff(gpus: seq<Gpu>, trail: seq<Instances>, aborted: bool,
                                            profiles: seq<Profile>, plans: map<string, ContextPlan>,
                                            actions: seq<Action>, worlds: seq<World>, n: nat)
    requires trail != [] && Prepared(trail[0], profiles, actions, worlds)
    requires Turns(trail, aborted, profiles, plans, actions, worlds) && n < |trail|
    ensures trail[n].Valid()
    ensures Fits(gpus, trail[n]) <==>
      forall g | g in gpus :: Changed(trail[0], profiles, plans, actions, worlds, n, g.id) <= Room(g, trail[0].Values())
  {
    StartsUntouched(trail[0], profiles, actions, worlds);
    TrailFits(trail, aborted, profiles, plans, actions, worlds);
    TurnsMemory(trail, aborted, profiles, plans, actions, worlds, n, "");
    forall g | g in gpus
      ensures ReservedOn(trail[n].Values(), g.id)
        == ReservedOn(trail[0].Values(), g.id) + Changed(trail[0], profiles, plans, actions, worlds, n, g.id)
    {
      TurnsMemory(trail, aborted, profiles, plans, actions, worlds, n, g.id);
    }
    hide Changed, ReservedOn, Turns, Prepared, Dict.Valid, Dict.Values;
  }

  /** What a reconcile plans is prepared: its turns start on a registry with the planned records and unused ids. */
  lemma {:induction false} ReconcilePrepared(d: Instances, profiles: seq<Profile>, queues: map<string, int>,
                                             plans: map<string, ContextPlan>, gpus: seq<Gpu>,
                                             loads: map<string, seq<Load>>, naming: Naming, worlds: seq<World>,
                                             failures: Cleanup.Failures, now: Instant, actions: seq<Action>)
    requires NoDuplicates(d) && Inputs(d, profiles, naming, worlds) && |actions| == |profiles|
    requires var base := Base(d, profiles, queues, loads, naming, failures, now);
      forall k | 0 <= k < |profiles| ::
        Planned(base.Values(), profiles[k], PlanOf(plans, profiles[k].name), queues, gpus, worlds[k], actions[k])
    ensures Prepared(Base(d, profiles, queues, loads, naming, failures, now), profiles, actions, worlds)
  {
    var base := Base(d, profiles, queues, loads, naming, failures, now);
    BaseIs(d, profiles, queues, loads, naming, failures, now, worlds);
    hide Base, Planned, NoDuplicates, Inputs, Unused, Cleanup.DistinctNames, Reloadable;
    forall k | 0 <= k < |profiles| && actions[k].ReloadOf? ensures Reloadable(base, profiles[k], actions[k].id) {
      PlannedMeans(base, profiles[k], PlanOf(plans, profiles[k].name), queues, gpus, worlds[k], actions[k]);
    }
    hide PlanOf;
  }

  // ---- enough: one start for each GPU -----------------------------------------------------

  function Shape(profiles: seq<Profile>, plans: map<string, ContextPlan>, worlds: seq<World>, k: nat): Profile
    requires k < |profiles| == |worlds|
  {
    Effective(profiles[k], PlanOf(plans, profiles[k].name), worlds[k])
  }

  /** No two models are started on one GPU, and no reload takes more memory than its predecessor gives back. */
  ghost predicate OneStartEach(d: Instances, profiles: seq<Profile>, plans: map<string, ContextPlan>,
                               actions: seq<Action>, worlds: seq<World>)
    requires |worlds| == |actions| == |profiles|
  {
    && (forall j, k | 0 <= j < k < |profiles| && actions[j].StartOn? && actions[k].StartOn? ::
          actions[j].gpu != actions[k].gpu)
    && (forall k | 0 <= k < |profiles| && actions[k].ReloadOf? ::
          Modest(d, Shape(profiles, plans, worlds, k), actions[k].id))
  }

  /** A replacement fits into the memory of the backend it replaces. */
  predicate Modest(d: Instances, profile: Profile, id: string) {
    id in d.items ==>
      d.items[id].reserved >= 0
      && (Stopped(d.items[id]) && d.items[id].gpus != [] ==> profile.Required() <= d.items[id].reserved)
  }

  /** What the only start on GPU `g` among the first `n` actions needs, if there is one. */
  function Needed(profiles: seq<Profile>, plans: map<string, ContextPlan>, actions: seq<Action>, worlds: seq<World>,
                  n: nat, g: string): int
    requires |worlds| == |actions| == |profiles| && n <= |profiles|
  {
    if n == 0 then 0
    else if actions[n - 1] == StartOn(g) then Fleet.Max(0, Shape(profiles, plans, worlds, n - 1).Required())
    else Needed(profiles, plans, actions, worlds, n - 1, g)
  }

  lemma {:induction false} ModestChange(d: Instances, profile: Profile, id: string, world: World, g: string)
    requires Modest(d, profile, id) && (id in d.items ==> d.items[id].state.Reserved())
    ensures Change(d, profile, ReloadOf(id), world, g) <= 0
  {
    if id in d.items {
      var i := d.items[id];
      assert Holding(g)(i) == Occurrences(i.gpus, g) * i.reserved;
      if i.gpus != [] && i.gpus[0] == g { OnFirst(i.gpus, g, i.reserved); }
      assert Occurrences(i.gpus, g) * i.reserved >= 0;
      hide Occurrences, Holding;
    }
  }

  lemma {:induction false} OnFirst(gpus: seq<string>, g: string, amount: int)
    requires gpus != [] && gpus[0] == g && amount >= 0
    ensures Occurrences(gpus, g) * amount >= amount
  {
    assert gpus == [gpus[0]] + gpus[1..];
    assert Occurrences(gpus, g) >= 1;
    hide Occurrences;
  }

  lemma {:induction false} AtMostNeeded(d: Instances, profiles: seq<Profile>, plans: map<string, ContextPlan>,
                                        actions: seq<Action>, worlds: seq<World>, n: nat, g: string)
    requires Prepared(d, profiles, actions, worlds) && OneStartEach(d, profiles, plans, actions, worlds)
      && n <= |profiles|
    ensures Changed(d, profiles, plans, actions, worlds, n, g) <= Needed(profiles, plans, actions, worlds, n, g)
    ensures Needed(profiles, plans, actions, worlds, n, g) == 0
      || exists k :: 0 <= k < n && actions[k] == StartOn(g)
                     && Needed(profiles, plans, actions, worlds, n, g) == Shape(profiles, plans, worlds, k).Required()
    ensures (forall k | 0 <= k < n :: actions[k] != StartOn(g)) ==> Needed(profiles, plans, actions, worlds, n, g) == 0
  {
    if n > 0 {
      AtMostNeeded(d, profiles, plans, actions, worlds, n - 1, g);
      var p := Shape(profiles, plans, worlds, n - 1);
      EffectiveKeeps(d, profiles[n - 1], PlanOf(plans, profiles[n - 1].name), worlds[n - 1]);
      var action := actions[n - 1];
      assert action.ReloadOf? ==> Reloadable(d, profiles[n - 1], action.id) && Modest(d, p, action.id);
      assert action == StartOn(g) ==> forall k | 0 <= k < n - 1 :: actions[k] != StartOn(g);
      hide Prepared, OneStartEach, Modest, Effective, Shape, Holding, PlanOf;
      assert Shape(profiles, plans, worlds, n - 1)
        == Effective(profiles[n - 1], PlanOf(plans, profiles[n - 1].name), worlds[n - 1]) by {
        ShapeIs(profiles, plans, worlds, n - 1);
      }
      if action.ReloadOf? { ModestChange(d, p, action.id, worlds[n - 1], g); }
    }
  }

  lemma {:induction false} ShapeIs(profiles: seq<Profile>, plans: map<string, ContextPlan>, worlds: seq<World>, k: nat)
    requires k < |profiles| == |worlds|
    ensures Shape(profiles, plans, worlds, k) == Effective(profiles[k], PlanOf(plans, profiles[k].name), worlds[k])
  {
  }

  /**
   * With at most one start on each GPU, and reloads that need no more than they give back, a reconcile pushes
   * no GPU over its free memory, not even one on which more was reserved before.
   */
  lemma {:induction false} OneStartFits(gpus: seq<Gpu>, g: Gpu, trail: seq<Instances>, aborted: bool,
                                        profiles: seq<Profile>, plans: map<string, ContextPlan>,
                                        queues: map<string, int>, actions: seq<Action>, worlds: seq<World>, n: nat)
    requires trail != [] && Prepared(trail[0], profiles, actions, worlds)
    requires Turns(trail, aborted, profiles, plans, actions, worlds) && n < |trail|
    requires forall k | 0 <= k < |profiles| ::
      Planned(trail[0].Values(), profiles[k], PlanOf(plans, profiles[k].name), queues, gpus, worlds[k], actions[k])
    requires OneStartEach(trail[0], profiles, plans, actions, worlds) && Allocation.DistinctGpus(gpus) && g in gpus
    ensures trail[n].Valid()
    ensures ReservedOn(trail[n].Values(), g.id) <= Fleet.Max(ReservedOn(trail[0].Values(), g.id), g.free)
  {
    StartsUntouched(trail[0], profiles, actions, worlds);
    TrailFits(trail, aborted, profiles, plans, actions, worlds);
    hide *;
    TurnsMemory(trail, aborted, profiles, plans, actions, worlds, n, g.id);
    AtMostNeeded(trail[0], profiles, plans, actions, worlds, n, g.id);
    if Needed(profiles, plans, actions, worlds, n, g.id) != 0 {
      var k :| 0 <= k < n && actions[k] == StartOn(g.id)
               && Needed(profiles, plans, actions, worlds, n, g.id) == Shape(profiles, plans, worlds, k).Required();
      PlannedRoom(trail[0].Values(), profiles, plans, queues, gpus, worlds, k, actions[k], g);
    }
    RoomIs(g, trail[0].Values());
  }

  lemma {:induction false} RoomIs(g: Gpu, values: seq<Instance>)
    ensures Room(g, values) == g.free - ReservedOn(values, g.id)
    ensures Fleet.Max(ReservedOn(values, g.id), g.free) >= ReservedOn(values, g.id)
    ensures Fleet.Max(ReservedOn(values, g.id), g.free) >= g.free
  {
  }

  /** A planned start has the room it needs on the registry it was planned on. */
  lemma {:induction false} PlannedRoom(values: seq<Instance>, profiles: seq<Profile>, plans: map<string, ContextPlan>,
                                       queues: map<string, int>, gpus: seq<Gpu>, worlds: seq<World>, k: nat,
                                       action: Action, g: Gpu)
    requires k < |profiles| == |worlds| && action == StartOn(g.id) && Allocation.DistinctGpus(gpus) && g in gpus
    requires Planned(values, profiles[k], PlanOf(plans, profiles[k].name), queues, gpus, worlds[k], action)
    ensures Shape(profiles, plans, worlds, k).Required() <= Room(g, values)
  {
    var p := Shape(profiles, plans, worlds, k);
    var available :| IsPlacement(p, gpus, values, Placement.Start(g.id, available));
    hide Effective, PlanOf, Missing;
    var j: nat :| j < |gpus| && Candidate(p, gpus[j], values) && gpus[j].id == g.id;
    assert gpus[j] == g;
  }

  // ---- before the outcome is known --------------------------------------------------------

  /** The same inputs to planning, with a start that goes through. */
  function Lucky(w: World): World { w.(start := w.start.(raises := false), health := Healthy) }

  function AllLucky(worlds: seq<World>): (r: seq<World>)
    ensures |r| == |worlds| && forall k | 0 <= k < |r| :: r[k] == Lucky(worlds[k])
  {
    seq(|worlds|, k requires 0 <= k < |worlds| => Lucky(worlds[k]))
  }

  /** Other ways in which the same plan may turn out. */
  ghost predicate Outcomes(worlds: seq<World>, others: seq<World>) {
    |others| == |worlds| && forall k | 0 <= k < |worlds| :: others[k].estimate == worlds[k].estimate
  }

  lemma {:induction false} LuckyChange(d: Instances, profile: Profile, action: Action, w: World, v: World, g: string)
    requires profile.Required() >= 0
    ensures Change(d, profile, action, v, g) <= Change(d, profile, action, Lucky(w), g)
  {
    hide Holding;
  }

  lemma {:induction false} LuckyChanged(d: Instances, profiles: seq<Profile>, plans: map<string, ContextPlan>,
                                        actions: seq<Action>, worlds: seq<World>, others: seq<World>, n: nat, g: string)
    requires |worlds| == |actions| == |profiles| && n <= |profiles| && Outcomes(worlds, others)
    requires forall k | 0 <= k < |profiles| :: Shape(profiles, plans, worlds, k).Required() >= 0
    ensures Changed(d, profiles, plans, actions, others, n, g)
      <= Changed(d, profiles, plans, actions, AllLucky(worlds), n, g)
  {
    if n > 0 {
      var k, lucky := n - 1, AllLucky(worlds);
      LuckyChanged(d, profiles, plans, actions, worlds, others, k, g);
      var p := Effective(profiles[k], PlanOf(plans, profiles[k].name), others[k]);
      assert p == Shape(profiles, plans, worlds, k)
        == Effective(profiles[k], PlanOf(plans, profiles[k].name), lucky[k]);
      hide Change, Effective, PlanOf, Shape;
      LuckyChange(d, p, actions[k], worlds[k], others[k], g);
    }
  }

  // ---- every outcome of a plan ------------------------------------------------------------

  /** Acting on it raises although the start would go through: a stopped backend without a GPU has no successor. */
  predicate Raises(d: Instances, action: Action) {
    action.ReloadOf? && action.id in d.items && Stopped(d.items[action.id]) && d.items[action.id].gpus == []
  }

  /** The loop can get to its `n`th turn. */
  ghost predicate Reached(d: Instances, actions: seq<Action>, n: nat)
    requires n <= |actions|
  {
    forall k | 0 <= k < n - 1 :: !Raises(d, actions[k])
  }

  /** There is a least free port. */
  lemma {:induction false} LeastFree(used: set<int>, start: int) returns (port: int)
    ensures port >= start && port !in used && forall p | start <= p < port :: p in used
    decreases used
  {
    port := start;
    if start in used {
      port := LeastFree(used - {start}, start + 1);
      assert forall p | start <= p < port :: p == start || p in used - {start};
    }
  }

  lemma {:induction false} SomeStart(d: Instances, profile: Profile, gpu: string, w: World) returns (e: Instances)
    requires d.Valid()
    ensures Starts(d, profile, gpu, Lucky(w), Renewed, e)
  {
    var port := LeastFree(UsedPorts(d.Values()), profile.portStart);
    assert NextPort(d.Values(), profile.portStart, port);
    var v := Lucky(w);
    e := d.Put(v.start.id,
               Initialised(NewInstance(profile, gpu, profile.Required(), port, v.start), v.health, v.now));
    assert StartsAt(d, profile, gpu, v, port, e);
    hide NextPort, UsedPorts, StartsAt, Dict.Valid, Dict.Values;
  }

  lemma {:induction false} SomeReload(d: Instances, profile: Profile, id: string, w: World)
    returns (done: Done, e: Instances)
    requires d.Valid() && id in d.items
    ensures Reloads(d, profile, id, Lucky(w), done, e) && (done.Aborted? <==> Raises(d, ReloadOf(id)))
  {
    var i, v := d.items[id], Lucky(w);
    var rest := d.Put(id, StoppedAs(i, v.stopFailure, v.now));
    hide Dict.Valid, Dict.Put, Starts, StoppedAs;
    if i.active > 0 {
      done, e := Acted, if i.state.Draining? then d else d.Put(id, i.Marked(Draining, v.now));
    } else if !Stopped(i) {
      done, e := Acted, d;
    } else if i.gpus == [] {
      done, e := Aborted, rest;
    } else {
      done := Renewed;
      e := SomeStart(rest, profile, i.gpus[0], w);
    }
  }

  /** The action goes through when its start does. */
  lemma {:induction false} SomeTurn(d: Instances, profile: Profile, plan: Option<ContextPlan>, action: Action, w: World)
    returns (e: Instances)
    requires d.Valid() && (action.ReloadOf? ==> action.id in d.items)
    ensures Turn(d, profile, plan, action, Lucky(w), Raises(d, action), e)
  {
    var p := Effective(profile, plan, Lucky(w));
    var done: Done;
    hide Effective, Starts, Reloads, Dict.Valid;
    match action {
      case StartOn(gpu) =>
        done := Renewed;
        e := SomeStart(d, p, gpu, w);
      case ReloadOf(id) => done, e := SomeReload(d, p, id, w);
      case Leave => done, e := Acted, d;
    }
    assert Acts(d, p, action, Lucky(w), done, e) && (done.Aborted? <==> Raises(d, action));
  }

  lemma {:induction false} LuckyPrepared(d: Instances, profiles: seq<Profile>, actions: seq<Action>, worlds: seq<World>)
    requires Prepared(d, profiles, actions, worlds)
    ensures Prepared(d, profiles, actions, AllLucky(worlds))
  {
    hide Reloadable, Dict.Valid, Cleanup.DistinctNames;
  }

  /** The run of a plan in which every start succeeds. */
  lemma {:induction false} LuckyTrail(d: Instances, profiles: seq<Profile>, plans: map<string, ContextPlan>,
                                      actions: seq<Action>, worlds: seq<World>, n: nat)
    returns (trail: seq<Instances>)
    requires Prepared(d, profiles, actions, worlds) && n <= |profiles| == |actions| && Reached(d, actions, n)
    ensures |trail| == n + 1 && trail[0] == d && |worlds| == |actions|
    ensures Turns(trail, n > 0 && Raises(d, actions[n - 1]), profiles, plans, actions, AllLucky(worlds))
  {
    hide *;
    LuckyPrepared(d, profiles, actions, worlds);
    StartsUntouched(d, profiles, actions, worlds);
    if n == 0 {
      trail := [d];
      NoTurns(d, profiles, plans, actions, AllLucky(worlds));
    } else {
      ReachedBefore(d, actions, n);
      trail := LuckyTrail(d, profiles, plans, actions, worlds, n - 1);
      var c, k := trail[n - 1], n - 1;
      TurnsMemory(trail, false, profiles, plans, actions, AllLucky(worlds), k, "");
      PreparedAt(d, c, profiles, actions, AllLucky(worlds), k);
      var e := SomeTurn(c, profiles[k], PlanOf(plans, profiles[k].name), actions[k], worlds[k]);
      SameRaise(d, c, actions[k]);
      OneTurnMore(trail, e, Raises(d, actions[k]), profiles, plans, actions, AllLucky(worlds));
      trail := trail + [e];
    }
  }

  lemma {:induction false} ReachedBefore(d: Instances, actions: seq<Action>, n: nat)
    requires 1 <= n <= |actions| && Reached(d, actions, n)
    ensures Reached(d, actions, n - 1) && !(n - 1 > 0 && Raises(d, actions[n - 2]))
  {
    hide Raises;
  }

  lemma {:induction false} SameRaise(d: Instances, c: Instances, action: Action)
    requires action.ReloadOf? ==>
      action.id in d.items && action.id in c.items && c.items[action.id] == d.items[action.id]
    ensures Raises(c, action) == Raises(d, action)
  {
  }

  /** Wherever a run of the plan gets, no turn before its last one raised for want of a GPU. */
  lemma {:induction false} TrailReached(d: Instances, trail: seq<Instances>, aborted: bool, profiles: seq<Profile>,
                                        plans: map<string, ContextPlan>, actions: seq<Action>, worlds: seq<World>,
                                        n: nat)
    requires trail != [] && trail[0] == d && Prepared(d, profiles, actions, worlds)
    requires Turns(trail, aborted, profiles, plans, actions, worlds) && n < |trail|
    ensures n <= |profiles| == |actions| && Reached(d, actions, n)
  {
    StartsUntouched(d, profiles, actions, worlds);
    TrailFits(trail, aborted, profiles, plans, actions, worlds);
    hide Prepared, Turns, Raises;
    forall k | 0 <= k < n - 1 ensures !Raises(d, actions[k]) {
      hide *;
      TurnsMemory(trail, aborted, profiles, plans, actions, worlds, k, "");
      PreparedAt(d, trail[k], profiles, actions, worlds, k);
      SameRaise(d, trail[k], actions[k]);
      TurnGoesOn(trail, aborted, profiles, plans, actions, worlds, k);
    }
  }

  /** A turn that is not the last one did not raise. */
  lemma {:induction false} TurnGoesOn(trail: seq<Instances>, aborted: bool, profiles: seq<Profile>,
                                      plans: map<string, ContextPlan>, actions: seq<Action>, worlds: seq<World>, k: nat)
    requires |worlds| == |actions| == |profiles| && Turns(trail, aborted, profiles, plans, actions, worlds)
    requires k + 2 < |trail|
    ensures k < |actions| && !Raises(trail[k], actions[k])
  {
    assert Turn(trail[k], profiles[k], PlanOf(plans, profiles[k].name), actions[k], worlds[k], false, trail[k + 1]);
    hide Starts, Effective, PlanOf;
  }

  /** Every run of the plan, whatever its starts and initialisations come to, keeps the snapshot after each turn. */
  ghost predicate EveryRunFits(gpus: seq<Gpu>, d: Instances, profiles: seq<Profile>, plans: map<string, ContextPlan>,
                               actions: seq<Action>, worlds: seq<World>)
    requires |worlds| == |actions| == |profiles|
  {
    forall others, trail: seq<Instances>, aborted, n: nat |
      Runs(d, profiles, plans, actions, worlds, others, trail, aborted, n) ::
      trail[n].Valid() && Fits(gpus, trail[n])
  }

  /** A run of the same plan with other outcomes, up to its `n`th turn. */
  ghost predicate Runs(d: Instances, profiles: seq<Profile>, plans: map<string, ContextPlan>, actions: seq<Action>,
                       worlds: seq<World>, others: seq<World>, trail: seq<Instances>, aborted: bool, n: nat)
    requires |worlds| == |actions| == |profiles|
  {
    && Outcomes(worlds, others) && Prepared(d, profiles, actions, others)
    && trail != [] && trail[0] == d && Turns(trail, aborted, profiles, plans, actions, others) && n < |trail|
  }

  /** The sums of the plan, when all its starts succeed, are within the room after every turn it can get to. */
  ghost predicate SumsFit(gpus: seq<Gpu>, d: Instances, profiles: seq<Profile>, plans: map<string, ContextPlan>,
                          actions: seq<Action>, worlds: seq<World>)
    requires d.Valid() && |worlds| == |actions| == |profiles|
  {
    forall n: nat, g | n <= |profiles| && Reached(d, actions, n) && g in gpus ::
      Changed(d, profiles, plans, actions, AllLucky(worlds), n, g.id) <= Room(g, d.Values())
  }

  /**
   * Once the plan is made: every run of it keeps every GPU within its free memory after each turn, whatever its
   * starts and initialisations come to, exactly when the sums of the run in which all of them succeed do.
   */
  lemma {:induction false} PlanFitsIff(gpus: seq<Gpu>, d: Instances, profiles: seq<Profile>,
                                           plans: map<string, ContextPlan>, actions: seq<Action>, worlds: seq<World>)
    requires Prepared(d, profiles, actions, worlds)
    requires forall k | 0 <= k < |profiles| == |worlds| :: Shape(profiles, plans, worlds, k).Required() >= 0
    ensures d.Valid() && |worlds| == |actions| == |profiles|
    ensures EveryRunFits(gpus, d, profiles, plans, actions, worlds) <==>
      SumsFit(gpus, d, profiles, plans, actions, worlds)
  {
    StartsUntouched(d, profiles, actions, worlds);
    if SumsFit(gpus, d, profiles, plans, actions, worlds) {
      forall others, trail: seq<Instances>, aborted, n: nat |
        Runs(d, profiles, plans, actions, worlds, others, trail, aborted, n)
        ensures trail[n].Valid() && Fits(gpus, trail[n])
      {
        RunFits(gpus, d, profiles, plans, actions, worlds, others, trail, aborted, n);
      }
    }
    if EveryRunFits(gpus, d, profiles, plans, actions, worlds) {
      forall n: nat, g | n <= |profiles| && Reached(d, actions, n) && g in gpus
        ensures Changed(d, profiles, plans, actions, AllLucky(worlds), n, g.id) <= Room(g, d.Values())
      {
        LuckyFits(gpus, d, profiles, plans, actions, worlds, n, g);
      }
    }
    hide Prepared, Turns, Changed, Reached, Fits, Runs, Dict.Valid, Dict.Values, Room;
  }

  lemma {:induction false} RunFits(gpus: seq<Gpu>, d: Instances, profiles: seq<Profile>,
                                   plans: map<string, ContextPlan>, actions: seq<Action>, worlds: seq<World>,
                                   others: seq<World>, trail: seq<Instances>, aborted: bool, n: nat)
    requires d.Valid() && |worlds| == |actions| == |profiles| && SumsFit(gpus, d, profiles, plans, actions, worlds)
    requires Runs(d, profiles, plans, actions, worlds, others, trail, aborted, n)
    requires forall k | 0 <= k < |profiles| :: Shape(profiles, plans, worlds, k).Required() >= 0
    ensures trail[n].Valid() && Fits(gpus, trail[n])
  {
    assert |others| == |worlds|;
    hide Prepared, Turns, Changed, Reached, Fits, Outcomes, Dict.Valid, Dict.Values, Shape, AllLucky;
    TrailReached(d, trail, aborted, profiles, plans, actions, others, n);
    ReconcileFitsIff(gpus, trail, aborted, profiles, plans, actions, others, n);
    forall g | g in gpus
      ensures Changed(d, profiles, plans, actions, others, n, g.id) <= Room(g, d.Values())
    {
      LuckyChanged(d, profiles, plans, actions, worlds, others, n, g.id);
    }
  }

  lemma {:induction false} LuckyFits(gpus: seq<Gpu>, d: Instances, profiles: seq<Profile>,
                                     plans: map<string, ContextPlan>, actions: seq<Action>, worlds: seq<World>, n: nat,
                                     g: Gpu)
    requires Prepared(d, profiles, actions, worlds) && |worlds| == |actions| == |profiles|
    requires EveryRunFits(gpus, d, profiles, plans, actions, worlds)
    requires n <= |profiles| && Reached(d, actions, n) && g in gpus
    ensures d.Valid() && Changed(d, profiles, plans, actions, AllLucky(worlds), n, g.id) <= Room(g, d.Values())
  {
    StartsUntouched(d, profiles, actions, worlds);
    var trail := LuckyTrail(d, profiles, plans, actions, worlds, n);
    var aborted := n > 0 && Raises(d, actions[n - 1]);
    LuckyPrepared(d, profiles, actions, worlds);
    assert Outcomes(worlds, AllLucky(worlds));
    hide Prepared, Turns, Changed, Reached, Fits, Outcomes, Dict.Valid, Dict.Values, AllLucky, Raises;
    assert Runs(d, profiles, plans, actions, worlds, AllLucky(worlds), trail, aborted, n);
    ReconcileFitsIff(gpus, trail, aborted, profiles, plans, actions, AllLucky(worlds), n);
  }

  // ---- a reconcile that overbooks ---------------------------------------------------------

  /** A model of six megabytes that should have one backend, on any GPU. */
  function Small(name: string): Profile {
    Profile(name, name, "vllm", "", 8100, 6, 0, 1, 1, 600, ["auto"], None, None, 0, false)
  }

  function Starting(id: string): World {
    World(None, [], Runtime.Start.Start(id, false, false, false, 0), Healthy, None, 0)
  }

  function Backend(name: string, id: string, port: int): Instance {
    Initialised(NewInstance(Small(name), "gpu0", 6, port, Starting(id).start), Healthy, 0)
  }

  /**
   * Two models planned in one reconcile, six megabytes each, on one empty GPU with ten: each has room when it is
   * planned, both are started, on ports 8100 and 8101, and twelve are reserved.
   */
  lemma {:induction false} TwoPlansOverbook(naming: Naming, failures: Cleanup.Failures) returns (trail: seq<Instances>)
    ensures var gpus, profiles := [Gpu("gpu0", "0", 10)], [Small("a"), Small("b")];
      var worlds, actions := [Starting("x"), Starting("y")], [StartOn("gpu0"), StartOn("gpu0")];
      var d: Instances := Empty();
      && |trail| == 3 && trail[0] == Base(d, profiles, map[], map[], naming, failures, 0)
      && (forall k | 0 <= k < 2 :: Planned(trail[0].Values(), profiles[k], None, map[], gpus, worlds[k], actions[k]))
      && Prepared(trail[0], profiles, actions, worlds) && Turns(trail, false, profiles, map[], actions, worlds)
      && Fits(gpus, trail[0])
      && trail[2].Valid() && ReservedOn(trail[2].Values(), "gpu0") == 12 && !Fits(gpus, trail[2])
  {
    var gpus, profiles := [Gpu("gpu0", "0", 10)], [Small("a"), Small("b")];
    var worlds, actions := [Starting("x"), Starting("y")], [StartOn("gpu0"), StartOn("gpu0")];
    var d: Instances := Empty();
    var c := d.Put("x", Backend("a", "x", 8100));
    var e := c.Put("y", Backend("b", "y", 8101));
    trail := [d, c, e];
    hide *;
    SmallIs("a");
    SmallIs("b");
    EmptyBase(profiles, naming, failures);
    EmptyPlans("a", "x");
    EmptyPlans("b", "y");
    BothStart();
    EmptyPrepared();
    TurnsMemory(trail, false, profiles, map[], actions, worlds, 2, "gpu0");
    TwelveChanged(d);
    FitsIs(gpus, trail[0]);
    FitsIs(gpus, trail[2]);
  }

  lemma {:induction false} SmallIs(name: string)
    ensures Small(name).runtime == "vllm"
  {
  }

  lemma {:induction false} FitsIs(gpus: seq<Gpu>, d: Instances)
    requires d.Valid() && gpus == [Gpu("gpu0", "0", 10)]
    ensures Fits(gpus, d) <==> ReservedOn(d.Values(), "gpu0") <= 10
  {
    hide ReservedOn, Dict.Values, Dict.Valid;
    assert gpus[0] in gpus;
  }

  /** Nothing is loaded and nothing is idle. */
  lemma {:induction false} EmptyBase(profiles: seq<Profile>, naming: Naming, failures: Cleanup.Failures)
    requires forall p | p in profiles :: p.runtime != "lmstudio"
    ensures Base(Empty(), profiles, map[], map[], naming, failures, 0) == Empty()
  {
    NothingLoaded(profiles, naming);
    NoVictims(profiles);
    var d: Instances := Empty();
    assert d.Values() == [];
    hide SyncedAll, Cleanup.AllVictims;
  }

  lemma {:induction false} NothingLoaded(profiles: seq<Profile>, naming: Naming)
    requires forall p | p in profiles :: p.runtime != "lmstudio"
    ensures SyncedAll(Empty(), profiles, map[], naming, 0) == Empty()
  {
    if profiles != [] { NothingLoaded(profiles[..|profiles| - 1], naming); }
  }

  lemma {:induction false} NoVictims(profiles: seq<Profile>)
    ensures Cleanup.AllVictims([], profiles, map[], 0) == []
  {
    if profiles != [] {
      NoVictims(profiles[..|profiles| - 1]);
      assert Cleanup.Victims([], profiles[|profiles| - 1], 0, 0) == [];
    }
  }

  lemma {:induction false} EmptyPlans(name: string, id: string)
    ensures var d: Instances := Empty();
      Planned(d.Values(), Small(name), None, map[], [Gpu("gpu0", "0", 10)], Starting(id), StartOn("gpu0"))
  {
    var d: Instances := Empty();
    var gpus := [Gpu("gpu0", "0", 10)];
    assert d.Values() == [];
    assert ReservedOn([], "gpu0") == 0;
    assert Room(gpus[0], []) == 10 && Candidate(Small(name), gpus[0], []);
    assert IsPlacement(Small(name), gpus, [], Placement.Start("gpu0", 10));
    assert Missing([], Small(name), 0);
    assert Effective(Small(name), None, Starting(id)) == Small(name);
    hide IsPlacement, Missing, Effective;
  }

  lemma {:induction false} EmptyPrepared()
    ensures Prepared(Empty(), [Small("a"), Small("b")], [StartOn("gpu0"), StartOn("gpu0")],
                     [Starting("x"), Starting("y")])
  {
  }

  lemma {:induction false} StartedAt(d: Instances, name: string, id: string, port: int, e: Instances)
    requires d.Valid() && NextPort(d.Values(), 8100, port) && e == d.Put(id, Backend(name, id, port))
    ensures Turn(d, Small(name), None, StartOn("gpu0"), Starting(id), false, e)
  {
    assert Effective(Small(name), None, Starting(id)) == Small(name);
    assert StartsAt(d, Small(name), "gpu0", Starting(id), port, e);
    hide StartsAt, Effective;
    assert Acts(d, Small(name), StartOn("gpu0"), Starting(id), Renewed, e);
  }

  lemma {:induction false} BothStart()
    ensures var d: Instances := Empty();
      var c := d.Put("x", Backend("a", "x", 8100));
      var e := c.Put("y", Backend("b", "y", 8101));
      Turns([d, c, e], false, [Small("a"), Small("b")], map[], [StartOn("gpu0"), StartOn("gpu0")],
            [Starting("x"), Starting("y")])
  {
    var d: Instances := Empty();
    var c := d.Put("x", Backend("a", "x", 8100));
    var e := c.Put("y", Backend("b", "y", 8101));
    hide *;
    NoPorts(d);
    OneValue(d, "x", Backend("a", "x", 8100));
    BackendPort("a", "x", 8100);
    OnePort(Backend("a", "x", 8100));
    StartedAt(d, "a", "x", 8100, c);
    StartedAt(c, "b", "y", 8101, e);
    TwoTurns(d, c, e);
  }

  lemma {:induction false} TwoTurns(d: Instances, c: Instances, e: Instances)
    requires Turn(d, Small("a"), None, StartOn("gpu0"), Starting("x"), false, c)
    requires Turn(c, Small("b"), None, StartOn("gpu0"), Starting("y"), false, e)
    ensures Turns([d, c, e], false, [Small("a"), Small("b")], map[], [StartOn("gpu0"), StartOn("gpu0")],
                  [Starting("x"), Starting("y")])
  {
    hide Turn, Starting, Small;
  }

  lemma {:induction false} BackendPort(name: string, id: string, port: int)
    ensures Backend(name, id, port).port == Some(port)
  {
  }

  lemma {:induction false} NoPorts(d: Instances)
    requires d == Empty()
    ensures d.Valid() && d.Values() == [] && NextPort(d.Values(), 8100, 8100)
  {
  }

  lemma {:induction false} OneValue(d: Instances, id: string, i: Instance)
    requires d == Empty()
    ensures d.Put(id, i).Valid() && d.Put(id, i).Values() == [i]
  {
    assert d.Values() == [];
    d.ValuesPut(id, i);
  }

  lemma {:induction false} OnePort(i: Instance)
    requires i.port == Some(8100)
    ensures NextPort([i], 8100, 8101)
  {
    assert i in [i];
  }

  lemma {:induction false} TwelveChanged(d: Instances)
    requires d == Empty()
    ensures d.Valid() && ReservedOn(d.Values(), "gpu0") == 0
    ensures Changed(d, [Small("a"), Small("b")], map[], [StartOn("gpu0"), StartOn("gpu0")],
                    [Starting("x"), Starting("y")], 2, "gpu0")
      == 12
  {
    var profiles, actions, worlds := [Small("a"), Small("b")], [StartOn("gpu0"), StartOn("gpu0")],
      [Starting("x"), Starting("y")];
    assert d.Values() == [];
    NothingChanged(d, profiles, map[], actions, worlds, "gpu0");
    ChangedStep(d, profiles, map[], actions, worlds, 0, "gpu0");
    ChangedStep(d, profiles, map[], actions, worlds, 1, "gpu0");
    hide Changed;
  }
}
