/** No two records share a host port, through whole reconciles. */
module Ports {
  import opened Dicts
  import opened Fleet
  import opened Registry
  import opened Runtime
  import opened ContextPlans
  import opened LiveSync
  import opened Controller
  import Cleanup

  lemma {:induction false} StartsPorts(d: Instances, profile: Profile, gpu: string, world: World, done: Done,
                                       e: Instances)
    requires d.Valid() && PortsUnique(d) && Starts(d, profile, gpu, world, done, e)
    ensures e.Valid() && PortsUnique(e) && e.items.Keys <= d.items.Keys + {world.start.id}
  {
    hide PortsUnique, Dict.Valid, Dict.Values, UsedPorts;
    if !world.start.raises {
      var port :| StartsAt(d, profile, gpu, world, port, e);
      var i := Initialised(NewInstance(profile, gpu, profile.Required(), port, world.start), world.health, world.now);
      PutPort(d, world.start.id, i);
    }
  }

  lemma {:induction false} ReloadsPorts(d: Instances, profile: Profile, id: string, world: World, done: Done,
                                        e: Instances)
    requires d.Valid() && PortsUnique(d) && id in d.items && Reloads(d, profile, id, world, done, e)
    ensures e.Valid() && PortsUnique(e) && e.items.Keys <= d.items.Keys + {world.start.id}
  {
    var i := d.items[id];
    var rest := d.Put(id, StoppedAs(i, world.stopFailure, world.now));
    hide PortsUnique, Dict.Valid, Starts;
    PutPort(d, id, i.Marked(Draining, world.now));
    PutPort(d, id, StoppedAs(i, world.stopFailure, world.now));
    if !(i.active > 0) && !(i.runtime == "lmstudio" && !i.dryRun && !i.ownedLoad) && i.gpus != [] {
      StartsPorts(rest, profile, i.gpus[0], world, done, e);
    }
  }

  lemma {:induction false} ActsPorts(d: Instances, profile: Profile, action: Action, world: World, done: Done,
                                     e: Instances)
    requires d.Valid() && PortsUnique(d) && Acts(d, profile, action, world, done, e)
    ensures e.Valid() && PortsUnique(e) && e.items.Keys <= d.items.Keys + {world.start.id}
  {
    hide PortsUnique, Dict.Valid, Starts, Reloads;
    match action
    case StartOn(gpu) => StartsPorts(d, profile, gpu, world, done, e);
    case ReloadOf(id) => ReloadsPorts(d, profile, id, world, done, e);
    case Leave =>
  }

  /** Every turn keeps ports unique, whichever turns come before it and wherever the loop is aborted. */
  lemma {:induction false} TurnsPorts(trail: seq<Instances>, aborted: bool, profiles: seq<Profile>,
                                      plans: map<string, ContextPlan>, actions: seq<Action>, worlds: seq<World>, n: nat)
    requires |worlds| == |actions| == |profiles| && Turns(trail, aborted, profiles, plans, actions, worlds)
      && n < |trail|
    requires trail[0].Valid() && PortsUnique(trail[0])
    ensures trail[n].Valid() && PortsUnique(trail[n])
  {
    hide *;
    if n > 0 {
      TurnsPorts(trail, aborted, profiles, plans, actions, worlds, n - 1);
      var done := TurnAt(trail, aborted, profiles, plans, actions, worlds, n - 1);
      ActsPorts(trail[n - 1], Effective(profiles[n - 1], PlanOf(plans, profiles[n - 1].name), worlds[n - 1]),
                actions[n - 1], worlds[n - 1], done, trail[n]);
    }
  }

  lemma {:induction false} TurnAt(trail: seq<Instances>, aborted: bool, profiles: seq<Profile>,
                                  plans: map<string, ContextPlan>, actions: seq<Action>, worlds: seq<World>, k: nat)
                                    returns (done: Done)
    requires |worlds| == |actions| == |profiles| && Turns(trail, aborted, profiles, plans, actions, worlds)
      && k + 1 < |trail|
    ensures k < |profiles|
    ensures Acts(trail[k], Effective(profiles[k], PlanOf(plans, profiles[k].name), worlds[k]), actions[k], worlds[k],
                 done, trail[k + 1])
  {
    hide Acts, Effective;
    assert Turn(trail[k], profiles[k], PlanOf(plans, profiles[k].name), actions[k], worlds[k],
                aborted && k == |trail| - 2, trail[k + 1]);
    done :|
      Acts(trail[k], Effective(profiles[k], PlanOf(plans, profiles[k].name), worlds[k]), actions[k], worlds[k], done,
           trail[k + 1]);
  }

  lemma {:induction false} SweptPorts(d: Instances, profiles: seq<Profile>, queues: map<string, int>,
                                      failures: Cleanup.Failures, now: Instant)
    requires NoDuplicates(d) && PortsUnique(d)
    ensures PortsUnique(Swept(d, profiles, queues, failures, now))
  {
    var victims := Cleanup.AllVictims(d.Values(), profiles, queues, now);
    Cleanup.AllVictimsAre(d, profiles, queues, now);
    hide Cleanup.AllVictims, NoDuplicates, Cleanup.StopAll;
    Cleanup.StopAllIs(d, victims, failures, now);
    forall i { EndingPort(i, failures, now); }
    hide Cleanup.Ending;
  }

  lemma {:induction false} EndingPort(i: Instance, failures: Cleanup.Failures, now: Instant)
    ensures Cleanup.Ending(i, failures, now).port == i.port
  {
  }

  /** After every turn of every reconcile, aborted or not, no two records share a host port. */
  lemma {:induction false} ReconcilePorts(d: Instances, profiles: seq<Profile>, queues: map<string, int>,
                                          plans: map<string, ContextPlan>, loads: map<string, seq<Load>>,
                                          naming: Naming, worlds: seq<World>, failures: Cleanup.Failures, now: Instant,
                                          actions: seq<Action>, aborted: bool, trail: seq<Instances>, n: nat)
    requires NoDuplicates(d) && PortsUnique(d)
    requires |worlds| == |actions| == |profiles| && Turns(trail, aborted, profiles, plans, actions, worlds)
      && n < |trail|
    requires trail[0] == Base(d, profiles, queues, loads, naming, failures, now)
    ensures trail[n].Valid() && PortsUnique(trail[n])
  {
    SyncedSyncs(d, profiles, loads, naming, now);
    var c := SyncedAll(d, profiles, loads, naming, now);
    assert NoDuplicates(c) && PortsUnique(c);
    hide *;
    SweptPorts(c, profiles, queues, failures, now);
    assert trail[0] == Swept(c, profiles, queues, failures, now) by {
      BaseIsSwept(d, profiles, queues, loads, naming, failures, now);
    }
    TurnsPorts(trail, aborted, profiles, plans, actions, worlds, n);
  }

  lemma {:induction false} BaseIsSwept(d: Instances, profiles: seq<Profile>, queues: map<string, int>,
                                       loads: map<string, seq<Load>>, naming: Naming, failures: Cleanup.Failures,
                                       now: Instant)
    requires d.Valid()
    ensures Base(d, profiles, queues, loads, naming, failures, now)
      == Swept(SyncedAll(d, profiles, loads, naming, now), profiles, queues, failures, now)
  {
  }
}
