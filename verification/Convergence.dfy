/** The context plan of the queue and the reloads of the controller together: reloading for one plan comes to an end. */
module Convergence {
  import opened Wrappers
  import opened Dicts
  import opened Seqs
  import opened Fleet
  import opened Registry
  import opened Scheduler
  import opened Runtime
  import opened Replicas
  import opened LiveSync
  import opened ContextPlans
  import opened Reload
  import opened Controller
  import Overbooking
  import Ports
  import Cleanup

  /** The memory estimate decides where a backend is placed, never whether it has to be reloaded. */
  lemma {:induction false} EstimateIgnored(base: Profile, plan: ContextPlan, world: World, s: seq<Instance>,
                                           t: seq<Instance>)
    ensures var p, q := Effective(base, Some(plan), world), WithPlan(base, Some(plan));
      && Decide(p, s, Some(plan), world.now) == Decide(q, s, Some(plan), world.now)
      && (Reloaded(s, t, p, plan, world.now) <==> Reloaded(s, t, q, plan, world.now))
  {
    var p, q := Effective(base, Some(plan), world), WithPlan(base, Some(plan));
    assert p == q || p == q.(estimatedVram := p.estimatedVram);
    hide Effective, WithPlan;
    SameVerdict(p, q, s, plan, world.now);
    forall i { SameJudgement(p, q, i, plan, world.now); }
    hide Verdict, Fits, ShapedBy, FirstVerdict;
  }

  lemma {:induction false} SameJudgement(p: Profile, q: Profile, i: Instance, plan: ContextPlan, now: Instant)
    requires p == q || p == q.(estimatedVram := p.estimatedVram)
    ensures Fits(i, p, plan) == Fits(i, q, plan) && Verdict(p, i, plan, now) == Verdict(q, i, plan, now)
    ensures ShapedBy(i, p) == ShapedBy(i, q)
  {
  }

  lemma {:induction false} SameVerdict(p: Profile, q: Profile, s: seq<Instance>, plan: ContextPlan, now: Instant)
    requires p == q || p == q.(estimatedVram := p.estimatedVram)
    ensures FirstVerdict(p, s, plan, now) == FirstVerdict(q, s, plan, now)
  {
    if s != [] {
      SameJudgement(p, q, s[0], plan, now);
      SameVerdict(p, q, s[1..], plan, now);
    }
  }

  // ---- one backend succeeds another --------------------------------------------------------

  lemma {:induction false} ForModelConcat(a: seq<Instance>, b: seq<Instance>, model: string)
    ensures ForModel(a + b, model, false) == ForModel(a, model, false) + ForModel(b, model, false)
  {
    hide *;
    if b == [] {
      NoneOf(model);
      assert a + b == a;
    } else {
      var n := |b| - 1;
      ForModelLast(a + b, model);
      ForModelLast(b, model);
      LastOfBoth(a, b);
      ForModelConcat(a, b[..n], model);
      Regroup(ForModel(a, model, false), ForModel(b[..n], model, false),
              if InState(b[n], model, false) then [b[n]] else []);
    }
  }

  lemma {:induction false} LastOfBoth(a: seq<Instance>, b: seq<Instance>)
    requires b != []
    ensures (a + b)[..|a + b| - 1] == a + b[..|b| - 1] && (a + b)[|a + b| - 1] == b[|b| - 1]
  {
  }

  lemma {:induction false} Regroup(x: seq<Instance>, y: seq<Instance>, z: seq<Instance>)
    ensures x + (y + z) == x + y + z
  {
  }

  lemma {:induction false} NoneOf(model: string)
    ensures ForModel([], model, false) == []
  {
  }

  lemma {:induction false} ForModelLast(s: seq<Instance>, model: string)
    requires s != []
    ensures ForModel(s, model, false)
      == ForModel(s[..|s| - 1], model, false) + if InState(s[|s| - 1], model, false) then [s[|s| - 1]] else []
  {
  }

  /** The list `t` is `s` without element `k`, and with at most one backend of the profile's shape at the end. */
  ghost predicate Replaced(s: seq<Instance>, t: seq<Instance>, k: nat, profile: Profile, successor: string)
    requires k < |s|
  {
    exists joined: seq<Instance> ::
      (|joined| <= 1 && (forall i | i in joined :: ShapedBy(i, profile) && i.id == successor)
       && t == s[..k] + s[k + 1..] + joined)
  }

  /** How the active list of a model changes when one of its backends is succeeded by another. */
  lemma {:induction false} SuccessionList(d: Instances, e: Instances, profile: Profile, id: string, successor: string,
                                          k: nat)
    requires NoDuplicates(d) && Reloadable(d, profile, id) && successor !in d.items
    requires Succeeded(d, e, profile, id, successor)
    requires var s := ForModel(d.Values(), profile.name, false); k < |s| && s[k] == d.items[id]
    ensures e.Valid()
      && Replaced(ForModel(d.Values(), profile.name, false), ForModel(e.Values(), profile.name, false), k, profile,
                  successor)
  {
    var stopped: Instance :| stopped.model == profile.name && !stopped.state.Active()
      && Joined(d.Put(id, stopped), e, profile, successor);
    var started: Instance :| started.id == successor && started.model == profile.name && ShapedBy(started, profile)
      && e == d.Put(id, stopped).Put(successor, started);
    Cleanup.ValuesDistinct(d);
    hide Dict.Values, Dict.Put, NoDuplicates, Joined, ForModel, ShapedBy, Cleanup.DistinctIds, Replaced;
    SuccessionValues(d, id, stopped, successor, started);
    var m := d.IndexOf(id);
    SplicedList(d.Values()[..m], d.items[id], stopped, d.Values()[m + 1..], started, profile, k);
  }

  lemma {:induction false} SuccessionValues(d: Instances, id: string, stopped: Instance, successor: string,
                                            started: Instance)
    requires d.Valid() && id in d.items && successor !in d.items
    ensures var m := d.IndexOf(id); var before, after := d.Values()[..m], d.Values()[m + 1..];
      && d.Values() == before + [d.items[id]] + after
      && d.Put(id, stopped).Put(successor, started).Values() == before + [stopped] + after + [started]
  {
    d.ValuesPut(id, stopped);
    d.Put(id, stopped).ValuesPut(successor, started);
    var m := d.IndexOf(id);
    assert d.Values()[m] == d.items[id];
    hide Dict.Values, Dict.Valid, Dict.IndexOf, Dict.Put;
    SplitAt(d.Values(), m, stopped);
  }

  lemma {:induction false} SplitAt(s: seq<Instance>, m: nat, i: Instance)
    requires m < |s|
    ensures s == s[..m] + [s[m]] + s[m + 1..] && s[m := i] == s[..m] + [i] + s[m + 1..]
  {
  }

  lemma {:induction false} DropOne(x: seq<Instance>, c: Instance, y: seq<Instance>, joined: seq<Instance>,
                                   profile: Profile, k: nat, successor: string)
    requires k < |x + [c] + y| && (x + [c] + y)[k] == c && Cleanup.DistinctIds(x + [c] + y)
    requires |joined| <= 1 && forall i | i in joined :: ShapedBy(i, profile) && i.id == successor
    ensures Replaced(x + [c] + y, x + y + joined, k, profile, successor)
  {
    var s := x + [c] + y;
    assert s[|x|] == c;
    SameId(s, k, |x|);
    hide Cleanup.DistinctIds, ShapedBy;
    assert s[..k] == x && s[k + 1..] == y;
  }

  lemma {:induction false} SameId(s: seq<Instance>, i: nat, j: nat)
    requires Cleanup.DistinctIds(s) && i < |s| && j < |s| && s[i] == s[j]
    ensures i == j
  {
  }

  lemma {:induction false} SplicedList(before: seq<Instance>, current: Instance, stopped: Instance,
                                       after: seq<Instance>, started: Instance, profile: Profile, k: nat)
    requires InState(current, profile.name, false) && !stopped.state.Active() && ShapedBy(started, profile)
    requires Cleanup.DistinctIds(before + [current] + after)
    requires var s := ForModel(before + [current] + after, profile.name, false); k < |s| && s[k] == current
    ensures Replaced(ForModel(before + [current] + after, profile.name, false),
                     ForModel(before + [stopped] + after + [started], profile.name, false), k, profile, started.id)
  {
    var s := ForModel(before + [current] + after, profile.name, false);
    var x, y, joined := ForModel(before, profile.name, false), ForModel(after, profile.name, false),
      ForModel([started], profile.name, false);
    ForModelOne(current, profile.name);
    ForModelOne(stopped, profile.name);
    ForModelOne(started, profile.name);
    ActiveDistinct(before + [current] + after, profile.name);
    assert |joined| <= 1 && forall i | i in joined :: ShapedBy(i, profile) && i.id == started.id;
    hide ForModel, ShapedBy, Cleanup.DistinctIds, InState, Replaced;
    Spliced(before, current, stopped, after, started, profile.name);
    assert s == x + [current] + y;
    DropOne(x, current, y, joined, profile, k, started.id);
    assert x + [] == x;
  }

  lemma {:induction false} ForModelOne(i: Instance, model: string)
    ensures ForModel([i], model, false) == if InState(i, model, false) then [i] else []
  {
    assert [i][..0] == [];
  }

  lemma {:induction false} Spliced(before: seq<Instance>, old_: Instance, stopped: Instance, after: seq<Instance>,
                                   started: Instance, model: string)
    ensures ForModel(before + [old_] + after, model, false)
      == ForModel(before, model, false) + ForModel([old_], model, false) + ForModel(after, model, false)
    ensures ForModel(before + [stopped] + after + [started], model, false)
      == ForModel(before, model, false) + ForModel([stopped], model, false) + ForModel(after, model, false)
        + ForModel([started], model, false)
  {
    hide ForModel;
    ForModelConcat(before, [old_], model);
    ForModelConcat(before + [old_], after, model);
    ForModelConcat(before, [stopped], model);
    ForModelConcat(before + [stopped], after, model);
    ForModelConcat(before + [stopped] + after, [started], model);
  }

  lemma {:induction false} ActiveDistinct(values: seq<Instance>, model: string)
    requires Cleanup.DistinctIds(values)
    ensures Cleanup.DistinctIds(ForModel(values, model, false))
  {
    if values != [] {
      var n := |values| - 1;
      ActiveDistinct(values[..n], model);
      forall i | i in values[..n] ensures i.id != values[n].id { var x :| 0 <= x < n && values[x] == i; }
    }
  }

  /** The active list of a model as its plan sees it: with the live shapes. */
  function Seen(d: Instances, base: Profile, plan: Option<ContextPlan>, world: World): seq<Instance>
    requires d.Valid()
  {
    LiveShapes(ForModel(d.Values(), base.name, false), Effective(base, plan, world), world)
  }

  /** The same list with one backend in the shape it was started with, of which the live state does not tell yet. */
  function SeenBut(d: Instances, base: Profile, plan: Option<ContextPlan>, world: World, id: string): seq<Instance>
    requires d.Valid()
  {
    LiveBut(ForModel(d.Values(), base.name, false), Effective(base, plan, world), world, id)
  }

  function LiveBut(instances: seq<Instance>, profile: Profile, world: World, id: string): (r: seq<Instance>)
    ensures |r| == |instances|
    ensures forall k | 0 <= k < |r| ::
      r[k] == if instances[k].id == id then instances[k] else WithLiveShape(instances[k], profile, world)
  {
    seq(|instances|, k requires 0 <= k < |instances| =>
      if instances[k].id == id then instances[k] else WithLiveShape(instances[k], profile, world))
  }

  /**
   * A reload that was planned on `b` and went through on `d`, where the model's backends are still those of `b`,
   * is a step of the convergence argument: on the list that the plan saw, one misfit is gone.
   */
  lemma {:induction false} RenewalIsReload(b: Instances, d: Instances, e: Instances, base: Profile, plan: ContextPlan,
                                           queues: map<string, int>, gpus: seq<Gpu>, world: World, id: string)
    requires NoDuplicates(b) && NoDuplicates(d) && world.start.id !in d.items
    requires ForModel(d.Values(), base.name, false) == ForModel(b.Values(), base.name, false)
    requires Planned(b.Values(), base, Some(plan), queues, gpus, world, ReloadOf(id))
    requires Succeeded(d, e, Effective(base, Some(plan), world), id, world.start.id)
    ensures d.Valid() && e.Valid()
    ensures Reloaded(Seen(b, base, Some(plan), world), SeenBut(e, base, Some(plan), world, world.start.id),
                     Effective(base, Some(plan), world), plan, world.now)
  {
    assert d.Valid();
    hide *;
    var p := Effective(base, Some(plan), world);
    EffectiveKeeps(d, base, Some(plan), world);
    var k := PlannedMisfit(b, base, plan, queues, gpus, world, id);
    StillHere(b, d, p, id, k);
    SuccessionList(d, e, p, id, world.start.id, k);
    var s, t := ForModel(b.Values(), base.name, false), ForModel(e.Values(), base.name, false);
    NoneNamed(d, base.name, world.start.id);
    SeenReplaced(s, t, k, p, world);
    SeenIs(b, base, Some(plan), world);
    SeenButIs(e, base, Some(plan), world, world.start.id);
    ReplacedIsReload(LiveShapes(s, p, world), LiveBut(t, p, world, world.start.id), k, p, plan, world.now,
                     world.start.id);
  }

  /** A backend of the list has the same record in both registries. */
  lemma {:induction false} StillHere(b: Instances, d: Instances, profile: Profile, id: string, k: nat)
    requires NoDuplicates(b) && NoDuplicates(d) && Reloadable(b, profile, id)
    requires var s := ForModel(b.Values(), profile.name, false);
      ForModel(d.Values(), profile.name, false) == s && k < |s| && s[k] == b.items[id]
    ensures Reloadable(d, profile, id) && id in b.items && id in d.items && d.items[id] == b.items[id]
  {
    Cleanup.ValuesDistinct(d);
    assert b.items[id].id == id;
    assert b.items[id] in ForModel(d.Values(), profile.name, false);
    hide ForModel;
  }

  lemma {:induction false} NoneNamed(d: Instances, model: string, id: string)
    requires NoDuplicates(d) && id !in d.items
    ensures forall i | i in ForModel(d.Values(), model, false) :: i.id != id
  {
    Cleanup.ValuesDistinct(d);
  }

  lemma {:induction false} SeenIs(d: Instances, base: Profile, plan: Option<ContextPlan>, world: World)
    requires d.Valid()
    ensures Seen(d, base, plan, world)
      == LiveShapes(ForModel(d.Values(), base.name, false), Effective(base, plan, world), world)
  {
  }

  lemma {:induction false} SeenButIs(d: Instances, base: Profile, plan: Option<ContextPlan>, world: World, id: string)
    requires d.Valid()
    ensures SeenBut(d, base, plan, world, id)
      == LiveBut(ForModel(d.Values(), base.name, false), Effective(base, plan, world), world, id)
  {
  }

  /** Live shapes change no place in a list. */
  lemma {:induction false} SeenReplaced(s: seq<Instance>, t: seq<Instance>, k: nat, profile: Profile, world: World)
    requires k < |s| && Replaced(s, t, k, profile, world.start.id) && forall i | i in s :: i.id != world.start.id
    ensures Replaced(LiveShapes(s, profile, world), LiveBut(t, profile, world, world.start.id), k, profile,
                     world.start.id)
  {
    var joined: seq<Instance> :| |joined| <= 1
      && (forall i | i in joined :: ShapedBy(i, profile) && i.id == world.start.id)
      && t == s[..k] + s[k + 1..] + joined;
    LiveSpliced(s, t, k, joined, profile, world, world.start.id);
    hide LiveShapes, LiveBut, ShapedBy;
  }

  lemma {:induction false} LiveSpliced(s: seq<Instance>, t: seq<Instance>, k: nat, joined: seq<Instance>,
                                       profile: Profile, world: World, id: string)
    requires k < |s| && t == s[..k] + s[k + 1..] + joined
    requires (forall i | i in s :: i.id != id) && forall i | i in joined :: i.id == id
    ensures var u := LiveShapes(s, profile, world); LiveBut(t, profile, world, id) == u[..k] + u[k + 1..] + joined
  {
    hide WithLiveShape, LiveShapes, LiveBut;
    var u, v := LiveShapes(s, profile, world), LiveBut(t, profile, world, id);
    var w := u[..k] + u[k + 1..] + joined;
    assert |v| == |w|;
    forall n | 0 <= n < |v| ensures v[n] == w[n] {
      if n < k {
        assert t[n] == s[n] && s[n] in s;
      } else if n < |s| - 1 {
        assert t[n] == s[n + 1] && s[n + 1] in s;
      } else {
        assert t[n] == joined[n - (|s| - 1)];
      }
    }
  }

  /** The backend that a planned reload names is the first live misfit of the list that the plan sees. */
  lemma {:induction false} PlannedMisfit(d: Instances, base: Profile, plan: ContextPlan, queues: map<string, int>,
                                         gpus: seq<Gpu>, world: World, id: string)
    returns (k: nat)
    requires NoDuplicates(d)
    requires Planned(d.Values(), base, Some(plan), queues, gpus, world, ReloadOf(id))
    ensures d.Valid()
    ensures var p, s := Effective(base, Some(plan), world), ForModel(d.Values(), base.name, false);
      var seen := LiveShapes(s, p, world);
      && Reloadable(d, p, id) && FirstMisfit(p, seen, plan, k) && k < |s| == |seen| && s[k] == d.items[id]
      && Verdict(p, seen[k], plan, world.now).Some? && Verdict(p, seen[k], plan, world.now).value.Replace?
  {
    var p := Effective(base, Some(plan), world);
    var s := ForModel(d.Values(), base.name, false);
    var seen := LiveShapes(s, p, world);
    PlannedMeans(d, base, Some(plan), queues, gpus, world, ReloadOf(id));
    EffectiveKeeps(d, base, Some(plan), world);
    assert Decide(p, seen, Some(plan), world.now).Some? && Decide(p, seen, Some(plan), world.now).value.Replace?
      && Decide(p, seen, Some(plan), world.now).value.id == id;
    hide Planned, Effective, Decide, NoDuplicates, ForModel, Dict.Values, Verdict, Fits, IsPlacement, Missing;
    k := DecisionIs(p, seen, plan, world.now);
    VerdictId(p, seen[k], plan, world.now);
    Cleanup.ValuesDistinct(d);
    assert s[k] in s && seen[k].id == s[k].id;
  }

  lemma {:induction false} ReplacedIsReload(s: seq<Instance>, t: seq<Instance>, k: nat, profile: Profile,
                                            plan: ContextPlan, now: Instant, successor: string)
    requires FirstMisfit(profile, s, plan, k) && Replaced(s, t, k, profile, successor)
    requires Verdict(profile, s[k], plan, now).Some? && Verdict(profile, s[k], plan, now).value.Replace?
    ensures Reloaded(s, t, profile, plan, now)
  {
    hide Verdict, Fits, ShapedBy;
  }

  // ---- one reconcile ----------------------------------------------------------------------

  lemma {:induction false} PutOther(d: Instances, id: string, i: Instance, model: string)
    requires d.Valid() && i.model != model && (id in d.items ==> d.items[id].model != model)
    ensures d.Put(id, i).Valid()
    ensures ForModel(d.Put(id, i).Values(), model, false) == ForModel(d.Values(), model, false)
  {
    d.ValuesPut(id, i);
    var values := d.Values();
    ForModelOne(i, model);
    if id in d.items {
      var m := d.IndexOf(id);
      var old_ := d.items[id];
      assert values[m] == old_;
      SplitAt(values, m, i);
      ForModelOne(old_, model);
      assert !InState(i, model, false) && !InState(old_, model, false);
      hide ForModel, Dict.Values, Dict.Valid, Dict.Put, InState;
      AroundOne(values[..m], old_, values[m + 1..], model);
      AroundOne(values[..m], i, values[m + 1..], model);
    } else {
      assert !InState(i, model, false);
      hide ForModel, Dict.Values, Dict.Valid, InState;
      ForModelConcat(values, [i], model);
    }
  }

  lemma {:induction false} AroundOne(x: seq<Instance>, i: Instance, y: seq<Instance>, model: string)
    requires ForModel([i], model, false) == []
    ensures ForModel(x + [i] + y, model, false) == ForModel(x, model, false) + ForModel(y, model, false)
  {
    hide ForModel;
    ForModelConcat(x, [i], model);
    ForModelConcat(x + [i], y, model);
  }

  /** Records go under their own ids, and the backends of one model alone are touched. */
  ghost predicate TouchesOnly(d: Instances, e: Instances, model: string) {
    && d.Valid() && e.Valid() && (NoDuplicates(d) ==> NoDuplicates(e))
    && forall m | m != model :: ForModel(e.Values(), m, false) == ForModel(d.Values(), m, false)
  }

  lemma {:induction false} TouchesNothing(d: Instances, model: string)
    requires d.Valid()
    ensures TouchesOnly(d, d, model)
  {
  }

  lemma {:induction false} PutTouches(d: Instances, id: string, i: Instance)
    requires d.Valid() && i.id == id && (id in d.items ==> d.items[id].model == i.model)
    ensures TouchesOnly(d, d.Put(id, i), i.model)
  {
    hide ForModel, Dict.Values, Dict.Valid;
    forall m | m != i.model { PutOther(d, id, i, m); }
  }

  lemma {:induction false} TouchesTwice(c: Instances, d: Instances, e: Instances, model: string)
    requires TouchesOnly(c, d, model) && TouchesOnly(d, e, model)
    ensures TouchesOnly(c, e, model)
  {
    hide ForModel, Dict.Values, Dict.Valid, NoDuplicates;
  }

  lemma {:induction false} StartsTouches(d: Instances, profile: Profile, gpu: string, world: World, done: Done,
                                         e: Instances)
    requires d.Valid() && world.start.id !in d.items && Starts(d, profile, gpu, world, done, e)
    ensures TouchesOnly(d, e, profile.name)
    ensures done.Renewed? ==> Joined(d, e, profile, world.start.id)
  {
    hide TouchesOnly, Dict.Values, Dict.Valid, NextPort;
    TouchesNothing(d, profile.name);
    if !world.start.raises {
      var port :| StartsAt(d, profile, gpu, world, port, e);
      var i := Initialised(NewInstance(profile, gpu, profile.Required(), port, world.start), world.health, world.now);
      assert i.id == world.start.id && i.model == profile.name && ShapedBy(i, profile);
      PutTouches(d, world.start.id, i);
    }
  }

  lemma {:induction false} ReloadsTouches(d: Instances, profile: Profile, id: string, world: World, done: Done,
                                          e: Instances)
    requires d.Valid() && NoDuplicates(d) && world.start.id !in d.items && Reloadable(d, profile, id)
    requires Reloads(d, profile, id, world, done, e)
    ensures TouchesOnly(d, e, profile.name)
    ensures done.Renewed? ==> Succeeded(d, e, profile, id, world.start.id)
  {
    var i := d.items[id];
    var drained, stopped := i.Marked(Draining, world.now), StoppedAs(i, world.stopFailure, world.now);
    assert i.id == id && drained.id == id && stopped.id == id && drained.model == stopped.model == profile.name;
    assert !stopped.state.Active() && d.Put(id, stopped).Valid() && world.start.id !in d.Put(id, stopped).items;
    hide TouchesOnly, Dict.Values, Dict.Valid, Starts, StoppedAs, Joined, NoDuplicates;
    TouchesNothing(d, profile.name);
    PutTouches(d, id, drained);
    PutTouches(d, id, stopped);
    if Overbooking.Stopped(i) && i.gpus != [] {
      var rest := d.Put(id, stopped);
      StartsTouches(rest, profile, i.gpus[0], world, done, e);
      TouchesTwice(d, rest, e, profile.name);
      if done.Renewed? { SucceededBy(d, e, profile, id, world.start.id, stopped); }
    }
  }

  lemma {:induction false} ActsTouches(d: Instances, profile: Profile, action: Action, world: World, done: Done,
                                       e: Instances)
    requires NoDuplicates(d) && world.start.id !in d.items && Acts(d, profile, action, world, done, e)
    requires action.ReloadOf? ==> Reloadable(d, profile, action.id)
    ensures TouchesOnly(d, e, profile.name)
    ensures done.Renewed? && action.ReloadOf? ==> Succeeded(d, e, profile, action.id, world.start.id)
  {
    assert d.Valid();
    hide TouchesOnly, Dict.Valid, NoDuplicates, Starts, Reloads, Succeeded;
    match action
    case StartOn(gpu) => StartsTouches(d, profile, gpu, world, done, e);
    case ReloadOf(id) => ReloadsTouches(d, profile, id, world, done, e);
    case Leave => TouchesNothing(d, profile.name);
  }

  /** The registry after the `n`th turn of a reconcile, as far as another model is concerned. */
  ghost predicate Same(d: Instances, e: Instances, model: string) {
    && NoDuplicates(d) && NoDuplicates(e)
    && ForModel(e.Values(), model, false) == ForModel(d.Values(), model, false)
  }

  /** A turn leaves the backends of every other model alone. */
  lemma {:induction false} TurnTouches(trail: seq<Instances>, aborted: bool, profiles: seq<Profile>,
                                       plans: map<string, ContextPlan>, actions: seq<Action>, worlds: seq<World>,
                                       n: nat)
    requires trail != [] && Overbooking.Prepared(trail[0], profiles, actions, worlds)
    requires Turns(trail, aborted, profiles, plans, actions, worlds) && n + 1 < |trail| && NoDuplicates(trail[n])
    ensures n < |profiles| && TouchesOnly(trail[n], trail[n + 1], profiles[n].name)
  {
    hide *;
    Overbooking.StartsUntouched(trail[0], profiles, actions, worlds);
    Overbooking.TrailFits(trail, aborted, profiles, plans, actions, worlds);
    Overbooking.TurnsMemory(trail, aborted, profiles, plans, actions, worlds, n, "");
    Overbooking.PreparedAt(trail[0], trail[n], profiles, actions, worlds, n);
    var done := Ports.TurnAt(trail, aborted, profiles, plans, actions, worlds, n);
    EffectiveKeeps(trail[n], profiles[n], PlanOf(plans, profiles[n].name), worlds[n]);
    ActsTouches(trail[n], Effective(profiles[n], PlanOf(plans, profiles[n].name), worlds[n]), actions[n], worlds[n],
                done, trail[n + 1]);
  }

  /** Between turns `from` and `to` of other models the backends of this model stay as they are. */
  lemma {:induction false} OthersTurns(trail: seq<Instances>, aborted: bool, profiles: seq<Profile>,
                                       plans: map<string, ContextPlan>, actions: seq<Action>, worlds: seq<World>,
                                       from: nat, to: nat, model: string)
    requires trail != [] && Overbooking.Prepared(trail[0], profiles, actions, worlds)
    requires Turns(trail, aborted, profiles, plans, actions, worlds) && from <= to < |trail| <= |profiles| + 1
    requires NoDuplicates(trail[from]) && forall n | from <= n < to :: profiles[n].name != model
    ensures Same(trail[from], trail[to], model)
  {
    hide *;
    if from == to {
      SameSelf(trail[from], model);
    } else {
      OthersTurns(trail, aborted, profiles, plans, actions, worlds, from, to - 1, model);
      SameDistinct(trail[from], trail[to - 1], model);
      TurnTouches(trail, aborted, profiles, plans, actions, worlds, to - 1);
      SameNext(trail[from], trail[to - 1], trail[to], profiles[to - 1].name, model);
    }
  }

  lemma {:induction false} SameSelf(d: Instances, model: string)
    requires NoDuplicates(d)
    ensures Same(d, d, model)
  {
  }

  lemma {:induction false} SameDistinct(d: Instances, e: Instances, model: string)
    requires Same(d, e, model)
    ensures NoDuplicates(d) && NoDuplicates(e) && d.Valid() && e.Valid()
    ensures ForModel(e.Values(), model, false) == ForModel(d.Values(), model, false)
  {
  }

  lemma {:induction false} SameNext(c: Instances, d: Instances, e: Instances, other: string, model: string)
    requires Same(c, d, model) && TouchesOnly(d, e, other) && other != model
    ensures Same(c, e, model)
  {
    hide NoDuplicates, ForModel, Dict.Values, Dict.Valid;
  }

  // ---- one reconcile after the other ------------------------------------------------------

  /** A reconcile: what it planned, and the registry before and after each of its turns. */
  datatype Cycle = Cycle(trail: seq<Instances>, aborted: bool, profiles: seq<Profile>, plans: map<string, ContextPlan>,
                         queues: map<string, int>, gpus: seq<Gpu>, actions: seq<Action>, worlds: seq<World>, k: nat)

  /** Its `k`th turn reloads a backend of the model for the plan, and the reload goes through. */
  ghost predicate Renews(c: Cycle, base: Profile, plan: ContextPlan) {
    && c.trail != [] && NoDuplicates(c.trail[0])
    && Overbooking.Prepared(c.trail[0], c.profiles, c.actions, c.worlds)
    && Turns(c.trail, c.aborted, c.profiles, c.plans, c.actions, c.worlds) && c.k + 1 < |c.trail| <= |c.profiles| + 1
    && c.profiles[c.k] == base && base.name in c.plans && c.plans[base.name] == plan
    && c.actions[c.k].ReloadOf?
    && Planned(c.trail[0].Values(), base, Some(plan), c.queues, c.gpus, c.worlds[c.k], c.actions[c.k])
    && Acts(c.trail[c.k], Effective(base, Some(plan), c.worlds[c.k]), c.actions[c.k], c.worlds[c.k], Renewed,
            c.trail[c.k + 1])
  }

  /** The misfits that its plan saw. */
  ghost function Before(c: Cycle, base: Profile, plan: ContextPlan): int
    requires Renews(c, base, plan)
  {
    Sum(Seen(c.trail[0], base, Some(plan), c.worlds[c.k]), Misfits(WithPlan(base, Some(plan)), plan))
  }

  /** The misfits that it leaves, with the new backend in the shape it was started with. */
  ghost function After(c: Cycle, base: Profile, plan: ContextPlan): int
    requires Renews(c, base, plan)
  {
    LastValid(c, base, plan);
    Sum(SeenBut(c.trail[|c.trail| - 1], base, Some(plan), c.worlds[c.k], c.worlds[c.k].start.id),
        Misfits(WithPlan(base, Some(plan)), plan))
  }

  lemma {:induction false} LastValid(c: Cycle, base: Profile, plan: ContextPlan)
    requires Renews(c, base, plan)
    ensures c.trail[|c.trail| - 1].Valid()
  {
    hide *;
    RenewsIs(c, base, plan);
    Overbooking.TurnsMemory(c.trail, c.aborted, c.profiles, c.plans, c.actions, c.worlds, |c.trail| - 1, "");
  }

  lemma {:induction false} RenewsIs(c: Cycle, base: Profile, plan: ContextPlan)
    requires Renews(c, base, plan)
    ensures c.trail != [] && NoDuplicates(c.trail[0]) && c.trail[0].Valid()
    ensures |c.worlds| == |c.actions| == |c.profiles|
    ensures Overbooking.Prepared(c.trail[0], c.profiles, c.actions, c.worlds)
    ensures Turns(c.trail, c.aborted, c.profiles, c.plans, c.actions, c.worlds)
      && c.k + 1 < |c.trail| <= |c.profiles| + 1
    ensures c.profiles[c.k] == base && PlanOf(c.plans, base.name) == Some(plan) && c.actions[c.k].ReloadOf?
    ensures forall n | 0 <= n < |c.profiles| && n != c.k :: c.profiles[n].name != base.name
    ensures Planned(c.trail[0].Values(), base, Some(plan), c.queues, c.gpus, c.worlds[c.k], c.actions[c.k])
    ensures Acts(c.trail[c.k], Effective(base, Some(plan), c.worlds[c.k]), c.actions[c.k], c.worlds[c.k], Renewed,
                 c.trail[c.k + 1])
  {
    hide Planned, Acts, Turns, Effective, Reloadable, Unused;
  }

  /** A reconcile that renews takes one misfit off the list that it planned on, whatever its other turns do. */
  lemma {:induction false} CycleReloads(c: Cycle, base: Profile, plan: ContextPlan)
    requires Renews(c, base, plan)
    ensures c.trail[0].Valid() && c.trail[|c.trail| - 1].Valid()
    ensures Reloaded(Seen(c.trail[0], base, Some(plan), c.worlds[c.k]),
                     SeenBut(c.trail[|c.trail| - 1], base, Some(plan), c.worlds[c.k], c.worlds[c.k].start.id),
                     WithPlan(base, Some(plan)), plan, c.worlds[c.k].now)
  {
    hide *;
    RenewsIs(c, base, plan);
    LastValid(c, base, plan);
    var k, last, w := c.k, |c.trail| - 1, c.worlds[c.k];
    var b, d, e, f := c.trail[0], c.trail[k], c.trail[k + 1], c.trail[last];
    OthersTurns(c.trail, c.aborted, c.profiles, c.plans, c.actions, c.worlds, 0, k, base.name);
    SameDistinct(b, d, base.name);
    Overbooking.TurnsMemory(c.trail, c.aborted, c.profiles, c.plans, c.actions, c.worlds, k, "");
    Overbooking.PreparedAt(b, d, c.profiles, c.actions, c.worlds, k);
    EffectiveKeeps(d, base, Some(plan), w);
    ActsTouches(d, Effective(base, Some(plan), w), c.actions[k], w, Renewed, e);
    TouchesDistinct(d, e, base.name);
    RenewalIsReload(b, d, e, base, plan, c.queues, c.gpus, w, c.actions[k].id);
    OthersTurns(c.trail, c.aborted, c.profiles, c.plans, c.actions, c.worlds, k + 1, last, base.name);
    SameDistinct(e, f, base.name);
    SameSeen(e, f, base, Some(plan), w, w.start.id);
    EstimateIgnored(base, plan, w, Seen(b, base, Some(plan), w), SeenBut(f, base, Some(plan), w, w.start.id));
  }

  lemma {:induction false} TouchesDistinct(d: Instances, e: Instances, model: string)
    requires TouchesOnly(d, e, model) && NoDuplicates(d)
    ensures NoDuplicates(e)
  {
    hide NoDuplicates;
  }

  lemma {:induction false} SameSeen(d: Instances, e: Instances, base: Profile, plan: Option<ContextPlan>, world: World,
                                    id: string)
    requires d.Valid() && e.Valid() && ForModel(e.Values(), base.name, false) == ForModel(d.Values(), base.name, false)
    ensures SeenBut(e, base, plan, world, id) == SeenBut(d, base, plan, world, id)
  {
  }

  /** Reconciles that renew, one after the other; in between anything may happen that adds no misfit. */
  ghost predicate Cycles(cs: seq<Cycle>, base: Profile, plan: ContextPlan) {
    && (forall n | 0 <= n < |cs| :: Renews(cs[n], base, plan))
    && (forall n | 0 <= n < |cs| - 1 :: Before(cs[n + 1], base, plan) <= After(cs[n], base, plan))
  }

  lemma {:induction false} OneFewer(tasks: seq<Demand>, base: Profile, c: Cycle)
    requires tasks != [] && PlanFor(tasks).oversized == [] && Renews(c, base, PlanFor(tasks))
    ensures 0 <= After(c, base, PlanFor(tasks)) == Before(c, base, PlanFor(tasks)) - 1
  {
    hide *;
    var plan := PlanFor(tasks);
    RenewsIs(c, base, plan);
    CycleReloads(c, base, plan);
    CountsAre(c, base, plan);
    var w := c.worlds[c.k];
    var s := Seen(c.trail[0], base, Some(plan), w);
    var t := SeenBut(c.trail[|c.trail| - 1], base, Some(plan), w, w.start.id);
    ReloadHelps(tasks, base, s, t, w.now);
    NoMisfits(WithPlan(base, Some(plan)), plan, t);
  }

  lemma {:induction false} CountsAre(c: Cycle, base: Profile, plan: ContextPlan)
    requires Renews(c, base, plan)
    ensures c.k < |c.worlds| && c.trail != [] && c.trail[0].Valid() && c.trail[|c.trail| - 1].Valid()
    ensures Before(c, base, plan)
      == Sum(Seen(c.trail[0], base, Some(plan), c.worlds[c.k]), Misfits(WithPlan(base, Some(plan)), plan))
    ensures After(c, base, plan)
      == Sum(SeenBut(c.trail[|c.trail| - 1], base, Some(plan), c.worlds[c.k], c.worlds[c.k].start.id),
             Misfits(WithPlan(base, Some(plan)), plan))
  {
    hide Renews, Seen, SeenBut, Misfits, WithPlan, Dict.Valid, Turns, Planned, Acts, Overbooking.Prepared, NoDuplicates,
      Effective, Sum, PlanOf;
    LastValid(c, base, plan);
    RenewsIs(c, base, plan);
  }

  lemma {:induction false} FewerEachTime(tasks: seq<Demand>, base: Profile, cs: seq<Cycle>, n: nat)
    requires tasks != [] && PlanFor(tasks).oversized == [] && Cycles(cs, base, PlanFor(tasks)) && n < |cs|
    ensures Renews(cs[n], base, PlanFor(tasks)) && Renews(cs[0], base, PlanFor(tasks))
    ensures 0 <= After(cs[n], base, PlanFor(tasks)) <= Before(cs[0], base, PlanFor(tasks)) - n - 1
  {
    hide PlanFor, Renews, Before, After;
    OneFewer(tasks, base, cs[n]);
    if n > 0 { FewerEachTime(tasks, base, cs, n - 1); }
  }

  /**
   * For the queue's own plan without oversized tasks: at most as many reloads ever go through as the first of
   * these reconciles saw misfits. After that many none is planned any more, on any registry and with any live
   * state that shows no more misfits than the last one left.
   */
  lemma {:induction false} PlannedReloadsEnd(tasks: seq<Demand>, base: Profile, cs: seq<Cycle>)
    requires tasks != [] && PlanFor(tasks).oversized == [] && cs != [] && Cycles(cs, base, PlanFor(tasks))
    ensures Renews(cs[0], base, PlanFor(tasks)) && Renews(cs[|cs| - 1], base, PlanFor(tasks))
    ensures |cs| <= Before(cs[0], base, PlanFor(tasks))
    ensures |cs| == Before(cs[0], base, PlanFor(tasks)) ==>
      forall d: Instances, world, queues, gpus, id | Settled(d, tasks, base, world, cs[|cs| - 1]) ::
        !Planned(d.Values(), base, Some(PlanFor(tasks)), queues, gpus, world, ReloadOf(id))
  {
    var plan, last := PlanFor(tasks), cs[|cs| - 1];
    hide PlanFor, Renews, Before, After, Cycles, Planned, Dict.Values, Dict.Valid;
    FewerEachTime(tasks, base, cs, |cs| - 1);
    if |cs| == Before(cs[0], base, plan) {
      forall d: Instances, world, queues, gpus, id | Settled(d, tasks, base, world, last)
        ensures !Planned(d.Values(), base, Some(plan), queues, gpus, world, ReloadOf(id))
      {
        NoneLeft(tasks, d, base, world, last);
        NoReloadPlanned(d, base, plan, world, queues, gpus, id);
      }
    }
  }

  /** The plan would see no more misfits than the reconcile has left. */
  ghost predicate Settled(d: Instances, tasks: seq<Demand>, base: Profile, world: World, c: Cycle) {
    && d.Valid() && Renews(c, base, PlanFor(tasks))
    && Sum(Seen(d, base, Some(PlanFor(tasks)), world), Misfits(WithPlan(base, Some(PlanFor(tasks))), PlanFor(tasks)))
       <= After(c, base, PlanFor(tasks))
  }

  lemma {:induction false} NoneLeft(tasks: seq<Demand>, d: Instances, base: Profile, world: World, c: Cycle)
    requires Settled(d, tasks, base, world, c) && After(c, base, PlanFor(tasks)) == 0
    ensures var plan := PlanFor(tasks);
      Decide(WithPlan(base, Some(plan)), Seen(d, base, Some(plan), world), Some(plan), world.now) == None
  {
    var plan := PlanFor(tasks);
    hide PlanFor, Renews, After, Seen, WithPlan, Misfits, Decide, Dict.Valid, Fits;
    var p, s := WithPlan(base, Some(plan)), Seen(d, base, Some(plan), world);
    NoMisfits(p, plan, s);
    NoDecisionIff(p, s, Some(plan), world.now);
  }

  lemma {:induction false} NoReloadPlanned(d: Instances, base: Profile, plan: ContextPlan, world: World,
                                           queues: map<string, int>, gpus: seq<Gpu>, id: string)
    requires d.Valid()
    requires Decide(WithPlan(base, Some(plan)), Seen(d, base, Some(plan), world), Some(plan), world.now) == None
    ensures !Planned(d.Values(), base, Some(plan), queues, gpus, world, ReloadOf(id))
  {
    EstimateIgnored(base, plan, world, Seen(d, base, Some(plan), world), []);
    EffectiveKeeps(d, base, Some(plan), world);
    hide Decide, Effective, WithPlan, LiveShapes, ForModel, Missing, Reloaded, Dict.Values, Dict.Valid;
  }

  /**
   * What must not happen in between: as long as LM Studio lists a load of the backend model that is too small for
   * the largest task, every plan wants a live backend of that model replaced, whatever has been started since.
   */
  lemma {:induction false} LiveShapePrevails(d: Instances, base: Profile, plan: ContextPlan, world: World, l: Load)
    returns (i: Instance)
    requires d.Valid() && base.runtime == "lmstudio" && Inspected(world.live, base.backendModel) == Some(l)
    requires 0 < plan.maxRequired && l.context.Some? && l.context.value < plan.maxRequired && l.parallel.Some?
    requires exists i :: i in ForModel(d.Values(), base.name, false) && Live(i)
    requires forall i | i in ForModel(d.Values(), base.name, false) && Live(i) :: i.backendModel == base.backendModel
    ensures i in ForModel(d.Values(), base.name, false) && Live(i)
    ensures var p := Effective(base, Some(plan), world);
      Decide(p, Seen(d, base, Some(plan), world), Some(plan), world.now) == Some(Replace(i.id, ContextTooSmall))
  {
    hide *;
    var p, s := Effective(base, Some(plan), world), ForModel(d.Values(), base.name, false);
    var seen := Seen(d, base, Some(plan), world);
    SeenIs(d, base, Some(plan), world);
    SameRuntime(base, plan, world);
    forall n | 0 <= n < |s|
      ensures Live(s[n]) ==>
        && Live(seen[n]) && !Fits(seen[n], p, plan)
        && Verdict(p, seen[n], plan, world.now) == Some(Replace(s[n].id, ContextTooSmall))
      ensures Live(seen[n]) ==> Live(s[n])
    {
      assert s[n] in s;
      SeenSmall(s[n], p, plan, world, l);
    }
    var j :| j in s && Live(j);
    var m :| 0 <= m < |s| && s[m] == j;
    assert seen[m] in seen && Live(seen[m]);
    NoDecisionIff(p, seen, Some(plan), world.now);
    var k := DecisionIs(p, seen, plan, world.now);
    FirstIsLive(p, seen, plan, k);
    i := s[k];
  }

  lemma {:induction false} FirstIsLive(profile: Profile, s: seq<Instance>, plan: ContextPlan, k: nat)
    requires FirstMisfit(profile, s, plan, k)
    ensures k < |s| && Live(s[k])
  {
  }

  lemma {:induction false} SameRuntime(base: Profile, plan: ContextPlan, world: World)
    ensures Effective(base, Some(plan), world).runtime == base.runtime
  {
  }

  /** A backend in the shape of a load that is too small is to be replaced at once. */
  lemma {:induction false} SeenSmall(i: Instance, p: Profile, plan: ContextPlan, world: World, l: Load)
    requires p.runtime == "lmstudio" && 0 < plan.maxRequired
    requires l.context.Some? && l.context.value < plan.maxRequired && l.parallel.Some?
    ensures var seen := WithLiveShape(i, p, world);
      && (Live(seen) <==> Live(i)) && seen.id == i.id
      && (Inspected(world.live, i.backendModel) == Some(l) ==>
            !Fits(seen, p, plan) && Verdict(p, seen, plan, world.now) == Some(Replace(i.id, ContextTooSmall)))
  {
    hide Inspected;
  }
}
