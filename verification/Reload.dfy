/** Whether a running backend has to be reloaded for the queue's context plan, and that reloading settles. */
module Reload {
  import opened Wrappers
  import opened ContextPlans
  import opened Fleet
  import opened Seqs

  /** A Python truth test on an optional number. */
  predicate Truthy(o: Option<int>) { o.Some? && o.value != 0 }

  /** `profile_with_context_plan`. */
  function WithPlan(profile: Profile, plan: Option<ContextPlan>): Profile {
    if plan.None? || plan.value.queuedTasks <= 0 then profile
    else
      var p := if plan.value.recommendedContext != 0 then profile.(context := Some(plan.value.recommendedContext))
        else profile;
      if plan.value.recommendedParallel != 0 then p.(parallel := Some(plan.value.recommendedParallel)) else p
  }

  /** The shape `start_instance` records. */
  predicate ShapedBy(i: Instance, profile: Profile) { i.context == profile.context && i.parallel == profile.parallel }

  datatype Reason =
    | ContextUnknown | ParallelUnknown | ContextTooSmall | BelowBucket | ParallelTooSmall
    | ContextSuffices | MinDwell

  datatype Assessment = Quiet | Keep(reason: Reason) | Renew(hard: bool, reason: Reason)

  /** `assess_reload_need`, branch by branch. */
  function Assess(i: Instance, profile: Profile, plan: ContextPlan): Assessment {
    if Truthy(profile.context) && i.context.None? then Renew(true, ContextUnknown)
    else if Truthy(profile.parallel) && i.parallel.None? then Renew(false, ParallelUnknown)
    else if i.context.Some? && plan.maxRequired > 0 && i.context.value < plan.maxRequired then
      Renew(true, ContextTooSmall)
    else if Truthy(profile.context) && i.context.Some? && i.context.value < profile.context.value && !profile.bucketOnly
    then Keep(ContextSuffices)
    else if Truthy(profile.context) && i.context.Some? && i.context.value < profile.context.value then
      Renew(false, BelowBucket)
    else if Truthy(profile.parallel) && i.parallel.Some? && i.parallel.value < profile.parallel.value then
      Renew(false, ParallelTooSmall)
    else Quiet
  }

  predicate DwellSatisfied(profile: Profile, i: Instance, now: Instant) {
    profile.minDwell <= 0 || now - i.createdAt >= profile.minDwell * 1000000
  }

  datatype Decision = Replace(id: string, reason: Reason) | Hold(id: string, reason: Reason)

  predicate Live(i: Instance) { i.state.Ready? || i.state.Draining? }

  /** What the loop does with one live instance; None means it goes on. */
  function Verdict(profile: Profile, i: Instance, plan: ContextPlan, now: Instant): Option<Decision> {
    match Assess(i, profile, plan)
    case Quiet => None
    case Keep(reason) => Some(Hold(i.id, reason))
    case Renew(hard, reason) =>
      Some(if hard || DwellSatisfied(profile, i, now) then Replace(i.id, reason) else Hold(i.id, MinDwell))
  }

  function FirstVerdict(profile: Profile, instances: seq<Instance>, plan: ContextPlan, now: Instant): Option<Decision> {
    if instances == [] then None
    else if !Live(instances[0]) || Verdict(profile, instances[0], plan, now).None? then
      FirstVerdict(profile, instances[1..], plan, now)
    else Verdict(profile, instances[0], plan, now)
  }

  /** `reload_decision_for_context_plan`. */
  function Decide(profile: Profile, instances: seq<Instance>, plan: Option<ContextPlan>,
                  now: Instant): Option<Decision> {
    if plan.None? || profile.runtime != "lmstudio" then None else FirstVerdict(profile, instances, plan.value, now)
  }

  // ---- when nothing has to be done --------------------------------------------------------

  /** The instance's shape meets what is required and what is desired. */
  predicate Fits(i: Instance, profile: Profile, plan: ContextPlan) {
    && (Truthy(profile.context) ==> i.context.Some? && i.context.value >= profile.context.value)
    && (Truthy(profile.parallel) ==> i.parallel.Some? && i.parallel.value >= profile.parallel.value)
    && (i.context.Some? && plan.maxRequired > 0 ==> i.context.value >= plan.maxRequired)
  }

  /** With both desired: context at least desired and required, parallel slots at least desired. */
  lemma {:induction false} FitsMeans(i: Instance, profile: Profile, plan: ContextPlan)
    requires profile.context.Some? && profile.context.value > 0 && profile.parallel.Some? && profile.parallel.value > 0
    ensures Fits(i, profile, plan) <==>
      && i.context.Some? && i.context.value >= Max(profile.context.value, plan.maxRequired)
      && i.parallel.Some? && i.parallel.value >= profile.parallel.value
    ensures Assess(i, profile, plan).Quiet? <==> Fits(i, profile, plan)
  {
  }

  lemma {:induction false} QuietIff(i: Instance, profile: Profile, plan: ContextPlan)
    ensures Assess(i, profile, plan).Quiet? <==> Fits(i, profile, plan)
  {
  }

  /** The live instances that do not fit. */
  function Misfits(profile: Profile, plan: ContextPlan): Instance -> int {
    i => if Live(i) && !Fits(i, profile, plan) then 1 else 0
  }

  /** The first live instance that does not fit. */
  ghost predicate FirstMisfit(profile: Profile, instances: seq<Instance>, plan: ContextPlan, k: nat) {
    && k < |instances| && Live(instances[k]) && !Fits(instances[k], profile, plan)
    && forall j | 0 <= j < k && Live(instances[j]) :: Fits(instances[j], profile, plan)
  }

  /** The decision concerns the first live misfit, and there is none exactly when every live instance fits. */
  lemma {:induction false} VerdictIsFirst(profile: Profile, instances: seq<Instance>, plan: ContextPlan, now: Instant)
    returns (k: nat)
    ensures FirstVerdict(profile, instances, plan, now) == None <==>
      forall i | i in instances && Live(i) :: Fits(i, profile, plan)
    ensures FirstVerdict(profile, instances, plan, now).Some? ==>
      FirstMisfit(profile, instances, plan, k)
      && FirstVerdict(profile, instances, plan, now) == Verdict(profile, instances[k], plan, now)
  {
    k := 0;
    if instances != [] {
      var first := instances[0];
      QuietIff(first, profile, plan);
      hide Assess, Fits;
      assert instances == [first] + instances[1..];
      if !Live(first) || Verdict(profile, first, plan, now).None? {
        var j := VerdictIsFirst(profile, instances[1..], plan, now);
        k := j + 1;
        if FirstVerdict(profile, instances, plan, now).Some? {
          assert instances[k] == instances[1..][j];
          assert forall n | 0 < n < k :: instances[n] == instances[1..][n - 1];
        }
      } else {
        assert first in instances;
      }
    }
  }

  /** No decision iff every ready or draining instance fits; other runtimes and missing plans never decide. */
  lemma {:induction false} NoDecisionIff(profile: Profile, instances: seq<Instance>, plan: Option<ContextPlan>,
                                         now: Instant)
    ensures Decide(profile, instances, plan, now) == None <==>
      (plan.Some? && profile.runtime == "lmstudio" ==>
         forall i | i in instances && Live(i) :: Fits(i, profile, plan.value))
  {
    if plan.Some? { var _ := VerdictIsFirst(profile, instances, plan.value, now); }
  }

  /** With both shapes desired: no decision iff every live instance covers desired and required context and slots. */
  lemma {:induction false} NoDecisionMeans(profile: Profile, instances: seq<Instance>, plan: ContextPlan, now: Instant)
    requires profile.runtime == "lmstudio"
    requires profile.context.Some? && profile.context.value > 0
    requires profile.parallel.Some? && profile.parallel.value > 0
    ensures Decide(profile, instances, Some(plan), now) == None <==>
      forall i | i in instances && (i.state.Ready? || i.state.Draining?) ::
        i.context.Some? && i.context.value >= Max(profile.context.value, plan.maxRequired)
        && i.parallel.Some? && i.parallel.value >= profile.parallel.value
  {
    NoDecisionIff(profile, instances, Some(plan), now);
    forall i { FitsMeans(i, profile, plan); }
    hide Decide, Fits, Assess;
  }

  /** Otherwise the first misfit is replaced, at once when the mismatch is hard, else after the minimum dwell time. */
  lemma {:induction false} DecisionIs(profile: Profile, instances: seq<Instance>, plan: ContextPlan, now: Instant)
    returns (k: nat)
    requires Decide(profile, instances, Some(plan), now).Some?
    ensures FirstMisfit(profile, instances, plan, k)
    ensures Decide(profile, instances, Some(plan), now) == Verdict(profile, instances[k], plan, now)
  {
    k := VerdictIsFirst(profile, instances, plan, now);
  }

  // ---- hysteresis -------------------------------------------------------------------------

  /** The instance cannot take the largest waiting task, or nothing is known about its context. */
  predicate HardMismatch(i: Instance, profile: Profile, plan: ContextPlan) {
    || (Truthy(profile.context) && i.context.None?)
    || (i.context.Some? && plan.maxRequired > 0 && i.context.value < plan.maxRequired)
  }

  /** A hard mismatch is delayed iff the context is known, the wanted slots are not, and the instance is young. */
  lemma {:induction false} HardDelayedIff(profile: Profile, i: Instance, plan: ContextPlan, now: Instant)
    requires HardMismatch(i, profile, plan)
    ensures Verdict(profile, i, plan, now).Some?
    ensures Verdict(profile, i, plan, now).value.Hold? <==>
      i.context.Some? && Truthy(profile.parallel) && i.parallel.None? && !DwellSatisfied(profile, i, now)
  {
  }

  /** Too small for the largest task and not even five minutes old, with an unknown parallel count: it is kept. */
  lemma {:induction false} HardMismatchHeld(profile: Profile, i: Instance, plan: ContextPlan)
    requires profile.context == Some(8192) && profile.parallel == Some(2) && profile.minDwell == 300
    requires i.context == Some(4096) && i.parallel == None && plan.maxRequired == 8000
    ensures HardMismatch(i, profile, plan)
    ensures Verdict(profile, i, plan, i.createdAt + 299 * 1000000) == Some(Hold(i.id, MinDwell))
    ensures Verdict(profile, i.(parallel := Some(2)), plan, i.createdAt + 299 * 1000000)
      == Some(Replace(i.id, ContextTooSmall))
    ensures Verdict(profile, i, plan, i.createdAt + 300 * 1000000) == Some(Replace(i.id, ParallelUnknown))
  {
  }

  /** What a misfit is replaced for: its context is unknown or too small, or it is old enough and worth it. */
  predicate Renewable(i: Instance, context: Option<int>, parallel: Option<int>, minDwell: int, bucketOnly: bool,
                      required: int, now: Instant)
  {
    var aged := minDwell <= 0 || now - i.createdAt >= minDwell * 1000000;
    var slotsUnknown := Truthy(parallel) && i.parallel.None?;
    || (Truthy(context) && i.context.None?)
    || (!slotsUnknown && i.context.Some? && required > 0 && i.context.value < required)
    || (aged && (slotsUnknown || bucketOnly || !Truthy(context) || i.context.value >= context.value))
  }

  /** So a misfit is replaced, or else kept for now. */
  lemma {:induction false} ReplacedIff(profile: Profile, i: Instance, plan: ContextPlan, now: Instant)
    requires !Fits(i, profile, plan)
    ensures Verdict(profile, i, plan, now).Some?
    ensures Verdict(profile, i, plan, now).value.Replace? <==>
      Renewable(i, profile.context, profile.parallel, profile.minDwell, profile.bucketOnly, plan.maxRequired, now)
  {
  }

  /** The reason that is given is true of the instance. */
  lemma {:induction false} ReasonHolds(profile: Profile, i: Instance, plan: ContextPlan, now: Instant)
    requires Verdict(profile, i, plan, now).Some?
    ensures match Verdict(profile, i, plan, now).value.reason
      case ContextUnknown => Truthy(profile.context) && i.context.None?
      case ParallelUnknown => Truthy(profile.parallel) && i.parallel.None?
      case ContextTooSmall => i.context.Some? && i.context.value < plan.maxRequired
      case BelowBucket =>
        profile.bucketOnly && i.context.Some? && profile.context.Some? && i.context.value < profile.context.value
      case ParallelTooSmall => i.parallel.Some? && profile.parallel.Some? && i.parallel.value < profile.parallel.value
      case ContextSuffices =>
        && !profile.bucketOnly && i.context.Some? && (plan.maxRequired > 0 ==> i.context.value >= plan.maxRequired)
        && profile.context.Some? && i.context.value < profile.context.value
      case MinDwell => profile.minDwell > 0 && now - i.createdAt < profile.minDwell * 1000000
  {
  }

  // ---- convergence across the two services ------------------------------------------------

  /** An instance started for the queue's own plan fits that plan iff no task was reported oversized. */
  lemma {:induction false} FreshFitsIff(tasks: seq<Demand>, base: Profile, i: Instance)
    requires tasks != []
    requires ShapedBy(i, WithPlan(base, Some(PlanFor(tasks))))
    ensures Fits(i, WithPlan(base, Some(PlanFor(tasks))), PlanFor(tasks)) <==> PlanFor(tasks).oversized == []
  {
    PlanBounds(tasks);
    OversizedExact(tasks);
  }

  /** Once every live instance has the planned shape there is nothing left to decide, at any time. */
  lemma {:induction false} Converged(tasks: seq<Demand>, base: Profile, instances: seq<Instance>, now: Instant)
    requires tasks != [] && PlanFor(tasks).oversized == []
    requires forall i | i in instances && Live(i) :: ShapedBy(i, WithPlan(base, Some(PlanFor(tasks))))
    ensures Decide(WithPlan(base, Some(PlanFor(tasks))), instances, Some(PlanFor(tasks)), now) == None
  {
    var p := WithPlan(base, Some(PlanFor(tasks)));
    forall i | i in instances && Live(i) ensures Fits(i, p, PlanFor(tasks)) { FreshFitsIff(tasks, base, i); }
    NoDecisionIff(p, instances, Some(PlanFor(tasks)), now);
  }

  /** A completed reload, as the next plan sees the list: the misfit is gone, its successor comes last if it came up. */
  ghost predicate Reloaded(s: seq<Instance>, t: seq<Instance>, profile: Profile, plan: ContextPlan, now: Instant) {
    exists k: nat, joined: seq<Instance> ::
      && FirstMisfit(profile, s, plan, k) && Verdict(profile, s[k], plan, now).value.Replace?
      && |joined| <= 1 && (forall i | i in joined :: ShapedBy(i, profile))
      && t == s[..k] + s[k + 1..] + joined
  }

  /** Every reload leaves one misfit fewer. */
  lemma {:induction false} ReloadHelps(tasks: seq<Demand>, base: Profile, s: seq<Instance>, t: seq<Instance>,
                                       now: Instant)
    requires tasks != [] && PlanFor(tasks).oversized == []
    requires Reloaded(s, t, WithPlan(base, Some(PlanFor(tasks))), PlanFor(tasks), now)
    ensures var f := Misfits(WithPlan(base, Some(PlanFor(tasks))), PlanFor(tasks)); Sum(t, f) == Sum(s, f) - 1
  {
    var plan := PlanFor(tasks);
    var p := WithPlan(base, Some(plan));
    var f := Misfits(p, plan);
    hide *;
    var k, joined := ReloadParts(s, t, p, plan, now);
    JoinedFit(tasks, base, joined);
    SumRemove(s, k, f);
    SumConcat(s[..k] + s[k + 1..], joined, f);
  }

  lemma {:induction false} ReloadParts(s: seq<Instance>, t: seq<Instance>, profile: Profile, plan: ContextPlan,
                                       now: Instant)
    returns (k: nat, joined: seq<Instance>)
    requires Reloaded(s, t, profile, plan, now)
    ensures k < |s| && Misfits(profile, plan)(s[k]) == 1
    ensures |joined| <= 1 && (forall i | i in joined :: ShapedBy(i, profile)) && t == s[..k] + s[k + 1..] + joined
  {
    k, joined :|
      && FirstMisfit(profile, s, plan, k) && Verdict(profile, s[k], plan, now).value.Replace?
      && |joined| <= 1 && (forall i | i in joined :: ShapedBy(i, profile)) && t == s[..k] + s[k + 1..] + joined;
  }

  lemma {:induction false} JoinedFit(tasks: seq<Demand>, base: Profile, joined: seq<Instance>)
    requires tasks != [] && PlanFor(tasks).oversized == []
    requires |joined| <= 1 && forall i | i in joined :: ShapedBy(i, WithPlan(base, Some(PlanFor(tasks))))
    ensures Sum(joined, Misfits(WithPlan(base, Some(PlanFor(tasks))), PlanFor(tasks))) == 0
  {
    hide PlanFor, WithPlan, Fits, ShapedBy;
    if joined != [] {
      assert joined[0] in joined;
      FreshFitsIff(tasks, base, joined[0]);
      assert joined[..0] == [];
    }
  }

  /** So a fixed plan causes at most as many reloads as there were misfits, and after that many none is asked for. */
  lemma {:induction false} ReloadsEnd(tasks: seq<Demand>, base: Profile, states: seq<seq<Instance>>,
                                      times: seq<Instant>, later: Instant)
    requires tasks != [] && PlanFor(tasks).oversized == []
    requires |states| == |times| + 1
    requires forall n | 0 <= n < |times| ::
      Reloaded(states[n], states[n + 1], WithPlan(base, Some(PlanFor(tasks))), PlanFor(tasks), times[n])
    ensures var f := Misfits(WithPlan(base, Some(PlanFor(tasks))), PlanFor(tasks));
      && |times| <= Sum(states[0], f)
      && (|times| == Sum(states[0], f) ==>
            Decide(WithPlan(base, Some(PlanFor(tasks))), states[|times|], Some(PlanFor(tasks)), later) == None)
  {
    var plan := PlanFor(tasks);
    var p := WithPlan(base, Some(plan));
    var f := Misfits(p, plan);
    hide PlanFor, WithPlan, Fits, Decide, Misfits, Reloaded;
    if times == [] {
      NoMisfits(p, plan, states[0]);
      NoDecisionIff(p, states[0], Some(plan), later);
    } else {
      ReloadHelps(tasks, base, states[0], states[1], times[0]);
      ReloadsEnd(tasks, base, states[1..], times[1..], later);
    }
  }

  lemma {:induction false} NoMisfits(profile: Profile, plan: ContextPlan, s: seq<Instance>)
    ensures Sum(s, Misfits(profile, plan)) >= 0
    ensures Sum(s, Misfits(profile, plan)) == 0 <==> forall i | i in s && Live(i) :: Fits(i, profile, plan)
  {
    if s != [] {
      var n := |s| - 1;
      NoMisfits(profile, plan, s[..n]);
      assert s == s[..n] + [s[n]];
      hide Fits;
      assert s[n] in s;
      assert Misfits(profile, plan)(s[n]) == if Live(s[n]) && !Fits(s[n], profile, plan) then 1 else 0;
    }
  }
}
