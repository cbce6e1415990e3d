/** The life of one request through the gateway: every stage leads on to the next, and none is entered twice. */
module RequestLife {
  import opened Wrappers
  import Limiter
  import opened Gateway

  // ---- stages -----------------------------------------------------------------------------

  /** Where one step may take a request. */
  predicate LeadsTo(from: Stage, to: Stage) {
    match from
    case Waiting => to == Resolving || to == Closed
    case Resolving => to.Serving? || to == Returning(None) || to == Freeing
    case Serving(lease) => to == Returning(lease)
    case Returning(_) => to == Freeing
    case Freeing => to == Closed
    case Closed => false
  }

  /** How many stages a request has before it at most. */
  function Ahead(stage: Stage): nat {
    match stage
    case Waiting => 5
    case Resolving => 4
    case Serving(_) => 3
    case Returning(_) => 2
    case Freeing => 1
    case Closed => 0
  }

  /** The step that takes the request out of its stage. */
  predicate TakesOn(step: Step, r: nat, from: Stage) {
    match from
    case Waiting => step == Wake(r) || step == Expire(r) || step == Cancel(r)
    case Resolving => step.Resolve? && step.request == r
    case Serving(_) => step == ReleaseOnce(r)
    case Returning(_) => step.ReturnLease? && step.request == r
    case Freeing => step == FreeSlot(r)
    case Closed => false
  }

  /** What a step does to a request: it leaves it where it is, or takes it on to a stage that follows. */
  ghost predicate MovesOn(s: State, step: Step, t: State, r: nat)
    requires r in s.requests
  {
    && r in t.requests && t.requests[r].model == s.requests[r].model
    && var from, to := s.requests[r].stage, t.requests[r].stage;
    && (to != from ==> LeadsTo(from, to) && TakesOn(step, r, from))
    && (TakesOn(step, r, from) && !step.Wake? ==> to != from)
  }

  lemma {:induction false} StageLaw(s: State, step: Step, r: nat)
    requires Enabled(s, step) && r in s.requests
    ensures MovesOn(s, step, Apply(s, step), r)
  {
    hide *;
    if step.Resolve? || step.ReleaseOnce? || step.ReturnLease? {
      HoldingMoves(s, step, r);
    } else if step.Wake? || step.Expire? || step.Cancel? || step.FreeSlot? {
      LimiterMoves(s, step, r);
    } else {
      NobodyMoves(s, step, r);
    }
  }

  lemma {:induction false} HoldingMoves(s: State, step: Step, r: nat)
    requires Enabled(s, step) && r in s.requests && (step.Resolve? || step.ReleaseOnce? || step.ReturnLease?)
    ensures MovesOn(s, step, Apply(s, step), r)
  {
    OnlyStage(s, step);
    HoldingStage(s, step);
    hide *;
    OneMoves(s, step, Apply(s, step), r);
  }

  /** The stage that a step of a request that has its slot takes it to. */
  lemma {:induction false} HoldingStage(s: State, step: Step)
    requires Enabled(s, step) && (step.Resolve? || step.ReleaseOnce? || step.ReturnLease?)
    ensures step.request in s.requests && step.request in Apply(s, step).requests
    ensures var from, to := s.requests[step.request].stage, Apply(s, step).requests[step.request].stage;
      to != from && LeadsTo(from, to) && TakesOn(step, step.request, from)
  {
    hide InLimiter, Adjust, Limited, ConfigureStep, ArriveStep, WakeStep, Leaking, Counted, Uncounted;
  }

  lemma {:induction false} OneMoves(s: State, step: Step, t: State, r: nat)
    requires r in s.requests && (step.Resolve? || step.ReleaseOnce? || step.ReturnLease?)
    requires step.request in s.requests && step.request in t.requests
      && t.requests == s.requests[step.request := s.requests[step.request].(stage := t.requests[step.request].stage)]
    requires var from, to := s.requests[step.request].stage, t.requests[step.request].stage;
      to != from && LeadsTo(from, to) && TakesOn(step, step.request, from)
    ensures MovesOn(s, step, t, r)
  {
  }

  lemma {:induction false} LimiterMoves(s: State, step: Step, r: nat)
    requires Enabled(s, step) && r in s.requests
    requires step.Wake? || step.Expire? || step.Cancel? || step.FreeSlot?
    ensures MovesOn(s, step, Apply(s, step), r)
  {
    hide Limiter.Apply, Limiter.Enabled, Adjust, State.Lessees;
  }

  lemma {:induction false} NobodyMoves(s: State, step: Step, r: nat)
    requires Enabled(s, step) && r in s.requests
    requires !step.Resolve? && !step.ReleaseOnce? && !step.ReturnLease?
    requires !step.Wake? && !step.Expire? && !step.Cancel? && !step.FreeSlot?
    ensures MovesOn(s, step, Apply(s, step), r)
  {
    hide Limiter.Apply, Limiter.Enabled, Adjust, State.Lessees;
  }

  /** What a resolution decides: to serve from a leased instance or from upstream, or to give the slot back. */
  lemma {:induction false} ResolutionLaw(s: State, r: nat, outcome: Resolution, lost: Option<string>)
    requires Enabled(s, Resolve(r, outcome, lost))
    ensures r in Apply(s, Resolve(r, outcome, lost)).requests
    ensures var to := Apply(s, Resolve(r, outcome, lost)).requests[r].stage;
      && (forall id :: to == Serving(Some(id)) <==> outcome == Leased(id))
      && (to == Serving(None) <==> outcome.Direct?)
      && (to == Returning(None) <==> outcome.Raised?)
      && (to == Freeing <==> outcome.NoBackend?)
  {
    hide Adjust;
  }

  /** No request ever goes back. */
  lemma {:induction false} NeverBack(states: seq<State>, steps: seq<Step>, i: nat, j: nat, r: nat)
    requires IsRun(states, steps) && i <= j < |states| && r in states[i].requests
    ensures r in states[j].requests && Ahead(states[j].requests[r].stage) <= Ahead(states[i].requests[r].stage)
  {
    hide *;
    if i < j {
      NeverBack(states, steps, i, j - 1, r);
      LastStep(states, steps, j);
      StageLaw(states[j - 1], steps[j - 1], r);
      OnwardIsLess(states[j - 1], steps[j - 1], states[j], r);
    }
  }

  lemma {:induction false} LastStep(states: seq<State>, steps: seq<Step>, j: nat)
    requires IsRun(states, steps) && 0 < j < |states|
    ensures j - 1 < |steps| && states[j - 1].Conserved() && Enabled(states[j - 1], steps[j - 1])
    ensures states[j] == Apply(states[j - 1], steps[j - 1])
  {
    RunStep(states, steps, j - 1);
    hide Apply, Enabled, State.Conserved;
  }

  lemma {:induction false} OnwardIsLess(s: State, step: Step, t: State, r: nat)
    requires r in s.requests && MovesOn(s, step, t, r)
    ensures r in t.requests && Ahead(t.requests[r].stage) <= Ahead(s.requests[r].stage)
    ensures t.requests[r].stage != s.requests[r].stage ==> Ahead(t.requests[r].stage) < Ahead(s.requests[r].stage)
  {
  }

  /** So in any run a request gives its slot back at most once, and nothing happens to it afterwards. */
  lemma {:induction false} FreedOnce(states: seq<State>, steps: seq<Step>, i: nat, j: nat, r: nat)
    requires IsRun(states, steps) && i < j < |steps| && steps[i] == FreeSlot(r)
    ensures r in states[j].requests && states[j].requests[r].stage == Closed
    ensures steps[j] != FreeSlot(r) && steps[j] != ReleaseOnce(r) && steps[j] != Wake(r)
    ensures forall reached :: steps[j] != ReturnLease(r, reached)
    ensures forall outcome, lost :: steps[j] != Resolve(r, outcome, lost)
  {
    RunStep(states, steps, i);
    RunStep(states, steps, j);
    WasFreeing(states[i], r);
    NeverBack(states, steps, i + 1, j, r);
    hide IsRun, Apply, State.Conserved, InLimiter, State.Lessees;
  }

  lemma {:induction false} WasFreeing(s: State, r: nat)
    requires Enabled(s, FreeSlot(r))
    ensures r in s.requests && r in Apply(s, FreeSlot(r)).requests
    ensures Apply(s, FreeSlot(r)).requests[r].stage == Closed
  {
    hide Limiter.Apply;
  }

  /** No request is ever stuck: one that has its slot has a step that takes it on, and one that waits can be let go. */
  lemma {:induction false} CanGoOn(s: State, r: nat)
    requires s.Conserved() && r in s.requests && s.requests[r].stage != Closed
    ensures exists step :: Enabled(s, step) && TakesOn(step, r, s.requests[r].stage)
  {
    var stage := s.requests[r].stage;
    var step := match stage
      case Waiting => Cancel(r)
      case Resolving => Resolve(r, Raised, None)
      case Serving(_) => ReleaseOnce(r)
      case Returning(_) => ReturnLease(r, true)
      case _ => FreeSlot(r);
    assert s.SlotsExact(s.requests[r].model);
    if stage.Waiting? { assert s.Queued(s.requests[r].model, r); }
    assert Enabled(s, step) && TakesOn(step, r, stage);
  }

  // ---- arriving ---------------------------------------------------------------------------

  /** A configuration is what the limiter of its model has until the next one. */
  lemma {:induction false} ConfiguredLast(states: seq<State>, steps: seq<Step>, n: nat, j: nat, m: string, a: int,
                                          q: int)
    requires IsRun(states, steps) && n < j < |states| && steps[n] == Configure(m, a, q)
    requires forall k | n < k < j :: !(steps[k].Configure? && steps[k].model == m)
    ensures m in states[j].limiters && states[j].limiters[m].maxActive == a && states[j].limiters[m].maxQueued == q
  {
    hide *;
    LastStep(states, steps, j);
    LimitsStep(states[j - 1], steps[j - 1], m);
    if n < j - 1 { ConfiguredLast(states, steps, n, j - 1, m, a, q); }
  }

  lemma {:induction false} LimitsStep(s: State, step: Step, m: string)
    requires Enabled(s, step)
    ensures step.Configure? && step.model == m ==>
      && m in Apply(s, step).limiters
      && Apply(s, step).limiters[m].maxActive == step.maxActive
      && Apply(s, step).limiters[m].maxQueued == step.maxQueued
    ensures !(step.Configure? && step.model == m) && m in s.limiters ==>
      && m in Apply(s, step).limiters
      && Apply(s, step).limiters[m].maxActive == s.limiters[m].maxActive
      && Apply(s, step).limiters[m].maxQueued == s.limiters[m].maxQueued
  {
    hide Limiter.Enabled, Limiter.NotifyAll, Adjust, State.Lessees;
  }

  /**
   * A new request gets a slot iff fewer requests of its model hold one than allowed, else a place in the queue iff
   * one is left, counting those that leaked, and is refused otherwise.
   */
  lemma {:induction false} ArrivalIff(s: State, r: nat, m: string)
    requires s.Conserved() && Enabled(s, Arrive(r, m))
    ensures r in Apply(s, Arrive(r, m)).requests
    ensures var l, to := s.limiters[m], Apply(s, Arrive(r, m)).requests[r];
      && to.model == m
      && (to.stage == Resolving <==> |s.WithSlot(m)| < l.maxActive)
      && (to.stage == Waiting <==> |s.WithSlot(m)| >= l.maxActive && |s.InQueue(m)| + l.abandoned < l.maxQueued)
      && (to.stage == Closed <==> |s.WithSlot(m)| >= l.maxActive && |s.InQueue(m)| + l.abandoned >= l.maxQueued)
  {
    CountersAre(s, m, "");
    assert s.SlotsExact(m);
    assert !s.Slot(m, r) && !s.Queued(m, r);
    hide State.WithSlot, State.InQueue, State.Conserved;
  }
}
