/** The per-model limiter: a counter pair guarded by a condition variable, as atomic steps of its callers. */
module Limiter {
  import opened Wrappers

  /** A queued caller sleeps on the condition, has been notified, or has been timed out and must still leave. */
  datatype Wait = Asleep | Notified | Expiring

  /**
   * The two counters and limits of the program, and the callers they stand for. `abandoned` counts
   * queued callers that were cancelled from outside: they leave without giving their place back.
   */
  datatype State = State(active: int, queued: int, maxActive: int, maxQueued: int,
                         waiters: map<nat, Wait>, holders: set<nat>, abandoned: nat)
  {
    ghost predicate Exact() {
      && active == |holders|
      && queued == |waiters| + abandoned
      && waiters.Keys !! holders
    }

    predicate Free() { active < maxActive }

    /** Nobody sleeps while a slot is free. */
    ghost predicate NoLostWakeup() {
      Free() ==> forall r | r in waiters :: waiters[r] != Asleep
    }

    predicate Knows(r: nat) { r in waiters || r in holders }
  }

  function Init(maxActive: int, maxQueued: int): State {
    State(0, 0, maxActive, maxQueued, map[], {}, 0)
  }

  datatype Step =
    | Enter(caller: nat)      // `acquire` up to its first suspension
    | Wake(caller: nat)       // a notified waiter re-evaluates the loop condition
    | Timer(caller: nat)      // the queue timeout fires
    | Expire(caller: nat)     // the timed-out waiter runs its exception handler
    | Abandon(caller: nat)    // the waiting coroutine is cancelled from outside
    | Leave(caller: nat)      // `release`
    | SetLimits(maxActive: int, maxQueued: int)

  ghost predicate Enabled(s: State, step: Step) {
    match step
    case Enter(r) => !s.Knows(r)
    case Wake(r) => r in s.waiters && s.waiters[r] == Notified
    case Timer(r) => r in s.waiters && s.waiters[r] != Expiring
    case Expire(r) => r in s.waiters && s.waiters[r] == Expiring
    case Abandon(r) => r in s.waiters
    case Leave(r) => r in s.holders
    case SetLimits(_, _) => true
  }

  function NotifyAll(waiters: map<nat, Wait>): (r: map<nat, Wait>) {
    map w | w in waiters :: if waiters[w] == Asleep then Notified else waiters[w]
  }

  /** The same callers wait; whoever slept is awake, and the others are as they were. */
  ghost predicate Woken(before: map<nat, Wait>, after: map<nat, Wait>) {
    && after.Keys == before.Keys
    && (forall w | w in before :: after[w] != Asleep && (before[w] != Asleep ==> after[w] == before[w]))
    && (forall w | w in before && before[w] == Asleep :: after[w] == Notified)
  }

  function Max(a: int, b: int): int { if a > b then a else b }

  function Apply(s: State, step: Step): State {
    match step
    case Enter(r) =>
      if s.Free() then s.(active := s.active + 1, holders := s.holders + {r})
      else if s.queued >= s.maxQueued then s
      else s.(queued := s.queued + 1, waiters := s.waiters[r := Asleep])
    case Wake(r) =>
      if s.Free() then s.(queued := s.queued - 1, active := s.active + 1, waiters := s.waiters - {r},
                          holders := s.holders + {r})
      else s.(waiters := s.waiters[r := Asleep])
    case Timer(r) => s.(waiters := s.waiters[r := Expiring])
    case Expire(r) => s.(queued := s.queued - 1, waiters := NotifyAll(s.waiters - {r}))
    case Abandon(r) => s.(waiters := s.waiters - {r}, abandoned := s.abandoned + 1)
    case Leave(r) => s.(active := Max(0, s.active - 1), holders := s.holders - {r}, waiters := NotifyAll(s.waiters))
    case SetLimits(a, q) => s.(maxActive := a, maxQueued := q)
  }

  // ---- what every step keeps --------------------------------------------------------------

  lemma {:induction false} NotifyKeeps(waiters: map<nat, Wait>)
    ensures NotifyAll(waiters).Keys == waiters.Keys && |NotifyAll(waiters)| == |waiters|
  {
    assert NotifyAll(waiters).Keys == waiters.Keys;
    assert |NotifyAll(waiters)| == |NotifyAll(waiters).Keys|;
  }

  lemma {:induction false} RemoveOne<V>(m: map<nat, V>, r: nat)
    requires r in m
    ensures |m - {r}| == |m| - 1 && (m - {r}).Keys == m.Keys - {r}
  {
    assert (m - {r}).Keys == m.Keys - {r};
    assert |m - {r}| == |(m - {r}).Keys| && |m| == |m.Keys|;
  }

  lemma {:induction false} AddOne<V>(m: map<nat, V>, r: nat, v: V)
    ensures m[r := v].Keys == m.Keys + {r}
    ensures |m[r := v]| == |m| + if r in m then 0 else 1
  {
    assert m[r := v].Keys == m.Keys + {r};
    assert |m[r := v]| == |m[r := v].Keys| && |m| == |m.Keys|;
    if r in m { assert m.Keys + {r} == m.Keys; }
  }

  /** The counters stay exact, whatever the limits do. */
  lemma {:induction false} StepExact(s: State, step: Step)
    requires s.Exact() && Enabled(s, step)
    ensures Apply(s, step).Exact()
  {
    hide Apply, Enabled, State.Exact;
    match step
    case Enter(r) => EnterExact(s, r);
    case Wake(r) => WakeExact(s, r);
    case Timer(r) => TimerExact(s, r);
    case Expire(r) => ExpireExact(s, r);
    case Abandon(r) => AbandonExact(s, r);
    case Leave(r) => LeaveExact(s, r);
    case SetLimits(a, q) => LimitsExact(s, a, q);
  }

  lemma {:induction false} EnterExact(s: State, r: nat)
    requires s.Exact() && Enabled(s, Enter(r))
    ensures Apply(s, Enter(r)).Exact()
  {
    AddOne(s.waiters, r, Asleep);
  }

  lemma {:induction false} TimerExact(s: State, r: nat)
    requires s.Exact() && Enabled(s, Timer(r))
    ensures Apply(s, Timer(r)).Exact()
  {
    AddOne(s.waiters, r, Expiring);
  }

  lemma {:induction false} AbandonExact(s: State, r: nat)
    requires s.Exact() && Enabled(s, Abandon(r))
    ensures Apply(s, Abandon(r)).Exact()
  {
    RemoveOne(s.waiters, r);
  }

  lemma {:induction false} LeaveExact(s: State, r: nat)
    requires s.Exact() && Enabled(s, Leave(r))
    ensures Apply(s, Leave(r)).Exact()
  {
    assert |s.holders| == |s.holders - {r}| + 1;
    NotifyKeeps(s.waiters);
  }

  lemma {:induction false} LimitsExact(s: State, a: int, q: int)
    requires s.Exact()
    ensures Apply(s, SetLimits(a, q)).Exact()
  {
  }

  lemma {:induction false} WakeExact(s: State, r: nat)
    requires s.Exact() && Enabled(s, Wake(r))
    ensures Apply(s, Wake(r)).Exact()
  {
    RemoveOne(s.waiters, r);
    AddOne(s.waiters, r, Asleep);
    assert r !in s.holders;
  }

  lemma {:induction false} ExpireExact(s: State, r: nat)
    requires s.Exact() && Enabled(s, Expire(r))
    ensures Apply(s, Expire(r)).Exact()
  {
    RemoveOne(s.waiters, r);
    NotifyKeeps(s.waiters - {r});
  }

  /** The clamp in `release` never acts: whoever releases holds a slot. */
  lemma {:induction false} ReleaseNeverClamps(s: State, r: nat)
    requires s.Exact() && Enabled(s, Leave(r))
    ensures s.active >= 1 && Apply(s, Leave(r)).active == s.active - 1
  {
    assert |s.holders| == |s.holders - {r}| + 1;
  }

  /** A step grants at most one slot, and only below the limit in force at that step. */
  lemma {:induction false} GrantsBelowLimit(s: State, step: Step)
    requires s.Exact() && Enabled(s, step)
    ensures Apply(s, step).active <= s.active + 1
    ensures Apply(s, step).active > s.active ==> s.active < s.maxActive == Apply(s, step).maxActive
    ensures Apply(s, step).queued > s.queued ==> s.queued < s.maxQueued == Apply(s, step).maxQueued
  {
    StepExact(s, step);
  }

  /** A wakeup is lost exactly when the limits are raised past the load while somebody sleeps. */
  lemma {:induction false} WakeupLostIff(s: State, step: Step)
    requires s.NoLostWakeup() && Enabled(s, step)
    ensures Apply(s, step).NoLostWakeup() <==>
      !(step.SetLimits? && s.active < step.maxActive && exists r :: r in s.waiters && s.waiters[r] == Asleep)
  {
    match step
    case Leave(r) => assert forall w | w in NotifyAll(s.waiters) :: NotifyAll(s.waiters)[w] != Asleep;
    case Expire(r) => assert forall w | w in NotifyAll(s.waiters - {r}) :: NotifyAll(s.waiters - {r})[w] != Asleep;
    case _ =>
  }

  /** Raising the limit does lose a wakeup: one holder, one sleeper, then a second slot nobody is told about. */
  lemma {:induction false} RaisedLimitStrandsWaiter()
    ensures IsRun([Init(1, 1), Apply(Init(1, 1), Enter(0)), Apply(Apply(Init(1, 1), Enter(0)), Enter(1)),
                   Apply(Apply(Apply(Init(1, 1), Enter(0)), Enter(1)), SetLimits(2, 1))],
                  [Enter(0), Enter(1), SetLimits(2, 1)])
    ensures var s := Apply(Apply(Apply(Init(1, 1), Enter(0)), Enter(1)), SetLimits(2, 1));
      && s.Exact() && s.Free() && s.waiters == map[1 := Asleep] && !s.NoLostWakeup()
  {
    var s := Apply(Apply(Apply(Init(1, 1), Enter(0)), Enter(1)), SetLimits(2, 1));
    assert s.holders == {0} && s.waiters == map[1 := Asleep];
    assert s.waiters[1] == Asleep;
  }

  // ---- runs -------------------------------------------------------------------------------

  ghost predicate IsRun(states: seq<State>, steps: seq<Step>) {
    && |states| == |steps| + 1
    && (forall i | 0 <= i < |steps| :: Enabled(states[i], steps[i]) && states[i + 1] == Apply(states[i], steps[i]))
  }

  /** The limits are fixed or only lowered. */
  ghost predicate NeverRaised(states: seq<State>, steps: seq<Step>) {
    IsRun(states, steps) && forall i | 0 <= i < |steps| && steps[i].SetLimits? ::
      steps[i].maxActive <= states[i].maxActive
  }

  lemma {:induction false} RunExact(states: seq<State>, steps: seq<Step>, i: nat)
    requires IsRun(states, steps) && states[0].Exact() && i < |states|
    ensures states[i].Exact()
  {
    if i > 0 {
      RunExact(states, steps, i - 1);
      StepExact(states[i - 1], steps[i - 1]);
    }
  }

  /** With limits never raised no wakeup is ever lost: a sleeper means the limiter is full. */
  lemma {:induction false} NoWakeupLost(states: seq<State>, steps: seq<Step>, i: nat)
    requires NeverRaised(states, steps) && states[0].NoLostWakeup() && i < |states|
    ensures states[i].NoLostWakeup()
  {
    if i > 0 {
      NoWakeupLost(states, steps, i - 1);
      WakeupLostIff(states[i - 1], steps[i - 1]);
    }
  }

  /** So while anybody waits, somebody holds a slot or some waiter is about to run. */
  lemma {:induction false} SomebodyCanMove(states: seq<State>, steps: seq<Step>, i: nat)
    requires NeverRaised(states, steps) && states[0].Exact() && states[0].NoLostWakeup() && i < |states|
    requires states[i].maxActive >= 1 && states[i].waiters != map[]
    ensures states[i].holders != {} || exists r :: r in states[i].waiters && states[i].waiters[r] != Asleep
  {
    NoWakeupLost(states, steps, i);
    RunExact(states, steps, i);
    if states[i].holders == {} {
      assert states[i].Free();
      assert states[i].waiters.Keys != {};
      var r :| r in states[i].waiters.Keys;
      assert states[i].waiters[r] != Asleep;
    }
  }

  /** With fixed limits neither counter ever exceeds its limit. */
  lemma {:induction false} WithinLimits(states: seq<State>, steps: seq<Step>, a: int, q: int, i: nat)
    requires IsRun(states, steps) && states[0] == Init(a, q) && i < |states|
    requires forall n | 0 <= n < |steps| :: !steps[n].SetLimits?
    ensures states[i].maxActive == a && states[i].maxQueued == q && states[i].Exact()
    ensures 0 <= states[i].active <= Max(0, a) && 0 <= states[i].queued <= Max(0, q)
  {
    if i > 0 {
      WithinLimits(states, steps, a, q, i - 1);
      StepExact(states[i - 1], steps[i - 1]);
      GrantsBelowLimit(states[i - 1], steps[i - 1]);
    }
  }

  /** The queue counter is exact precisely as long as no queued caller was cancelled from outside. */
  lemma {:induction false} QueuedExactIff(states: seq<State>, steps: seq<Step>, a: int, q: int, i: nat)
    requires IsRun(states, steps) && states[0] == Init(a, q) && i < |states|
    ensures states[i].queued == |states[i].waiters| <==> forall n | 0 <= n < i :: !steps[n].Abandon?
  {
    RunExact(states, steps, i);
    AbandonedIff(states, steps, i);
  }

  lemma {:induction false} AbandonedIff(states: seq<State>, steps: seq<Step>, i: nat)
    requires IsRun(states, steps) && states[0].abandoned == 0 && i < |states|
    ensures states[i].abandoned == 0 <==> forall n | 0 <= n < i :: !steps[n].Abandon?
  {
    if i > 0 { AbandonedIff(states, steps, i - 1); }
  }

  /** One cancelled waiter: its place stays taken, and the next caller is refused although nobody waits. */
  lemma {:induction false} CancelledWaiterLeaks()
    ensures Enabled(Apply(Apply(Init(1, 1), Enter(0)), Enter(1)), Abandon(1))
    ensures var s := Apply(Apply(Apply(Init(1, 1), Enter(0)), Enter(1)), Abandon(1));
      && s.Exact() && s.waiters == map[] && s.queued == 1
      && Enabled(s, Enter(2)) && Apply(s, Enter(2)) == s
  {
    var s := Apply(Apply(Apply(Init(1, 1), Enter(0)), Enter(1)), Abandon(1));
    assert s.holders == {0} && s.waiters == map[];
  }

  /** A leaked place is never given back. */
  lemma {:induction false} LeaksStay(states: seq<State>, steps: seq<Step>, i: nat, j: nat)
    requires IsRun(states, steps) && i <= j < |states|
    ensures states[i].abandoned <= states[j].abandoned
  {
    if i < j { LeaksStay(states, steps, i, j - 1); }
  }

  /** So enough cancelled waiters close the queue for good: from then on a full limiter refuses every newcomer. */
  lemma {:induction false} LeakedPlacesRefuse(states: seq<State>, steps: seq<Step>, i: nat, j: nat)
    requires IsRun(states, steps) && states[0].Exact() && i <= j < |steps|
    requires steps[j].Enter? && states[i].abandoned >= states[j].maxQueued && !states[j].Free()
    ensures states[j + 1] == states[j] && !states[j + 1].Knows(steps[j].caller)
  {
    RunExact(states, steps, j);
    LeaksStay(states, steps, i, j);
  }

  // ---- limits and timeouts over runs ------------------------------------------------------

  /** The limits in force at a state: the last that were set, or those of the start. */
  ghost predicate InForce(states: seq<State>, steps: seq<Step>, j: nat, a: int, q: int)
    requires IsRun(states, steps) && j < |states|
  {
    || (exists n :: 0 <= n < j && steps[n] == SetLimits(a, q) && forall m | n < m < j :: !steps[m].SetLimits?)
    || ((forall m | 0 <= m < j :: !steps[m].SetLimits?) && a == states[0].maxActive && q == states[0].maxQueued)
  }

  lemma {:induction false} LimitsInForce(states: seq<State>, steps: seq<Step>, j: nat, a: int, q: int)
    requires IsRun(states, steps) && j < |states|
    ensures InForce(states, steps, j, a, q) <==> states[j].maxActive == a && states[j].maxQueued == q
  {
    if j > 0 {
      LimitsInForce(states, steps, j - 1, a, q);
      if steps[j - 1].SetLimits? {
        assert InForce(states, steps, j, a, q) <==> steps[j - 1] == SetLimits(a, q);
      } else {
        InForceStep(states, steps, j, a, q);
      }
    }
  }

  lemma {:induction false} InForceStep(states: seq<State>, steps: seq<Step>, j: nat, a: int, q: int)
    requires IsRun(states, steps) && 0 < j < |states| && !steps[j - 1].SetLimits?
    ensures InForce(states, steps, j, a, q) <==> InForce(states, steps, j - 1, a, q)
  {
    hide IsRun;
  }

  /**
   * A newcomer is let in iff fewer are active than the last limit allows, else queued iff fewer are queued than the
   * last limit allows, and else refused with nothing changed.
   */
  lemma {:induction false} NewcomerIff(states: seq<State>, steps: seq<Step>, j: nat, a: int, q: int)
    requires IsRun(states, steps) && states[0].Exact() && j < |steps| && steps[j].Enter?
    requires InForce(states, steps, j, a, q)
    ensures var before, after, r := states[j], states[j + 1], steps[j].caller;
      && (r in after.holders <==> |before.holders| < a)
      && (r in after.waiters <==> |before.holders| >= a && |before.waiters| + before.abandoned < q)
      && (!after.Knows(r) ==> after == before)
  {
    RunExact(states, steps, j);
    LimitsInForce(states, steps, j, a, q);
  }

  /** A caller whose timer has fired never takes a slot: it stays until it has run its handler or is cancelled. */
  lemma {:induction false} TimedOutNeverServed(states: seq<State>, steps: seq<Step>, i: nat, j: nat, r: nat)
    requires IsRun(states, steps) && states[0].Exact() && i < j < |states| && steps[i] == Timer(r)
    requires forall n | i < n < j :: steps[n] != Enter(r)
    ensures r !in states[j].holders
    ensures r in states[j].waiters <==> StaysOn(steps, i, j, r)
    ensures r in states[j].waiters ==> states[j].waiters[r] == Expiring
  {
    hide *;
    RunStep(states, steps, j - 1);
    TimedOutStep(states[j - 1], steps[j - 1], r);
    StaysStep(steps, i, j, r);
    if i < j - 1 { TimedOutNeverServed(states, steps, i, j - 1, r); }
  }

  lemma {:induction false} StaysStep(steps: seq<Step>, i: nat, j: nat, r: nat)
    requires i < j <= |steps|
    ensures StaysOn(steps, i, j, r) <==>
      i == j - 1 || (StaysOn(steps, i, j - 1, r) && steps[j - 1] != Expire(r) && steps[j - 1] != Abandon(r))
  {
  }

  /** Any waiter that is not leaving may time out, and then leaves and gives its place back; nobody else is let go. */
  lemma {:induction false} TimeoutLeaves(s: State, r: nat)
    requires s.Exact() && r in s.waiters && s.waiters[r] != Expiring
    ensures Enabled(s, Timer(r)) && !Enabled(s, Expire(r))
    ensures var t := Apply(s, Timer(r));
      && Enabled(t, Expire(r)) && !Apply(t, Expire(r)).Knows(r)
      && Apply(t, Expire(r)).queued == s.queued - 1 && Apply(t, Expire(r)).active == s.active
  {
  }

  /** Neither its handler nor a cancellation has come to the caller since step `i`. */
  ghost predicate StaysOn(steps: seq<Step>, i: nat, j: nat, r: nat)
    requires j <= |steps|
  {
    forall n | i < n < j :: steps[n] != Expire(r) && steps[n] != Abandon(r)
  }

  lemma {:induction false} RunStep(states: seq<State>, steps: seq<Step>, i: nat)
    requires IsRun(states, steps) && states[0].Exact() && i + 1 < |states|
    ensures i < |steps| && states[i].Exact() && Enabled(states[i], steps[i])
    ensures states[i + 1] == Apply(states[i], steps[i])
  {
    RunExact(states, steps, i);
    hide State.Exact, Apply, Enabled;
  }

  /** One step of a caller that is leaving or has left. */
  lemma {:induction false} TimedOutStep(s: State, step: Step, r: nat)
    requires s.Exact() && Enabled(s, step)
    ensures step == Timer(r) ==>
      r !in Apply(s, step).holders && r in Apply(s, step).waiters && Apply(s, step).waiters[r] == Expiring
    ensures r in s.waiters && s.waiters[r] == Expiring && r !in s.holders ==>
      && r !in Apply(s, step).holders
      && (r in Apply(s, step).waiters <==> step != Expire(r) && step != Abandon(r))
      && (r in Apply(s, step).waiters ==> Apply(s, step).waiters[r] == Expiring)
    ensures r !in s.waiters && r !in s.holders && step != Enter(r) ==>
      r !in Apply(s, step).waiters && r !in Apply(s, step).holders
  {
  }

  // ---- work conservation ------------------------------------------------------------------

  ghost function NotifiedIn(s: State): set<nat> {
    set r | r in s.waiters && s.waiters[r] == Notified
  }

  /** In whatever order the notified waiters run, they take exactly the slots that are free. */
  lemma {:induction false} NotifiedTakeFreeSlots(states: seq<State>, steps: seq<Step>)
    requires IsRun(states, steps) && states[0].Exact()
    requires forall n | 0 <= n < |steps| :: steps[n].Wake?
    requires NotifiedIn(states[|steps|]) == {}
    ensures var first, last := states[0], states[|steps|];
      && last.active == (if !first.Free() then first.active
                         else if first.active + |NotifiedIn(first)| <= first.maxActive
                         then first.active + |NotifiedIn(first)| else first.maxActive)
      && last.queued == first.queued - (last.active - first.active)
  {
    if steps != [] {
      var s, t := states[0], states[1];
      var r := steps[0].caller;
      StepExact(s, steps[0]);
      assert NotifiedIn(t) == NotifiedIn(s) - {r};
      assert r in NotifiedIn(s);
      NotifiedTakeFreeSlots(states[1..], steps[1..]);
    } else {
      assert |NotifiedIn(states[0])| == 0;
    }
  }

  // ---- the limiter object -----------------------------------------------------------------

  datatype Entry = Granted | Queueing | QueueFull

  class ModelLimiter {
    var maxActiveRequests: int
    var maxQueuedRequests: int
    var activeRequests: int
    var queuedRequests: int
    ghost var waiters: map<nat, Wait>
    ghost var holders: set<nat>
    ghost var abandoned: nat

    ghost function View(): State reads this {
      State(activeRequests, queuedRequests, maxActiveRequests, maxQueuedRequests, waiters, holders, abandoned)
    }

    constructor (maxActive: int, maxQueued: int)
      ensures View() == Init(maxActive, maxQueued)
    {
      maxActiveRequests, maxQueuedRequests := maxActive, maxQueued;
      activeRequests, queuedRequests := 0, 0;
      waiters, holders, abandoned := map[], {}, 0;
    }

    /** `acquire` until it returns, raises QueueFull, or suspends. */
    method Acquire(ghost caller: nat) returns (entry: Entry)
      requires Enabled(View(), Enter(caller))
      modifies this
      ensures View() == Apply(old(View()), Enter(caller))
      ensures entry.Granted? <==> caller in holders
      ensures entry.Queueing? <==> caller in waiters
      // in counters and limits
      ensures entry.Granted? <==> old(activeRequests) < old(maxActiveRequests)
      ensures entry.Queueing? <==>
        old(activeRequests) >= old(maxActiveRequests) && old(queuedRequests) < old(maxQueuedRequests)
      ensures activeRequests == old(activeRequests) + if entry.Granted? then 1 else 0
      ensures queuedRequests == old(queuedRequests) + if entry.Queueing? then 1 else 0
      ensures holders == if entry.Granted? then old(holders) + {caller} else old(holders)
      ensures waiters == if entry.Queueing? then old(waiters)[caller := Asleep] else old(waiters)
      ensures maxActiveRequests == old(maxActiveRequests) && maxQueuedRequests == old(maxQueuedRequests)
        && abandoned == old(abandoned)
    {
      if activeRequests < maxActiveRequests {
        activeRequests := activeRequests + 1;
        holders := holders + {caller};
        return Granted;
      }
      if queuedRequests >= maxQueuedRequests { return QueueFull; }
      queuedRequests := queuedRequests + 1;
      waiters := waiters[caller := Asleep];
      return Queueing;
    }

    /** One turn of the loop in `_wait_for_slot_locked` after a notification. */
    method WaitForSlot(ghost caller: nat) returns (granted: bool)
      requires Enabled(View(), Wake(caller))
      modifies this
      ensures View() == Apply(old(View()), Wake(caller))
      ensures granted <==> old(activeRequests) < maxActiveRequests
      ensures activeRequests == old(activeRequests) + if granted then 1 else 0
      ensures queuedRequests == old(queuedRequests) - if granted then 1 else 0
      ensures holders == if granted then old(holders) + {caller} else old(holders)
      ensures waiters == if granted then old(waiters) - {caller} else old(waiters)[caller := Asleep]
      ensures maxActiveRequests == old(maxActiveRequests) && maxQueuedRequests == old(maxQueuedRequests)
        && abandoned == old(abandoned)
    {
      granted := activeRequests < maxActiveRequests;
      if granted {
        queuedRequests := queuedRequests - 1;
        activeRequests := activeRequests + 1;
        waiters, holders := waiters - {caller}, holders + {caller};
      } else {
        waiters := waiters[caller := Asleep];
      }
    }

    /** The handler of the queue timeout. */
    method TimedOut(ghost caller: nat)
      requires Enabled(View(), Expire(caller))
      modifies this
      ensures View() == Apply(old(View()), Expire(caller))
      ensures queuedRequests == old(queuedRequests) - 1 && activeRequests == old(activeRequests)
      ensures Woken(old(waiters) - {caller}, waiters) && holders == old(holders)
      ensures maxActiveRequests == old(maxActiveRequests) && maxQueuedRequests == old(maxQueuedRequests)
        && abandoned == old(abandoned)
    {
      queuedRequests := queuedRequests - 1;
      waiters := NotifyAll(waiters - {caller});
    }

    method Release(ghost caller: nat)
      requires Enabled(View(), Leave(caller))
      modifies this
      ensures View() == Apply(old(View()), Leave(caller))
      ensures activeRequests == (if old(activeRequests) > 0 then old(activeRequests) - 1 else 0)
      ensures queuedRequests == old(queuedRequests)
      ensures holders == old(holders) - {caller} && Woken(old(waiters), waiters)
      ensures maxActiveRequests == old(maxActiveRequests) && maxQueuedRequests == old(maxQueuedRequests)
        && abandoned == old(abandoned)
    {
      activeRequests := Max(0, activeRequests - 1);
      holders, waiters := holders - {caller}, NotifyAll(waiters);
    }

    method UpdateLimits(maxActive: int, maxQueued: int)
      modifies this
      ensures View() == Apply(old(View()), SetLimits(maxActive, maxQueued))
      ensures maxActiveRequests == maxActive && maxQueuedRequests == maxQueued
      ensures activeRequests == old(activeRequests) && queuedRequests == old(queuedRequests)
      ensures waiters == old(waiters) && holders == old(holders) && abandoned == old(abandoned)
    {
      maxActiveRequests, maxQueuedRequests := maxActive, maxQueued;
    }
  }
}
