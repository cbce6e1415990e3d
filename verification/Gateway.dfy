/** Requests and the executor between limiter slots and backend leases: what is held, and what has leaked. */
module Gateway {
  import opened Wrappers
  import Limiter

  /** Where the coroutine of one request is suspended. */
  datatype Stage =
    | Waiting                             // queued in the limiter of its model
    | Resolving                           // has a slot, asks the registry for a backend
    | Serving(lease: Option<string>)      // forwards upstream, with or without a leased instance
    | Returning(lease: Option<string>)    // `release_once` has set its flag; the lease goes back first
    | Freeing                             // then the slot
    | Closed
  {
    predicate HasSlot() { Resolving? || Serving? || Returning? || Freeing? }

    function Lease(): Option<string> {
      match this
      case Serving(l) => l
      case Returning(l) => l
      case _ => None
    }
  }

  datatype Request = Request(model: string, stage: Stage)

  /**
   * One limiter per model, `active_requests` per registered instance, the requests, the executor's lease, and
   * how many leases of each instance are counted although nobody holds them any more.
   */
  datatype State = State(limiters: map<string, Limiter.State>, leases: map<string, int>,
                         requests: map<nat, Request>, executor: Option<string>, leaked: map<string, nat>)
  {
    function Leak(id: string): nat { if id in leaked then leaked[id] else 0 }

    ghost function WithSlot(model: string): set<nat> {
      set r | r in requests && requests[r].model == model && requests[r].stage.HasSlot()
    }

    ghost function InQueue(model: string): set<nat> {
      set r | r in requests && requests[r].model == model && requests[r].stage.Waiting?
    }

    ghost function Lessees(id: string): set<nat> {
      set r | r in requests && requests[r].stage.Lease() == Some(id)
    }

    predicate Slot(model: string, r: nat) {
      r in requests && requests[r].model == model && requests[r].stage.HasSlot()
    }

    predicate Queued(model: string, r: nat) {
      r in requests && requests[r].model == model && requests[r].stage.Waiting?
    }

    ghost predicate SlotsExact(model: string)
      requires model in limiters
    {
      && limiters[model].Exact()
      && (forall r {:trigger Slot(model, r)} :: r in limiters[model].holders <==> Slot(model, r))
      && (forall r {:trigger Queued(model, r)} :: r in limiters[model].waiters <==> Queued(model, r))
    }

    ghost predicate LeaseExact(id: string)
      requires id in leases
    {
      leases[id] == |Lessees(id)| + Holds(executor, id) + Leak(id)
    }

    /** Every slot is accounted for by exactly one holder, and so is every lease that has not leaked. */
    ghost predicate Conserved() {
      && (forall m | m in limiters :: SlotsExact(m))
      && (forall id | id in leases :: LeaseExact(id))
      && (forall r | r in requests ::
            && requests[r].model in limiters
            && (requests[r].stage.Lease().Some? ==> requests[r].stage.Lease().value in leases))
      && (executor.Some? ==> executor.value in leases)
    }
  }

  /** How many leases of an instance a holder has. */
  function Holds(lease: Option<string>, id: string): int { if lease == Some(id) then 1 else 0 }

  /** What `BackendResolver.resolve` comes back with. */
  datatype Resolution = NoBackend | Direct | Leased(id: string) | Raised

  datatype Step =
    | Configure(model: string, maxActive: int, maxQueued: int)   // `get_or_create`
    | Arrive(request: nat, model: string)
    | Wake(request: nat)
    | Timer(request: nat)
    | Expire(request: nat)
    | Cancel(request: nat)            // the coroutine is cancelled from outside while it is queued
    | Resolve(request: nat, outcome: Resolution, lost: Option<string>)   // `lost` was leased, and the answer lost
    | ReleaseOnce(request: nat)       // first call: by the response, the stream or a handler
    | ReleaseAgain(request: nat)      // any later call finds the flag set
    | ReturnLease(request: nat, reached: bool)   // a release that does not reach the registry is only logged
    | FreeSlot(request: nat)
    | TaskLease(id: string)
    | TaskLost(id: string)            // the executor's lease was counted, and the answer lost
    | TaskReturn(reached: bool)
    | Register(id: string)
    | Unregister(id: string)

  ghost predicate At(s: State, r: nat, stage: Stage) {
    r in s.requests && s.requests[r].stage == stage
  }

  ghost predicate Enabled(s: State, step: Step) {
    match step
    case Configure(_, _, _) => true
    case Arrive(r, m) => r !in s.requests && m in s.limiters
    case Wake(r) => At(s, r, Waiting) && InLimiter(s, r, Limiter.Wake(r))
    case Timer(r) => At(s, r, Waiting) && InLimiter(s, r, Limiter.Timer(r))
    case Expire(r) => At(s, r, Waiting) && InLimiter(s, r, Limiter.Expire(r))
    case Cancel(r) => At(s, r, Waiting) && InLimiter(s, r, Limiter.Abandon(r))
    case Resolve(r, outcome, lost) => At(s, r, Resolving)
      && (outcome.Leased? ==> outcome.id in s.leases && lost == None) && (lost.Some? ==> lost.value in s.leases)
    case ReleaseOnce(r) => r in s.requests && s.requests[r].stage.Serving?
    case ReleaseAgain(r) => r in s.requests
      && (s.requests[r].stage.Returning? || s.requests[r].stage.Freeing? || s.requests[r].stage.Closed?)
    case ReturnLease(r, _) => r in s.requests && s.requests[r].stage.Returning?
    case FreeSlot(r) => At(s, r, Freeing) && s.requests[r].model in s.limiters
    case TaskLease(id) => s.executor == None && id in s.leases
    case TaskLost(id) => s.executor == None && id in s.leases
    case TaskReturn(_) => s.executor.Some?
    case Register(id) => id !in s.leases
    case Unregister(id) => id in s.leases && s.Lessees(id) == {} && s.executor != Some(id)
  }

  ghost predicate InLimiter(s: State, r: nat, step: Limiter.Step) {
    && r in s.requests && s.requests[r].model in s.limiters
    && Limiter.Enabled(s.limiters[s.requests[r].model], step)
  }

  /** `adjust_active_requests`; an unknown instance is an error that the caller only logs. */
  function Adjust(leases: map<string, int>, id: string, delta: int): map<string, int> {
    if id in leases then leases[id := Limiter.Max(0, leases[id] + delta)] else leases
  }

  function MoveTo(s: State, r: nat, stage: Stage): State
    requires r in s.requests
  {
    s.(requests := s.requests[r := s.requests[r].(stage := stage)])
  }

  /** One step of request `r` in the limiter of its model. */
  function Limited(s: State, r: nat, step: Limiter.Step): State
    requires r in s.requests && s.requests[r].model in s.limiters
  {
    var m := s.requests[r].model;
    s.(limiters := s.limiters[m := Limiter.Apply(s.limiters[m], step)])
  }

  function ConfigureStep(s: State, m: string, a: int, q: int): State {
    s.(limiters := s.limiters[m := if m in s.limiters
                                   then Limiter.Apply(s.limiters[m], Limiter.SetLimits(a, q))
                                   else Limiter.Init(a, q)])
  }

  function ArriveStep(s: State, r: nat, m: string): State
    requires m in s.limiters
  {
    var l := Limiter.Apply(s.limiters[m], Limiter.Enter(r));
    s.(limiters := s.limiters[m := l],
       requests :=
         s.requests[r := Request(m, if r in l.holders then Resolving else if r in l.waiters then Waiting else Closed)])
  }

  function WakeStep(s: State, r: nat): State
    requires r in s.requests && s.requests[r].model in s.limiters
  {
    var t := Limited(s, r, Limiter.Wake(r));
    if r in t.limiters[s.requests[r].model].holders then MoveTo(t, r, Resolving) else t
  }

  /** One lease of this instance, if it is one, is counted from now on without anybody holding it. */
  function Leaking(s: State, lease: Option<string>): State {
    if lease.Some? then s.(leaked := s.leaked[lease.value := s.Leak(lease.value) + 1]) else s
  }

  /** The registry counts one lease more of an instance, if it is one. */
  function Counted(s: State, lease: Option<string>): State {
    if lease.Some? then s.(leases := Adjust(s.leases, lease.value, 1)) else s
  }

  function Uncounted(s: State, lease: Option<string>): State {
    if lease.Some? then s.(leases := Adjust(s.leases, lease.value, -1)) else s
  }

  function ResolveStep(s: State, r: nat, outcome: Resolution, lost: Option<string>): State
    requires r in s.requests
  {
    var t := Leaking(Counted(s, lost), lost);
    match outcome
    case NoBackend => MoveTo(t, r, Freeing)
    case Raised => MoveTo(t, r, Returning(None))
    case Direct => MoveTo(t, r, Serving(None))
    case Leased(id) => MoveTo(Counted(t, Some(id)), r, Serving(Some(id)))
  }

  function ReturnStep(s: State, r: nat, reached: bool): State
    requires r in s.requests && s.requests[r].stage.Returning?
  {
    var lease := s.requests[r].stage.lease;
    MoveTo(if reached then Uncounted(s, lease) else Leaking(s, lease), r, Freeing)
  }

  function TaskReturnStep(s: State, reached: bool): State {
    var t := if reached then Uncounted(s, s.executor) else Leaking(s, s.executor);
    t.(executor := None)
  }

  ghost function Apply(s: State, step: Step): State
    requires Enabled(s, step)
  {
    match step
    case Configure(m, a, q) => ConfigureStep(s, m, a, q)
    case Arrive(r, m) => ArriveStep(s, r, m)
    case Wake(r) => WakeStep(s, r)
    case Timer(r) => Limited(s, r, Limiter.Timer(r))
    case Expire(r) => MoveTo(Limited(s, r, Limiter.Expire(r)), r, Closed)
    case Cancel(r) => MoveTo(Limited(s, r, Limiter.Abandon(r)), r, Closed)
    case Resolve(r, outcome, lost) => ResolveStep(s, r, outcome, lost)
    case ReleaseOnce(r) => MoveTo(s, r, Returning(s.requests[r].stage.lease))
    case ReleaseAgain(_) => s
    case ReturnLease(r, reached) => ReturnStep(s, r, reached)
    case FreeSlot(r) => MoveTo(Limited(s, r, Limiter.Leave(r)), r, Closed)
    case TaskLease(id) => Counted(s, Some(id)).(executor := Some(id))
    case TaskLost(id) => Leaking(Counted(s, Some(id)), Some(id))
    case TaskReturn(reached) => TaskReturnStep(s, reached)
    case Register(id) => s.(leases := s.leases[id := 0], leaked := s.leaked[id := 0])
    case Unregister(id) => s.(leases := s.leases - {id}, leaked := s.leaked - {id})
  }

  // ---- leases -----------------------------------------------------------------------------

  function LeaseOf(s: State, r: nat): Option<string> {
    if r in s.requests then s.requests[r].stage.Lease() else None
  }

  /** Every lease count is exact and every lease names a registered instance. */
  ghost predicate LeasesOk(s: State) {
    && (forall id | id in s.leases :: s.LeaseExact(id))
    && (forall r | r in s.requests :: LeaseOf(s, r).Some? ==> LeaseOf(s, r).value in s.leases)
    && (s.executor.Some? ==> s.executor.value in s.leases)
  }

  /** Only request `r` may have changed what it leases. */
  ghost predicate OnlyLeaseOf(s: State, t: State, r: nat) {
    forall x | x != r :: LeaseOf(t, x) == LeaseOf(s, x)
  }

  lemma {:induction false} LesseesAre(s: State, id: string)
    ensures forall x :: x in s.Lessees(id) <==> LeaseOf(s, x) == Some(id)
  {
  }

  lemma {:induction false} LesseesChange(s: State, t: State, r: nat, id: string)
    requires OnlyLeaseOf(s, t, r)
    ensures |t.Lessees(id)| == |s.Lessees(id)|
      - (if LeaseOf(s, r) == Some(id) then 1 else 0) + (if LeaseOf(t, r) == Some(id) then 1 else 0)
  {
    LesseesAre(s, id);
    LesseesAre(t, id);
    hide State.Lessees, LeaseOf;
    var others := s.Lessees(id) - {r};
    assert others == t.Lessees(id) - {r};
    assert s.Lessees(id) == if LeaseOf(s, r) == Some(id) then others + {r} else others;
    assert t.Lessees(id) == if LeaseOf(t, r) == Some(id) then others + {r} else others;
  }

  /** The count of an instance moves with its holders and its leaks. */
  predicate Balanced(s: State, t: State, r: nat, id: string)
    requires id in s.leases && id in t.leases
  {
    t.leases[id] - s.leases[id]
    == Holds(LeaseOf(t, r), id) - Holds(LeaseOf(s, r), id) + Holds(t.executor, id) - Holds(s.executor, id)
       + t.Leak(id) - s.Leak(id)
  }

  /** `r` or the executor takes a lease, gives one back, or lets one leak. */
  lemma {:induction false} LeasesMove(s: State, t: State, r: nat)
    requires LeasesOk(s) && OnlyLeaseOf(s, t, r) && t.leases.Keys == s.leases.Keys
    requires forall id | id in s.leases :: Balanced(s, t, r, id)
    requires LeaseOf(t, r).Some? ==> LeaseOf(t, r).value in s.leases
    requires t.executor.Some? ==> t.executor.value in s.leases
    ensures LeasesOk(t)
  {
    forall id { LesseesChange(s, t, r, id); }
    forall id | id in t.leases ensures t.LeaseExact(id) {
      assert id in s.leases && s.LeaseExact(id) && Balanced(s, t, r, id);
    }
    forall x | x in t.requests && LeaseOf(t, x).Some? ensures LeaseOf(t, x).value in t.leases {
      if x != r { assert LeaseOf(t, x) == LeaseOf(s, x); }
    }
    hide State.Lessees, OnlyLeaseOf;
  }

  /** What is held is counted. */
  lemma {:induction false} HeldIsCounted(s: State, r: nat, id: string)
    requires id in s.leases && s.LeaseExact(id)
    ensures s.leases[id] >= Holds(LeaseOf(s, r), id) + Holds(s.executor, id) + s.Leak(id)
  {
    LesseesAre(s, id);
    if LeaseOf(s, r) == Some(id) { assert s.Lessees(id) == (s.Lessees(id) - {r}) + {r}; }
  }

  lemma {:induction false} Registered(s: State, id: string)
    requires LeasesOk(s) && id !in s.leases
    ensures LeasesOk(s.(leases := s.leases[id := 0], leaked := s.leaked[id := 0]))
  {
    var t := s.(leases := s.leases[id := 0], leaked := s.leaked[id := 0]);
    assert forall r :: LeaseOf(t, r) == LeaseOf(s, r);
    LesseesAre(t, id);
    assert t.Lessees(id) == {};
    forall x | x in s.leases ensures t.LeaseExact(x) {
      assert t.Lessees(x) == s.Lessees(x);
      assert s.LeaseExact(x);
    }
  }

  lemma {:induction false} Unregistered(s: State, id: string)
    requires LeasesOk(s) && id in s.leases && s.Lessees(id) == {} && s.executor != Some(id)
    ensures LeasesOk(s.(leases := s.leases - {id}, leaked := s.leaked - {id}))
  {
    var t := s.(leases := s.leases - {id}, leaked := s.leaked - {id});
    LesseesAre(s, id);
    assert forall r :: LeaseOf(t, r) == LeaseOf(s, r) && LeaseOf(s, r) != Some(id);
    forall x | x in t.leases ensures t.LeaseExact(x) {
      assert t.Lessees(x) == s.Lessees(x);
      assert s.LeaseExact(x);
    }
  }

  // ---- slots ------------------------------------------------------------------------------

  /** Every limiter counts exactly its requests. */
  ghost predicate SlotsOk(s: State) {
    && (forall m | m in s.limiters :: s.SlotsExact(m))
    && (forall r | r in s.requests :: s.requests[r].model in s.limiters)
  }

  /** Only request `r` may have moved. */
  ghost predicate OnlyMoved(s: State, t: State, r: nat) {
    forall x | x != r :: (x in t.requests <==> x in s.requests) && (x in s.requests ==> t.requests[x] == s.requests[x])
  }

  /** Only caller `r` may have moved inside its limiter, which stays exact. */
  ghost predicate Moved(l: Limiter.State, k: Limiter.State, r: nat) {
    && k.Exact()
    && k.holders - {r} == l.holders - {r}
    && k.waiters.Keys - {r} == l.waiters.Keys - {r}
  }

  /** The new stage of a request says where its limiter now has it. */
  ghost predicate Placed(k: Limiter.State, r: nat, stage: Stage) {
    (stage.HasSlot() <==> r in k.holders) && (stage.Waiting? <==> r in k.waiters)
  }

  /** The limiter of `r` after its request has moved there. */
  lemma {:induction false} OwnSlots(s: State, t: State, r: nat, m: string)
    requires m in s.limiters && s.SlotsExact(m) && m in t.limiters
    requires OnlyMoved(s, t, r) && r in t.requests && t.requests[r].model == m
    requires Moved(s.limiters[m], t.limiters[m], r) && Placed(t.limiters[m], r, t.requests[r].stage)
    ensures t.SlotsExact(m)
  {
    hide Limiter.State.Exact, Stage.HasSlot;
    var l, k := s.limiters[m], t.limiters[m];
    forall x ensures x in k.holders <==> t.Slot(m, x) {
      if x != r { assert x in k.holders - {r} <==> x in l.holders - {r}; assert t.Slot(m, x) <==> s.Slot(m, x); }
    }
    forall x ensures x in k.waiters <==> t.Queued(m, x) {
      if x != r {
        assert x in k.waiters.Keys - {r} <==> x in l.waiters.Keys - {r};
        assert t.Queued(m, x) <==> s.Queued(m, x);
      }
    }
  }

  /** Every other limiter. */
  lemma {:induction false} OtherSlots(s: State, t: State, r: nat, n: string)
    requires n in s.limiters && s.SlotsExact(n) && n in t.limiters && t.limiters[n] == s.limiters[n]
    requires OnlyMoved(s, t, r) && r in t.requests && t.requests[r].model != n
    requires r in s.requests ==> s.requests[r].model != n
    ensures t.SlotsExact(n)
  {
    hide Limiter.State.Exact, Stage.HasSlot;
    assert forall x :: t.Slot(n, x) <==> s.Slot(n, x);
    assert forall x :: t.Queued(n, x) <==> s.Queued(n, x);
  }

  /** The limiters agree except that of `r`, which moved `r` as its request moved. */
  lemma {:induction false} SlotsMove(s: State, t: State, r: nat, m: string)
    requires SlotsOk(s) && OnlyMoved(s, t, r) && m in s.limiters
    requires r in t.requests && t.requests[r].model == m && (r in s.requests ==> s.requests[r].model == m)
    requires t.limiters.Keys == s.limiters.Keys
    requires forall n | n in s.limiters && n != m :: t.limiters[n] == s.limiters[n]
    requires Moved(s.limiters[m], t.limiters[m], r) && Placed(t.limiters[m], r, t.requests[r].stage)
    ensures SlotsOk(t)
  {
    forall n | n in t.limiters ensures t.SlotsExact(n) {
      assert s.SlotsExact(n);
      hide State.SlotsExact, Moved, Placed;
      if n == m { OwnSlots(s, t, r, m); } else { OtherSlots(s, t, r, n); }
    }
    hide State.SlotsExact, Moved, Placed;
  }

  lemma {:induction false} ConfigureSlots(s: State, m: string, a: int, q: int)
    requires SlotsOk(s)
    ensures SlotsOk(ConfigureStep(s, m, a, q))
  {
    var t := ConfigureStep(s, m, a, q);
    forall n | n in t.limiters ensures t.SlotsExact(n) {
      assert forall x :: (t.Slot(n, x) <==> s.Slot(n, x)) && (t.Queued(n, x) <==> s.Queued(n, x));
      if n in s.limiters {
        assert s.SlotsExact(n);
      } else {
        assert forall x :: !t.Slot(n, x) && !t.Queued(n, x);
      }
    }
  }

  lemma {:induction false} ArriveMoves(l: Limiter.State, r: nat)
    requires l.Exact() && Limiter.Enabled(l, Limiter.Enter(r))
    ensures Moved(l, Limiter.Apply(l, Limiter.Enter(r)), r)
  {
    Limiter.EnterExact(l, r);
  }

  lemma {:induction false} WakeMoves(l: Limiter.State, r: nat)
    requires l.Exact() && Limiter.Enabled(l, Limiter.Wake(r))
    ensures var k := Limiter.Apply(l, Limiter.Wake(r)); Moved(l, k, r) && (r in k.holders <==> r !in k.waiters)
  {
    Limiter.WakeExact(l, r);
  }

  lemma {:induction false} TimerMoves(l: Limiter.State, r: nat)
    requires l.Exact() && Limiter.Enabled(l, Limiter.Timer(r))
    ensures var k := Limiter.Apply(l, Limiter.Timer(r)); Moved(l, k, r) && r in k.waiters && r !in k.holders
  {
    Limiter.TimerExact(l, r);
  }

  lemma {:induction false} ExpireMoves(l: Limiter.State, r: nat)
    requires l.Exact() && Limiter.Enabled(l, Limiter.Expire(r))
    ensures var k := Limiter.Apply(l, Limiter.Expire(r)); Moved(l, k, r) && r !in k.waiters && r !in k.holders
  {
    Limiter.ExpireExact(l, r);
    Limiter.NotifyKeeps(l.waiters - {r});
    hide Limiter.NotifyAll;
  }

  lemma {:induction false} AbandonMoves(l: Limiter.State, r: nat)
    requires l.Exact() && Limiter.Enabled(l, Limiter.Abandon(r))
    ensures var k := Limiter.Apply(l, Limiter.Abandon(r)); Moved(l, k, r) && r !in k.waiters && r !in k.holders
  {
    Limiter.AbandonExact(l, r);
  }

  lemma {:induction false} LeaveMoves(l: Limiter.State, r: nat)
    requires l.Exact() && Limiter.Enabled(l, Limiter.Leave(r))
    ensures var k := Limiter.Apply(l, Limiter.Leave(r)); Moved(l, k, r) && r !in k.waiters && r !in k.holders
    ensures l.active >= 1
  {
    Limiter.LeaveExact(l, r);
    Limiter.ReleaseNeverClamps(l, r);
    Limiter.NotifyKeeps(l.waiters);
    hide Limiter.NotifyAll;
  }

  /** Where the limiter of a request has it. */
  lemma {:induction false} IsPlaced(s: State, r: nat)
    requires SlotsOk(s) && r in s.requests
    ensures s.requests[r].model in s.limiters && s.SlotsExact(s.requests[r].model)
    ensures Placed(s.limiters[s.requests[r].model], r, s.requests[r].stage)
  {
    var m := s.requests[r].model;
    assert s.SlotsExact(m) && (s.Slot(m, r) || !s.Slot(m, r)) && (s.Queued(m, r) || !s.Queued(m, r));
    hide Stage.HasSlot;
  }

  lemma {:induction false} ArriveSlots(s: State, r: nat, m: string)
    requires SlotsOk(s) && r !in s.requests && m in s.limiters
    ensures SlotsOk(ArriveStep(s, r, m))
  {
    var l, t := s.limiters[m], ArriveStep(s, r, m);
    assert s.SlotsExact(m) && !s.Slot(m, r) && !s.Queued(m, r);
    hide State.Slot, State.Queued, State.SlotsExact, SlotsOk, Limiter.State.Exact, Limiter.Apply;
    ArriveMoves(l, r);
    assert Limiter.Apply(l, Limiter.Enter(r)).Exact();
    assert Placed(t.limiters[m], r, t.requests[r].stage) by { ExactApart(t.limiters[m], r); }
    hide Moved, Placed;
    SlotsMove(s, t, r, m);
  }

  lemma {:induction false} ExactApart(l: Limiter.State, r: nat)
    requires l.Exact()
    ensures !(r in l.holders && r in l.waiters)
  {
    assert !(r in l.holders && r in l.waiters.Keys);
  }

  /** A step inside the limiter of `r`, after which the request is where the limiter says. */
  lemma {:induction false} LimitedSlots(s: State, t: State, r: nat, k: Limiter.State, stage: Stage)
    requires SlotsOk(s) && r in s.requests && s.requests[r].model in s.limiters
    requires t == MoveTo(s.(limiters := s.limiters[s.requests[r].model := k]), r, stage)
    requires Moved(s.limiters[s.requests[r].model], k, r) && Placed(k, r, stage)
    ensures SlotsOk(t)
  {
    hide SlotsOk, Moved, Placed;
    SlotsMove(s, t, r, s.requests[r].model);
  }

  lemma {:induction false} SameStage(s: State, r: nat)
    requires r in s.requests
    ensures MoveTo(s, r, s.requests[r].stage) == s
  {
    assert s.requests[r := s.requests[r]] == s.requests;
  }

  lemma {:induction false} WakeSlots(s: State, r: nat)
    requires SlotsOk(s) && At(s, r, Waiting) && InLimiter(s, r, Limiter.Wake(r))
    ensures SlotsOk(WakeStep(s, r))
  {
    var l := s.limiters[s.requests[r].model];
    IsPlaced(s, r);
    hide SlotsOk, Limiter.Apply, Limiter.Enabled;
    WakeMoves(l, r);
    var k := Limiter.Apply(l, Limiter.Wake(r));
    SameStage(Limited(s, r, Limiter.Wake(r)), r);
    LimitedSlots(s, WakeStep(s, r), r, k, if r in k.holders then Resolving else Waiting);
  }

  lemma {:induction false} TimerSlots(s: State, r: nat)
    requires SlotsOk(s) && At(s, r, Waiting) && InLimiter(s, r, Limiter.Timer(r))
    ensures SlotsOk(Limited(s, r, Limiter.Timer(r)))
  {
    var l := s.limiters[s.requests[r].model];
    IsPlaced(s, r);
    hide SlotsOk, Limiter.Apply, Limiter.Enabled;
    TimerMoves(l, r);
    SameStage(Limited(s, r, Limiter.Timer(r)), r);
    LimitedSlots(s, Limited(s, r, Limiter.Timer(r)), r, Limiter.Apply(l, Limiter.Timer(r)), Waiting);
  }

  lemma {:induction false} ExpireSlots(s: State, r: nat)
    requires SlotsOk(s) && At(s, r, Waiting) && InLimiter(s, r, Limiter.Expire(r))
    ensures SlotsOk(MoveTo(Limited(s, r, Limiter.Expire(r)), r, Closed))
  {
    var l := s.limiters[s.requests[r].model];
    IsPlaced(s, r);
    hide SlotsOk, Limiter.Apply, Limiter.Enabled;
    ExpireMoves(l, r);
    LimitedSlots(s, MoveTo(Limited(s, r, Limiter.Expire(r)), r, Closed), r, Limiter.Apply(l, Limiter.Expire(r)),
                 Closed);
  }

  lemma {:induction false} CancelSlots(s: State, r: nat)
    requires SlotsOk(s) && At(s, r, Waiting) && InLimiter(s, r, Limiter.Abandon(r))
    ensures SlotsOk(MoveTo(Limited(s, r, Limiter.Abandon(r)), r, Closed))
  {
    var l := s.limiters[s.requests[r].model];
    IsPlaced(s, r);
    hide SlotsOk, Limiter.Apply, Limiter.Enabled;
    AbandonMoves(l, r);
    LimitedSlots(s, MoveTo(Limited(s, r, Limiter.Abandon(r)), r, Closed), r, Limiter.Apply(l, Limiter.Abandon(r)),
                 Closed);
  }

  /** The clamp in `release` never acts. */
  lemma {:induction false} FreeSlots(s: State, r: nat)
    requires SlotsOk(s) && At(s, r, Freeing)
    ensures s.requests[r].model in s.limiters && s.limiters[s.requests[r].model].active >= 1
    ensures SlotsOk(MoveTo(Limited(s, r, Limiter.Leave(r)), r, Closed))
  {
    var l, k := HolderLeaves(s, r);
    assert MoveTo(Limited(s, r, Limiter.Leave(r)), r, Closed)
      == MoveTo(s.(limiters := s.limiters[s.requests[r].model := k]), r, Closed);
    hide *;
    LimitedSlots(s, MoveTo(Limited(s, r, Limiter.Leave(r)), r, Closed), r, k, Closed);
  }

  lemma {:induction false} HolderLeaves(s: State, r: nat) returns (l: Limiter.State, k: Limiter.State)
    requires SlotsOk(s) && At(s, r, Freeing)
    ensures r in s.requests && s.requests[r].model in s.limiters
    ensures l == s.limiters[s.requests[r].model] && k == Limiter.Apply(l, Limiter.Leave(r))
    ensures Moved(l, k, r) && Placed(k, r, Closed) && l.active >= 1
  {
    IsPlaced(s, r);
    l := s.limiters[s.requests[r].model];
    k := Limiter.Apply(l, Limiter.Leave(r));
    hide SlotsOk, Limiter.Apply, Limiter.State.Exact, Moved;
    LeaveMoves(l, r);
  }

  /** A request that keeps its slot while it moves on; leases do not matter here. */
  lemma {:induction false} SlotKept(s: State, t: State, r: nat)
    requires SlotsOk(s) && r in s.requests && t.limiters == s.limiters && r in t.requests
    requires t.requests == s.requests[r := s.requests[r].(stage := t.requests[r].stage)]
    requires s.requests[r].stage.HasSlot() && t.requests[r].stage.HasSlot()
    ensures SlotsOk(t)
  {
    var m := s.requests[r].model;
    IsPlaced(s, r);
    assert Moved(s.limiters[m], s.limiters[m], r) && Placed(s.limiters[m], r, t.requests[r].stage);
    hide SlotsOk, Moved, Placed, State.SlotsExact;
    SlotsMove(s, t, r, m);
  }

  // ---- every step -------------------------------------------------------------------------

  /** The steps between a request's acquisition and its release leave the limiters alone. */
  lemma {:induction false} HoldingSlots(s: State, step: Step)
    requires SlotsOk(s) && Enabled(s, step)
    requires step.Resolve? || step.ReleaseOnce? || step.ReturnLease?
    ensures SlotsOk(Apply(s, step))
  {
    var r, t := step.request, Apply(s, step);
    OnlyStage(s, step);
    hide SlotsOk, Apply, Enabled;
    SlotKept(s, t, r);
  }

  lemma {:induction false} OnlyStage(s: State, step: Step)
    requires Enabled(s, step)
    requires step.Resolve? || step.ReleaseOnce? || step.ReturnLease?
    ensures var r, t := step.request, Apply(s, step);
      && r in s.requests && r in t.requests && t.limiters == s.limiters
      && t.requests == s.requests[r := s.requests[r].(stage := t.requests[r].stage)]
      && s.requests[r].stage.HasSlot() && t.requests[r].stage.HasSlot()
  {
    hide InLimiter, Adjust, Limited, ConfigureStep, ArriveStep, WakeStep;
  }

  lemma {:induction false} StepSlots(s: State, step: Step)
    requires s.Conserved() && Enabled(s, step)
    ensures SlotsOk(Apply(s, step))
  {
    assert SlotsOk(s);
    if step.Resolve? || step.ReleaseOnce? || step.ReturnLease? {
      HoldingSlots(s, step);
    } else if OnlyLeases(step) {
      OnlyLeasesIs(s, step);
      hide *;
      SameSlots(s, Apply(s, step));
    } else {
      hide State.Conserved, SlotsOk, ConfigureStep, ArriveStep, WakeStep, Limited, MoveTo, InLimiter;
      match step
      case Configure(m, a, q) => ConfigureSlots(s, m, a, q);
      case Arrive(r, m) => ArriveSlots(s, r, m);
      case Wake(r) => WakeSlots(s, r);
      case Timer(r) => TimerSlots(s, r);
      case Expire(r) => ExpireSlots(s, r);
      case Cancel(r) => CancelSlots(s, r);
      case FreeSlot(r) => FreeSlots(s, r);
    }
  }

  /** The steps of the executor and of the registry, and a release that comes too late. */
  predicate OnlyLeases(step: Step) {
    step.ReleaseAgain? || step.TaskLease? || step.TaskLost? || step.TaskReturn? || step.Register? || step.Unregister?
  }

  lemma {:induction false} OnlyLeasesIs(s: State, step: Step)
    requires Enabled(s, step) && OnlyLeases(step)
    ensures Apply(s, step).limiters == s.limiters && Apply(s, step).requests == s.requests
  {
    hide Adjust, State.Lessees;
  }

  lemma {:induction false} SameSlots(s: State, t: State)
    requires SlotsOk(s) && t.limiters == s.limiters && t.requests == s.requests
    ensures SlotsOk(t)
  {
    forall m | m in t.limiters ensures t.SlotsExact(m) {
      assert s.SlotsExact(m);
      assert forall x :: (t.Slot(m, x) <==> s.Slot(m, x)) && (t.Queued(m, x) <==> s.Queued(m, x));
    }
  }

  /** The request a step belongs to; any request for the executor's and the registry's steps. */
  function Mover(step: Step): nat {
    match step
    case Arrive(r, _) => r
    case Wake(r) => r
    case Timer(r) => r
    case Expire(r) => r
    case Cancel(r) => r
    case Resolve(r, _, _) => r
    case ReleaseOnce(r) => r
    case ReleaseAgain(r) => r
    case ReturnLease(r, _) => r
    case FreeSlot(r) => r
    case _ => 0
  }

  /** The steps that take no lease, return none, and register and unregister nothing. */
  predicate LeasesNothing(step: Step) {
    && !step.Resolve? && !step.ReturnLease? && !step.TaskLease? && !step.TaskLost? && !step.TaskReturn?
    && !step.Register? && !step.Unregister?
  }

  lemma {:induction false} StepMoves(s: State, step: Step)
    requires s.Conserved() && Enabled(s, step)
    ensures OnlyLeaseOf(s, Apply(s, step), Mover(step))
    ensures !step.Resolve? && !step.ReturnLease? ==> LeaseOf(Apply(s, step), Mover(step)) == LeaseOf(s, Mover(step))
    ensures LeasesNothing(step) ==>
      var t := Apply(s, step); t.leases == s.leases && t.executor == s.executor && t.leaked == s.leaked
  {
    hide *;
    MovesOne(s, step);
    MoverKeeps(s, step);
    CountsKept(s, step);
  }

  lemma {:induction false} MovesOne(s: State, step: Step)
    requires Enabled(s, step)
    ensures OnlyLeaseOf(s, Apply(s, step), Mover(step))
  {
    hide Limiter.Apply, Limiter.Enabled, Adjust, State.Lessees, InLimiter;
  }

  lemma {:induction false} MoverKeeps(s: State, step: Step)
    requires s.Conserved() && Enabled(s, step)
    ensures !step.Resolve? && !step.ReturnLease? ==> LeaseOf(Apply(s, step), Mover(step)) == LeaseOf(s, Mover(step))
  {
    if step.FreeSlot? || step.Wake? || step.Expire? || step.Cancel? || step.Timer? || step.Arrive? {
      hide State.Conserved, Limiter.Apply, Limiter.Enabled, Adjust, State.Lessees;
    } else {
      hide State.Conserved, Limiter.Apply, Limiter.Enabled, Adjust, State.Lessees, InLimiter, Limited, WakeStep,
        ArriveStep;
    }
  }

  lemma {:induction false} CountsKept(s: State, step: Step)
    requires Enabled(s, step)
    ensures LeasesNothing(step) ==>
      var t := Apply(s, step); t.leases == s.leases && t.executor == s.executor && t.leaked == s.leaked
  {
    hide Limiter.Apply, Limiter.Enabled, Adjust, State.Lessees, InLimiter;
  }

  /** A lost answer: one lease more, counted and leaked. */
  lemma {:induction false} LoseLease(s: State, lost: Option<string>)
    requires LeasesOk(s) && (lost.Some? ==> lost.value in s.leases)
    ensures var t := Leaking(Counted(s, lost), lost);
      LeasesOk(t) && t.leases.Keys == s.leases.Keys && t.requests == s.requests && t.executor == s.executor
  {
    var t := Leaking(Counted(s, lost), lost);
    assert OnlyLeaseOf(s, t, 0) && LeaseOf(t, 0) == LeaseOf(s, 0) && t.leases.Keys == s.leases.Keys;
    assert LeaseOf(s, 0).Some? ==> LeaseOf(s, 0).value in s.leases;
    forall id | id in s.leases ensures Balanced(s, t, 0, id) {
      assert s.LeaseExact(id);
      HeldIsCounted(s, 0, id);
      hide State.LeaseExact, OnlyLeaseOf, LeasesOk, LeaseOf;
    }
    hide OnlyLeaseOf, Adjust, Balanced, LeaseOf, State.LeaseExact;
    LeasesMove(s, t, 0);
  }

  /** A request goes on with the lease it was granted, if any. */
  lemma {:induction false} GrantLease(s: State, r: nat, lease: Option<string>, stage: Stage)
    requires LeasesOk(s) && r in s.requests && LeaseOf(s, r) == None && (lease.Some? ==> lease.value in s.leases)
    requires stage.Lease() == lease
    ensures LeasesOk(MoveTo(Counted(s, lease), r, stage))
  {
    var t := MoveTo(Counted(s, lease), r, stage);
    assert OnlyLeaseOf(s, t, r) && LeaseOf(t, r) == lease && t.leases.Keys == s.leases.Keys;
    assert t.executor == s.executor && t.leaked == s.leaked;
    forall id | id in s.leases ensures Balanced(s, t, r, id) {
      assert s.LeaseExact(id);
      HeldIsCounted(s, r, id);
      hide State.LeaseExact, OnlyLeaseOf, LeasesOk, LeaseOf;
    }
    hide OnlyLeaseOf, Adjust, Balanced, LeaseOf, State.LeaseExact;
    LeasesMove(s, t, r);
  }

  lemma {:induction false} ResolveLeases(s: State, r: nat, outcome: Resolution, lost: Option<string>)
    requires LeasesOk(s) && Enabled(s, Resolve(r, outcome, lost))
    ensures LeasesOk(ResolveStep(s, r, outcome, lost))
  {
    LoseLease(s, lost);
    var t := Leaking(Counted(s, lost), lost);
    assert r in t.requests && LeaseOf(t, r) == None;
    hide LeasesOk, Counted, Leaking;
    match outcome
    case NoBackend => GrantLease(t, r, None, Freeing); NothingCounted(t);
    case Raised => GrantLease(t, r, None, Returning(None)); NothingCounted(t);
    case Direct => GrantLease(t, r, None, Serving(None)); NothingCounted(t);
    case Leased(id) => GrantLease(t, r, Some(id), Serving(Some(id)));
  }

  lemma {:induction false} NothingCounted(s: State)
    ensures Counted(s, None) == s
  {
  }

  lemma {:induction false} ReturnLeases(s: State, r: nat, reached: bool)
    requires LeasesOk(s) && Enabled(s, ReturnLease(r, reached))
    ensures LeasesOk(ReturnStep(s, r, reached))
    ensures s.requests[r].stage.lease.Some? ==>
      s.requests[r].stage.lease.value in s.leases && s.leases[s.requests[r].stage.lease.value] >= 1
  {
    var t, lease := ReturnStep(s, r, reached), s.requests[r].stage.lease;
    assert OnlyLeaseOf(s, t, r) && t.leases.Keys == s.leases.Keys;
    assert LeaseOf(s, r) == lease && LeaseOf(t, r) == None && (lease.Some? ==> lease.value in s.leases);
    forall id | id in s.leases ensures Balanced(s, t, r, id) && s.leases[id] >= Holds(lease, id) {
      assert s.LeaseExact(id);
      HeldIsCounted(s, r, id);
      hide State.LeaseExact, OnlyLeaseOf, LeasesOk;
    }
    hide LeasesOk, OnlyLeaseOf, Adjust, Balanced;
    LeasesMove(s, t, r);
  }

  /** The executor takes a lease. */
  lemma {:induction false} TaskLeases(s: State, id: string)
    requires LeasesOk(s) && s.executor == None && id in s.leases
    ensures LeasesOk(Counted(s, Some(id)).(executor := Some(id)))
  {
    var t := Counted(s, Some(id)).(executor := Some(id));
    assert OnlyLeaseOf(s, t, 0) && LeaseOf(t, 0) == LeaseOf(s, 0) && t.leases.Keys == s.leases.Keys;
    assert LeaseOf(s, 0).Some? ==> LeaseOf(s, 0).value in s.leases;
    forall x | x in s.leases ensures Balanced(s, t, 0, x) {
      assert s.LeaseExact(x);
      HeldIsCounted(s, 0, x);
      hide State.LeaseExact, OnlyLeaseOf, LeasesOk, LeaseOf;
    }
    hide OnlyLeaseOf, Adjust, Balanced, LeaseOf, State.LeaseExact;
    LeasesMove(s, t, 0);
  }

  /** The executor gives its lease back, or fails to. */
  lemma {:induction false} TaskReturns(s: State, reached: bool)
    requires LeasesOk(s) && s.executor.Some?
    ensures s.executor.value in s.leases && s.leases[s.executor.value] >= 1
    ensures LeasesOk(TaskReturnStep(s, reached))
  {
    var t := TaskReturnStep(s, reached);
    assert OnlyLeaseOf(s, t, 0) && LeaseOf(t, 0) == LeaseOf(s, 0) && t.leases.Keys == s.leases.Keys;
    assert LeaseOf(s, 0).Some? ==> LeaseOf(s, 0).value in s.leases;
    forall x | x in s.leases ensures Balanced(s, t, 0, x) && s.leases[x] >= Holds(s.executor, x) {
      assert s.LeaseExact(x);
      HeldIsCounted(s, 0, x);
      hide State.LeaseExact, OnlyLeaseOf, LeasesOk, LeaseOf;
    }
    hide OnlyLeaseOf, Adjust, Balanced, LeaseOf, State.LeaseExact;
    LeasesMove(s, t, 0);
  }

  /** A step that leases nothing and returns nothing. */
  lemma {:induction false} LeasesStay(s: State, t: State, r: nat)
    requires LeasesOk(s) && OnlyLeaseOf(s, t, r) && LeaseOf(t, r) == LeaseOf(s, r)
    requires t.leases == s.leases && t.executor == s.executor && t.leaked == s.leaked
    ensures LeasesOk(t)
  {
    assert LeaseOf(t, r).Some? ==> LeaseOf(t, r).value in s.leases;
    LeasesMove(s, t, r);
  }

  /** The steps that touch leases, one by one. */
  lemma {:induction false} LeaseStepIs(s: State, step: Step)
    requires Enabled(s, step)
    ensures step.Resolve? ==>
      step.request in s.requests && s.requests[step.request].stage == Resolving
      && Apply(s, step) == ResolveStep(s, step.request, step.outcome, step.lost)
    ensures step.ReturnLease? ==>
      step.request in s.requests && s.requests[step.request].stage.Returning?
      && Apply(s, step) == ReturnStep(s, step.request, step.reached)
    ensures step.TaskLease? ==>
      s.executor == None && step.id in s.leases
      && Apply(s, step) == Counted(s, Some(step.id)).(executor := Some(step.id))
    ensures step.TaskLost? ==>
      step.id in s.leases && Apply(s, step) == Leaking(Counted(s, Some(step.id)), Some(step.id))
    ensures step.TaskReturn? ==> s.executor.Some? && Apply(s, step) == TaskReturnStep(s, step.reached)
    ensures step.Register? ==>
      step.id !in s.leases && Apply(s, step) == s.(leases := s.leases[step.id := 0], leaked := s.leaked[step.id := 0])
    ensures step.Unregister? ==>
      step.id in s.leases && s.Lessees(step.id) == {} && s.executor != Some(step.id)
      && Apply(s, step) == s.(leases := s.leases - {step.id}, leaked := s.leaked - {step.id})
  {
    hide ResolveStep, ReturnStep, TaskReturnStep, Counted, Leaking, State.Lessees, ConfigureStep, ArriveStep, WakeStep,
      Limited, MoveTo, InLimiter;
  }

  lemma {:induction false} StepLeases(s: State, step: Step)
    requires s.Conserved() && Enabled(s, step)
    ensures LeasesOk(Apply(s, step))
  {
    assert LeasesOk(s);
    LeaseStepIs(s, step);
    StepMoves(s, step);
    hide *;
    match step
    case Resolve(r, outcome, lost) => ResolveLeases(s, r, outcome, lost);
    case ReturnLease(r, reached) => ReturnLeases(s, r, reached);
    case TaskLease(id) => TaskLeases(s, id);
    case TaskLost(id) => LoseLease(s, Some(id));
    case TaskReturn(reached) => TaskReturns(s, reached);
    case Register(id) => Registered(s, id);
    case Unregister(id) => Unregistered(s, id);
    case _ => NothingLeased(step); LeasesStay(s, Apply(s, step), Mover(step));
  }

  lemma {:induction false} NothingLeased(step: Step)
    requires !step.Resolve? && !step.ReturnLease? && !step.TaskLease? && !step.TaskLost? && !step.TaskReturn?
    requires !step.Register? && !step.Unregister?
    ensures LeasesNothing(step)
  {
  }

  /** Every slot and every lease stays accounted for, whatever the requests and the executor do. */
  lemma {:induction false} StepConserves(s: State, step: Step)
    requires s.Conserved() && Enabled(s, step)
    ensures Apply(s, step).Conserved()
  {
    StepSlots(s, step);
    StepLeases(s, step);
    hide Apply, Enabled, State.SlotsExact, State.LeaseExact;
  }

  /** Neither `max(0, ...)` ever acts: whatever is given back was counted. */
  lemma {:induction false} NothingIsClamped(s: State, step: Step)
    requires s.Conserved() && Enabled(s, step)
    ensures step.FreeSlot? ==> s.limiters[s.requests[step.request].model].active >= 1
    ensures step.ReturnLease? && s.requests[step.request].stage.lease.Some? ==>
      s.leases[s.requests[step.request].stage.lease.value] >= 1
    ensures step.TaskReturn? ==> s.leases[s.executor.value] >= 1
  {
    if step.FreeSlot? { FreeSlots(s, step.request); }
    if step.ReturnLease? { ReturnLeases(s, step.request, step.reached); }
    if step.TaskReturn? { TaskReturns(s, step.reached); }
    hide Apply, State.SlotsExact, State.LeaseExact;
  }

  /** The counters are the numbers of those they stand for, and of those that have leaked. */
  lemma {:induction false} CountersAre(s: State, model: string, id: string)
    requires s.Conserved()
    ensures model in s.limiters ==>
      && s.limiters[model].active == |s.WithSlot(model)|
      && s.limiters[model].queued == |s.InQueue(model)| + s.limiters[model].abandoned
    ensures id in s.leases ==> s.leases[id] == |s.Lessees(id)| + Holds(s.executor, id) + s.Leak(id)
  {
    if id in s.leases { assert s.LeaseExact(id); }
    if model in s.limiters {
      var l := s.limiters[model];
      assert s.SlotsExact(model);
      assert forall r :: r in s.WithSlot(model) <==> s.Slot(model, r);
      assert forall r :: r in s.InQueue(model) <==> s.Queued(model, r);
      hide State.WithSlot, State.InQueue, State.Slot, State.Queued;
      assert l.holders == s.WithSlot(model);
      assert l.waiters.Keys == s.InQueue(model);
    }
  }

  const START := State(map[], map[], map[], None, map[])

  ghost predicate IsRun(states: seq<State>, steps: seq<Step>) {
    && |states| == |steps| + 1 && states[0] == START
    && (forall i | 0 <= i < |steps| :: Enabled(states[i], steps[i]) && states[i + 1] == Apply(states[i], steps[i]))
  }

  /** In every run, under any interleaving, every counter is exact at every step. */
  lemma {:induction false} RunConserves(states: seq<State>, steps: seq<Step>, i: nat)
    requires IsRun(states, steps) && i < |states|
    ensures states[i].Conserved()
  {
    if i > 0 {
      RunConserves(states, steps, i - 1);
      assert Enabled(states[i - 1], steps[i - 1]) && states[i] == Apply(states[i - 1], steps[i - 1]);
      hide Apply, Enabled, State.Conserved;
      StepConserves(states[i - 1], steps[i - 1]);
    }
  }

  // ---- what leaks -------------------------------------------------------------------------

  /** The step leaves a lease of this instance counted that nobody holds: a lost answer, or a release that fails. */
  predicate LeaksLease(s: State, step: Step, id: string) {
    match step
    case Resolve(_, _, lost) => lost == Some(id)
    case TaskLost(x) => x == id
    case ReturnLease(r, reached) => !reached && LeaseOf(s, r) == Some(id)
    case TaskReturn(reached) => !reached && s.executor == Some(id)
    case _ => false
  }

  /** The step leaves a place in the queue of this model that nobody waits in. */
  predicate LeaksPlace(s: State, step: Step, model: string) {
    step.Cancel? && step.request in s.requests && s.requests[step.request].model == model
  }

  lemma {:induction false} StepLeaksLease(s: State, step: Step, id: string)
    requires s.Conserved() && Enabled(s, step) && id in Apply(s, step).leases
    ensures step == Register(id) ==> Apply(s, step).Leak(id) == 0
    ensures step != Register(id) ==>
      id in s.leases && Apply(s, step).Leak(id) == s.Leak(id) + if LeaksLease(s, step, id) then 1 else 0
  {
    hide *;
    LeaksIs(s, step, id);
    if step.Register? || step.Unregister? {
      LeaseStepIs(s, step);
      RegisterLeak(s, step.id, id);
    } else if step.Resolve? || step.ReturnLease? || step.TaskLease? || step.TaskLost? || step.TaskReturn? {
      LeaseStepLeaks(s, step, id);
    } else {
      StepMoves(s, step);
      NothingLeased(step);
      SameLeak(s, Apply(s, step), id);
    }
  }

  /** What a step leaks is added to what has leaked. */
  lemma {:induction false} LeaseStepLeaks(s: State, step: Step, id: string)
    requires Enabled(s, step)
    requires step.Resolve? || step.ReturnLease? || step.TaskLease? || step.TaskLost? || step.TaskReturn?
    ensures Apply(s, step).leases.Keys == s.leases.Keys
    ensures Apply(s, step).Leak(id) == s.Leak(id) + if LeaksLease(s, step, id) then 1 else 0
  {
    hide *;
    LeaseStepIs(s, step);
    LeaksIs(s, step, id);
    match step
    case Resolve(r, outcome, lost) => ResolveLeak(s, r, outcome, lost, id);
    case ReturnLease(r, reached) => ReturnLeak(s, r, reached, id);
    case TaskLease(x) =>
      CountedLeak(s, Some(x), id);
      SameLeak(Counted(s, Some(x)), Counted(s, Some(x)).(executor := Some(x)), id);
    case TaskLost(x) => LeakingLeak(Counted(s, Some(x)), Some(x), id); CountedLeak(s, Some(x), id);
    case TaskReturn(reached) => TaskReturnLeak(s, reached, id);
  }

  /** How many leases of an instance a step leaks. */
  lemma {:induction false} LeaksIs(s: State, step: Step, id: string)
    ensures (if LeaksLease(s, step, id) then 1 else 0) ==
      match step
      case Resolve(_, _, lost) => Holds(lost, id)
      case TaskLost(x) => Holds(Some(x), id)
      case ReturnLease(r, reached) => if reached then 0 else Holds(LeaseOf(s, r), id)
      case TaskReturn(reached) => if reached then 0 else Holds(s.executor, id)
      case _ => 0
  {
    hide LeaseOf;
  }

  lemma {:induction false} RegisterLeak(s: State, x: string, id: string)
    ensures s.(leases := s.leases[x := 0], leaked := s.leaked[x := 0]).Leak(id) == if id == x then 0 else s.Leak(id)
    ensures id != x ==> s.(leases := s.leases - {x}, leaked := s.leaked - {x}).Leak(id) == s.Leak(id)
  {
  }

  lemma {:induction false} CountedLeak(s: State, lease: Option<string>, id: string)
    ensures Counted(s, lease).Leak(id) == s.Leak(id) && Uncounted(s, lease).Leak(id) == s.Leak(id)
    ensures Counted(s, lease).leases.Keys == s.leases.Keys == Uncounted(s, lease).leases.Keys
    ensures Counted(s, lease).requests == s.requests
  {
  }

  lemma {:induction false} LeakingLeak(s: State, lease: Option<string>, id: string)
    ensures Leaking(s, lease).Leak(id) == s.Leak(id) + Holds(lease, id) && Leaking(s, lease).leases == s.leases
    ensures Leaking(s, lease).requests == s.requests
  {
  }

  lemma {:induction false} ResolveLeak(s: State, r: nat, outcome: Resolution, lost: Option<string>, id: string)
    requires r in s.requests
    ensures var t := ResolveStep(s, r, outcome, lost);
      t.Leak(id) == s.Leak(id) + Holds(lost, id) && t.leases.Keys == s.leases.Keys
  {
    CountedLeak(s, lost, id);
    LeakingLeak(Counted(s, lost), lost, id);
    var t := Leaking(Counted(s, lost), lost);
    hide Counted, Leaking;
    if outcome.Leased? { CountedLeak(t, Some(outcome.id), id); }
  }

  lemma {:induction false} ReturnLeak(s: State, r: nat, reached: bool, id: string)
    requires r in s.requests && s.requests[r].stage.Returning?
    ensures var t := ReturnStep(s, r, reached);
      && t.Leak(id) == s.Leak(id) + (if reached then 0 else Holds(LeaseOf(s, r), id))
      && t.leases.Keys == s.leases.Keys
  {
    CountedLeak(s, s.requests[r].stage.lease, id);
    LeakingLeak(s, s.requests[r].stage.lease, id);
    hide Uncounted, Leaking;
  }

  lemma {:induction false} TaskReturnLeak(s: State, reached: bool, id: string)
    ensures var t := TaskReturnStep(s, reached);
      && t.Leak(id) == s.Leak(id) + (if reached then 0 else Holds(s.executor, id)) && t.leases.Keys == s.leases.Keys
  {
    CountedLeak(s, s.executor, id);
    LeakingLeak(s, s.executor, id);
    hide Uncounted, Leaking;
  }

  lemma {:induction false} SameLeak(s: State, t: State, id: string)
    requires t.leaked == s.leaked
    ensures t.Leak(id) == s.Leak(id)
  {
  }

  lemma {:induction false} StepLeaksPlace(s: State, step: Step, model: string)
    requires s.Conserved() && Enabled(s, step) && model in Apply(s, step).limiters
    ensures model !in s.limiters ==> Apply(s, step).limiters[model].abandoned == 0 && !LeaksPlace(s, step, model)
    ensures model in s.limiters ==>
      Apply(s, step).limiters[model].abandoned
      == s.limiters[model].abandoned + if LeaksPlace(s, step, model) then 1 else 0
  {
    if step.Resolve? || step.ReleaseOnce? || step.ReturnLease? {
      OnlyStage(s, step);
      hide Apply, Enabled, State.Conserved;
    } else if OnlyLeases(step) {
      OnlyLeasesIs(s, step);
      hide Apply, Enabled, State.Conserved;
    } else if step.Configure? || step.Arrive? {
      EnterPlace(s, step, model);
      hide Apply, Enabled, State.Conserved;
    } else {
      var lstep := LimitedIs(s, step);
      var m := s.requests[Mover(step)].model;
      AbandonsOnly(s.limiters[m], lstep);
      hide *;
      PlaceIs(s, step, m, model);
    }
  }

  lemma {:induction false} PlaceIs(s: State, step: Step, m: string, model: string)
    requires !step.Configure? && !step.Arrive? && Mover(step) in s.requests && s.requests[Mover(step)].model == m
    requires step.Cancel? ==> Mover(step) == step.request
    ensures LeaksPlace(s, step, model) <==> step.Cancel? && model == m
  {
  }

  lemma {:induction false} EnterPlace(s: State, step: Step, model: string)
    requires Enabled(s, step) && (step.Configure? || step.Arrive?)
    ensures model !in s.limiters && model in Apply(s, step).limiters ==> Apply(s, step).limiters[model].abandoned == 0
    ensures model in s.limiters ==>
      model in Apply(s, step).limiters && Apply(s, step).limiters[model].abandoned == s.limiters[model].abandoned
  {
    forall l, x { AbandonsOnly(l, x); }
    hide Limiter.Apply, State.Lessees, InLimiter;
  }

  /** The other steps are one step of the mover inside its limiter. */
  lemma {:induction false} LimitedIs(s: State, step: Step) returns (lstep: Limiter.Step)
    requires Enabled(s, step) && !OnlyLeases(step) && !step.Configure? && !step.Arrive?
    requires !step.Resolve? && !step.ReleaseOnce? && !step.ReturnLease?
    ensures Mover(step) in s.requests && s.requests[Mover(step)].model in s.limiters
    ensures step.Cancel? ==> Mover(step) == step.request
    ensures lstep.Abandon? <==> step.Cancel?
    ensures var m := s.requests[Mover(step)].model;
      Apply(s, step).limiters == s.limiters[m := Limiter.Apply(s.limiters[m], lstep)]
  {
    lstep := match step
      case Wake(r) => Limiter.Wake(r)
      case Timer(r) => Limiter.Timer(r)
      case Expire(r) => Limiter.Expire(r)
      case Cancel(r) => Limiter.Abandon(r)
      case FreeSlot(r) => Limiter.Leave(r)
      case _ => Limiter.SetLimits(0, 0);
    hide Limiter.Apply, Limiter.Enabled, State.Lessees, Adjust;
  }

  lemma {:induction false} AbandonsOnly(l: Limiter.State, step: Limiter.Step)
    ensures Limiter.Apply(l, step).abandoned == l.abandoned + if step.Abandon? then 1 else 0
  {
  }

  /** No lease of the instance has leaked since it was registered last. */
  ghost predicate KeptLeases(states: seq<State>, steps: seq<Step>, i: nat, id: string)
    requires i <= |steps| < |states|
  {
    forall n | 0 <= n < i && LeaksLease(states[n], steps[n], id) :: exists m :: n < m < i && steps[m] == Register(id)
  }

  lemma {:induction false} KeptStep(states: seq<State>, steps: seq<Step>, i: nat, id: string)
    requires i < |steps| < |states|
    ensures steps[i] == Register(id) ==> KeptLeases(states, steps, i + 1, id)
    ensures steps[i] != Register(id) ==>
      (KeptLeases(states, steps, i + 1, id) <==>
         KeptLeases(states, steps, i, id) && !LeaksLease(states[i], steps[i], id))
  {
    if steps[i] != Register(id) && KeptLeases(states, steps, i + 1, id) {
      forall n | 0 <= n < i && LeaksLease(states[n], steps[n], id)
        ensures exists m :: n < m < i && steps[m] == Register(id)
      {
        var m :| n < m < i + 1 && steps[m] == Register(id);
        assert m != i;
      }
    }
    if steps[i] != Register(id) && KeptLeases(states, steps, i, id) && !LeaksLease(states[i], steps[i], id) {
      forall n | 0 <= n < i + 1 && LeaksLease(states[n], steps[n], id)
        ensures exists m :: n < m < i + 1 && steps[m] == Register(id)
      {
        var m :| n < m < i && steps[m] == Register(id);
      }
    }
    if steps[i] == Register(id) {
      forall n | 0 <= n < i + 1 && LeaksLease(states[n], steps[n], id)
        ensures exists m :: n < m < i + 1 && steps[m] == Register(id)
      {
        assert n < i;
      }
    }
  }

  lemma {:induction false} LeakedIff(states: seq<State>, steps: seq<Step>, i: nat, id: string)
    requires IsRun(states, steps) && i < |states| && id in states[i].leases
    ensures states[i].Leak(id) == 0 <==> KeptLeases(states, steps, i, id)
  {
    if i > 0 {
      RunStep(states, steps, i - 1);
      StepLeaksLease(states[i - 1], steps[i - 1], id);
      KeptStep(states, steps, i - 1, id);
      hide Apply, Enabled, State.Conserved, KeptLeases, LeaksLease;
      if steps[i - 1] != Register(id) { LeakedIff(states, steps, i - 1, id); }
    }
  }

  lemma {:induction false} RunStep(states: seq<State>, steps: seq<Step>, i: nat)
    requires IsRun(states, steps) && i < |steps|
    ensures states[i].Conserved() && Enabled(states[i], steps[i]) && states[i + 1] == Apply(states[i], steps[i])
  {
    RunConserves(states, steps, i);
    hide Apply, Enabled, State.Conserved;
  }

  /** In every run: the lease count of a registered instance is exact iff no lease of it has leaked. */
  lemma {:induction false} LeasesExactIff(states: seq<State>, steps: seq<Step>, i: nat, id: string)
    requires IsRun(states, steps) && i < |states| && id in states[i].leases
    ensures states[i].leases[id] == |states[i].Lessees(id)| + Holds(states[i].executor, id) <==>
      KeptLeases(states, steps, i, id)
  {
    RunConserves(states, steps, i);
    CountersAre(states[i], "", id);
    LeakedIff(states, steps, i, id);
    hide *;
  }

  /** No request for the model has been cancelled in the queue. */
  ghost predicate KeptPlaces(states: seq<State>, steps: seq<Step>, i: nat, model: string)
    requires i <= |steps| < |states|
  {
    forall n | 0 <= n < i :: !LeaksPlace(states[n], steps[n], model)
  }

  lemma {:induction false} AbandonedIff(states: seq<State>, steps: seq<Step>, i: nat, model: string)
    requires IsRun(states, steps) && i < |states| && model in states[i].limiters
    ensures states[i].limiters[model].abandoned == 0 <==> KeptPlaces(states, steps, i, model)
  {
    if i > 0 {
      RunStep(states, steps, i - 1);
      StepLeaksPlace(states[i - 1], steps[i - 1], model);
      if model in states[i - 1].limiters {
        AbandonedIff(states, steps, i - 1, model);
      } else {
        NoPlaceYet(states, steps, i - 1, model);
      }
      hide Apply, Enabled, State.Conserved, LeaksPlace;
    }
  }

  /** Limiters are never removed, so a model without one has never had a request. */
  lemma {:induction false} NoPlaceYet(states: seq<State>, steps: seq<Step>, i: nat, model: string)
    requires IsRun(states, steps) && i < |states| && model !in states[i].limiters
    ensures KeptPlaces(states, steps, i, model)
  {
    if i > 0 {
      RunStep(states, steps, i - 1);
      LimitersStay(states[i - 1], steps[i - 1]);
      NoPlaceYet(states, steps, i - 1, model);
      var s := states[i - 1];
      assert forall r | r in s.requests :: s.requests[r].model in s.limiters;
      hide Apply, Enabled, State.Conserved;
    }
  }

  lemma {:induction false} LimitersStay(s: State, step: Step)
    requires s.Conserved() && Enabled(s, step)
    ensures s.limiters.Keys <= Apply(s, step).limiters.Keys
  {
    hide State.Conserved, Limiter.Apply, Limiter.Enabled, Adjust, State.Lessees;
  }

  /** In every run: the queue of a model counts its waiters iff none of its requests was cancelled in the queue. */
  lemma {:induction false} QueuesExactIff(states: seq<State>, steps: seq<Step>, i: nat, model: string)
    requires IsRun(states, steps) && i < |states| && model in states[i].limiters
    ensures states[i].limiters[model].active == |states[i].WithSlot(model)|
    ensures states[i].limiters[model].queued == |states[i].InQueue(model)| <==> KeptPlaces(states, steps, i, model)
  {
    RunConserves(states, steps, i);
    CountersAre(states[i], model, "");
    AbandonedIff(states, steps, i, model);
    hide *;
  }

  /** Nothing is in flight: every request is over and the executor holds no backend. */
  ghost predicate Quiet(s: State) {
    (forall r | r in s.requests :: s.requests[r].stage.Closed?) && s.executor == None
  }

  /** Whenever nothing is in flight, every slot is free, and the other counters are zero iff nothing has leaked. */
  lemma {:induction false} NothingLeaks(states: seq<State>, steps: seq<Step>, i: nat)
    requires IsRun(states, steps) && i < |states| && Quiet(states[i])
    ensures forall m | m in states[i].limiters ::
      && states[i].limiters[m].active == 0
      && (states[i].limiters[m].queued == 0 <==> KeptPlaces(states, steps, i, m))
    ensures forall id | id in states[i].leases ::
      states[i].leases[id] == 0 <==> KeptLeases(states, steps, i, id)
  {
    var s := states[i];
    forall m | m in s.limiters
      ensures s.limiters[m].active == 0
      ensures s.limiters[m].queued == 0 <==> KeptPlaces(states, steps, i, m)
    {
      QueuesExactIff(states, steps, i, m);
      assert s.WithSlot(m) == {} && s.InQueue(m) == {};
    }
    forall id | id in s.leases ensures s.leases[id] == 0 <==> KeptLeases(states, steps, i, id) {
      LeasesExactIff(states, steps, i, id);
      assert s.Lessees(id) == {};
    }
  }
}
