/** The executor as the program runs it: a loop over the store that it shares with the request handlers. */
module ExecutorLoop {
  import opened Wrappers
  import opened Dicts
  import opened JsonValues
  import opened Tasks
  import opened FairClaim
  import opened TaskStore
  import opened StoreRuns
  import opened TaskLife
  import opened Executor
  import Fleet
  import Routing
  import Gateway

  /** What became of one attempt, in the order in which `execute_stored_task` finds out. */
  datatype Attempt =
    | Missing(error: Json)            // the task was stored without a payload
    | Invalid(error: Json)            // the stored payload does not fit its endpoint
    | Denied(error: Json)             // no policy for the model
    | NoBackend(error: Json)
    | Unreachable(error: Json)        // the upstream request failed
    | Answered(status: int, body: Json)

  /** What the upstream request came to. */
  datatype Response = Broken(error: Json) | Replied(status: int, body: Json)

  /** What the calls to the registry service came to: listing, allocation, lease and release. */
  datatype Calls = Calls(reachable: Fleet.Instance -> bool, listed: Option<seq<Fleet.Instance>>,
                         allocation: Routing.Allocation, lease: Routing.Call, release: Routing.Call)

  /** The task that is being worked on was stored without a payload. */
  ghost predicate NoPayload(e: Executor) {
    e.phase.Executing? && e.phase.id in e.store.tasks.items && e.store.tasks.items[e.phase.id].spec.payload == Obj([])
  }

  /** `is_retryable_upstream_status`. */
  predicate Transient(status: int) { status in {408, 409, 425, 429} || status >= 500 }

  /** The action of an attempt at a task. */
  function ActionOf(attempt: Attempt): Action {
    match attempt
    case Missing(error) => FailAttempt(error, false)
    case Invalid(error) => FailAttempt(error, false)
    case Denied(error) => FailAttempt(error, false)
    case NoBackend(error) => FailAttempt(error, true)
    case Unreachable(error) => FailAttempt(error, true)
    case Answered(status, body) => if status >= 400 then FailAttempt(body, Transient(status)) else Succeed(body)
  }

  /** The store after a claim is the one the trace continues with, whichever fairest task was found. */
  lemma {:induction false} ClaimIsPoll(s: Store, now: Instant, claimed: StoredTask, r: Store)
    requires s.Consistent() && ClaimMakes(s, now, None, claimed, r)
    ensures Candidates(s.Rows(), now, None) != []
    ensures PickNext(s, now).id == claimed.id
    ensures Enabled(s, Claim(claimed.id, None), now) && r == Apply(s, Claim(claimed.id, None), now)
  {
    var t :| s.NextClaim(t, now, None) && claimed == t.Claimed(now) && r == s.Update(claimed);
    assert t in Candidates(s.Rows(), now, None);
    ClaimConsistent(s, t, now, None);
    hide Candidates, Store.Consistent, RowLess, LastClaimed, Dict.Valid, Dict.Values;
    FairestUnique(t, PickNext(s, now), Candidates(s.Rows(), now, None), s.Rows());
  }

  lemma {:induction false} ClaimRewrites(t: StoredTask, u: StoredTask, now: Instant)
    requires SameTask(t, u) && u.state == Running && u.attempts == t.attempts + 1 && u.updatedAt == now
    requires u.nextAttemptAt == None && u.startedAt == Some(if t.startedAt.Some? then t.startedAt.value else now)
    requires u.finishedAt == t.finishedAt && u.result == t.result && u.error == t.error
    ensures Rewrites(t, Claim(t.id, None), now, u)
  {
  }

  lemma {:induction false} FailureApplies(c: Settings, s: Store, id: string, error: Json, retryable: bool, now: Instant)
    requires s.Consistent() && id in s.tasks.items
    ensures s.tasks.items[id].id == id
    ensures var t := s.tasks.items[id]; var e := FailureEvent(c, t, error, retryable, now);
      var recorded := Enriched(c, t.attempts, error, retryable, now);
      && Enabled(s, e, now)
      && Apply(s, e, now) == s.Update(if Retries(c, t.attempts, retryable)
                                      then t.Retried(recorded, now + RetryDelay(c, t.attempts), now)
                                      else t.Errored(recorded, now))
  {
    var e := FailureEvent(c, s.tasks.items[id], error, retryable, now);
    RecordEnabled(c, s, id, error, retryable, now);
    ApplyIs(s, e, now);
    hide *;
  }

  lemma {:induction false} RecordEnabled(c: Settings, s: Store, id: string, error: Json, retryable: bool, now: Instant)
    requires s.Consistent() && id in s.tasks.items
    ensures s.tasks.items[id].id == id
    ensures var t := s.tasks.items[id]; var e := FailureEvent(c, t, error, retryable, now);
      && Enabled(s, e, now) && Target(e) == Some(id)
      && Written(t, e, now) == (var recorded := Enriched(c, t.attempts, error, retryable, now);
                                if Retries(c, t.attempts, retryable)
                                then t.Retried(recorded, now + RetryDelay(c, t.attempts), now)
                                else t.Errored(recorded, now))
  {
    hide RetryDelay, Enriched, Store.NextClaim;
  }

  /**
   * The record of a failed attempt: queued again after the base delay times two to the number of earlier attempts,
   * at most the cap, if the failure is retryable and an attempt is left, and failed otherwise. Nothing else changes.
   */
  ghost predicate FailureRecorded(c: Settings, s: Store, id: string, error: Json, retryable: bool, now: Instant,
                                  r: Store)
  {
    && id in s.tasks.items && id in r.tasks.items && var t, u := s.tasks.items[id], r.tasks.items[id];
    && r.tasks.items == s.tasks.items[id := u] && r.index == s.index
    && SameTask(t, u) && u.attempts == t.attempts && u.startedAt == t.startedAt && u.result == t.result
    && u.updatedAt == now && u.error == Some(Enriched(c, t.attempts, error, retryable, now))
    && if retryable && t.attempts < c.maxAttempts then
         && u.state == Queued && u.finishedAt == t.finishedAt
         && u.nextAttemptAt == Some(now + Min(c.retryBase * Pow2(if t.attempts == 0 then 0 else t.attempts - 1),
                                              c.retryMax))
       else u.state == Failed && u.finishedAt == Some(now) && u.nextAttemptAt == None
  }

  lemma {:induction false} FailureIs(c: Settings, s: Store, id: string, error: Json, retryable: bool, now: Instant,
                                     r: Store)
    requires id in s.tasks.items && s.tasks.items[id].id == id
    requires var t := s.tasks.items[id]; var recorded := Enriched(c, t.attempts, error, retryable, now);
      r == s.Update(if Retries(c, t.attempts, retryable)
                    then t.Retried(recorded, now + RetryDelay(c, t.attempts), now)
                    else t.Errored(recorded, now))
    ensures FailureRecorded(c, s, id, error, retryable, now, r)
  {
    hide Enriched, Pow2;
  }

  /** `record_task_failure`: another attempt after a delay while there is one left, else the task has failed. */
  method RecordTaskFailure(c: Settings, store: TaskStore, id: string, error: Json, retryable: bool, now: Instant)
    requires store.Valid() && id in store.tasksById.items
    modifies store
    ensures store.Valid()
    ensures var s := old(store.View()); var e := FailureEvent(c, s.tasks.items[id], error, retryable, now);
      Enabled(s, e, now) && store.View() == Apply(s, e, now)
    ensures FailureRecorded(c, old(store.View()), id, error, retryable, now, store.View())
  {
    hide Store.Consistent, Restores, Apply, Enabled, FailureEvent, RetryDelay, Enriched, Load, Save, Store.Update,
      FailureRecorded, Replaces;
    ghost var before := store.View();
    FailureApplies(c, store.View(), id, error, retryable, now);
    var attempts := store.tasksById.items[id].attempts;
    var recorded := Enriched(c, attempts, error, retryable, now);
    if Retries(c, attempts, retryable) {
      var _ := store.RecordRetry(id, recorded, now + RetryDelay(c, attempts), now);
    } else {
      var _ := store.RecordError(id, recorded, now);
    }
    FailureIs(c, before, id, error, retryable, now, store.View());
  }

  /** What recording an attempt leaves, by the kind of attempt; a reconcile comes next. */
  ghost predicate AttemptRecorded(c: Settings, e: Executor, attempt: Attempt, now: Instant, r: Executor) {
    && e.phase.Executing? && r.phase == Reconciling(e.phase.id) && r.claims == e.claims
    && var id := e.phase.id;
    match attempt
    case Missing(error) => FailureRecorded(c, e.store, id, error, false, now, r.store)
    case Invalid(error) => FailureRecorded(c, e.store, id, error, false, now, r.store)
    case Denied(error) => FailureRecorded(c, e.store, id, error, false, now, r.store)
    case NoBackend(error) => FailureRecorded(c, e.store, id, error, true, now, r.store)
    case Unreachable(error) => FailureRecorded(c, e.store, id, error, true, now, r.store)
    case Answered(status, body) =>
      if status < 400 then ResultRecorded(e.store, id, body, now, r.store)
      else
        var retryable := status == 408 || status == 409 || status == 425 || status == 429 || status >= 500;
        FailureRecorded(c, e.store, id, body, retryable, now, r.store)
  }

  /** It is a step of the executor. */
  ghost predicate Attempted(c: Settings, e: Executor, attempt: Attempt, now: Instant, r: Executor) {
    && Invariant(c, e) && e.phase.Executing?
    && r == Next(c, e, ActionOf(attempt), now) && AttemptRecorded(c, e, attempt, now, r)
  }

  /** The record of an answered request; nothing else changes. */
  ghost predicate ResultRecorded(s: Store, id: string, value: Json, now: Instant, r: Store) {
    && id in s.tasks.items && id in r.tasks.items
    && r.tasks.items == s.tasks.items[id := r.tasks.items[id]] && r.index == s.index
    && Rewrites(s.tasks.items[id], Complete(id, value), now, r.tasks.items[id])
  }

  lemma {:induction false} ResultIs(s: Store, id: string, value: Json, now: Instant, r: Store)
    requires id in s.tasks.items && s.tasks.items[id].id == id
      && r == s.Update(s.tasks.items[id].Completed(value, now))
    ensures ResultRecorded(s, id, value, now, r)
  {
  }

  /** `task_executor_loop`, one suspension at a time, over the store it shares with the request handlers. */
  class TaskExecutor {
    const settings: Settings
    const store: TaskStore
    var phase: Phase
    ghost var claims: nat

    ghost function View(): Executor reads this, store { Executor(store.View(), phase, claims) }

    ghost predicate Valid() reads this, store { store.Valid() && Invariant(settings, View()) }

    constructor (settings: Settings, store: TaskStore)
      requires settings.Valid() && store.Valid() && store.View() == Store(Empty(), map[])
      ensures Valid() && View() == Executor(Store(Empty(), map[]), Idle, 0)
      ensures this.settings == settings && this.store == store
    {
      this.settings, this.store, phase, claims := settings, store, Idle, 0;
      new;
      assert store.View().Rows() == [];
    }

    /** The top of the loop. */
    method ClaimTask(now: Instant) returns (claimed: bool)
      requires Valid() && phase.Idle?
      modifies this, store
      ensures Valid() && View() == Next(settings, old(View()), Poll, now)
      ensures claimed <==> phase.Executing?
      ensures claimed <==> Candidates(old(store.View().Rows()), now, None) != []
      ensures claimed ==>
        && phase.id in old(store.tasksById.items) && phase.id in store.tasksById.items
        && Replaces(old(store.View()), store.tasksById.items[phase.id], store.View())
        && Rewrites(old(store.tasksById.items)[phase.id], Claim(phase.id, None), now, store.tasksById.items[phase.id])
      ensures !claimed ==> View() == old(View())
    {
      hide Store.Consistent, Invariant, Candidates, Apply, Enabled, ClaimMakes, Restores, Store.Rows, Next, Possible,
        PickNext, Rewrites, SameTask;
      ghost var before := View();
      NextPolls(settings, before, now);
      NextKeeps(settings, before, Poll, now);
      var task := store.ClaimNext(now, None);
      claimed := task.Some?;
      if claimed {
        ClaimIsPoll(before.store, now, task.value, store.View());
        ClaimRewrites(before.store.tasks.items[task.value.id], task.value, now);
        phase, claims := Executing(task.value.id), claims + 1;
      }
    }

    /**
     * `execute_stored_task`: checks, a backend, the request, the release, and then the record; reconciling comes
     * after it. What the checks find and what the calls come to are inputs; `route` is None if no backend was asked
     * for.
     */
    method ExecuteStoredTask(resolver: Routing.BackendResolver, invalid: Option<Json>, denied: Option<Json>,
                             noBackend: Json, missing: Json, model: string, calls: Calls, response: Response,
                             now: Instant)
      returns (route: Option<Routing.Route>)
      requires Valid() && phase.Executing? && resolver.registry.Valid()
      modifies this, store, resolver.registry
      ensures Valid() && resolver.registry.Valid()
      ensures route.None? <==> NoPayload(old(View())) || invalid.Some? || denied.Some?
      // the first thing that went wrong is recorded, or else the answer
      ensures
        var attempt :=
          if NoPayload(old(View())) then Missing(missing)
          else if invalid.Some? then Invalid(invalid.value)
          else if denied.Some? then Denied(denied.value)
          else if route == Some(Routing.NoBackend) then NoBackend(noBackend)
          else if response.Broken? then Unreachable(response.error) else Answered(response.status, response.body);
        Attempted(settings, old(View()), attempt, now, View())
      // the lease is returned whatever the request came to
      ensures route.None? ==> resolver.registry.instances == old(resolver.registry.instances)
      ensures route.Some? && !route.value.Backend? && !calls.lease.Lost? ==>
        resolver.registry.instances == old(resolver.registry.instances)
      ensures route.Some? && route.value.Backend? ==>
        Routing.LeaseCounts(resolver.registry.instances) ==
          var taken := Routing.Taken(Routing.LeaseCounts(old(resolver.registry.instances)), route.value);
          if calls.release.Unreached? then taken else Gateway.Adjust(taken, route.value.id, -1)
    {
      WorksOnStored(settings, View());
      hide Attempted, Invariant, Store.Consistent, Restores;
      route := None;
      if store.tasksById.items[phase.id].spec.payload == Obj([]) {
        RecordAttempt(Missing(missing), now);
        return;
      }
      if invalid.Some? {
        RecordAttempt(Invalid(invalid.value), now);
        return;
      }
      if denied.Some? {
        RecordAttempt(Denied(denied.value), now);
        return;
      }
      var resolved := Resolved(resolver, model, calls, now);
      route := Some(resolved);
      if resolved.NoBackend? {
        RecordAttempt(NoBackend(noBackend), now);
        return;
      }
      match response
      case Broken(error) => RecordAttempt(Unreachable(error), now);
      case Replied(status, body) => RecordAttempt(Answered(status, body), now);
    }

    /** From the lookup to the release, whatever the request in between came to. */
    method Resolved(resolver: Routing.BackendResolver, model: string, calls: Calls, now: Instant)
      returns (route: Routing.Route)
      requires resolver.registry.Valid()
      modifies resolver.registry
      ensures resolver.registry.Valid()
      ensures !route.Backend? && !calls.lease.Lost? ==> resolver.registry.instances == old(resolver.registry.instances)
      ensures route.Backend? ==>
        Routing.LeaseCounts(resolver.registry.instances) ==
          var taken := Routing.Taken(Routing.LeaseCounts(old(resolver.registry.instances)), route);
          if calls.release.Unreached? then taken else Gateway.Adjust(taken, route.id, -1)
    {
      route := resolver.Resolve(model, calls.reachable, calls.listed, calls.allocation, calls.lease, now);
      if route.Backend? {
        Routing.AdjustCounts(resolver.registry.instances, route.id, -1, now);
        resolver.Release(Some(route.id), calls.release, now);
      }
    }

    /** How the attempt ended is recorded. */
    method RecordAttempt(attempt: Attempt, now: Instant)
      requires Valid() && phase.Executing?
      modifies this, store
      ensures Valid() && Attempted(settings, old(View()), attempt, now, View())
    {
      hide Store.Consistent, Invariant, Apply, Enabled, Restores, Next, FailureEvent, Load, Save, Store.Update,
        FailureRecorded, ResultRecorded, Replaces;
      ghost var before := View();
      var id := phase.id;
      WorksOnStored(settings, before);
      ghost var action := ActionOf(attempt);
      NextKeeps(settings, before, action, now);
      NextRecords(settings, before, action, now);
      match attempt {
        case Missing(error) => RecordTaskFailure(settings, store, id, error, false, now);
        case Invalid(error) => RecordTaskFailure(settings, store, id, error, false, now);
        case Denied(error) => RecordTaskFailure(settings, store, id, error, false, now);
        case NoBackend(error) => RecordTaskFailure(settings, store, id, error, true, now);
        case Unreachable(error) => RecordTaskFailure(settings, store, id, error, true, now);
        case Answered(status, body) =>
          if status >= 400 {
            RecordTaskFailure(settings, store, id, body, Transient(status), now);
          } else {
            var _ := store.RecordResult(id, body, now);
            ResultIs(before.store, id, body, now, store.View());
          }
      }
      phase := Reconciling(id);
    }

    /** The catch-all: whatever was recorded before, the attempt counts as a failure that may be retried. */
    method CatchAll(error: Json, now: Instant)
      requires Valid() && (phase.Executing? || phase.Reconciling?)
      modifies this, store
      ensures Valid() && View() == Next(settings, old(View()), Raise(error), now)
      ensures phase == Recovering(old(phase).id) && claims == old(claims)
      ensures FailureRecorded(settings, old(store.View()), old(phase).id, error, true, now, store.View())
    {
      hide Store.Consistent, Invariant, Apply, Enabled, Restores, Next, FailureEvent, Load, Save, Store.Update,
        FailureRecorded, Replaces;
      ghost var before := View();
      var id := phase.id;
      WorksOnStored(settings, before);
      NextKeeps(settings, before, Raise(error), now);
      NextRecords(settings, before, Raise(error), now);
      RecordTaskFailure(settings, store, id, error, true, now);
      phase := Recovering(id);
    }

    /** The reconcile call after a record returns, or raises inside the catch-all and ends the loop. */
    method AfterReconcile(raised: Option<Json>, now: Instant)
      requires Valid() && (phase.Recovering? || (phase.Reconciling? && raised == None))
      modifies this
      ensures Valid()
      ensures View() == Next(settings, old(View()), if raised.Some? then Raise(raised.value) else Reconciled, now)
      ensures phase == (if raised.Some? then Dead else Idle) && claims == old(claims)
    {
      hide Store.Consistent, Invariant, Restores, Next;
      ghost var action := if raised.Some? then Raise(raised.value) else Reconciled;
      NextSettles(settings, View(), action, now);
      phase := if raised.Some? then Dead else Idle;
    }
  }

  /** The recorded action on the task that is being worked on. */
  lemma {:induction false} NextRecords(c: Settings, e: Executor, a: Action, now: Instant)
    requires Invariant(c, e)
    requires (e.phase.Executing? && (a.Succeed? || a.FailAttempt?))
      || ((e.phase.Executing? || e.phase.Reconciling?) && a.Raise?)
    ensures var id := e.phase.id;
      && e.store.Consistent() && id in e.store.tasks.items
      && (a.Succeed? ==>
            Next(c, e, a, now) == Executor(e.store.Update(e.store.tasks.items[id].Completed(a.value, now)),
                                           Reconciling(id), e.claims))
      && (!a.Succeed? ==>
            var f := FailureEvent(c, e.store.tasks.items[id], a.error, a.Raise? || a.retryable, now);
            && Enabled(e.store, f, now)
            && Next(c, e, a, now) == Executor(Apply(e.store, f, now),
                                              if a.Raise? then Recovering(id) else Reconciling(id), e.claims))
  {
    var id := e.phase.id;
    assert e.store.tasks.items[id].id == id;
    hide Affordable, PickNext, Written, FailureEvent, Store.Update, Load, Save, SubmitAll, Fresh;
    hide Store.Consistent, Store.NextClaim, Bounded, Store.Rows, RetryDelay, Candidates;
  }

  lemma {:induction false} WorksOnStored(c: Settings, e: Executor)
    requires Invariant(c, e) && Working(e.phase).Some?
    ensures Working(e.phase).value in e.store.tasks.items
  {
  }

  lemma {:induction false} NextPolls(c: Settings, e: Executor, now: Instant)
    requires Invariant(c, e) && e.phase.Idle?
    ensures Possible(e, Poll) && e.store.Consistent()
    ensures Candidates(e.store.Rows(), now, None) == [] ==> Next(c, e, Poll, now) == e
    ensures Candidates(e.store.Rows(), now, None) != [] ==>
      var t := PickNext(e.store, now);
      && Enabled(e.store, Claim(t.id, None), now)
      && Next(c, e, Poll, now) == Executor(Apply(e.store, Claim(t.id, None), now), Executing(t.id), e.claims + 1)
  {
    hide Affordable, PickNext, FailureEvent, Fresh, Apply, Enabled;
    EventEnabled(c, e, Poll, now);
    hide Store.Consistent, Store.NextClaim, Bounded, Store.Rows, Candidates;
  }

  lemma {:induction false} NextSettles(c: Settings, e: Executor, a: Action, now: Instant)
    requires Invariant(c, e)
    requires (a.Reconciled? && (e.phase.Reconciling? || e.phase.Recovering?)) || (a.Raise? && e.phase.Recovering?)
    ensures Possible(e, a) && Next(c, e, a, now) == e.(phase := if a.Raise? then Dead else Idle)
    ensures Invariant(c, Next(c, e, a, now))
  {
    hide Store.Consistent, Store.NextClaim, Bounded, Store.Rows, Candidates, Apply, Enabled, FailureEvent, Affordable,
      PickNext;
    NextKeeps(c, e, a, now);
  }
}
