/** The task executor: claim, run, record, reconcile, with the catch-all handler around it. */
module Executor {
  import opened Wrappers
  import opened Seqs
  import opened Dicts
  import opened JsonValues
  import opened Tasks
  import opened FairClaim
  import opened TaskStore
  import opened StoreRuns

  /** `task_executor_max_attempts`, the two delays in microseconds, and how an instant is printed. */
  datatype Settings = Settings(maxAttempts: nat, retryBase: nat, retryMax: nat, printed: Instant -> string) {
    ghost predicate Valid() { maxAttempts >= 1 }
  }

  function Pow2(n: nat): (p: nat)
    ensures p >= 1
  {
    if n == 0 then 1 else 2 * Pow2(n - 1)
  }

  /** `retry_delay_seconds`. */
  function RetryDelay(c: Settings, attempts: nat): (d: nat) {
    var delay := c.retryBase * Pow2(if attempts == 0 then 0 else attempts - 1);
    if delay < c.retryMax then delay else c.retryMax
  }

  function Min(a: int, b: int): int { if a < b then a else b }

  /** The first delay is the base, each later one is twice the one before, and none is more than the cap. */
  lemma {:induction false} BackoffGrows(c: Settings, n: nat)
    ensures RetryDelay(c, 0) == RetryDelay(c, 1) == Min(c.retryBase, c.retryMax)
    ensures n >= 1 ==> RetryDelay(c, n + 1) == Min(2 * RetryDelay(c, n), c.retryMax)
    ensures RetryDelay(c, n) <= RetryDelay(c, n + 1) <= c.retryMax
    ensures Pow2(0) == 1 && Pow2(n + 1) == 2 * Pow2(n)
  {
    assert Pow2(0) == 1 && c.retryBase * 1 == c.retryBase;
    if n >= 1 { assert c.retryBase * Pow2(n) == 2 * (c.retryBase * Pow2(n - 1)); }
  }

  /** Where the executor coroutine is suspended. */
  datatype Phase =
    | Idle
    | Executing(id: string)
    | Reconciling(id: string)   // recorded, inside the `try`: an exception reaches the catch-all
    | Recovering(id: string)    // recorded by the catch-all: an exception ends the loop
    | Dead

  /** The task the executor is busy with. */
  function Working(p: Phase): Option<string> {
    match p
    case Executing(id) => Some(id)
    case Reconciling(id) => Some(id)
    case Recovering(id) => Some(id)
    case Idle => None
    case Dead => None
  }

  datatype Executor = Executor(store: Store, phase: Phase, claims: nat)

  datatype Action =
    | Poll
    | Succeed(value: Json)
    | FailAttempt(error: Json, retryable: bool)
    | Raise(error: Json)
    | Reconciled
    | Arrive(batch: seq<QueueTask>, stamps: seq<Stamp>)
    | Withdraw(tenant: string, id: string)
    | Reboot

  /** Another attempt is made: the failure is retryable and an attempt is left. */
  predicate Retries(c: Settings, attempts: nat, retryable: bool) { retryable && attempts < c.maxAttempts }

  /** The error as it is recorded: what failed, and how the task stands. */
  function Enriched(c: Settings, attempts: nat, error: Json, retryable: bool, now: Instant): Json {
    if !error.Obj? then error
    else
      var told := With(With(With(error.fields, "retryable", Bool(retryable)), "attempt_count", Num(attempts as real)),
                       "max_attempts", Num(c.maxAttempts as real));
      if !Retries(c, attempts, retryable) then Obj(told)
      else
        var delay := RetryDelay(c, attempts);
        Obj(With(With(told, "next_attempt_at", Str(c.printed(now + delay))), "retry_delay_seconds",
                 Num(delay as real / 1000000.0)))
  }

  /** What a recorded error tells, and that nothing else in it has changed. */
  lemma {:induction false} EnrichedTells(c: Settings, attempts: nat, error: seq<Field>, retryable: bool, now: Instant)
    ensures var r := Enriched(c, attempts, Obj(error), retryable, now);
      && r.Obj?
      && Get(r.fields, "retryable") == Some(Bool(retryable))
      && Get(r.fields, "attempt_count") == Some(Num(attempts as real))
      && Get(r.fields, "max_attempts") == Some(Num(c.maxAttempts as real))
      && Get(r.fields, "next_attempt_at") ==
           (if Retries(c, attempts, retryable) then Some(Str(c.printed(now + RetryDelay(c, attempts))))
            else Get(error, "next_attempt_at"))
      && Get(r.fields, "retry_delay_seconds") ==
           (if Retries(c, attempts, retryable) then Some(Num(RetryDelay(c, attempts) as real / 1000000.0))
            else Get(error, "retry_delay_seconds"))
      && forall k | k != "retryable" && k != "attempt_count" && k != "max_attempts" && k != "next_attempt_at"
                    && k != "retry_delay_seconds" :: Get(r.fields, k) == Get(error, k)
  {
    hide *;
    KeysDiffer();
    var told := Told(error, Bool(retryable), Num(attempts as real), Num(c.maxAttempts as real));
    EnrichedIs(c, attempts, error, retryable, now, told);
    if Retries(c, attempts, retryable) {
      var delay := RetryDelay(c, attempts);
      var _ := ToldMore(told, Str(c.printed(now + delay)), Num(delay as real / 1000000.0));
    }
  }

  lemma {:induction false} EnrichedIs(c: Settings, attempts: nat, error: seq<Field>, retryable: bool, now: Instant,
                                      told: seq<Field>)
    requires told == With(With(With(error, "retryable", Bool(retryable)), "attempt_count", Num(attempts as real)),
                          "max_attempts", Num(c.maxAttempts as real))
    ensures Enriched(c, attempts, Obj(error), retryable, now) ==
      if !Retries(c, attempts, retryable) then Obj(told)
      else Obj(With(With(told, "next_attempt_at", Str(c.printed(now + RetryDelay(c, attempts)))),
                    "retry_delay_seconds", Num(RetryDelay(c, attempts) as real / 1000000.0)))
  {
    hide Get, With, RetryDelay;
  }

  lemma {:induction false} Told(error: seq<Field>, x: Json, y: Json, z: Json) returns (r: seq<Field>)
    ensures r == With(With(With(error, "retryable", x), "attempt_count", y), "max_attempts", z)
    ensures Get(r, "retryable") == Some(x) && Get(r, "attempt_count") == Some(y) && Get(r, "max_attempts") == Some(z)
    ensures forall k | k != "retryable" && k != "attempt_count" && k != "max_attempts" :: Get(r, k) == Get(error, k)
  {
    hide Get, With;
    KeysDiffer();
    r := With(With(With(error, "retryable", x), "attempt_count", y), "max_attempts", z);
  }

  lemma {:induction false} ToldMore(told: seq<Field>, x: Json, y: Json) returns (r: seq<Field>)
    ensures r == With(With(told, "next_attempt_at", x), "retry_delay_seconds", y)
    ensures Get(r, "next_attempt_at") == Some(x) && Get(r, "retry_delay_seconds") == Some(y)
    ensures forall k | k != "next_attempt_at" && k != "retry_delay_seconds" :: Get(r, k) == Get(told, k)
  {
    hide Get, With;
    KeysDiffer();
    r := With(With(told, "next_attempt_at", x), "retry_delay_seconds", y);
  }

  lemma {:induction false} KeysDiffer()
    ensures "retryable"[0] != "attempt_count"[0] && "retryable" != "max_attempts" && "retryable" != "next_attempt_at"
    ensures "retryable"[5] != "retry_delay_seconds"[5] && "attempt_count" != "max_attempts"
    ensures "attempt_count" != "next_attempt_at" && "attempt_count" != "retry_delay_seconds"
      && "max_attempts" != "next_attempt_at"
    ensures "max_attempts" != "retry_delay_seconds" && "next_attempt_at" != "retry_delay_seconds"
  {
    assert "retryable"[0] == 'r' && "max_attempts"[0] == 'm' && "next_attempt_at"[0] == 'n'
      && "attempt_count"[0] == 'a';
    assert "retry_delay_seconds"[0] == 'r';
  }

  /** `record_task_failure` on a task with its current attempt count. */
  function FailureEvent(c: Settings, t: StoredTask, error: Json, retryable: bool, now: Instant): Event {
    var recorded := Enriched(c, t.attempts, error, retryable, now);
    if Retries(c, t.attempts, retryable) then Retry(t.id, recorded, now + RetryDelay(c, t.attempts))
      else Fail(t.id, recorded)
  }

  /** The store operation an action performs in its phase; None is an action that touches no task. */
  ghost function EventOf(c: Settings, e: Executor, a: Action, now: Instant): Option<Event>
    requires Invariant(c, e)
  {
    match a
    case Poll =>
      if e.phase.Idle? && Candidates(e.store.Rows(), now, None) != [] then
        var t := PickNext(e.store, now); Some(Claim(t.id, None))
      else None
    case Succeed(value) => if e.phase.Executing? then Some(Complete(e.phase.id, value)) else None
    case FailAttempt(error, retryable) =>
      if e.phase.Executing? then Some(FailureEvent(c, e.store.tasks.items[e.phase.id], error, retryable, now)) else None
    case Raise(error) =>
      if e.phase.Executing? || e.phase.Reconciling?
      then Some(FailureEvent(c, e.store.tasks.items[e.phase.id], error, true, now)) else None
    case Reconciled => None
    case Arrive(batch, stamps) => Some(Submit(batch, stamps))
    case Withdraw(tenant, id) => Some(Cancel(tenant, id))
    case Reboot => Some(Restart)
  }

  ghost function PickNext(s: Store, now: Instant): (t: StoredTask)
    requires s.Consistent() && Candidates(s.Rows(), now, None) != []
    ensures s.NextClaim(t, now, None)
    ensures t.id in s.tasks.items && s.tasks.items[t.id] == t && t.state.Queued?
  {
    SomeClaim(s, now);
    var w :| s.NextClaim(w, now, None);
    ClaimConsistent(s, w, now, None);
    w
  }

  lemma {:induction false} SomeClaim(s: Store, now: Instant)
    requires s.Consistent() && Candidates(s.Rows(), now, None) != []
    ensures exists t :: s.NextClaim(t, now, None)
  {
    var t := NextClaimExists(s, now, None);
  }

  ghost function PhaseAfter(e: Executor, a: Action, event: Option<Event>): Phase {
    match (e.phase, a)
    case (Idle, Poll) => if event.Some? && event.value.Claim? then Executing(event.value.id) else Idle
    case (Executing(id), Succeed(_)) => Reconciling(id)
    case (Executing(id), FailAttempt(_, _)) => Reconciling(id)
    case (Executing(id), Raise(_)) => Recovering(id)
    case (Reconciling(id), Raise(_)) => Recovering(id)
    case (Reconciling(_), Reconciled) => Idle
    case (Recovering(_), Reconciled) => Idle
    case (Recovering(_), Raise(_)) => Dead
    case (_, Reboot) => Idle
    case (p, _) => p
  }

  /** Submissions bring fresh ids; everything else is always possible. */
  ghost predicate Possible(e: Executor, a: Action) {
    a.Arrive? ==> |a.batch| == |a.stamps| && Fresh(e.store, a.stamps)
  }

  ghost function Next(c: Settings, e: Executor, a: Action, now: Instant): Executor
    requires Invariant(c, e) && Possible(e, a)
  {
    EventEnabled(c, e, a, now);
    var event := EventOf(c, e, a, now);
    Executor(if event.None? then e.store else Apply(e.store, event.value, now),
             PhaseAfter(e, a, event),
             e.claims + if event.Some? && event.value.Claim? then 1 else 0)
  }

  function Attempts(t: StoredTask): int { t.attempts }

  /** A queued task has an attempt left, no task has more attempts than allowed, and every claim is counted. */
  ghost predicate Invariant(c: Settings, e: Executor) {
    && c.Valid() && e.store.Consistent()
    && Bounded(c, e.store)
    && (Working(e.phase).Some? ==> Working(e.phase).value in e.store.tasks.items)
    && e.claims == Sum(e.store.Rows(), Attempts)
  }

  ghost predicate Bounded(c: Settings, s: Store) {
    forall id | id in s.tasks.items :: InBounds(c, s.tasks.items[id])
  }

  ghost predicate InBounds(c: Settings, t: StoredTask) {
    t.attempts <= c.maxAttempts && (t.state.Queued? ==> t.attempts < c.maxAttempts)
  }

  lemma {:induction false} EventEnabled(c: Settings, e: Executor, a: Action, now: Instant)
    requires Invariant(c, e) && Possible(e, a)
    ensures EventOf(c, e, a, now).Some? ==> Enabled(e.store, EventOf(c, e, a, now).value, now)
    ensures EventOf(c, e, a, now).Some? ==> Affordable(c, e.store, EventOf(c, e, a, now).value)
  {
    assert Working(e.phase).Some? ==> e.store.tasks.items[Working(e.phase).value].id == Working(e.phase).value;
    hide Store.Consistent, Store.NextClaim, Bounded, Store.Rows, Sum, Fresh, RetryDelay, Candidates;
  }

  /** The events the executor produces: it claims queued tasks and retries only below the limit. */
  ghost predicate Affordable(c: Settings, s: Store, event: Event) {
    && (event.Claim? ==> event.id in s.tasks.items && s.tasks.items[event.id].state.Queued?)
    && (event.Retry? ==> event.id in s.tasks.items && s.tasks.items[event.id].attempts < c.maxAttempts)
  }

  // ---- counting attempts ------------------------------------------------------------------

  lemma {:induction false} UpdateAttempts(s: Store, t: StoredTask)
    requires s.Consistent() && t.id in s.tasks.items
    ensures s.Update(t).tasks.Valid()
    ensures Sum(s.Update(t).Rows(), Attempts) == Sum(s.Rows(), Attempts) - s.tasks.items[t.id].attempts + t.attempts
  {
    s.tasks.ValuesPut(t.id, t);
    SumUpdate(s.Rows(), s.tasks.IndexOf(t.id), t, Attempts);
    hide Store.Consistent, Sum;
  }

  lemma {:induction false} SubmitOneAttempts(s: Store, q: QueueTask, stamp: Stamp)
    requires s.Consistent() && stamp.id !in s.tasks.items
    ensures SubmitOne(s, q, stamp).tasks.Valid()
    ensures Sum(SubmitOne(s, q, stamp).Rows(), Attempts) == Sum(s.Rows(), Attempts)
  {
    s.tasks.ValuesPut(stamp.id, NewTask(q, stamp));
    SumAppend(s.Rows(), NewTask(q, stamp), Attempts);
    hide Store.Consistent, Sum;
  }

  lemma {:induction false} SubmitAttempts(s: Store, batch: seq<QueueTask>, stamps: seq<Stamp>)
    requires s.Consistent() && |batch| == |stamps| && Fresh(s, stamps)
    ensures SubmitAll(s, batch, stamps).Consistent()
    ensures Sum(SubmitAll(s, batch, stamps).Rows(), Attempts) == Sum(s.Rows(), Attempts)
  {
    SubmitConsistent(s, batch, stamps);
    if batch == [] {
      hide Store.Consistent, Sum, Store.Rows;
    } else {
      var n := |batch| - 1;
      SubmitLast(s, batch, stamps);
      hide *;
      SubmitAttempts(s, batch[..n], stamps[..n]);
      SubmitOneAttempts(SubmitAll(s, batch[..n], stamps[..n]), batch[n], stamps[n]);
    }
  }

  ghost predicate DistinctIds(file: seq<StoredTask>) {
    forall i, j | 0 <= i < j < |file| :: file[i].id != file[j].id
  }

  lemma {:induction false} NewId(file: seq<StoredTask>)
    requires DistinctIds(file) && file != []
    ensures file[|file| - 1].id !in Load(file[..|file| - 1]).tasks.items
  {
    var n := |file| - 1;
    assert IdsIdentify(file[..n]);
    LoadContents(file[..n]);
  }

  /** A loaded file is listed in the order of the file. */
  lemma {:induction false} LoadedRows(file: seq<StoredTask>)
    requires DistinctIds(file)
    ensures Load(file).Rows() == file
  {
    if file == [] {
      hide Dict.Valid;
      assert Load(file).Rows() == [];
    } else {
      var n := |file| - 1;
      hide *;
      LoadLast(file);
      LoadedRows(file[..n]);
      Load(file[..n]).tasks.ValuesPut(file[n].id, file[n]);
      assert file == file[..n] + [file[n]];
    }
  }

  /** The last record of a file is listed after the others. */
  lemma {:induction false} LoadLast(file: seq<StoredTask>)
    requires DistinctIds(file) && file != []
    ensures var n := |file| - 1;
      var before, t := Load(file[..n]), file[n];
      && DistinctIds(file[..n]) && before.tasks.Valid() && t.id !in before.tasks.items
      && Load(file).tasks == before.tasks.Put(t.id, t)
      && Load(file).Rows() == before.tasks.Put(t.id, t).Values() && before.Rows() == before.tasks.Values()
  {
    NewId(file);
    hide Dict.Valid, Dict.Values, Dict.Put;
  }

  lemma {:induction false} RowsDistinct(s: Store)
    requires s.Consistent()
    ensures Distinct(s.Rows())
    ensures forall a, b | a in s.Rows() && b in s.Rows() && a.id == b.id :: a == b
  {
    RowsIdentify(s);
    forall i, j | 0 <= i < j < |s.Rows()| ensures s.Rows()[i] != s.Rows()[j] {
      assert s.Rows()[i].id == s.tasks.keys[i] && s.Rows()[j].id == s.tasks.keys[j];
    }
  }

  lemma {:induction false} SavedIdsDiffer(s: Store)
    requires s.Consistent()
    ensures DistinctIds(Save(s))
  {
    RowsDistinct(s);
    SortKeeps(s.Rows(), IdLess);
    SavedIs(s);
    hide *;
    DistinctPermutation(s.Rows(), Save(s));
    IdsApart(s.Rows(), Save(s));
  }

  lemma {:induction false} SavedIs(s: Store)
    requires s.tasks.Valid()
    ensures Save(s) == Sort(s.Rows(), IdLess) && multiset(Save(s)) == multiset(s.Rows())
  {
    hide Sort, Store.Rows;
  }

  lemma {:induction false} IdsApart(rows: seq<StoredTask>, file: seq<StoredTask>)
    requires Distinct(file) && forall t | t in file :: t in rows
    requires forall a, b | a in rows && b in rows && a.id == b.id :: a == b
    ensures DistinctIds(file)
  {
  }

  lemma {:induction false} RestartAttempts(s: Store)
    requires s.Consistent()
    ensures Sum(Load(Save(s)).Rows(), Attempts) == Sum(s.Rows(), Attempts)
  {
    SavedIdsDiffer(s);
    LoadedRows(Save(s));
    SumPermutation(Save(s), s.Rows(), Attempts);
    hide Store.Consistent, Sum, Load;
  }

  /** Only a claim adds to the attempts, and it adds one. */
  lemma {:induction false} ApplyAttempts(s: Store, e: Event, now: Instant)
    requires s.Consistent() && Enabled(s, e, now)
    ensures Apply(s, e, now).tasks.Valid()
    ensures Sum(Apply(s, e, now).Rows(), Attempts) == Sum(s.Rows(), Attempts) + if e.Claim? then 1 else 0
  {
    ApplyKeeps(s, e, now);
    ApplyIs(s, e, now);
    assert s.tasks.Valid() && Apply(s, e, now).tasks.Valid();
    hide *;
    if e.Submit? {
      SubmitAttempts(s, e.batch, e.stamps);
    } else if e.Restart? {
      RestartAttempts(s);
    } else if Target(e).value in s.tasks.items {
      var t := s.tasks.items[Target(e).value];
      WrittenCounts(t, e, now);
      UpdateAttempts(s, Written(t, e, now));
    }
  }

  lemma {:induction false} WrittenCounts(t: StoredTask, e: Event, now: Instant)
    requires Target(e) == Some(t.id)
    ensures Written(t, e, now).id == t.id
    ensures Written(t, e, now).attempts == t.attempts + if e.Claim? then 1 else 0
  {
  }

  // ---- the invariant over runs ------------------------------------------------------------

  lemma {:induction false} ApplyBounded(c: Settings, s: Store, e: Event, now: Instant)
    requires c.Valid() && s.Consistent() && Enabled(s, e, now) && Bounded(c, s) && Affordable(c, s, e)
    ensures Bounded(c, Apply(s, e, now))
  {
    ApplyIs(s, e, now);
    if e.Submit? {
      SubmitBounded(c, s, e.batch, e.stamps);
    } else if e.Restart? {
      SaveRestores(s);
      hide Store.Consistent, Enabled, Apply, Load, Save, InBounds;
    } else if Target(e).value in s.tasks.items {
      var t := s.tasks.items[Target(e).value];
      assert InBounds(c, t) && (e.Claim? ==> t.state.Queued?) && (e.Retry? ==> t.attempts < c.maxAttempts);
      hide *;
      WrittenInBounds(c, t, e, now);
      UpdateBounded(c, s, Written(t, e, now));
    }
  }

  lemma {:induction false} UpdateBounded(c: Settings, s: Store, t: StoredTask)
    requires Bounded(c, s) && InBounds(c, t)
    ensures Bounded(c, s.Update(t))
  {
  }

  lemma {:induction false} WrittenInBounds(c: Settings, t: StoredTask, e: Event, now: Instant)
    requires InBounds(c, t) && Target(e) == Some(t.id)
    requires (e.Claim? ==> t.state.Queued?) && (e.Retry? ==> t.attempts < c.maxAttempts)
    ensures InBounds(c, Written(t, e, now)) && Written(t, e, now).id == t.id
  {
  }

  lemma {:induction false} SubmitBounded(c: Settings, s: Store, batch: seq<QueueTask>, stamps: seq<Stamp>)
    requires c.Valid() && Bounded(c, s) && |batch| == |stamps|
    ensures Bounded(c, SubmitAll(s, batch, stamps))
  {
    if batch != [] { SubmitBounded(c, s, batch[..|batch| - 1], stamps[..|batch| - 1]); }
  }

  lemma {:induction false} StoreStep(c: Settings, s: Store, e: Event, now: Instant)
    requires c.Valid() && s.Consistent() && Enabled(s, e, now) && Bounded(c, s) && Affordable(c, s, e)
    ensures Apply(s, e, now).Consistent() && Bounded(c, Apply(s, e, now))
    ensures s.tasks.items.Keys <= Apply(s, e, now).tasks.items.Keys
    ensures Sum(Apply(s, e, now).Rows(), Attempts) == Sum(s.Rows(), Attempts) + if e.Claim? then 1 else 0
  {
    ApplyKeeps(s, e, now);
    ApplyAttempts(s, e, now);
    ApplyBounded(c, s, e, now);
    hide Store.Consistent, Enabled, Apply, Sum, Store.Rows, Bounded, Becomes;
  }

  /** The executor only ever works on a stored task. */
  lemma {:induction false} PhaseKeeps(c: Settings, e: Executor, a: Action, now: Instant)
    requires Invariant(c, e) && Possible(e, a)
    ensures Working(PhaseAfter(e, a, EventOf(c, e, a, now))).Some? ==>
      Working(PhaseAfter(e, a, EventOf(c, e, a, now))).value in e.store.tasks.items
  {
    hide Store.Consistent, Store.NextClaim, Store.Rows, Sum, Bounded;
  }

  /** Every action keeps the invariant. */
  lemma {:induction false} NextKeeps(c: Settings, e: Executor, a: Action, now: Instant)
    requires Invariant(c, e) && Possible(e, a)
    ensures Invariant(c, Next(c, e, a, now))
  {
    EventEnabled(c, e, a, now);
    PhaseKeeps(c, e, a, now);
    var event := EventOf(c, e, a, now);
    if event.Some? { StoreStep(c, e.store, event.value, now); }
    hide Store.Consistent, Store.NextClaim, Store.Rows, Sum, Bounded, Enabled, Apply, EventOf, PhaseAfter, Affordable,
      Working;
  }

  /** What clients and a restart do: their own event happens to the store, and only a restart idles the executor. */
  lemma {:induction false} HandlersStep(c: Settings, e: Executor, a: Action, now: Instant)
    requires Invariant(c, e) && Possible(e, a) && (a.Arrive? || a.Withdraw? || a.Reboot?)
    ensures var r := Next(c, e, a, now);
      && r.claims == e.claims && r.phase == (if a.Reboot? then Idle else e.phase)
      && (a.Arrive? ==> r.store == SubmitAll(e.store, a.batch, a.stamps))
      && (a.Withdraw? ==> r.store == Apply(e.store, Cancel(a.tenant, a.id), now))
      && (a.Reboot? ==> r.store.tasks.items == e.store.tasks.items && r.store.index == e.store.index)
  {
    EventEnabled(c, e, a, now);
    HandlersEvent(c, e, a, now);
    ApplyIs(e.store, EventOf(c, e, a, now).value, now);
    if a.Reboot? { SaveRestores(e.store); }
    hide Invariant, Possible, EventOf, PhaseAfter, Apply, Enabled, Load, Save, SubmitAll, Store.Consistent;
  }

  lemma {:induction false} HandlersEvent(c: Settings, e: Executor, a: Action, now: Instant)
    requires Invariant(c, e) && (a.Arrive? || a.Withdraw? || a.Reboot?)
    ensures e.store.Consistent()
    ensures EventOf(c, e, a, now) == Some(if a.Arrive? then Submit(a.batch, a.stamps)
                                          else if a.Withdraw? then Cancel(a.tenant, a.id) else Restart)
    ensures PhaseAfter(e, a, EventOf(c, e, a, now)) == if a.Reboot? then Idle else e.phase
  {
    hide Store.Consistent, Bounded, Sum, Store.Rows;
  }

  // ---- how many claims there can be -------------------------------------------------------

  function Remaining(c: Settings): StoredTask -> int {
    (t: StoredTask) => c.maxAttempts - t.attempts
  }

  /** The termination measure: the attempts that the stored tasks have left. */
  ghost function Budget(c: Settings, s: Store): int
    requires s.tasks.Valid()
  {
    Sum(s.Rows(), Remaining(c))
  }

  lemma {:induction false} RemainingSum(c: Settings, rows: seq<StoredTask>)
    ensures Sum(rows, Remaining(c)) == c.maxAttempts * |rows| - Sum(rows, Attempts)
  {
    if rows != [] {
      RemainingSum(c, rows[..|rows| - 1]);
      assert c.maxAttempts * |rows| == c.maxAttempts * (|rows| - 1) + c.maxAttempts;
    }
  }

  lemma {:induction false} BudgetIs(c: Settings, s: Store)
    requires s.Consistent()
    ensures Budget(c, s) == c.maxAttempts * |s.tasks.items| - Sum(s.Rows(), Attempts)
  {
    RemainingSum(c, s.Rows());
    s.tasks.Size();
    hide Store.Consistent, Sum;
  }

  /** The budget of a bounded store is never negative: no task has used more attempts than it has. */
  lemma {:induction false} BudgetBounds(c: Settings, s: Store)
    requires s.Consistent() && Bounded(c, s)
    ensures 0 <= Budget(c, s) <= c.maxAttempts * |s.tasks.items|
  {
    RowsIdentify(s);
    forall t | t in s.Rows() ensures 0 <= Remaining(c)(t) <= c.maxAttempts { assert InBounds(c, s.tasks.items[t.id]); }
    s.tasks.Size();
    hide Store.Consistent, Bounded;
    SumBounds(s.Rows(), Remaining(c), 0, c.maxAttempts);
  }

  /** A claim lowers the budget by one; only a submission raises it, by `maxAttempts` for each task it creates. */
  lemma {:induction false} BudgetStep(c: Settings, e: Executor, a: Action, now: Instant)
    requires Invariant(c, e) && Possible(e, a)
    ensures Invariant(c, Next(c, e, a, now))
    ensures Budget(c, Next(c, e, a, now).store) == Budget(c, e.store)
      - (Next(c, e, a, now).claims - e.claims)
      + c.maxAttempts * (|Next(c, e, a, now).store.tasks.items| - |e.store.tasks.items|)
    ensures Next(c, e, a, now).claims - e.claims ==
      if a.Poll? && e.phase.Idle? && Candidates(e.store.Rows(), now, None) != [] then 1 else 0
    ensures a.Arrive? || Next(c, e, a, now).store.tasks.items.Keys == e.store.tasks.items.Keys
  {
    hide *;
    NextKeeps(c, e, a, now);
    NextStore(c, e, a, now);
    ClaimsStep(c, e, a, now);
    ClaimsAre(c, e);
    ClaimsAre(c, Next(c, e, a, now));
    BudgetIs(c, e.store);
    BudgetIs(c, Next(c, e, a, now).store);
    var n, m, k: int := |Next(c, e, a, now).store.tasks.items|, |e.store.tasks.items|, c.maxAttempts;
    assert k * (n - m) == k * n - k * m;
  }

  lemma {:induction false} ClaimsAre(c: Settings, e: Executor)
    requires Invariant(c, e)
    ensures e.store.Consistent() && e.store.tasks.Valid() && e.claims == Sum(e.store.Rows(), Attempts)
  {
    hide Sum, Bounded, Store.Rows;
  }

  /** Only arriving tasks bring new ids. */
  lemma {:induction false} NextStore(c: Settings, e: Executor, a: Action, now: Instant)
    requires Invariant(c, e) && Possible(e, a)
    ensures a.Arrive? || Next(c, e, a, now).store.tasks.items.Keys == e.store.tasks.items.Keys
  {
    EventEnabled(c, e, a, now);
    ClaimsStep(c, e, a, now);
    var event := EventOf(c, e, a, now);
    assert e.store.Consistent();
    hide Store.Consistent, Invariant, Enabled, Apply, EventOf, PhaseAfter, Affordable, Possible;
    if event.Some? { KeysStep(e.store, event.value, now); }
  }

  lemma {:induction false} KeysStep(s: Store, e: Event, now: Instant)
    requires s.Consistent() && Enabled(s, e, now)
    ensures e.Submit? || Apply(s, e, now).tasks.items.Keys == s.tasks.items.Keys
  {
    ApplyIs(s, e, now);
    hide Store.Consistent, Written, Save, Load, Enabled, Apply;
    if e.Restart? {
      SaveRestores(s);
    } else if Target(e).Some? && Target(e).value in s.tasks.items {
      WrittenCounts(s.tasks.items[Target(e).value], e, now);
    }
  }

  lemma {:induction false} ClaimsStep(c: Settings, e: Executor, a: Action, now: Instant)
    requires Invariant(c, e) && Possible(e, a)
    ensures Next(c, e, a, now).claims - e.claims ==
      if a.Poll? && e.phase.Idle? && Candidates(e.store.Rows(), now, None) != [] then 1 else 0
    ensures EventOf(c, e, a, now).Some? && EventOf(c, e, a, now).value.Submit? ==> a.Arrive?
  {
    hide Store.Consistent, Store.NextClaim, Candidates, Apply, Enabled, Bounded, Sum;
  }

  /** A trace of the executor with its environment, from the empty store. */
  ghost predicate IsTrace(c: Settings, states: seq<Executor>, actions: seq<Action>, times: seq<Instant>) {
    && c.Valid() && |states| == |actions| + 1 && |times| == |actions|
    && states[0] == Executor(Store(Empty(), map[]), Idle, 0)
    && (forall i | 0 <= i < |actions| :: Continues(c, states[i], actions[i], times[i], states[i + 1]))
  }

  ghost predicate Continues(c: Settings, e: Executor, a: Action, now: Instant, r: Executor) {
    Invariant(c, e) ==> Possible(e, a) && r == Next(c, e, a, now)
  }

  /** In every reachable state: queued tasks have an attempt left, and claims never exceed attempts times tasks. */
  lemma {:induction false} FinitelyManyClaims(c: Settings, states: seq<Executor>, actions: seq<Action>,
                                              times: seq<Instant>, i: nat)
    requires IsTrace(c, states, actions, times) && i < |states|
    ensures Invariant(c, states[i])
    ensures states[i].claims <= c.maxAttempts * |states[i].store.tasks.items|
    ensures forall id | id in states[i].store.tasks.items && states[i].store.tasks.items[id].state.Queued? ::
      states[i].store.tasks.items[id].attempts < c.maxAttempts
  {
    if i == 0 {
      assert states[0].store.Rows() == [];
    } else {
      FinitelyManyClaims(c, states, actions, times, i - 1);
      assert Continues(c, states[i - 1], actions[i - 1], times[i - 1], states[i]);
      NextKeeps(c, states[i - 1], actions[i - 1], times[i - 1]);
    }
    hide Store.Consistent, IsTrace, Next;
    BudgetIs(c, states[i].store);
    BudgetBounds(c, states[i].store);
  }
}
