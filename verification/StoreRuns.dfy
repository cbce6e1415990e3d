/** Histories of a store: every operation as an event at an instant, and what all of them keep. */
module StoreRuns {
  import opened Wrappers
  import opened JsonValues
  import opened Tasks
  import opened FairClaim
  import opened TaskStore

  datatype Event =
    | Claim(id: string, model: Option<string>)
    | Submit(batch: seq<QueueTask>, stamps: seq<Stamp>)
    | Complete(id: string, value: Json)
    | Fail(id: string, value: Json)
    | Retry(id: string, value: Json, next: Instant)
    | Cancel(tenant: string, id: string)
    | Restart

  /** The event can happen in `s`: a claim takes the task that `claim_next` picks, a record names a stored task. */
  ghost predicate Enabled(s: Store, e: Event, now: Instant)
    requires s.Consistent()
  {
    match e
    case Claim(id, model) => id in s.tasks.items && s.NextClaim(s.tasks.items[id], now, model)
    case Submit(batch, stamps) => |batch| == |stamps| && Fresh(s, stamps)
    case Complete(id, _) => id in s.tasks.items
    case Fail(id, _) => id in s.tasks.items
    case Retry(id, _, _) => id in s.tasks.items
    case Cancel(_, _) => true
    case Restart => true
  }

  /** What the event makes of the task it names. */
  function Written(t: StoredTask, e: Event, now: Instant): StoredTask {
    match e
    case Claim(_, _) => t.Claimed(now)
    case Complete(_, value) => t.Completed(value, now)
    case Fail(_, value) => t.Errored(value, now)
    case Retry(_, value, next) => t.Retried(value, next, now)
    case Cancel(tenant, _) => if t.spec.tenant == tenant then t.Withdrawn(now) else t
    case Submit(_, _) => t
    case Restart => t
  }

  ghost function Apply(s: Store, e: Event, now: Instant): Store
    requires s.Consistent() && Enabled(s, e, now)
  {
    match e
    case Submit(batch, stamps) => SubmitAll(s, batch, stamps)
    case Restart => Load(Save(s))
    case _ =>
      var id := Target(e).value;
      if id in s.tasks.items then s.Update(Written(s.tasks.items[id], e, now)) else s
  }

  /** The cases of an event, one by one. */
  lemma {:induction false} ApplyIs(s: Store, e: Event, now: Instant)
    requires s.Consistent() && Enabled(s, e, now)
    ensures e.Submit? ==>
      |e.batch| == |e.stamps| && Fresh(s, e.stamps) && Apply(s, e, now) == SubmitAll(s, e.batch, e.stamps)
    ensures e.Restart? ==> Apply(s, e, now) == Load(Save(s))
    ensures !e.Submit? && !e.Restart? ==> Target(e).Some?
    ensures Target(e).Some? && Target(e).value !in s.tasks.items ==> !e.Claim? && Apply(s, e, now) == s
    ensures Target(e).Some? && Target(e).value in s.tasks.items ==>
      s.tasks.items[Target(e).value].id == Target(e).value
      && Apply(s, e, now) == s.Update(Written(s.tasks.items[Target(e).value], e, now))
  {
    hide Store.NextClaim, Written;
  }

  /** The one stored task an event writes, if it writes one. */
  function Target(e: Event): Option<string> {
    match e
    case Claim(id, _) => Some(id)
    case Complete(id, _) => Some(id)
    case Fail(id, _) => Some(id)
    case Retry(id, _, _) => Some(id)
    case Cancel(_, id) => Some(id)
    case Submit(_, _) => None
    case Restart => None
  }

  /** A task later in its life: same id and request, and a claim or record moves its clock to `now`. */
  predicate Older(t: StoredTask, u: StoredTask, now: Instant) {
    && u.id == t.id && u.spec == t.spec
    && (u.updatedAt == t.updatedAt || u.updatedAt == now)
  }

  /** What an event makes of one stored task: only the target changes, and only a claim counts an attempt. */
  ghost predicate Becomes(t: StoredTask, u: StoredTask, e: Event, now: Instant) {
    && Older(t, u, now)
    && (Target(e) != Some(t.id) ==> u == t)
    && u.attempts == t.attempts + (if e.Claim? && e.id == t.id then 1 else 0)
    && (u.attempts > t.attempts ==> u.updatedAt == now)
  }

  /** No event loses or renames a task; new tasks are unattempted; known keys stay where they are. */
  ghost predicate Grows(s: Store, r: Store, e: Event, now: Instant) {
    && (forall id | id in s.tasks.items ::
          id in r.tasks.items && Becomes(s.tasks.items[id], r.tasks.items[id], e, now))
    && (forall id | id in r.tasks.items && id !in s.tasks.items :: r.tasks.items[id].attempts == 0)
    && (forall k | k in s.index :: k in r.index && r.index[k] == s.index[k])
  }

  lemma {:induction false} SubmittedAreUnattempted(s: Store, batch: seq<QueueTask>, stamps: seq<Stamp>)
    requires |batch| == |stamps|
    ensures forall id | id in SubmitAll(s, batch, stamps).tasks.items ::
      (id in s.tasks.items && SubmitAll(s, batch, stamps).tasks.items[id] == s.tasks.items[id])
      || SubmitAll(s, batch, stamps).tasks.items[id].attempts == 0
  {
    if batch != [] { SubmittedAreUnattempted(s, batch[..|batch| - 1], stamps[..|batch| - 1]); }
  }

  lemma {:induction false} WrittenBecomes(t: StoredTask, e: Event, now: Instant)
    requires Target(e) == Some(t.id)
    ensures Becomes(t, Written(t, e, now), e, now)
  {
  }

  /** Every operation and every restart keeps the store consistent and only lets it grow. */
  lemma {:induction false} ApplyKeeps(s: Store, e: Event, now: Instant)
    requires s.Consistent() && Enabled(s, e, now)
    ensures Apply(s, e, now).Consistent() && Grows(s, Apply(s, e, now), e, now)
  {
    ApplyIs(s, e, now);
    hide Store.Consistent, Grows, Enabled, Apply, Written, Becomes, SubmitAll, Load, Save;
    if e.Submit? {
      SubmitKeeps(s, e, now);
    } else if e.Restart? {
      SaveRestores(s);
      SameKeeps(s, Load(Save(s)), e, now);
    } else if Target(e).value in s.tasks.items {
      WrittenBecomes(s.tasks.items[Target(e).value], e, now);
      UpdateKeeps(s, Written(s.tasks.items[Target(e).value], e, now), e, now);
    } else {
      SameKeeps(s, s, e, now);
    }
  }

  lemma {:induction false} SubmitKeeps(s: Store, e: Event, now: Instant)
    requires s.Consistent() && Enabled(s, e, now) && e.Submit?
    ensures SubmitAll(s, e.batch, e.stamps).Consistent() && Grows(s, SubmitAll(s, e.batch, e.stamps), e, now)
  {
    SubmitConsistent(s, e.batch, e.stamps);
    SubmittedAreUnattempted(s, e.batch, e.stamps);
    hide Store.Consistent, SubmitAll;
  }

  lemma {:induction false} SameKeeps(s: Store, r: Store, e: Event, now: Instant)
    requires s.Consistent() && r.tasks.items == s.tasks.items && r.index == s.index
    requires e.Claim? ==> e.id !in s.tasks.items
    ensures Grows(s, r, e, now)
  {
  }

  lemma {:induction false} UpdateKeeps(s: Store, t: StoredTask, e: Event, now: Instant)
    requires s.Consistent() && Target(e).Some? && Target(e).value in s.tasks.items
    requires Becomes(s.tasks.items[Target(e).value], t, e, now)
    ensures s.Update(t).Consistent() && Grows(s, s.Update(t), e, now)
  {
    UpdateConsistent(s, t);
    hide Dicts.Dict.Valid;
  }

  /** A history: `states[i]` becomes `states[i + 1]` by `events[i]` at `times[i]`. */
  datatype Run = Run(states: seq<Store>, events: seq<Event>, times: seq<Instant>)

  ghost predicate IsRun(r: Run) {
    && |r.states| == |r.events| + 1 && |r.times| == |r.events|
    && r.states[0].Consistent()
    && (forall i | 0 <= i < |r.events| :: Steps(r, i))
  }

  ghost predicate Steps(r: Run, i: nat)
    requires i < |r.events| == |r.times| && |r.states| == |r.events| + 1
  {
    && r.states[i].Consistent()
    && Enabled(r.states[i], r.events[i], r.times[i])
    && r.states[i + 1] == Apply(r.states[i], r.events[i], r.times[i])
  }

  /** One step of a run. */
  lemma {:induction false} RunStep(r: Run, i: nat)
    requires IsRun(r) && i < |r.events|
    ensures r.states[i].Consistent() && r.states[i + 1].Consistent()
    ensures Enabled(r.states[i], r.events[i], r.times[i])
    ensures Grows(r.states[i], r.states[i + 1], r.events[i], r.times[i])
  {
    assert Steps(r, i);
    ApplyKeeps(r.states[i], r.events[i], r.times[i]);
  }

  /** A step of a run keeps every known key. */
  lemma {:induction false} RunGrows(r: Run, i: nat)
    requires IsRun(r) && i < |r.events|
    ensures i + 1 < |r.states|
    ensures forall k | k in r.states[i].index ::
      k in r.states[i + 1].index && r.states[i + 1].index[k] == r.states[i].index[k]
  {
    RunStep(r, i);
    hide Store.Consistent, Enabled, Becomes, Steps;
  }

  lemma {:induction false} RunConsistent(r: Run, i: nat)
    requires IsRun(r) && i < |r.states|
    ensures r.states[i].Consistent()
  {
    if i > 0 { RunStep(r, i - 1); }
  }

  /** Once a key leads to a task it leads to that task for ever, through any history with restarts. */
  lemma {:induction false} KeysAreForEver(r: Run, i: nat, j: nat, k: (string, string))
    requires IsRun(r) && i <= j < |r.states| && k in r.states[i].index
    ensures k in r.states[j].index && r.states[j].index[k] == r.states[i].index[k]
  {
    if i < j {
      RunGrows(r, j - 1);
      hide *;
      KeysAreForEver(r, i, j - 1, k);
    }
  }

  /** The id an entry was answered with is the one its key leads to ever after. */
  lemma {:induction false} AnswerLasts(r: Run, i: nat, j: nat, n: nat)
    requires IsRun(r) && i < j < |r.states| && r.events[i].Submit? && n < |r.events[i].batch|
    ensures Steps(r, i) && |r.events[i].stamps| == |r.events[i].batch|
    ensures r.events[i].batch[n].Key() in r.states[j].index
    ensures r.states[j].index[r.events[i].batch[n].Key()]
         == Receipts(r.states[i], r.events[i].batch, r.events[i].stamps)[n].task.id
  {
    SubmitStep(r, i);
    hide *;
    var s, batch, stamps := r.states[i], r.events[i].batch, r.events[i].stamps;
    ReceiptsLead(s, batch, stamps, n);
    RunConsistent(r, i + 1);
    LeadsHere(r.states[i + 1], batch[n].Key(), Receipts(s, batch, stamps)[n].task);
    KeysAreForEver(r, i + 1, j, batch[n].Key());
  }

  lemma {:induction false} SubmitStep(r: Run, i: nat)
    requires IsRun(r) && i < |r.events| && r.events[i].Submit?
    ensures i < |r.times| && |r.states| == |r.events| + 1 && Steps(r, i)
    ensures r.states[i].Consistent() && |r.events[i].stamps| == |r.events[i].batch|
    ensures Fresh(r.states[i], r.events[i].stamps)
    ensures r.states[i + 1] == SubmitAll(r.states[i], r.events[i].batch, r.events[i].stamps)
  {
    assert Steps(r, i);
    hide Store.Consistent;
    ApplyIs(r.states[i], r.events[i], r.times[i]);
    hide Enabled, Apply;
  }

  lemma {:induction false} LeadsHere(s: Store, k: (string, string), t: StoredTask)
    requires s.Consistent() && LeadsTo(s, k, t)
    ensures k in s.index && s.index[k] == t.id
  {
  }

  /** Submitting a batch again, after any history, creates nothing and answers with the ids of the first time. */
  lemma {:induction false} ResubmissionReuses(r: Run, i: nat, j: nat, again: seq<Stamp>, n: nat)
    requires IsRun(r) && i < j < |r.states| && r.events[i].Submit?
    requires |again| == |r.events[i].batch| && Fresh(r.states[j], again) && n < |again|
    ensures r.states[j].Consistent() && SubmitAll(r.states[j], r.events[i].batch, again) == r.states[j]
    ensures AcceptedIn(Receipts(r.states[j], r.events[i].batch, again)) == []
    ensures Receipts(r.states[j], r.events[i].batch, again)[n].Reused?
    ensures Steps(r, i) && |r.events[i].stamps| == |again|
    ensures Receipts(r.states[j], r.events[i].batch, again)[n].task.id
         == Receipts(r.states[i], r.events[i].batch, r.events[i].stamps)[n].task.id
  {
    RunConsistent(r, j);
    AnswerLasts(r, i, j, n);
    forall m | 0 <= m < |again| ensures r.events[i].batch[m].Key() in r.states[j].index { AnswerLasts(r, i, j, m); }
    KnownBatchIsReused(r.states[j], r.events[i].batch, again);
    hide IsRun, Receipts, SubmitAll, AcceptedIn;
  }

  /** Restarting at any point of any history changes neither the tasks nor the next claim. */
  lemma {:induction false} RestartIsInvisible(r: Run, i: nat, t: StoredTask, now: Instant, model: Option<string>)
    requires IsRun(r) && i < |r.states|
    ensures r.states[i].Consistent()
    ensures Load(Save(r.states[i])).tasks.items == r.states[i].tasks.items
    ensures Load(Save(r.states[i])).index == r.states[i].index
    ensures Load(Save(r.states[i])).NextClaim(t, now, model) <==> r.states[i].NextClaim(t, now, model)
  {
    RunConsistent(r, i);
    SaveRestores(r.states[i]);
    SameTasksSameClaim(Load(Save(r.states[i])), r.states[i], t, now, model);
  }
}
