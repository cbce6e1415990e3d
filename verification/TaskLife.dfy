/** The life of one task through any history: each field of its record is what the last event that sets it gave it. */
module TaskLife {
  import opened Wrappers
  import opened JsonValues
  import opened Tasks
  import opened TaskStore
  import opened StoreRuns

  // ---- one event --------------------------------------------------------------------------

  /** The entry of a batch that creates the task: it has the task's id, and names a key that nothing has yet. */
  ghost predicate Creates(s: Store, batch: seq<QueueTask>, stamps: seq<Stamp>, n: int, id: string) {
    && 0 <= n < |batch| == |stamps| && stamps[n].id == id
    && batch[n].Key() !in s.index && !Names(batch[..n], batch[n].Key())
  }

  /** The cancel of an unfinished task by its own tenant. */
  ghost predicate Cancels(s: Store, e: Event, id: string) {
    && e.Cancel? && e.id == id && id in s.tasks.items && s.tasks.items[id].spec.tenant == e.tenant
    && s.tasks.items[id].state !in {Succeeded, Failed, Cancelled}
  }

  /** A record of how an attempt ended, or a claim. */
  predicate Records(e: Event, id: string) { (e.Claim? || e.Complete? || e.Fail? || e.Retry?) && e.id == id }

  /** The event writes the record of the task. */
  ghost predicate Writes(s: Store, e: Event, id: string) {
    || Records(e, id) || Cancels(s, e, id)
    || (e.Submit? && exists n :: Creates(s, e.batch, e.stamps, n, id))
  }

  /** The state that a writing event leaves the task in. */
  function StateAfter(e: Event): TaskState
    requires !e.Restart?
  {
    match e
    case Submit(_, _) => Queued
    case Claim(_, _) => Running
    case Complete(_, _) => Succeeded
    case Fail(_, _) => Failed
    case Retry(_, _, _) => Queued
    case Cancel(_, _) => Cancelled
  }

  /** What a writing event makes of a stored record, field by field. */
  ghost predicate Rewrites(t: StoredTask, e: Event, now: Instant, u: StoredTask)
    requires !e.Restart?
  {
    && SameTask(t, u) && u.state == StateAfter(e) && u.updatedAt == now
    && u.attempts == t.attempts + (if e.Claim? then 1 else 0)
    && u.startedAt == (if e.Claim? && t.startedAt == None then Some(now) else t.startedAt)
    && u.finishedAt == (if e.Complete? || e.Fail? || e.Cancel? then Some(now) else t.finishedAt)
    && u.nextAttemptAt == (if e.Retry? then Some(e.next) else None)
    && u.result == (if e.Complete? then Some(e.value) else t.result)
    && u.error == (if e.Complete? then None else if e.Fail? || e.Retry? then Some(e.value) else t.error)
  }

  /** What a step does to one task: it is created, rewritten, or left as it was; no task is lost. */
  ghost predicate LifeStep(s: Store, e: Event, now: Instant, r: Store, id: string) {
    && (id in s.tasks.items ==>
          && id in r.tasks.items && !(e.Submit? && Writes(s, e, id))
          && if Writes(s, e, id) then Rewrites(s.tasks.items[id], e, now, r.tasks.items[id])
             else r.tasks.items[id] == s.tasks.items[id])
    && (id !in s.tasks.items ==>
          && (id in r.tasks.items <==> e.Submit? && Writes(s, e, id))
          && (id in r.tasks.items ==> Born(s, e, r.tasks.items[id])))
  }

  /** A created task waits to be claimed, with the request and the stamp of its entry. */
  ghost predicate Born(s: Store, e: Event, u: StoredTask) {
    e.Submit? && exists n :: Creates(s, e.batch, e.stamps, n, u.id) && Waiting(u, e.batch[n], e.stamps[n])
  }

  lemma {:induction false} WrittenIs(s: Store, e: Event, now: Instant, id: string)
    requires Target(e) == Some(id) && id in s.tasks.items && s.tasks.items[id].id == id
    ensures var t, u := s.tasks.items[id], Written(s.tasks.items[id], e, now);
      if Writes(s, e, id) then Rewrites(t, e, now, u) else u == t
  {
  }

  /** The law of one step. */
  lemma {:induction false} StepLaw(s: Store, e: Event, now: Instant, id: string)
    requires s.Consistent() && Enabled(s, e, now)
    ensures LifeStep(s, e, now, Apply(s, e, now), id)
  {
    ApplyIs(s, e, now);
    hide *;
    if e.Submit? {
      SubmitLaw(s, e.batch, e.stamps, now, id);
    } else if e.Restart? {
      SaveRestores(s);
      SameLaw(s, Load(Save(s)), e, now, id);
    } else if Target(e).value !in s.tasks.items {
      AbsentLaw(s, e, now, id);
    } else {
      WrittenIs(s, e, now, Target(e).value);
      UpdateLaw(s, e, now, id);
    }
  }

  lemma {:induction false} SameLaw(s: Store, r: Store, e: Event, now: Instant, id: string)
    requires s.tasks.Valid() && e.Restart? && Restores(Save(s), s) && r == Load(Save(s))
    ensures LifeStep(s, e, now, r, id)
  {
    hide Load, Save, Rewrites, Born;
  }

  lemma {:induction false} AbsentLaw(s: Store, e: Event, now: Instant, id: string)
    requires s.Consistent() && Enabled(s, e, now) && Target(e).Some? && Target(e).value !in s.tasks.items
    ensures LifeStep(s, e, now, s, id)
  {
    hide Store.Consistent, Rewrites, Born, Store.NextClaim;
  }

  lemma {:induction false} UpdateLaw(s: Store, e: Event, now: Instant, id: string)
    requires Target(e).Some? && Target(e).value in s.tasks.items && s.tasks.items[Target(e).value].id == Target(e).value
    requires var t := s.tasks.items[Target(e).value];
      if Writes(s, e, t.id) then Rewrites(t, e, now, Written(t, e, now)) else Written(t, e, now) == t
    ensures LifeStep(s, e, now, s.Update(Written(s.tasks.items[Target(e).value], e, now)), id)
  {
    WrittenSame(s.tasks.items[Target(e).value], e, now);
    hide Written, Born;
  }

  lemma {:induction false} WrittenSame(t: StoredTask, e: Event, now: Instant)
    ensures SameTask(t, Written(t, e, now))
  {
  }

  /** A batch creates exactly the tasks of the first mentions of unknown keys. */
  lemma {:induction false} SubmitLaw(s: Store, batch: seq<QueueTask>, stamps: seq<Stamp>, now: Instant, id: string)
    requires |batch| == |stamps| && s.Consistent() && Fresh(s, stamps)
    ensures LifeStep(s, Submit(batch, stamps), now, SubmitAll(s, batch, stamps), id)
  {
    SubmitConsistent(s, batch, stamps);
    hide *;
    CreatesFresh(s, batch, stamps, id);
    if id !in s.tasks.items {
      if id in SubmitAll(s, batch, stamps).tasks.items {
        var n := CreatedBy(s, batch, stamps, id);
        BornLaw(s, batch, stamps, now, id, n);
      } else {
        NotCreated(s, batch, stamps, now, id);
      }
    } else {
      KeptLaw(s, batch, stamps, now, id);
    }
  }

  lemma {:induction false} CreatesFresh(s: Store, batch: seq<QueueTask>, stamps: seq<Stamp>, id: string)
    requires Fresh(s, stamps)
    ensures id in s.tasks.items ==> forall n :: !Creates(s, batch, stamps, n, id)
  {
  }

  lemma {:induction false} KeptLaw(s: Store, batch: seq<QueueTask>, stamps: seq<Stamp>, now: Instant, id: string)
    requires |batch| == |stamps| && Extends(s, SubmitAll(s, batch, stamps)) && id in s.tasks.items
    requires forall n :: !Creates(s, batch, stamps, n, id)
    ensures LifeStep(s, Submit(batch, stamps), now, SubmitAll(s, batch, stamps), id)
  {
    hide SubmitAll, Creates, Rewrites, Born;
  }

  lemma {:induction false} BornLaw(s: Store, batch: seq<QueueTask>, stamps: seq<Stamp>, now: Instant, id: string,
                                   n: nat)
    requires |batch| == |stamps| && id !in s.tasks.items && id in SubmitAll(s, batch, stamps).tasks.items
    requires Creates(s, batch, stamps, n, id)
    requires Waiting(SubmitAll(s, batch, stamps).tasks.items[id], batch[n], stamps[n])
    ensures LifeStep(s, Submit(batch, stamps), now, SubmitAll(s, batch, stamps), id)
  {
    hide SubmitAll, Rewrites;
  }

  /** Every first mention of an unknown key is created. */
  lemma {:induction false} NotCreated(s: Store, batch: seq<QueueTask>, stamps: seq<Stamp>, now: Instant, id: string)
    requires |batch| == |stamps| && s.Consistent() && Fresh(s, stamps)
    requires id !in s.tasks.items && id !in SubmitAll(s, batch, stamps).tasks.items
    ensures LifeStep(s, Submit(batch, stamps), now, SubmitAll(s, batch, stamps), id)
  {
    hide *;
    forall n ensures !Creates(s, batch, stamps, n, id) {
      if Creates(s, batch, stamps, n, id) {
        FirstMention(s, batch, stamps, n, id);
        AcceptedIffNew(s, batch, stamps, n);
        AcceptedWaits(s, batch, stamps, n);
        ReceiptsLead(s, batch, stamps, n);
        SubmitConsistent(s, batch, stamps);
        LeadsStored(SubmitAll(s, batch, stamps), batch[n], stamps[n], Receipts(s, batch, stamps)[n].task);
      }
    }
    Uncreated(s, SubmitAll(s, batch, stamps), batch, stamps, now, id);
  }

  lemma {:induction false} FirstMention(s: Store, batch: seq<QueueTask>, stamps: seq<Stamp>, n: int, id: string)
    requires Creates(s, batch, stamps, n, id)
    ensures 0 <= n < |batch| == |stamps| && stamps[n].id == id
    ensures batch[n].Key() !in s.index && !Names(batch[..n], batch[n].Key())
  {
  }

  lemma {:induction false} LeadsStored(s: Store, q: QueueTask, stamp: Stamp, t: StoredTask)
    requires s.Consistent() && LeadsTo(s, q.Key(), t) && Waiting(t, q, stamp)
    ensures stamp.id in s.tasks.items && s.tasks.items[stamp.id] == t
  {
  }

  lemma {:induction false} Uncreated(s: Store, r: Store, batch: seq<QueueTask>, stamps: seq<Stamp>, now: Instant,
                                     id: string)
    requires id !in s.tasks.items && id !in r.tasks.items && forall n :: !Creates(s, batch, stamps, n, id)
    ensures LifeStep(s, Submit(batch, stamps), now, r, id)
  {
  }

  /** A new task was created by an entry. */
  lemma {:induction false} CreatedBy(s: Store, batch: seq<QueueTask>, stamps: seq<Stamp>, id: string) returns (n: nat)
    requires |batch| == |stamps| && s.Consistent() && Fresh(s, stamps)
    requires id !in s.tasks.items && id in SubmitAll(s, batch, stamps).tasks.items
    ensures Creates(s, batch, stamps, n, id)
    ensures Waiting(SubmitAll(s, batch, stamps).tasks.items[id], batch[n], stamps[n])
  {
    var m := |batch| - 1;
    LastCreates(s, batch, stamps, id);
    hide *;
    if id in SubmitAll(s, batch[..m], stamps[..m]).tasks.items {
      n := CreatedBy(s, batch[..m], stamps[..m], id);
      CreatesMore(s, batch, stamps, n, id);
    } else {
      n := m;
    }
  }

  lemma {:induction false} CreatesMore(s: Store, batch: seq<QueueTask>, stamps: seq<Stamp>, n: nat, id: string)
    requires |batch| == |stamps| && batch != []
    requires Creates(s, batch[..|batch| - 1], stamps[..|batch| - 1], n, id)
    ensures n < |batch| - 1 && Creates(s, batch, stamps, n, id)
    ensures batch[n] == batch[..|batch| - 1][n] && stamps[n] == stamps[..|batch| - 1][n]
  {
    assert batch[..|batch| - 1][..n] == batch[..n];
  }

  /** The last entry of a batch either leaves the tasks alone or creates its own. */
  lemma {:induction false} LastCreates(s: Store, batch: seq<QueueTask>, stamps: seq<Stamp>, id: string)
    requires |batch| == |stamps| && s.Consistent() && Fresh(s, stamps)
    requires id !in s.tasks.items && id in SubmitAll(s, batch, stamps).tasks.items
    ensures batch != []
    ensures var m := |batch| - 1;
      var before, after := SubmitAll(s, batch[..m], stamps[..m]), SubmitAll(s, batch, stamps);
      && Fresh(s, stamps[..m])
      && (id in before.tasks.items ==> after.tasks.items[id] == before.tasks.items[id])
      && (id !in before.tasks.items ==>
            Creates(s, batch, stamps, m, id) && Waiting(after.tasks.items[id], batch[m], stamps[m]))
  {
    if batch == [] {
      hide Store.Consistent;
    } else {
      var m := |batch| - 1;
      SubmitLast(s, batch, stamps);
      SubmitKnows(s, batch[..m], stamps[..m], batch[m].Key());
      hide *;
      OneCreates(s, SubmitAll(s, batch[..m], stamps[..m]), batch, stamps, id);
    }
  }

  lemma {:induction false} OneCreates(s: Store, before: Store, batch: seq<QueueTask>, stamps: seq<Stamp>, id: string)
    requires |batch| == |stamps| && batch != []
    requires var m := |batch| - 1;
      && stamps[m].id !in before.tasks.items && id in SubmitOne(before, batch[m], stamps[m]).tasks.items
      && (batch[m].Key() in before.index <==> batch[m].Key() in s.index || Names(batch[..m], batch[m].Key()))
    ensures var m := |batch| - 1;
      var after := SubmitOne(before, batch[m], stamps[m]);
      && (id in before.tasks.items ==> after.tasks.items[id] == before.tasks.items[id])
      && (id !in before.tasks.items ==>
            Creates(s, batch, stamps, m, id) && Waiting(after.tasks.items[id], batch[m], stamps[m]))
  {
    hide Names;
  }

  // ---- a whole history --------------------------------------------------------------------

  lemma {:induction false} RunLaw(r: Run, i: nat, id: string)
    requires IsRun(r) && i < |r.events|
    ensures i < |r.times| && i + 1 < |r.states|
    ensures r.states[i].Consistent() && Enabled(r.states[i], r.events[i], r.times[i])
    ensures LifeStep(r.states[i], r.events[i], r.times[i], r.states[i + 1], id)
  {
    assert Steps(r, i);
    StepLaw(r.states[i], r.events[i], r.times[i], id);
  }

  ghost predicate WritesAt(r: Run, i: int, id: string) {
    0 <= i < |r.events| && i < |r.states| && Writes(r.states[i], r.events[i], id)
  }

  /** Event `i` is the last before `j` that writes the task. */
  ghost predicate LastWriter(r: Run, i: int, j: int, id: string) {
    && IsRun(r) && 0 <= i < j < |r.states|
    && WritesAt(r, i, id) && forall n | i < n < j :: !WritesAt(r, n, id)
  }

  /** The state of a task is the one that its last writer gives it, and so is the time of its next attempt. */
  lemma {:induction false} StateIsLastWritten(r: Run, i: nat, j: nat, id: string)
    requires LastWriter(r, i, j, id)
    ensures id in r.states[j].tasks.items && i < |r.events| && i < |r.times| && !r.events[i].Restart?
    ensures var e, u := r.events[i], r.states[j].tasks.items[id];
      && u.state == StateAfter(e)
      && u.nextAttemptAt == (if e.Retry? then Some(e.next) else None)
      && (e.Submit? ==> id !in r.states[i].tasks.items && Born(r.states[i], e, u))
      && (!e.Submit? ==> id in r.states[i].tasks.items && Rewrites(r.states[i].tasks.items[id], e, r.times[i], u))
  {
    RunLaw(r, j - 1, id);
    if i < j - 1 {
      hide *;
      EarlierWriter(r, i, j, id);
      StateIsLastWritten(r, i, j - 1, id);
      Unwritten(r, j - 1, id);
    } else {
      assert WritesAt(r, i, id);
      hide Store.Consistent, Enabled, IsRun, Creates, Names;
    }
  }

  lemma {:induction false} EarlierWriter(r: Run, i: nat, j: nat, id: string)
    requires LastWriter(r, i, j, id) && i < j - 1
    ensures LastWriter(r, i, j - 1, id) && !WritesAt(r, j - 1, id)
  {
  }

  /** A record that an event does not write stays as it is. */
  lemma {:induction false} Unwritten(r: Run, i: nat, id: string)
    requires IsRun(r) && i < |r.events| && !WritesAt(r, i, id)
    ensures i + 1 < |r.states|
    ensures id in r.states[i].tasks.items <==> id in r.states[i + 1].tasks.items
    ensures id in r.states[i].tasks.items ==> r.states[i + 1].tasks.items[id] == r.states[i].tasks.items[id]
  {
    RunLaw(r, i, id);
    hide Store.Consistent, Enabled, IsRun, Writes, Rewrites, Born;
  }

  /** A task that was not there at the start has a last writer. */
  lemma {:induction false} HasWriter(r: Run, j: nat, id: string) returns (i: nat)
    requires IsRun(r) && j < |r.states| && id !in r.states[0].tasks.items && id in r.states[j].tasks.items
    ensures LastWriter(r, i, j, id)
  {
    hide Writes;
    if WritesAt(r, j - 1, id) {
      i := j - 1;
    } else {
      Unwritten(r, j - 1, id);
      i := HasWriter(r, j - 1, id);
    }
  }

  /** From a writing event on there is a last writer. */
  lemma {:induction false} WriterSince(r: Run, i: nat, j: nat, id: string) returns (w: nat)
    requires IsRun(r) && i < j < |r.states| && WritesAt(r, i, id)
    ensures i <= w && LastWriter(r, w, j, id)
  {
    hide Writes;
    if WritesAt(r, j - 1, id) {
      w := j - 1;
    } else {
      w := WriterSince(r, i, j - 1, id);
    }
  }

  /** A stored task is never lost. */
  lemma {:induction false} StoredStays(r: Run, i: nat, j: nat, id: string)
    requires IsRun(r) && i <= j < |r.states| && id in r.states[i].tasks.items
    ensures id in r.states[j].tasks.items
  {
    if i < j {
      StoredStays(r, i, j - 1, id);
      RunLaw(r, j - 1, id);
      hide Store.Consistent, Enabled, IsRun, Writes, Rewrites, Born;
    }
  }

  /** Between two claims of one task it was queued again: no attempt is ever given out twice. */
  lemma {:induction false} ClaimedOnceUntilRetried(r: Run, i: nat, j: nat, id: string)
    requires IsRun(r) && i < j < |r.events|
    requires r.events[i].Claim? && r.events[i].id == id && r.events[j].Claim? && r.events[j].id == id
    ensures exists k :: i < k < j && r.events[k].Retry? && r.events[k].id == id
  {
    ClaimTakes(r, i, id);
    ClaimTakes(r, j, id);
    hide *;
    var w := WriterSince(r, i, j, id);
    StateIsLastWritten(r, w, j, id);
    StoredStays(r, i, w, id);
    QueuedBy(r, w, j, id);
  }

  /** A claim takes a queued task. */
  lemma {:induction false} ClaimTakes(r: Run, i: nat, id: string)
    requires IsRun(r) && i < |r.events| && r.events[i].Claim? && r.events[i].id == id
    ensures WritesAt(r, i, id) && i < |r.states|
    ensures id in r.states[i].tasks.items && r.states[i].tasks.items[id].state == Queued
  {
    RunLaw(r, i, id);
    hide Store.Consistent, Store.NextClaim;
    ClaimConsistent(r.states[i], r.states[i].tasks.items[id], r.times[i], r.events[i].model);
  }

  /** Only a submission or a retry queues a task. */
  lemma {:induction false} QueuedBy(r: Run, w: nat, j: nat, id: string)
    requires LastWriter(r, w, j, id) && w < |r.events| && !r.events[w].Restart? && StateAfter(r.events[w]) == Queued
    ensures r.events[w].Submit? || (r.events[w].Retry? && r.events[w].id == id)
  {
    hide Creates, IsRun;
  }

  // ---- the record is the history ----------------------------------------------------------

  /** How often the task was claimed, and when first. */
  function Claims(r: Run, id: string, j: nat): nat
    requires j <= |r.events|
  {
    if j == 0 then 0 else Claims(r, id, j - 1) + if r.events[j - 1].Claim? && r.events[j - 1].id == id then 1 else 0
  }

  function FirstClaim(r: Run, id: string, j: nat): Option<Instant>
    requires j <= |r.events| == |r.times|
  {
    if j == 0 then None
    else if FirstClaim(r, id, j - 1).Some? then FirstClaim(r, id, j - 1)
    else if r.events[j - 1].Claim? && r.events[j - 1].id == id then Some(r.times[j - 1]) else None
  }

  /** The result that was recorded last. */
  function LastResult(r: Run, id: string, j: nat): Option<Json>
    requires j <= |r.events|
  {
    if j == 0 then None
    else if r.events[j - 1].Complete? && r.events[j - 1].id == id then Some(r.events[j - 1].value)
    else LastResult(r, id, j - 1)
  }

  /** The error that was recorded last, unless a result came after it. */
  function LastError(r: Run, id: string, j: nat): Option<Json>
    requires j <= |r.events|
  {
    if j == 0 then None
    else
      var e := r.events[j - 1];
      if (e.Fail? || e.Retry?) && e.id == id then Some(e.value)
      else if e.Complete? && e.id == id then None
      else LastError(r, id, j - 1)
  }

  /** When the task last came to an end. */
  ghost function LastEnd(r: Run, id: string, j: nat): Option<Instant>
    requires j <= |r.events| == |r.times| && |r.states| == |r.events| + 1
  {
    if j == 0 then None
    else
      var e := r.events[j - 1];
      if ((e.Complete? || e.Fail?) && e.id == id) || Cancels(r.states[j - 1], e, id) then Some(r.times[j - 1])
      else LastEnd(r, id, j - 1)
  }

  /** The record agrees with the first `j` events. */
  ghost predicate Tells(r: Run, id: string, j: nat, u: StoredTask)
    requires j <= |r.events| == |r.times| && |r.states| == |r.events| + 1
  {
    && u.attempts == Claims(r, id, j) && u.startedAt == FirstClaim(r, id, j)
    && u.result == LastResult(r, id, j) && u.error == LastError(r, id, j) && u.finishedAt == LastEnd(r, id, j)
  }

  /**
   * The record of a task is its history: as many attempts as claims, started at the first of them, the last recorded
   * result and error, finished when it last came to an end.
   */
  lemma {:induction false} RecordIsHistory(r: Run, j: nat, id: string)
    requires IsRun(r) && j < |r.states| && id !in r.states[0].tasks.items
    ensures j <= |r.events| == |r.times| && |r.states| == |r.events| + 1
    ensures id in r.states[j].tasks.items ==> Tells(r, id, j, r.states[j].tasks.items[id])
    ensures id !in r.states[j].tasks.items ==>
      && Claims(r, id, j) == 0 && FirstClaim(r, id, j) == None
      && LastResult(r, id, j) == None && LastError(r, id, j) == None && LastEnd(r, id, j) == None
  {
    if j > 0 {
      RecordIsHistory(r, j - 1, id);
      RunLaw(r, j - 1, id);
      hide IsRun;
      OneMore(r, j - 1, id);
    }
  }

  lemma {:induction false} OneMore(r: Run, j: nat, id: string)
    requires j < |r.events| == |r.times| && |r.states| == |r.events| + 1
    requires r.states[j].Consistent() && Enabled(r.states[j], r.events[j], r.times[j])
    requires LifeStep(r.states[j], r.events[j], r.times[j], r.states[j + 1], id)
    requires id in r.states[j].tasks.items ==> Tells(r, id, j, r.states[j].tasks.items[id])
    requires id !in r.states[j].tasks.items ==>
      && Claims(r, id, j) == 0 && FirstClaim(r, id, j) == None
      && LastResult(r, id, j) == None && LastError(r, id, j) == None && LastEnd(r, id, j) == None
    ensures id in r.states[j + 1].tasks.items ==> Tells(r, id, j + 1, r.states[j + 1].tasks.items[id])
    ensures id !in r.states[j + 1].tasks.items ==>
      && Claims(r, id, j + 1) == 0 && FirstClaim(r, id, j + 1) == None
      && LastResult(r, id, j + 1) == None && LastError(r, id, j + 1) == None && LastEnd(r, id, j + 1) == None
  {
    hide Store.Consistent, Store.NextClaim, Creates;
  }
}
