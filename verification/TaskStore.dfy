/** The in-memory and JSON-file task stores: what each operation makes of the stored tasks. */
module TaskStore {
  import opened Wrappers
  import opened TextOrder
  import opened Seqs
  import opened Dicts
  import opened JsonValues
  import opened Tasks
  import opened FairClaim

  /** `_tasks_by_id` and `_idempotency_index`. */
  datatype Store = Store(tasks: Dict<string, StoredTask>, index: map<(string, string), string>) {

    /** The two dictionaries are inverse to each other. */
    ghost predicate Consistent() {
      && tasks.Valid()
      && (forall id | id in tasks.items ::
            && tasks.items[id].id == id
            && tasks.items[id].spec.Key() in index
            && index[tasks.items[id].spec.Key()] == id)
      && (forall k | k in index ::
            index[k] in tasks.items && tasks.items[index[k]].spec.Key() == k)
    }

    function Rows(): seq<StoredTask>
      requires tasks.Valid()
    {
      tasks.Values()
    }

    /** Write back a task that is already stored. */
    function Update(t: StoredTask): Store {
      this.(tasks := tasks.Put(t.id, t))
    }

    /** `t` is what `claim_next` must pick at `now`. */
    ghost predicate NextClaim(t: StoredTask, now: Instant, model: Option<string>)
      requires tasks.Valid()
    {
      IsFairest(t, Candidates(Rows(), now, model), Rows())
    }
  }

  lemma {:induction false} RowsIdentify(s: Store)
    requires s.Consistent()
    ensures IdsIdentify(s.Rows())
    ensures forall t :: t in s.Rows() <==> t.id in s.tasks.items && s.tasks.items[t.id] == t
  {
    s.tasks.ValuesMembers();
  }

  lemma {:induction false} UpdateConsistent(s: Store, t: StoredTask)
    requires s.Consistent() && t.id in s.tasks.items && t.spec == s.tasks.items[t.id].spec
    ensures s.Update(t).Consistent()
  {
  }

  // ---- submission -------------------------------------------------------------------------

  /** What the environment supplies for a new task: a fresh id and two clock readings. */
  datatype Stamp = Stamp(id: string, created: Instant, updated: Instant)

  ghost predicate Fresh(s: Store, stamps: seq<Stamp>) {
    && (forall i | 0 <= i < |stamps| :: stamps[i].id !in s.tasks.items)
    && (forall i, j | 0 <= i < j < |stamps| :: stamps[i].id != stamps[j].id)
  }

  function NewTask(q: QueueTask, stamp: Stamp): StoredTask {
    StoredTask(stamp.id, q, Queued, stamp.created, stamp.updated, 0, None, None, None, None, None)
  }

  /** A task as its submission leaves it: claimable at once, and nothing in it yet that a claim or a record writes. */
  ghost predicate Waiting(t: StoredTask, q: QueueTask, stamp: Stamp) {
    && t.spec == q && t.id == stamp.id && t.createdAt == stamp.created && t.updatedAt == stamp.updated
    && t.state == Queued && t.attempts == 0 && t.startedAt == None && t.finishedAt == None && t.nextAttemptAt == None
    && t.result == None && t.error == None
    && (forall now, model :: t.Claimable(now, model) <==> model == None || model == Some(q.model))
  }

  function SubmitOne(s: Store, q: QueueTask, stamp: Stamp): Store {
    if q.Key() in s.index then s
    else Store(s.tasks.Put(stamp.id, NewTask(q, stamp)), s.index[q.Key() := stamp.id])
  }

  function SubmitAll(s: Store, batch: seq<QueueTask>, stamps: seq<Stamp>): Store
    requires |batch| == |stamps|
  {
    if batch == [] then s
    else
      var n := |batch| - 1;
      SubmitOne(SubmitAll(s, batch[..n], stamps[..n]), batch[n], stamps[n])
  }

  /** `r` still has everything `s` had. */
  ghost predicate Extends(s: Store, r: Store) {
    && (forall k | k in s.index :: k in r.index && r.index[k] == s.index[k])
    && (forall id | id in s.tasks.items :: id in r.tasks.items && r.tasks.items[id] == s.tasks.items[id])
  }

  lemma {:induction false} SubmitOneGrows(s: Store, q: QueueTask, stamp: Stamp)
    requires s.Consistent() && stamp.id !in s.tasks.items
    ensures SubmitOne(s, q, stamp).Consistent() && Extends(s, SubmitOne(s, q, stamp))
    ensures q.Key() in SubmitOne(s, q, stamp).index
    ensures SubmitOne(s, q, stamp).tasks.items.Keys <= s.tasks.items.Keys + {stamp.id}
    ensures SubmitOne(s, q, stamp).index.Keys == s.index.Keys + {q.Key()}
  {
    SubmitOneConsistent(s, q, stamp);
    SubmitOneExtends(s, q, stamp);
    hide *;
  }

  lemma {:induction false} SubmitOneExtends(s: Store, q: QueueTask, stamp: Stamp)
    requires stamp.id !in s.tasks.items
    ensures Extends(s, SubmitOne(s, q, stamp))
    ensures q.Key() in SubmitOne(s, q, stamp).index
    ensures SubmitOne(s, q, stamp).tasks.items.Keys <= s.tasks.items.Keys + {stamp.id}
    ensures SubmitOne(s, q, stamp).index.Keys == s.index.Keys + {q.Key()}
  {
  }

  lemma {:induction false} SubmitOneConsistent(s: Store, q: QueueTask, stamp: Stamp)
    requires s.Consistent() && stamp.id !in s.tasks.items
    ensures SubmitOne(s, q, stamp).Consistent()
  {
    hide Dict.Valid;
  }

  /** A batch keeps the two dictionaries inverse and forgets nothing. */
  lemma {:induction false} SubmitConsistent(s: Store, batch: seq<QueueTask>, stamps: seq<Stamp>)
    requires |batch| == |stamps| && s.Consistent() && Fresh(s, stamps)
    ensures SubmitAll(s, batch, stamps).Consistent()
    ensures Extends(s, SubmitAll(s, batch, stamps))
    ensures forall id | id in SubmitAll(s, batch, stamps).tasks.items ::
      id in s.tasks.items || exists i :: 0 <= i < |stamps| && stamps[i].id == id
  {
    hide Store.Consistent;
    if batch != [] {
      var n := |batch| - 1;
      SubmitConsistent(s, batch[..n], stamps[..n]);
      SubmitOneGrows(SubmitAll(s, batch[..n], stamps[..n]), batch[n], stamps[n]);
    }
  }

  /** The last task of a batch comes to a store that does not know its id. */
  lemma {:induction false} SubmitLast(s: Store, batch: seq<QueueTask>, stamps: seq<Stamp>)
    requires s.Consistent() && |batch| == |stamps| && Fresh(s, stamps) && batch != []
    ensures var n := |batch| - 1;
      var before := SubmitAll(s, batch[..n], stamps[..n]);
      && Fresh(s, stamps[..n]) && before.Consistent() && stamps[n].id !in before.tasks.items
      && SubmitAll(s, batch, stamps) == SubmitOne(before, batch[n], stamps[n])
  {
    hide Store.Consistent, SubmitOne;
    SubmitConsistent(s, batch[..|batch| - 1], stamps[..|batch| - 1]);
  }

  ghost predicate Names(batch: seq<QueueTask>, k: (string, string)) {
    exists j :: 0 <= j < |batch| && batch[j].Key() == k
  }

  lemma {:induction false} NamesStep(batch: seq<QueueTask>, k: (string, string))
    requires batch != []
    ensures Names(batch, k) <==> Names(batch[..|batch| - 1], k) || batch[|batch| - 1].Key() == k
  {
    if Names(batch, k) {
      var j :| 0 <= j < |batch| && batch[j].Key() == k;
      if j < |batch| - 1 { assert batch[..|batch| - 1][j].Key() == k; }
    }
    if Names(batch[..|batch| - 1], k) {
      var j :| 0 <= j < |batch| - 1 && batch[..|batch| - 1][j].Key() == k;
      assert batch[j].Key() == k;
    }
  }

  /** The keys known after a batch are the old ones and those the batch names. */
  lemma {:induction false} SubmitKnows(s: Store, batch: seq<QueueTask>, stamps: seq<Stamp>, k: (string, string))
    requires |batch| == |stamps|
    ensures k in SubmitAll(s, batch, stamps).index <==> k in s.index || Names(batch, k)
  {
    if batch != [] {
      SubmitKnows(s, batch[..|batch| - 1], stamps[..|batch| - 1], k);
      NamesStep(batch, k);
    }
  }

  /** What one entry of a batch is answered with. */
  datatype Receipt = Accepted(task: StoredTask) | Reused(task: StoredTask)

  function Answer(s: Store, q: QueueTask, stamp: Stamp): Receipt
    requires s.Consistent()
  {
    if q.Key() in s.index then Reused(s.tasks.items[s.index[q.Key()]]) else Accepted(NewTask(q, stamp))
  }

  function Receipts(s: Store, batch: seq<QueueTask>, stamps: seq<Stamp>): (r: seq<Receipt>)
    requires |batch| == |stamps| && s.Consistent() && Fresh(s, stamps)
    ensures |r| == |batch|
  {
    if batch == [] then []
    else
      var n := |batch| - 1;
      SubmitConsistent(s, batch[..n], stamps[..n]);
      Receipts(s, batch[..n], stamps[..n]) + [Answer(SubmitAll(s, batch[..n], stamps[..n]), batch[n], stamps[n])]
  }

  /** The last entry of a batch is answered by the store that the others leave. */
  lemma {:induction false} LastReceipt(s: Store, batch: seq<QueueTask>, stamps: seq<Stamp>)
    requires |batch| == |stamps| && s.Consistent() && Fresh(s, stamps) && batch != []
    ensures var n := |batch| - 1;
      && Fresh(s, stamps[..n])
      && SubmitAll(s, batch[..n], stamps[..n]).Consistent()
      && SubmitAll(s, batch, stamps) == SubmitOne(SubmitAll(s, batch[..n], stamps[..n]), batch[n], stamps[n])
      && Receipts(s, batch, stamps)
           == Receipts(s, batch[..n], stamps[..n])
              + [Answer(SubmitAll(s, batch[..n], stamps[..n]), batch[n], stamps[n])]
  {
    hide Store.Consistent, SubmitOne, Answer;
    SubmitConsistent(s, batch[..|batch| - 1], stamps[..|batch| - 1]);
  }

  lemma {:induction false} ReceiptsStep(s: Store, batch: seq<QueueTask>, stamps: seq<Stamp>, i: nat)
    requires |batch| == |stamps| && s.Consistent() && Fresh(s, stamps) && i < |batch|
    ensures Fresh(s, stamps[..i]) && Fresh(s, stamps[..i + 1])
    ensures SubmitAll(s, batch[..i], stamps[..i]).Consistent()
    ensures SubmitAll(s, batch[..i + 1], stamps[..i + 1])
         == SubmitOne(SubmitAll(s, batch[..i], stamps[..i]), batch[i], stamps[i])
    ensures Receipts(s, batch[..i + 1], stamps[..i + 1])
         == Receipts(s, batch[..i], stamps[..i]) + [Answer(SubmitAll(s, batch[..i], stamps[..i]), batch[i], stamps[i])]
  {
    FreshPrefix(s, stamps, i + 1);
    hide *;
    LastReceipt(s, batch[..i + 1], stamps[..i + 1]);
    assert batch[..i + 1][..i] == batch[..i] && stamps[..i + 1][..i] == stamps[..i];
  }

  lemma {:induction false} FreshPrefix(s: Store, stamps: seq<Stamp>, i: nat)
    requires Fresh(s, stamps) && i <= |stamps|
    ensures Fresh(s, stamps[..i])
  {
  }

  function AcceptedIn(r: seq<Receipt>): seq<StoredTask> {
    if r == [] then []
    else AcceptedIn(r[..|r| - 1]) + if r[|r| - 1].Accepted? then [r[|r| - 1].task] else []
  }

  function ReusedIn(r: seq<Receipt>): seq<StoredTask> {
    if r == [] then []
    else ReusedIn(r[..|r| - 1]) + if r[|r| - 1].Reused? then [r[|r| - 1].task] else []
  }

  /** The task that a key leads to. */
  ghost predicate LeadsTo(s: Store, k: (string, string), t: StoredTask) {
    k in s.index && s.index[k] in s.tasks.items && s.tasks.items[s.index[k]] == t
  }

  lemma {:induction false} AnswerLeads(s: Store, q: QueueTask, stamp: Stamp)
    requires s.Consistent() && stamp.id !in s.tasks.items
    ensures LeadsTo(SubmitOne(s, q, stamp), q.Key(), Answer(s, q, stamp).task)
  {
  }

  /** Each entry is answered with the task its key leads to afterwards. */
  lemma {:induction false} ReceiptsLead(s: Store, batch: seq<QueueTask>, stamps: seq<Stamp>, i: nat)
    requires |batch| == |stamps| && s.Consistent() && Fresh(s, stamps) && i < |batch|
    ensures LeadsTo(SubmitAll(s, batch, stamps), batch[i].Key(), Receipts(s, batch, stamps)[i].task)
  {
    hide Store.Consistent, SubmitOne, Answer;
    var n := |batch| - 1;
    var before := SubmitAll(s, batch[..n], stamps[..n]);
    SubmitConsistent(s, batch[..n], stamps[..n]);
    SubmitOneGrows(before, batch[n], stamps[n]);
    AnswerLeads(before, batch[n], stamps[n]);
    if i < n { ReceiptsLead(s, batch[..n], stamps[..n], i); }
  }

  /** A task is newly made exactly for the first mention of an unknown key. */
  lemma {:induction false} AcceptedIffNew(s: Store, batch: seq<QueueTask>, stamps: seq<Stamp>, i: nat)
    requires |batch| == |stamps| && s.Consistent() && Fresh(s, stamps) && i < |batch|
    ensures Receipts(s, batch, stamps)[i].Accepted? <==>
      batch[i].Key() !in s.index && !Names(batch[..i], batch[i].Key())
  {
    hide Store.Consistent;
    var n := |batch| - 1;
    SubmitConsistent(s, batch[..n], stamps[..n]);
    assert batch[..n][..i] == batch[..i];
    if i < n {
      AcceptedIffNew(s, batch[..n], stamps[..n], i);
    } else {
      SubmitKnows(s, batch[..n], stamps[..n], batch[n].Key());
    }
  }

  /** An accepted task waits to be claimed. */
  lemma {:induction false} AcceptedWaits(s: Store, batch: seq<QueueTask>, stamps: seq<Stamp>, i: nat)
    requires |batch| == |stamps| && s.Consistent() && Fresh(s, stamps) && i < |batch|
    ensures Receipts(s, batch, stamps)[i].Accepted? ==>
      Waiting(Receipts(s, batch, stamps)[i].task, batch[i], stamps[i])
  {
    var n := |batch| - 1;
    LastReceipt(s, batch, stamps);
    hide *;
    if i < n {
      ReceiptsBefore(s, batch, stamps, i);
      AcceptedWaits(s, batch[..n], stamps[..n], i);
    } else {
      AnswerWaits(SubmitAll(s, batch[..n], stamps[..n]), batch[n], stamps[n]);
    }
  }

  lemma {:induction false} AnswerWaits(s: Store, q: QueueTask, stamp: Stamp)
    requires s.Consistent()
    ensures Answer(s, q, stamp).Accepted? ==> Waiting(Answer(s, q, stamp).task, q, stamp)
  {
    hide Store.Consistent;
  }

  /** The entries before the last are answered as they are without it. */
  lemma {:induction false} ReceiptsBefore(s: Store, batch: seq<QueueTask>, stamps: seq<Stamp>, i: nat)
    requires |batch| == |stamps| && s.Consistent() && Fresh(s, stamps) && i < |batch| - 1
    ensures var n := |batch| - 1;
      && Fresh(s, stamps[..n]) && batch[..n][i] == batch[i] && stamps[..n][i] == stamps[i]
      && Receipts(s, batch[..n], stamps[..n])[i] == Receipts(s, batch, stamps)[i]
  {
    hide Store.Consistent, Answer;
  }

  /** The two lists share out the answers. */
  lemma {:induction false} ListsShare(r: seq<Receipt>)
    ensures |AcceptedIn(r)| + |ReusedIn(r)| == |r|
    ensures forall i | 0 <= i < |r| :: if r[i].Accepted? then r[i].task in AcceptedIn(r) else r[i].task in ReusedIn(r)
  {
    if r != [] {
      var n := |r| - 1;
      LastShared(r);
      hide *;
      ListsShare(r[..n]);
      forall i | 0 <= i < |r|
        ensures if r[i].Accepted? then r[i].task in AcceptedIn(r) else r[i].task in ReusedIn(r)
      {
        assert i < n ==> r[..n][i] == r[i];
      }
    }
  }

  /** The last answer ends one of the lists. */
  lemma {:induction false} LastShared(r: seq<Receipt>)
    requires r != []
    ensures var n := |r| - 1;
      && AcceptedIn(r) == AcceptedIn(r[..n]) + (if r[n].Accepted? then [r[n].task] else [])
      && ReusedIn(r) == ReusedIn(r[..n]) + (if r[n].Reused? then [r[n].task] else [])
  {
  }

  lemma {:induction false} AcceptedFrom(r: seq<Receipt>, t: StoredTask) returns (i: nat)
    requires t in AcceptedIn(r)
    ensures i < |r| && r[i] == Accepted(t)
  {
    var n := |r| - 1;
    if t in AcceptedIn(r[..n]) { i := AcceptedFrom(r[..n], t); } else { i := n; }
  }

  /**
   * How an entry of a batch is answered: a first mention of an unknown key by a task that waits to be claimed,
   * any other by the task that its key leads to.
   */
  ghost predicate Answered(s: Store, r: Store, batch: seq<QueueTask>, stamps: seq<Stamp>, i: nat,
                           accepted: seq<StoredTask>, reused: seq<StoredTask>)
    requires |batch| == |stamps| && i < |batch|
  {
    exists t ::
      && LeadsTo(r, batch[i].Key(), t)
      && if batch[i].Key() in s.index || Names(batch[..i], batch[i].Key()) then t in reused
         else t in accepted && Waiting(t, batch[i], stamps[i])
  }

  lemma {:induction false} EntryAnswered(s: Store, batch: seq<QueueTask>, stamps: seq<Stamp>, i: nat)
    requires |batch| == |stamps| && s.Consistent() && Fresh(s, stamps) && i < |batch|
    ensures Answered(s, SubmitAll(s, batch, stamps), batch, stamps, i, AcceptedIn(Receipts(s, batch, stamps)),
                     ReusedIn(Receipts(s, batch, stamps)))
  {
    ListsShare(Receipts(s, batch, stamps));
    AcceptedIffNew(s, batch, stamps, i);
    AcceptedWaits(s, batch, stamps, i);
    ReceiptsLead(s, batch, stamps, i);
    hide Store.Consistent, SubmitAll, Receipts, AcceptedIn, ReusedIn, LeadsTo, Names, Waiting;
  }

  /** So after a batch that created anything, a claim finds something whenever it comes. */
  lemma {:induction false} AcceptedAreCandidates(s: Store, batch: seq<QueueTask>, stamps: seq<Stamp>, now: Instant)
    requires |batch| == |stamps| && s.Consistent() && Fresh(s, stamps)
    requires AcceptedIn(Receipts(s, batch, stamps)) != []
    ensures SubmitAll(s, batch, stamps).Consistent()
    ensures Candidates(SubmitAll(s, batch, stamps).Rows(), now, None) != []
  {
    var receipts := Receipts(s, batch, stamps);
    var t := AcceptedIn(receipts)[0];
    var i := AcceptedFrom(receipts, t);
    SubmitConsistent(s, batch, stamps);
    AcceptedWaits(s, batch, stamps, i);
    ReceiptsLead(s, batch, stamps, i);
    WaitingIsThere(SubmitAll(s, batch, stamps), t, batch[i], stamps[i], now) by {
      hide SubmitAll, Receipts, AcceptedIn, ReusedIn, Store.Consistent, Waiting;
    }
  }

  lemma {:induction false} WaitingIsThere(s: Store, t: StoredTask, q: QueueTask, stamp: Stamp, now: Instant)
    requires s.Consistent() && LeadsTo(s, q.Key(), t) && Waiting(t, q, stamp)
    ensures t in Candidates(s.Rows(), now, None)
  {
    RowsIdentify(s);
    hide Dict.Valid, Store.Rows, Candidates;
  }

  /** Where every key of a batch is already stored, submitting it changes nothing and only reuses. */
  lemma {:induction false} KnownBatchIsReused(s: Store, batch: seq<QueueTask>, stamps: seq<Stamp>)
    requires |batch| == |stamps| && s.Consistent() && Fresh(s, stamps)
    requires forall i | 0 <= i < |batch| :: batch[i].Key() in s.index
    ensures SubmitAll(s, batch, stamps) == s
    ensures forall i | 0 <= i < |batch| ::
      Receipts(s, batch, stamps)[i] == Reused(s.tasks.items[s.index[batch[i].Key()]])
    ensures AcceptedIn(Receipts(s, batch, stamps)) == []
  {
    if batch != [] {
      var n := |batch| - 1;
      KnownLast(s, batch, stamps);
      hide *;
      forall i | 0 <= i < n ensures batch[..n][i].Key() in s.index { assert batch[..n][i] == batch[i]; }
      KnownBatchIsReused(s, batch[..n], stamps[..n]);
      var before, after := Receipts(s, batch[..n], stamps[..n]), Receipts(s, batch, stamps);
      forall i | 0 <= i < |batch| ensures after[i] == Reused(s.tasks.items[s.index[batch[i].Key()]]) {
        assert i < n ==> after[i] == before[i] && batch[..n][i] == batch[i];
      }
    }
  }

  /** The last entry of a batch, when its key is known and nothing before it changed the store. */
  lemma {:induction false} KnownLast(s: Store, batch: seq<QueueTask>, stamps: seq<Stamp>)
    requires |batch| == |stamps| && s.Consistent() && Fresh(s, stamps) && batch != []
    requires batch[|batch| - 1].Key() in s.index
    ensures var n := |batch| - 1;
      var before, after := Receipts(s, batch[..n], stamps[..n]), Receipts(s, batch, stamps);
      && Fresh(s, stamps[..n]) && s.index[batch[n].Key()] in s.tasks.items
      && (SubmitAll(s, batch[..n], stamps[..n]) == s ==>
            && SubmitAll(s, batch, stamps) == s
            && after == before + [Reused(s.tasks.items[s.index[batch[n].Key()]])]
            && AcceptedIn(after) == AcceptedIn(before))
  {
    var n := |batch| - 1;
    var before := Receipts(s, batch[..n], stamps[..n]);
    LastReceipt(s, batch, stamps);
    var last := Reused(s.tasks.items[s.index[batch[n].Key()]]);
    assert AcceptedIn(before + [last]) == AcceptedIn(before) by {
      assert (before + [last])[..|before + [last]| - 1] == before;
    }
    hide Store.Consistent, AcceptedIn;
  }

  // ---- file and restart -------------------------------------------------------------------

  predicate IdLess(a: StoredTask, b: StoredTask) { Less(a.id, b.id) }

  /** `_save_to_disk`: the tasks in order of their ids. */
  function Save(s: Store): seq<StoredTask>
    requires s.tasks.Valid()
  {
    Sort(s.Rows(), IdLess)
  }

  function Load(file: seq<StoredTask>): (s: Store)
    ensures s.tasks.Valid()
  {
    if file == [] then Store(Empty(), map[])
    else
      var t := file[|file| - 1];
      var before := Load(file[..|file| - 1]);
      Store(before.tasks.Put(t.id, t), before.index[t.spec.Key() := t.id])
  }

  ghost predicate KeysIdentify(tasks: seq<StoredTask>) {
    forall a, b | a in tasks && b in tasks && a.spec.Key() == b.spec.Key() :: a == b
  }

  /** The file holds the store: reading it back gives the same tasks and the same index. */
  ghost predicate Restores(file: seq<StoredTask>, s: Store) {
    Load(file).tasks.items == s.tasks.items && Load(file).index == s.index
  }

  lemma {:induction false} LoadContents(file: seq<StoredTask>)
    requires IdsIdentify(file)
    ensures forall t :: t in file <==> t.id in Load(file).tasks.items && Load(file).tasks.items[t.id] == t
    ensures forall id | id in Load(file).tasks.items :: Load(file).tasks.items[id].id == id
    ensures forall t | t in file :: t.spec.Key() in Load(file).index
    ensures forall k | k in Load(file).index ::
      exists t :: t in file && t.spec.Key() == k && t.id == Load(file).index[k]
  {
    LoadIndexed(file);
    hide *;
    LoadTasks(file);
  }

  lemma {:induction false} LoadTasks(file: seq<StoredTask>)
    requires IdsIdentify(file)
    ensures forall t :: t in file <==> t.id in Load(file).tasks.items && Load(file).tasks.items[t.id] == t
    ensures forall id | id in Load(file).tasks.items :: Load(file).tasks.items[id].id == id
  {
    hide Dict.Valid;
    if file != [] {
      assert file == file[..|file| - 1] + [file[|file| - 1]];
      LoadTasks(file[..|file| - 1]);
    }
  }

  /** `k` leads to a task of the file that has this key. */
  ghost predicate Indexed(file: seq<StoredTask>, k: (string, string), id: string) {
    exists t :: t in file && t.spec.Key() == k && t.id == id
  }

  lemma {:induction false} LoadIndexed(file: seq<StoredTask>)
    ensures forall t | t in file :: t.spec.Key() in Load(file).index
    ensures forall k | k in Load(file).index :: Indexed(file, k, Load(file).index[k])
    ensures forall k | k in Load(file).index ::
      exists t :: t in file && t.spec.Key() == k && t.id == Load(file).index[k]
  {
    hide Dict.Valid;
    if file != [] {
      var n := |file| - 1;
      assert file == file[..n] + [file[n]];
      LoadIndexed(file[..n]);
      forall k | k in Load(file).index ensures Indexed(file, k, Load(file).index[k]) {
        if k == file[n].spec.Key() {
          assert file[n] in file;
        } else {
          assert Indexed(file[..n], k, Load(file[..n]).index[k]);
        }
      }
    }
  }

  /** A file with distinct ids loads into a consistent store exactly when its keys are distinct too. */
  lemma {:induction false} LoadConsistentIff(file: seq<StoredTask>)
    requires IdsIdentify(file)
    ensures Load(file).Consistent() <==> KeysIdentify(file)
  {
    LoadContents(file);
    var s := Load(file);
    if KeysIdentify(file) {
      forall id | id in s.tasks.items
        ensures s.index[s.tasks.items[id].spec.Key()] == id
      {
        assert s.tasks.items[id] in file;
      }
    }
  }

  /** Saving and loading gives the same tasks and index, from a file ordered by id. */
  lemma {:induction false} SaveRestores(s: Store)
    requires s.Consistent()
    ensures Restores(Save(s), s)
    ensures Sorted(Save(s), IdLess)
    ensures Load(Save(s)).Consistent()
  {
    var file := Save(s);
    SavedRows(s);
    LoadContents(file);
    LoadConsistentIff(file);
    assert KeysIdentify(file) by { RowKeysIdentify(s, file); }
    hide Store.Consistent, Load, Save, KeysIdentify;
    SameContents(Load(file), s);
  }

  /** The saved file holds the rows, in order of their ids. */
  lemma {:induction false} SavedRows(s: Store)
    requires s.Consistent()
    ensures IdsIdentify(Save(s)) && Sorted(Save(s), IdLess)
    ensures forall t :: t in Save(s) <==> t.id in s.tasks.items && s.tasks.items[t.id] == t
  {
    RowsIdentify(s);
    SortKeeps(s.Rows(), IdLess);
    IdLessOrders();
    hide Store.Consistent, Store.Rows, Sort, IdLess;
    SortSorted(s.Rows(), IdLess);
  }

  lemma {:induction false} RowKeysIdentify(s: Store, tasks: seq<StoredTask>)
    requires s.Consistent()
    requires forall t | t in tasks :: t.id in s.tasks.items && s.tasks.items[t.id] == t
    ensures KeysIdentify(tasks)
  {
  }

  lemma {:induction false} SameContents(r: Store, s: Store)
    requires r.Consistent() && s.Consistent()
    requires forall t: StoredTask ::
      (t.id in r.tasks.items && r.tasks.items[t.id] == t) <==> (t.id in s.tasks.items && s.tasks.items[t.id] == t)
    ensures r.tasks.items == s.tasks.items && r.index == s.index
  {
    forall id ensures id in r.tasks.items <==> id in s.tasks.items
      ensures id in r.tasks.items ==> r.tasks.items[id] == s.tasks.items[id]
    {
      if id in s.tasks.items { assert s.tasks.items[id].id == id; }
      if id in r.tasks.items { assert r.tasks.items[id].id == id; }
    }
    assert r.tasks.items == s.tasks.items;
    assert forall k :: k in r.index <==> k in s.index;
    assert r.index == s.index;
  }

  lemma {:induction false} IdLessOrders()
    ensures Ordering(IdLess)
  {
    forall a: StoredTask, b: StoredTask ensures !(IdLess(a, b) && IdLess(b, a)) { LessAsymmetric(a.id, b.id); }
    forall a: StoredTask, b: StoredTask, c: StoredTask | !IdLess(b, a) && !IdLess(c, b) ensures !IdLess(c, a) {
      if IdLess(c, a) {
        LessTotal(a.id, b.id);
        LessTotal(b.id, c.id);
        LessAsymmetric(a.id, c.id);
        if Less(a.id, b.id) && Less(b.id, c.id) { LessTransitive(a.id, b.id, c.id); }
      }
    }
  }

  /** Two stores with the same tasks make the same claim, whatever order their rows are in. */
  lemma {:induction false} SameTasksSameClaim(s: Store, r: Store, t: StoredTask, now: Instant, model: Option<string>)
    requires s.tasks.Valid() && r.tasks.Valid() && s.tasks.items == r.tasks.items
    ensures s.NextClaim(t, now, model) <==> r.NextClaim(t, now, model)
  {
    s.tasks.ValuesMembers();
    r.tasks.ValuesMembers();
    assert forall u :: u in s.Rows() <==> u in r.Rows();
    FairestIgnoresOrder(t, Candidates(s.Rows(), now, model), Candidates(r.Rows(), now, model), s.Rows(), r.Rows());
  }

  lemma {:induction false} NothingSubmitted(s: Store)
    requires s.Consistent()
    ensures SubmitAll(s, [], []) == s && Receipts(s, [], []) == [] && AcceptedIn([]) == [] && ReusedIn([]) == []
  {
  }

  /** One claim: the fairest claimable task is marked, and nothing else changes. */
  ghost predicate ClaimMakes(s: Store, now: Instant, model: Option<string>, claimed: StoredTask, r: Store)
    requires s.tasks.Valid()
  {
    exists t :: s.NextClaim(t, now, model) && claimed == t.Claimed(now) && r == s.Update(claimed)
  }

  lemma {:induction false} CandidatesIdentify(s: Store, now: Instant, model: Option<string>)
    requires s.Consistent()
    ensures IdsIdentify(Candidates(s.Rows(), now, model))
  {
    RowsIdentify(s);
  }

  lemma {:induction false} NextClaimExists(s: Store, now: Instant, model: Option<string>) returns (t: StoredTask)
    requires s.Consistent() && Candidates(s.Rows(), now, model) != []
    ensures s.NextClaim(t, now, model)
  {
    CandidatesIdentify(s, now, model);
    hide Store.Consistent, Candidates, IsFairest, IdsIdentify;
    FairestExists(Candidates(s.Rows(), now, model), s.Rows());
    t :| IsFairest(t, Candidates(s.Rows(), now, model), s.Rows());
  }

  lemma {:induction false} ClaimConsistent(s: Store, t: StoredTask, now: Instant, model: Option<string>)
    requires s.Consistent() && s.NextClaim(t, now, model)
    ensures t.id in s.tasks.items && s.tasks.items[t.id] == t && t.Claimable(now, model)
    ensures s.Update(t.Claimed(now)).Consistent()
    ensures ClaimMakes(s, now, model, t.Claimed(now), s.Update(t.Claimed(now)))
  {
    RowsIdentify(s);
    UpdateConsistent(s, t.Claimed(now));
  }

  /** `r` is `s` with the record `u` for its task, and nothing else is different. */
  ghost predicate Replaces(s: Store, u: StoredTask, r: Store) {
    u.id in s.tasks.items && r.tasks.items == s.tasks.items[u.id := u] && r.index == s.index
  }

  // ---- the store object -------------------------------------------------------------------

  class TaskStore {
    var tasksById: Dict<string, StoredTask>
    var index: map<(string, string), string>
    /** The JSON file; None is the store that keeps nothing on disk. */
    var file: Option<seq<StoredTask>>

    ghost function View(): Store reads this { Store(tasksById, index) }

    ghost predicate Valid() reads this {
      View().Consistent() && (file.Some? ==> Restores(file.value, View()))
    }

    constructor InMemory()
      ensures Valid() && View() == Store(Empty(), map[]) && file == None
    {
      tasksById, index, file := Empty(), map[], None;
    }

    /** `JsonFileTaskStore.__init__`; a file with distinct ids opens consistently iff its keys are distinct too. */
    constructor FromFile(contents: seq<StoredTask>)
      ensures View() == Load(contents) && file == Some(contents)
      ensures IdsIdentify(contents) ==> (Valid() <==> KeysIdentify(contents))
    {
      if IdsIdentify(contents) { LoadConsistentIff(contents); }
      tasksById, index, file := Load(contents).tasks, Load(contents).index, Some(contents);
    }

    method AfterMutation()
      requires View().Consistent()
      modifies this`file
      ensures Valid()
      ensures file == if old(file).None? then None else Some(Save(View()))
    {
      SaveRestores(View());
      if file.Some? { file := Some(Sort(tasksById.Values(), IdLess)); }
    }

    method SubmitMany(batch: seq<QueueTask>, stamps: seq<Stamp>)
      returns (accepted: seq<StoredTask>, reused: seq<StoredTask>)
      requires Valid() && |batch| == |stamps| && Fresh(View(), stamps)
      modifies this
      ensures Valid()
      ensures View() == SubmitAll(old(View()), batch, stamps)
      ensures accepted == AcceptedIn(Receipts(old(View()), batch, stamps))
      ensures reused == ReusedIn(Receipts(old(View()), batch, stamps))
      // entry by entry: what is new waits to be claimed, so that a claim at any time finds something
      ensures |accepted| + |reused| == |batch|
      ensures forall i | 0 <= i < |batch| :: Answered(old(View()), View(), batch, stamps, i, accepted, reused)
      ensures accepted != [] ==> forall now :: Candidates(View().Rows(), now, None) != []
    {
      ghost var before := View();
      SubmitConsistent(before, batch, stamps);
      ListsShare(Receipts(before, batch, stamps));
      forall i | 0 <= i < |batch| { EntryAnswered(before, batch, stamps, i); }
      hide Store.Consistent, Restores, SubmitAll, Receipts, AcceptedIn, ReusedIn, Answered, Candidates, Store.Rows;
      accepted, reused := SubmitEach(batch, stamps);
      if accepted != [] { forall now { AcceptedAreCandidates(before, batch, stamps, now); } }
      AfterMutation();
    }

    /** The loop of `submit_many`. */
    method SubmitEach(batch: seq<QueueTask>, stamps: seq<Stamp>)
      returns (accepted: seq<StoredTask>, reused: seq<StoredTask>)
      requires View().Consistent() && |batch| == |stamps| && Fresh(View(), stamps)
      modifies this`tasksById, this`index
      ensures View() == SubmitAll(old(View()), batch, stamps)
      ensures accepted == AcceptedIn(Receipts(old(View()), batch, stamps))
      ensures reused == ReusedIn(Receipts(old(View()), batch, stamps))
    {
      ghost var before := View();
      NothingSubmitted(before);
      hide *;
      accepted, reused := [], [];
      for i := 0 to |batch|
        invariant View() == SubmitAll(before, batch[..i], stamps[..i])
        invariant accepted == AcceptedIn(Receipts(before, batch[..i], stamps[..i]))
        invariant reused == ReusedIn(Receipts(before, batch[..i], stamps[..i]))
      {
        ReceiptsStep(before, batch, stamps, i);
        LastShared(Receipts(before, batch[..i + 1], stamps[..i + 1]));
        var receipt := SubmitTask(batch[i], stamps[i]);
        match receipt
        case Reused(task) => reused := reused + [task];
        case Accepted(task) => accepted := accepted + [task];
      }
      assert batch[..|batch|] == batch && stamps[..|batch|] == stamps;
    }

    /** The body of the loop of `submit_many`. */
    method SubmitTask(task: QueueTask, stamp: Stamp) returns (receipt: Receipt)
      requires View().Consistent()
      modifies this`tasksById, this`index
      ensures View() == SubmitOne(old(View()), task, stamp)
      ensures receipt == Answer(old(View()), task, stamp)
      ensures task.Key() in old(index) ==>
        receipt == Reused(old(tasksById.items[index[task.Key()]])) && View() == old(View())
      ensures task.Key() !in old(index) ==>
        && receipt.Accepted? && Waiting(receipt.task, task, stamp)
        && tasksById.items == old(tasksById.items)[stamp.id := receipt.task]
        && index == old(index)[task.Key() := stamp.id]
    {
      if task.Key() in index {
        return Reused(tasksById.items[index[task.Key()]]);
      }
      var stored := NewTask(task, stamp);
      tasksById := tasksById.Put(stored.id, stored);
      index := index[task.Key() := stored.id];
      return Accepted(stored);
    }

    method ClaimNext(now: Instant, model: Option<string>) returns (claimed: Option<StoredTask>)
      requires Valid()
      modifies this
      ensures Valid()
      ensures claimed.None? ==> View() == old(View()) && file == old(file)
      ensures claimed.None? <==> Candidates(old(View()).Rows(), now, model) == []
      ensures claimed.Some? ==> ClaimMakes(old(View()), now, model, claimed.value, View())
      // field by field
      ensures claimed.Some? ==>
        var u := claimed.value;
        && u.id in old(tasksById.items) && Replaces(old(View()), u, View())
        && var t := old(tasksById.items[u.id]);
        && t.Claimable(now, model) && SameTask(t, u)
        && u.state == Running && u.attempts == t.attempts + 1 && u.updatedAt == now && u.nextAttemptAt == None
        && u.startedAt == Some(if t.startedAt.Some? then t.startedAt.value else now)
        && u.finishedAt == t.finishedAt && u.result == t.result && u.error == t.error
    {
      var task := FairTask(now, model);
      if task.None? { return None; }
      ClaimConsistent(View(), task.value, now, model);
      hide Store.Consistent, Store.NextClaim, Restores, ClaimMakes;
      claimed := Write(task.value.id, Some(task.value.Claimed(now)));
    }

    /** The first half of `claim_next`: filter, then choose. */
    method FairTask(now: Instant, model: Option<string>) returns (task: Option<StoredTask>)
      requires View().Consistent()
      ensures task.None? <==> Candidates(View().Rows(), now, model) == []
      ensures task.Some? ==> View().NextClaim(task.value, now, model)
    {
      var candidates := Candidates(tasksById.Values(), now, model);
      if candidates == [] { return None; }
      CandidatesIdentify(View(), now, model);
      hide Store.Consistent, Candidates, IdsIdentify, IsFairest;
      var chosen := ChooseFairTask(candidates, tasksById.Values());
      return Some(chosen);
    }

    /** `record_result`; None stands for the KeyError on an unknown id. */
    method RecordResult(id: string, value: Json, now: Instant) returns (stored: Option<StoredTask>)
      requires Valid()
      modifies this
      ensures Valid()
      ensures id !in old(tasksById.items) ==> stored == None && View() == old(View())
      ensures id in old(tasksById.items) ==>
        && stored == Some(old(tasksById.items[id]).Completed(value, now))
        && View() == old(View()).Update(stored.value)
      ensures stored.Some? ==>
        var u := stored.value;
        && u.id == id && id in old(tasksById.items) && Replaces(old(View()), u, View())
        && var t := old(tasksById.items[id]);
        && SameTask(t, u) && u.attempts == t.attempts && u.startedAt == t.startedAt && u.updatedAt == now
        && u.state == Succeeded && u.result == Some(value) && u.error == None
        && u.finishedAt == Some(now) && u.nextAttemptAt == None
    {
      stored := Write(id, if id in tasksById.items then Some(tasksById.items[id].Completed(value, now)) else None);
    }

    method RecordError(id: string, value: Json, now: Instant) returns (stored: Option<StoredTask>)
      requires Valid()
      modifies this
      ensures Valid()
      ensures id !in old(tasksById.items) ==> stored == None && View() == old(View())
      ensures id in old(tasksById.items) ==>
        && stored == Some(old(tasksById.items[id]).Errored(value, now))
        && View() == old(View()).Update(stored.value)
      ensures stored.Some? ==>
        var u := stored.value;
        && u.id == id && id in old(tasksById.items) && Replaces(old(View()), u, View())
        && var t := old(tasksById.items[id]);
        && SameTask(t, u) && u.attempts == t.attempts && u.startedAt == t.startedAt && u.updatedAt == now
        && u.state == Failed && u.result == t.result && u.error == Some(value)
        && u.finishedAt == Some(now) && u.nextAttemptAt == None
    {
      stored := Write(id, if id in tasksById.items then Some(tasksById.items[id].Errored(value, now)) else None);
    }

    method RecordRetry(id: string, value: Json, next: Instant, now: Instant) returns (stored: Option<StoredTask>)
      requires Valid()
      modifies this
      ensures Valid()
      ensures id !in old(tasksById.items) ==> stored == None && View() == old(View())
      ensures id in old(tasksById.items) ==>
        && stored == Some(old(tasksById.items[id]).Retried(value, next, now))
        && View() == old(View()).Update(stored.value)
      ensures stored.Some? ==>
        var u := stored.value;
        && u.id == id && id in old(tasksById.items) && Replaces(old(View()), u, View())
        && var t := old(tasksById.items[id]);
        && SameTask(t, u) && u.attempts == t.attempts && u.startedAt == t.startedAt && u.updatedAt == now
        && u.state == Queued && u.result == t.result && u.error == Some(value)
        && u.finishedAt == t.finishedAt && u.nextAttemptAt == Some(next)
    {
      stored := Write(id, if id in tasksById.items then Some(tasksById.items[id].Retried(value, next, now)) else None);
    }

    /** `cancel_task`: another tenant's task is not found, a finished one is returned as it is. */
    method CancelTask(tenant: string, id: string, now: Instant) returns (stored: Option<StoredTask>)
      requires Valid()
      modifies this
      ensures Valid()
      ensures (id !in old(tasksById.items) || old(tasksById.items[id]).spec.tenant != tenant) ==>
        stored == None && View() == old(View())
      ensures (id in old(tasksById.items) && old(tasksById.items[id]).spec.tenant == tenant) ==>
        stored == Some(old(tasksById.items[id]).Withdrawn(now))
        && View().tasks.items == old(View()).Update(stored.value).tasks.items
        && View().index == old(View()).index
      ensures stored.Some? ==>
        var u := stored.value;
        && u.id == id && id in old(tasksById.items) && Replaces(old(View()), u, View())
        && var t := old(tasksById.items[id]);
        if t.state in {Succeeded, Failed, Cancelled} then u == t
        else
          && SameTask(t, u) && u.attempts == t.attempts && u.startedAt == t.startedAt && u.updatedAt == now
          && u.state == Cancelled && u.result == t.result && u.error == t.error
          && u.finishedAt == Some(now) && u.nextAttemptAt == None
    {
      if id !in tasksById.items || tasksById.items[id].spec.tenant != tenant { return None; }
      if tasksById.items[id].state.Final() {
        assert tasksById.items[id := tasksById.items[id]] == tasksById.items;
        return Some(tasksById.items[id]);
      }
      stored := Write(id, Some(tasksById.items[id].Withdrawn(now)));
    }

    method Write(id: string, task: Option<StoredTask>) returns (stored: Option<StoredTask>)
      requires Valid()
      requires task.Some? ==>
        id in tasksById.items && task.value.id == id && task.value.spec == tasksById.items[id].spec
      modifies this
      ensures Valid() && stored == task
      ensures task.None? ==> View() == old(View())
      ensures task.Some? ==> View() == old(View()).Update(task.value)
    {
      stored := task;
      if task.Some? {
        UpdateConsistent(View(), task.value);
        tasksById := tasksById.Put(id, task.value);
        AfterMutation();
      }
    }
  }
}
