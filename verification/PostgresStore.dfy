/** The SQL task store: the same operations as statements over a table, compared with module TaskStore. */
module PostgresStore {
  import opened Wrappers
  import opened TextOrder
  import opened Tasks
  import opened FairClaim
  import opened Dicts
  import opened TaskStore
  import opened StoreRuns
  import opened TaskLife
  import opened JsonValues

  /** Rows by primary key. */
  type Table = map<string, StoredTask>

  /** The rows of the table are the tasks of the store. */
  ghost predicate Mirrors(table: Table, s: Store) {
    s.Consistent() && table == s.tasks.items
  }

  // ---- the claim query --------------------------------------------------------------------

  /** The WHERE clause that both CTEs repeat. */
  predicate Runnable(row: StoredTask, now: Instant, model: Option<string>) {
    && row.state == Queued
    && (model == None || Some(row.spec.model) == model)
    && (row.nextAttemptAt == None || row.nextAttemptAt.value <= now)
  }

  /** Equality of the six grouping columns. */
  predicate SameColumns(a: QueueTask, b: QueueTask) {
    && a.tenant == b.tenant && a.project == b.project && a.service == b.service
    && a.task == b.task && a.priority == b.priority && a.model == b.model
  }

  /** ORDER BY tenant, project, service, task, priority, model. */
  predicate ColumnsLess(a: QueueTask, b: QueueTask) {
    if a.tenant != b.tenant then Less(a.tenant, b.tenant)
    else if a.project != b.project then Less(a.project, b.project)
    else if a.service != b.service then Less(a.service, b.service)
    else if a.task != b.task then Less(a.task, b.task)
    else if a.priority != b.priority then Less(a.priority, b.priority)
    else Less(a.model, b.model)
  }

  function RunnableRows(table: Table, now: Instant, model: Option<string>): set<StoredTask> {
    set id | id in table && Runnable(table[id], now, model) :: table[id]
  }

  /** MIN(...) over a group, which is never empty. */
  function Min(s: set<int>): (m: int)
    requires exists x :: x in s
    ensures m in s && forall x | x in s :: m <= x
  {
    MinExists(s);
    var m :| m in s && forall x | x in s :: m <= x;
    m
  }

  /** MAX(...) of a subquery: NULL when it has no row. */
  function Max(s: set<int>): (m: Option<int>)
    ensures m == None <==> forall x :: x !in s
    ensures m.Some? ==> m.value in s && forall x | x in s :: x <= m.value
  {
    if exists x :: x in s then
      MaxExists(s);
      var m :| m in s && forall x | x in s :: x <= m;
      Some(m)
    else None
  }

  lemma {:induction false} MinExists(s: set<int>)
    requires exists x :: x in s
    ensures exists m :: m in s && forall x | x in s :: m <= x
  {
    var y :| y in s;
    if z :| z in s - {y} {
      MinExists(s - {y});
      var m :| m in s - {y} && forall x | x in s - {y} :: m <= x;
      var best := if y < m then y else m;
      assert forall x | x in s :: x == y || x in s - {y};
      assert best in s && forall x | x in s :: best <= x;
    } else {
      assert forall x | x in s && x != y :: x in s - {y};
    }
  }

  lemma {:induction false} MaxExists(s: set<int>)
    requires exists x :: x in s
    ensures exists m :: m in s && forall x | x in s :: x <= m
  {
    var y :| y in s;
    if z :| z in s - {y} {
      MaxExists(s - {y});
      var m :| m in s - {y} && forall x | x in s - {y} :: x <= m;
      var best := if y > m then y else m;
      assert forall x | x in s :: x == y || x in s - {y};
      assert best in s && forall x | x in s :: x <= best;
    } else {
      assert forall x | x in s && x != y :: x in s - {y};
    }
  }

  /** A row of `group_scores`; its columns are those of any row of the group. */
  datatype GroupRow = GroupRow(columns: QueueTask, oldestRunnableAt: Instant, lastClaimedAt: Option<Instant>)

  function CreationTimes(columns: QueueTask, runnable: set<StoredTask>): set<Instant> {
    set r | r in runnable && SameColumns(r.spec, columns) :: r.createdAt
  }

  function ServedTimes(columns: QueueTask, table: Table): set<Instant> {
    set id | id in table && SameColumns(table[id].spec, columns) && table[id].attempts > 0 :: table[id].updatedAt
  }

  function ScoreOf(row: StoredTask, table: Table, runnable: set<StoredTask>): GroupRow
    requires row in runnable
  {
    assert row.createdAt in CreationTimes(row.spec, runnable);
    GroupRow(row.spec, Min(CreationTimes(row.spec, runnable)), Max(ServedTimes(row.spec, table)))
  }

  /** ORDER BY (last_claimed_at IS NOT NULL), last_claimed_at NULLS FIRST, oldest_runnable_at, the columns. */
  predicate GroupBefore(a: GroupRow, b: GroupRow) {
    if a.lastClaimedAt.Some? != b.lastClaimedAt.Some? then b.lastClaimedAt.Some?
    else if a.lastClaimedAt != b.lastClaimedAt then a.lastClaimedAt.value < b.lastClaimedAt.value
    else if a.oldestRunnableAt != b.oldestRunnableAt then a.oldestRunnableAt < b.oldestRunnableAt
    else ColumnsLess(a.columns, b.columns)
  }

  /** `selected_group`: the first score in that order. */
  predicate IsSelectedGroup(g: GroupRow, table: Table, runnable: set<StoredTask>) {
    && (exists row | row in runnable :: g == ScoreOf(row, table, runnable))
    && (forall row | row in runnable ::
          SameColumns(row.spec, g.columns) || GroupBefore(g, ScoreOf(row, table, runnable)))
  }

  /** `next_task`: the first runnable row of the selected group by creation time and id. */
  predicate IsNextTask(row: StoredTask, g: GroupRow, runnable: set<StoredTask>) {
    && row in runnable && SameColumns(row.spec, g.columns)
    && (forall other | other in runnable && SameColumns(other.spec, g.columns) ::
          other == row || row.createdAt < other.createdAt
          || (row.createdAt == other.createdAt && Less(row.id, other.id)))
  }

  predicate PicksFrom(row: StoredTask, head: StoredTask, table: Table, runnable: set<StoredTask>) {
    && head in runnable
    && IsSelectedGroup(ScoreOf(head, table, runnable), table, runnable)
    && IsNextTask(row, ScoreOf(head, table, runnable), runnable)
  }

  /** The row that the whole query updates. */
  predicate SqlPicks(row: StoredTask, table: Table, now: Instant, model: Option<string>) {
    exists head | head in RunnableRows(table, now, model) ::
      PicksFrom(row, head, table, RunnableRows(table, now, model))
  }

  /** `rows` lists the table, in whatever order. */
  ghost predicate Lists(rows: seq<StoredTask>, table: Table) {
    && (forall id | id in table :: table[id].id == id)
    && (forall t :: t in rows <==> t.id in table && table[t.id] == t)
  }

  // ---- it is the Python claim -------------------------------------------------------------

  lemma {:induction false} TupleStep(a: seq<string>, b: seq<string>)
    requires a != [] && b != []
    ensures TupleLess(a, b) <==> if a[0] != b[0] then Less(a[0], b[0]) else TupleLess(a[1..], b[1..])
  {
    LessAsymmetric(a[0], b[0]);
  }

  /** Column by column is the order of the tuples. */
  lemma {:induction false} ColumnsAreTuples(a: StoredTask, b: StoredTask)
    ensures SameColumns(a.spec, b.spec) <==> a.Group() == b.Group()
    ensures ColumnsLess(a.spec, b.spec) <==> TupleLess(a.Group(), b.Group())
  {
    var x, y := a.Group(), b.Group();
    if x == y {
      assert x[0] == y[0] && x[1] == y[1] && x[2] == y[2] && x[3] == y[3] && x[4] == y[4] && x[5] == y[5];
    }
    TupleStep(x, y);
    TupleStep(x[1..], y[1..]);
    TupleStep(x[2..], y[2..]);
    TupleStep(x[3..], y[3..]);
    TupleStep(x[4..], y[4..]);
    TupleStep(x[5..], y[5..]);
    assert x[1..][1..] == x[2..] && x[2..][1..] == x[3..] && x[3..][1..] == x[4..] && x[4..][1..] == x[5..]
      && x[5..][1..] == [];
    assert y[1..][1..] == y[2..] && y[2..][1..] == y[3..] && y[3..][1..] == y[4..] && y[4..][1..] == y[5..]
      && y[5..][1..] == [];
    assert TupleLess(x[5..], y[5..]) <==> Less(a.spec.model, b.spec.model) by {
      LessAsymmetric(a.spec.model, b.spec.model);
    }
  }

  /** The correlated subquery computes the dictionary of last claims. */
  lemma {:induction false} SubqueryIsLastClaimed(table: Table, rows: seq<StoredTask>, row: StoredTask)
    requires Lists(rows, table)
    ensures Max(ServedTimes(row.spec, table)) == LastClaimed(rows, row.Group())
  {
    forall t { ColumnsAreTuples(t, row); }
    hide LastClaimed, StoredTask.Group, SameColumns, ColumnsLess;
    var times, last := ServedTimes(row.spec, table), LastClaimed(rows, row.Group());
    forall t | Served(t, rows, row.Group()) ensures t.updatedAt in times { assert table[t.id] == t; }
    forall x | x in times ensures exists t :: Served(t, rows, row.Group()) && t.updatedAt == x {
      var id :| id in table && SameColumns(table[id].spec, row.spec) && table[id].attempts > 0
        && table[id].updatedAt == x;
      assert Served(table[id], rows, row.Group());
    }
    assert IsLastClaim(last, rows, row.Group());
  }

  /** The WHERE clause selects the candidates. */
  lemma {:induction false} RunnableAreCandidates(table: Table, rows: seq<StoredTask>, now: Instant,
                                                 model: Option<string>)
    requires Lists(rows, table)
    ensures forall t :: t in RunnableRows(table, now, model) <==> t in Candidates(rows, now, model)
  {
    hide Candidates;
    forall t | t in Candidates(rows, now, model) ensures t in RunnableRows(table, now, model) {
      assert table[t.id] == t;
    }
  }

  /** Comparing group rows compares (served?, last claim, oldest, tuple). */
  lemma {:induction false} GroupBeforeIs(table: Table, rows: seq<StoredTask>, runnable: set<StoredTask>, a: StoredTask,
                                         b: StoredTask)
    requires Lists(rows, table) && a in runnable && b in runnable
    ensures var x, y := ScoreOf(a, table, runnable), ScoreOf(b, table, runnable);
      GroupBefore(x, y) <==>
        ScoreLess(Score(LastClaimed(rows, a.Group()), x.oldestRunnableAt, a.Group()),
                  Score(LastClaimed(rows, b.Group()), y.oldestRunnableAt, b.Group()))
  {
    SubqueryIsLastClaimed(table, rows, a);
    SubqueryIsLastClaimed(table, rows, b);
    ColumnsAreTuples(a, b);
  }

  /** The oldest of a group is among its runnable rows. */
  lemma {:induction false} OldestIsThere(table: Table, runnable: set<StoredTask>, row: StoredTask)
    returns (first: StoredTask)
    requires row in runnable
    ensures first in runnable && first.Group() == row.Group()
    ensures ScoreOf(row, table, runnable).oldestRunnableAt == first.createdAt <= row.createdAt
    ensures forall t | t in runnable && t.Group() == row.Group() ::
      ScoreOf(t, table, runnable).oldestRunnableAt == first.createdAt <= t.createdAt
  {
    var times := CreationTimes(row.spec, runnable);
    assert row.createdAt in times;
    first :| first in runnable && SameColumns(first.spec, row.spec) && first.createdAt == Min(times);
    ColumnsAreTuples(first, row);
    forall t | t in runnable && t.Group() == row.Group()
      ensures ScoreOf(t, table, runnable).oldestRunnableAt == first.createdAt <= t.createdAt
    {
      ColumnsAreTuples(t, row);
      assert CreationTimes(t.spec, runnable) == times;
      assert t.createdAt in times;
    }
  }

  /** The row the query picks comes before every other runnable row. */
  lemma {:induction false} PickComesFirst(table: Table, rows: seq<StoredTask>, runnable: set<StoredTask>,
                       head: StoredTask, t: StoredTask, u: StoredTask)
    requires Lists(rows, table) && PicksFrom(t, head, table, runnable) && u in runnable && u != t
    ensures RowLess(t, u, rows)
  {
    ColumnsAreTuples(t, head);
    ColumnsAreTuples(u, head);
    var mine := OldestIsThere(table, runnable, t);
    ColumnsAreTuples(mine, head);
    var other := OldestIsThere(table, runnable, u);
    GroupBeforeIs(table, rows, runnable, head, u);
    hide LastClaimed, StoredTask.Group, SameColumns, ColumnsLess, GroupBefore;
    assert ScoreOf(head, table, runnable).columns == head.spec;
    assert mine == t || t.createdAt <= mine.createdAt;
  }

  ghost predicate First(t: StoredTask, rows: seq<StoredTask>, runnable: set<StoredTask>) {
    t in runnable && forall v | v in runnable :: v == t || RowLess(t, v, rows)
  }

  lemma {:induction false} FirstGroupFirst(table: Table, rows: seq<StoredTask>, runnable: set<StoredTask>,
                                           t: StoredTask, u: StoredTask)
    requires Lists(rows, table) && First(t, rows, runnable) && u in runnable
    ensures SameColumns(u.spec, t.spec) || GroupBefore(ScoreOf(t, table, runnable), ScoreOf(u, table, runnable))
  {
    ColumnsAreTuples(u, t);
    var mine := OldestIsThere(table, runnable, t);
    var other := OldestIsThere(table, runnable, u);
    GroupBeforeIs(table, rows, runnable, t, u);
    hide LastClaimed, StoredTask.Group, SameColumns, ColumnsLess, GroupBefore;
    assert mine == t || RowLess(t, mine, rows);
    assert other == t || RowLess(t, other, rows);
  }

  /** A row before every other runnable row is picked. */
  lemma {:induction false} FirstIsPicked(table: Table, rows: seq<StoredTask>, runnable: set<StoredTask>, t: StoredTask)
    requires Lists(rows, table) && First(t, rows, runnable)
    ensures PicksFrom(t, t, table, runnable)
  {
    var g := ScoreOf(t, table, runnable);
    forall u | u in runnable ensures SameColumns(u.spec, t.spec) || GroupBefore(g, ScoreOf(u, table, runnable)) {
      FirstGroupFirst(table, rows, runnable, t, u);
    }
    forall u | u in runnable && SameColumns(u.spec, t.spec)
      ensures u == t || t.createdAt < u.createdAt || (t.createdAt == u.createdAt && Less(t.id, u.id))
    {
      ColumnsAreTuples(u, t);
      TupleLessAsymmetric(u.Group(), u.Group());
      assert u == t || RowLess(t, u, rows);
    }
    hide LastClaimed, StoredTask.Group, SameColumns, ColumnsLess, GroupBefore, First;
    assert g.columns == t.spec;
  }

  /** The query picks exactly the row that is first among the runnable ones. */
  lemma {:induction false} PickIsFirst(table: Table, rows: seq<StoredTask>, now: Instant, model: Option<string>,
                                       t: StoredTask)
    requires Lists(rows, table)
    ensures SqlPicks(t, table, now, model) <==> First(t, rows, RunnableRows(table, now, model))
  {
    var runnable := RunnableRows(table, now, model);
    hide Lists, RunnableRows, RowLess;
    if SqlPicks(t, table, now, model) {
      var head :| head in runnable && PicksFrom(t, head, table, runnable);
      forall u | u in runnable && u != t ensures RowLess(t, u, rows) {
        PickComesFirst(table, rows, runnable, head, t, u);
      }
    }
    if First(t, rows, runnable) { FirstIsPicked(table, rows, runnable, t); }
  }

  lemma {:induction false} StoreLists(table: Table, s: Store)
    requires Mirrors(table, s)
    ensures Lists(s.Rows(), table) && IdsIdentify(s.Rows())
  {
    RowsIdentify(s);
  }

  /** On equal rows the query picks a task exactly when `choose_fair_task` does. */
  lemma {:induction false} ClaimsAgree(table: Table, s: Store, now: Instant, model: Option<string>, t: StoredTask)
    requires Mirrors(table, s)
    ensures SqlPicks(t, table, now, model) <==> s.NextClaim(t, now, model)
  {
    StoreLists(table, s);
    RunnableAreCandidates(table, s.Rows(), now, model);
    PickIsFirst(table, s.Rows(), now, model, t);
    hide Store.Consistent, SqlPicks, Lists, RunnableRows, Candidates, RowLess, IdsIdentify;
  }

  /** The query finds a row whenever some task is claimable. */
  lemma {:induction false} PickExists(table: Table, s: Store, now: Instant, model: Option<string>)
    returns (t: StoredTask)
    requires Mirrors(table, s) && Candidates(s.Rows(), now, model) != []
    ensures t in table.Values && SqlPicks(t, table, now, model)
  {
    t := NextClaimExists(s, now, model);
    ClaimConsistent(s, t, now, model);
    ClaimsAgree(table, s, now, model, t);
  }

  lemma {:induction false} ClaimMirrors(table: Table, s: Store, now: Instant, model: Option<string>, t: StoredTask)
    requires Mirrors(table, s) && SqlPicks(t, table, now, model)
    ensures Candidates(s.Rows(), now, model) != []
    ensures ClaimMakes(s, now, model, t.Claimed(now), s.Update(t.Claimed(now)))
    ensures Mirrors(table[t.id := t.Claimed(now)], s.Update(t.Claimed(now)))
  {
    ClaimsAgree(table, s, now, model, t);
    assert t in Candidates(s.Rows(), now, model);
    hide SqlPicks, Candidates, Store.NextClaim, ClaimMakes, Dict.Values, Dict.Valid;
    ClaimConsistent(s, t, now, model);
    hide Store.Consistent;
    MirrorsUpdate(table, s, t.Claimed(now));
  }

  // ---- the other statements ---------------------------------------------------------------

  /** INSERT ... ON CONFLICT (tenant, idempotency_key) DO NOTHING. */
  function InsertOne(table: Table, q: QueueTask, stamp: Stamp): Table {
    if exists id | id in table :: table[id].spec.Key() == q.Key() then table
    else table[stamp.id := NewTask(q, stamp)]
  }

  function InsertAll(table: Table, batch: seq<QueueTask>, stamps: seq<Stamp>): Table
    requires |batch| == |stamps|
  {
    if batch == [] then table
    else InsertOne(InsertAll(table, batch[..|batch| - 1], stamps[..|batch| - 1]), batch[|batch| - 1],
                   stamps[|batch| - 1])
  }

  lemma {:induction false} InsertMirrors(table: Table, s: Store, q: QueueTask, stamp: Stamp)
    requires Mirrors(table, s) && stamp.id !in table
    ensures Mirrors(InsertOne(table, q, stamp), SubmitOne(s, q, stamp))
  {
    SubmitOneGrows(s, q, stamp);
    if q.Key() in s.index {
      assert table[s.index[q.Key()]].spec.Key() == q.Key();
    }
  }

  /** The unique constraint does what the idempotency index does. */
  lemma {:induction false} SubmitsAgree(table: Table, s: Store, batch: seq<QueueTask>, stamps: seq<Stamp>)
    requires Mirrors(table, s) && |batch| == |stamps| && Fresh(s, stamps)
    ensures Mirrors(InsertAll(table, batch, stamps), SubmitAll(s, batch, stamps))
  {
    if batch != [] {
      var n := |batch| - 1;
      SubmitsAgree(table, s, batch[..n], stamps[..n]);
      SubmitConsistent(s, batch[..n], stamps[..n]);
      hide Store.Consistent;
      assert stamps[n].id !in SubmitAll(s, batch[..n], stamps[..n]).tasks.items;
      InsertMirrors(InsertAll(table, batch[..n], stamps[..n]), SubmitAll(s, batch[..n], stamps[..n]), batch[n],
                    stamps[n]);
    }
  }

  lemma {:induction false} InsertStep(table: Table, s: Store, batch: seq<QueueTask>, stamps: seq<Stamp>, i: nat)
    requires Mirrors(table, s) && |batch| == |stamps| && Fresh(s, stamps) && i < |batch|
    ensures Mirrors(InsertAll(table, batch[..i], stamps[..i]), SubmitAll(s, batch[..i], stamps[..i]))
    ensures InsertAll(table, batch[..i + 1], stamps[..i + 1])
      == InsertOne(InsertAll(table, batch[..i], stamps[..i]), batch[i], stamps[i])
    ensures Receipts(s, batch[..i + 1], stamps[..i + 1])
      == Receipts(s, batch[..i], stamps[..i]) + [Answer(SubmitAll(s, batch[..i], stamps[..i]), batch[i], stamps[i])]
  {
    hide Store.Consistent, SubmitAll, Answer, InsertOne, SubmitOne;
    assert batch[..i + 1][..i] == batch[..i] && stamps[..i + 1][..i] == stamps[..i];
    SubmitsAgree(table, s, batch[..i], stamps[..i]);
    ReceiptsStep(s, batch, stamps, i);
    hide Receipts, InsertAll;
    assert |Receipts(s, batch[..i + 1], stamps[..i + 1])| == i + 1;
  }

  /** UPDATE ... SET state = 'cancelled', finished_at = COALESCE(finished_at, now), ... of one row. */
  function SqlWithdrawn(t: StoredTask, now: Instant): StoredTask {
    if t.state.Final() then t
    else t.(state := Cancelled, nextAttemptAt := None, updatedAt := now,
            finishedAt := if t.finishedAt.Some? then t.finishedAt else Some(now))
  }

  /**
   * The two stores write a different finish time exactly when an unfinished task already has one:
   * after a finished task was queued again, which the catch-all of the executor can do.
   */
  lemma {:induction false} CancelsAgreeIff(t: StoredTask, now: Instant)
    ensures SqlWithdrawn(t, now) == t.Withdrawn(now) <==>
      t.state.Final() || t.finishedAt == None || t.finishedAt == Some(now)
  {
    if !t.state.Final() {
      assert SqlWithdrawn(t, now).finishedAt == t.Withdrawn(now).finishedAt
        ==> SqlWithdrawn(t, now) == t.Withdrawn(now);
    }
  }

  /** What the UPDATE of an event writes into its row: the columns that the other store sets, except on a cancel. */
  function SqlWritten(t: StoredTask, e: Event, now: Instant): StoredTask {
    if !e.Cancel? then Written(t, e, now)
    else if t.spec.tenant == e.tenant then SqlWithdrawn(t, now) else t
  }

  /** The event as statements: a primary key that finds no row updates nothing, and a restart loses nothing. */
  function SqlApply(table: Table, e: Event, now: Instant): Table
    requires e.Submit? ==> |e.batch| == |e.stamps|
  {
    match e
    case Submit(batch, stamps) => InsertAll(table, batch, stamps)
    case Restart => table
    case _ =>
      var id := Target(e).value;
      if id in table then table[id := SqlWritten(table[id], e, now)] else table
  }

  /** The event is what the statements do: a claim takes the row the query picks, a record finds its row. */
  predicate SqlEnabled(table: Table, e: Event, now: Instant) {
    match e
    case Claim(id, model) => id in table && SqlPicks(table[id], table, now, model)
    case Submit(batch, stamps) =>
      && |batch| == |stamps|
      && (forall i | 0 <= i < |stamps| :: stamps[i].id !in table)
      && (forall i, j | 0 <= i < j < |stamps| :: stamps[i].id != stamps[j].id)
    case Complete(id, _) => id in table
    case Fail(id, _) => id in table
    case Retry(id, _, _) => id in table
    case Cancel(_, _) => true
    case Restart => true
  }

  /** A cancel of an unfinished task that already has a finish time. */
  predicate Divides(table: Table, e: Event, now: Instant) {
    && e.Cancel? && e.id in table && table[e.id].spec.tenant == e.tenant && !table[e.id].state.Final()
    && table[e.id].finishedAt != None && table[e.id].finishedAt != Some(now)
  }

  lemma {:induction false} EnabledAgree(table: Table, s: Store, e: Event, now: Instant)
    requires Mirrors(table, s)
    ensures SqlEnabled(table, e, now) <==> Enabled(s, e, now)
  {
    hide SqlPicks, Store.NextClaim, Store.Consistent;
    if e.Claim? && e.id in table { ClaimsAgree(table, s, now, e.model, table[e.id]); }
  }

  lemma {:induction false} MirrorsUpdate(table: Table, s: Store, t: StoredTask)
    requires Mirrors(table, s) && s.Update(t).Consistent()
    ensures Mirrors(table[t.id := t], s.Update(t))
  {
  }

  lemma {:induction false} SqlWrittenIs(t: StoredTask, e: Event, now: Instant)
    ensures SqlWritten(t, e, now) == Written(t, e, now) <==>
      !(e.Cancel? && t.spec.tenant == e.tenant && !t.state.Final() && t.finishedAt != None && t.finishedAt != Some(now))
  {
    CancelsAgreeIff(t, now);
    hide SqlWithdrawn, StoredTask.Withdrawn;
  }

  /** Step by step the two stores stay the same, exactly up to the cancel that divides them. */
  lemma {:induction false} StepsAgreeIff(table: Table, s: Store, e: Event, now: Instant)
    requires Mirrors(table, s) && Enabled(s, e, now)
    ensures Mirrors(SqlApply(table, e, now), Apply(s, e, now)) <==> !Divides(table, e, now)
  {
    assert s.Consistent();
    hide *;
    ApplyIs(s, e, now);
    ApplyKeeps(s, e, now);
    SqlApplyIs(table, s, e, now);
    if e.Submit? {
      SubmitsAgree(table, s, e.batch, e.stamps);
    } else if e.Restart? {
      SaveRestores(s);
      MirrorsSame(table, s, Apply(s, e, now));
    } else if Target(e).value in s.tasks.items {
      TargetAgrees(table, s, e, now);
    }
  }

  lemma {:induction false} SqlApplyIs(table: Table, s: Store, e: Event, now: Instant)
    requires Mirrors(table, s) && (e.Submit? ==> |e.batch| == |e.stamps|)
    ensures s.Consistent() && table == s.tasks.items
    ensures e.Submit? ==> SqlApply(table, e, now) == InsertAll(table, e.batch, e.stamps) && !Divides(table, e, now)
    ensures e.Restart? ==> SqlApply(table, e, now) == table && !Divides(table, e, now)
    ensures Target(e).Some? && Target(e).value !in table ==> SqlApply(table, e, now) == table && !Divides(table, e, now)
  {
    hide Store.Consistent, InsertAll, SqlWritten;
  }

  lemma {:induction false} MirrorsSame(table: Table, s: Store, r: Store)
    requires Mirrors(table, s) && r.Consistent() && Restores(Save(s), s) && r == Load(Save(s))
    ensures Mirrors(table, r)
  {
    hide Store.Consistent, Load, Save;
  }

  lemma {:induction false} TargetAgrees(table: Table, s: Store, e: Event, now: Instant)
    requires Mirrors(table, s) && Target(e).Some? && Target(e).value in s.tasks.items
    requires s.tasks.items[Target(e).value].id == Target(e).value
    requires s.Update(Written(s.tasks.items[Target(e).value], e, now)).Consistent()
    ensures Mirrors(SqlApply(table, e, now), s.Update(Written(s.tasks.items[Target(e).value], e, now))) <==>
      !Divides(table, e, now)
  {
    var id := Target(e).value;
    var t := s.tasks.items[id];
    SqlWrittenIs(t, e, now);
    WrittenBecomes(t, e, now);
    assert Written(t, e, now).id == id;
    hide Written, SqlWritten, Store.Consistent;
    assert s.Update(Written(t, e, now)).tasks.items[id] == Written(t, e, now);
    if SqlWritten(t, e, now) == Written(t, e, now) { MirrorsUpdate(table, s, Written(t, e, now)); }
  }

  /** The table along the events of a history of the other store. */
  ghost predicate FollowsSql(r: Run, tables: seq<Table>) {
    && IsRun(r) && |tables| == |r.states| && tables[0] == r.states[0].tasks.items
    && (forall i | 0 <= i < |r.events| :: FollowsAt(r, tables, i))
  }

  ghost predicate FollowsAt(r: Run, tables: seq<Table>, i: nat)
    requires i < |r.events| == |r.times| && |tables| == |r.events| + 1
  {
    (r.events[i].Submit? ==> |r.events[i].batch| == |r.events[i].stamps|)
    && tables[i + 1] == SqlApply(tables[i], r.events[i], r.times[i])
  }

  /**
   * Over a whole history the SQL store does what the other store does: each event is possible in both,
   * picks the same task and leaves the same tasks, as long as no cancel divides them.
   */
  lemma {:induction false} HistoriesAgree(r: Run, tables: seq<Table>, i: nat)
    requires FollowsSql(r, tables) && i < |tables|
    requires forall n | 0 <= n < i :: !Divides(tables[n], r.events[n], r.times[n])
    ensures Mirrors(tables[i], r.states[i])
    ensures i < |r.events| ==> SqlEnabled(tables[i], r.events[i], r.times[i])
  {
    hide *;
    FollowsRun(r, tables);
    if i == 0 {
      StartsMirrored(r, tables);
    } else {
      HistoriesAgree(r, tables, i - 1);
      FollowsStep(r, tables, i - 1);
      StepsAgreeIff(tables[i - 1], r.states[i - 1], r.events[i - 1], r.times[i - 1]);
    }
    if i < |r.events| {
      FollowsStep(r, tables, i);
      EnabledAgree(tables[i], r.states[i], r.events[i], r.times[i]);
    }
  }

  lemma {:induction false} FollowsRun(r: Run, tables: seq<Table>)
    requires FollowsSql(r, tables)
    ensures IsRun(r) && |tables| == |r.states| == |r.events| + 1 && |r.times| == |r.events|
  {
  }

  lemma {:induction false} StartsMirrored(r: Run, tables: seq<Table>)
    requires FollowsSql(r, tables)
    ensures |tables| > 0 && |r.states| > 0 && Mirrors(tables[0], r.states[0])
  {
  }

  lemma {:induction false} FollowsStep(r: Run, tables: seq<Table>, i: nat)
    requires FollowsSql(r, tables) && i < |r.events|
    ensures i < |r.times| && i + 1 < |r.states| && i + 1 < |tables|
    ensures r.states[i].Consistent() && Enabled(r.states[i], r.events[i], r.times[i])
    ensures r.states[i + 1] == Apply(r.states[i], r.events[i], r.times[i])
    ensures r.events[i].Submit? ==> |r.events[i].batch| == |r.events[i].stamps|
    ensures tables[i + 1] == SqlApply(tables[i], r.events[i], r.times[i])
  {
    assert FollowsAt(r, tables, i) && Steps(r, i);
    hide Enabled, Apply, SqlApply, Store.Consistent;
  }

  /** A finish time means a final state. */
  ghost predicate Finished(s: Store) {
    forall id | id in s.tasks.items && s.tasks.items[id].finishedAt.Some? :: s.tasks.items[id].state.Final()
  }

  /** The event queues a task again that has already finished. */
  predicate Revives(s: Store, e: Event) {
    e.Retry? && e.id in s.tasks.items && s.tasks.items[e.id].state.Final()
  }

  lemma {:induction false} FinishedStep(s: Store, e: Event, now: Instant)
    requires s.Consistent() && Enabled(s, e, now) && Finished(s) && !Revives(s, e)
    ensures Finished(Apply(s, e, now))
  {
    ApplyIs(s, e, now);
    if e.Submit? {
      hide *;
      SubmitFinished(s, e.batch, e.stamps);
    } else if e.Restart? {
      SaveRestores(s);
      hide Apply, Enabled, Store.Consistent, Load, Save;
    } else if Target(e).value in s.tasks.items {
      TargetFinished(s, e, now);
    }
  }

  lemma {:induction false} TargetFinished(s: Store, e: Event, now: Instant)
    requires s.Consistent() && Enabled(s, e, now) && Finished(s) && !Revives(s, e)
    requires Target(e).Some? && Target(e).value in s.tasks.items
    requires s.tasks.items[Target(e).value].id == Target(e).value
    ensures Finished(s.Update(Written(s.tasks.items[Target(e).value], e, now)))
  {
    var t := s.tasks.items[Target(e).value];
    assert (t.finishedAt.Some? ==> t.state.Final()) && (e.Retry? ==> !t.state.Final());
    if e.Claim? { ClaimedIsQueued(s, t, now, e.model); }
    hide *;
    WrittenFinished(t, e, now);
    UpdateFinished(s, Written(t, e, now));
  }

  lemma {:induction false} ClaimedIsQueued(s: Store, t: StoredTask, now: Instant, model: Option<string>)
    requires s.Consistent() && s.NextClaim(t, now, model)
    ensures t.state.Queued?
  {
    hide Store.Consistent;
    ClaimConsistent(s, t, now, model);
  }

  lemma {:induction false} WrittenFinished(t: StoredTask, e: Event, now: Instant)
    requires (t.finishedAt.Some? ==> t.state.Final()) && (e.Retry? ==> !t.state.Final())
      && (e.Claim? ==> t.state.Queued?)
    ensures Written(t, e, now).finishedAt.Some? ==> Written(t, e, now).state.Final()
  {
  }

  lemma {:induction false} UpdateFinished(s: Store, t: StoredTask)
    requires Finished(s) && (t.finishedAt.Some? ==> t.state.Final())
    ensures Finished(s.Update(t))
  {
  }

  lemma {:induction false} SubmitFinished(s: Store, batch: seq<QueueTask>, stamps: seq<Stamp>)
    requires |batch| == |stamps| && Finished(s)
    ensures Finished(SubmitAll(s, batch, stamps))
  {
    if batch != [] { SubmitFinished(s, batch[..|batch| - 1], stamps[..|batch| - 1]); }
  }

  /**
   * So the two stores agree on every history in which no finished task is queued again. The executor's
   * catch-all can do that, by recording a retry after a result was recorded.
   */
  lemma {:induction false} OrderlyHistoriesAgree(r: Run, tables: seq<Table>, i: nat)
    requires FollowsSql(r, tables) && Finished(r.states[0]) && i < |tables|
    requires forall n | 0 <= n < i :: !Revives(r.states[n], r.events[n])
    ensures Finished(r.states[i]) && Mirrors(tables[i], r.states[i])
    ensures forall n | 0 <= n < i :: !Divides(tables[n], r.events[n], r.times[n])
  {
    hide *;
    FollowsRun(r, tables);
    if i == 0 {
      StartsMirrored(r, tables);
    } else {
      OrderlyHistoriesAgree(r, tables, i - 1);
      FollowsStep(r, tables, i - 1);
      FinishedUndivided(tables[i - 1], r.states[i - 1], r.events[i - 1], r.times[i - 1]);
      FinishedStep(r.states[i - 1], r.events[i - 1], r.times[i - 1]);
      StepsAgreeIff(tables[i - 1], r.states[i - 1], r.events[i - 1], r.times[i - 1]);
    }
  }

  lemma {:induction false} FinishedUndivided(table: Table, s: Store, e: Event, now: Instant)
    requires Mirrors(table, s) && Finished(s)
    ensures !Divides(table, e, now)
  {
    hide Store.Consistent;
  }

  /**
   * Otherwise they do part: once the result of a task was recorded and the task then queued again, a later
   * cancel keeps the old finish time in the table and writes a new one in the other store.
   */
  lemma {:induction false} RevivedTaskDivides(table: Table, s: Store, id: string, value: Json, error: Json,
                                              done: Instant, next: Instant, again: Instant, now: Instant)
    requires Mirrors(table, s) && id in table && now != done
    ensures var complete, retry, cancel := Complete(id, value), Retry(id, error, next),
      Cancel(table[id].spec.tenant, id);
      var t := SqlApply(SqlApply(table, complete, done), retry, again);
      && Enabled(s, complete, done)
      && Apply(s, complete, done).Consistent() && Enabled(Apply(s, complete, done), retry, again)
      && Revives(Apply(s, complete, done), retry)
      && Mirrors(t, Apply(Apply(s, complete, done), retry, again))
      && Divides(t, cancel, now)
  {
    hide *;
    var complete, retry := Complete(id, value), Retry(id, error, next);
    var s1, table1 := RecordStep(table, s, id, complete, done);
    var s2, table2 := RecordStep(table1, s1, id, retry, again);
    RevivedRow(table, id, value, error, done, next, again, now);
    RevivesRow(table1, s1, id, retry);
  }

  /** A record of a stored task is possible and keeps the stores the same. */
  lemma {:induction false} RecordStep(table: Table, s: Store, id: string, e: Event, now: Instant)
    returns (r: Store, rows: Table)
    requires Mirrors(table, s) && id in table && ((e.Complete? && e.id == id) || (e.Retry? && e.id == id))
    ensures s.Consistent() && Enabled(s, e, now)
    ensures r == Apply(s, e, now) && rows == SqlApply(table, e, now)
    ensures r.Consistent() && Mirrors(rows, r) && id in rows && rows[id] == Written(table[id], e, now)
  {
    assert Enabled(s, e, now) && !Divides(table, e, now);
    assert SqlApply(table, e, now) == table[id := Written(table[id], e, now)];
    r, rows := Apply(s, e, now), SqlApply(table, e, now);
    hide *;
    StepsAgreeIff(table, s, e, now);
    ApplyKeeps(s, e, now);
  }

  lemma {:induction false} RevivedRow(table: Table, id: string, value: Json, error: Json, done: Instant, next: Instant,
                                      again: Instant, now: Instant)
    requires id in table && now != done
    ensures SqlApply(table, Complete(id, value), done)[id].state.Final()
    ensures Divides(SqlApply(SqlApply(table, Complete(id, value), done), Retry(id, error, next), again),
                    Cancel(table[id].spec.tenant, id), now)
  {
  }

  lemma {:induction false} RevivesRow(table: Table, s: Store, id: string, e: Event)
    requires Mirrors(table, s) && e.Retry? && e.id == id && id in table && table[id].state.Final()
    ensures Revives(s, e)
  {
    hide Store.Consistent;
  }

  /** A created row can be claimed at any time. */
  lemma {:induction false} AcceptedIsRunnable(table: Table, s: Store, batch: seq<QueueTask>, stamps: seq<Stamp>)
    returns (row: StoredTask)
    requires |batch| == |stamps| && s.Consistent() && Fresh(s, stamps) && Mirrors(table, SubmitAll(s, batch, stamps))
    requires AcceptedIn(Receipts(s, batch, stamps)) != []
    ensures row in table.Values && forall now :: Runnable(row, now, None)
  {
    var receipts := Receipts(s, batch, stamps);
    row := AcceptedIn(receipts)[0];
    var i := AcceptedFrom(receipts, row);
    hide *;
    AcceptedWaits(s, batch, stamps, i);
    ReceiptsLead(s, batch, stamps, i);
    WaitingIsRunnable(table, SubmitAll(s, batch, stamps), row, batch[i], stamps[i]);
  }

  lemma {:induction false} WaitingIsRunnable(table: Table, s: Store, row: StoredTask, q: QueueTask, stamp: Stamp)
    requires Mirrors(table, s) && LeadsTo(s, q.Key(), row) && Waiting(row, q, stamp)
    ensures row in table.Values && forall now :: Runnable(row, now, None)
  {
    hide Store.Consistent;
    assert table[s.index[q.Key()]] == row;
  }

  /** The row that is picked, and what the UPDATE makes of it. */
  lemma {:induction false} PickedRow(table: Table, s: Store, now: Instant, model: Option<string>, t: StoredTask)
    requires Mirrors(table, s) && SqlPicks(t, table, now, model)
    ensures t.id in table && table[t.id] == t && Runnable(t, now, model)
    ensures Rewrites(t, Claim(t.id, model), now, t.Claimed(now))
  {
    assert s.Consistent() && table == s.tasks.items;
    hide *;
    ClaimsAgree(table, s, now, model, t);
    ClaimConsistent(s, t, now, model);
    ClaimedRow(t, now, model);
  }

  lemma {:induction false} ClaimedRow(t: StoredTask, now: Instant, model: Option<string>)
    ensures t.Claimable(now, model) <==> Runnable(t, now, model)
    ensures Rewrites(t, Claim(t.id, model), now, t.Claimed(now))
  {
  }

  class PostgresTaskStore {
    var rows: Table

    constructor ()
      ensures rows == map[]
    {
      rows := map[];
    }

    /** Equal rows, equal clock: the same row comes back and the same fields are written. */
    method ClaimNext(now: Instant, model: Option<string>, ghost s: Store) returns (row: Option<StoredTask>)
      requires Mirrors(rows, s)
      modifies this
      ensures row.None? <==> Candidates(s.Rows(), now, model) == []
      ensures row.None? ==> rows == old(rows)
      ensures row.Some? ==> ClaimMakes(s, now, model, row.value, s.Update(row.value))
      ensures row.Some? ==> Mirrors(rows, s.Update(row.value))
      // column by column
      ensures row.Some? ==>
        var u := row.value;
        && u.id in old(rows) && rows == old(rows)[u.id := u]
        && Runnable(old(rows)[u.id], now, model) && Rewrites(old(rows)[u.id], Claim(u.id, model), now, u)
    {
      hide SqlPicks;
      if picked :| picked in rows.Values && SqlPicks(picked, rows, now, model) {
        ClaimMirrors(rows, s, now, model, picked);
        PickedRow(rows, s, now, model, picked);
        hide RunnableRows, Candidates, Mirrors, ClaimMakes, Rewrites, Runnable;
        var t :=
          picked.(state := Running, startedAt := if picked.startedAt == None then Some(now) else picked.startedAt,
                         attempts := picked.attempts + 1, nextAttemptAt := None, updatedAt := now);
        rows := rows[picked.id := t];
        row := Some(t);
      } else {
        if Candidates(s.Rows(), now, model) != [] {
          ghost var t := PickExists(rows, s, now, model);
          assert false;
        }
        row := None;
      }
    }

    /** One INSERT for each task; a conflict reads the row that is there. */
    method SubmitMany(batch: seq<QueueTask>, stamps: seq<Stamp>, ghost s: Store)
      returns (accepted: seq<StoredTask>, reused: seq<StoredTask>)
      requires Mirrors(rows, s) && |batch| == |stamps| && Fresh(s, stamps)
      modifies this
      ensures rows == InsertAll(old(rows), batch, stamps) && Mirrors(rows, SubmitAll(s, batch, stamps))
      ensures accepted == AcceptedIn(Receipts(s, batch, stamps))
      ensures reused == ReusedIn(Receipts(s, batch, stamps))
      // row by row: what is new waits to be claimed, so that a claim at any time finds something
      ensures |accepted| + |reused| == |batch|
      ensures forall i | 0 <= i < |batch| ::
        Answered(s, SubmitAll(s, batch, stamps), batch, stamps, i, accepted, reused)
      ensures accepted != [] ==> exists row :: row in rows.Values && forall now :: Runnable(row, now, None)
    {
      ghost var before := rows;
      hide Store.Consistent, InsertOne, Answer, SubmitOne;
      accepted, reused := [], [];
      for i := 0 to |batch|
        invariant rows == InsertAll(before, batch[..i], stamps[..i])
        invariant accepted == AcceptedIn(Receipts(s, batch[..i], stamps[..i]))
        invariant reused == ReusedIn(Receipts(s, batch[..i], stamps[..i]))
      {
        InsertStep(before, s, batch, stamps, i);
        var receipt := InsertTask(batch[i], stamps[i], SubmitAll(s, batch[..i], stamps[..i]));
        match receipt
        case Reused(row) => reused := reused + [row];
        case Accepted(row) => accepted := accepted + [row];
      }
      assert batch[..|batch|] == batch && stamps[..|batch|] == stamps;
      SubmitsAgree(before, s, batch, stamps);
      ListsShare(Receipts(s, batch, stamps));
      forall i | 0 <= i < |batch| { EntryAnswered(s, batch, stamps, i); }
      if accepted != [] { var _ := AcceptedIsRunnable(rows, s, batch, stamps); }
      hide *;
    }

    /** `insert_task`, and the SELECT after a conflict. */
    method InsertTask(task: QueueTask, stamp: Stamp, ghost s: Store) returns (receipt: Receipt)
      requires Mirrors(rows, s)
      modifies this
      ensures rows == InsertOne(old(rows), task, stamp) && receipt == Answer(s, task, stamp)
      ensures (forall id | id in old(rows) :: old(rows)[id].spec.Key() != task.Key()) ==>
        receipt.Accepted? && Waiting(receipt.task, task, stamp) && rows == old(rows)[stamp.id := receipt.task]
      ensures forall id | id in old(rows) && old(rows)[id].spec.Key() == task.Key() ::
        receipt == Reused(old(rows)[id]) && rows == old(rows)
    {
      if id :| id in rows && rows[id].spec.Key() == task.Key() {
        return Reused(rows[id]);
      }
      assert task.Key() !in s.index;
      rows := rows[stamp.id := NewTask(task, stamp)];
      return Accepted(NewTask(task, stamp));
    }

    /** UPDATE ... WHERE task_id = ... RETURNING; None is the KeyError. */
    method UpdateRow(id: string, row: Option<StoredTask>) returns (stored: Option<StoredTask>)
      requires row.Some? <==> id in rows
      modifies this
      ensures stored == row
      ensures rows == if row.Some? then old(rows)[id := row.value] else old(rows)
    {
      if row.Some? { rows := rows[id := row.value]; }
      stored := row;
    }

    method RecordResult(id: string, value: Json, now: Instant) returns (stored: Option<StoredTask>)
      modifies this
      ensures rows == SqlApply(old(rows), Complete(id, value), now)
      ensures stored == if id in old(rows) then Some(rows[id]) else None
      ensures id in old(rows) ==>
        id in rows && rows == old(rows)[id := rows[id]] && Rewrites(old(rows)[id], Complete(id, value), now, rows[id])
      ensures id !in old(rows) ==> rows == old(rows)
    {
      stored :=
        UpdateRow(id, if id in rows then Some(rows[id].(state := Succeeded, result := Some(value), error := None,
        nextAttemptAt := None, finishedAt := Some(now), updatedAt := now)) else None);
    }

    method RecordError(id: string, value: Json, now: Instant) returns (stored: Option<StoredTask>)
      modifies this
      ensures rows == SqlApply(old(rows), Fail(id, value), now)
      ensures stored == if id in old(rows) then Some(rows[id]) else None
      ensures id in old(rows) ==>
        id in rows && rows == old(rows)[id := rows[id]] && Rewrites(old(rows)[id], Fail(id, value), now, rows[id])
      ensures id !in old(rows) ==> rows == old(rows)
    {
      stored := UpdateRow(id, if id in rows then Some(rows[id].(state := Failed, error := Some(value),
        nextAttemptAt := None, finishedAt := Some(now), updatedAt := now)) else None);
    }

    method RecordRetry(id: string, value: Json, next: Instant, now: Instant) returns (stored: Option<StoredTask>)
      modifies this
      ensures rows == SqlApply(old(rows), Retry(id, value, next), now)
      ensures stored == if id in old(rows) then Some(rows[id]) else None
      ensures id in old(rows) ==>
        id in rows && rows == old(rows)[id := rows[id]]
        && Rewrites(old(rows)[id], Retry(id, value, next), now, rows[id])
      ensures id !in old(rows) ==> rows == old(rows)
    {
      stored := UpdateRow(id, if id in rows then Some(rows[id].(state := Queued, error := Some(value),
        nextAttemptAt := Some(next), updatedAt := now)) else None);
    }

    /** UPDATE ... WHERE tenant, task_id and not final, and a SELECT when that finds no row. */
    method CancelTask(tenant: string, id: string, now: Instant) returns (stored: Option<StoredTask>)
      modifies this
      ensures rows == SqlApply(old(rows), Cancel(tenant, id), now)
      ensures stored == if id in old(rows) && old(rows)[id].spec.tenant == tenant then Some(rows[id]) else None
      ensures stored == None ==> rows == old(rows)
      ensures stored.Some? ==>
        var u := stored.value;
        && id in old(rows) && rows == old(rows)[id := u]
        && var t := old(rows)[id];
        if t.state in {Succeeded, Failed, Cancelled} then u == t
        else
          && SameTask(t, u) && u.attempts == t.attempts && u.startedAt == t.startedAt && u.updatedAt == now
          && u.state == Cancelled && u.result == t.result && u.error == t.error
          && u.finishedAt == Some(if t.finishedAt.Some? then t.finishedAt.value else now) && u.nextAttemptAt == None
    {
      if id !in rows || rows[id].spec.tenant != tenant {
        assert id in rows ==> rows[id := rows[id]] == rows;
        return None;
      }
      if rows[id].state.Final() {
        assert rows[id := rows[id]] == rows;
        return Some(rows[id]);
      }
      stored := UpdateRow(id, Some(rows[id].(state := Cancelled, nextAttemptAt := None, updatedAt := now,
        finishedAt := if rows[id].finishedAt.Some? then rows[id].finishedAt else Some(now))));
    }
  }
}
