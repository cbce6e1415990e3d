/** `choose_fair_task`: which of the claimable tasks is served next, and what that choice is. */
module FairClaim {
  import opened Wrappers
  import opened TextOrder
  import opened Tasks

  ghost predicate Served(t: StoredTask, tasks: seq<StoredTask>, group: seq<string>) {
    t in tasks && t.attempts >= 1 && t.Group() == group
  }

  /** `r` is the latest `updated_at` among the attempted tasks of the group, None when it has none. */
  ghost predicate IsLastClaim(r: Option<Instant>, tasks: seq<StoredTask>, group: seq<string>) {
    && (forall t | Served(t, tasks, group) :: r.Some? && t.updatedAt <= r.value)
    && (r.Some? ==> exists t :: Served(t, tasks, group) && t.updatedAt == r.value)
  }

  function LastClaimed(tasks: seq<StoredTask>, group: seq<string>): (r: Option<Instant>)
    ensures IsLastClaim(r, tasks, group)
  {
    if tasks == [] then None
    else
      var before := LastClaimed(tasks[..|tasks| - 1], group);
      var t := tasks[|tasks| - 1];
      assert forall u :: Served(u, tasks, group) <==>
        Served(u, tasks[..|tasks| - 1], group) || (u == t && t.attempts >= 1 && t.Group() == group);
      if t.attempts >= 1 && t.Group() == group && (before.None? || t.updatedAt > before.value)
      then Some(t.updatedAt) else before
  }

  function Oldest(tasks: seq<StoredTask>): (r: Instant)
    requires tasks != []
    ensures exists t :: t in tasks && t.createdAt == r
    ensures forall t | t in tasks :: r <= t.createdAt
  {
    var t := tasks[|tasks| - 1];
    if |tasks| == 1 then assert t in tasks; t.createdAt
    else
      var before := Oldest(tasks[..|tasks| - 1]);
      assert forall u :: u in tasks <==> u in tasks[..|tasks| - 1] || u == t;
      if t.createdAt < before then t.createdAt else before
  }

  function InGroup(tasks: seq<StoredTask>, group: seq<string>): (r: seq<StoredTask>)
    ensures forall t :: t in r <==> t in tasks && t.Group() == group
  {
    if tasks == [] then []
    else
      var rest := InGroup(tasks[..|tasks| - 1], group);
      assert tasks == tasks[..|tasks| - 1] + [tasks[|tasks| - 1]];
      if tasks[|tasks| - 1].Group() == group then rest + [tasks[|tasks| - 1]] else rest
  }

  /** A group never served comes before every served one; among served ones the stalest is first. */
  predicate ServedEarlier(a: Option<Instant>, b: Option<Instant>) {
    b.Some? && (a.None? || a.value < b.value)
  }

  /** The key a group is ranked by. */
  datatype Score = Score(last: Option<Instant>, oldest: Instant, group: seq<string>)

  predicate ScoreLess(a: Score, b: Score) {
    || ServedEarlier(a.last, b.last)
    || (a.last == b.last
        && (a.oldest < b.oldest || (a.oldest == b.oldest && TupleLess(a.group, b.group))))
  }

  lemma {:induction false} ScoreTotal(a: Score, b: Score)
    ensures ScoreLess(a, b) || a == b || ScoreLess(b, a)
    ensures !(ScoreLess(a, b) && ScoreLess(b, a))
  {
    TupleLessTotal(a.group, b.group);
    TupleLessAsymmetric(a.group, b.group);
  }

  lemma {:induction false} ScoreTransitive(a: Score, b: Score, c: Score)
    requires ScoreLess(a, b) && ScoreLess(b, c)
    ensures ScoreLess(a, c)
  {
    if TupleLess(a.group, b.group) && TupleLess(b.group, c.group) {
      TupleLessTransitive(a.group, b.group, c.group);
    }
  }

  /** Within a group: oldest first, then by id. */
  predicate TaskLess(a: StoredTask, b: StoredTask) {
    a.createdAt < b.createdAt || (a.createdAt == b.createdAt && Less(a.id, b.id))
  }

  lemma {:induction false} TaskTotal(a: StoredTask, b: StoredTask)
    ensures TaskLess(a, b) || TaskLess(b, a) || a.id == b.id
    ensures !(TaskLess(a, b) && TaskLess(b, a))
  {
    LessTotal(a.id, b.id);
    LessAsymmetric(a.id, b.id);
  }

  lemma {:induction false} TaskTransitive(a: StoredTask, b: StoredTask, c: StoredTask)
    requires TaskLess(a, b) && TaskLess(b, c)
    ensures TaskLess(a, c)
  {
    if Less(a.id, b.id) && Less(b.id, c.id) { LessTransitive(a.id, b.id, c.id); }
  }

  /** One lexicographic order over rows: (served?, last claim, creation, group, id). */
  predicate RowLess(a: StoredTask, b: StoredTask, rows: seq<StoredTask>) {
    var la, lb := LastClaimed(rows, a.Group()), LastClaimed(rows, b.Group());
    || ServedEarlier(la, lb)
    || (la == lb
        && (|| a.createdAt < b.createdAt
            || (a.createdAt == b.createdAt
                && (|| TupleLess(a.Group(), b.Group())
                    || (a.Group() == b.Group() && Less(a.id, b.id))))))
  }

  /** The specification of a claim: the least claimable row. */
  ghost predicate IsFairest(t: StoredTask, candidates: seq<StoredTask>, rows: seq<StoredTask>) {
    t in candidates && forall u | u in candidates :: u == t || RowLess(t, u, rows)
  }

  lemma {:induction false} RowLessAsymmetric(a: StoredTask, b: StoredTask, rows: seq<StoredTask>)
    ensures !(RowLess(a, b, rows) && RowLess(b, a, rows))
  {
    TupleLessAsymmetric(a.Group(), b.Group());
    LessAsymmetric(a.id, b.id);
  }

  /** At most one task is fairest, so the specification determines the claim. */
  lemma {:induction false} FairestUnique(a: StoredTask, b: StoredTask, candidates: seq<StoredTask>,
                                         rows: seq<StoredTask>)
    requires IsFairest(a, candidates, rows) && IsFairest(b, candidates, rows)
    ensures a == b
  {
    RowLessAsymmetric(a, b, rows);
  }

  /** The choice depends on which rows there are, not on the order in which they are listed. */
  lemma {:induction false} FairestIgnoresOrder(t: StoredTask, c: seq<StoredTask>, c': seq<StoredTask>,
                            rows: seq<StoredTask>, rows': seq<StoredTask>)
    requires forall u :: u in c <==> u in c'
    requires forall u :: u in rows <==> u in rows'
    ensures IsFairest(t, c, rows) <==> IsFairest(t, c', rows')
  {
    forall g ensures LastClaimed(rows, g) == LastClaimed(rows', g) { LastClaimedDependsOnServed(rows, rows', g); }
    hide LastClaimed;
  }

  /** The last claim of a group is a function of its attempted tasks. */
  lemma {:induction false} LastClaimedDependsOnServed(rows: seq<StoredTask>, rows': seq<StoredTask>, group: seq<string>)
    requires forall t :: Served(t, rows, group) <==> Served(t, rows', group)
    ensures LastClaimed(rows, group) == LastClaimed(rows', group)
  {
    hide LastClaimed, Served;
  }

  ghost function GroupScore(group: seq<string>, candidates: seq<StoredTask>, rows: seq<StoredTask>): Score
    requires InGroup(candidates, group) != []
  {
    Score(LastClaimed(rows, group), Oldest(InGroup(candidates, group)), group)
  }

  ghost predicate IsBestGroup(group: seq<string>, candidates: seq<StoredTask>, rows: seq<StoredTask>) {
    && InGroup(candidates, group) != []
    && forall h | InGroup(candidates, h) != [] ::
         h == group || ScoreLess(GroupScore(group, candidates, rows), GroupScore(h, candidates, rows))
  }

  ghost predicate IsFirst(t: StoredTask, tasks: seq<StoredTask>) {
    t in tasks && forall u | u in tasks :: u == t || TaskLess(t, u)
  }

  /** Picking the best group and then its first task picks the least row. */
  lemma {:induction false} TwoStagesGiveFairest(group: seq<string>, t: StoredTask, candidates: seq<StoredTask>,
                                                rows: seq<StoredTask>)
    requires IsBestGroup(group, candidates, rows)
    requires IsFirst(t, InGroup(candidates, group))
    ensures IsFairest(t, candidates, rows)
  {
    var mine := InGroup(candidates, group);
    var o :| o in mine && o.createdAt == Oldest(mine);
    forall u | u in candidates && u != t ensures RowLess(t, u, rows) {
      assert u in InGroup(candidates, u.Group());
      if u.Group() == group {
        assert TaskLess(t, u);
      } else {
        assert ScoreLess(GroupScore(group, candidates, rows), GroupScore(u.Group(), candidates, rows));
      }
    }
  }

  /** `choose_fair_task` as written: two dictionaries filled in loops, then two minima. */
  method ChooseFairTask(candidates: seq<StoredTask>, all: seq<StoredTask>) returns (chosen: StoredTask)
    requires candidates != [] && IdsIdentify(candidates)
    ensures IsFairest(chosen, candidates, all)
  {
    var groupCandidates := GroupCandidates(candidates);
    var lastClaimedByGroup := LastClaims(all);
    assert candidates[0] in InGroup(candidates, candidates[0].Group());
    var group := BestGroup(groupCandidates, lastClaimedByGroup, candidates, all);
    chosen := FirstTask(groupCandidates[group]);
    TwoStagesGiveFairest(group, chosen, candidates, all);
  }

  method GroupCandidates(candidates: seq<StoredTask>) returns (groups: map<seq<string>, seq<StoredTask>>)
    ensures forall g :: g in groups <==> InGroup(candidates, g) != []
    ensures forall g | g in groups :: groups[g] == InGroup(candidates, g)
  {
    groups := map[];
    for i := 0 to |candidates|
      invariant forall g :: g in groups <==> InGroup(candidates[..i], g) != []
      invariant forall g | g in groups :: groups[g] == InGroup(candidates[..i], g)
    {
      var t := candidates[i];
      assert candidates[..i + 1][..i] == candidates[..i];
      var soFar := if t.Group() in groups then groups[t.Group()] else [];
      groups := groups[t.Group() := soFar + [t]];
    }
    assert candidates[..|candidates|] == candidates;
  }

  lemma {:induction false} LastClaimedSnoc(all: seq<StoredTask>, i: nat, group: seq<string>)
    requires i < |all|
    ensures var t, before := all[i], LastClaimed(all[..i], group);
      LastClaimed(all[..i + 1], group) ==
        if t.attempts >= 1 && t.Group() == group && (before.None? || t.updatedAt > before.value)
        then Some(t.updatedAt) else before
  {
    assert all[..i + 1][..i] == all[..i];
  }

  method LastClaims(all: seq<StoredTask>) returns (last: map<seq<string>, Instant>)
    ensures forall g :: g in last <==> LastClaimed(all, g).Some?
    ensures forall g | g in last :: LastClaimed(all, g) == Some(last[g])
  {
    hide LastClaimed, IsLastClaim;
    last := map[];
    LastClaimedEmpty();
    for i := 0 to |all|
      invariant forall g :: g in last <==> LastClaimed(all[..i], g).Some?
      invariant forall g | g in last :: LastClaimed(all[..i], g) == Some(last[g])
    {
      var t := all[i];
      forall g { LastClaimedSnoc(all, i, g); }
      if t.attempts >= 1 {
        var g := t.Group();
        if g !in last || t.updatedAt > last[g] {
          last := last[g := t.updatedAt];
        }
      }
    }
    assert all[..|all|] == all;
  }

  lemma {:induction false} LastClaimedEmpty()
    ensures forall g :: LastClaimed([], g) == None
  {
  }

  /** `min(group_candidates, key=group_sort_key)`. */
  method BestGroup(groups: map<seq<string>, seq<StoredTask>>, last: map<seq<string>, Instant>,
                   ghost candidates: seq<StoredTask>, ghost all: seq<StoredTask>) returns (best: seq<string>)
    requires groups != map[]
    requires forall g :: g in groups <==> InGroup(candidates, g) != []
    requires forall g | g in groups :: groups[g] == InGroup(candidates, g)
    requires forall g :: g in last <==> LastClaimed(all, g).Some?
    requires forall g | g in last :: LastClaimed(all, g) == Some(last[g])
    ensures IsBestGroup(best, candidates, all)
  {
    var todo := groups.Keys;
    best :| best in todo;
    var score := Score(if best in last then Some(last[best]) else None, Oldest(groups[best]), best);
    todo := todo - {best};
    while todo != {}
      invariant todo <= groups.Keys && best in groups && best !in todo
      invariant score == GroupScore(best, candidates, all)
      invariant forall h | h in groups && h !in todo :: h == best || ScoreLess(score, GroupScore(h, candidates, all))
      decreases todo
    {
      var g :| g in todo;
      todo := todo - {g};
      var other := Score(if g in last then Some(last[g]) else None, Oldest(groups[g]), g);
      ScoreTotal(score, other);
      if ScoreLess(other, score) {
        forall h | h in groups && h !in todo && h != best && h != g
          ensures ScoreLess(other, GroupScore(h, candidates, all))
        {
          ScoreTransitive(other, score, GroupScore(h, candidates, all));
        }
        best, score := g, other;
      }
    }
  }

  /** `min(tasks, key=lambda task: (task.created_at, task.task_id))`. */
  method FirstTask(tasks: seq<StoredTask>) returns (first: StoredTask)
    requires tasks != [] && IdsIdentify(tasks)
    ensures IsFirst(first, tasks)
  {
    first := tasks[0];
    for i := 1 to |tasks|
      invariant first in tasks
      invariant forall u | u in tasks[..i] :: u == first || TaskLess(first, u)
    {
      var t := tasks[i];
      TaskTotal(first, t);
      if TaskLess(t, first) {
        forall u | u in tasks[..i] && u != first ensures TaskLess(t, u) { TaskTransitive(t, first, u); }
        first := t;
      }
      assert tasks[..i + 1] == tasks[..i] + [tasks[i]];
    }
    assert tasks[..|tasks|] == tasks;
  }

  /** Whenever something is claimable there is a fairest task. */
  lemma {:induction false} FairestExists(candidates: seq<StoredTask>, rows: seq<StoredTask>)
    requires candidates != [] && IdsIdentify(candidates)
    ensures exists t :: IsFairest(t, candidates, rows)
  {
    FairestOfPrefix(candidates, rows, |candidates|);
    assert candidates[..|candidates|] == candidates;
  }

  lemma {:induction false} RowTotal(a: StoredTask, b: StoredTask, rows: seq<StoredTask>)
    ensures RowLess(a, b, rows) || RowLess(b, a, rows) || a.id == b.id
  {
    TupleLessTotal(a.Group(), b.Group());
    LessTotal(a.id, b.id);
  }

  lemma {:induction false} RowTransitive(a: StoredTask, b: StoredTask, c: StoredTask, rows: seq<StoredTask>)
    requires RowLess(a, b, rows) && RowLess(b, c, rows)
    ensures RowLess(a, c, rows)
  {
    if TupleLess(a.Group(), b.Group()) && TupleLess(b.Group(), c.Group()) {
      TupleLessTransitive(a.Group(), b.Group(), c.Group());
    }
    if Less(a.id, b.id) && Less(b.id, c.id) { LessTransitive(a.id, b.id, c.id); }
  }

  lemma {:induction false} FairestOfPrefix(candidates: seq<StoredTask>, rows: seq<StoredTask>, n: nat)
    requires 0 < n <= |candidates| && IdsIdentify(candidates)
    ensures exists t :: IsFairest(t, candidates[..n], rows)
  {
    var t := candidates[n - 1];
    assert candidates[..n] == candidates[..n - 1] + [t];
    if n == 1 {
      assert IsFairest(t, candidates[..n], rows);
    } else {
      FairestOfPrefix(candidates, rows, n - 1);
      var m :| IsFairest(m, candidates[..n - 1], rows);
      RowTotal(m, t, rows);
      if m == t || RowLess(m, t, rows) {
        assert IsFairest(m, candidates[..n], rows);
      } else {
        forall u | u in candidates[..n] && u != t ensures RowLess(t, u, rows) {
          if u != m { RowTransitive(t, m, u, rows); }
        }
        assert IsFairest(t, candidates[..n], rows);
      }
    }
  }
}
