/** Bounded bypass: how often other groups can be served while one group waits. */
module Fairness {
  import opened Wrappers
  import opened Tasks
  import opened FairClaim
  import opened TaskStore
  import opened StoreRuns

  /** Claims so far carry instants before `now`. */
  ghost predicate Past(s: Store, now: Instant) {
    forall id | id in s.tasks.items && s.tasks.items[id].attempts >= 1 :: s.tasks.items[id].updatedAt < now
  }

  /** The clock moves strictly forward along the run. */
  ghost predicate Timed(r: Run) {
    && IsRun(r)
    && (forall i, j | 0 <= i < j < |r.times| :: r.times[i] < r.times[j])
    && (r.times != [] ==> Past(r.states[0], r.times[0]))
  }

  /** The group of the task that event `i` writes. */
  ghost predicate TargetsGroup(r: Run, i: nat, g: seq<string>)
    requires i < |r.events| < |r.states|
  {
    match Target(r.events[i])
    case Some(id) => id in r.states[i].tasks.items && r.states[i].tasks.items[id].Group() == g
    case None => false
  }

  ghost predicate Claims(r: Run, i: nat, g: seq<string>)
    requires i < |r.events| < |r.states|
  {
    r.events[i].Claim? && TargetsGroup(r, i, g)
  }

  /** At every claim, `g` has a task that is queued and due, and claims are not restricted to one model. */
  ghost predicate AlwaysDue(r: Run, g: seq<string>)
    requires IsRun(r)
  {
    forall i | 0 <= i < |r.events| && r.events[i].Claim? ::
      && r.events[i].model == None
      && exists id :: (id in r.states[i].tasks.items
                       && r.states[i].tasks.items[id].Claimable(r.times[i], None)
                       && r.states[i].tasks.items[id].Group() == g)
  }

  /** No record or cancellation writes a task of `g` that has already been attempted. */
  ghost predicate Untouched(r: Run, g: seq<string>)
    requires IsRun(r)
  {
    forall i | 0 <= i < |r.events| && !r.events[i].Claim? && TargetsGroup(r, i, g) ::
      r.states[i].tasks.items[Target(r.events[i]).value].attempts == 0
  }

  /** Group `g` waits all along the run. */
  ghost predicate Waits(r: Run, g: seq<string>) {
    && Timed(r) && AlwaysDue(r, g) && Untouched(r, g)
    && (forall i | 0 <= i < |r.events| :: !Claims(r, i, g))
  }

  /** Some task of `g` was claimed or recorded at `since` or later. */
  ghost predicate ServedSince(s: Store, g: seq<string>, since: Instant) {
    exists id :: (id in s.tasks.items && s.tasks.items[id].Group() == g
                  && s.tasks.items[id].attempts >= 1 && s.tasks.items[id].updatedAt >= since)
  }

  lemma {:induction false} PastStep(s: Store, t: Store, e: Event, now: Instant, later: Instant)
    requires Past(s, now) && Grows(s, t, e, now) && now < later
    ensures Past(t, later)
  {
  }

  lemma {:induction false} PastHolds(r: Run, i: nat)
    requires Timed(r) && i < |r.times|
    ensures Past(r.states[i], r.times[i])
  {
    TimedIs(r, i);
    hide *;
    if i > 0 {
      PastHolds(r, i - 1);
      PastNext(r, i - 1);
    }
  }

  lemma {:induction false} PastNext(r: Run, i: nat)
    requires IsRun(r) && |r.times| == |r.events| && |r.states| == |r.events| + 1 && i + 1 < |r.times|
    requires Past(r.states[i], r.times[i]) && r.times[i] < r.times[i + 1]
    ensures Past(r.states[i + 1], r.times[i + 1])
  {
    hide *;
    RunStep(r, i);
    PastStep(r.states[i], r.states[i + 1], r.events[i], r.times[i], r.times[i + 1]);
  }

  lemma {:induction false} TimedIs(r: Run, i: nat)
    requires Timed(r) && i < |r.times|
    ensures IsRun(r) && |r.times| == |r.events| && |r.states| == |r.events| + 1
    ensures if i == 0 then Past(r.states[0], r.times[0]) else r.times[i - 1] < r.times[i]
  {
    hide Past, Steps;
  }

  lemma {:induction false} ServedSinceStep(s: Store, t: Store, e: Event, now: Instant, g: seq<string>, since: Instant)
    requires ServedSince(s, g, since) && Grows(s, t, e, now) && since <= now
    ensures ServedSince(t, g, since)
  {
    var id :| id in s.tasks.items && s.tasks.items[id].Group() == g
      && s.tasks.items[id].attempts >= 1 && s.tasks.items[id].updatedAt >= since;
    assert Becomes(s.tasks.items[id], t.tasks.items[id], e, now);
  }

  /** A group once served at `since` stays served since then. */
  lemma {:induction false} ServedSinceLasts(r: Run, i: nat, j: nat, g: seq<string>, since: Instant)
    requires IsRun(r) && i <= j < |r.states| && ServedSince(r.states[i], g, since)
    requires forall n | i <= n < j :: since <= r.times[n]
    ensures ServedSince(r.states[j], g, since)
  {
    if i < j {
      ServedSinceLasts(r, i, j - 1, g, since);
      RunStep(r, j - 1);
      hide Enabled, Store.Consistent, Grows, ServedSince, IsRun;
      ServedSinceStep(r.states[j - 1], r.states[j], r.events[j - 1], r.times[j - 1], g, since);
    }
  }

  /** The event does not claim from `g` and does not write an attempted task of `g`. */
  ghost predicate Avoids(s: Store, e: Event, g: seq<string>) {
    Target(e).Some? && Target(e).value in s.tasks.items && s.tasks.items[Target(e).value].Group() == g
    ==> !e.Claim? && s.tasks.items[Target(e).value].attempts == 0
  }

  lemma {:induction false} StaysServed(s: Store, t: Store, e: Event, now: Instant, g: seq<string>, u: StoredTask)
    requires s.Consistent() && t.Consistent() && Grows(s, t, e, now) && Avoids(s, e, g)
    ensures Served(u, s.Rows(), g) <==> Served(u, t.Rows(), g)
  {
    RowsIdentify(s);
    RowsIdentify(t);
    if u.id in s.tasks.items {
      assert s.tasks.items[u.id].id == u.id;
      assert Becomes(s.tasks.items[u.id], t.tasks.items[u.id], e, now);
    }
    hide Store.Consistent, Grows;
  }

  /** The last claim of a waiting group does not move. */
  lemma {:induction false} WaitingStandsStill(r: Run, g: seq<string>, j: nat)
    requires Waits(r, g) && j < |r.states|
    ensures r.states[0].Consistent() && r.states[j].Consistent()
    ensures LastClaimed(r.states[j].Rows(), g) == LastClaimed(r.states[0].Rows(), g)
  {
    hide *;
    WaitsIsRun(r, g);
    RunConsistent(r, 0);
    RunConsistent(r, j);
    if j > 0 {
      WaitingStep(r, g, j - 1);
      WaitingStandsStill(r, g, j - 1);
      StandsStill(r.states[j - 1], r.states[j], r.events[j - 1], r.times[j - 1], g);
    }
  }

  lemma {:induction false} StandsStill(s: Store, t: Store, e: Event, now: Instant, g: seq<string>)
    requires s.Consistent() && t.Consistent() && Grows(s, t, e, now) && Avoids(s, e, g)
    ensures LastClaimed(s.Rows(), g) == LastClaimed(t.Rows(), g)
  {
    hide LastClaimed, Grows, Avoids, Served, Store.Rows;
    forall u ensures Served(u, s.Rows(), g) <==> Served(u, t.Rows(), g) { StaysServed(s, t, e, now, g, u); }
    LastClaimedDependsOnServed(s.Rows(), t.Rows(), g);
  }

  lemma {:induction false} WaitsIsRun(r: Run, g: seq<string>)
    requires Waits(r, g)
    ensures IsRun(r) && Timed(r) && |r.states| == |r.events| + 1 && |r.times| == |r.events|
  {
  }

  lemma {:induction false} WaitingStep(r: Run, g: seq<string>, i: nat)
    requires Waits(r, g) && i < |r.events|
    ensures i < |r.times| && i + 1 < |r.states| && r.states[i].Consistent() && r.states[i + 1].Consistent()
    ensures Grows(r.states[i], r.states[i + 1], r.events[i], r.times[i]) && Avoids(r.states[i], r.events[i], g)
  {
    RunStep(r, i);
    assert !Claims(r, i, g);
    hide Enabled, Store.Consistent, Grows, Steps;
  }

  /** After a claim from `h`, while `g` waits, `h` was claimed last and `g` ranks before it. */
  lemma {:induction false} ClaimServes(r: Run, i: nat, h: seq<string>)
    requires IsRun(r) && i < |r.events| && Claims(r, i, h)
    ensures ServedSince(r.states[i + 1], h, r.times[i])
  {
    RunStep(r, i);
    assert Steps(r, i);
    var id := r.events[i].id;
    assert r.states[i + 1].tasks.items[id].Group() == h;
  }

  /** While `g` waits, a group served since the wait began ranks after it. */
  lemma {:induction false} WaiterRanksFirst(s: Store, g: seq<string>, h: seq<string>, since: Instant,
                                            t: StoredTask, u: StoredTask)
    requires s.Consistent() && t in s.Rows() && t.Group() == h && u.Group() == g
    requires ServedSince(s, h, since)
    requires LastClaimed(s.Rows(), g) == None || LastClaimed(s.Rows(), g).value < since
    ensures RowLess(u, t, s.Rows())
  {
    RowsIdentify(s);
    var id :| id in s.tasks.items && s.tasks.items[id].Group() == h
      && s.tasks.items[id].attempts >= 1 && s.tasks.items[id].updatedAt >= since;
    assert Served(s.tasks.items[id], s.Rows(), h);
    hide LastClaimed, Store.Consistent;
  }

  /** What the waiting group was last served at lies before every claim of the run. */
  lemma {:induction false} LastClaimIsPast(s: Store, g: seq<string>, now: Instant)
    requires s.Consistent() && Past(s, now)
    ensures LastClaimed(s.Rows(), g) == None || LastClaimed(s.Rows(), g).value < now
  {
    RowsIdentify(s);
    hide Store.Consistent;
    var last := LastClaimed(s.Rows(), g);
    if last.Some? {
      var t :| Served(t, s.Rows(), g) && t.updatedAt == last.value;
    }
  }

  /** Past a due task of the waiting `g`, a group served since the wait began is not claimed. */
  lemma {:induction false} ServedIsNotNext(s: Store, g: seq<string>, h: seq<string>, since: Instant, now: Instant,
                                           t: StoredTask, u: StoredTask)
    requires s.Consistent() && u in s.Rows() && u.Claimable(now, None)
    requires t.Group() == h && u.Group() == g && g != h && ServedSince(s, h, since)
    requires LastClaimed(s.Rows(), g) == None || LastClaimed(s.Rows(), g).value < since
    ensures !s.NextClaim(t, now, None)
  {
    if s.NextClaim(t, now, None) {
      assert u in Candidates(s.Rows(), now, None);
      WaiterRanksFirst(s, g, h, since, t, u);
      RowLessAsymmetric(u, t, s.Rows());
    }
    hide LastClaimed, RowLess, Store.Consistent;
  }

  /** The task a claim takes, and the due task it passes over. */
  lemma {:induction false} AtClaim(r: Run, g: seq<string>, h: seq<string>, j: nat)
    returns (t: StoredTask, u: StoredTask)
    requires Waits(r, g) && j < |r.events| && Claims(r, j, h)
    ensures r.states[j].Consistent() && r.states[j].NextClaim(t, r.times[j], None) && t.Group() == h
    ensures u in r.states[j].Rows() && u.Claimable(r.times[j], None) && u.Group() == g && g != h
  {
    RunStep(r, j);
    RowsIdentify(r.states[j]);
    assert !Claims(r, j, g);
    t := r.states[j].tasks.items[r.events[j].id];
    var due :| due in r.states[j].tasks.items && r.states[j].tasks.items[due].Claimable(r.times[j], None)
      && r.states[j].tasks.items[due].Group() == g;
    assert r.states[j].tasks.items[due].id == due;
    u := r.states[j].tasks.items[due];
    hide Store.Consistent, Store.NextClaim, Grows;
  }

  /** While one group waits, no other group is claimed twice. */
  lemma {:induction false} ClaimedOnce(r: Run, g: seq<string>, h: seq<string>, i: nat, j: nat)
    requires Waits(r, g) && i < j < |r.events| && Claims(r, i, h)
    ensures !Claims(r, j, h)
  {
    assert forall n | i < n < j :: r.times[i] <= r.times[n];
    hide *;
    WaitsIsRun(r, g);
    if Claims(r, j, h) {
      ClaimServes(r, i, h);
      ServedSinceLasts(r, i + 1, j, h, r.times[i]);
      PastHolds(r, i);
      WaitingStandsStill(r, g, i);
      WaitingStandsStill(r, g, j);
      LastClaimIsPast(r.states[i], g, r.times[i]);
      var t, u := AtClaim(r, g, h, j);
      ServedIsNotNext(r.states[j], g, h, r.times[i], r.times[j], t, u);
    }
  }

  /** How many of the first `n` events are claims. */
  ghost function ClaimCount(r: Run, n: nat): nat
    requires n <= |r.events|
  {
    if n == 0 then 0 else ClaimCount(r, n - 1) + if r.events[n - 1].Claim? then 1 else 0
  }

  /** Every task that is claimed belongs to one of the groups. */
  ghost predicate GroupsWithin(r: Run, groups: set<seq<string>>) {
    IsRun(r) && forall i, h | 0 <= i < |r.events| && Claims(r, i, h) :: h in groups
  }

  lemma {:induction false} ClaimGroup(r: Run, i: nat) returns (h: seq<string>)
    requires IsRun(r) && i < |r.events| && r.events[i].Claim?
    ensures |r.events| < |r.states| && Claims(r, i, h)
  {
    RunStep(r, i);
    h := r.states[i].tasks.items[r.events[i].id].Group();
    hide IsRun, Grows, Store.Consistent, Store.NextClaim;
  }

  /** The group of a claim made while `g` waits. */
  lemma {:induction false} ClaimedFrom(r: Run, g: seq<string>, groups: set<seq<string>>, i: nat)
    returns (h: seq<string>)
    requires Waits(r, g) && GroupsWithin(r, groups) && i < |r.events| && r.events[i].Claim?
    ensures |r.events| < |r.states| && Claims(r, i, h) && h in groups - {g}
    ensures forall n | 0 <= n < i :: !Claims(r, n, h)
  {
    h := ClaimGroup(r, i);
    assert !Claims(r, i, g) && |r.events| < |r.states| && h in groups;
    hide *;
    forall n | 0 <= n < i ensures !Claims(r, n, h) {
      if Claims(r, n, h) { ClaimedOnce(r, g, h, n, i); }
    }
  }

  /** The groups claimed by the first `n` events are as many as the claims. */
  lemma {:induction false} ClaimedGroups(r: Run, g: seq<string>, groups: set<seq<string>>, n: nat)
    returns (claimed: set<seq<string>>)
    requires Waits(r, g) && GroupsWithin(r, groups) && n <= |r.events| < |r.states|
    ensures |claimed| == ClaimCount(r, n) && claimed <= groups - {g}
    ensures forall h | h in claimed :: exists i :: 0 <= i < n && Claims(r, i, h)
  {
    hide Waits, GroupsWithin, Claims;
    if n == 0 {
      claimed := {};
    } else {
      claimed := ClaimedGroups(r, g, groups, n - 1);
      if r.events[n - 1].Claim? {
        var h := ClaimedFrom(r, g, groups, n - 1);
        claimed := claimed + {h};
      }
    }
  }

  /** With `k` groups, at most `k - 1` claims go to the others while one of them waits. */
  lemma {:induction false} BoundedBypass(r: Run, g: seq<string>, groups: set<seq<string>>)
    requires Waits(r, g) && GroupsWithin(r, groups) && g in groups
    ensures ClaimCount(r, |r.events|) <= |groups| - 1
  {
    var claimed := ClaimedGroups(r, g, groups, |r.events|);
    SubsetSize(claimed, groups - {g});
  }

  /** So among any `k` claims one is from the group, if it stays due and its attempted tasks stay untouched. */
  lemma {:induction false} ServedWithinRound(r: Run, g: seq<string>, groups: set<seq<string>>)
    requires Timed(r) && AlwaysDue(r, g) && Untouched(r, g) && GroupsWithin(r, groups) && g in groups
    requires ClaimCount(r, |r.events|) >= |groups|
    ensures exists i :: 0 <= i < |r.events| && Claims(r, i, g)
  {
    if !Waits(r, g) {
      assert exists i :: 0 <= i < |r.events| && Claims(r, i, g);
    } else {
      BoundedBypass(r, g, groups);
    }
  }

  lemma {:induction false} SubsetSize<T>(a: set<T>, b: set<T>)
    requires a <= b
    ensures |a| <= |b|
  {
    assert b == a + (b - a);
  }
}
