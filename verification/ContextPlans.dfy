/** The queue's context plan: what shape of backend the waiting tasks of one model need. */
module ContextPlans {
  import opened Wrappers

  type Positive = n: int | n >= 1 witness 1

  /** What planning reads of a stored task, its hints already parsed as positive numbers. */
  datatype Demand = Demand(jobId: string, model: string, queued: bool, required: int,
                           lmsParallel: Option<Positive>, maxParallel: Option<Positive>, cap: Option<Positive>)
  {
    function Parallel(): int {
      if lmsParallel.Some? then lmsParallel.value else if maxParallel.Some? then maxParallel.value else 1
    }
  }

  datatype ContextPlan = ContextPlan(
    queuedTasks: int, maxRequired: int, recommendedContext: int, requestedParallel: int,
    recommendedParallel: int, totalSlots: int, cap: Option<int>, oversized: seq<string>)

  // ---- buckets ----------------------------------------------------------------------------

  const BUCKETS := [2048, 4096, 8192, 16384, 32768, 65536, 131072]

  function FirstCovering(required: int, buckets: seq<int>): (r: int)
    ensures r >= required
  {
    if buckets == [] then required
    else if required <= buckets[0] then buckets[0]
    else FirstCovering(required, buckets[1..])
  }

  function Bucket(required: int): int { FirstCovering(if required > 1 then required else 1, BUCKETS) }

  /** A size that is ever recommended: a bucket, or anything beyond the largest one. */
  predicate IsSize(b: int) { b in {2048, 4096, 8192, 16384, 32768, 65536, 131072} || b > 131072 }

  lemma {:induction false} BucketsAre(b: int)
    ensures b in BUCKETS <==> b in {2048, 4096, 8192, 16384, 32768, 65536, 131072}
  {
    assert BUCKETS[0] == 2048 && BUCKETS[1] == 4096 && BUCKETS[2] == 8192 && BUCKETS[3] == 16384
      && BUCKETS[4] == 32768 && BUCKETS[5] == 65536 && BUCKETS[6] == 131072;
  }

  lemma {:induction false} Covering(required: int, buckets: seq<int>)
    requires forall i, j | 0 <= i < j < |buckets| :: buckets[i] < buckets[j]
    ensures var r := FirstCovering(required, buckets);
      && r >= required && (r in buckets || (r == required && forall b | b in buckets :: b < required))
      && forall b | b in buckets && b >= required :: b >= r
  {
    if buckets != [] {
      assert buckets == [buckets[0]] + buckets[1..];
      Covering(required, buckets[1..]);
    }
  }

  /** The bucket of a requirement is the least size that covers it, and only that. */
  lemma {:induction false} BucketIsLeast(required: int, r: int)
    ensures r == Bucket(required) <==>
      IsSize(r) && r >= required && forall b | IsSize(b) && b >= required :: b >= r
  {
    var n := if required > 1 then required else 1;
    Covering(n, BUCKETS);
    BucketsAre(Bucket(required));
    BucketsAre(131072);
    assert IsSize(Bucket(required));
    forall b | IsSize(b) && b >= required ensures b >= Bucket(required) { BucketsAre(b); }
  }

  /** So bucketing is a closure: it grows with the requirement and fixes its own results. */
  lemma {:induction false} BucketCloses(a: int, b: int)
    ensures a <= Bucket(a)
    ensures a <= b ==> Bucket(a) <= Bucket(b)
    ensures Bucket(Bucket(a)) == Bucket(a)
  {
    BucketIsLeast(a, Bucket(a));
    BucketIsLeast(b, Bucket(b));
    BucketIsLeast(Bucket(a), Bucket(a));
  }

  // ---- extrema ----------------------------------------------------------------------------

  /** `max(..., default=d)`. */
  function MaxOf(s: seq<int>, default_: int): (r: int)
    ensures s == [] ==> r == default_
    ensures s != [] ==> r in s && forall x | x in s :: x <= r
  {
    if s == [] then default_
    else if |s| == 1 then s[0]
    else
      var rest := MaxOf(s[1..], default_);
      assert s == [s[0]] + s[1..];
      if s[0] >= rest then s[0] else rest
  }

  /** `min(..., default=None)`. */
  function MinOf(s: seq<int>): (r: Option<int>)
    ensures r.None? <==> s == []
    ensures r.Some? ==> r.value in s && forall x | x in s :: r.value <= x
  {
    if s == [] then None
    else
      assert s == [s[0]] + s[1..];
      match MinOf(s[1..])
      case None => Some(s[0])
      case Some(m) => Some(if s[0] <= m then s[0] else m)
  }

  function Requirements(tasks: seq<Demand>): (r: seq<int>) {
    seq(|tasks|, i requires 0 <= i < |tasks| => tasks[i].required)
  }

  function Parallels(tasks: seq<Demand>): (r: seq<int>) {
    seq(|tasks|, i requires 0 <= i < |tasks| => tasks[i].Parallel())
  }

  function Caps(tasks: seq<Demand>): (r: seq<int>)
    ensures forall c :: c in r <==> exists t :: t in tasks && t.cap == Some(c)
  {
    if tasks == [] then []
    else
      assert tasks == [tasks[0]] + tasks[1..];
      (if tasks[0].cap.Some? then [tasks[0].cap.value] else []) + Caps(tasks[1..])
  }

  function Oversized(tasks: seq<Demand>, cap: Option<int>): seq<string> {
    if tasks == [] then []
    else (if cap.Some? && tasks[0].required > cap.value then [tasks[0].jobId] else []) + Oversized(tasks[1..], cap)
  }

  /** `context_plan_for_model`. */
  function PlanFor(tasks: seq<Demand>): ContextPlan {
    var maxRequired := MaxOf(Requirements(tasks), 0);
    var requested := MaxOf(Parallels(tasks), 1);
    var fitting := if |tasks| < requested then |tasks| else requested;
    var parallel := if fitting > 1 then fitting else 1;
    var cap := MinOf(Caps(tasks));
    var bucket := Bucket(maxRequired);
    var context := if cap.Some? && cap.value < bucket then cap.value else bucket;
    ContextPlan(|tasks|, maxRequired, context, requested, parallel, context * parallel, cap, Oversized(tasks, cap))
  }

  // ---- what the plan means ----------------------------------------------------------------

  /** The job ids of the tasks that do not fit into a context. */
  function TooLarge(tasks: seq<Demand>, context: int): (r: seq<string>)
    ensures r == [] <==> forall t | t in tasks :: t.required <= context
  {
    if tasks == [] then []
    else
      assert tasks == [tasks[0]] + tasks[1..];
      (if tasks[0].required > context then [tasks[0].jobId] else []) + TooLarge(tasks[1..], context)
  }

  lemma {:induction false} OversizedIs(tasks: seq<Demand>, cap: Option<int>, context: int)
    requires forall t | t in tasks :: (cap.Some? && t.required > cap.value) <==> t.required > context
    ensures Oversized(tasks, cap) == TooLarge(tasks, context)
  {
    if tasks != [] {
      assert tasks[0] in tasks && forall t | t in tasks[1..] :: t in tasks;
      OversizedIs(tasks[1..], cap, context);
    }
  }

  /** The oversized tasks are exactly those the recommended context does not cover. */
  lemma {:induction false} OversizedExact(tasks: seq<Demand>)
    ensures PlanFor(tasks).oversized == TooLarge(tasks, PlanFor(tasks).recommendedContext)
    ensures PlanFor(tasks).oversized == [] <==>
      (tasks == [] || PlanFor(tasks).maxRequired <= PlanFor(tasks).recommendedContext)
  {
    var p := PlanFor(tasks);
    BucketCloses(p.maxRequired, 0);
    assert forall t | t in tasks :: t.required in Requirements(tasks) by {
      forall t | t in tasks ensures t.required in Requirements(tasks) {
        var i :| 0 <= i < |tasks| && tasks[i] == t;
        assert Requirements(tasks)[i] == t.required;
      }
    }
    OversizedIs(tasks, p.cap, p.recommendedContext);
    if tasks != [] { assert exists t :: t in tasks && t.required == p.maxRequired; }
  }

  lemma {:induction false} MoreSlots(context: int, parallel: int)
    requires context >= 0 && parallel >= 1
    ensures context * parallel >= context
  {
  }

  /** Never more slots than tasks or than asked for, never none; never more context than any task allows. */
  lemma {:induction false} PlanBounds(tasks: seq<Demand>)
    ensures var p := PlanFor(tasks);
      && 1 <= p.recommendedParallel <= p.requestedParallel
      && (tasks != [] ==> p.recommendedParallel <= |tasks|)
      && p.recommendedContext >= 1
      && (forall t | t in tasks && t.cap.Some? :: p.recommendedContext <= t.cap.value)
      && p.totalSlots >= p.recommendedContext
  {
    var p := PlanFor(tasks);
    assert Bucket(p.maxRequired) >= 1;
    assert tasks != [] ==> exists t :: t in tasks && t.Parallel() == p.requestedParallel by { ProjectedMembers(tasks); }
    assert forall t | t in tasks && t.cap.Some? :: t.cap.value in Caps(tasks);
    hide MaxOf, MinOf, Caps, Bucket, Oversized, Demand.Parallel;
    MoreSlots(p.recommendedContext, p.recommendedParallel);
  }

  /** What a task asks for: its LM Studio hint, else its own parallelism, else one slot. */
  ghost predicate Asks(t: Demand, slots: int) {
    || t.lmsParallel == Some(slots)
    || (t.lmsParallel == None && t.maxParallel == Some(slots))
    || (t.lmsParallel == None && t.maxParallel == None && slots == 1)
  }

  lemma {:induction false} AsksParallel(t: Demand, slots: int)
    ensures Asks(t, slots) <==> slots == t.Parallel()
  {
  }

  /** The plan is made for the largest requirement, the most slots any task asks for, and the tightest cap. */
  lemma {:induction false} PlanExtremes(tasks: seq<Demand>)
    requires tasks != []
    ensures var p := PlanFor(tasks);
      && (exists t :: t in tasks && t.required == p.maxRequired)
      && (forall t | t in tasks :: t.required <= p.maxRequired)
      && (exists t :: t in tasks && Asks(t, p.requestedParallel))
      && (forall t, k | t in tasks && Asks(t, k) :: k <= p.requestedParallel)
      && (p.cap.Some? ==> exists t :: t in tasks && t.cap == p.cap)
      && (forall t | t in tasks && t.cap.Some? :: p.cap.Some? && p.cap.value <= t.cap.value)
  {
    var p := PlanFor(tasks);
    var largest := Largest(tasks, Requirements(tasks), (t: Demand) => t.required, 0);
    var most := Largest(tasks, Parallels(tasks), (t: Demand) => t.Parallel(), 1);
    forall t, k { AsksParallel(t, k); }
    assert Asks(most, p.requestedParallel);
    hide Requirements, Parallels, MaxOf, Asks, Demand.Parallel;
    assert forall t | t in tasks && t.cap.Some? :: t.cap.value in Caps(tasks);
  }

  lemma {:induction false} Largest(tasks: seq<Demand>, values: seq<int>, f: Demand -> int, default_: int)
    returns (t: Demand)
    requires tasks != [] && |values| == |tasks| && forall i | 0 <= i < |tasks| :: values[i] == f(tasks[i])
    ensures t in tasks && f(t) == MaxOf(values, default_)
    ensures forall u | u in tasks :: f(u) <= MaxOf(values, default_)
  {
    var m := MaxOf(values, default_);
    var k :| 0 <= k < |values| && values[k] == m;
    t := tasks[k];
    forall u | u in tasks ensures f(u) <= m {
      var j :| 0 <= j < |tasks| && tasks[j] == u;
      assert values[j] in values;
    }
  }

  /**
   * Its context is the least size that covers the requirement, unless the cap is below that; it has the slots that
   * are asked for or one for each task, whichever is less.
   */
  lemma {:induction false} PlanSizes(tasks: seq<Demand>, n: int)
    requires tasks != []
    ensures var p := PlanFor(tasks);
      && p.queuedTasks == |tasks|
      && (p.recommendedContext == n <==>
            && (p.cap.Some? ==> n <= p.cap.value) && n <= Bucket(p.maxRequired)
            && (n == Bucket(p.maxRequired) || Some(n) == p.cap))
      && (p.recommendedParallel == n <==>
            n <= |tasks| && n <= p.requestedParallel && (n == |tasks| || n == p.requestedParallel))
      && p.totalSlots == p.recommendedContext * p.recommendedParallel
  {
    PlanBounds(tasks);
    hide Bucket, Oversized, MaxOf, MinOf, Requirements, Parallels, Caps;
  }

  // ---- order does not matter --------------------------------------------------------------

  lemma {:induction false} SameMembers<T>(a: seq<T>, b: seq<T>)
    requires multiset(a) == multiset(b)
    ensures forall x :: x in a <==> x in b
    ensures |a| == |b|
  {
    assert forall x :: x in a <==> x in multiset(a);
    assert forall x :: x in b <==> x in multiset(b);
    assert |multiset(a)| == |multiset(b)|;
  }

  lemma {:induction false} ProjectedMembers(tasks: seq<Demand>)
    ensures forall x :: x in Requirements(tasks) <==> exists t :: t in tasks && t.required == x
    ensures forall x :: x in Parallels(tasks) <==> exists t :: t in tasks && t.Parallel() == x
  {
    forall t | t in tasks ensures t.required in Requirements(tasks) && t.Parallel() in Parallels(tasks) {
      var i :| 0 <= i < |tasks| && tasks[i] == t;
      assert Requirements(tasks)[i] == t.required && Parallels(tasks)[i] == t.Parallel();
    }
  }

  lemma {:induction false} TooLargeConcat(a: seq<Demand>, b: seq<Demand>, context: int)
    ensures TooLarge(a + b, context) == TooLarge(a, context) + TooLarge(b, context)
  {
    if a == [] {
      assert a + b == b;
    } else {
      assert (a + b)[1..] == a[1..] + b;
      TooLargeConcat(a[1..], b, context);
    }
  }

  lemma {:induction false} Extract<T>(s: seq<T>, j: nat)
    requires j < |s|
    ensures multiset(s[..j] + s[j + 1..]) == multiset(s) - multiset{s[j]}
  {
    assert s == s[..j] + [s[j]] + s[j + 1..];
  }

  lemma {:induction false} ExtractSame<T>(a: seq<T>, b: seq<T>, j: nat)
    requires multiset(a) == multiset(b) && a != [] && j < |b| && b[j] == a[0]
    ensures multiset(a[1..]) == multiset(b[..j] + b[j + 1..])
  {
    Extract(a, 0);
    Extract(b, j);
    assert a[..0] + a[1..] == a[1..];
  }

  lemma {:induction false} TooLargeExtract(s: seq<Demand>, j: nat, context: int)
    requires j < |s|
    ensures multiset(TooLarge(s, context))
      == multiset(TooLarge(s[..j] + s[j + 1..], context)) + multiset(TooLarge([s[j]], context))
  {
    assert s == s[..j] + ([s[j]] + s[j + 1..]);
    TooLargeConcat(s[..j], [s[j]] + s[j + 1..], context);
    TooLargeConcat([s[j]], s[j + 1..], context);
    TooLargeConcat(s[..j], s[j + 1..], context);
  }

  lemma {:induction false} TooLargePermuted(a: seq<Demand>, b: seq<Demand>, context: int)
    requires multiset(a) == multiset(b)
    ensures multiset(TooLarge(a, context)) == multiset(TooLarge(b, context))
  {
    if a == [] {
      SameMembers(a, b);
    } else {
      var x := a[0];
      SameMembers(a, b);
      assert x in b;
      var j :| 0 <= j < |b| && b[j] == x;
      var c := b[..j] + b[j + 1..];
      ExtractSame(a, b, j);
      assert a[..0] + a[1..] == a[1..];
      TooLargePermuted(a[1..], c, context);
      TooLargeExtract(a, 0, context);
      TooLargeExtract(b, j, context);
    }
  }

  /** The plan's numbers do not depend on the order of the tasks; the oversized ids are merely reordered. */
  lemma {:induction false} PlanIgnoresOrder(a: seq<Demand>, b: seq<Demand>)
    requires multiset(a) == multiset(b)
    ensures PlanFor(a).(oversized := []) == PlanFor(b).(oversized := [])
    ensures multiset(PlanFor(a).oversized) == multiset(PlanFor(b).oversized)
  {
    SameMembers(a, b);
    ProjectedMembers(a);
    ProjectedMembers(b);
    assert (a == []) == (b == []);
    SameExtrema(Requirements(a), Requirements(b), 0);
    SameExtrema(Parallels(a), Parallels(b), 1);
    SameExtrema(Caps(a), Caps(b), 0);
    OversizedExact(a);
    OversizedExact(b);
    TooLargePermuted(a, b, PlanFor(a).recommendedContext);
  }

  lemma {:induction false} SameExtrema(a: seq<int>, b: seq<int>, default_: int)
    requires forall x :: x in a <==> x in b
    ensures MaxOf(a, default_) == MaxOf(b, default_) && MinOf(a) == MinOf(b)
  {
    if a != [] { assert a[0] in a; }
    if b != [] { assert b[0] in b; }
  }

  // ---- per-model plans --------------------------------------------------------------------

  function QueuedFor(tasks: seq<Demand>, model: string): (r: seq<Demand>)
    ensures forall t :: t in r <==> t in tasks && t.queued && t.model == model
  {
    if tasks == [] then []
    else
      var n := |tasks| - 1;
      assert tasks == tasks[..n] + [tasks[n]];
      QueuedFor(tasks[..n], model) + if tasks[n].queued && tasks[n].model == model then [tasks[n]] else []
  }

  /** `queue_lengths_for_tasks`. */
  method QueueLengths(tasks: seq<Demand>) returns (lengths: map<string, int>)
    ensures forall m :: m in lengths <==> QueuedFor(tasks, m) != []
    ensures forall m | m in lengths :: lengths[m] == |QueuedFor(tasks, m)|
  {
    lengths := map[];
    for i := 0 to |tasks|
      invariant forall m :: m in lengths <==> QueuedFor(tasks[..i], m) != []
      invariant forall m | m in lengths :: lengths[m] == |QueuedFor(tasks[..i], m)|
    {
      assert tasks[..i + 1][..i] == tasks[..i];
      if tasks[i].queued {
        var m := tasks[i].model;
        lengths := lengths[m := (if m in lengths then lengths[m] else 0) + 1];
      }
    }
    assert tasks[..|tasks|] == tasks;
  }

  /** `context_plans_for_tasks`: one plan per model with something queued. */
  method PlansFor(tasks: seq<Demand>) returns (plans: map<string, ContextPlan>)
    ensures forall m :: m in plans <==> QueuedFor(tasks, m) != []
    ensures forall m | m in plans :: plans[m] == PlanFor(QueuedFor(tasks, m))
  {
    var groups: map<string, seq<Demand>> := map[];
    for i := 0 to |tasks|
      invariant forall m :: m in groups <==> QueuedFor(tasks[..i], m) != []
      invariant forall m | m in groups :: groups[m] == QueuedFor(tasks[..i], m)
    {
      assert tasks[..i + 1][..i] == tasks[..i];
      if tasks[i].queued {
        var m := tasks[i].model;
        groups := groups[m := (if m in groups then groups[m] else []) + [tasks[i]]];
      }
    }
    assert tasks[..|tasks|] == tasks;
    plans := map m | m in groups :: PlanFor(groups[m]);
  }
}
