/** How many backends of a model are active, and that nobody's backend is taken away. */
module Replicas {
  import opened Dicts
  import opened Seqs
  import opened Fleet
  import opened Registry

  function ActiveIn(model: string): Instance -> int { (i: Instance) => if InState(i, model, false) then 1 else 0 }

  function Active(d: Instances, model: string): int
    requires d.Valid()
  {
    Sum(d.Values(), ActiveIn(model))
  }

  lemma {:induction false} ActiveIs(values: seq<Instance>, model: string)
    ensures |ForModel(values, model, false)| == Sum(values, ActiveIn(model))
  {
    if values != [] { ActiveIs(values[..|values| - 1], model); }
  }

  lemma {:induction false} PutActive(d: Instances, id: string, i: Instance, model: string)
    requires d.Valid()
    ensures Active(d.Put(id, i), model)
      == Active(d, model) - (if id in d.items then ActiveIn(model)(d.items[id]) else 0) + ActiveIn(model)(i)
  {
    d.ValuesPut(id, i);
    hide ActiveIn;
    if id in d.items {
      SumUpdate(d.Values(), d.IndexOf(id), i, ActiveIn(model));
    } else {
      SumAppend(d.Values(), i, ActiveIn(model));
    }
  }

  lemma {:induction false} RemoveActive(d: Instances, id: string, model: string)
    requires d.Valid() && id in d.items
    ensures Active(d.Remove(id), model) == Active(d, model) - ActiveIn(model)(d.items[id])
  {
    d.ValuesRemove(id);
    hide ActiveIn;
    SumRemove(d.Values(), d.IndexOf(id), ActiveIn(model));
  }

  /** At most `n` more active backends of one model, no more of any other. */
  ghost predicate Grows(d: Instances, e: Instances, model: string, n: int) {
    d.Valid() && e.Valid() && forall m :: Active(e, m) <= Active(d, m) + if m == model then n else 0
  }

  /** A backend that serves requests: registered as active and leased. */
  predicate Serving(d: Instances, id: string) { id in d.items && d.items[id].active > 0 && d.items[id].state.Active() }

  /** Nobody's backend was taken away: whatever was serving still is, with the same leases. */
  ghost predicate ServingKept(d: Instances, e: Instances) {
    forall id | Serving(d, id) :: Serving(e, id) && e.items[id].active == d.items[id].active
  }

  /** The records of other models are untouched. */
  ghost predicate OthersKept(d: Instances, e: Instances, model: string) {
    forall id | id in d.items && d.items[id].model != model :: id in e.items && e.items[id] == d.items[id]
  }

  lemma {:induction false} PutGrows(d: Instances, id: string, i: Instance, n: int)
    requires d.Valid() && (id in d.items ==> d.items[id].model == i.model)
    requires (if i.state.Active() then 1 else 0) - (if id in d.items && d.items[id].state.Active() then 1 else 0) <= n
      && n >= 0
    ensures Grows(d, d.Put(id, i), i.model, n) && OthersKept(d, d.Put(id, i), i.model)
    ensures (Serving(d, id) ==> i.active == d.items[id].active && i.state.Active()) ==> ServingKept(d, d.Put(id, i))
  {
    forall m { PutActive(d, id, i, m); }
    hide Active;
  }

  lemma {:induction false} GrowsTwice(c: Instances, d: Instances, e: Instances, model: string, n: int, k: int)
    requires Grows(c, d, model, n) && Grows(d, e, model, k)
    requires OthersKept(c, d, model) && OthersKept(d, e, model) && ServingKept(c, d) && ServingKept(d, e)
    ensures Grows(c, e, model, n + k) && OthersKept(c, e, model) && ServingKept(c, e)
  {
    hide Active, Dict.Valid;
    assert forall id | Serving(c, id) :: Serving(d, id);
  }

  /** No model has more active backends than before. */
  ghost predicate Shrinks(d: Instances, e: Instances) {
    d.Valid() && e.Valid() && forall m :: Active(e, m) <= Active(d, m)
  }

  lemma {:induction false} ShrinksTwice(c: Instances, d: Instances, e: Instances)
    requires Shrinks(c, d) && Shrinks(d, e)
    ensures Shrinks(c, e)
  {
    hide Active, Dict.Valid;
  }

  lemma {:induction false} KeptTwice(c: Instances, d: Instances, e: Instances)
    requires ServingKept(c, d) && ServingKept(d, e)
    ensures ServingKept(c, e)
  {
    assert forall id | Serving(c, id) :: Serving(d, id);
  }

  lemma {:induction false} PutShrinks(d: Instances, id: string, i: Instance)
    requires d.Valid()
    requires i.state.Active() ==> id in d.items && d.items[id].state.Active() && d.items[id].model == i.model
    ensures Shrinks(d, d.Put(id, i))
  {
    forall m { PutActive(d, id, i, m); }
    hide Active;
  }

  lemma {:induction false} RemoveShrinks(d: Instances, id: string)
    requires d.Valid() && id in d.items && !d.items[id].state.Active()
    ensures Shrinks(d, d.Remove(id))
  {
    forall m { RemoveActive(d, id, m); }
    hide Active;
  }

  lemma {:induction false} NothingShrinks(d: Instances)
    requires d.Valid()
    ensures Shrinks(d, d)
  {
  }

  lemma {:induction false} SumLess(a: seq<Instance>, b: seq<Instance>, f: Instance -> int)
    requires |a| == |b| && forall k | 0 <= k < |a| :: f(a[k]) <= f(b[k])
    ensures Sum(a, f) <= Sum(b, f)
  {
    if a != [] { SumLess(a[..|a| - 1], b[..|b| - 1], f); }
  }
}
