/** A Python `dict`: a map that also remembers the order in which its keys first arrived. */
module Dicts {

  datatype Dict<K(==), V> = Dict(keys: seq<K>, items: map<K, V>) {

    ghost predicate Valid() {
      && (forall i, j | 0 <= i < j < |keys| :: keys[i] != keys[j])
      && (set k | k in keys) == items.Keys
    }

    /** `d[k] = v`: an old key keeps its place, a new key goes last. */
    function Put(k: K, v: V): (r: Dict<K, V>)
      ensures r.items == items[k := v]
      ensures Valid() ==> r.Valid()
    {
      Dict(if k in items then keys else keys + [k], items[k := v])
    }

    /** `d.pop(k, None)`. */
    function Remove(k: K): (r: Dict<K, V>)
      requires Valid()
      ensures r.Valid()
      ensures r.items == items - {k}
    {
      if k !in items then assert items - {k} == items; this
      else
        var i := IndexOf(k);
        DropKey(keys, i);
        Dict(keys[..i] + keys[i + 1..], items - {k})
    }

    function IndexOf(k: K): (i: nat)
      requires Valid() && k in items
      ensures i < |keys| && keys[i] == k
    {
      assert k in (set x | x in keys);
      Position(keys, k)
    }

    /** `list(d.values())`. */
    function Values(): (r: seq<V>)
      requires Valid()
      ensures |r| == |keys|
      ensures forall i | 0 <= i < |keys| :: keys[i] in items && r[i] == items[keys[i]]
    {
      assert forall k | k in keys :: k in (set x | x in keys);
      seq(|keys|, i requires 0 <= i < |keys| => items[keys[i]])
    }

    lemma {:induction false} Size()
      requires Valid()
      ensures |items| == |keys| == |Values()|
    {
      DistinctSize(keys);
    }

    lemma {:induction false} ValuesMembers()
      requires Valid()
      ensures forall v :: v in Values() <==> exists k :: k in items && items[k] == v
    {
      forall k | k in items ensures items[k] in Values() {
        assert Values()[IndexOf(k)] == items[k];
      }
    }

    lemma {:induction false} ValuesPut(k: K, v: V)
      requires Valid()
      ensures k in items ==> Put(k, v).Values() == Values()[IndexOf(k) := v]
      ensures k !in items ==> Put(k, v).Values() == Values() + [v]
    {
    }

    lemma {:induction false} RemoveKeys(k: K)
      requires Valid() && k in items
      ensures |Remove(k).keys| == |keys| - 1
      ensures forall n | 0 <= n < |keys| - 1 :: Remove(k).keys[n] == keys[if n < IndexOf(k) then n else n + 1]
    {
    }

    lemma {:induction false} ValuesRemove(k: K)
      requires Valid() && k in items
      ensures Remove(k).Values() == Values()[..IndexOf(k)] + Values()[IndexOf(k) + 1..]
    {
      RemoveKeys(k);
      hide *;
      var i, r := IndexOf(k), Remove(k);
      forall n | 0 <= n < |r.keys| ensures r.Values()[n] == Values()[if n < i then n else n + 1] {
        assert r.keys[n] == keys[if n < i then n else n + 1];
      }
      Without(Values(), r.Values(), i);
    }
  }

  lemma {:induction false} Without<V>(s: seq<V>, t: seq<V>, i: nat)
    requires i < |s| && |t| == |s| - 1 && forall n | 0 <= n < |t| :: t[n] == s[if n < i then n else n + 1]
    ensures t == s[..i] + s[i + 1..]
  {
  }

  lemma {:induction false} DistinctSize<K>(s: seq<K>)
    requires forall m, n | 0 <= m < n < |s| :: s[m] != s[n]
    ensures |set k | k in s| == |s|
  {
    if s != [] {
      var last := s[|s| - 1];
      DistinctSize(s[..|s| - 1]);
      var before := s[..|s| - 1];
      assert s == before + [last];
      assert (set k | k in s) == (set k | k in before) + {last};
    }
  }

  lemma {:induction false} DropKey<K>(s: seq<K>, i: nat)
    requires i < |s| && forall m, n | 0 <= m < n < |s| :: s[m] != s[n]
    ensures var r := s[..i] + s[i + 1..];
            && (forall m, n | 0 <= m < n < |r| :: r[m] != r[n])
            && (set k | k in r) == (set k | k in s) - {s[i]}
  {
    var r := s[..i] + s[i + 1..];
    assert forall m | 0 <= m < |r| :: r[m] == s[if m < i then m else m + 1];
    forall k | k in s && k != s[i] ensures k in r {
      var j :| 0 <= j < |s| && s[j] == k;
      assert r[if j < i then j else j - 1] == k;
    }
  }

  function Position<K(==)>(s: seq<K>, k: K): (i: nat)
    requires k in s
    ensures i < |s| && s[i] == k
  {
    if s[0] == k then 0 else 1 + Position(s[1..], k)
  }

  function Empty<K(==), V>(): (r: Dict<K, V>)
    ensures r.Valid() && r.items == map[]
  {
    Dict([], map[])
  }
}
