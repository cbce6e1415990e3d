/** What LM Studio has loaded, and how the registry follows it: known backends refreshed, foreign loads adopted. */
module LiveSync {
  import opened Wrappers
  import opened Dicts
  import opened Fleet
  import opened Registry
  import opened Replicas

  /** A load; `names` are the further names under which it may be known. */
  datatype Load = Load(identifier: string, modelKey: string, names: set<string>, context: Option<int>,
                       parallel: Option<int>)

  /** What the program derives from a load by hashing and by parsing: the id of its record, and its GPUs. */
  datatype Naming = Naming(idOf: string -> string, gpusOf: (Load, Profile) -> seq<string>)

  // ---- matching ---------------------------------------------------------------------------

  /** `lmstudio_load_matches_profile`. */
  predicate OfProfile(l: Load, profile: Profile) {
    var names := {l.identifier, l.modelKey} + l.names;
    profile.backendModel in names || profile.name in names
  }

  function ProfileLoads(loads: seq<Load>, profile: Profile): (r: seq<Load>)
    ensures forall l :: l in r <==> l in loads && OfProfile(l, profile)
  {
    if loads == [] then []
    else
      var n := |loads| - 1;
      assert loads == loads[..n] + [loads[n]];
      ProfileLoads(loads[..n], profile) + if OfProfile(loads[n], profile) then [loads[n]] else []
  }

  predicate Tracked(i: Instance, profile: Profile) { i.runtime == "lmstudio" && i.model == profile.name }

  /** The load goes by a name of the record. */
  predicate Names(i: Instance, l: Load) {
    var names := {i.backendModel, i.model} + if i.loadName != "" then {i.loadName} else {};
    l.identifier in names || l.modelKey in names
  }

  /** `matching_lmstudio_load`: the first load that goes by a name of the record. */
  function MatchingLoad(i: Instance, loads: seq<Load>): (r: Option<Load>)
    ensures r.None? <==> forall l | l in loads :: !Names(i, l)
    ensures r.Some? ==> r.value in loads && Names(i, r.value)
  {
    if loads == [] then None
    else if Names(i, loads[0]) then Some(loads[0])
    else
      assert loads == [loads[0]] + loads[1..];
      MatchingLoad(i, loads[1..])
  }

  /** `inspect_loaded_model`: the first load that goes by the name of a backend model. */
  function Inspected(loads: seq<Load>, backendModel: string): (r: Option<Load>)
    ensures r.Some? ==> r.value in loads
  {
    if loads == [] then None
    else if backendModel in {loads[0].identifier, loads[0].modelKey} + loads[0].names then Some(loads[0])
    else
      assert loads == [loads[0]] + loads[1..];
      Inspected(loads[1..], backendModel)
  }

  /** The load `k` is the first that goes by this name. */
  predicate FirstNamed(live: seq<Load>, name: string, k: nat) {
    && k < |live| && name in {live[k].identifier, live[k].modelKey} + live[k].names
    && forall j | 0 <= j < k :: name !in {live[j].identifier, live[j].modelKey} + live[j].names
  }

  lemma {:induction false} InspectedFirst(live: seq<Load>, name: string, k: nat)
    requires FirstNamed(live, name, k)
    ensures Inspected(live, name) == Some(live[k])
  {
    if k > 0 {
      assert forall j | 0 <= j < k - 1 :: live[1..][j] == live[j + 1];
      InspectedFirst(live[1..], name, k - 1);
    }
  }

  lemma {:induction false} NamedFirst(live: seq<Load>, name: string) returns (k: nat)
    requires Inspected(live, name).Some?
    ensures FirstNamed(live, name, k)
  {
    if name in {live[0].identifier, live[0].modelKey} + live[0].names {
      k := 0;
    } else {
      var j := NamedFirst(live[1..], name);
      k := j + 1;
      assert forall n | 0 < n < k :: live[n] == live[1..][n - 1];
    }
  }

  // ---- one profile ------------------------------------------------------------------------

  /** `instance_with_lmstudio_load`. */
  function Refreshed(i: Instance, l: Load): Instance {
    i.(context := if l.context.Some? then l.context else i.context,
       parallel := if l.parallel.Some? then l.parallel else i.parallel,
       loadName := l.identifier)
  }

  /** `external_lmstudio_instance`. */
  function Adopted(l: Load, profile: Profile, naming: Naming, now: Instant): Instance {
    Instance(naming.idOf(l.identifier), profile.name, profile.backendModel, "lmstudio", naming.gpusOf(l, profile),
             External,
             profile.Required(), None, 0, false, false, l.context, l.parallel, l.identifier, None, now, now, None, None)
  }

  /** One record of the profile follows its load: refreshed, dropped when it was only adopted, or left alone. */
  function Followed(d: Instances, i: Instance, loads: seq<Load>): (e: Instances)
    requires d.Valid()
    ensures e.Valid()
  {
    match MatchingLoad(i, loads)
    case Some(l) => d.Put(i.id, Refreshed(i, l))
    case None => if i.state.External? then d.Remove(i.id) else d
  }

  /** The first loop: every record of the profile follows its load. */
  function Refresh(d: Instances, values: seq<Instance>, profile: Profile, loads: seq<Load>): (e: Instances)
    requires d.Valid()
    ensures e.Valid()
  {
    if values == [] then d
    else
      var n := |values| - 1;
      var c := Refresh(d, values[..n], profile, loads);
      if Tracked(values[n], profile) then Followed(c, values[n], loads) else c
  }

  /** The identifiers that some record of the profile is matched with. */
  function Matched(values: seq<Instance>, profile: Profile, loads: seq<Load>): (r: set<string>)
    ensures forall name :: name in r <==>
      exists i ::
        i in values && Tracked(i, profile) && MatchingLoad(i, loads).Some?
        && MatchingLoad(i, loads).value.identifier == name
  {
    set i | i in values && Tracked(i, profile) && MatchingLoad(i, loads).Some? ::
      MatchingLoad(i, loads).value.identifier
  }

  /** The second loop: every load that no record was matched with is recorded as external. */
  function Adopt(d: Instances, loads: seq<Load>, matched: set<string>, profile: Profile, naming: Naming,
                 now: Instant): (e: Instances)
    requires d.Valid()
    ensures e.Valid()
  {
    if loads == [] then d
    else
      var n := |loads| - 1;
      var c := Adopt(d, loads[..n], matched, profile, naming, now);
      if loads[n].identifier in matched then c
        else c.Put(naming.idOf(loads[n].identifier), Adopted(loads[n], profile, naming, now))
  }

  /** `sync_profile_live_lmstudio_load`. */
  function SyncedProfile(d: Instances, profile: Profile, loads: seq<Load>, naming: Naming, now: Instant): (e: Instances)
    requires d.Valid()
    ensures e.Valid()
  {
    var own := ProfileLoads(loads, profile);
    Adopt(Refresh(d, d.Values(), profile, own), own, Matched(d.Values(), profile, own), profile, naming, now)
  }

  method SyncProfile(registry: BackendRegistry, profile: Profile, loads: seq<Load>, naming: Naming, now: Instant)
    requires registry.Valid()
    modifies registry
    ensures registry.Valid()
    ensures registry.instances == SyncedProfile(old(registry.instances), profile, loads, naming, now)
  {
    var d := registry.instances;
    var own := ProfileLoads(loads, profile);
    var values := d.Values();
    var matched := {};
    hide ProfileLoads, MatchingLoad, Names, Refresh, Adopt, Matched, Adopted, Refreshed, Followed, Tracked,
      Dict.Values, Dict.Valid;
    LoopsStart(d, profile, own, naming, now);
    for n := 0 to |values|
      invariant registry.Valid() && registry.instances == Refresh(d, values[..n], profile, own)
      invariant matched == Matched(values[..n], profile, own)
    {
      var i := values[n];
      RefreshStep(d, values, n, profile, own);
      if !Tracked(i, profile) { continue; }
      var load := MatchingLoad(i, own);
      if load.None? {
        if i.state.External? { registry.Remove(i.id); }
        continue;
      }
      matched := matched + {load.value.identifier};
      registry.Upsert(Refreshed(i, load.value), false, now);
    }
    assert values[..|values|] == values;
    ghost var c := registry.instances;
    LoopsStart(c, profile, own, naming, now);
    for n := 0 to |own|
      invariant registry.Valid() && registry.instances == Adopt(c, own[..n], matched, profile, naming, now)
    {
      AdoptStep(c, own, n, matched, profile, naming, now);
      if own[n].identifier in matched { continue; }
      registry.Upsert(Adopted(own[n], profile, naming, now), true, now);
    }
    assert own[..|own|] == own;
  }

  lemma {:induction false} LoopsStart(d: Instances, profile: Profile, loads: seq<Load>, naming: Naming, now: Instant)
    requires d.Valid()
    ensures Refresh(d, [], profile, loads) == d && Matched([], profile, loads) == {}
    ensures forall matched :: Adopt(d, [], matched, profile, naming, now) == d
  {
  }

  lemma {:induction false} RefreshStep(d: Instances, values: seq<Instance>, n: nat, profile: Profile, loads: seq<Load>)
    requires d.Valid() && n < |values|
    ensures var c, i, m := Refresh(d, values[..n], profile, loads), values[n], Matched(values[..n], profile, loads);
      && c.Valid()
      && Refresh(d, values[..n + 1], profile, loads) ==
           (if !Tracked(i, profile) then c
            else if MatchingLoad(i, loads).Some? then c.Put(i.id, Refreshed(i, MatchingLoad(i, loads).value))
            else if i.state.External? then c.Remove(i.id) else c)
      && Matched(values[..n + 1], profile, loads) ==
           m + (if Tracked(i, profile) && MatchingLoad(i, loads).Some? then {MatchingLoad(i, loads).value.identifier}
                else {})
      && (MatchingLoad(i, loads).Some? ==> Refreshed(i, MatchingLoad(i, loads).value).id == i.id)
  {
    assert values[..n + 1] == values[..n] + [values[n]] && values[..n + 1][..n] == values[..n];
    hide MatchingLoad, Tracked, Dict.Valid;
  }

  lemma {:induction false} AdoptStep(d: Instances, loads: seq<Load>, n: nat, matched: set<string>, profile: Profile,
                                     naming: Naming, now: Instant)
    requires d.Valid() && n < |loads|
    ensures var c, i := Adopt(d, loads[..n], matched, profile, naming, now), Adopted(loads[n], profile, naming, now);
      && c.Valid() && i.id == naming.idOf(loads[n].identifier) && i.updatedAt == now
      && Adopt(d, loads[..n + 1], matched, profile, naming, now) == if loads[n].identifier in matched then c
        else c.Put(i.id, i)
  {
    assert loads[..n + 1][..n] == loads[..n];
    hide Dict.Valid;
  }

  // ---- all profiles -----------------------------------------------------------------------

  /** `sync_live_lmstudio_state`; `loads` has what each binary lists. */
  function SyncedAll(d: Instances, profiles: seq<Profile>, loads: map<string, seq<Load>>, naming: Naming,
                     now: Instant): (e: Instances)
    requires d.Valid()
    ensures e.Valid()
  {
    if profiles == [] then d
    else
      var n := |profiles| - 1;
      var c := SyncedAll(d, profiles[..n], loads, naming, now);
      if profiles[n].runtime != "lmstudio" then c
      else SyncedProfile(c, profiles[n], LoadsOf(loads, profiles[n]), naming, now)
  }

  function LoadsOf(loads: map<string, seq<Load>>, profile: Profile): seq<Load> {
    if profile.binary in loads then loads[profile.binary] else []
  }

  method SyncLive(registry: BackendRegistry, profiles: seq<Profile>, loads: map<string, seq<Load>>, naming: Naming,
                  now: Instant)
    requires registry.Valid()
    modifies registry
    ensures registry.Valid()
    ensures registry.instances == SyncedAll(old(registry.instances), profiles, loads, naming, now)
  {
    ghost var d := registry.instances;
    hide SyncedProfile;
    for n := 0 to |profiles|
      invariant registry.Valid() && registry.instances == SyncedAll(d, profiles[..n], loads, naming, now)
    {
      assert profiles[..n + 1][..n] == profiles[..n];
      if profiles[n].runtime != "lmstudio" { continue; }
      SyncProfile(registry, profiles[n], LoadsOf(loads, profiles[n]), naming, now);
    }
    assert profiles[..|profiles|] == profiles;
  }

  // ---- what a sync keeps ------------------------------------------------------------------

  /** Records of adopted loads have ids of their own. */
  ghost predicate Clear(d: Instances, naming: Naming) {
    forall name | naming.idOf(name) in d.items :: d.items[naming.idOf(name)].state.External?
  }

  /** A sync starts nothing, stops nothing and only adds records of adopted loads. */
  ghost predicate Syncs(d: Instances, e: Instances, naming: Naming) {
    && Shrinks(d, e)
    && (NoDuplicates(d) ==> NoDuplicates(e))
    && (PortsUnique(d) ==> PortsUnique(e))
    && (Clear(d, naming) ==> Clear(e, naming) && ServingKept(d, e))
    && (forall id | id in e.items && id !in d.items :: exists name :: id == naming.idOf(name))
  }

  lemma {:induction false} SyncsNothing(d: Instances, naming: Naming)
    requires d.Valid()
    ensures Syncs(d, d, naming)
  {
  }

  lemma {:induction false} SyncsTwice(c: Instances, d: Instances, e: Instances, naming: Naming)
    requires Syncs(c, d, naming) && Syncs(d, e, naming)
    ensures Syncs(c, e, naming)
  {
    hide Active, NoDuplicates, Clear, Shrinks, ServingKept, PortsUnique;
    ShrinksTwice(c, d, e);
    if Clear(c, naming) { KeptTwice(c, d, e); }
  }

  lemma {:induction false} RefreshSyncs(d: Instances, id: string, i: Instance, naming: Naming)
    requires d.Valid() && id in d.items && i.id == id && i.state == d.items[id].state
    requires i.model == d.items[id].model && i.active == d.items[id].active && i.port == d.items[id].port
    ensures Syncs(d, d.Put(id, i), naming)
  {
    PutShrinks(d, id, i);
    hide Shrinks;
    if PortsUnique(d) { PutPort(d, id, i); }
    hide PortsUnique;
  }

  lemma {:induction false} RemoveSyncs(d: Instances, id: string, naming: Naming)
    requires d.Valid() && (id in d.items ==> d.items[id].state.External?)
    ensures Syncs(d, d.Remove(id), naming)
  {
    if id in d.items { RemoveShrinks(d, id); } else { NothingShrinks(d); assert d.Remove(id) == d; }
    hide Shrinks;
    if PortsUnique(d) { RemovePort(d, id); }
    hide PortsUnique;
  }

  lemma {:induction false} AdoptSyncs(d: Instances, name: string, i: Instance, naming: Naming)
    requires d.Valid() && i.id == naming.idOf(name) && i.state.External? && i.port.None?
    ensures Syncs(d, d.Put(i.id, i), naming)
  {
    PutShrinks(d, i.id, i);
    hide Shrinks;
    if PortsUnique(d) { PutPort(d, i.id, i); }
    hide PortsUnique;
  }

  /** What the first loop has left of a record that was there before it. */
  predicate Follows(c: Instances, id: string, i: Instance, profile: Profile, loads: seq<Load>) {
    if !Tracked(i, profile) then id in c.items && c.items[id] == i
    else match MatchingLoad(i, loads)
      case Some(l) => id in c.items && c.items[id] == Refreshed(i, l)
      case None => if i.state.External? then id !in c.items else id in c.items && c.items[id] == i
  }

  lemma {:induction false} FollowedIs(c: Instances, i: Instance, profile: Profile, loads: seq<Load>, naming: Naming)
    requires c.Valid() && i.id in c.items && c.items[i.id] == i
    ensures var e := if Tracked(i, profile) then Followed(c, i, loads) else c;
      && Syncs(c, e, naming) && Follows(e, i.id, i, profile, loads)
      && (forall id | id != i.id ::
            (id in e.items <==> id in c.items) && (id in c.items ==> e.items[id] == c.items[id]))
  {
    hide Syncs, MatchingLoad, Names;
    SyncsNothing(c, naming);
    match MatchingLoad(i, loads)
    case Some(l) => RefreshSyncs(c, i.id, Refreshed(i, l), naming);
    case None => if i.state.External? { RemoveSyncs(c, i.id, naming); }
  }

  /** Each record is judged as it was before the loop, and those whose turn has not come are as they were. */
  lemma {:induction false} RefreshIs(d: Instances, n: nat, profile: Profile, loads: seq<Load>, naming: Naming)
    requires NoDuplicates(d) && n <= |d.keys|
    ensures |d.Values()| == |d.keys|
    ensures var c := Refresh(d, d.Values()[..n], profile, loads);
      && Syncs(d, c, naming) && c.items.Keys <= d.items.Keys
      && (forall k | 0 <= k < n :: Follows(c, d.keys[k], d.Values()[k], profile, loads))
      && (forall k | n <= k < |d.keys| :: d.keys[k] in c.items && c.items[d.keys[k]] == d.Values()[k])
  {
    hide Syncs, Follows, Tracked, Followed;
    if n == 0 {
      SyncsNothing(d, naming);
    } else {
      var i := d.Values()[n - 1];
      RefreshIs(d, n - 1, profile, loads, naming);
      var b := Refresh(d, d.Values()[..n - 1], profile, loads);
      assert d.Values()[..n][..n - 1] == d.Values()[..n - 1];
      assert i.id == d.keys[n - 1];
      FollowedIs(b, i, profile, loads, naming);
      var c := Refresh(d, d.Values()[..n], profile, loads);
      SyncsTwice(d, b, c, naming);
      hide NoDuplicates, Dict.Valid, Refresh;
      forall k | 0 <= k < n ensures Follows(c, d.keys[k], d.Values()[k], profile, loads) {
        if k < n - 1 { FollowsStill(b, c, d.keys[k], d.Values()[k], profile, loads); }
      }
    }
  }

  lemma {:induction false} FollowsStill(b: Instances, c: Instances, id: string, i: Instance, profile: Profile,
                                        loads: seq<Load>)
    requires Follows(b, id, i, profile, loads)
    requires (id in c.items <==> id in b.items) && (id in b.items ==> c.items[id] == b.items[id])
    ensures Follows(c, id, i, profile, loads)
  {
    hide MatchingLoad, Tracked;
  }

  /** The load is recorded anew, under this id. */
  predicate Unmatched(l: Load, loads: seq<Load>, matched: set<string>, naming: Naming, id: string) {
    l in loads && l.identifier !in matched && naming.idOf(l.identifier) == id
  }

  /** What the second loop has left under an id. */
  ghost predicate AdoptedAt(d: Instances, e: Instances, loads: seq<Load>, matched: set<string>, profile: Profile,
                            naming: Naming, now: Instant, id: string)
  {
    if exists l :: Unmatched(l, loads, matched, naming, id) then
      id in e.items && exists l ::
        Unmatched(l, loads, matched, naming, id) && e.items[id] == Adopted(l, profile, naming, now)
    else (id in e.items <==> id in d.items) && (id in d.items ==> e.items[id] == d.items[id])
  }

  lemma {:induction false} AdoptIs(d: Instances, loads: seq<Load>, matched: set<string>, profile: Profile,
                                   naming: Naming, now: Instant)
    requires d.Valid()
    ensures var e := Adopt(d, loads, matched, profile, naming, now);
      Syncs(d, e, naming) && forall id :: AdoptedAt(d, e, loads, matched, profile, naming, now, id)
  {
    if loads == [] {
      hide Syncs;
      SyncsNothing(d, naming);
    } else {
      var n := |loads| - 1;
      var c := Adopt(d, loads[..n], matched, profile, naming, now);
      var e := Adopt(d, loads, matched, profile, naming, now);
      AdoptStep(d, loads, n, matched, profile, naming, now);
      assert loads[..n + 1] == loads;
      var i := Adopted(loads[n], profile, naming, now);
      assert i.state.External? && i.port.None? && c.Put(i.id, i).items == c.items[i.id := i];
      hide *;
      AdoptIs(d, loads[..n], matched, profile, naming, now);
      if loads[n].identifier !in matched {
        AdoptSyncs(c, loads[n].identifier, i, naming);
        SyncsTwice(d, c, e, naming);
      }
      forall id { AdoptedNext(d, c, e, loads, matched, profile, naming, now, id); }
    }
  }

  lemma {:induction false} AdoptedNext(d: Instances, c: Instances, e: Instances, loads: seq<Load>,
                                       matched: set<string>, profile: Profile, naming: Naming, now: Instant, id: string)
    requires loads != [] && AdoptedAt(d, c, loads[..|loads| - 1], matched, profile, naming, now, id)
    requires var last := loads[|loads| - 1]; var i := Adopted(last, profile, naming, now);
      && i.id == naming.idOf(last.identifier)
      && if last.identifier in matched then e == c else e.items == c.items[i.id := i]
    ensures AdoptedAt(d, e, loads, matched, profile, naming, now, id)
  {
    var n := |loads| - 1;
    assert loads == loads[..n] + [loads[n]];
    hide Adopted;
    assert forall l :: Unmatched(l, loads, matched, naming, id) <==>
      Unmatched(l, loads[..n], matched, naming, id)
      || (l == loads[n] && Unmatched(loads[n], loads, matched, naming, id));
    if Unmatched(loads[n], loads, matched, naming, id) {
      assert e.items[id] == Adopted(loads[n], profile, naming, now);
    } else if l :| Unmatched(l, loads[..n], matched, naming, id) {
      var k :| Unmatched(k, loads[..n], matched, naming, id) && c.items[id] == Adopted(k, profile, naming, now);
      assert Unmatched(k, loads, matched, naming, id) && e.items[id] == c.items[id];
    } else {
      assert !exists l :: Unmatched(l, loads, matched, naming, id);
    }
  }

  lemma {:induction false} ProfileSyncs(d: Instances, profile: Profile, loads: seq<Load>, naming: Naming, now: Instant)
    requires NoDuplicates(d)
    ensures Syncs(d, SyncedProfile(d, profile, loads, naming, now), naming)
  {
    var own := ProfileLoads(loads, profile);
    RefreshIs(d, |d.keys|, profile, own, naming);
    assert d.Values()[..|d.keys|] == d.Values();
    hide Syncs, NoDuplicates, Refresh, Adopt, Follows;
    var c := Refresh(d, d.Values(), profile, own);
    AdoptIs(c, own, Matched(d.Values(), profile, own), profile, naming, now);
    SyncsTwice(d, c, SyncedProfile(d, profile, loads, naming, now), naming);
  }

  /** No sync makes a backend active, and none stops one that serves, as long as adopted ids are their own. */
  lemma {:induction false} SyncedSyncs(d: Instances, profiles: seq<Profile>, loads: map<string, seq<Load>>,
                                       naming: Naming, now: Instant)
    requires NoDuplicates(d)
    ensures Syncs(d, SyncedAll(d, profiles, loads, naming, now), naming)
  {
    assert d.Valid();
    hide SyncedProfile, Shrinks, NoDuplicates, Clear, ServingKept;
    if profiles == [] {
      SyncsNothing(d, naming);
    } else {
      var n := |profiles| - 1;
      SyncedSyncs(d, profiles[..n], loads, naming, now);
      var c := SyncedAll(d, profiles[..n], loads, naming, now);
      if profiles[n].runtime == "lmstudio" {
        ProfileSyncs(c, profiles[n], LoadsOf(loads, profiles[n]), naming, now);
        SyncsTwice(d, c, SyncedAll(d, profiles, loads, naming, now), naming);
      }
    }
  }

  // ---- which loads are recorded -----------------------------------------------------------

  /** Some record of the profile stands for the load of this name. */
  ghost predicate Recorded(e: Instances, profile: Profile, name: string) {
    exists id :: id in e.items && Tracked(e.items[id], profile) && e.items[id].loadName == name
  }

  /** Records of different loads have different ids. */
  ghost predicate Apart(loads: seq<Load>, naming: Naming) {
    forall a, b | a in loads && b in loads && naming.idOf(a.identifier) == naming.idOf(b.identifier) ::
      a.identifier == b.identifier
  }

  /** The record under this id is matched with the load of this name, and no load is recorded anew in its place. */
  ghost predicate StandsFor(d: Instances, id: string, name: string, profile: Profile, own: seq<Load>, naming: Naming)
    requires d.Valid()
  {
    && id in d.items && Tracked(d.items[id], profile)
    && MatchingLoad(d.items[id], own).Some? && MatchingLoad(d.items[id], own).value.identifier == name
    && forall l :: !Unmatched(l, own, Matched(d.Values(), profile, own), naming, id)
  }

  /** What a sync of one profile leaves under an id. */
  lemma {:induction false} SyncedIs(d: Instances, profile: Profile, loads: seq<Load>, naming: Naming, now: Instant,
                                    id: string)
    returns (c: Instances)
    requires NoDuplicates(d)
    ensures d.Valid()
    ensures var own := ProfileLoads(loads, profile);
      && AdoptedAt(c, SyncedProfile(d, profile, loads, naming, now), own, Matched(d.Values(), profile, own), profile,
                   naming, now, id)
      && (if id in d.items then Follows(c, id, d.items[id], profile, own) else id !in c.items)
  {
    var own := ProfileLoads(loads, profile);
    RefreshIs(d, |d.keys|, profile, own, naming);
    assert d.Values()[..|d.keys|] == d.Values();
    c := Refresh(d, d.Values(), profile, own);
    if id in d.items {
      var k := d.IndexOf(id);
      assert d.Values()[k] == d.items[id];
    }
    AdoptIs(c, own, Matched(d.Values(), profile, own), profile, naming, now);
    hide NoDuplicates, Refresh, Adopt, Follows, AdoptedAt, Matched, Syncs, Dict.Values;
    assert id !in d.items ==> id !in c.items.Keys;
  }

  /** The load has the backend model, the model, or the last known load of the record as its identifier or key. */
  predicate MayFollow(i: Instance, l: Load) {
    || l.identifier == i.backendModel || l.identifier == i.model || (i.loadName != "" && l.identifier == i.loadName)
    || l.modelKey == i.backendModel || l.modelKey == i.model || (i.loadName != "" && l.modelKey == i.loadName)
  }

  /** The first such load of the profile. */
  ghost predicate FirstOf(own: seq<Load>, i: Instance, k: nat) {
    k < |own| && MayFollow(i, own[k]) && forall j | 0 <= j < k :: !MayFollow(i, own[j])
  }

  lemma {:induction false} MatchesFirst(i: Instance, own: seq<Load>, k: nat)
    requires FirstOf(own, i, k)
    ensures MatchingLoad(i, own) == Some(own[k])
  {
    if k > 0 { MatchesFirst(i, own[1..], k - 1); }
  }

  /**
   * What a sync of one profile makes of a record that no adopted load replaces: a record of another model or runtime
   * stays; one that a load goes with takes its shape and its name; one without a load stays, or goes if it was adopted.
   */
  ghost predicate RecordSynced(e: Instances, id: string, i: Instance, profile: Profile, own: seq<Load>) {
    var mine := i.runtime == "lmstudio" && i.model == profile.name;
    && (forall k: nat | mine && FirstOf(own, i, k) ::
          id in e.items && var l := own[k];
          e.items[id] == i.(context := if l.context.Some? then l.context else i.context,
                            parallel := if l.parallel.Some? then l.parallel else i.parallel,
                            loadName := l.identifier))
    && (mine && i.state.External? && (forall l | l in own :: !MayFollow(i, l)) ==> id !in e.items)
    && (!mine || (!i.state.External? && forall l | l in own :: !MayFollow(i, l)) ==>
          id in e.items && e.items[id] == i)
  }

  lemma {:induction false} RecordFollows(d: Instances, profile: Profile, loads: seq<Load>, naming: Naming, now: Instant,
                                         id: string)
    requires NoDuplicates(d) && id in d.items && forall l | l in loads :: naming.idOf(l.identifier) != id
    ensures d.Valid()
    ensures RecordSynced(SyncedProfile(d, profile, loads, naming, now), id, d.items[id], profile,
                         ProfileLoads(loads, profile))
  {
    var own := ProfileLoads(loads, profile);
    assert forall l | l in own :: l in loads;
    hide *;
    var c := SyncedIs(d, profile, loads, naming, now, id);
    FollowsLaw(c, id, d.items[id], profile, own);
    NotAdopted(c, SyncedProfile(d, profile, loads, naming, now), own, Matched(d.Values(), profile, own), profile,
               naming,
               now, id, d.items[id]);
  }

  lemma {:induction false} FollowsLaw(c: Instances, id: string, i: Instance, profile: Profile, own: seq<Load>)
    requires Follows(c, id, i, profile, own)
    ensures RecordSynced(c, id, i, profile, own)
  {
    forall k: nat | FirstOf(own, i, k) ensures MatchingLoad(i, own) == Some(own[k]) { MatchesFirst(i, own, k); }
    forall l ensures Names(i, l) <==> MayFollow(i, l) { }
    hide MatchingLoad, Names, MayFollow, FirstOf;
  }

  lemma {:induction false} NotAdopted(c: Instances, e: Instances, own: seq<Load>, matched: set<string>,
                                      profile: Profile, naming: Naming, now: Instant, id: string, i: Instance)
    requires AdoptedAt(c, e, own, matched, profile, naming, now, id) && RecordSynced(c, id, i, profile, own)
    requires forall l | l in own :: naming.idOf(l.identifier) != id
    ensures RecordSynced(e, id, i, profile, own)
  {
    assert forall l :: !Unmatched(l, own, matched, naming, id);
    hide MayFollow, FirstOf, Unmatched, Adopted;
  }

  /** A load of the profile that no record goes with is recorded as external, with all the memory the profile takes. */
  lemma {:induction false} LoadAdopted(d: Instances, profile: Profile, loads: seq<Load>, naming: Naming, now: Instant,
                                       l: Load)
    requires NoDuplicates(d) && l in loads
    requires profile.backendModel in {l.identifier, l.modelKey} + l.names
      || profile.name in {l.identifier, l.modelKey} + l.names
    requires forall o | o in loads && naming.idOf(o.identifier) == naming.idOf(l.identifier) :: o == l
    requires forall id | id in d.items && Tracked(d.items[id], profile) ::
      MatchingLoad(d.items[id], ProfileLoads(loads, profile)) != Some(l)
    ensures d.Valid()
    ensures var e, id := SyncedProfile(d, profile, loads, naming, now), naming.idOf(l.identifier);
      && id in e.items && var i := e.items[id];
      && i.id == id && i.model == profile.name && i.backendModel == profile.backendModel && i.runtime == "lmstudio"
      && i.gpus == naming.gpusOf(l, profile) && i.state.External? && i.active == 0 && i.port == None
      && i.reserved == profile.estimatedVram + profile.safetyMargin && !i.dryRun && !i.ownedLoad
      && i.context == l.context && i.parallel == l.parallel && i.loadName == l.identifier
      && i.idleTtl == None && i.lastUsedAt == None && i.failure == None && i.createdAt == i.updatedAt == now
  {
    var own, id := ProfileLoads(loads, profile), naming.idOf(l.identifier);
    var c := SyncedIs(d, profile, loads, naming, now, id);
    MatchedIs(d, profile, own, l.identifier);
    hide SyncedProfile, Matched, NoDuplicates, Dict.Values, Dict.Valid, ProfileLoads, MatchingLoad, Follows;
    assert forall x | x in d.items && MatchingLoad(d.items[x], own).Some? :: MatchingLoad(d.items[x], own).value in own;
    assert Unmatched(l, own, Matched(d.Values(), profile, own), naming, id);
  }

  /** One profile after the other: LM Studio ones with what their own binary lists, and no others. */
  lemma {:induction false} SyncedInTurn(d: Instances, profiles: seq<Profile>, loads: map<string, seq<Load>>,
                                        naming: Naming, now: Instant, n: nat)
    requires d.Valid() && n < |profiles|
    ensures SyncedAll(d, [], loads, naming, now) == d
    ensures var c, p := SyncedAll(d, profiles[..n], loads, naming, now), profiles[n];
      SyncedAll(d, profiles[..n + 1], loads, naming, now) ==
        if p.runtime != "lmstudio" then c
        else SyncedProfile(c, p, if p.binary in loads then loads[p.binary] else [], naming, now)
  {
    assert profiles[..n + 1][..n] == profiles[..n];
    hide SyncedProfile;
  }

  /** Some record was matched with a load of this name. */
  lemma {:induction false} MatchedIs(d: Instances, profile: Profile, own: seq<Load>, name: string)
    requires d.Valid()
    ensures name in Matched(d.Values(), profile, own) <==>
      exists id :: id in d.items && Tracked(d.items[id], profile)
                   && MatchingLoad(d.items[id], own).Some? && MatchingLoad(d.items[id], own).value.identifier == name
  {
    d.ValuesMembers();
    hide Tracked, MatchingLoad, Dict.Values, Matched, Dict.Valid;
  }

  /**
   * After a sync a load of the profile is recorded exactly when no record was matched with it, or when one
   * was that no other load takes over: records are matched with the first load that goes by one of their
   * names, and loads that nothing was matched with are recorded under ids of their own.
   */
  lemma {:induction false} LoadRecordedIff(d: Instances, profile: Profile, loads: seq<Load>, naming: Naming,
                                           now: Instant, l: Load)
    requires NoDuplicates(d) && l in ProfileLoads(loads, profile) && l.identifier != ""
    requires Apart(ProfileLoads(loads, profile), naming)
    ensures d.Valid()
    ensures var own := ProfileLoads(loads, profile);
      Recorded(SyncedProfile(d, profile, loads, naming, now), profile, l.identifier) <==>
      (l.identifier !in Matched(d.Values(), profile, own)
       || exists id :: StandsFor(d, id, l.identifier, profile, own, naming))
  {
    var own, e := ProfileLoads(loads, profile), SyncedProfile(d, profile, loads, naming, now);
    assert d.Valid();
    hide SyncedProfile, ProfileLoads, NoDuplicates, Matched, MatchingLoad, Tracked, Dict.Values, Dict.Valid, NamedIff,
      StandsFor;
    forall id ensures NamedIff(d, e, id, l.identifier, profile, own, naming) {
      var c := SyncedIs(d, profile, loads, naming, now, id);
      hide *;
      NamedHere(d, c, e, profile, own, naming, now, l, id);
    }
    AnyName(d, e, l, profile, own, naming);
  }

  /** From every id to some id. */
  lemma {:induction false} AnyName(d: Instances, e: Instances, l: Load, profile: Profile, own: seq<Load>,
                                   naming: Naming)
    requires d.Valid() && l in own && forall id :: NamedIff(d, e, id, l.identifier, profile, own, naming)
    ensures Recorded(e, profile, l.identifier) <==>
      (l.identifier !in Matched(d.Values(), profile, own)
       || exists id :: StandsFor(d, id, l.identifier, profile, own, naming))
  {
    var matched := Matched(d.Values(), profile, own);
    hide Matched, Tracked, Dict.Values, Dict.Valid, StandsFor;
    if l.identifier !in matched {
      assert Unmatched(l, own, matched, naming, naming.idOf(l.identifier));
      assert NamedIff(d, e, naming.idOf(l.identifier), l.identifier, profile, own, naming);
    }
    if id :| StandsFor(d, id, l.identifier, profile, own, naming) {
      assert NamedIff(d, e, id, l.identifier, profile, own, naming);
    }
    if Recorded(e, profile, l.identifier) {
      var id :| id in e.items && Tracked(e.items[id], profile) && e.items[id].loadName == l.identifier;
      assert NamedIff(d, e, id, l.identifier, profile, own, naming);
    }
  }

  /** A load of the profile whose memory is accounted for: the record that stands for it still reserves. */
  ghost predicate Covered(e: Instances, profile: Profile, name: string) {
    exists id ::
      id in e.items && Tracked(e.items[id], profile) && e.items[id].loadName == name && e.items[id].state.Reserved()
  }

  /**
   * After a sync the memory of a load is accounted for exactly when no record was matched with it, or when one
   * was that still reserves its memory and that no other load takes over. A record that was stopped or has failed
   * keeps the load from being recorded anew.
   */
  lemma {:induction false} LoadCoveredIff(d: Instances, profile: Profile, loads: seq<Load>, naming: Naming,
                                          now: Instant, l: Load)
    requires NoDuplicates(d) && l in ProfileLoads(loads, profile) && l.identifier != ""
    requires Apart(ProfileLoads(loads, profile), naming)
    ensures d.Valid()
    ensures var own := ProfileLoads(loads, profile);
      Covered(SyncedProfile(d, profile, loads, naming, now), profile, l.identifier) <==>
      (l.identifier !in Matched(d.Values(), profile, own)
       || exists id :: StandsFor(d, id, l.identifier, profile, own, naming) && d.items[id].state.Reserved())
  {
    var own, e := ProfileLoads(loads, profile), SyncedProfile(d, profile, loads, naming, now);
    assert d.Valid();
    hide SyncedProfile, ProfileLoads, NoDuplicates, Matched, MatchingLoad, Tracked, Dict.Values, Dict.Valid, NamedIff,
      StateKept, StandsFor, Covered;
    forall id ensures NamedIff(d, e, id, l.identifier, profile, own, naming)
      ensures StateKept(d, e, id, l.identifier, profile, own, naming)
    {
      var c := SyncedIs(d, profile, loads, naming, now, id);
      hide *;
      NamedHere(d, c, e, profile, own, naming, now, l, id);
      StateHere(d, c, e, profile, own, naming, now, l, id);
    }
    AnyCover(d, e, l, profile, own, naming);
  }

  /** A record that stands for the load keeps its state, and one recorded anew is external. */
  ghost predicate StateKept(d: Instances, e: Instances, id: string, name: string, profile: Profile, own: seq<Load>,
                            naming: Naming)
    requires d.Valid()
  {
    && (StandsFor(d, id, name, profile, own, naming) ==> id in e.items && e.items[id].state == d.items[id].state)
    && ((exists l :: Unmatched(l, own, Matched(d.Values(), profile, own), naming, id)) ==>
          id in e.items && e.items[id].state.External?)
  }

  lemma {:induction false} StateHere(d: Instances, c: Instances, e: Instances, profile: Profile, own: seq<Load>,
                                     naming: Naming, now: Instant, l: Load, id: string)
    requires d.Valid()
    requires AdoptedAt(c, e, own, Matched(d.Values(), profile, own), profile, naming, now, id)
    requires if id in d.items then Follows(c, id, d.items[id], profile, own) else id !in c.items
    ensures StateKept(d, e, id, l.identifier, profile, own, naming)
  {
    hide Matched, MatchingLoad, Dict.Values, Dict.Valid, Unmatched;
  }

  lemma {:induction false} AnyCover(d: Instances, e: Instances, l: Load, profile: Profile, own: seq<Load>,
                                    naming: Naming)
    requires d.Valid() && l in own && forall id :: NamedIff(d, e, id, l.identifier, profile, own, naming)
    requires forall id :: StateKept(d, e, id, l.identifier, profile, own, naming)
    ensures Covered(e, profile, l.identifier) <==>
      (l.identifier !in Matched(d.Values(), profile, own)
       || exists id :: StandsFor(d, id, l.identifier, profile, own, naming) && d.items[id].state.Reserved())
  {
    var matched := Matched(d.Values(), profile, own);
    hide Matched, Tracked, Dict.Values, Dict.Valid, StandsFor;
    if l.identifier !in matched {
      assert Unmatched(l, own, matched, naming, naming.idOf(l.identifier));
      assert NamedIff(d, e, naming.idOf(l.identifier), l.identifier, profile, own, naming);
      assert StateKept(d, e, naming.idOf(l.identifier), l.identifier, profile, own, naming);
    }
    if id :| StandsFor(d, id, l.identifier, profile, own, naming) && d.items[id].state.Reserved() {
      assert NamedIff(d, e, id, l.identifier, profile, own, naming);
      assert StateKept(d, e, id, l.identifier, profile, own, naming);
    }
    if Covered(e, profile, l.identifier) {
      var id :| id in e.items && Tracked(e.items[id], profile) && e.items[id].loadName == l.identifier
        && e.items[id].state.Reserved();
      assert NamedIff(d, e, id, l.identifier, profile, own, naming);
      assert StateKept(d, e, id, l.identifier, profile, own, naming);
    }
  }

  /** A stop that failed: the load lives on, its record no longer reserves, and the next sync leaves it at that. */
  lemma {:induction false} LoadUncovered(profile: Profile, a: Load, i: Instance, naming: Naming, now: Instant)
    requires a.identifier == i.loadName != "" && OfProfile(a, profile) && Tracked(i, profile) && i.state.Failed?
    requires naming.idOf(a.identifier) != i.id
    ensures var d := Empty<string, Instance>().Put(i.id, i);
      var e := SyncedProfile(d, profile, [a], naming, now);
      && NoDuplicates(d) && Recorded(e, profile, a.identifier) && !Covered(e, profile, a.identifier)
  {
    hide *;
    var d := Empty<string, Instance>().Put(i.id, i);
    var own := ProfileLoads([a], profile);
    OneRecord(i);
    OneLoad(a, i, profile, naming);
    OnlyMatched(d, i, a, profile, own, naming);
    LoadRecordedIff(d, profile, [a], naming, now, a);
    LoadCoveredIff(d, profile, [a], naming, now, a);
    assert StandsFor(d, i.id, a.identifier, profile, own, naming);
  }

  lemma {:induction false} OneRecord(i: Instance)
    ensures var d := Empty<string, Instance>().Put(i.id, i);
      NoDuplicates(d) && d.Valid() && d.items == map[i.id := i] && d.items[i.id] == i
    ensures i.state.Failed? ==> !i.state.Reserved()
  {
  }

  lemma {:induction false} OneLoad(a: Load, i: Instance, profile: Profile, naming: Naming)
    requires OfProfile(a, profile) && a.identifier == i.loadName != ""
    ensures ProfileLoads([a], profile) == [a] && MatchingLoad(i, [a]) == Some(a) && Apart([a], naming)
  {
    assert [a][..0] == [];
    assert Names(i, a);
  }

  lemma {:induction false} OnlyMatched(d: Instances, i: Instance, a: Load, profile: Profile, own: seq<Load>,
                                       naming: Naming)
    requires d.Valid() && d.items == map[i.id := i] && Tracked(i, profile) && MatchingLoad(i, own) == Some(a)
    requires own == [a]
    ensures a.identifier in Matched(d.Values(), profile, own)
    ensures forall id :: StandsFor(d, id, a.identifier, profile, own, naming) <==> id == i.id
  {
    assert i.id in d.items;
    MatchedIs(d, profile, own, a.identifier);
    hide Matched, Dict.Values, MatchingLoad, Tracked;
    assert forall l, id :: !Unmatched(l, own, Matched(d.Values(), profile, own), naming, id);
  }

  /** A record of this name is under this id iff the load was recorded anew here, or the old record stands for it. */
  ghost predicate NamedIff(d: Instances, e: Instances, id: string, name: string, profile: Profile, own: seq<Load>,
                           naming: Naming)
    requires d.Valid()
  {
    (id in e.items && Tracked(e.items[id], profile) && e.items[id].loadName == name) <==>
    ((exists l :: Unmatched(l, own, Matched(d.Values(), profile, own), naming, id) && l.identifier == name)
     || StandsFor(d, id, name, profile, own, naming))
  }

  lemma {:induction false} NamedHere(d: Instances, c: Instances, e: Instances, profile: Profile, own: seq<Load>,
                                     naming: Naming, now: Instant, l: Load, id: string)
    requires d.Valid() && l in own && l.identifier != "" && Apart(own, naming)
    requires AdoptedAt(c, e, own, Matched(d.Values(), profile, own), profile, naming, now, id)
    requires if id in d.items then Follows(c, id, d.items[id], profile, own) else id !in c.items
    ensures NamedIff(d, e, id, l.identifier, profile, own, naming)
  {
    var matched := Matched(d.Values(), profile, own);
    hide Matched, MatchingLoad, Dict.Values, Dict.Valid;
    if u :| Unmatched(u, own, matched, naming, id) {
      hide Follows;
      var v :| Unmatched(v, own, matched, naming, id) && e.items[id] == Adopted(v, profile, naming, now);
      assert forall w | Unmatched(w, own, matched, naming, id) :: w.identifier == v.identifier;
    } else {
      hide Adopted;
      assert (id in e.items <==> id in c.items) && (id in c.items ==> e.items[id] == c.items[id]);
      hide AdoptedAt, Unmatched;
      NamedByOld(d, c, profile, own, l, id);
    }
  }

  /** A record that the first loop has left has this name iff it was matched with the load. */
  lemma {:induction false} NamedByOld(d: Instances, c: Instances, profile: Profile, own: seq<Load>, l: Load, id: string)
    requires l in own && l.identifier != ""
    requires if id in d.items then Follows(c, id, d.items[id], profile, own) else id !in c.items
    ensures (id in c.items && Tracked(c.items[id], profile) && c.items[id].loadName == l.identifier) <==>
      (id in d.items && Tracked(d.items[id], profile)
       && MatchingLoad(d.items[id], own).Some? && MatchingLoad(d.items[id], own).value.identifier == l.identifier)
  {
    hide MatchingLoad;
    if id in d.items && MatchingLoad(d.items[id], own).None? { assert !Names(d.items[id], l); }
  }

  /**
   * A load can stay unrecorded: two loads of one backend model, and one record, adopted from the second of
   * them. The record is matched with the first load and then recorded anew for the second.
   */
  lemma {:induction false} LoadOverlooked(profile: Profile, a: Load, b: Load, i: Instance, naming: Naming, now: Instant)
    requires a.identifier == "a" && b.identifier == "b" && a.modelKey == b.modelKey == profile.backendModel
    requires naming.idOf("a") != naming.idOf("b") && i == Adopted(b, profile, naming, now)
    ensures var d := Empty<string, Instance>().Put(i.id, i);
      && NoDuplicates(d) && Recorded(d, profile, "b")
      && !Recorded(SyncedProfile(d, profile, [a, b], naming, now), profile, "a")
  {
    var d := Empty<string, Instance>().Put(i.id, i);
    var own := ProfileLoads([a, b], profile);
    BothLoads(a, b, profile);
    assert NoDuplicates(d) && d.items == map[i.id := i];
    assert i.id == naming.idOf("b") && Tracked(i, profile) && i.loadName == "b" && Names(i, a);
    assert MatchingLoad(i, own) == Some(a);
    hide *;
    OnlyRecord(d, i, a, profile, own, naming, b);
    assert Apart(own, naming) by { BothApart(a, b, naming); }
    LoadRecordedIff(d, profile, [a, b], naming, now, a);
    assert Recorded(d, profile, "b") by { RecordedHere(d, profile, i); }
  }

  lemma {:induction false} BothApart(a: Load, b: Load, naming: Naming)
    requires naming.idOf(a.identifier) != naming.idOf(b.identifier)
    ensures Apart([a, b], naming)
  {
  }

  lemma {:induction false} RecordedHere(d: Instances, profile: Profile, i: Instance)
    requires i.id in d.items && d.items[i.id] == i && Tracked(i, profile)
    ensures Recorded(d, profile, i.loadName)
  {
  }

  /** The only record is matched with the first load, and the second one takes its place. */
  lemma {:induction false} OnlyRecord(d: Instances, i: Instance, a: Load, profile: Profile, own: seq<Load>,
                                      naming: Naming, b: Load)
    requires d.Valid() && d.items == map[i.id := i] && Tracked(i, profile) && MatchingLoad(i, own) == Some(a)
    requires a.identifier != b.identifier && b in own && naming.idOf(b.identifier) == i.id
    ensures a.identifier in Matched(d.Values(), profile, own)
    ensures forall id :: !StandsFor(d, id, a.identifier, profile, own, naming)
  {
    assert i.id in d.items;
    MatchedIs(d, profile, own, a.identifier);
    MatchedIs(d, profile, own, b.identifier);
    hide Matched, Dict.Values, MatchingLoad, Tracked;
    assert Unmatched(b, own, Matched(d.Values(), profile, own), naming, i.id);
  }

  lemma {:induction false} BothLoads(a: Load, b: Load, profile: Profile)
    requires a.modelKey == b.modelKey == profile.backendModel
    ensures ProfileLoads([a, b], profile) == [a, b]
  {
    assert [a, b][..1] == [a] && [a][..0] == [];
    assert ProfileLoads([a], profile) == [a];
  }
}
