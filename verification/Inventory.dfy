// Inventory reconciliation, in one batch and incrementally
// (internal/inventory/reconcile.go, state.go).
module Inventory {
  import opened Options
  import opened Sorting
  import opened Text

  // seenAt counts nanoseconds from the zero time.
  datatype Observation = Observation(deviceId: string, source: string, hostname: string, seenAt: int)

  datatype ReconciledDevice = ReconciledDevice(deviceId: string, latest: Observation, sources: seq<string>)

  // What is known of one device: the winning observation and its sources.
  datatype Aggregate = Aggregate(latest: Observation, sources: set<string>)

  function Trimmed(o: Observation): Observation {
    o.(deviceId := TrimSpace(o.deviceId), source := TrimSpace(o.source))
  }

  predicate Complete(o: Observation) {
    o.deviceId != "" && o.source != "" && o.seenAt != 0
  }

  // A later sighting wins; at the same time the smaller source name does.
  predicate Beats(o: Observation, current: Observation) {
    o.seenAt > current.seenAt || (o.seenAt == current.seenAt && Less(o.source, current.source))
  }

  function Best(current: Observation, o: Observation): Observation {
    if Beats(o, current) then o else current
  }

  function Add(m: map<string, Aggregate>, o: Observation): map<string, Aggregate> {
    var current := if o.deviceId in m then m[o.deviceId] else Aggregate(o, {});
    m[o.deviceId := Aggregate(Best(current.latest, o), current.sources + {o.source})]
  }

  function Fold(obs: seq<Observation>): map<string, Aggregate> {
    if obs == [] then map[] else Add(Fold(obs[..|obs| - 1]), obs[|obs| - 1])
  }

  // ---- what the fold means ----

  // k is the leftmost sighting of id that no sighting of id beats.
  ghost predicate Wins(obs: seq<Observation>, id: string, k: nat) {
    && k < |obs| && obs[k].deviceId == id
    && (forall i | 0 <= i < |obs| && obs[i].deviceId == id :: !Beats(obs[i], obs[k]))
    && (forall i | 0 <= i < k && obs[i].deviceId == id :: Beats(obs[k], obs[i]))
  }

  lemma BeatsIsWeak()
    ensures WeakOrder(Beats)
  {
    LessIsWeakOrder();
    forall a, b | Beats(a, b) ensures !Beats(b, a) {
      assert a.seenAt == b.seenAt ==> Less(a.source, b.source);
    }
    forall a, b, c | Beats(a, b) ensures Beats(a, c) || Beats(c, b) {
      if a.seenAt == b.seenAt {
        assert Less(a.source, b.source);
      }
    }
  }

  lemma {:induction false} FoldKnown(obs: seq<Observation>, id: string)
    ensures id in Fold(obs) <==> exists o | o in obs :: o.deviceId == id
    ensures id in Fold(obs) ==> Fold(obs)[id].sources == set o | o in obs && o.deviceId == id :: o.source
  {
    hide Best;
    if obs != [] {
      var front, last := obs[..|obs| - 1], obs[|obs| - 1];
      FoldKnown(front, id);
      assert forall o :: o in obs <==> o in front || o == last;
    }
  }

  lemma {:induction false} FoldWinner(obs: seq<Observation>, id: string) returns (k: nat)
    requires id in Fold(obs)
    ensures Wins(obs, id, k) && Fold(obs)[id].latest == obs[k]
  {
    hide Beats;
    var front, last := obs[..|obs| - 1], obs[|obs| - 1];
    assert obs == front + [last];
    if id in Fold(front) {
      k := FoldWinner(front, id);
      if last.deviceId == id {
        WinsStep(front, last, id, k);
        k := if Beats(last, front[k]) then |front| else k;
      } else {
        WinsOther(front, last, id, k);
      }
    } else {
      FoldKnown(front, id);
      assert forall i | 0 <= i < |front| :: front[i] in front;
      FirstSighting(front, last, id);
      k := |front|;
    }
  }

  lemma WinsOther(front: seq<Observation>, o: Observation, id: string, k: nat)
    requires Wins(front, id, k) && o.deviceId != id
    ensures Wins(front + [o], id, k)
  {
    hide Beats;
    var obs := front + [o];
    forall i | 0 <= i < |obs| && obs[i].deviceId == id ensures !Beats(obs[i], obs[k]) {
      assert obs[i] == front[i];
    }
    assert forall i | 0 <= i < k :: obs[i] == front[i];
  }

  // A device is known exactly when it was sighted; its sources are all that
  // sighted it, and its latest observation is the leftmost unbeaten one.
  lemma FoldMeaning(obs: seq<Observation>, id: string)
    ensures id in Fold(obs) <==> exists o | o in obs :: o.deviceId == id
    ensures id in Fold(obs) ==>
      && Fold(obs)[id].sources == (set o | o in obs && o.deviceId == id :: o.source)
      && exists k: nat | k < |obs| :: Wins(obs, id, k) && Fold(obs)[id].latest == obs[k]
  {
    hide Fold, Wins;
    FoldKnown(obs, id);
    if id in Fold(obs) {
      var k := FoldWinner(obs, id);
      WinsInRange(obs, id, k);
    }
  }

  // On the fields: no sighting of the device is later than the latest one, and
  // none at the same time comes from an earlier source name; of sightings
  // equal in both the first counts.
  lemma LatestSighting(obs: seq<Observation>, id: string) returns (k: nat)
    requires id in Fold(obs)
    ensures k < |obs| && obs[k].deviceId == id && Fold(obs)[id].latest == obs[k]
    ensures forall o | o in obs && o.deviceId == id ::
      o.seenAt <= obs[k].seenAt && (o.seenAt == obs[k].seenAt ==> !Less(o.source, obs[k].source))
    ensures forall i | 0 <= i < k && obs[i].deviceId == id :: obs[i].seenAt != obs[k].seenAt || obs[i].source != obs[k].source
  {
    hide Fold, Less;
    k := FoldWinner(obs, id);
    forall o | o in obs && o.deviceId == id
      ensures o.seenAt <= obs[k].seenAt && (o.seenAt == obs[k].seenAt ==> !Less(o.source, obs[k].source))
    {
      var i :| 0 <= i < |obs| && obs[i] == o;
      assert !Beats(obs[i], obs[k]);
    }
    forall i | 0 <= i < k && obs[i].deviceId == id ensures obs[i].seenAt != obs[k].seenAt || obs[i].source != obs[k].source {
      BeatsIsWeak();
      assert Beats(obs[k], obs[i]) && !Beats(obs[i], obs[k]);
    }
  }

  lemma WinsInRange(obs: seq<Observation>, id: string, k: nat)
    requires Wins(obs, id, k)
    ensures k < |obs|
  {
  }

  lemma FirstSighting(front: seq<Observation>, o: Observation, id: string)
    requires o.deviceId == id && forall i | 0 <= i < |front| :: front[i].deviceId != id
    ensures Wins(front + [o], id, |front|) && !Beats(o, o)
  {
    BeatsIsWeak();
  }

  lemma WinsStep(front: seq<Observation>, o: Observation, id: string, k: nat)
    requires Wins(front, id, k) && o.deviceId == id
    ensures Wins(front + [o], id, if Beats(o, front[k]) then |front| else k)
  {
    hide Beats;
    BeatsIsWeak();
    var obs := front + [o];
    var k' := if Beats(o, front[k]) then |front| else k;
    forall i | 0 <= i < |obs| && obs[i].deviceId == id ensures !Beats(obs[i], obs[k']) {
      assert i < |front| ==> obs[i] == front[i];
    }
    forall i | 0 <= i < k' && obs[i].deviceId == id ensures Beats(obs[k'], obs[i]) {
      assert obs[i] == front[i];
    }
  }

  // ---- batches fold into batches ----

  // What the registry does with a reconciled batch.
  function Merge(m: map<string, Aggregate>, batch: map<string, Aggregate>): map<string, Aggregate> {
    map id | id in m.Keys + batch.Keys ::
      if id !in batch then m[id] else if id !in m then batch[id] else Joined(m[id], batch[id])
  }

  function Joined(current: Aggregate, incoming: Aggregate): Aggregate {
    Aggregate(Best(current.latest, incoming.latest), current.sources + incoming.sources)
  }

  // Picking the winner in two stages picks the same one.
  lemma BestAssociative(a: Observation, b: Observation, c: Observation)
    ensures Best(Best(a, b), c) == Best(a, Best(b, c))
  {
    hide Beats;
    BeatsIsWeak();
  }

  lemma AddMerge(m: map<string, Aggregate>, batch: map<string, Aggregate>, o: Observation)
    ensures Add(Merge(m, batch), o) == Merge(m, Add(batch, o))
  {
    hide Best;
    var left, right := Add(Merge(m, batch), o), Merge(m, Add(batch, o));
    assert left.Keys == right.Keys;
    if o.deviceId in m && o.deviceId in batch {
      BestAssociative(m[o.deviceId].latest, batch[o.deviceId].latest, o);
    }
    BestOfSame(o);
    if o.deviceId in m && o.deviceId !in batch {
      assert (Merge(m, batch)[o.deviceId].sources + {o.source}) == m[o.deviceId].sources + ({} + {o.source});
    }
    forall id | id in left ensures left[id] == right[id] {
    }
  }

  lemma BestOfSame(o: Observation)
    ensures Best(o, o) == o
  {
  }

  // Incremental merging agrees with one batch over everything.
  lemma {:induction false} FoldAppend(a: seq<Observation>, b: seq<Observation>)
    ensures Fold(a + b) == Merge(Fold(a), Fold(b))
    decreases |b|
  {
    if b == [] {
      assert a + b == a;
      assert Merge(Fold(a), map[]) == Fold(a);
    } else {
      var front, last := b[..|b| - 1], b[|b| - 1];
      FoldAppend(a, front);
      assert (a + b)[..|a + b| - 1] == a + front;
      AddMerge(Fold(a), Fold(front), last);
    }
  }

  // ---- listings ----

  ghost function Device(m: map<string, Aggregate>, id: string): ReconciledDevice
    requires id in m
  {
    ReconciledDevice(id, m[id].latest, Sorted(m[id].sources))
  }

  // Devices by identity, sources sorted.
  ghost function Render(m: map<string, Aggregate>): (r: seq<ReconciledDevice>) {
    var ids := Sorted(m.Keys);
    seq(|ids|, i requires 0 <= i < |ids| => assert ids[i] in Elements(ids); Device(m, ids[i]))
  }

  ghost function Accepted(obs: seq<Observation>): bool {
    forall i | 0 <= i < |obs| :: Complete(Trimmed(obs[i]))
  }

  // ReconcileObservations, None standing for its errors.
  ghost function Reconcile(obs: seq<Observation>): Option<seq<ReconciledDevice>> {
    if Accepted(obs) then Some(Render(Fold(Project(obs, Trimmed)))) else None
  }

  lemma RenderAt(m: map<string, Aggregate>)
    ensures |Render(m)| == |Sorted(m.Keys)|
    ensures forall n | 0 <= n < |Render(m)| :: Sorted(m.Keys)[n] in m && Render(m)[n] == Device(m, Sorted(m.Keys)[n])
  {
    hide Sorted, Device;
    var ids := Sorted(m.Keys);
    assert forall n | 0 <= n < |ids| :: ids[n] in Elements(ids);
  }

  // The aggregation loop.
  method Aggregates(observations: seq<Observation>) returns (byId: Option<map<string, Aggregate>>)
    ensures byId == if Accepted(observations) then Some(Fold(Project(observations, Trimmed))) else None
  {
    hide Trimmed, Beats;
    ghost var all := Project(observations, Trimmed);
    var m: map<string, Aggregate> := map[];
    for n := 0 to |observations|
      invariant m == Fold(all[..n])
      invariant forall i | 0 <= i < n :: Complete(all[i])
    {
      assert all[..n + 1][..n] == all[..n];
      var o := Trimmed(observations[n]);
      if !Complete(o) {
        return None;
      }
      var current := if o.deviceId in m then m[o.deviceId] else Aggregate(o, {});
      current := current.(sources := current.sources + {o.source});
      if Beats(o, current.latest) {
        current := current.(latest := o);
      }
      m := m[o.deviceId := current];
    }
    assert all[..|observations|] == all;
    byId := Some(m);
  }

  method ReconcileObservations(observations: seq<Observation>) returns (result: Option<seq<ReconciledDevice>>)
    ensures result == Reconcile(observations)
  {
    hide Accepted, Sort, Sorted, Distinct, Fold, Render, Ascending;
    var grouped := Aggregates(observations);
    if grouped.None? {
      return None;
    }
    var byId := grouped.value;
    var keys := AnyOrder(byId.Keys);
    SortIsSorted(keys);
    RenderAt(byId);
    var ids := Sort(keys, Less);
    var list: seq<ReconciledDevice> := [];
    for n := 0 to |ids|
      invariant list == Render(byId)[..n]
    {
      var sources := AnyOrder(byId[ids[n]].sources);
      SortIsSorted(sources);
      list := list + [ReconciledDevice(ids[n], byId[ids[n]].latest, Sort(sources, Less))];
    }
    assert Render(byId)[..|ids|] == Render(byId);
    result := Some(list);
  }

  // ---- the registry ----

  // mergeStrings: trimmed, non-empty, sorted, each once.
  method MergeStrings(left: seq<string>, right: seq<string>) returns (out: seq<string>)
    ensures Ascending(out)
    ensures Elements(out) == set v | v in left + right && TrimSpace(v) != "" :: TrimSpace(v)
  {
    hide TrimSpace, Sort;
    var both := left + right;
    var values: set<string> := {};
    for n := 0 to |both|
      invariant values == set v | v in both[..n] && TrimSpace(v) != "" :: TrimSpace(v)
    {
      assert both[..n + 1] == both[..n] + [both[n]];
      var value := TrimSpace(both[n]);
      if value != "" {
        values := values + {value};
      }
    }
    assert both[..|both|] == both;
    var list := AnyOrder(values);
    SortAscending(list);
    out := Sort(list, Less);
  }

  ghost predicate CleanSources(s: seq<string>) {
    Ascending(s) && forall i | 0 <= i < |s| :: s[i] != "" && TrimSpace(s[i]) == s[i]
  }

  // A registry entry and the aggregate it stands for.
  ghost predicate Represents(devices: map<string, ReconciledDevice>, m: map<string, Aggregate>) {
    && devices.Keys == m.Keys
    && forall id | id in devices ::
         && devices[id].deviceId == id && devices[id].latest == m[id].latest
         && CleanSources(devices[id].sources) && Elements(devices[id].sources) == m[id].sources
  }

  ghost function ModelOf(devices: map<string, ReconciledDevice>): map<string, Aggregate> {
    map id | id in devices :: Aggregate(devices[id].latest, Elements(devices[id].sources))
  }

  class MemoryRegistry {
    var devices: map<string, ReconciledDevice>

    constructor ()
      ensures Valid() && Model() == map[]
    {
      devices := map[];
    }

    ghost predicate Valid()
      reads this
    {
      Represents(devices, Model())
    }

    ghost function Model(): map<string, Aggregate>
      reads this
    {
      ModelOf(devices)
    }

    // A batch is merged as a whole or, when any observation is incomplete, not at all.
    method Ingest(observations: seq<Observation>) returns (listing: Option<seq<ReconciledDevice>>)
      requires Valid()
      modifies this
      ensures Valid()
      ensures listing.Some? <==> Accepted(observations)
      ensures Model() == if Accepted(observations) then Merge(old(Model()), Fold(Project(observations, Trimmed))) else old(Model())
      ensures devices == old(devices) || listing.Some?
      ensures listing.Some? ==> listing.value == Render(Model())
    {
      hide TrimSpace, Sorted, Fold, Merge, Represents, Restrict, Ascending, Render, Accepted, ModelOf, CleanBatch;
      var reconciled := ReconcileObservations(observations);
      if reconciled.None? {
        return None;
      }
      ghost var before, batch := Model(), Fold(Project(observations, Trimmed));
      BatchSources(observations);
      ghost var ids := Sorted(batch.Keys);
      RenderAt(batch);
      MergeNothing(before);
      assert Elements(ids[..0]) == {};
      for n := 0 to |reconciled.value|
        invariant Represents(devices, Merge(before, Restrict(batch, Elements(ids[..n]))))
      {
        var incoming := reconciled.value[n];
        assert ids[n] in Elements(ids) && incoming == Device(batch, ids[n]);
        ghost var so := Merge(before, Restrict(batch, Elements(ids[..n])));
        NextIsNew(ids, n);
        MergeExtend(before, batch, Elements(ids[..n]), ids[n]);
        RepresentsKeys(devices, so);
        if incoming.deviceId !in devices {
          InsertDevice(devices, so, incoming, batch);
          devices := devices[incoming.deviceId := incoming];
        } else {
          var current := devices[incoming.deviceId];
          var sources := MergeStrings(current.sources, incoming.sources);
          UpdateDevice(devices, so, current, incoming, sources, batch);
          current := current.(sources := sources);
          if Beats(incoming.latest, current.latest) {
            current := current.(latest := incoming.latest);
          }
          devices := devices[incoming.deviceId := current];
        }
      }
      assert ids[..|ids|] == ids;
      RestrictAll(batch);
      RepresentsModel(devices, Merge(before, batch));
      var items := List();
      listing := Some(items);
    }

    method List() returns (items: seq<ReconciledDevice>)
      requires Valid()
      ensures items == Render(Model())
    {
      hide Sorted, Sort, Ascending, Distinct, Render;
      var keys := AnyOrder(devices.Keys);
      SortIsSorted(keys);
      RenderAt(Model());
      var ids := Sort(keys, Less);
      items := [];
      for n := 0 to |ids|
        invariant items == Render(Model())[..n]
      {
        AscendingUnique(devices[ids[n]].sources, Sorted(Model()[ids[n]].sources));
        items := items + [devices[ids[n]]];
      }
      assert Render(Model())[..|ids|] == Render(Model());
    }

    method Get(deviceId: string) returns (item: Option<ReconciledDevice>)
      requires Valid()
      ensures item.Some? <==> TrimSpace(deviceId) in Model()
      ensures item.Some? ==> item.value == Device(Model(), TrimSpace(deviceId))
    {
      hide TrimSpace, Sorted;
      var id := TrimSpace(deviceId);
      if id !in devices {
        return None;
      }
      AscendingUnique(devices[id].sources, Sorted(Model()[id].sources));
      item := Some(devices[id]);
    }
  }

  function Restrict(m: map<string, Aggregate>, ids: set<string>): map<string, Aggregate> {
    map id | id in m && id in ids :: m[id]
  }

  lemma RestrictAll(m: map<string, Aggregate>)
    ensures Restrict(m, m.Keys) == m
  {
  }

  lemma MergeNothing(m: map<string, Aggregate>)
    ensures forall b: map<string, Aggregate> :: Merge(m, Restrict(b, {})) == m
  {
    forall b: map<string, Aggregate> ensures Merge(m, Restrict(b, {})) == m {
      assert Restrict(b, {}) == map[];
    }
  }

  lemma RepresentsModel(devices: map<string, ReconciledDevice>, m: map<string, Aggregate>)
    requires Represents(devices, m)
    ensures ModelOf(devices) == m && Represents(devices, ModelOf(devices))
  {
    assert ModelOf(devices).Keys == m.Keys;
    forall id | id in m ensures ModelOf(devices)[id] == m[id] {
    }
  }

  ghost predicate CleanBatch(batch: map<string, Aggregate>) {
    forall id | id in batch :: forall s | s in batch[id].sources :: s != "" && TrimSpace(s) == s
  }

  // Sources of an accepted batch are trimmed and non-empty.
  lemma BatchSources(observations: seq<Observation>)
    requires Accepted(observations)
    ensures CleanBatch(Fold(Project(observations, Trimmed)))
  {
    hide TrimSpace;
    var all := Project(observations, Trimmed);
    forall id | id in Fold(all) ensures forall s | s in Fold(all)[id].sources :: s != "" && TrimSpace(s) == s {
      FoldMeaning(all, id);
      forall s | s in Fold(all)[id].sources ensures s != "" && TrimSpace(s) == s {
        var o :| o in all && o.deviceId == id && o.source == s;
        var i :| 0 <= i < |all| && all[i] == o;
        TrimIdempotent(observations[i].source);
      }
    }
  }

  // Merging one more device of the batch.
  lemma MergeExtend(m: map<string, Aggregate>, batch: map<string, Aggregate>, done: set<string>, id: string)
    requires id in batch && id !in done
    ensures var so := Merge(m, Restrict(batch, done));
      && (id in so <==> id in m) && (id in m ==> so[id] == m[id])
      && Merge(m, Restrict(batch, done + {id})) == so[id := if id !in m then batch[id] else Joined(m[id], batch[id])]
  {
    hide Joined;
    var so, next := Merge(m, Restrict(batch, done)), Merge(m, Restrict(batch, done + {id}));
    assert Restrict(batch, done + {id}) == Restrict(batch, done)[id := batch[id]];
    assert next.Keys == so.Keys + {id};
  }

  lemma RepresentsKeys(devices: map<string, ReconciledDevice>, m: map<string, Aggregate>)
    requires Represents(devices, m)
    ensures devices.Keys == m.Keys
  {
  }

  lemma NextIsNew(ids: seq<string>, n: nat)
    requires n < |ids| && Ascending(ids)
    ensures ids[n] !in Elements(ids[..n]) && Elements(ids[..n + 1]) == Elements(ids[..n]) + {ids[n]}
  {
    AscendingDistinct(ids);
    SeenStep(ids, n);
  }

  lemma InsertDevice(devices: map<string, ReconciledDevice>, m: map<string, Aggregate>, incoming: ReconciledDevice, batch: map<string, Aggregate>)
    requires Represents(devices, m) && incoming.deviceId in batch && incoming == Device(batch, incoming.deviceId) && CleanBatch(batch)
    ensures Represents(devices[incoming.deviceId := incoming], m[incoming.deviceId := batch[incoming.deviceId]])
  {
    hide TrimSpace;
    forall i | 0 <= i < |incoming.sources| ensures incoming.sources[i] != "" && TrimSpace(incoming.sources[i]) == incoming.sources[i] {
      assert incoming.sources[i] in Elements(incoming.sources);
    }
  }

  lemma UpdateDevice(devices: map<string, ReconciledDevice>, m: map<string, Aggregate>, current: ReconciledDevice,
                     incoming: ReconciledDevice, sources: seq<string>, batch: map<string, Aggregate>)
    requires Represents(devices, m) && incoming.deviceId in batch && incoming == Device(batch, incoming.deviceId) && CleanBatch(batch)
    requires incoming.deviceId in devices && current == devices[incoming.deviceId]
    requires Ascending(sources)
    requires Elements(sources) == set v | v in current.sources + incoming.sources && TrimSpace(v) != "" :: TrimSpace(v)
    ensures var id := incoming.deviceId;
      && current.deviceId == id && current.latest == m[id].latest
      && Represents(devices[id := ReconciledDevice(id, Best(current.latest, incoming.latest), sources)],
                    m[id := Joined(m[id], batch[id])])
  {
    hide TrimSpace, Best;
    var id := incoming.deviceId;
    forall v | v in current.sources + incoming.sources ensures v != "" && TrimSpace(v) == v {
      if v in incoming.sources {
        assert v in Elements(incoming.sources);
      }
    }
    assert Elements(sources) == m[id].sources + batch[id].sources by {
      forall v ensures v in Elements(sources) <==> v in m[id].sources + batch[id].sources {
        assert v in current.sources <==> v in Elements(current.sources);
        assert v in incoming.sources <==> v in Elements(incoming.sources);
        if v in m[id].sources + batch[id].sources {
          assert v in current.sources + incoming.sources && TrimSpace(v) == v;
        }
      }
    }
    forall i | 0 <= i < |sources| ensures sources[i] != "" && TrimSpace(sources[i]) == sources[i] {
      assert sources[i] in Elements(sources);
    }
  }

  // ---- any sequence of Ingest calls ----

  ghost function Registry(batches: seq<seq<Observation>>): map<string, Aggregate> {
    if batches == [] then map[]
    else
      var before, last := Registry(batches[..|batches| - 1]), batches[|batches| - 1];
      if Accepted(last) then Merge(before, Fold(Project(last, Trimmed))) else before
  }

  // The observations of the accepted batches, in order of arrival.
  ghost function Accumulated(batches: seq<seq<Observation>>): seq<Observation> {
    if batches == [] then []
    else Accumulated(batches[..|batches| - 1]) + (if Accepted(batches[|batches| - 1]) then batches[|batches| - 1] else [])
  }

  // After any batches the listing is what reconciling all accepted
  // observations at once returns.
  lemma {:induction false} RegistryAgreesWithReconcile(batches: seq<seq<Observation>>)
    ensures Registry(batches) == Fold(Project(Accumulated(batches), Trimmed))
    ensures Reconcile(Accumulated(batches)) == Some(Render(Registry(batches)))
  {
    hide Render, TrimSpace, Merge;
    if batches != [] {
      var front, last := batches[..|batches| - 1], batches[|batches| - 1];
      RegistryAgreesWithReconcile(front);
      var a := Accumulated(front);
      if Accepted(last) {
        assert Project(a + last, Trimmed) == Project(a, Trimmed) + Project(last, Trimmed);
        FoldAppend(Project(a, Trimmed), Project(last, Trimmed));
      } else {
        assert a + [] == a;
      }
    }
    AccumulatedAccepted(batches);
  }

  lemma {:induction false} AccumulatedAccepted(batches: seq<seq<Observation>>)
    ensures Accepted(Accumulated(batches))
  {
    hide Complete, Trimmed;
    if batches != [] {
      AccumulatedAccepted(batches[..|batches| - 1]);
    }
  }

  // ---- what a listing reports ----

  // d reports its device: the trimmed names of all its sources in order, each
  // once, and the sighting that none of the device follows in time, or comes
  // at the same time from an earlier source.
  ghost predicate Reports(obs: seq<Observation>, d: ReconciledDevice) {
    && Ascending(d.sources)
    && (forall x :: x in d.sources <==> exists o | o in obs :: TrimSpace(o.deviceId) == d.deviceId && TrimSpace(o.source) == x)
    && (exists o | o in obs ::
          TrimSpace(o.deviceId) == d.deviceId
          && d.latest == Observation(TrimSpace(o.deviceId), TrimSpace(o.source), o.hostname, o.seenAt))
    && (forall o | o in obs && TrimSpace(o.deviceId) == d.deviceId ::
          o.seenAt <= d.latest.seenAt && (o.seenAt == d.latest.seenAt ==> !Less(TrimSpace(o.source), d.latest.source)))
  }

  ghost predicate Sighted(obs: seq<Observation>, id: string) {
    exists o | o in obs :: TrimSpace(o.deviceId) == id
  }

  ghost predicate Lists(r: seq<ReconciledDevice>, id: string) {
    exists d | d in r :: d.deviceId == id
  }

  lemma SightedSource(obs: seq<Observation>, id: string, x: string)
    ensures x in (set o | o in Project(obs, Trimmed) && o.deviceId == id :: o.source)
      <==> exists o | o in obs :: TrimSpace(o.deviceId) == id && TrimSpace(o.source) == x
  {
    hide TrimSpace;
    var all := Project(obs, Trimmed);
    if t :| t in all && t.deviceId == id && t.source == x {
      var i :| 0 <= i < |all| && all[i] == t;
      assert obs[i] in obs && TrimSpace(obs[i].deviceId) == id && TrimSpace(obs[i].source) == x;
    }
    if o :| o in obs && TrimSpace(o.deviceId) == id && TrimSpace(o.source) == x {
      var i :| 0 <= i < |obs| && obs[i] == o;
      assert all[i] in all && all[i].deviceId == id && all[i].source == x;
    }
  }

  lemma DeviceReports(obs: seq<Observation>, id: string)
    requires id in Fold(Project(obs, Trimmed))
    ensures Reports(obs, Device(Fold(Project(obs, Trimmed)), id))
  {
    hide TrimSpace, Fold, Less;
    var all := Project(obs, Trimmed);
    var m := Fold(all);
    var d := Device(m, id);
    FoldMeaning(all, id);
    forall x ensures x in d.sources <==> exists o | o in obs :: TrimSpace(o.deviceId) == id && TrimSpace(o.source) == x {
      assert x in d.sources <==> x in Elements(Sorted(m[id].sources));
      SightedSource(obs, id, x);
    }
    var k := LatestSighting(all, id);
    assert obs[k] in obs && Trimmed(obs[k]) == d.latest;
    forall o | o in obs && TrimSpace(o.deviceId) == id
      ensures o.seenAt <= d.latest.seenAt && (o.seenAt == d.latest.seenAt ==> !Less(TrimSpace(o.source), d.latest.source))
    {
      var i :| 0 <= i < |obs| && obs[i] == o;
      assert all[i] in all;
    }
  }

  // Reconciling lists every sighted device once, by increasing identity.
  lemma ReconcileReports(obs: seq<Observation>)
    requires Accepted(obs)
    ensures var r := Reconcile(obs).value;
      && (forall a, b | 0 <= a < b < |r| :: Less(r[a].deviceId, r[b].deviceId))
      && (forall id :: Lists(r, id) <==> Sighted(obs, id))
      && (forall d | d in r :: Reports(obs, d))
  {
    hide TrimSpace, Fold, Less, Reports, Render, Accepted;
    var all, r := Project(obs, Trimmed), Reconcile(obs).value;
    var m := Fold(all);
    var ids := Sorted(m.Keys);
    RenderAt(m);
    forall a, b | 0 <= a < b < |r| ensures Less(r[a].deviceId, r[b].deviceId) {
      assert Less(ids[a], ids[b]);
    }
    forall d | d in r ensures Reports(obs, d) {
      var n :| 0 <= n < |r| && r[n] == d;
      DeviceReports(obs, ids[n]);
    }
    forall id ensures Lists(r, id) <==> Sighted(obs, id) {
      FoldKnown(all, id);
      ListedDevice(m, r, ids, id);
      SightedDevice(obs, id);
    }
  }

  lemma SightedDevice(obs: seq<Observation>, id: string)
    ensures (exists t | t in Project(obs, Trimmed) :: t.deviceId == id) <==> Sighted(obs, id)
  {
    hide TrimSpace;
    var all := Project(obs, Trimmed);
    if t :| t in all && t.deviceId == id {
      var i :| 0 <= i < |all| && all[i] == t;
      assert obs[i] in obs && TrimSpace(obs[i].deviceId) == id;
    }
    if o :| o in obs && TrimSpace(o.deviceId) == id {
      var i :| 0 <= i < |obs| && obs[i] == o;
      assert all[i] in all && all[i].deviceId == id;
    }
  }

  lemma ListedDevice(m: map<string, Aggregate>, r: seq<ReconciledDevice>, ids: seq<string>, id: string)
    requires |r| == |ids| && Elements(ids) == m.Keys && forall n | 0 <= n < |r| :: r[n].deviceId == ids[n]
    ensures Lists(r, id) <==> id in m
  {
    if id in m {
      assert id in Elements(ids);
      var n :| 0 <= n < |ids| && ids[n] == id;
      assert r[n] in r && r[n].deviceId == id;
    }
    if d :| d in r && d.deviceId == id {
      var n :| 0 <= n < |r| && r[n] == d;
      assert ids[n] in Elements(ids);
    }
  }
}
