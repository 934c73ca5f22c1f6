// Preparing a mutation: building the server-versioned successor and admitting
// it only if the whole snapshot stays valid.
module Mutations {
  import opened Indexing
  import opened Metadata
  import opened Objects
  import opened Options
  import opened Roles
  import opened Sorting
  import opened Text
  import opened Topologies

  datatype Operation = Create | Replace | OtherOperation(name: string)

  datatype MutationRequest = MutationRequest(
    operation: Operation, objectType: ObjectType, objectId: string, scopeId: string, ownerScope: string, document: Document,
    precondition: Option<Precondition>)

  // ---- the successor ----

  // Whether a replacement counts as new intent. Observations never do.
  predicate DesiredChanged(current: StoredObject, r: MutationRequest) {
    r.objectType != ActualObject
    && (r.scopeId != current.meta.scopeId || r.ownerScope != current.meta.ownerScope || ValueOf(r.document) != ValueOf(current.document))
  }

  function NextObject(current: Option<StoredObject>, r: MutationRequest, now: int, version: string): StoredObject {
    if r.operation == Replace && current.Some? then
      var c := current.value;
      StoredObject(
        ObjectMetadata(r.objectId, r.scopeId, r.ownerScope, (if DesiredChanged(c, r) then Increment(c.meta.generation) else c.meta.generation),
                       version, c.meta.createdAt, now), r.objectType, r.document)
    else
      StoredObject(ObjectMetadata(r.objectId, r.scopeId, r.ownerScope, 1, version, now, now), r.objectType, r.document)
  }

  // An observation keeps what it is about, never goes back, and does not
  // change its content without advancing.
  predicate ObservationAdvances(before: ActualDocument, after: ActualDocument) {
    && before.kind == after.kind && before.targetObjectId == after.targetObjectId
    && before.desiredObjectId == after.desiredObjectId && before.sourceNodeId == after.sourceNodeId
    && before.observedGeneration <= after.observedGeneration && before.observedAt <= after.observedAt
    && (after.observedGeneration == before.observedGeneration && after.observedAt == before.observedAt ==>
          after.status == before.status && after.state == before.state)
  }

  // What a type demands of a successor beyond the version rules.
  ghost predicate TypedSuccessorOk(current: StoredObject, next: StoredObject, t: Topology) {
    match current.objectType
    case ScopeObject => ReadScope(current).Some? && ReadScope(next).Some? && ReadScope(current).value.kind == ReadScope(next).value.kind
    case RoleObject => ReadRole(current).Some? && ReadRole(next).Some? && RoleSuccessorOk(ReadRole(current).value, ReadRole(next).value, t)
    case NetworkZoneObject =>
      && ReadNetworkZone(current).Some? && ReadNetworkZone(next).Some?
      && var a, b := ReadNetworkZone(current).value, ReadNetworkZone(next).value;
         a.kind == b.kind && a.siteId == b.siteId
    case NetworkInterfaceObject =>
      && ReadInterface(current).Some? && ReadInterface(next).Some?
      && var a, b := ReadInterface(current).value, ReadInterface(next).value;
         a.nodeId == b.nodeId && a.kind == b.kind && a.siteId == b.siteId
    case DesiredObject =>
      && ReadDesired(current).Some? && ReadDesired(next).Some?
      && var a, b := ReadDesired(current).value, ReadDesired(next).value;
         a.kind == b.kind && a.targetObjectId == b.targetObjectId
    case ActualObject =>
      ReadActual(current).Some? && ReadActual(next).Some? && ObservationAdvances(ReadActual(current).value, ReadActual(next).value)
    case _ => true
  }

  method ValidateTypedSuccessor(current: StoredObject, next: StoredObject, t: Topology) returns (ok: bool)
    requires TreeOk(t.scopes, t.rootId)
    ensures ok <==> TypedSuccessorOk(current, next, t)
  {
    hide TreeOk, RoleSuccessorOk, ObservationAdvances;
    match current.objectType {
      case ScopeObject =>
        return ReadScope(current).Some? && ReadScope(next).Some? && ReadScope(current).value.kind == ReadScope(next).value.kind;
      case RoleObject =>
        if ReadRole(current).None? || ReadRole(next).None? {
          return false;
        }
        ok := ValidateRoleAssignmentSuccessor(ReadRole(current).value, ReadRole(next).value, t);
      case NetworkZoneObject =>
        if ReadNetworkZone(current).None? || ReadNetworkZone(next).None? {
          return false;
        }
        var a, b := ReadNetworkZone(current).value, ReadNetworkZone(next).value;
        return a.kind == b.kind && a.siteId == b.siteId;
      case NetworkInterfaceObject =>
        if ReadInterface(current).None? || ReadInterface(next).None? {
          return false;
        }
        var a, b := ReadInterface(current).value, ReadInterface(next).value;
        return a.nodeId == b.nodeId && a.kind == b.kind && a.siteId == b.siteId;
      case DesiredObject =>
        if ReadDesired(current).None? || ReadDesired(next).None? {
          return false;
        }
        var a, b := ReadDesired(current).value, ReadDesired(next).value;
        return a.kind == b.kind && a.targetObjectId == b.targetObjectId;
      case ActualObject =>
        return ReadActual(current).Some? && ReadActual(next).Some? && ObservationAdvances(ReadActual(current).value, ReadActual(next).value);
      case _ =>
        return true;
    }
  }

  // ---- the candidate snapshot ----

  function Without(s: seq<StoredObject>, id: string): seq<StoredObject> {
    if s == [] then []
    else
      var last := s[|s| - 1];
      Without(s[..|s| - 1], id) + if ObjectId(last) == id then [] else [last]
  }

  // Every other object, and the successor once.
  function Candidate(s: seq<StoredObject>, next: StoredObject): seq<StoredObject> {
    Without(s, ObjectId(next)) + [next]
  }

  predicate ObjectLess(a: StoredObject, b: StoredObject) {
    Less(ObjectId(a), ObjectId(b))
  }

  lemma WithoutStep(s: seq<StoredObject>, n: nat, id: string)
    requires n < |s|
    ensures multiset(Without(s[..n + 1], id)) == multiset(Without(s[..n], id)) + if ObjectId(s[n]) == id then multiset{} else multiset{s[n]}
  {
    assert s[..n + 1][..n] == s[..n];
  }

  method ReplaceInSnapshot(s: seq<StoredObject>, next: StoredObject) returns (r: seq<StoredObject>)
    ensures multiset(r) == multiset(Candidate(s, next))
  {
    var replaced := false;
    r := [];
    assert Without(s[..0], ObjectId(next)) == [];
    hide Sort, Without;
    for n := 0 to |s|
      invariant multiset(r) == multiset(Without(s[..n], ObjectId(next))) + if replaced then multiset{next} else multiset{}
    {
      WithoutStep(s, n, ObjectId(next));
      if s[n].meta.objectId == next.meta.objectId {
        if !replaced {
          r := r + [next];
          replaced := true;
        }
      } else {
        r := r + [s[n]];
      }
    }
    assert s[..|s|] == s;
    if !replaced {
      r := r + [next];
    }
    SortMultiset(r, ObjectLess);
    r := Sort(r, ObjectLess);
  }

  lemma {:induction false} WithoutIndex(s: seq<StoredObject>, id: string)
    requires Distinct(Project(s, ObjectId))
    ensures Distinct(Project(Without(s, id), ObjectId)) && Index(Without(s, id), ObjectId) == Index(s, ObjectId) - {id}
  {
    if s != [] {
      var n := |s| - 1;
      var front, last := s[..n], s[n];
      hide Index, Distinct;
      DistinctFront(s, n);
      WithoutIndex(front, id);
      IndexKeys(front, ObjectId);
      IndexStep(s, ObjectId, n);
      assert s[..n + 1] == s;
      if ObjectId(last) != id {
        assert ObjectId(last) !in Index(front, ObjectId);
        SnocIndex(Without(front, id), last, ObjectId);
        RemoveOther(Index(front, ObjectId), id, last);
      } else {
        assert Without(front, id) + [] == Without(front, id);
        RemoveSame(Index(front, ObjectId), id, last);
      }
    }
  }

  lemma RemoveOther(m: map<string, StoredObject>, id: string, o: StoredObject)
    requires ObjectId(o) != id
    ensures m[ObjectId(o) := o] - {id} == (m - {id})[ObjectId(o) := o]
  {
  }

  lemma RemoveSame(m: map<string, StoredObject>, id: string, o: StoredObject)
    ensures m[id := o] - {id} == m - {id}
  {
  }

  // On a snapshot without repeats the candidate updates the map.
  lemma CandidateIndex(s: seq<StoredObject>, next: StoredObject)
    requires Distinct(Project(s, ObjectId))
    ensures Distinct(Project(Candidate(s, next), ObjectId))
    ensures Index(Candidate(s, next), ObjectId) == Index(s, ObjectId)[ObjectId(next) := next]
  {
    hide Distinct, Index, Without;
    WithoutIndex(s, ObjectId(next));
    SnocIndex(Without(s, ObjectId(next)), next, ObjectId);
    var m := Index(s, ObjectId);
    assert (m - {ObjectId(next)})[ObjectId(next) := next] == m[ObjectId(next) := next];
  }

  // ---- topologyFromObjects ----

  predicate TopologyDecodes(o: StoredObject) {
    match o.objectType
    case ScopeObject => ReadScope(o).Some?
    case SiteObject => ReadSite(o).Some?
    case ManagementZoneObject => ReadZone(o).Some?
    case _ => true
  }

  method TopologyFromObjects(s: seq<StoredObject>) returns (t: Option<Topology>)
    ensures t.Some? ==> TopologyOk(t.value) && (Valid(s) ==> t.value == TopologyOf(Index(s, ObjectId)))
    ensures t.None? ==> !Valid(s)
  {
    hide Index, Distinct, TreeOk, SitesOk, ZonesOk, SnapshotOk, Indexed, NoRepeats, TopologyDecodes, TopologyOf;
    var scopes: seq<Scope>, sites: seq<Site>, zones: seq<ManagementZone> := [], [], [];
    assert Collected(s, 0, scopes, sites, zones);
    hide Collected;
    for n := 0 to |s|
      invariant Collected(s, n, scopes, sites, zones)
    {
      if !TopologyDecodes(s[n]) {
        if Valid(s) {
          UndecodedInvalid(s, n);
        }
        return None;
      }
      CollectedStep(s, n, scopes, sites, zones);
      var scope, site, zone := ReadScope(s[n]), ReadSite(s[n]), ReadZone(s[n]);
      if scope.Some? {
        scopes := scopes + [scope.value];
      } else if site.Some? {
        sites := sites + [site.value];
      } else if zone.Some? {
        zones := zones + [zone.value];
      }
    }
    CollectedAll(s, scopes, sites, zones);
    t := NewTopology(scopes, sites, zones);
    if t.None? {
      TopologyRejected(s);
    } else if Valid(s) {
      SnapshotCarriesIds(s);
      SameTopology(s, t.value);
    }
  }

  ghost predicate Collected(s: seq<StoredObject>, n: nat, scopes: seq<Scope>, sites: seq<Site>, zones: seq<ManagementZone>)
    requires n <= |s|
  {
    scopes == Gather(s[..n], ReadScope) && sites == Gather(s[..n], ReadSite) && zones == Gather(s[..n], ReadZone)
  }

  lemma CollectedStep(s: seq<StoredObject>, n: nat, scopes: seq<Scope>, sites: seq<Site>, zones: seq<ManagementZone>)
    requires n < |s| && Collected(s, n, scopes, sites, zones)
    ensures var scope, site, zone := ReadScope(s[n]), ReadSite(s[n]), ReadZone(s[n]);
      Collected(s, n + 1, if scope.Some? then scopes + [scope.value] else scopes, if site.Some? then sites + [site.value] else sites,
                if zone.Some? then zones + [zone.value] else zones)
    ensures ReadScope(s[n]).Some? ==> ReadSite(s[n]).None? && ReadZone(s[n]).None?
    ensures ReadSite(s[n]).Some? ==> ReadZone(s[n]).None?
  {
    hide Gather;
    GatherStep(s, n, ReadScope);
    GatherStep(s, n, ReadSite);
    GatherStep(s, n, ReadZone);
  }

  lemma CollectedAll(s: seq<StoredObject>, scopes: seq<Scope>, sites: seq<Site>, zones: seq<ManagementZone>)
    requires Collected(s, |s|, scopes, sites, zones)
    ensures ListsOf(s).scopes == scopes && ListsOf(s).sites == sites && ListsOf(s).zones == zones
  {
    assert s[..|s|] == s;
  }

  lemma UndecodedInvalid(s: seq<StoredObject>, n: nat)
    requires n < |s| && Valid(s)
    ensures TopologyDecodes(s[n])
  {
    hide Index, Distinct, SnapshotOk, CarriesId, EnvelopeOk, TypedOk, TopologyOf;
    SnapshotCarriesIds(s);
    assert s[n] in s;
  }

  // ---- PrepareMutation ----

  predicate RequestOk(r: MutationRequest, now: int) {
    now != 0 && !r.operation.OtherOperation? && !r.objectType.OtherObject? && r.document.JsonObject?
  }

  predicate Guarded(current: StoredObject, r: MutationRequest) {
    r.precondition.Some? && Guards(r.precondition.value, current.meta) && r.objectType == current.objectType
  }

  ghost predicate Replaceable(current: StoredObject, r: MutationRequest, next: StoredObject, t: Topology) {
    Guarded(current, r) && TypedSuccessorOk(current, next, t) && Succeeds(current.meta, next.meta, DesiredChanged(current, r))
  }

  ghost predicate Admitted(current: Option<StoredObject>, r: MutationRequest, s: seq<StoredObject>, now: int, version: string) {
    var next := NextObject(current, r, now, version);
    && RequestOk(r, now) && Valid(Candidate(s, next))
    && if r.operation == Create then current.None? && (forall o | o in s :: ObjectId(o) != r.objectId) && r.precondition.None?
       else current.Some? && Replaceable(current.value, r, next, TopologyOf(Index(Candidate(s, next), ObjectId)))
  }

  method Absent(s: seq<StoredObject>, id: string) returns (ok: bool)
    ensures ok <==> forall o | o in s :: ObjectId(o) != id
  {
    for n := 0 to |s|
      invariant forall i | 0 <= i < n :: ObjectId(s[i]) != id
    {
      if s[n].meta.objectId == id {
        assert s[n] in s;
        return false;
      }
    }
    return true;
  }

  // The sorted candidate has the verdict, and the topology, of any order.
  lemma SortedCandidate(r: seq<StoredObject>, s: seq<StoredObject>)
    requires multiset(r) == multiset(s)
    ensures Valid(r) <==> Valid(s)
    ensures Valid(r) ==> Index(r, ObjectId) == Index(s, ObjectId)
  {
    hide Index, Distinct, SnapshotOk;
    VerdictOrderFree(r, s);
    if Valid(r) {
      IndexPermuted(r, s, ObjectId);
    }
  }

  method PrepareMutation(current: Option<StoredObject>, r: MutationRequest, snapshot: seq<StoredObject>, now: int, version: string)
    returns (result: Option<StoredObject>)
    ensures result.Some? <==> Admitted(current, r, snapshot, now, version)
    ensures result.Some? ==> result.value == NextObject(current, r, now, version)
  {
    hide NextObject, RequestOk, Guarded, TypedSuccessorOk, Succeeds, Valid, Candidate, Index, DesiredChanged, TopologyOf;
    if !RequestOk(r, now) {
      return None;
    }
    OperationKnown(r, now);
    var next := NextObject(current, r, now, version);
    var candidate := ReplaceInSnapshot(snapshot, next);
    SortedCandidate(candidate, Candidate(snapshot, next));
    if r.operation == Create {
      if current.Some? {
        return None;
      }
      var absent := Absent(snapshot, r.objectId);
      if !absent || r.precondition.Some? {
        return None;
      }
    } else {
      if current.None? || !Guarded(current.value, r) {
        return None;
      }
      var topology := TopologyFromObjects(candidate);
      if topology.None? {
        return None;
      }
      TreeOfTopology(topology.value);
      var typed := ValidateTypedSuccessor(current.value, next, topology.value);
      if !typed || !Succeeds(current.value.meta, next.meta, DesiredChanged(current.value, r)) {
        return None;
      }
    }
    var valid := ValidateStoredObjects(candidate);
    if !valid {
      return None;
    }
    return Some(next);
  }

  lemma OperationKnown(r: MutationRequest, now: int)
    requires RequestOk(r, now)
    ensures r.operation == Create || r.operation == Replace
  {
  }

  lemma TreeOfTopology(t: Topology)
    requires TopologyOk(t)
    ensures TreeOk(t.scopes, t.rootId)
  {
    hide TreeOk, SitesOk, ZonesOk;
  }
}
