// Stored objects: typed documents in a metadata envelope, and when a complete
// snapshot of them is valid.
module Objects {
  import opened Indexing
  import opened Metadata
  import opened NetworkContracts
  import opened Options
  import opened Roles
  import opened Sorting
  import opened Topologies

  datatype ObjectType = ScopeObject | SiteObject | ManagementZoneObject | NetworkZoneObject | NetworkInterfaceObject | RoleObject
                      | DesiredObject | ActualObject | OtherObject(name: string)

  datatype RoleDocument = RoleDocument(targetNodeId: string, serviceIdentityId: string, role: string, siteId: string, managementZoneId: string)

  // An embedded JSON value: an object, or anything else.
  datatype Raw = RawObject(value: nat) | RawOther(value: nat)

  datatype DesiredDocument = DesiredDocument(kind: string, targetObjectId: string, spec: Raw)

  datatype Status = Converged | Progressing | Drifted | Failed | Unknown | OtherStatus(name: string)

  datatype ActualDocument = ActualDocument(
    kind: string, targetObjectId: string, desiredObjectId: string, observedGeneration: uint64, sourceNodeId: string, observedAt: int,
    status: Status, state: Raw)

  // What each strict decoder reads from a JSON object; None where it rejects
  // the document.
  datatype Readings = Readings(
    scope: Option<Scope>, site: Option<Site>, zone: Option<ManagementZone>, networkZone: Option<NetworkZone>,
    networkInterface: Option<NetworkInterface>, role: Option<RoleDocument>, desired: Option<DesiredDocument>, actual: Option<ActualDocument>)

  // A document up to whitespace. The value stands for the JSON object it holds,
  // without the order of its keys. Decoders may read the same from different
  // values, and, where keys differ in case only, different things from
  // differently ordered spellings of one value.
  datatype Document = NotJson(text: string) | NotAnObject(value: nat) | JsonObject(value: nat, readings: Readings)

  // What comparisons and digests of documents see.
  datatype JsonValue = ObjectValue(value: nat) | OtherValue(value: nat) | NoValue(text: string)

  function ValueOf(d: Document): JsonValue {
    match d
    case NotJson(text) => NoValue(text)
    case NotAnObject(value) => OtherValue(value)
    case JsonObject(value, _) => ObjectValue(value)
  }

  datatype StoredObject = StoredObject(meta: ObjectMetadata, objectType: ObjectType, document: Document)

  function ObjectId(o: StoredObject): string {
    o.meta.objectId
  }

  // ---- reading typed records out of objects ----

  function ReadScope(o: StoredObject): Option<Scope> {
    if o.objectType == ScopeObject && o.document.JsonObject? then o.document.readings.scope else None
  }

  function ReadSite(o: StoredObject): Option<Site> {
    if o.objectType == SiteObject && o.document.JsonObject? then o.document.readings.site else None
  }

  function ReadZone(o: StoredObject): Option<ManagementZone> {
    if o.objectType == ManagementZoneObject && o.document.JsonObject? then o.document.readings.zone else None
  }

  function ReadNetworkZone(o: StoredObject): Option<NetworkZone> {
    if o.objectType == NetworkZoneObject && o.document.JsonObject? then o.document.readings.networkZone else None
  }

  function ReadInterface(o: StoredObject): Option<NetworkInterface> {
    if o.objectType == NetworkInterfaceObject && o.document.JsonObject? then o.document.readings.networkInterface else None
  }

  function RoleFrom(meta: ObjectMetadata, d: RoleDocument): RoleAssignment {
    RoleAssignment(meta, d.targetNodeId, d.serviceIdentityId, d.role, d.siteId, d.managementZoneId)
  }

  function ReadRole(o: StoredObject): Option<RoleAssignment> {
    if o.objectType == RoleObject && o.document.JsonObject? && o.document.readings.role.Some?
    then Some(RoleFrom(o.meta, o.document.readings.role.value)) else None
  }

  function ReadDesired(o: StoredObject): Option<DesiredDocument> {
    if o.objectType == DesiredObject && o.document.JsonObject? then o.document.readings.desired else None
  }

  function ReadActual(o: StoredObject): Option<ActualDocument> {
    if o.objectType == ActualObject && o.document.JsonObject? then o.document.readings.actual else None
  }

  // The list the first loop collects for one type.
  function Gather<T>(s: seq<StoredObject>, read: StoredObject -> Option<T>): seq<T> {
    if s == [] then []
    else
      var x := read(s[|s| - 1]);
      Gather(s[..|s| - 1], read) + if x.Some? then [x.value] else []
  }

  lemma GatherStep<T>(s: seq<StoredObject>, n: nat, read: StoredObject -> Option<T>)
    requires n < |s|
    ensures Gather(s[..n + 1], read) == Gather(s[..n], read) + if read(s[n]).Some? then [read(s[n]).value] else []
  {
    assert s[..n + 1][..n] == s[..n];
  }

  // The same records keyed by object identity.
  ghost function Extract<T>(m: map<string, StoredObject>, read: StoredObject -> Option<T>): map<string, T> {
    map id | id in m && read(m[id]).Some? :: read(m[id]).value
  }

  // Where documents carry their object's identity, list and map agree.
  lemma {:induction false} GatherIndex<T>(s: seq<StoredObject>, read: StoredObject -> Option<T>, key: T -> string)
    requires Distinct(Project(s, ObjectId))
    requires forall o | o in s :: read(o).Some? ==> key(read(o).value) == ObjectId(o)
    ensures Distinct(Project(Gather(s, read), key))
    ensures Index(Gather(s, read), key) == Extract(Index(s, ObjectId), read)
  {
    if s == [] {
      assert Gather(s, read) == [];
    } else {
      var n := |s| - 1;
      var front, last := s[..n], s[n];
      DistinctFront(s, n);
      GatherIndex(front, read, key);
      IndexKeys(front, ObjectId);
      assert last.meta.objectId !in Index(front, ObjectId);
      ExtractStep(Index(front, ObjectId), last, read);
      if read(last).Some? {
        SnocIndex(Gather(front, read), read(last).value, key);
      } else {
        assert Gather(front, read) + [] == Gather(front, read);
      }
    }
  }

  lemma DistinctFront(s: seq<StoredObject>, n: nat)
    requires n < |s| && Distinct(Project(s, ObjectId))
    ensures Distinct(Project(s[..n], ObjectId)) && ObjectId(s[n]) !in Elements(Project(s[..n], ObjectId))
  {
    var ids := Project(s, ObjectId);
    assert Project(s[..n], ObjectId) == ids[..n];
    assert forall i | 0 <= i < n :: ids[i] != ids[n];
  }

  lemma ExtractStep<T>(m: map<string, StoredObject>, o: StoredObject, read: StoredObject -> Option<T>)
    requires ObjectId(o) !in m
    ensures Extract(m[ObjectId(o) := o], read) ==
            if read(o).Some? then Extract(m, read)[ObjectId(o) := read(o).value] else Extract(m, read)
  {
  }

  lemma SnocIndex<T>(s: seq<T>, x: T, key: T -> string)
    requires Distinct(Project(s, key)) && key(x) !in Index(s, key)
    ensures Distinct(Project(s + [x], key)) && Index(s + [x], key) == Index(s, key)[key(x) := x]
  {
    IndexKeys(s, key);
    var t := s + [x];
    IndexStep(t, key, |s|);
    assert t[..|s|] == s && t[..|s| + 1] == t;
    var p := Project(t, key);
    assert p[..|s|] == Project(s, key) && p[..|s| + 1] == p;
    SeenStep(p, |s|);
  }

  // ---- one object ----

  predicate EnvelopeOk(o: StoredObject) {
    MetadataOk(o.meta) && !o.objectType.OtherObject? && o.document.JsonObject?
  }

  ghost predicate OwnedInside(o: StoredObject, t: Topology, authority: Authority) {
    Inside(t, o.meta.ownerScope, o.meta.scopeId) && Authorized(t, o.meta.ownerScope, authority)
  }

  ghost predicate ScopeObjectOk(o: StoredObject, s: Scope, t: Topology) {
    && s.id == ObjectId(o)
    && if s.kind == Global then o.meta.scopeId == s.id && o.meta.ownerScope == s.id
       else o.meta.scopeId == s.parentId && Inside(t, o.meta.ownerScope, s.id) && Authorized(t, o.meta.ownerScope, DelegateConfiguration)
  }

  ghost predicate DesiredOk(o: StoredObject, d: DesiredDocument, t: Topology) {
    && MetadataOk(o.meta) && OwnedInside(o, t, DelegateDesiredState)
    && ValidIdentifier(d.targetObjectId) && ValidIdentifier(d.kind) && d.spec.RawObject?
  }

  predicate ObservationOk(o: StoredObject, d: ActualDocument) {
    && MetadataOk(o.meta)
    && ValidIdentifier(d.targetObjectId) && ValidIdentifier(d.desiredObjectId) && ValidIdentifier(d.sourceNodeId) && ValidIdentifier(d.kind)
    && !d.status.OtherStatus? && d.observedAt != 0 && d.state.RawObject?
  }

  // A located record: its document repeats identity and scope, and a
  // configuration authority owns it.
  ghost predicate LocatedOk(o: StoredObject, id: string, scopeId: string, t: Topology) {
    id == ObjectId(o) && scopeId == o.meta.scopeId && OwnedInside(o, t, DelegateConfiguration)
  }

  ghost predicate TypedOk(o: StoredObject, t: Topology) {
    match o.objectType
    case ScopeObject => ReadScope(o).Some? && ScopeObjectOk(o, ReadScope(o).value, t)
    case SiteObject => ReadSite(o).Some? && LocatedOk(o, ReadSite(o).value.id, ReadSite(o).value.scopeId, t)
    case ManagementZoneObject => ReadZone(o).Some? && LocatedOk(o, ReadZone(o).value.id, ReadZone(o).value.scopeId, t)
    case NetworkZoneObject => ReadNetworkZone(o).Some? && LocatedOk(o, ReadNetworkZone(o).value.id, ReadNetworkZone(o).value.scopeId, t)
    case NetworkInterfaceObject => ReadInterface(o).Some? && LocatedOk(o, ReadInterface(o).value.id, ReadInterface(o).value.scopeId, t)
    case RoleObject => ReadRole(o).Some? && RoleOk(ReadRole(o).value, t)
    case DesiredObject => ReadDesired(o).Some? && DesiredOk(o, ReadDesired(o).value, t)
    case ActualObject => ReadActual(o).Some? && ObservationOk(o, ReadActual(o).value) && Inside(t, o.meta.ownerScope, o.meta.scopeId)
    case OtherObject(_) => true
  }

  method OwnerContains(o: StoredObject, t: Topology, authority: Authority) returns (ok: bool)
    requires TreeOk(t.scopes, t.rootId)
    ensures ok <==> OwnedInside(o, t, authority)
  {
    hide TreeOk, Authorized, Within;
    var inside := Contains(t, o.meta.ownerScope, o.meta.scopeId);
    ok := inside && Authorized(t, o.meta.ownerScope, authority);
  }

  method ValidateScopeObject(o: StoredObject, s: Scope, t: Topology) returns (ok: bool)
    requires TreeOk(t.scopes, t.rootId)
    ensures ok <==> ScopeObjectOk(o, s, t)
  {
    hide TreeOk, Authorized, Within;
    if s.id != o.meta.objectId {
      return false;
    }
    if s.kind == Global {
      return o.meta.scopeId == s.id && o.meta.ownerScope == s.id;
    }
    if o.meta.scopeId != s.parentId {
      return false;
    }
    var inside := Contains(t, o.meta.ownerScope, s.id);
    ok := inside && Authorized(t, o.meta.ownerScope, DelegateConfiguration);
  }

  method ValidateLocated(o: StoredObject, id: string, scopeId: string, t: Topology) returns (ok: bool)
    requires TreeOk(t.scopes, t.rootId)
    ensures ok <==> LocatedOk(o, id, scopeId, t)
  {
    hide TreeOk, OwnedInside;
    if id != o.meta.objectId || scopeId != o.meta.scopeId {
      return false;
    }
    ok := OwnerContains(o, t, DelegateConfiguration);
  }

  method ValidateDesiredState(o: StoredObject, d: DesiredDocument, t: Topology) returns (ok: bool)
    requires TreeOk(t.scopes, t.rootId)
    ensures ok <==> DesiredOk(o, d, t)
  {
    hide TreeOk, OwnedInside, MetadataOk, ValidIdentifier;
    if !MetadataOk(o.meta) {
      return false;
    }
    var owned := OwnerContains(o, t, DelegateDesiredState);
    ok := owned && ValidIdentifier(d.targetObjectId) && ValidIdentifier(d.kind) && d.spec.RawObject?;
  }

  method ValidateTypedObject(o: StoredObject, t: Topology) returns (ok: bool)
    requires TreeOk(t.scopes, t.rootId)
    ensures ok <==> TypedOk(o, t)
  {
    hide TreeOk, ScopeObjectOk, LocatedOk, RoleOk, DesiredOk, ObservationOk, Within;
    match o.objectType {
      case ScopeObject =>
        if ReadScope(o).None? {
          return false;
        }
        ok := ValidateScopeObject(o, ReadScope(o).value, t);
      case SiteObject =>
        if ReadSite(o).None? {
          return false;
        }
        ok := ValidateLocated(o, ReadSite(o).value.id, ReadSite(o).value.scopeId, t);
      case ManagementZoneObject =>
        if ReadZone(o).None? {
          return false;
        }
        ok := ValidateLocated(o, ReadZone(o).value.id, ReadZone(o).value.scopeId, t);
      case NetworkZoneObject =>
        if ReadNetworkZone(o).None? {
          return false;
        }
        ok := ValidateLocated(o, ReadNetworkZone(o).value.id, ReadNetworkZone(o).value.scopeId, t);
      case NetworkInterfaceObject =>
        if ReadInterface(o).None? {
          return false;
        }
        ok := ValidateLocated(o, ReadInterface(o).value.id, ReadInterface(o).value.scopeId, t);
      case RoleObject =>
        if ReadRole(o).None? {
          return false;
        }
        ok := ValidateRoleAssignment(ReadRole(o).value, t);
      case DesiredObject =>
        if ReadDesired(o).None? {
          return false;
        }
        ok := ValidateDesiredState(o, ReadDesired(o).value, t);
      case ActualObject =>
        if ReadActual(o).None? || !ObservationOk(o, ReadActual(o).value) {
          return false;
        }
        ok := Contains(t, o.meta.ownerScope, o.meta.scopeId);
      case OtherObject(_) =>
        return true;
    }
  }

  // ---- a complete snapshot ----

  // The global scope, if there is one.
  ghost function RootOf(m: map<string, StoredObject>): string {
    var scopes := Extract(m, ReadScope);
    if exists id :: id in scopes && scopes[id].kind == Global then
      var id :| id in scopes && scopes[id].kind == Global; id
    else ""
  }

  ghost function TopologyOf(m: map<string, StoredObject>): Topology {
    Topology(RootOf(m), Extract(m, ReadScope), Extract(m, ReadSite), Extract(m, ReadZone))
  }

  // The site and node pairs its role assignments bind.
  ghost function BoundIn(m: map<string, StoredObject>): set<(string, string)> {
    var roles := Extract(m, ReadRole);
    set id | id in roles && roles[id].siteId != "" :: (roles[id].siteId, roles[id].targetNodeId)
  }

  ghost predicate EnvelopesOk(m: map<string, StoredObject>) {
    forall id | id in m :: EnvelopeOk(m[id]) && ObjectId(m[id]) == id
  }

  ghost predicate AllTyped(m: map<string, StoredObject>, t: Topology) {
    forall id | id in m :: TypedOk(m[id], t)
  }

  // Well-formed envelopes around typed documents that form one topology with
  // compatible roles and a sound network.
  ghost predicate SnapshotOk(m: map<string, StoredObject>) {
    && EnvelopesOk(m) && TopologyOk(TopologyOf(m)) && AllTyped(m, TopologyOf(m))
    && RolesOk(Extract(m, ReadRole), TopologyOf(m))
    && NetworkOk(Extract(m, ReadNetworkZone), Extract(m, ReadInterface), BoundIn(m), TopologyOf(m))
  }

  // ---- the first loop: envelopes, identities and decoding ----

  // The document of a topology, network or role object decodes.
  predicate Decodes(o: StoredObject) {
    match o.objectType
    case ScopeObject => ReadScope(o).Some?
    case SiteObject => ReadSite(o).Some?
    case ManagementZoneObject => ReadZone(o).Some?
    case NetworkZoneObject => ReadNetworkZone(o).Some?
    case NetworkInterfaceObject => ReadInterface(o).Some?
    case RoleObject => ReadRole(o).Some?
    case _ => true
  }

  datatype Lists = Lists(
    scopes: seq<Scope>, sites: seq<Site>, zones: seq<ManagementZone>, networkZones: seq<NetworkZone>,
    interfaces: seq<NetworkInterface>, assignments: seq<RoleAssignment>)

  function ListsOf(s: seq<StoredObject>): Lists {
    Lists(Gather(s, ReadScope), Gather(s, ReadSite), Gather(s, ReadZone), Gather(s, ReadNetworkZone), Gather(s, ReadInterface),
          Gather(s, ReadRole))
  }

  // Append one object's record to the list of its type.
  function Append(l: Lists, o: StoredObject): Lists
    requires Decodes(o)
  {
    match o.objectType
    case ScopeObject => l.(scopes := l.scopes + [ReadScope(o).value])
    case SiteObject => l.(sites := l.sites + [ReadSite(o).value])
    case ManagementZoneObject => l.(zones := l.zones + [ReadZone(o).value])
    case NetworkZoneObject => l.(networkZones := l.networkZones + [ReadNetworkZone(o).value])
    case NetworkInterfaceObject => l.(interfaces := l.interfaces + [ReadInterface(o).value])
    case RoleObject => l.(assignments := l.assignments + [ReadRole(o).value])
    case _ => l
  }

  lemma ListsStep(s: seq<StoredObject>, n: nat)
    requires n < |s| && Decodes(s[n])
    ensures ListsOf(s[..n + 1]) == Append(ListsOf(s[..n]), s[n])
  {
    hide Gather;
    GatherStep(s, n, ReadScope);
    GatherStep(s, n, ReadSite);
    GatherStep(s, n, ReadZone);
    GatherStep(s, n, ReadNetworkZone);
    GatherStep(s, n, ReadInterface);
    GatherStep(s, n, ReadRole);
  }

  method CollectObjects(s: seq<StoredObject>) returns (ok: bool, lists: Lists)
    ensures ok <==> Distinct(Project(s, ObjectId)) && forall i | 0 <= i < |s| :: EnvelopeOk(s[i]) && Decodes(s[i])
    ensures ok ==> lists == ListsOf(s)
  {
    hide EnvelopeOk, Decodes, Append;
    lists := Lists([], [], [], [], [], []);
    var seen: set<string> := {};
    ghost var ids := Project(s, ObjectId);
    assert Distinct(ids[..0]) && lists == ListsOf(s[..0]);
    hide Distinct, ListsOf;
    for n := 0 to |s|
      invariant forall i | 0 <= i < n :: EnvelopeOk(s[i]) && Decodes(s[i])
      invariant Distinct(ids[..n]) && seen == Elements(ids[..n]) && lists == ListsOf(s[..n])
    {
      SeenStep(ids, n);
      if !EnvelopeOk(s[n]) || s[n].meta.objectId in seen || !Decodes(s[n]) {
        return false, lists;
      }
      ListsStep(s, n);
      seen := seen + {s[n].meta.objectId};
      lists := Append(lists, s[n]);
    }
    assert ids[..|s|] == ids && s[..|s|] == s;
    ok := true;
  }

  // ---- lists against maps ----

  // Documents that carry an identity carry that of their object.
  predicate CarriesId(o: StoredObject) {
    && (ReadScope(o).Some? ==> ReadScope(o).value.id == ObjectId(o))
    && (ReadSite(o).Some? ==> ReadSite(o).value.id == ObjectId(o))
    && (ReadZone(o).Some? ==> ReadZone(o).value.id == ObjectId(o))
    && (ReadNetworkZone(o).Some? ==> ReadNetworkZone(o).value.id == ObjectId(o))
    && (ReadInterface(o).Some? ==> ReadInterface(o).value.id == ObjectId(o))
  }

  lemma TypedCarriesId(o: StoredObject, t: Topology)
    requires TypedOk(o, t)
    ensures CarriesId(o) && Decodes(o)
  {
    hide OwnedInside, RoleOk, DesiredOk, ObservationOk, Inside, Authorized;
  }

  lemma ListsMatch(s: seq<StoredObject>, root: string)
    requires Distinct(Project(s, ObjectId)) && forall o | o in s :: CarriesId(o)
    ensures var l, m := ListsOf(s), Index(s, ObjectId);
      && NoRepeats(l.scopes, l.sites, l.zones)
      && Indexed(root, l.scopes, l.sites, l.zones) == Topology(root, Extract(m, ReadScope), Extract(m, ReadSite), Extract(m, ReadZone))
      && Distinct(Project(l.networkZones, NetworkZoneId)) && Index(l.networkZones, NetworkZoneId) == Extract(m, ReadNetworkZone)
      && Distinct(Project(l.interfaces, InterfaceId)) && Index(l.interfaces, InterfaceId) == Extract(m, ReadInterface)
  {
    hide Gather, Index, Extract, Distinct;
    assert forall o | o in s :: CarriesId(o);
    GatherIndex(s, ReadScope, ScopeId);
    GatherIndex(s, ReadSite, SiteId);
    GatherIndex(s, ReadZone, ZoneId);
    GatherIndex(s, ReadNetworkZone, NetworkZoneId);
    GatherIndex(s, ReadInterface, InterfaceId);
  }

  lemma RolesMatch(s: seq<StoredObject>)
    requires Distinct(Project(s, ObjectId))
    ensures var l, m := ListsOf(s), Index(s, ObjectId);
      Distinct(Project(l.assignments, AssignmentId)) && Index(l.assignments, AssignmentId) == Extract(m, ReadRole)
      && BoundBy(l.assignments) == BoundIn(m)
  {
    hide Gather, Index, Extract;
    GatherIndex(s, ReadRole, AssignmentId);
    var l, roles := ListsOf(s), Extract(Index(s, ObjectId), ReadRole);
    IndexMeaning(l.assignments, AssignmentId);
    BoundSame(l.assignments, roles);
  }

  lemma BoundSame(s: seq<RoleAssignment>, roles: map<string, RoleAssignment>)
    requires forall i | 0 <= i < |s| :: AssignmentId(s[i]) in roles && roles[AssignmentId(s[i])] == s[i]
    requires forall id | id in roles :: roles[id] in s
    ensures BoundBy(s) == set id | id in roles && roles[id].siteId != "" :: (roles[id].siteId, roles[id].targetNodeId)
  {
    var b := set id | id in roles && roles[id].siteId != "" :: (roles[id].siteId, roles[id].targetNodeId);
    forall p ensures p in BoundBy(s) <==> p in b {
      if p in BoundBy(s) {
        var a :| a in s && a.siteId != "" && p == (a.siteId, a.targetNodeId);
        var i :| 0 <= i < |s| && s[i] == a;
        assert AssignmentId(a) in roles && roles[AssignmentId(a)] == a;
      }
      if p in b {
        var id :| id in roles && roles[id].siteId != "" && p == (roles[id].siteId, roles[id].targetNodeId);
        assert roles[id] in s;
      }
    }
  }

  lemma RootOfTree(m: map<string, StoredObject>, root: string)
    requires TreeOk(Extract(m, ReadScope), root)
    ensures RootOf(m) == root
  {
    hide Extract, ScopeOk, Within;
    var scopes := Extract(m, ReadScope);
    assert root in scopes && scopes[root].kind == Global;
    RootUnique(scopes, root, RootOf(m));
  }

  // A topology built from the lists is the topology of the map.
  lemma SameTopology(s: seq<StoredObject>, t: Topology)
    requires Distinct(Project(s, ObjectId)) && forall o | o in s :: CarriesId(o)
    requires var l := ListsOf(s); t == Indexed(t.rootId, l.scopes, l.sites, l.zones) && TopologyOk(t)
    ensures t == TopologyOf(Index(s, ObjectId))
  {
    hide Index, Extract, Distinct, TreeOk, SitesOk, ZonesOk, ListsOf, CarriesId, RootOf;
    ListsMatch(s, t.rootId);
    RootOfTree(Index(s, ObjectId), t.rootId);
  }

  lemma SnapshotCarriesIds(s: seq<StoredObject>)
    requires Distinct(Project(s, ObjectId)) && SnapshotOk(Index(s, ObjectId))
    ensures forall o | o in s :: CarriesId(o) && Decodes(o) && EnvelopeOk(o) && TypedOk(o, TopologyOf(Index(s, ObjectId)))
  {
    hide Index, Distinct, TopologyOf, TopologyOk, RolesOk, NetworkOk, EnvelopeOk, TypedOk, CarriesId, Decodes;
    var m := Index(s, ObjectId);
    IndexMeaning(s, ObjectId);
    forall o | o in s ensures CarriesId(o) && Decodes(o) && EnvelopeOk(o) && TypedOk(o, TopologyOf(m)) {
      var i :| 0 <= i < |s| && s[i] == o;
      assert m[ObjectId(s[i])] == o;
      TypedCarriesId(o, TopologyOf(m));
    }
  }

  // ---- the topology of a list of objects ----

  // The lists of a valid snapshot build its topology.
  lemma SnapshotBuilds(s: seq<StoredObject>)
    requires Distinct(Project(s, ObjectId)) && SnapshotOk(Index(s, ObjectId))
    ensures var l := ListsOf(s); Builds(l.scopes, l.sites, l.zones, TopologyOf(Index(s, ObjectId)))
  {
    hide Index, Distinct, TopologyOk, RolesOk, NetworkOk, ListsOf, AllTyped, EnvelopesOk, Indexed, NoRepeats, RootOf, Extract;
    SnapshotCarriesIds(s);
    ListsMatch(s, RootOf(Index(s, ObjectId)));
  }

  lemma TopologyRejected(s: seq<StoredObject>)
    requires var l := ListsOf(s); forall t :: !Builds(l.scopes, l.sites, l.zones, t)
    ensures !Distinct(Project(s, ObjectId)) || !SnapshotOk(Index(s, ObjectId))
  {
    hide Index, Distinct, ListsOf, SnapshotOk, Builds, TopologyOf;
    if Distinct(Project(s, ObjectId)) && SnapshotOk(Index(s, ObjectId)) {
      SnapshotBuilds(s);
    }
  }

  method CheckTyped(s: seq<StoredObject>, t: Topology) returns (ok: bool)
    requires TreeOk(t.scopes, t.rootId)
    ensures ok <==> forall o | o in s :: TypedOk(o, t)
  {
    hide TreeOk, TypedOk;
    for n := 0 to |s|
      invariant forall i | 0 <= i < n :: TypedOk(s[i], t)
    {
      var typed := ValidateTypedObject(s[n], t);
      if !typed {
        return false;
      }
    }
    return true;
  }

  // ---- ValidateStoredObjects ----

  ghost predicate Valid(s: seq<StoredObject>) {
    Distinct(Project(s, ObjectId)) && SnapshotOk(Index(s, ObjectId))
  }

  // The staged checks over lists accept exactly the valid snapshots.
  method ValidateStoredObjects(s: seq<StoredObject>) returns (ok: bool)
    ensures ok <==> Valid(s)
  {
    hide Index, Distinct, TreeOk, SitesOk, ZonesOk, RolesOk, NetworkOk, ListsOf, TypedOk, EnvelopeOk, Decodes, Extract, SnapshotOk, Indexed, NoRepeats;
    if |s| == 0 {
      EmptyInvalid(s);
      return false;
    }
    var collected, lists := CollectObjects(s);
    if !collected {
      if Valid(s) {
        SnapshotCarriesIds(s);
      }
      return false;
    }
    var topology := NewTopology(lists.scopes, lists.sites, lists.zones);
    if topology.None? {
      TopologyRejected(s);
      return false;
    }
    var t := topology.value;
    var typed := CheckTyped(s, t);
    if !typed {
      if Valid(s) {
        SnapshotCarriesIds(s);
        SameTopology(s, t);
      }
      return false;
    }
    forall o | o in s ensures CarriesId(o) {
      TypedCarriesId(o, t);
    }
    SnapshotParts(s, t);
    ListsMatch(s, t.rootId);
    RolesMatch(s);
    var roles := ValidateRoleAssignments(lists.assignments, t);
    if !roles {
      return false;
    }
    ok := ValidateNetworkContracts(lists.networkZones, lists.interfaces, lists.assignments, t);
  }

  lemma EmptyInvalid(s: seq<StoredObject>)
    requires s == []
    ensures !Valid(s)
  {
    hide SitesOk, ZonesOk, RolesOk, NetworkOk, AllTyped, EnvelopesOk, ScopeOk, Within, RootOf;
    var m := Index(s, ObjectId);
    assert m == map[];
    assert Extract(m, ReadScope) == map[];
  }

  // With typed documents, what is left are the roles and the network.
  lemma SnapshotParts(s: seq<StoredObject>, t: Topology)
    requires Distinct(Project(s, ObjectId)) && forall i | 0 <= i < |s| :: EnvelopeOk(s[i]) && Decodes(s[i])
    requires forall o | o in s :: TypedOk(o, t) && CarriesId(o)
    requires var l := ListsOf(s); t == Indexed(t.rootId, l.scopes, l.sites, l.zones) && TopologyOk(t)
    ensures var m := Index(s, ObjectId);
      SnapshotOk(m) <==> RolesOk(Extract(m, ReadRole), t) && NetworkOk(Extract(m, ReadNetworkZone), Extract(m, ReadInterface), BoundIn(m), t)
  {
    hide Index, Distinct, TopologyOk, RolesOk, NetworkOk, ListsOf, EnvelopesOk, AllTyped, EnvelopeOk, TypedOk, Decodes, Extract, TopologyOf,
         BoundIn, CarriesId, Indexed;
    SameTopology(s, t);
    AllSound(s, t);
  }

  lemma AllSound(s: seq<StoredObject>, t: Topology)
    requires (forall i | 0 <= i < |s| :: EnvelopeOk(s[i])) && forall o | o in s :: TypedOk(o, t)
    ensures EnvelopesOk(Index(s, ObjectId)) && AllTyped(Index(s, ObjectId), t)
  {
    hide Index, TypedOk, EnvelopeOk;
    IndexKeys(s, ObjectId);
    var m := Index(s, ObjectId);
    assert forall id | id in m :: m[id] in s;
  }

  // The verdict does not depend on the order of the objects.
  lemma VerdictOrderFree(s: seq<StoredObject>, s': seq<StoredObject>)
    requires multiset(s) == multiset(s')
    ensures Valid(s) <==> Valid(s')
  {
    hide Index, Distinct, SnapshotOk;
    if Distinct(Project(s, ObjectId)) {
      IndexPermuted(s, s', ObjectId);
    } else if Distinct(Project(s', ObjectId)) {
      IndexPermuted(s', s, ObjectId);
    }
  }
}
