// Resubmitting a stored object unchanged is always admitted. With it, every
// reissued version loses an update, even if the version generator never
// repeats itself, so the condition for no lost updates is exact.
module VersionReuse {
  import opened Metadata
  import opened Mutations
  import opened NetworkContracts
  import opened Objects
  import opened Options
  import opened Repository
  import opened Roles
  import opened Topologies

  function Refreshed(o: StoredObject, version: string, now: int): StoredObject {
    o.(meta := o.meta.(resourceVersion := version, updatedAt := now))
  }

  function RefreshRequest(o: StoredObject): MutationRequest {
    MutationRequest(Replace, o.objectType, o.meta.objectId, o.meta.scopeId, o.meta.ownerScope, o.document,
                    Some(Precondition(o.meta.objectId, o.meta.resourceVersion, None)))
  }

  predicate Refreshable(o: StoredObject, version: string, now: int) {
    o.meta.updatedAt <= now && now != 0 && ValidToken(version) && version != o.meta.resourceVersion
  }

  // ---- the snapshot stays valid ----

  lemma ExtractSame<T>(m: map<string, StoredObject>, x: string, o: StoredObject, read: StoredObject -> Option<T>)
    requires x in m && read(o) == read(m[x])
    ensures Extract(m[x := o], read) == Extract(m, read)
  {
  }

  lemma MetadataRefreshed(a: ObjectMetadata, version: string, now: int)
    requires MetadataOk(a) && a.updatedAt <= now && now != 0 && ValidToken(version)
    ensures MetadataOk(a.(resourceVersion := version, updatedAt := now))
  {
    hide ValidToken, ValidIdentifier;
  }

  // A role assignment with new bookkeeping: same placement.
  function RoleRefreshed(a: RoleAssignment, version: string, now: int): RoleAssignment {
    a.(meta := a.meta.(resourceVersion := version, updatedAt := now))
  }

  lemma RoleStaysOk(a: RoleAssignment, t: Topology, version: string, now: int)
    requires RoleOk(a, t) && a.meta.updatedAt <= now && now != 0 && ValidToken(version)
    ensures RoleOk(RoleRefreshed(a, version, now), t)
  {
    hide MetadataOk, ValidIdentifier, ValidRole, ValidToken, Authorized, Within;
    MetadataRefreshed(a.meta, version, now);
  }

  lemma TypedRefreshed(o: StoredObject, t: Topology, version: string, now: int)
    requires TypedOk(o, t) && Refreshable(o, version, now)
    ensures TypedOk(Refreshed(o, version, now), t)
  {
    hide MetadataOk, ValidIdentifier, ValidToken, Inside, Authorized, RoleOk;
    var o' := Refreshed(o, version, now);
    if o.objectType == RoleObject {
      RoleStaysOk(ReadRole(o).value, t, version, now);
      assert ReadRole(o').value == RoleRefreshed(ReadRole(o).value, version, now);
    } else if MetadataOk(o.meta) {
      MetadataRefreshed(o.meta, version, now);
    }
  }

  lemma RolesRefreshed(roles: map<string, RoleAssignment>, t: Topology, x: string, version: string, now: int)
    requires RolesOk(roles, t) && x in roles && roles[x].meta.updatedAt <= now && now != 0 && ValidToken(version)
    ensures RolesOk(roles[x := RoleRefreshed(roles[x], version, now)], t)
  {
    hide RoleOk, ValidToken, BindingKey, IsController;
    RoleStaysOk(roles[x], t, version, now);
    var roles' := roles[x := RoleRefreshed(roles[x], version, now)];
    forall a, b | a in roles' && b in roles' && a != b ensures Compatible(roles'[a], roles'[b]) {
      assert Compatible(roles[a], roles[b]);
      SameKeys(roles[a], version, now);
      SameKeys(roles[b], version, now);
    }
  }

  lemma SameKeys(a: RoleAssignment, version: string, now: int)
    ensures BindingKey(RoleRefreshed(a, version, now)) == BindingKey(a)
    ensures IsController(RoleRefreshed(a, version, now)) <==> IsController(a)
  {
  }

  lemma ExtractRoles(m: map<string, StoredObject>, x: string, version: string, now: int)
    requires x in m
    ensures var m', roles := m[x := Refreshed(m[x], version, now)], Extract(m, ReadRole);
      Extract(m', ReadRole) == if x in roles then roles[x := RoleRefreshed(roles[x], version, now)] else roles
  {
  }

  lemma BoundSameIn(m: map<string, StoredObject>, x: string, version: string, now: int)
    requires x in m
    ensures BoundIn(m[x := Refreshed(m[x], version, now)]) == BoundIn(m)
  {
    var m' := m[x := Refreshed(m[x], version, now)];
    hide Extract;
    ExtractRoles(m, x, version, now);
    var a, b := Extract(m, ReadRole), Extract(m', ReadRole);
    assert a.Keys == b.Keys;
    assert forall id | id in a :: a[id].siteId == b[id].siteId && a[id].targetNodeId == b[id].targetNodeId;
    BoundIncluded(a, b);
    BoundIncluded(b, a);
  }

  lemma BoundIncluded(a: map<string, RoleAssignment>, b: map<string, RoleAssignment>)
    requires forall id | id in a :: id in b && a[id].siteId == b[id].siteId && a[id].targetNodeId == b[id].targetNodeId
    ensures (set id | id in a && a[id].siteId != "" :: (a[id].siteId, a[id].targetNodeId))
         <= (set id | id in b && b[id].siteId != "" :: (b[id].siteId, b[id].targetNodeId))
  {
  }

  // The topology is read off scopes, sites and zones only.
  lemma TopologyKept(m: map<string, StoredObject>, x: string, o: StoredObject)
    requires x in m && TopologyOk(TopologyOf(m))
    requires ReadScope(o) == ReadScope(m[x]) && ReadSite(o) == ReadSite(m[x]) && ReadZone(o) == ReadZone(m[x])
    ensures TopologyOf(m[x := o]) == TopologyOf(m)
  {
    hide Extract, SitesOk, ZonesOk, TreeOk, RootOf;
    ExtractSame(m, x, o, ReadScope);
    ExtractSame(m, x, o, ReadSite);
    ExtractSame(m, x, o, ReadZone);
    RootOfTree(m[x := o], RootOf(m));
  }

  lemma TopologySame(m: map<string, StoredObject>, x: string, version: string, now: int)
    requires x in m && TopologyOk(TopologyOf(m))
    ensures TopologyOf(m[x := Refreshed(m[x], version, now)]) == TopologyOf(m)
  {
    hide TopologyOk, TopologyOf;
    TopologyKept(m, x, Refreshed(m[x], version, now));
  }

  lemma RefreshKeepsTyped(m: map<string, StoredObject>, x: string, t: Topology, version: string, now: int)
    requires EnvelopesOk(m) && AllTyped(m, t) && x in m && Refreshable(m[x], version, now)
    ensures var m' := m[x := Refreshed(m[x], version, now)]; EnvelopesOk(m') && AllTyped(m', t)
  {
    hide TypedOk, MetadataOk, ValidToken;
    TypedRefreshed(m[x], t, version, now);
    MetadataRefreshed(m[x].meta, version, now);
  }

  lemma RefreshKeepsRoles(m: map<string, StoredObject>, x: string, t: Topology, version: string, now: int)
    requires RolesOk(Extract(m, ReadRole), t) && x in m && Refreshable(m[x], version, now)
    ensures RolesOk(Extract(m[x := Refreshed(m[x], version, now)], ReadRole), t)
  {
    hide Extract, RolesOk, ValidToken;
    ExtractRoles(m, x, version, now);
    if x in Extract(m, ReadRole) {
      ExtractRoleMeta(m, x);
      RolesRefreshed(Extract(m, ReadRole), t, x, version, now);
    }
  }

  lemma NetworkSame(m: map<string, StoredObject>, x: string, version: string, now: int)
    requires x in m
    ensures var m' := m[x := Refreshed(m[x], version, now)];
      Extract(m', ReadNetworkZone) == Extract(m, ReadNetworkZone) && Extract(m', ReadInterface) == Extract(m, ReadInterface)
  {
    hide Extract;
    ExtractSame(m, x, Refreshed(m[x], version, now), ReadNetworkZone);
    ExtractSame(m, x, Refreshed(m[x], version, now), ReadInterface);
  }

  lemma RefreshKeepsSnapshot(m: map<string, StoredObject>, x: string, version: string, now: int)
    requires SnapshotOk(m) && x in m && Refreshable(m[x], version, now)
    ensures SnapshotOk(m[x := Refreshed(m[x], version, now)])
  {
    hide Extract, TopologyOf, TopologyOk, RolesOk, NetworkOk, EnvelopesOk, AllTyped, BoundIn, Refreshable, Refreshed;
    NetworkSame(m, x, version, now);
    TopologySame(m, x, version, now);
    RefreshKeepsTyped(m, x, TopologyOf(m), version, now);
    RefreshKeepsRoles(m, x, TopologyOf(m), version, now);
    BoundSameIn(m, x, version, now);
  }

  lemma ExtractRoleMeta(m: map<string, StoredObject>, x: string)
    requires x in Extract(m, ReadRole)
    ensures Extract(m, ReadRole)[x].meta == m[x].meta
  {
  }

  // ---- the request is admitted ----

  lemma RefreshSuccessor(m: map<string, StoredObject>, x: string, version: string, now: int)
    requires x in m && m[x].meta.objectId == x
    ensures Successor(m, RefreshRequest(m[x]), now, version) == Refreshed(m[x], version, now)
    ensures !DesiredChanged(m[x], RefreshRequest(m[x]))
  {
  }

  lemma RefreshTyped(o: StoredObject, t: Topology, version: string, now: int)
    requires TypedOk(o, t) && MetadataOk(o.meta) && Refreshable(o, version, now)
    ensures TypedSuccessorOk(o, Refreshed(o, version, now), t)
    ensures Succeeds(o.meta, Refreshed(o, version, now).meta, false)
  {
    hide MetadataOk, ValidToken, Inside, Authorized, RoleOk, LocatedOk, DesiredOk, ObservationOk, ScopeObjectOk;
    MetadataRefreshed(o.meta, version, now);
    if o.objectType == RoleObject {
      RoleStaysOk(ReadRole(o).value, t, version, now);
      assert ReadRole(Refreshed(o, version, now)).value == RoleRefreshed(ReadRole(o).value, version, now);
    }
  }

  lemma RefreshGuarded(o: StoredObject)
    requires MetadataOk(o.meta)
    ensures Guarded(o, RefreshRequest(o))
  {
    hide ValidToken, ValidIdentifier;
  }

  // Whatever the object, submitting it again under its current version works.
  lemma RefreshIsAdmitted(m: map<string, StoredObject>, x: string, version: string, now: int)
    requires SnapshotOk(m) && x in m && Refreshable(m[x], version, now)
    ensures AdmittedTo(m, RefreshRequest(m[x]), now, version)
    ensures Updated(m, RefreshRequest(m[x]), now, version) == m[x := Refreshed(m[x], version, now)]
  {
    hide Extract, TopologyOf, TopologyOk, RolesOk, NetworkOk, TypedOk, BoundIn, MetadataOk, Guarded, TypedSuccessorOk, Succeeds, Refreshed,
         DesiredChanged, NextObject;
    RefreshKeepsSnapshot(m, x, version, now);
    RefreshSuccessor(m, x, version, now);
    TopologySame(m, x, version, now);
    RefreshTyped(m[x], TopologyOf(m), version, now);
    RefreshGuarded(m[x]);
  }

  // ---- a reused version loses an update ----

  function Refresh(o: StoredObject, key: string, now: int, version: string): Call {
    Call(RefreshRequest(o), key, now, Some(version))
  }

  // Three refreshes of x: to version a, back to its first version, then on.
  function BackAndForth(o: StoredObject, a: string, b: string, now: int, k1: string, k2: string, k3: string): seq<Call> {
    var first := o.meta.resourceVersion;
    var second := Refreshed(o, a, now);
    var third := Refreshed(second, first, now);
    [Refresh(o, k1, now, a), Refresh(second, k2, now, first), Refresh(third, k3, now, b)]
  }

  lemma RefreshCommits(s: Store, x: string, key: string, version: string, now: int)
    requires SnapshotOk(s.objects) && x in s.objects && Refreshable(s.objects[x], version, now)
    requires ValidToken(key) && key !in s.receipts
    ensures var c := Refresh(s.objects[x], key, now, version);
      && Commits(s, c) && Step(s, c).objects == s.objects[x := Refreshed(s.objects[x], version, now)]
      && Step(s, c).receipts.Keys == s.receipts.Keys + {key} && SnapshotOk(Step(s, c).objects) && c.request.objectId == x
  {
    hide SnapshotOk, AdmittedTo, ValidToken, Updated;
    RefreshIsAdmitted(s.objects, x, version, now);
    AdmittedValid(s.objects, RefreshRequest(s.objects[x]), now, version);
    SnapshotDocument(s.objects, x);
  }

  lemma SnapshotDocument(m: map<string, StoredObject>, x: string)
    requires SnapshotOk(m) && x in m
    ensures m[x].document.JsonObject? && m[x].meta.objectId == x
  {
    hide MetadataOk, TopologyOf, TopologyOk, RolesOk, NetworkOk, AllTyped, BoundIn, Extract;
  }

  // The tokens a, first and b are pairwise different, so the generator never
  // repeats itself, and still two replacements are guarded by one version:
  // the second of them overwrites what it never read.
  lemma ReusedVersionLosesUpdate(s: Store, x: string, a: string, b: string, now: int, k1: string, k2: string, k3: string)
    requires SnapshotOk(s.objects) && x in s.objects
    requires var first := s.objects[x].meta.resourceVersion;
      Refreshable(s.objects[x], a, now) && ValidToken(b) && ValidToken(first) && b != first && b != a
    requires ValidToken(k1) && ValidToken(k2) && ValidToken(k3) && k1 != k2 && k1 != k3 && k2 != k3
    requires k1 !in s.receipts && k2 !in s.receipts && k3 !in s.receipts
    ensures var calls := BackAndForth(s.objects[x], a, b, now, k1, k2, k3);
      var first := s.objects[x].meta.resourceVersion;
      && (forall i, j | 0 <= i < j < |calls| :: calls[i].token != calls[j].token)
      && ReplacesFrom(s, calls, 0, x, first) && ReplacesFrom(s, calls, 2, x, first)
  {
    hide SnapshotOk, Commits, Step, ValidToken;
    var first := s.objects[x].meta.resourceVersion;
    var calls := BackAndForth(s.objects[x], a, b, now, k1, k2, k3);
    assert calls[..0] == [];
    RefreshCommits(s, x, k1, a, now);
    AtNext(s, calls, 0);
    var s1 := At(s, calls, 1);
    RefreshCommits(s1, x, k2, first, now);
    AtNext(s, calls, 1);
    var s2 := At(s, calls, 2);
    RefreshCommits(s2, x, k3, b, now);
  }

  // ---- every reissued version does ----

  // x had version v at k and another one at n, so some call in between
  // replaced it under v.
  lemma {:induction false} ReplacedBetween(s: Store, calls: seq<Call>, k: nat, n: nat, x: string, v: string) returns (j: nat)
    requires k <= n <= |calls| && x in At(s, calls, k).objects && At(s, calls, k).objects[x].meta.resourceVersion == v
    requires x in At(s, calls, n).objects && At(s, calls, n).objects[x].meta.resourceVersion != v
    ensures k <= j < n && ReplacesFrom(s, calls, j, x, v)
    decreases n
  {
    hide At, Commits, Step;
    StaysFrom(s, calls, k, n - 1, x);
    AtNext(s, calls, n - 1);
    var before := At(s, calls, n - 1);
    if before.objects[x].meta.resourceVersion == v {
      StepVersion(before, calls[n - 1], x);
      CommittedGuard(before, calls[n - 1], x);
      j := n - 1;
    } else {
      j := ReplacedBetween(s, calls, k, n - 1, x, v);
    }
  }

  lemma {:induction false} StaysFrom(s: Store, calls: seq<Call>, k: nat, n: nat, x: string)
    requires k <= n <= |calls| && x in At(s, calls, k).objects
    ensures x in At(s, calls, n).objects
    decreases n
  {
    hide At, Step;
    if k < n {
      StaysFrom(s, calls, k, n - 1, x);
      AtNext(s, calls, n - 1);
      ObjectsStay(At(s, calls, n - 1), calls[n - 1], x);
    }
  }

  lemma CommittedGuard(s: Store, c: Call, x: string)
    requires Commits(s, c) && c.request.objectId == x && x in s.objects
    ensures c.request.operation == Replace && c.request.precondition.Some?
    ensures c.request.precondition.value.resourceVersion == s.objects[x].meta.resourceVersion
    ensures c.token != Some(s.objects[x].meta.resourceVersion)
  {
    hide SnapshotOk, TopologyOf, TypedSuccessorOk, ValidToken, ValidIdentifier, MetadataOk, DesiredChanged, NextObject;
    SuccessorId(Current(s.objects, x), c.request, c.now, c.token.value);
  }

  lemma SamePrefix(s: Store, calls: seq<Call>, more: seq<Call>, n: nat)
    requires n <= |calls|
    ensures At(s, calls + more, n) == At(s, calls, n)
  {
    assert (calls + more)[..n] == calls[..n];
  }

  // As soon as a version is reissued, one more call, a plain resubmission,
  // makes a pair of replacements guarded by the same version.
  lemma ReissuedVersionLosesUpdate(s: Store, calls: seq<Call>, x: string, key: string, version: string, now: int) returns (j: nat, v: string)
    requires calls != [] && SnapshotOk(s.objects) && Reissues(s, calls, |calls| - 1, x)
    requires var end := After(s, calls);
      x in end.objects && Refreshable(end.objects[x], version, now) && ValidToken(key) && key !in end.receipts
    ensures var run := calls + [Refresh(After(s, calls).objects[x], key, now, version)];
      j < |calls| && ReplacesFrom(s, run, j, x, v) && ReplacesFrom(s, run, |calls|, x, v)
  {
    hide SnapshotOk, Commits, Step, ValidToken;
    var i := |calls| - 1;
    var end := After(s, calls);
    assert calls[..|calls|] == calls;
    var k: nat :| k <= i && x in At(s, calls, k).objects && calls[i].token == Some(At(s, calls, k).objects[x].meta.resourceVersion);
    v := calls[i].token.value;
    StaysFrom(s, calls, k, i, x);
    CommittedGuard(At(s, calls, i), calls[i], x);
    j := ReplacedBetween(s, calls, k, i, x, v);
    AtNext(s, calls, i);
    CommitVersion(At(s, calls, i), calls[i]);
    RunKeepsValid(s, calls, |calls|);
    var more := Refresh(end.objects[x], key, now, version);
    RefreshCommits(end, x, key, version, now);
    SamePrefix(s, calls, [more], j);
    SamePrefix(s, calls, [more], |calls|);
  }
}
