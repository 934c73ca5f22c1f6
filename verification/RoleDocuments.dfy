// When a stored role assignment can be replaced: the store counts a document
// as changed by its JSON value, the role rule by where the assignment points,
// and both have to agree.
module RoleDocuments {
  import opened Bootstrap
  import opened Metadata
  import opened Mutations
  import opened NetworkContracts
  import opened Objects
  import opened Options
  import opened Repository
  import opened Roles
  import opened Topologies
  import opened VersionReuse

  ghost predicate SameRole(a: StoredObject, b: StoredObject) {
    && ReadRole(a).Some? && ReadRole(b).Some?
    && ReadRole(a).value.role == ReadRole(b).value.role && ReadRole(a).value.serviceIdentityId == ReadRole(b).value.serviceIdentityId
  }

  // Every rule for replacing a role assignment but the one on generations.
  ghost predicate RoleRulesMet(m: map<string, StoredObject>, r: MutationRequest, now: int, version: string)
    requires r.objectId in m
  {
    var current := m[r.objectId];
    && RequestOk(r, now) && Guarded(current, r) && SameRole(current, Successor(m, r, now, version))
    && version != current.meta.resourceVersion && current.meta.updatedAt <= now
    && SnapshotOk(Updated(m, r, now, version))
  }

  // The store sees new intent exactly if the role rule sees a move.
  ghost predicate CountsAgree(m: map<string, StoredObject>, r: MutationRequest, now: int, version: string)
    requires r.objectId in m
  {
    var current, next := m[r.objectId], Successor(m, r, now, version);
    SameRole(current, next) && (DesiredChanged(current, r) <==> Moved(ReadRole(current).value, ReadRole(next).value))
  }

  lemma SnapshotRole(m: map<string, StoredObject>, x: string)
    requires SnapshotOk(m) && x in m && m[x].objectType == RoleObject
    ensures TopologyOk(TopologyOf(m)) && MetadataOk(m[x].meta) && m[x].meta.objectId == x
    ensures ReadRole(m[x]).Some? && RoleOk(ReadRole(m[x]).value, TopologyOf(m))
  {
    hide MetadataOk, TopologyOk, TopologyOf, RolesOk, NetworkOk, RoleOk, Extract, BoundIn;
    assert TypedOk(m[x], TopologyOf(m));
  }

  lemma SuccessorFields(m: map<string, StoredObject>, r: MutationRequest, now: int, version: string)
    requires r.objectId in m && r.operation == Replace
    ensures var c, n := m[r.objectId], Successor(m, r, now, version);
      && n.objectType == r.objectType && n.document == r.document && n.meta.objectId == r.objectId && n.meta.scopeId == r.scopeId
      && n.meta.ownerScope == r.ownerScope && n.meta.resourceVersion == version && n.meta.createdAt == c.meta.createdAt && n.meta.updatedAt == now
      && n.meta.generation == if DesiredChanged(c, r) then Increment(c.meta.generation) else c.meta.generation
  {
    hide DesiredChanged, Increment;
  }

  lemma SucceedsBy(a: ObjectMetadata, b: ObjectMetadata, changed: bool)
    requires MetadataOk(a) && MetadataOk(b) && a.objectId == b.objectId && a.createdAt == b.createdAt && a.updatedAt <= b.updatedAt
    requires a.resourceVersion != b.resourceVersion && (changed || (a.scopeId == b.scopeId && a.ownerScope == b.ownerScope))
    requires b.generation == if changed then Increment(a.generation) else a.generation
    ensures Succeeds(a, b, changed)
  {
    assert b.generation != 0;
    hide ValidIdentifier, ValidToken;
  }

  // A replacement that meets the other rules is admitted exactly if the two
  // counts agree.
  lemma RoleReplacementExactly(m: map<string, StoredObject>, r: MutationRequest, now: int, version: string)
    requires SnapshotOk(m) && r.objectId in m && r.operation == Replace && r.objectType == RoleObject
    ensures AdmittedTo(m, r, now, version) <==> RoleRulesMet(m, r, now, version) && CountsAgree(m, r, now, version)
  {
    hide SnapshotOk, Successor, DesiredChanged, Moved, RequestOk, Succeeds, RoleOk, TopologyOf, Guards, MetadataOk;
    if AdmittedTo(m, r, now, version) {
      AdmittedRoleAgrees(m, r, now, version);
    }
    if RoleRulesMet(m, r, now, version) && CountsAgree(m, r, now, version) {
      AgreeingRoleIsAdmitted(m, r, now, version);
    }
  }

  lemma AdmittedRoleAgrees(m: map<string, StoredObject>, r: MutationRequest, now: int, version: string)
    requires AdmittedTo(m, r, now, version) && r.operation == Replace && r.objectType == RoleObject
    ensures r.objectId in m && RoleRulesMet(m, r, now, version) && CountsAgree(m, r, now, version)
  {
    hide SnapshotOk, RequestOk, TopologyOf, Guards, RoleOk, Succeeds, DesiredChanged, Moved, Successor;
    SuccessorFields(m, r, now, version);
    var current, next := m[r.objectId], Successor(m, r, now, version);
    GenerationMoves(current.meta, next.meta, DesiredChanged(current, r));
    GenerationMoves(current.meta, next.meta, Moved(ReadRole(current).value, ReadRole(next).value));
    VersionMoves(current.meta, next.meta, DesiredChanged(current, r));
  }

  lemma VersionMoves(a: ObjectMetadata, b: ObjectMetadata, changed: bool)
    requires Succeeds(a, b, changed)
    ensures a.resourceVersion != b.resourceVersion
  {
    hide MetadataOk;
  }

  lemma AgreeingRoleIsAdmitted(m: map<string, StoredObject>, r: MutationRequest, now: int, version: string)
    requires SnapshotOk(m) && r.objectId in m && r.operation == Replace && r.objectType == RoleObject
    requires RoleRulesMet(m, r, now, version) && CountsAgree(m, r, now, version)
    ensures AdmittedTo(m, r, now, version)
  {
    hide SnapshotOk, RequestOk, TopologyOf, TopologyOk, Guards, RoleOk, Succeeds, Moved, Successor, MetadataOk, Increment, NextObject;
    var x, m' := r.objectId, Updated(m, r, now, version);
    var current, next := m[x], Successor(m, r, now, version);
    SuccessorFields(m, r, now, version);
    SnapshotRole(m, x);
    SnapshotRole(m', x);
    TopologyKept(m, x, next);
    SucceedsBy(current.meta, next.meta, DesiredChanged(current, r));
  }

  // ---- the same document in another spelling ----

  function Respelled(o: StoredObject, d: Document): MutationRequest {
    RefreshRequest(o).(document := d)
  }

  // A document that reads like the stored one replaces it exactly if it is
  // the same JSON value.
  lemma RespelledRoleExactly(m: map<string, StoredObject>, x: string, d: Document, version: string, now: int)
    requires SnapshotOk(m) && x in m && m[x].objectType == RoleObject && Refreshable(m[x], version, now)
    requires d.JsonObject? && m[x].document.JsonObject? && d.readings == m[x].document.readings
    ensures AdmittedTo(m, Respelled(m[x], d), now, version) <==> d.value == m[x].document.value
  {
    hide SnapshotOk, AdmittedTo, Refreshable, RoleRulesMet;
    SnapshotDocument(m, x);
    var r := Respelled(m[x], d);
    if d.value == m[x].document.value {
      assert r == RefreshRequest(m[x]);
      RefreshIsAdmitted(m, x, version, now);
    } else if AdmittedTo(m, r, now, version) {
      RoleReplacementExactly(m, r, now, version);
      RespelledDoesNotMove(m, x, d, version, now);
    }
  }

  lemma RespelledDoesNotMove(m: map<string, StoredObject>, x: string, d: Document, version: string, now: int)
    requires x in m && m[x].meta.objectId == x && m[x].objectType == RoleObject
    requires d.JsonObject? && m[x].document.JsonObject? && d.readings == m[x].document.readings && d.value != m[x].document.value
    ensures !CountsAgree(m, Respelled(m[x], d), now, version)
  {
    hide Increment;
    SuccessorFields(m, Respelled(m[x], d), now, version);
    hide Successor;
  }

  // ---- a store in which it happens ----

  const ROLE_ID := "worker"

  const ROLE_DOCUMENT := RoleDocument("node", "service", "worker-node", "", "")

  predicate ReadsRole(d: Document) {
    d.JsonObject? && d.readings.role == Some(ROLE_DOCUMENT)
  }

  function CreateRole(d: Document): MutationRequest {
    MutationRequest(Create, RoleObject, ROLE_ID, GLOBAL, GLOBAL, d, None)
  }

  function WorkerRole(d: Document, now: int, version: string): StoredObject {
    StoredObject(ObjectMetadata(ROLE_ID, GLOBAL, GLOBAL, 1, version, now, now), RoleObject, d)
  }

  lemma RoleNamesOk()
    ensures ValidIdentifier(ROLE_ID) && ValidIdentifier("node") && ValidIdentifier("service") && ValidRole("worker-node")
  {
  }

  lemma WorkerExtracts(createdAt: int, scope: Document, role: Document, now: int, version: string)
    requires ReadsGlobalScope(scope) && ReadsRole(role)
    ensures var m := WorkerObjects(createdAt, scope, role, now, version);
      && Extract(m, ReadScope) == map[GLOBAL := GLOBAL_SCOPE]
      && Extract(m, ReadSite) == map[] && Extract(m, ReadZone) == map[]
      && Extract(m, ReadRole) == map[ROLE_ID := RoleFrom(WorkerRole(role, now, version).meta, ROLE_DOCUMENT)]
      && Extract(m, ReadNetworkZone) == map[] && Extract(m, ReadInterface) == map[]
  {
    var m := WorkerObjects(createdAt, scope, role, now, version);
    assert m.Keys == {GLOBAL, ROLE_ID};
  }

  lemma WorkerRoleOk(t: Topology, now: int, version: string, role: Document)
    requires t.scopes == map[GLOBAL := GLOBAL_SCOPE] && t.rootId == GLOBAL && now != 0 && ValidToken(version)
    ensures MetadataOk(WorkerRole(role, now, version).meta)
    ensures RoleOk(RoleFrom(WorkerRole(role, now, version).meta, ROLE_DOCUMENT), t)
  {
    LegacyNamesOk();
    RoleNamesOk();
    WithinReflexive(t.scopes, GLOBAL);
    hide ValidIdentifier, ValidToken, ValidRole, Within;
  }

  function WorkerObjects(createdAt: int, scope: Document, role: Document, now: int, version: string): map<string, StoredObject> {
    LegacyObjects(createdAt, scope)[ROLE_ID := WorkerRole(role, now, version)]
  }

  lemma WorkerTopology(createdAt: int, scope: Document, role: Document, now: int, version: string)
    requires ReadsGlobalScope(scope) && ReadsRole(role)
    ensures var t := TopologyOf(WorkerObjects(createdAt, scope, role, now, version));
      t == Topology(GLOBAL, map[GLOBAL := GLOBAL_SCOPE], map[], map[]) && TopologyOk(t)
  {
    var m := WorkerObjects(createdAt, scope, role, now, version);
    WorkerExtracts(createdAt, scope, role, now, version);
    hide Extract, TreeOk, RootOf;
    LegacyTree(Extract(m, ReadScope));
    RootOfTree(m, GLOBAL);
  }

  lemma WorkerTyped(createdAt: int, scope: Document, role: Document, now: int, version: string, t: Topology)
    requires createdAt != 0 && now != 0 && ReadsGlobalScope(scope) && ReadsRole(role) && ValidToken(version)
    requires t == Topology(GLOBAL, map[GLOBAL := GLOBAL_SCOPE], map[], map[])
    ensures var m := WorkerObjects(createdAt, scope, role, now, version); EnvelopesOk(m) && AllTyped(m, t)
  {
    hide ValidIdentifier, ValidToken, RoleOk, MetadataOk, TypedOk;
    GlobalTyped(createdAt, scope, t);
    WorkerRoleOk(t, now, version, role);
    RoleTyped(WorkerRole(role, now, version), t);
  }

  lemma GlobalTyped(createdAt: int, scope: Document, t: Topology)
    requires createdAt != 0 && ReadsGlobalScope(scope)
    ensures MetadataOk(LegacyGlobalScope(createdAt, scope).meta) && TypedOk(LegacyGlobalScope(createdAt, scope), t)
  {
    LegacyNamesOk();
    hide ValidIdentifier, ValidToken, ValidDisplayName;
  }

  lemma RoleTyped(o: StoredObject, t: Topology)
    requires o.objectType == RoleObject && ReadsRole(o.document) && RoleOk(RoleFrom(o.meta, ROLE_DOCUMENT), t)
    ensures TypedOk(o, t)
  {
    hide RoleOk;
  }

  lemma WorkerAlone(createdAt: int, scope: Document, role: Document, now: int, version: string, t: Topology)
    requires now != 0 && ReadsGlobalScope(scope) && ReadsRole(role) && ValidToken(version)
    requires t == Topology(GLOBAL, map[GLOBAL := GLOBAL_SCOPE], map[], map[])
    ensures RolesOk(Extract(WorkerObjects(createdAt, scope, role, now, version), ReadRole), t)
  {
    WorkerExtracts(createdAt, scope, role, now, version);
    WorkerRoleOk(t, now, version, role);
    hide ValidToken, RoleOk, Extract, Compatible;
  }

  lemma WorkerNetwork(createdAt: int, scope: Document, role: Document, now: int, version: string, bound: set<(string, string)>, t: Topology)
    requires ReadsGlobalScope(scope) && ReadsRole(role)
    ensures var m := WorkerObjects(createdAt, scope, role, now, version);
      NetworkOk(Extract(m, ReadNetworkZone), Extract(m, ReadInterface), bound, t)
  {
    WorkerExtracts(createdAt, scope, role, now, version);
    hide Extract, NetworkOk;
    NoNetwork(bound, t);
  }

  lemma WorkerSnapshotIsValid(createdAt: int, scope: Document, role: Document, now: int, version: string)
    requires createdAt != 0 && now != 0 && ReadsGlobalScope(scope) && ReadsRole(role) && ValidToken(version)
    ensures SnapshotOk(WorkerObjects(createdAt, scope, role, now, version))
  {
    hide *;
    var m := WorkerObjects(createdAt, scope, role, now, version);
    var t := TopologyOf(m);
    WorkerTopology(createdAt, scope, role, now, version);
    WorkerTyped(createdAt, scope, role, now, version, t);
    WorkerAlone(createdAt, scope, role, now, version, t);
    WorkerNetwork(createdAt, scope, role, now, version, BoundIn(m), t);
    SnapshotFrom(m);
  }

  lemma SnapshotFrom(m: map<string, StoredObject>)
    requires EnvelopesOk(m) && TopologyOk(TopologyOf(m)) && AllTyped(m, TopologyOf(m)) && RolesOk(Extract(m, ReadRole), TopologyOf(m))
    requires NetworkOk(Extract(m, ReadNetworkZone), Extract(m, ReadInterface), BoundIn(m), TopologyOf(m))
    ensures SnapshotOk(m)
  {
    hide EnvelopesOk, TopologyOk, TopologyOf, AllTyped, RolesOk, NetworkOk, Extract, BoundIn;
  }

  lemma WorkerIsCreated(createdAt: int, scope: Document, role: Document, now: int, version: string)
    ensures Updated(LegacyObjects(createdAt, scope), CreateRole(role), now, version) == WorkerObjects(createdAt, scope, role, now, version)
    ensures ROLE_ID !in LegacyObjects(createdAt, scope)
    ensures WorkerObjects(createdAt, scope, role, now, version)[ROLE_ID] == WorkerRole(role, now, version)
  {
  }

  // From the bootstrap store a worker role can be created.
  lemma WorkerIsAdmitted(createdAt: int, scope: Document, role: Document, now: int, version: string)
    requires createdAt != 0 && now != 0 && ReadsGlobalScope(scope) && ReadsRole(role) && ValidToken(version)
    ensures AdmittedTo(LegacyObjects(createdAt, scope), CreateRole(role), now, version)
  {
    hide SnapshotOk, ValidToken, Replaceable, TopologyOf, Updated, LegacyObjects;
    WorkerIsCreated(createdAt, scope, role, now, version);
    WorkerSnapshotIsValid(createdAt, scope, role, now, version);
  }

  // After that, the very same role in another spelling of its document is
  // refused under every fresh version, while the stored spelling is accepted.
  lemma RespelledRoleIsRefused(createdAt: int, scope: Document, role: Document, now: int, version: string, value: nat, next: string, later: int)
    requires createdAt != 0 && now != 0 && ReadsGlobalScope(scope) && ReadsRole(role) && ValidToken(version)
    requires value != role.value && now <= later && later != 0 && ValidToken(next) && next != version
    ensures var m := Updated(LegacyObjects(createdAt, scope), CreateRole(role), now, version);
      && SnapshotOk(m) && ROLE_ID in m
      && AdmittedTo(m, Respelled(m[ROLE_ID], role), later, next)
      && !AdmittedTo(m, Respelled(m[ROLE_ID], role.(value := value)), later, next)
  {
    hide SnapshotOk, ValidToken, AdmittedTo, Updated, LegacyObjects, Respelled, WorkerObjects;
    WorkerIsCreated(createdAt, scope, role, now, version);
    WorkerSnapshotIsValid(createdAt, scope, role, now, version);
    var m := WorkerObjects(createdAt, scope, role, now, version);
    WorkerStored(createdAt, scope, role, now, version);
    RespelledRoleExactly(m, ROLE_ID, role, next, later);
    RespelledRoleExactly(m, ROLE_ID, role.(value := value), next, later);
  }

  lemma WorkerStored(createdAt: int, scope: Document, role: Document, now: int, version: string)
    ensures ROLE_ID in WorkerObjects(createdAt, scope, role, now, version)
  {
  }
}
