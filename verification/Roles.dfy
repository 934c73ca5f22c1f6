// Role assignments: where a role may be placed, and that controllers and
// control-plane scopes correspond one to one.
module Roles {
  import opened Indexing
  import opened Metadata
  import opened Sorting
  import opened Text
  import opened Topologies

  const GLOBAL_CONTROLLER := "global-controller"
  const SITE_CONTROLLER := "site-controller"
  const CLUSTER_MEMBER := "controller-cluster-member"
  const EDGE_GATEWAY := "edge-gateway"

  predicate ValidRole(role: string) {
    || role == GLOBAL_CONTROLLER || role == SITE_CONTROLLER || role == CLUSTER_MEMBER || role == EDGE_GATEWAY
    || role in ["management-node", "worker-node", "managed-node", "agent", "data-node", "consensus-node", "repository-node",
                "telemetry-node", "backup-repository-node"]
  }

  datatype RoleAssignment = RoleAssignment(
    meta: ObjectMetadata, targetNodeId: string, serviceIdentityId: string, role: string, siteId: string, managementZoneId: string)

  function AssignmentId(a: RoleAssignment): string {
    a.meta.objectId
  }

  ghost predicate Inside(t: Topology, ancestor: string, descendant: string) {
    ancestor in t.scopes && descendant in t.scopes && Within(t.scopes, ancestor, descendant)
  }

  // The owner may act: it is the root or was granted the authority itself.
  predicate Authorized(t: Topology, owner: string, authority: Authority) {
    owner == t.rootId || Delegated(t, owner, authority)
  }

  // What the role itself demands of scope and site.
  predicate PlacementAllowed(a: RoleAssignment, kind: ScopeKind, atSiteScope: bool) {
    if a.role == GLOBAL_CONTROLLER then kind == Global && a.siteId == ""
    else if a.role == SITE_CONTROLLER then a.siteId != "" && kind == SiteScope && atSiteScope
    else if a.role == CLUSTER_MEMBER then
      (kind == Global && a.siteId == "") || (kind == SiteScope && a.siteId != "" && atSiteScope)
    else a.role == EDGE_GATEWAY ==> a.siteId != ""
  }

  ghost predicate SiteAgrees(a: RoleAssignment, t: Topology) {
    a.siteId != "" ==> a.siteId in t.sites && Inside(t, t.sites[a.siteId].scopeId, a.meta.scopeId)
  }

  ghost predicate ZoneAgrees(a: RoleAssignment, t: Topology) {
    a.managementZoneId != "" ==>
      && a.managementZoneId in t.zones
      && var z := t.zones[a.managementZoneId];
         Inside(t, z.scopeId, a.meta.scopeId) && (a.siteId != "" && z.siteId != "" ==> z.siteId == a.siteId)
  }

  predicate AtSiteScope(a: RoleAssignment, t: Topology) {
    a.siteId in t.sites && t.sites[a.siteId].scopeId == a.meta.scopeId
  }

  predicate AssignmentSyntaxOk(a: RoleAssignment) {
    MetadataOk(a.meta) && ValidIdentifier(a.targetNodeId) && ValidIdentifier(a.serviceIdentityId) && ValidRole(a.role)
  }

  ghost predicate RoleOk(a: RoleAssignment, t: Topology) {
    && AssignmentSyntaxOk(a)
    && Inside(t, a.meta.ownerScope, a.meta.scopeId) && Authorized(t, a.meta.ownerScope, DelegateDesiredState)
    && SiteAgrees(a, t) && PlacementAllowed(a, t.scopes[a.meta.scopeId].kind, AtSiteScope(a, t)) && ZoneAgrees(a, t)
  }

  method ValidateRoleAssignment(a: RoleAssignment, t: Topology) returns (ok: bool)
    requires TreeOk(t.scopes, t.rootId)
    ensures ok <==> RoleOk(a, t)
  {
    hide TreeOk, Within, AssignmentSyntaxOk, PlacementAllowed, Authorized;
    if !AssignmentSyntaxOk(a) || a.meta.scopeId !in t.scopes {
      return false;
    }
    var owned := Contains(t, a.meta.ownerScope, a.meta.scopeId);
    if !owned || !Authorized(t, a.meta.ownerScope, DelegateDesiredState) {
      return false;
    }
    if a.siteId != "" {
      if a.siteId !in t.sites {
        return false;
      }
      var inside := Contains(t, t.sites[a.siteId].scopeId, a.meta.scopeId);
      if !inside {
        return false;
      }
    }
    if !PlacementAllowed(a, t.scopes[a.meta.scopeId].kind, AtSiteScope(a, t)) {
      return false;
    }
    if a.managementZoneId != "" {
      if a.managementZoneId !in t.zones {
        return false;
      }
      var z := t.zones[a.managementZoneId];
      var inside := Contains(t, z.scopeId, a.meta.scopeId);
      if !inside || (a.siteId != "" && z.siteId != "" && z.siteId != a.siteId) {
        return false;
      }
    }
    return true;
  }

  // A replacement keeps role and service identity, and its generation moves
  // exactly if the placement does.
  ghost predicate RoleSuccessorOk(current: RoleAssignment, next: RoleAssignment, t: Topology) {
    && RoleOk(current, t) && RoleOk(next, t)
    && current.role == next.role && current.serviceIdentityId == next.serviceIdentityId
    && Succeeds(current.meta, next.meta, Moved(current, next))
  }

  predicate Moved(current: RoleAssignment, next: RoleAssignment) {
    || current.targetNodeId != next.targetNodeId || current.meta.scopeId != next.meta.scopeId
    || current.meta.ownerScope != next.meta.ownerScope || current.siteId != next.siteId
    || current.managementZoneId != next.managementZoneId
  }

  method ValidateRoleAssignmentSuccessor(current: RoleAssignment, next: RoleAssignment, t: Topology) returns (ok: bool)
    requires TreeOk(t.scopes, t.rootId)
    ensures ok <==> RoleSuccessorOk(current, next, t)
  {
    hide TreeOk, RoleOk, Succeeds, Moved;
    var before := ValidateRoleAssignment(current, t);
    if !before {
      return false;
    }
    var after := ValidateRoleAssignment(next, t);
    if !after || current.role != next.role || current.serviceIdentityId != next.serviceIdentityId {
      return false;
    }
    return Succeeds(current.meta, next.meta, Moved(current, next));
  }

  // ---- a complete set ----

  predicate IsController(a: RoleAssignment) {
    a.role == GLOBAL_CONTROLLER || a.role == SITE_CONTROLLER || a.role == CLUSTER_MEMBER
  }

  function BindingKey(a: RoleAssignment): string {
    NulJoin(a.targetNodeId, NulJoin(a.role, a.serviceIdentityId))
  }

  // The joined key stands for node, role and service identity together.
  lemma BindingKeyMeaning(a: RoleAssignment, b: RoleAssignment)
    requires AssignmentSyntaxOk(a) && AssignmentSyntaxOk(b)
    ensures BindingKey(a) == BindingKey(b) <==>
            a.targetNodeId == b.targetNodeId && a.role == b.role && a.serviceIdentityId == b.serviceIdentityId
  {
    hide MetadataOk, ValidRole, ValidIdentifier;
    IdentifierHoldsNoNul(a.targetNodeId);
    IdentifierHoldsNoNul(b.targetNodeId);
    RoleHoldsNoNul(a.role);
    RoleHoldsNoNul(b.role);
    NulJoinInjective(a.role, a.serviceIdentityId, b.role, b.serviceIdentityId);
    NulJoinInjective(a.targetNodeId, NulJoin(a.role, a.serviceIdentityId), b.targetNodeId, NulJoin(b.role, b.serviceIdentityId));
  }

  lemma RoleHoldsNoNul(role: string)
    requires ValidRole(role)
    ensures NUL !in role
  {
  }

  // Two assignments can stand side by side: different bindings, and for two
  // controllers the same scope exactly with the same service identity.
  predicate Compatible(a: RoleAssignment, b: RoleAssignment) {
    && BindingKey(a) != BindingKey(b)
    && (IsController(a) && IsController(b) ==> (a.meta.scopeId == b.meta.scopeId <==> a.serviceIdentityId == b.serviceIdentityId))
  }

  ghost predicate RolesOk(m: map<string, RoleAssignment>, t: Topology) {
    && (forall id | id in m :: RoleOk(m[id], t) && AssignmentId(m[id]) == id)
    && forall a, b | a in m && b in m && a != b :: Compatible(m[a], m[b])
  }

  // One control plane per scope and one scope per control plane.
  lemma ControlPlanesOneToOne(m: map<string, RoleAssignment>, t: Topology, a: string, b: string)
    requires RolesOk(m, t) && a in m && b in m && IsController(m[a]) && IsController(m[b])
    ensures m[a].meta.scopeId == m[b].meta.scopeId <==> m[a].serviceIdentityId == m[b].serviceIdentityId
  {
    hide RoleOk, BindingKey, IsController;
    assert a != b ==> Compatible(m[a], m[b]);
  }

  function ScopeOf(a: RoleAssignment): string {
    a.meta.scopeId
  }

  function IdentityOf(a: RoleAssignment): string {
    a.serviceIdentityId
  }

  // The table maps each controller's key to its value and holds nothing else.
  ghost predicate Charted(s: seq<RoleAssignment>, n: nat, table: map<string, string>, key: RoleAssignment -> string, value: RoleAssignment -> string)
    requires n <= |s|
  {
    && (forall i | 0 <= i < n && IsController(s[i]) :: key(s[i]) in table && table[key(s[i])] == value(s[i]))
    && (forall k | k in table :: exists i | 0 <= i < n :: IsController(s[i]) && key(s[i]) == k && value(s[i]) == table[k])
  }

  lemma ChartedStep(s: seq<RoleAssignment>, n: nat, table: map<string, string>, key: RoleAssignment -> string, value: RoleAssignment -> string)
    requires n < |s| && Charted(s, n, table, key, value)
    requires IsController(s[n]) && key(s[n]) in table ==> table[key(s[n])] == value(s[n])
    ensures Charted(s, n + 1, if IsController(s[n]) then table[key(s[n]) := value(s[n])] else table, key, value)
  {
    hide IsController;
    var table' := if IsController(s[n]) then table[key(s[n]) := value(s[n])] else table;
    forall k | k in table' ensures exists i | 0 <= i < n + 1 :: IsController(s[i]) && key(s[i]) == k && value(s[i]) == table'[k] {
      if k in table {
        var i :| 0 <= i < n && IsController(s[i]) && key(s[i]) == k && value(s[i]) == table[k];
        assert i < n + 1;
      } else {
        assert IsController(s[n]) && key(s[n]) == k && value(s[n]) == table'[k];
      }
    }
  }

  // The tables of the scan after n assignments.
  ghost predicate Recorded(s: seq<RoleAssignment>, n: nat, bindings: set<string>, planes: map<string, string>, scopesOf: map<string, string>)
    requires n <= |s|
  {
    && bindings == Elements(Project(s, BindingKey)[..n])
    && Charted(s, n, planes, ScopeOf, IdentityOf) && Charted(s, n, scopesOf, IdentityOf, ScopeOf)
  }

  // What the scan asks of the next assignment.
  predicate Fits(a: RoleAssignment, bindings: set<string>, planes: map<string, string>, scopesOf: map<string, string>) {
    && BindingKey(a) !in bindings
    && (IsController(a) ==>
          && (a.meta.scopeId in planes ==> planes[a.meta.scopeId] == a.serviceIdentityId)
          && (a.serviceIdentityId in scopesOf ==> scopesOf[a.serviceIdentityId] == a.meta.scopeId))
  }

  // The tables decide compatibility with everything recorded.
  lemma FitsMeansCompatible(s: seq<RoleAssignment>, n: nat, bindings: set<string>, planes: map<string, string>, scopesOf: map<string, string>)
    requires n < |s| && Recorded(s, n, bindings, planes, scopesOf)
    ensures Fits(s[n], bindings, planes, scopesOf) <==> forall i | 0 <= i < n :: Compatible(s[i], s[n])
  {
    hide BindingKey, IsController;
    var keys := Project(s, BindingKey);
    if forall i | 0 <= i < n :: Compatible(s[i], s[n]) {
      assert BindingKey(s[n]) !in bindings by {
        assert forall i | 0 <= i < n :: keys[..n][i] != keys[n];
      }
    }
    if Fits(s[n], bindings, planes, scopesOf) {
      forall i | 0 <= i < n ensures Compatible(s[i], s[n]) {
        assert keys[..n][i] in Elements(keys[..n]);
      }
    }
  }

  lemma RecordedStep(s: seq<RoleAssignment>, n: nat, bindings: set<string>, planes: map<string, string>, scopesOf: map<string, string>)
    requires n < |s| && Recorded(s, n, bindings, planes, scopesOf) && Fits(s[n], bindings, planes, scopesOf)
    ensures IsController(s[n]) ==>
      Recorded(s, n + 1, bindings + {BindingKey(s[n])}, planes[s[n].meta.scopeId := s[n].serviceIdentityId],
               scopesOf[s[n].serviceIdentityId := s[n].meta.scopeId])
    ensures !IsController(s[n]) ==> Recorded(s, n + 1, bindings + {BindingKey(s[n])}, planes, scopesOf)
  {
    hide BindingKey, IsController, Distinct, Charted;
    SeenStep(Project(s, BindingKey), n);
    ChartedStep(s, n, planes, ScopeOf, IdentityOf);
    ChartedStep(s, n, scopesOf, IdentityOf, ScopeOf);
  }

  ghost predicate Scanned(s: seq<RoleAssignment>, n: nat, t: Topology, ids: set<string>)
    requires n <= |s|
  {
    && Distinct(Project(s, AssignmentId)[..n]) && ids == Elements(Project(s, AssignmentId)[..n])
    && (forall i | 0 <= i < n :: RoleOk(s[i], t))
    && forall i, j | 0 <= i < j < n :: Compatible(s[i], s[j])
  }

  lemma ScannedStart(s: seq<RoleAssignment>, t: Topology)
    ensures Scanned(s, 0, t, {}) && Recorded(s, 0, {}, map[], map[])
  {
    hide RoleOk, Compatible, BindingKey, IsController;
  }

  lemma ScannedStep(s: seq<RoleAssignment>, n: nat, t: Topology, ids: set<string>)
    requires n < |s| && Scanned(s, n, t, ids) && RoleOk(s[n], t) && AssignmentId(s[n]) !in ids
    requires forall i | 0 <= i < n :: Compatible(s[i], s[n])
    ensures Scanned(s, n + 1, t, ids + {AssignmentId(s[n])})
  {
    hide RoleOk, Compatible, Distinct;
    SeenStep(Project(s, AssignmentId), n);
  }

  lemma ScannedReject(s: seq<RoleAssignment>, n: nat, t: Topology, ids: set<string>)
    requires n < |s| && Scanned(s, n, t, ids)
    requires !RoleOk(s[n], t) || AssignmentId(s[n]) in ids || exists i | 0 <= i < n :: !Compatible(s[i], s[n])
    ensures !Distinct(Project(s, AssignmentId)) || !RolesOk(Index(s, AssignmentId), t)
  {
    hide RoleOk, Compatible, Index;
    var all := Project(s, AssignmentId);
    SeenStep(all, n);
    if Distinct(all) {
      IndexMeaning(s, AssignmentId);
      assert all[n] in Index(s, AssignmentId);
      assert forall i | 0 <= i < n :: all[i] != all[n] && all[i] in Index(s, AssignmentId);
    }
  }

  lemma ScannedAll(s: seq<RoleAssignment>, t: Topology, ids: set<string>)
    requires Scanned(s, |s|, t, ids)
    ensures Distinct(Project(s, AssignmentId)) && RolesOk(Index(s, AssignmentId), t)
  {
    hide RoleOk, Compatible, Index;
    var all := Project(s, AssignmentId);
    assert all[..|s|] == all;
    IndexMeaning(s, AssignmentId);
    var m := Index(s, AssignmentId);
    forall a, b | a in m && b in m && a != b ensures Compatible(m[a], m[b]) {
      var i :| 0 <= i < |s| && s[i] == m[a];
      var j :| 0 <= j < |s| && s[j] == m[b];
      if j < i {
        CompatibleSymmetric(s[j], s[i]);
      }
    }
  }

  lemma CompatibleSymmetric(a: RoleAssignment, b: RoleAssignment)
    requires Compatible(a, b)
    ensures Compatible(b, a)
  {
    hide BindingKey, IsController;
  }

  // The single pass over its tables accepts exactly the sets in which every
  // pair of assignments is compatible.
  method ValidateRoleAssignments(s: seq<RoleAssignment>, t: Topology) returns (ok: bool)
    requires TreeOk(t.scopes, t.rootId)
    ensures ok <==> Distinct(Project(s, AssignmentId)) && RolesOk(Index(s, AssignmentId), t)
  {
    hide TreeOk, RoleOk, Compatible, BindingKey, Index, Distinct, RolesOk;
    var ids: set<string>, bindings: set<string> := {}, {};
    var planes: map<string, string>, scopesOf: map<string, string> := map[], map[];
    ScannedStart(s, t);
    hide Scanned, Recorded;
    for n := 0 to |s|
      invariant Scanned(s, n, t, ids) && Recorded(s, n, bindings, planes, scopesOf)
    {
      var a := s[n];
      FitsMeansCompatible(s, n, bindings, planes, scopesOf);
      var placed := ValidateRoleAssignment(a, t);
      if !placed || a.meta.objectId in ids || BindingKey(a) in bindings {
        ScannedReject(s, n, t, ids);
        return false;
      }
      if IsController(a) {
        if (a.meta.scopeId in planes && planes[a.meta.scopeId] != a.serviceIdentityId)
           || (a.serviceIdentityId in scopesOf && scopesOf[a.serviceIdentityId] != a.meta.scopeId) {
          ScannedReject(s, n, t, ids);
          return false;
        }
      }
      ScannedStep(s, n, t, ids);
      RecordedStep(s, n, bindings, planes, scopesOf);
      ids := ids + {a.meta.objectId};
      bindings := bindings + {BindingKey(a)};
      if IsController(a) {
        planes := planes[a.meta.scopeId := a.serviceIdentityId];
        scopesOf := scopesOf[a.serviceIdentityId := a.meta.scopeId];
      }
    }
    ScannedAll(s, t, ids);
    return true;
  }
}
