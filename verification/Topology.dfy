// The scope hierarchy: which scope sets are accepted, and what containment
// means on an accepted one.
module Topologies {
  import opened Indexing
  import opened Metadata
  import opened Options
  import opened Sorting

  datatype ScopeKind = Global | Management | SiteScope | Resource | OtherKind(name: string)

  datatype Authority = DelegateRbac | DelegatePolicy | DelegateConfiguration | DelegateDesiredState | DelegateApplications
                     | OtherAuthority(name: string)

  datatype Scope = Scope(id: string, kind: ScopeKind, name: string, parentId: string, delegated: seq<Authority>)

  datatype Site = Site(id: string, name: string, scopeId: string)

  datatype ManagementZone = ManagementZone(id: string, name: string, scopeId: string, siteId: string)

  datatype Topology = Topology(rootId: string, scopes: map<string, Scope>, sites: map<string, Site>, zones: map<string, ManagementZone>)

  function ScopeId(s: Scope): string {
    s.id
  }

  function SiteId(s: Site): string {
    s.id
  }

  function SiteScopeId(s: Site): string {
    s.scopeId
  }

  function ZoneId(z: ManagementZone): string {
    z.id
  }

  // ---- ancestry ----

  // The k-th scope on the way up from d.
  ghost function Climb(m: map<string, Scope>, d: string, k: nat): Option<string> {
    if k == 0 then if d in m then Some(d) else None
    else
      var below := Climb(m, d, k - 1);
      if below.Some? && below.value in m && m[below.value].kind != Global && m[below.value].parentId in m
      then Some(m[below.value].parentId) else None
  }

  // a is d itself or one of its ancestors.
  ghost predicate Within(m: map<string, Scope>, a: string, d: string) {
    exists k: nat :: Climb(m, d, k) == Some(a)
  }

  // One tree: every scope climbs to the only global one.
  ghost predicate TreeOk(m: map<string, Scope>, root: string) {
    && root in m && m[root].kind == Global
    && (forall id | id in m :: ScopeOk(m[id]) && m[id].id == id && (m[id].kind == Global ==> id == root))
    && (forall id | id in m :: Within(m, root, id))
  }

  lemma ClimbZero(m: map<string, Scope>, d: string)
    ensures Climb(m, d, 0) == if d in m then Some(d) else None
  {
  }

  lemma {:induction false} ClimbInside(m: map<string, Scope>, d: string, k: nat)
    requires Climb(m, d, k).Some?
    ensures Climb(m, d, k).value in m
  {
  }

  lemma {:induction false} ClimbAdd(m: map<string, Scope>, d: string, i: nat, j: nat)
    requires Climb(m, d, i).Some?
    ensures Climb(m, d, i + j) == Climb(m, Climb(m, d, i).value, j)
    decreases j
  {
    ClimbInside(m, d, i);
    if j > 0 {
      ClimbAdd(m, d, i, j - 1);
    }
  }

  // The way up ends at a global scope.
  lemma {:induction false} ClimbEnds(m: map<string, Scope>, d: string, i: nat, k: nat)
    requires i < k && Climb(m, d, i).Some? && Climb(m, d, i).value in m && m[Climb(m, d, i).value].kind == Global
    ensures Climb(m, d, k) == None
  {
    if k > i + 1 {
      ClimbEnds(m, d, i, k - 1);
    }
  }

  lemma ClimbStep(m: map<string, Scope>, d: string, k: nat, c: string)
    requires Climb(m, d, k) == Some(c) && c in m
    ensures Climb(m, d, k + 1) == if m[c].kind != Global && m[c].parentId in m then Some(m[c].parentId) else None
  {
  }

  // Non-global scopes whose parents are again in the set.
  ghost predicate Closed(m: map<string, Scope>, closed: set<string>) {
    forall v | v in closed :: v in m && m[v].kind != Global && m[v].parentId in closed
  }

  lemma ClosedStep(m: map<string, Scope>, closed: set<string>, v: string)
    requires Closed(m, closed) && v in closed
    ensures v in m && m[v].kind != Global && m[v].parentId in closed
  {
  }

  // Such a set never leads to the root.
  lemma {:induction false} ClosedNeverLeaves(m: map<string, Scope>, closed: set<string>, d: string, k: nat)
    requires Closed(m, closed) && d in closed
    ensures Climb(m, d, k).Some? && Climb(m, d, k).value in closed
  {
    hide Closed;
    ClosedStep(m, closed, d);
    if k > 0 {
      ClosedNeverLeaves(m, closed, d, k - 1);
      ClosedStep(m, closed, Climb(m, d, k - 1).value);
      ClosedStep(m, closed, m[Climb(m, d, k - 1).value].parentId);
    }
  }

  // The step at which a scope of the tree meets the root.
  lemma RootReached(m: map<string, Scope>, root: string, id: string) returns (top: nat)
    requires TreeOk(m, root) && id in m
    ensures Climb(m, id, top) == Some(root) && root in m && m[root].kind == Global
  {
    hide Climb, ScopeOk;
    assert Within(m, root, id);
    top :| Climb(m, id, top) == Some(root);
  }

  // ---- containment is a tree order ----

  lemma WithinReflexive(m: map<string, Scope>, a: string)
    requires a in m
    ensures Within(m, a, a)
  {
    assert Climb(m, a, 0) == Some(a);
  }

  lemma WithinTransitive(m: map<string, Scope>, a: string, b: string, c: string)
    requires Within(m, a, b) && Within(m, b, c)
    ensures Within(m, a, c)
  {
    var i: nat :| Climb(m, b, i) == Some(a);
    var j: nat :| Climb(m, c, j) == Some(b);
    ClimbAdd(m, c, j, i);
  }

  lemma WithinAntisymmetric(m: map<string, Scope>, root: string, a: string, b: string)
    requires TreeOk(m, root) && Within(m, a, b) && Within(m, b, a)
    ensures a == b
  {
    hide TreeOk, Climb;
    var i: nat :| Climb(m, b, i) == Some(a);
    var j: nat :| Climb(m, a, j) == Some(b);
    ClimbInside(m, b, i);
    var top := RootReached(m, root, a);
    if i == 0 {
      ClimbZero(m, b);
    } else {
      ClimbAdd(m, a, j, i);
      ClimbAdd(m, a, j + i, top);
      ClimbEnds(m, a, top, i + j + top);
      assert false;
    }
  }

  // Any two scopes that contain a third one are nested.
  lemma AncestorsComparable(m: map<string, Scope>, a: string, b: string, d: string)
    requires Within(m, a, d) && Within(m, b, d)
    ensures Within(m, a, b) || Within(m, b, a)
  {
    var i: nat :| Climb(m, d, i) == Some(a);
    var j: nat :| Climb(m, d, j) == Some(b);
    if i <= j {
      ClimbAdd(m, d, i, j - i);
    } else {
      ClimbAdd(m, d, j, i - j);
    }
  }

  // Containment is the least relation that has every scope in itself and
  // follows parents: d is within a exactly if it is a or its parent is.
  lemma WithinUnfolds(m: map<string, Scope>, a: string, d: string)
    requires d in m
    ensures Within(m, a, d) <==> a == d || (m[d].kind != Global && m[d].parentId in m && Within(m, a, m[d].parentId))
  {
    assert Climb(m, d, 0) == Some(d);
    if Within(m, a, d) && a != d {
      var k: nat :| Climb(m, d, k) == Some(a);
      FirstStep(m, d, k);
      ClimbAdd(m, d, 1, k - 1);
    }
    if m[d].kind != Global && m[d].parentId in m && Within(m, a, m[d].parentId) {
      var k: nat :| Climb(m, m[d].parentId, k) == Some(a);
      assert Climb(m, d, 1) == Some(m[d].parentId);
      ClimbAdd(m, d, 1, k);
    }
  }

  lemma {:induction false} FirstStep(m: map<string, Scope>, d: string, k: nat)
    requires k > 0 && Climb(m, d, k).Some?
    ensures d in m && m[d].kind != Global && m[d].parentId in m && Climb(m, d, 1) == Some(m[d].parentId)
  {
    if k > 1 {
      FirstStep(m, d, k - 1);
    } else {
      assert Climb(m, d, 0).Some?;
    }
  }

  lemma RootUnique(m: map<string, Scope>, root: string, other: string)
    requires TreeOk(m, root) && other in m && m[other].kind == Global
    ensures other == root
  {
    hide ScopeOk, Within;
  }

  // ---- containment as it is computed ----

  method Contains(t: Topology, ancestor: string, descendant: string) returns (inside: bool)
    requires TreeOk(t.scopes, t.rootId)
    ensures inside <==> ancestor in t.scopes && descendant in t.scopes && Within(t.scopes, ancestor, descendant)
  {
    hide TreeOk, Climb;
    if ancestor !in t.scopes || descendant !in t.scopes {
      return false;
    }
    ghost var top := RootReached(t.scopes, t.rootId, descendant);
    var current := descendant;
    ghost var k: nat := 0;
    ClimbZero(t.scopes, descendant);
    while current != ancestor
      invariant current in t.scopes && Climb(t.scopes, descendant, k) == Some(current) && k <= top
      invariant forall j: nat | j < k :: Climb(t.scopes, descendant, j) != Some(ancestor)
      decreases top - k
    {
      if t.scopes[current].kind == Global {
        forall j: nat ensures Climb(t.scopes, descendant, j) != Some(ancestor) {
          if j > k {
            ClimbEnds(t.scopes, descendant, k, j);
          }
        }
        return false;
      }
      StillBelow(t.scopes, t.rootId, descendant, k, top);
      current := t.scopes[current].parentId;
      k := k + 1;
    }
    return true;
  }

  // Below the root there is always a parent.
  lemma StillBelow(m: map<string, Scope>, root: string, d: string, k: nat, top: nat)
    requires TreeOk(m, root) && Climb(m, d, top) == Some(root) && k <= top
    requires Climb(m, d, k).Some? && Climb(m, d, k).value in m && m[Climb(m, d, k).value].kind != Global
    ensures k < top && m[Climb(m, d, k).value].parentId in m
    ensures Climb(m, d, k + 1) == Some(m[Climb(m, d, k).value].parentId)
  {
    hide TreeOk, Climb;
    var c := Climb(m, d, k).value;
    var up := RootReached(m, root, c);
    ClimbZero(m, c);
    FirstStep(m, c, up);
    ClimbStep(m, d, k, c);
    var root' := RootReached(m, root, root);
  }

  // ---- records ----

  ghost predicate ScopeOk(s: Scope) {
    && ValidIdentifier(s.id) && ValidDisplayName(s.name)
    && (match s.kind
        case Global => s.parentId == "" && s.delegated == []
        case OtherKind(_) => false
        case _ => ValidIdentifier(s.parentId) && s.parentId != s.id)
    && (forall i | 0 <= i < |s.delegated| :: !s.delegated[i].OtherAuthority?) && Distinct(s.delegated)
  }

  ghost predicate SiteOk(s: Site, scopes: map<string, Scope>) {
    ValidIdentifier(s.id) && ValidDisplayName(s.name) && s.scopeId in scopes && scopes[s.scopeId].kind == SiteScope
  }

  ghost predicate ZoneOk(z: ManagementZone, scopes: map<string, Scope>, sites: map<string, Site>) {
    && ValidIdentifier(z.id) && ValidDisplayName(z.name) && z.scopeId in scopes
    && (z.siteId != "" ==> z.siteId in sites && Within(scopes, sites[z.siteId].scopeId, z.scopeId))
  }

  ghost predicate SitesOk(sites: map<string, Site>, scopes: map<string, Scope>) {
    && (forall id | id in sites :: SiteOk(sites[id], scopes) && sites[id].id == id)
    && forall a, b | a in sites && b in sites && sites[a].scopeId == sites[b].scopeId :: a == b
  }

  ghost predicate ZonesOk(zones: map<string, ManagementZone>, scopes: map<string, Scope>, sites: map<string, Site>) {
    forall id | id in zones :: ZoneOk(zones[id], scopes, sites) && zones[id].id == id
  }

  ghost predicate TopologyOk(t: Topology) {
    TreeOk(t.scopes, t.rootId) && SitesOk(t.sites, t.scopes) && ZonesOk(t.zones, t.scopes, t.sites)
  }

  method ValidateScope(s: Scope) returns (ok: bool)
    ensures ok <==> ScopeOk(s)
  {
    hide ValidIdentifier, ValidDisplayName;
    if !ValidIdentifier(s.id) || !ValidDisplayName(s.name) {
      return false;
    }
    match s.kind {
      case Global =>
        if s.parentId != "" {
          return false;
        }
      case OtherKind(_) =>
        return false;
      case _ =>
        if !ValidIdentifier(s.parentId) || s.parentId == s.id {
          return false;
        }
    }
    var seen: set<Authority> := {};
    for n := 0 to |s.delegated|
      invariant forall i | 0 <= i < n :: !s.delegated[i].OtherAuthority?
      invariant Distinct(s.delegated[..n]) && seen == Elements(s.delegated[..n])
    {
      SeenStep(s.delegated, n);
      if s.delegated[n].OtherAuthority? || s.delegated[n] in seen {
        return false;
      }
      seen := seen + {s.delegated[n]};
    }
    assert s.delegated[..|s.delegated|] == s.delegated;
    return s.kind != Global || |s.delegated| == 0;
  }

  // ---- building a topology ----

  // The first n scopes are indexed, and the root is the one global scope
  // among them, if there is one.
  ghost predicate Scanned(scopes: seq<Scope>, n: nat, root: string, m: map<string, Scope>)
    requires n <= |scopes|
  {
    && Distinct(Project(scopes, ScopeId)[..n]) && m == Index(scopes[..n], ScopeId) && m.Keys == Elements(Project(scopes, ScopeId)[..n])
    && (forall i | 0 <= i < n :: ScopeOk(scopes[i]) && (scopes[i].kind == Global ==> scopes[i].id == root))
    && (root != "" ==> root in m && m[root].kind == Global)
  }

  lemma ScannedStep(scopes: seq<Scope>, n: nat, root: string, m: map<string, Scope>)
    requires n < |scopes| && Scanned(scopes, n, root, m) && ScopeOk(scopes[n]) && scopes[n].id !in m
    requires scopes[n].kind == Global ==> root == ""
    ensures Scanned(scopes, n + 1, if scopes[n].kind == Global then scopes[n].id else root, m[scopes[n].id := scopes[n]])
  {
    hide ScopeOk, Distinct, Index;
    SeenStep(Project(scopes, ScopeId), n);
    IndexStep(scopes, ScopeId, n);
    if scopes[n].kind == Global {
      forall i | 0 <= i < n ensures scopes[i].kind != Global {
        IdNotEmpty(scopes[i]);
      }
    }
  }

  lemma ScannedRepeat(scopes: seq<Scope>, n: nat, root: string, m: map<string, Scope>)
    requires n < |scopes| && Scanned(scopes, n, root, m) && scopes[n].id in m
    ensures !Distinct(Project(scopes, ScopeId))
  {
    hide ScopeOk, Distinct, Index;
    SeenStep(Project(scopes, ScopeId), n);
  }

  lemma ScannedSecondRoot(scopes: seq<Scope>, n: nat, root: string, m: map<string, Scope>)
    requires n < |scopes| && Scanned(scopes, n, root, m) && scopes[n].id !in m && scopes[n].kind == Global && root != ""
    ensures !Distinct(Project(scopes, ScopeId)) || forall root' :: !TreeOk(Index(scopes, ScopeId), root')
  {
    hide ScopeOk, TreeOk, Index, Distinct;
    IndexKeys(scopes[..n], ScopeId);
    var i :| 0 <= i < n && scopes[i] == m[root];
    TwoRoots(scopes, i, n);
  }

  lemma ScannedAll(scopes: seq<Scope>, root: string, m: map<string, Scope>)
    requires Scanned(scopes, |scopes|, root, m)
    ensures Distinct(Project(scopes, ScopeId)) && m == Index(scopes, ScopeId)
    ensures root == "" ==> forall root' :: !TreeOk(m, root')
    ensures root != "" ==> root in m && m[root].kind == Global
    ensures forall id | id in m :: ScopeOk(m[id]) && m[id].id == id && (m[id].kind == Global ==> id == root)
  {
    hide ScopeOk, Distinct, Index, TreeOk;
    var p := Project(scopes, ScopeId);
    assert p[..|scopes|] == p && scopes[..|scopes|] == scopes;
    IndexKeys(scopes, ScopeId);
    forall id | id in m ensures ScopeOk(m[id]) && m[id].id == id && (m[id].kind == Global ==> id == root) {
      var i :| 0 <= i < |scopes| && scopes[i] == m[id];
    }
    if root == "" {
      NoRoot(m);
    }
  }

  method IndexScopes(scopes: seq<Scope>) returns (ok: bool, root: string, m: map<string, Scope>)
    ensures ok ==>
      && Distinct(Project(scopes, ScopeId)) && m == Index(scopes, ScopeId) && root in m && m[root].kind == Global
      && forall id | id in m :: ScopeOk(m[id]) && m[id].id == id && (m[id].kind == Global ==> id == root)
    ensures !ok ==> !Distinct(Project(scopes, ScopeId)) || forall root' :: !TreeOk(Index(scopes, ScopeId), root')
  {
    hide ScopeOk, TreeOk, Index, Distinct;
    root, m := "", map[];
    ScannedStart(scopes);
    hide Scanned;
    for n := 0 to |scopes|
      invariant Scanned(scopes, n, root, m)
    {
      var s := scopes[n];
      var wellFormed := ValidateScope(s);
      if !wellFormed {
        BadScope(scopes, n);
        return false, root, m;
      }
      if s.id in m {
        ScannedRepeat(scopes, n, root, m);
        return false, root, m;
      }
      if s.kind == Global && root != "" {
        ScannedSecondRoot(scopes, n, root, m);
        return false, root, m;
      }
      ScannedStep(scopes, n, root, m);
      if s.kind == Global {
        root := s.id;
      }
      m := m[s.id := s];
    }
    ScannedAll(scopes, root, m);
    ok := root != "";
  }

  lemma ScannedStart(scopes: seq<Scope>)
    ensures Scanned(scopes, 0, "", map[])
  {
    hide ScopeOk;
  }

  lemma IdNotEmpty(s: Scope)
    requires ScopeOk(s)
    ensures s.id != ""
  {
  }

  lemma BadScope(scopes: seq<Scope>, n: nat)
    requires n < |scopes| && !ScopeOk(scopes[n])
    ensures !Distinct(Project(scopes, ScopeId)) || forall root :: !TreeOk(Index(scopes, ScopeId), root)
  {
    hide ScopeOk, Distinct, Within;
    if Distinct(Project(scopes, ScopeId)) {
      IndexMeaning(scopes, ScopeId);
    }
  }

  lemma TwoRoots(scopes: seq<Scope>, i: nat, j: nat)
    requires i < j < |scopes| && scopes[i].kind == Global && scopes[j].kind == Global && scopes[i].id != scopes[j].id
    ensures !Distinct(Project(scopes, ScopeId)) || forall root :: !TreeOk(Index(scopes, ScopeId), root)
  {
    hide ScopeOk, Distinct, Within;
    if Distinct(Project(scopes, ScopeId)) {
      IndexMeaning(scopes, ScopeId);
    }
  }

  lemma NoRoot(m: map<string, Scope>)
    requires forall id | id in m :: ScopeOk(m[id]) && m[id].id == id && (m[id].kind == Global ==> id == "")
    ensures forall root :: !TreeOk(m, root)
  {
    hide Within, ScopeOk;
    forall id | id in m ensures m[id].kind != Global {
      IdNotEmpty(m[id]);
    }
  }

  // Every non-global scope names a known parent.
  method CheckParents(m: map<string, Scope>) returns (ok: bool)
    ensures ok <==> forall id | id in m :: m[id].kind == Global || m[id].parentId in m
  {
    var ids := AnyOrder(m.Keys);
    for n := 0 to |ids|
      invariant forall i | 0 <= i < n :: ids[i] in m && (m[ids[i]].kind == Global || m[ids[i]].parentId in m)
    {
      assert ids[n] in Elements(ids);
      if m[ids[n]].kind != Global && m[ids[n]].parentId !in m {
        return false;
      }
    }
    forall id | id in m ensures m[id].kind == Global || m[id].parentId in m {
      assert id in Elements(ids);
    }
    return true;
  }

  // The walk with a visited set: it stops at the root exactly if the scope
  // climbs there, and otherwise closes a cycle.
  method ValidatePathToRoot(m: map<string, Scope>, root: string, id: string) returns (ok: bool)
    requires id in m && forall d | d in m :: m[d].kind == Global || m[d].parentId in m
    requires forall d | d in m :: m[d].id == d
    ensures ok <==> root in m && m[root].kind == Global && Within(m, root, id)
  {
    var visited: set<string> := {};
    var current := id;
    ghost var k: nat := 0;
    while m[current].kind != Global
      invariant current in m && Climb(m, id, k) == Some(current) && visited <= m.Keys
      invariant id == current || id in visited
      invariant forall v | v in visited :: m[v].kind != Global && (m[v].parentId in visited || m[v].parentId == current)
      decreases m.Keys - visited
    {
      if current in visited {
        assert Closed(m, visited);
        forall j: nat ensures root in m && m[root].kind == Global ==> Climb(m, id, j) != Some(root) {
          ClosedNeverLeaves(m, visited, id, j);
        }
        return false;
      }
      visited := visited + {current};
      assert Climb(m, id, k + 1) == Some(m[current].parentId);
      current := m[current].parentId;
      k := k + 1;
    }
    ok := m[current].id == root;
    if current != root && root in m && m[root].kind == Global {
      forall j: nat ensures Climb(m, id, j) != Some(root) {
        if j > k {
          ClimbEnds(m, id, k, j);
        } else if j < k && Climb(m, id, j) == Some(root) {
          ClimbEnds(m, id, j, k);
          assert false;
        }
      }
    }
  }

  method CheckPaths(m: map<string, Scope>, root: string) returns (ok: bool)
    requires root in m && m[root].kind == Global
    requires forall d | d in m :: m[d].id == d && (m[d].kind == Global || m[d].parentId in m)
    ensures ok <==> forall id | id in m :: Within(m, root, id)
  {
    hide Within;
    var ids := AnyOrder(m.Keys);
    for n := 0 to |ids|
      invariant forall i | 0 <= i < n :: Within(m, root, ids[i])
    {
      assert ids[n] in Elements(ids);
      var path := ValidatePathToRoot(m, root, ids[n]);
      if !path {
        return false;
      }
    }
    forall id | id in m ensures Within(m, root, id) {
      assert id in Elements(ids);
    }
    return true;
  }

  // ---- sites and zones ----

  ghost predicate Bound(sites: seq<Site>, n: nat, scopes: map<string, Scope>, m: map<string, Site>, taken: set<string>)
    requires n <= |sites|
  {
    && Distinct(Project(sites, SiteId)[..n]) && m == Index(sites[..n], SiteId) && m.Keys == Elements(Project(sites, SiteId)[..n])
    && Distinct(Project(sites, SiteScopeId)[..n]) && taken == Elements(Project(sites, SiteScopeId)[..n])
    && forall i | 0 <= i < n :: SiteOk(sites[i], scopes)
  }

  lemma BoundStart(sites: seq<Site>, scopes: map<string, Scope>)
    ensures Bound(sites, 0, scopes, map[], {})
  {
    hide SiteOk;
  }

  lemma BoundStep(sites: seq<Site>, n: nat, scopes: map<string, Scope>, m: map<string, Site>, taken: set<string>)
    requires n < |sites| && Bound(sites, n, scopes, m, taken) && SiteOk(sites[n], scopes)
    requires sites[n].id !in m && sites[n].scopeId !in taken
    ensures Bound(sites, n + 1, scopes, m[sites[n].id := sites[n]], taken + {sites[n].scopeId})
  {
    hide SiteOk, Distinct, Index;
    SeenStep(Project(sites, SiteId), n);
    SeenStep(Project(sites, SiteScopeId), n);
    IndexStep(sites, SiteId, n);
  }

  lemma BoundReject(sites: seq<Site>, n: nat, scopes: map<string, Scope>, m: map<string, Site>, taken: set<string>)
    requires n < |sites| && Bound(sites, n, scopes, m, taken)
    requires !SiteOk(sites[n], scopes) || sites[n].id in m || sites[n].scopeId in taken
    ensures !Distinct(Project(sites, SiteId)) || !SitesOk(Index(sites, SiteId), scopes)
  {
    hide SiteOk, Index;
    var ids := Project(sites, SiteId);
    SeenStep(ids, n);
    if Distinct(ids) {
      IndexMeaning(sites, SiteId);
    }
  }

  lemma BoundAll(sites: seq<Site>, scopes: map<string, Scope>, m: map<string, Site>, taken: set<string>)
    requires Bound(sites, |sites|, scopes, m, taken)
    ensures Distinct(Project(sites, SiteId)) && m == Index(sites, SiteId) && SitesOk(m, scopes)
  {
    hide SiteOk, Index, Distinct;
    var ids, at := Project(sites, SiteId), Project(sites, SiteScopeId);
    assert ids[..|sites|] == ids && at[..|sites|] == at && sites[..|sites|] == sites;
    IndexKeys(sites, SiteId);
    OneSitePerScope(sites);
  }

  lemma OneSitePerScope(sites: seq<Site>)
    requires Distinct(Project(sites, SiteScopeId))
    ensures var m := Index(sites, SiteId); forall a, b | a in m && b in m && m[a].scopeId == m[b].scopeId :: a == b
  {
    hide Index;
    IndexKeys(sites, SiteId);
    var m, at := Index(sites, SiteId), Project(sites, SiteScopeId);
    forall a, b | a in m && b in m && m[a].scopeId == m[b].scopeId ensures a == b {
      var i :| 0 <= i < |sites| && sites[i] == m[a];
      var j :| 0 <= j < |sites| && sites[j] == m[b];
      assert at[i] == at[j];
    }
  }

  method BindSites(sites: seq<Site>, scopes: map<string, Scope>) returns (ok: bool, m: map<string, Site>)
    ensures ok ==> Distinct(Project(sites, SiteId)) && m == Index(sites, SiteId) && SitesOk(m, scopes)
    ensures !ok ==> !Distinct(Project(sites, SiteId)) || !SitesOk(Index(sites, SiteId), scopes)
  {
    hide ValidIdentifier, ValidDisplayName, Distinct, Index, SitesOk;
    var taken: set<string> := {};
    m := map[];
    BoundStart(sites, scopes);
    hide Bound;
    for n := 0 to |sites|
      invariant Bound(sites, n, scopes, m, taken)
    {
      var s := sites[n];
      if !ValidIdentifier(s.id) || !ValidDisplayName(s.name) || s.scopeId !in scopes || scopes[s.scopeId].kind != SiteScope
         || s.id in m || s.scopeId in taken {
        BoundReject(sites, n, scopes, m, taken);
        return false, m;
      }
      BoundStep(sites, n, scopes, m, taken);
      taken := taken + {s.scopeId};
      m := m[s.id := s];
    }
    BoundAll(sites, scopes, m, taken);
    ok := true;
  }

  method ValidateZone(z: ManagementZone, t: Topology) returns (ok: bool)
    requires TreeOk(t.scopes, t.rootId) && SitesOk(t.sites, t.scopes)
    ensures ok <==> ZoneOk(z, t.scopes, t.sites)
  {
    hide ValidIdentifier, ValidDisplayName, TreeOk, Within;
    if !ValidIdentifier(z.id) || !ValidDisplayName(z.name) || z.scopeId !in t.scopes {
      return false;
    }
    if z.siteId == "" {
      return true;
    }
    if z.siteId !in t.sites {
      return false;
    }
    ok := Contains(t, t.sites[z.siteId].scopeId, z.scopeId);
  }

  ghost predicate Zoned(zones: seq<ManagementZone>, n: nat, t: Topology)
    requires n <= |zones|
  {
    && Distinct(Project(zones, ZoneId)[..n]) && t.zones == Index(zones[..n], ZoneId) && t.zones.Keys == Elements(Project(zones, ZoneId)[..n])
    && forall i | 0 <= i < n :: ZoneOk(zones[i], t.scopes, t.sites)
  }

  lemma ZonedStart(zones: seq<ManagementZone>, t: Topology)
    requires t.zones == map[]
    ensures Zoned(zones, 0, t)
  {
    hide ZoneOk;
  }

  lemma ZonedStep(zones: seq<ManagementZone>, n: nat, t: Topology)
    requires n < |zones| && Zoned(zones, n, t) && ZoneOk(zones[n], t.scopes, t.sites) && zones[n].id !in t.zones
    ensures Zoned(zones, n + 1, t.(zones := t.zones[zones[n].id := zones[n]]))
  {
    hide ZoneOk, Distinct, Index;
    SeenStep(Project(zones, ZoneId), n);
    IndexStep(zones, ZoneId, n);
  }

  lemma ZonedReject(zones: seq<ManagementZone>, n: nat, t: Topology)
    requires n < |zones| && Zoned(zones, n, t) && (!ZoneOk(zones[n], t.scopes, t.sites) || zones[n].id in t.zones)
    ensures !Distinct(Project(zones, ZoneId)) || !ZonesOk(Index(zones, ZoneId), t.scopes, t.sites)
  {
    hide ZoneOk, Index, Distinct;
    SeenStep(Project(zones, ZoneId), n);
    if Distinct(Project(zones, ZoneId)) {
      IndexMeaning(zones, ZoneId);
    }
  }

  lemma ZonedAll(zones: seq<ManagementZone>, t: Topology)
    requires Zoned(zones, |zones|, t)
    ensures Distinct(Project(zones, ZoneId)) && t.zones == Index(zones, ZoneId) && ZonesOk(t.zones, t.scopes, t.sites)
  {
    hide ZoneOk, Index, Distinct;
    var ids := Project(zones, ZoneId);
    assert ids[..|zones|] == ids && zones[..|zones|] == zones;
    IndexKeys(zones, ZoneId);
  }

  method BindZones(zones: seq<ManagementZone>, base: Topology) returns (ok: bool, t: Topology)
    requires base.zones == map[] && TreeOk(base.scopes, base.rootId) && SitesOk(base.sites, base.scopes)
    ensures ok ==>
      && Distinct(Project(zones, ZoneId)) && t == base.(zones := Index(zones, ZoneId)) && ZonesOk(t.zones, t.scopes, t.sites)
    ensures !ok ==> !Distinct(Project(zones, ZoneId)) || !ZonesOk(Index(zones, ZoneId), base.scopes, base.sites)
  {
    hide TreeOk, SitesOk, ZonesOk, ZoneOk, Index, Distinct;
    t := base;
    ZonedStart(zones, t);
    hide Zoned;
    for n := 0 to |zones|
      invariant t == base.(zones := t.zones) && Zoned(zones, n, t)
    {
      var wellFormed := ValidateZone(zones[n], t);
      if !wellFormed || zones[n].id in t.zones {
        ZonedReject(zones, n, t);
        return false, t;
      }
      ZonedStep(zones, n, t);
      t := t.(zones := t.zones[zones[n].id := zones[n]]);
    }
    ZonedAll(zones, t);
    ok := true;
  }

  // ---- NewTopology ----

  ghost function Indexed(root: string, scopes: seq<Scope>, sites: seq<Site>, zones: seq<ManagementZone>): Topology {
    Topology(root, Index(scopes, ScopeId), Index(sites, SiteId), Index(zones, ZoneId))
  }

  ghost predicate NoRepeats(scopes: seq<Scope>, sites: seq<Site>, zones: seq<ManagementZone>) {
    Distinct(Project(scopes, ScopeId)) && Distinct(Project(sites, SiteId)) && Distinct(Project(zones, ZoneId))
  }

  // A topology is built exactly if no identity repeats and the records form
  // one tree of scopes with well-bound sites and zones.
  method NewTopology(scopes: seq<Scope>, sites: seq<Site>, zones: seq<ManagementZone>) returns (result: Option<Topology>)
    ensures result.Some? ==> Builds(scopes, sites, zones, result.value)
    ensures result.None? ==> forall t :: !Builds(scopes, sites, zones, t)
  {
    hide TreeOk, SitesOk, ZonesOk, ScopeOk, Index, Distinct, Within;
    var indexed, root, m := IndexScopes(scopes);
    if !indexed {
      NoTree(scopes, sites, zones);
      assert NoRepeats(scopes, sites, zones) ==> forall root' :: !TreeOk(Index(scopes, ScopeId), root');
      return None;
    }
    var parents := CheckParents(m);
    if !parents {
      ParentsNeeded(m);
      NoTree(scopes, sites, zones);
      return None;
    }
    var paths := CheckPaths(m, root);
    if !paths {
      PathsNeeded(m, root);
      NoTree(scopes, sites, zones);
      return None;
    }
    TreeFromParts(m, root);
    var bound, siteMap := BindSites(sites, m);
    if !bound {
      return None;
    }
    var zoned, t := BindZones(zones, Topology(root, m, siteMap, map[]));
    if !zoned {
      return None;
    }
    return Some(t);
  }

  lemma NoTree(scopes: seq<Scope>, sites: seq<Site>, zones: seq<ManagementZone>)
    ensures (forall root :: !TreeOk(Index(scopes, ScopeId), root)) ==> forall root :: !TopologyOk(Indexed(root, scopes, sites, zones))
  {
    hide TreeOk, SitesOk, ZonesOk, Index;
    forall root ensures TopologyOk(Indexed(root, scopes, sites, zones)) ==> TreeOk(Index(scopes, ScopeId), root) {
    }
  }

  lemma TreeFromParts(m: map<string, Scope>, root: string)
    requires root in m && m[root].kind == Global
    requires forall id | id in m :: ScopeOk(m[id]) && m[id].id == id && (m[id].kind == Global ==> id == root)
    requires forall id | id in m :: Within(m, root, id)
    ensures TreeOk(m, root)
  {
    hide ScopeOk, Within;
  }

  lemma ParentsNeeded(m: map<string, Scope>)
    requires exists id | id in m :: m[id].kind != Global && m[id].parentId !in m
    ensures forall root :: !TreeOk(m, root)
  {
    hide ScopeOk, Within;
    var id :| id in m && m[id].kind != Global && m[id].parentId !in m;
    forall root ensures !TreeOk(m, root) {
      WithinUnfolds(m, root, id);
    }
  }

  lemma PathsNeeded(m: map<string, Scope>, root: string)
    requires root in m && m[root].kind == Global && exists id | id in m :: !Within(m, root, id)
    ensures forall root' :: !TreeOk(m, root')
  {
    hide ScopeOk, Within;
    var id :| id in m && !Within(m, root, id);
    forall root' ensures !TreeOk(m, root') {
      if TreeOk(m, root') {
        RootUnique(m, root', root);
        assert false;
      }
    }
  }

  // t is the topology of the records.
  ghost predicate Builds(scopes: seq<Scope>, sites: seq<Site>, zones: seq<ManagementZone>, t: Topology) {
    NoRepeats(scopes, sites, zones) && t == Indexed(t.rootId, scopes, sites, zones) && TopologyOk(t)
  }

  // There is at most one, so the verdict of NewTopology and the topology it
  // builds are determined by this relation.
  lemma BuildsOne(scopes: seq<Scope>, sites: seq<Site>, zones: seq<ManagementZone>, t: Topology, t': Topology)
    requires Builds(scopes, sites, zones, t) && Builds(scopes, sites, zones, t')
    ensures t == t'
  {
    hide SitesOk, ZonesOk, Index, NoRepeats, ScopeOk, Within;
    RootUnique(t.scopes, t.rootId, t'.rootId);
  }

  lemma DistinctPermuted<T>(s: seq<T>, t: seq<T>, key: T -> string)
    requires multiset(s) == multiset(t)
    ensures Distinct(Project(s, key)) <==> Distinct(Project(t, key))
  {
    hide Distinct;
    ProjectPermuted(s, t, key);
    if Distinct(Project(s, key)) {
      PermutedDistinct(Project(s, key), Project(t, key));
    } else if Distinct(Project(t, key)) {
      PermutedDistinct(Project(t, key), Project(s, key));
    }
  }

  // Whether a topology is built, and which one, does not depend on the order
  // of the records, repeated identities included.
  lemma TopologyOrderFree(scopes: seq<Scope>, sites: seq<Site>, zones: seq<ManagementZone>,
                          scopes': seq<Scope>, sites': seq<Site>, zones': seq<ManagementZone>)
    requires multiset(scopes) == multiset(scopes') && multiset(sites) == multiset(sites') && multiset(zones) == multiset(zones')
    ensures NoRepeats(scopes, sites, zones) <==> NoRepeats(scopes', sites', zones')
    ensures forall t :: Builds(scopes, sites, zones, t) <==> Builds(scopes', sites', zones', t)
  {
    hide Index, Distinct, TopologyOk;
    DistinctPermuted(scopes, scopes', ScopeId);
    DistinctPermuted(sites, sites', SiteId);
    DistinctPermuted(zones, zones', ZoneId);
    if NoRepeats(scopes, sites, zones) {
      IndexPermuted(scopes, scopes', ScopeId);
      IndexPermuted(sites, sites', SiteId);
      IndexPermuted(zones, zones', ZoneId);
      assert forall root :: Indexed(root, scopes, sites, zones) == Indexed(root, scopes', sites', zones');
    }
  }

  // Delegation is direct: only the grants of the scope itself count.
  predicate Delegated(t: Topology, scopeId: string, authority: Authority) {
    scopeId in t.scopes && authority in t.scopes[scopeId].delegated
  }

  // The root never holds a delegated grant; it needs none.
  lemma RootHoldsNoGrant(t: Topology, authority: Authority)
    requires TopologyOk(t)
    ensures !Delegated(t, t.rootId, authority)
  {
    hide SitesOk, ZonesOk, Within, ValidIdentifier, ValidDisplayName;
  }
}
