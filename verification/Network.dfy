// The network part of a snapshot: zones, interfaces, and the parent relation
// between interfaces.
module NetworkContracts {
  import opened Indexing
  import opened Metadata
  import opened Options
  import opened Roles
  import opened Sorting
  import opened Text
  import opened Topologies

  const MAX_INTERFACES_PER_NODE := 64
  const MAX_ADDRESSES := 64

  const ZONE_KINDS := ["unassigned", "wan", "lan", "management", "dmz", "cluster", "storage", "backup", "trusted"]
  const INTERFACE_KINDS := ["physical", "bond", "bridge", "vlan", "virtual"]
  const LINK_STATES := ["up", "down", "unknown"]

  // A MAC address and a CIDR prefix as the parsers classify them.
  datatype Mac = NoMac | CanonicalMac(text: string) | MalformedMac(text: string)

  datatype Address = CanonicalPrefix(text: string) | MalformedPrefix(text: string)

  datatype NetworkZone = NetworkZone(id: string, name: string, kind: string, scopeId: string, siteId: string)

  datatype NetworkInterface = NetworkInterface(
    id: string, nodeId: string, name: string, kind: string, scopeId: string, siteId: string, networkZoneId: string, mac: Mac,
    operationalState: string, addresses: seq<Address>, mtu: nat, linkSpeedMbps: nat, parentInterfaceId: string, vlanId: Option<nat>)

  function NetworkZoneId(z: NetworkZone): string {
    z.id
  }

  function InterfaceId(i: NetworkInterface): string {
    i.id
  }

  // ---- single records ----

  predicate ZoneSyntaxOk(z: NetworkZone) {
    && ValidIdentifier(z.id) && ValidDisplayName(z.name) && z.kind in ZONE_KINDS
    && ValidIdentifier(z.scopeId) && ValidIdentifier(z.siteId)
  }

  ghost predicate NetworkZoneOk(z: NetworkZone, t: Topology) {
    ZoneSyntaxOk(z) && z.siteId in t.sites && Inside(t, t.sites[z.siteId].scopeId, z.scopeId)
  }

  method ValidateNetworkZone(z: NetworkZone, t: Topology) returns (ok: bool)
    requires TreeOk(t.scopes, t.rootId)
    ensures ok <==> NetworkZoneOk(z, t)
  {
    hide TreeOk, ZoneSyntaxOk, Within;
    if !ZoneSyntaxOk(z) || z.siteId !in t.sites {
      return false;
    }
    ok := Contains(t, t.sites[z.siteId].scopeId, z.scopeId);
  }

  predicate InterfaceSyntaxOk(i: NetworkInterface) {
    && ValidIdentifier(i.id) && ValidIdentifier(i.nodeId) && ValidIdentifier(i.scopeId) && ValidIdentifier(i.siteId)
    && ValidIdentifier(i.networkZoneId) && ValidDisplayName(i.name)
    && i.kind in INTERFACE_KINDS && i.operationalState in LINK_STATES
  }

  // Limits, MAC, VLAN and parent fields; a VLAN names its parent and its tag.
  predicate LinkOk(i: NetworkInterface) {
    && 68 <= i.mtu <= 65535 && i.linkSpeedMbps <= 10_000_000
    && !i.mac.MalformedMac? && (i.mac.NoMac? ==> i.kind != "physical")
    && |i.addresses| <= MAX_ADDRESSES
    && (if i.kind == "vlan" then i.parentInterfaceId != "" && i.vlanId.Some? && 1 <= i.vlanId.value <= 4094 else i.vlanId.None?)
    && (i.parentInterfaceId != "" ==> i.kind == "vlan" || i.kind == "virtual")
  }

  ghost predicate AddressesOk(s: seq<Address>) {
    (forall i | 0 <= i < |s| :: s[i].CanonicalPrefix?) && Distinct(s)
  }

  // The site and node pairs that role assignments bind to each other.
  ghost function BoundBy(s: seq<RoleAssignment>): set<(string, string)> {
    set a | a in s && a.siteId != "" :: (a.siteId, a.targetNodeId)
  }

  ghost predicate InterfacePlaced(i: NetworkInterface, zones: map<string, NetworkZone>, t: Topology) {
    && i.siteId in t.sites && Inside(t, t.sites[i.siteId].scopeId, i.scopeId)
    && i.networkZoneId in zones && zones[i.networkZoneId].siteId == i.siteId && Inside(t, zones[i.networkZoneId].scopeId, i.scopeId)
  }

  ghost predicate InterfaceOk(i: NetworkInterface, zones: map<string, NetworkZone>, bound: set<(string, string)>, t: Topology) {
    && InterfaceSyntaxOk(i) && InterfacePlaced(i, zones, t) && (i.siteId, i.nodeId) in bound
    && LinkOk(i) && AddressesOk(i.addresses)
  }

  method ValidateAddresses(s: seq<Address>) returns (ok: bool)
    ensures ok <==> AddressesOk(s)
  {
    var seen: set<Address> := {};
    for n := 0 to |s|
      invariant forall i | 0 <= i < n :: s[i].CanonicalPrefix?
      invariant Distinct(s[..n]) && seen == Elements(s[..n])
    {
      SeenStep(s, n);
      if s[n].MalformedPrefix? || s[n] in seen {
        return false;
      }
      seen := seen + {s[n]};
    }
    assert s[..|s|] == s;
    return true;
  }

  method ValidatePlaced(i: NetworkInterface, zones: map<string, NetworkZone>, t: Topology) returns (ok: bool)
    requires TreeOk(t.scopes, t.rootId)
    ensures ok <==> InterfacePlaced(i, zones, t)
  {
    hide TreeOk, Within;
    if i.siteId !in t.sites {
      return false;
    }
    var inSite := Contains(t, t.sites[i.siteId].scopeId, i.scopeId);
    if !inSite || i.networkZoneId !in zones || zones[i.networkZoneId].siteId != i.siteId {
      return false;
    }
    ok := Contains(t, zones[i.networkZoneId].scopeId, i.scopeId);
  }

  // The node index holds exactly the bindings of the assignments.
  ghost predicate NodesIndexed(nodes: map<string, set<string>>, bound: set<(string, string)>) {
    forall site, node :: (site in nodes && node in nodes[site]) <==> (site, node) in bound
  }

  method IndexNodes(s: seq<RoleAssignment>) returns (nodes: map<string, set<string>>)
    ensures NodesIndexed(nodes, BoundBy(s))
  {
    nodes := map[];
    for n := 0 to |s|
      invariant NodesIndexed(nodes, BoundBy(s[..n]))
    {
      assert s[..n + 1] == s[..n] + [s[n]];
      var a := s[n];
      if a.siteId != "" {
        ghost var before := nodes;
        var known := if a.siteId in nodes then nodes[a.siteId] else {};
        nodes := nodes[a.siteId := known + {a.targetNodeId}];
        forall site, node ensures (site in nodes && node in nodes[site]) <==> (site, node) in BoundBy(s[..n + 1]) {
          BoundStep(s, n, site, node);
          assert (site in before && node in before[site]) <==> (site, node) in BoundBy(s[..n]);
        }
      } else {
        assert BoundBy(s[..n + 1]) == BoundBy(s[..n]);
      }
    }
    assert s[..|s|] == s;
  }

  lemma BoundStep(s: seq<RoleAssignment>, n: nat, site: string, node: string)
    requires n < |s| && s[n].siteId != ""
    ensures (site, node) in BoundBy(s[..n + 1]) <==> (site, node) in BoundBy(s[..n]) || (site == s[n].siteId && node == s[n].targetNodeId)
  {
    assert s[..n + 1] == s[..n] + [s[n]];
    if site == s[n].siteId && node == s[n].targetNodeId {
      assert s[n] in s[..n + 1];
    }
  }

  method ValidateNetworkInterface(i: NetworkInterface, zones: map<string, NetworkZone>, nodes: map<string, set<string>>,
                                  ghost bound: set<(string, string)>, t: Topology)
    returns (ok: bool)
    requires TreeOk(t.scopes, t.rootId) && NodesIndexed(nodes, bound)
    ensures ok <==> InterfaceOk(i, zones, bound, t)
  {
    hide TreeOk, InterfaceSyntaxOk, InterfacePlaced, LinkOk, AddressesOk;
    if !InterfaceSyntaxOk(i) {
      return false;
    }
    var placed := ValidatePlaced(i, zones, t);
    if !placed || i.siteId !in nodes || i.nodeId !in nodes[i.siteId] || !LinkOk(i) {
      return false;
    }
    ok := ValidateAddresses(i.addresses);
  }

  // ---- interfaces together ----

  function NameKey(i: NetworkInterface): string {
    NulJoin(i.nodeId, ToLower(i.name))
  }

  // The joined key stands for the node and the name without its case.
  lemma NameKeyMeaning(a: NetworkInterface, b: NetworkInterface)
    requires InterfaceSyntaxOk(a) && InterfaceSyntaxOk(b)
    ensures NameKey(a) == NameKey(b) <==> a.nodeId == b.nodeId && ToLower(a.name) == ToLower(b.name)
  {
    hide ValidIdentifier, ValidDisplayName, ToLower;
    IdentifierHoldsNoNul(a.nodeId);
    IdentifierHoldsNoNul(b.nodeId);
    NulJoinInjective(a.nodeId, ToLower(a.name), b.nodeId, ToLower(b.name));
  }

  ghost function OnNode(m: map<string, NetworkInterface>, node: string): set<string> {
    set id | id in m && m[id].nodeId == node
  }

  predicate ParentOk(i: NetworkInterface, m: map<string, NetworkInterface>) {
    i.parentInterfaceId != "" ==>
      && i.parentInterfaceId in m
      && var p := m[i.parentInterfaceId];
         p.id != i.id && p.nodeId == i.nodeId && p.siteId == i.siteId && p.scopeId == i.scopeId
  }

  // Node, parent and tag of a VLAN: identifiers hold no NUL and decimal
  // notation is unique, so the source's joined key is this triple.
  function VlanTag(i: NetworkInterface): Option<(string, string, nat)> {
    if i.parentInterfaceId != "" && i.kind == "vlan" && i.vlanId.Some? then Some((i.nodeId, i.parentInterfaceId, i.vlanId.value)) else None
  }

  // The k-th interface on the way up; "" past the top.
  function Up(parents: map<string, string>, id: string, k: nat): string {
    if k == 0 then id
    else
      var below := Up(parents, id, k - 1);
      if below in parents then parents[below] else ""
  }

  ghost predicate NoCycle(parents: map<string, string>) {
    forall id, k: nat | id in parents && k > 0 :: Up(parents, id, k) != id
  }

  ghost function Parents(m: map<string, NetworkInterface>): map<string, string> {
    map id | id in m :: m[id].parentInterfaceId
  }

  ghost predicate Neighbours(a: NetworkInterface, b: NetworkInterface) {
    NameKey(a) != NameKey(b) && (VlanTag(a).Some? ==> VlanTag(a) != VlanTag(b))
  }

  ghost predicate NetworkOk(zones: map<string, NetworkZone>, m: map<string, NetworkInterface>, bound: set<(string, string)>, t: Topology) {
    && (forall id | id in zones :: NetworkZoneOk(zones[id], t) && zones[id].id == id)
    && (forall id | id in m :: InterfaceOk(m[id], zones, bound, t) && m[id].id == id && ParentOk(m[id], m))
    && (forall a, b | a in m && b in m && a != b :: Neighbours(m[a], m[b]))
    && (forall node :: |OnNode(m, node)| <= MAX_INTERFACES_PER_NODE)
    && NoCycle(Parents(m))
  }

  // ---- the walk up the parents ----

  lemma {:induction false} UpAdd(parents: map<string, string>, id: string, i: nat, j: nat)
    ensures Up(parents, id, i + j) == Up(parents, Up(parents, id, i), j)
    decreases j
  {
    if j > 0 {
      UpAdd(parents, id, i, j - 1);
    }
  }

  lemma {:induction false} UpStays(parents: map<string, string>, k: nat)
    requires "" !in parents
    ensures Up(parents, "", k) == ""
  {
    if k > 0 {
      UpStays(parents, k - 1);
    }
  }

  lemma {:induction false} UpPeriodic(parents: map<string, string>, id: string, p: nat, n: nat)
    requires p > 0 && Up(parents, id, p) == id
    ensures exists k: nat :: k >= n && Up(parents, id, k) == id
  {
    if n == 0 {
      assert Up(parents, id, 0) == id;
    } else {
      UpPeriodic(parents, id, p, n - 1);
      var k: nat :| k >= n - 1 && Up(parents, id, k) == id;
      UpAdd(parents, id, k, p);
      assert k + p >= n && Up(parents, id, k + p) == id;
    }
  }

  // A chain that ends is no cycle.
  lemma EndingChain(parents: map<string, string>, id: string, top: nat, p: nat)
    requires "" !in parents && id in parents && Up(parents, id, top) == "" && p > 0
    ensures Up(parents, id, p) != id
  {
    hide Up;
    if Up(parents, id, p) == id {
      UpPeriodic(parents, id, p, top);
      var k: nat :| k >= top && Up(parents, id, k) == id;
      UpAdd(parents, id, top, k - top);
      UpStays(parents, k - top);
      assert false;
    }
  }

  // A walk that runs into a cycle never reaches the top.
  lemma CycleNeverEnds(parents: map<string, string>, id: string, i: nat, p: nat, k: nat)
    requires "" !in parents && Up(parents, id, i) in parents && p > 0
    requires Up(parents, Up(parents, id, i), p) == Up(parents, id, i)
    ensures Up(parents, id, k) != ""
  {
    hide Up;
    if Up(parents, id, k) == "" {
      if k >= i {
        UpAdd(parents, id, i, k - i);
        EndingChain(parents, Up(parents, id, i), k - i, p);
      } else {
        UpAdd(parents, id, k, i - k);
        UpStays(parents, i - k);
      }
      assert false;
    }
  }

  lemma UpNext(parents: map<string, string>, id: string, k: nat)
    ensures Up(parents, id, k + 1) == if Up(parents, id, k) in parents then parents[Up(parents, id, k)] else ""
  {
  }

  // The walk from one interface: it reaches the top, or meets itself.
  method WalkUp(parents: map<string, string>, id: string) returns (ok: bool, ghost steps: nat, ghost at: string)
    requires id in parents && "" !in parents && forall i | i in parents :: parents[i] == "" || parents[i] in parents
    ensures ok <==> exists k: nat :: Up(parents, id, k) == ""
    ensures ok ==> Up(parents, id, steps) == ""
    ensures !ok ==> at in parents && steps > 0 && Up(parents, at, steps) == at
  {
    var seen: set<string> := {};
    var current := id;
    ghost var k: nat := 0;
    ghost var first: map<string, nat> := map[];
    assert Up(parents, id, 0) == id;
    hide Up;
    while current != ""
      invariant current == Up(parents, id, k) && (current == "" || current in parents) && seen <= parents.Keys
      invariant seen == first.Keys && forall v | v in seen :: first[v] < k && Up(parents, id, first[v]) == v
      decreases parents.Keys - seen
    {
      if current in seen {
        UpAdd(parents, id, first[current], k - first[current]);
        forall j: nat ensures Up(parents, id, j) != "" {
          CycleNeverEnds(parents, id, first[current], k - first[current], j);
        }
        return false, k - first[current], current;
      }
      UpNext(parents, id, k);
      seen := seen + {current};
      first := first[current := k];
      current := parents[current];
      k := k + 1;
    }
    return true, k, "";
  }

  // All walks together detect exactly the cycles.
  method CheckCycles(parents: map<string, string>) returns (ok: bool)
    requires "" !in parents && forall i | i in parents :: parents[i] == "" || parents[i] in parents
    ensures ok <==> NoCycle(parents)
  {
    hide Up;
    var ids := AnyOrder(parents.Keys);
    for n := 0 to |ids|
      invariant forall i, p: nat | 0 <= i < n && p > 0 :: Up(parents, ids[i], p) != ids[i]
    {
      assert ids[n] in Elements(ids);
      ghost var steps: nat, at: string;
      var top: bool;
      top, steps, at := WalkUp(parents, ids[n]);
      if !top {
        return false;
      }
      forall p: nat | p > 0 ensures Up(parents, ids[n], p) != ids[n] {
        EndingChain(parents, ids[n], steps, p);
      }
    }
    forall id, p: nat | id in parents && p > 0 ensures Up(parents, id, p) != id {
      assert id in Elements(ids);
    }
    return true;
  }

  // ---- scanning zones ----

  ghost predicate NetworkZonesOk(zones: map<string, NetworkZone>, t: Topology) {
    forall id | id in zones :: NetworkZoneOk(zones[id], t) && zones[id].id == id
  }

  ghost predicate ZonesScanned(s: seq<NetworkZone>, n: nat, t: Topology, m: map<string, NetworkZone>)
    requires n <= |s|
  {
    && Distinct(Project(s, NetworkZoneId)[..n]) && m == Index(s[..n], NetworkZoneId) && m.Keys == Elements(Project(s, NetworkZoneId)[..n])
    && forall i | 0 <= i < n :: NetworkZoneOk(s[i], t)
  }

  lemma ZonesStart(s: seq<NetworkZone>, t: Topology)
    ensures ZonesScanned(s, 0, t, map[])
  {
    hide NetworkZoneOk;
  }

  lemma ZonesStep(s: seq<NetworkZone>, n: nat, t: Topology, m: map<string, NetworkZone>)
    requires n < |s| && ZonesScanned(s, n, t, m) && NetworkZoneOk(s[n], t) && s[n].id !in m
    ensures ZonesScanned(s, n + 1, t, m[s[n].id := s[n]])
  {
    hide NetworkZoneOk, Distinct, Index;
    SeenStep(Project(s, NetworkZoneId), n);
    IndexStep(s, NetworkZoneId, n);
  }

  lemma ZonesReject(s: seq<NetworkZone>, n: nat, t: Topology, m: map<string, NetworkZone>)
    requires n < |s| && ZonesScanned(s, n, t, m) && (!NetworkZoneOk(s[n], t) || s[n].id in m)
    ensures !Distinct(Project(s, NetworkZoneId)) || !NetworkZonesOk(Index(s, NetworkZoneId), t)
  {
    hide NetworkZoneOk, Distinct, Index;
    SeenStep(Project(s, NetworkZoneId), n);
    if Distinct(Project(s, NetworkZoneId)) {
      IndexMeaning(s, NetworkZoneId);
    }
  }

  lemma ZonesAll(s: seq<NetworkZone>, t: Topology, m: map<string, NetworkZone>)
    requires ZonesScanned(s, |s|, t, m)
    ensures Distinct(Project(s, NetworkZoneId)) && m == Index(s, NetworkZoneId) && NetworkZonesOk(m, t)
  {
    hide NetworkZoneOk, Distinct, Index;
    var ids := Project(s, NetworkZoneId);
    assert ids[..|s|] == ids && s[..|s|] == s;
    IndexKeys(s, NetworkZoneId);
  }

  method ScanZones(s: seq<NetworkZone>, t: Topology) returns (ok: bool, m: map<string, NetworkZone>)
    requires TreeOk(t.scopes, t.rootId)
    ensures ok <==> Distinct(Project(s, NetworkZoneId)) && NetworkZonesOk(Index(s, NetworkZoneId), t)
    ensures ok ==> m == Index(s, NetworkZoneId)
  {
    hide TreeOk, NetworkZoneOk, Distinct, Index, NetworkZonesOk;
    m := map[];
    ZonesStart(s, t);
    hide ZonesScanned;
    for n := 0 to |s|
      invariant ZonesScanned(s, n, t, m)
    {
      var wellFormed := ValidateNetworkZone(s[n], t);
      if !wellFormed || s[n].id in m {
        ZonesReject(s, n, t, m);
        return false, m;
      }
      ZonesStep(s, n, t, m);
      m := m[s[n].id := s[n]];
    }
    ZonesAll(s, t, m);
    ok := true;
  }

  // ---- scanning interfaces: fields, names and counts ----

  ghost predicate NamesDiffer(m: map<string, NetworkInterface>) {
    forall a, b | a in m && b in m && a != b :: NameKey(m[a]) != NameKey(m[b])
  }

  ghost predicate CountsFit(m: map<string, NetworkInterface>) {
    forall node :: |OnNode(m, node)| <= MAX_INTERFACES_PER_NODE
  }

  ghost predicate FieldsOk(m: map<string, NetworkInterface>, zones: map<string, NetworkZone>, bound: set<(string, string)>, t: Topology) {
    forall id | id in m :: InterfaceOk(m[id], zones, bound, t) && m[id].id == id
  }

  // What the first pass establishes.
  ghost predicate GatherOk(m: map<string, NetworkInterface>, zones: map<string, NetworkZone>, bound: set<(string, string)>, t: Topology) {
    FieldsOk(m, zones, bound, t) && NamesDiffer(m) && CountsFit(m)
  }

  ghost predicate Counted(m: map<string, NetworkInterface>, counts: map<string, nat>) {
    forall node :: |OnNode(m, node)| == if node in counts then counts[node] else 0
  }

  ghost predicate Gathered(s: seq<NetworkInterface>, n: nat, zones: map<string, NetworkZone>, bound: set<(string, string)>, t: Topology,
                           m: map<string, NetworkInterface>, names: set<string>)
    requires n <= |s|
  {
    && Distinct(Project(s, InterfaceId)[..n]) && m == Index(s[..n], InterfaceId) && m.Keys == Elements(Project(s, InterfaceId)[..n])
    && Distinct(Project(s, NameKey)[..n]) && names == Elements(Project(s, NameKey)[..n])
    && (forall i | 0 <= i < n :: InterfaceOk(s[i], zones, bound, t)) && CountsFit(m)
  }

  lemma GatheredStart(s: seq<NetworkInterface>, zones: map<string, NetworkZone>, bound: set<(string, string)>, t: Topology)
    ensures Gathered(s, 0, zones, bound, t, map[], {}) && Counted(map[], map[])
  {
    hide InterfaceOk, NameKey;
    forall node ensures OnNode(map[], node) == {} {
    }
  }

  lemma OnNodeStep(m: map<string, NetworkInterface>, i: NetworkInterface, node: string)
    requires i.id !in m
    ensures |OnNode(m[i.id := i], node)| == |OnNode(m, node)| + if node == i.nodeId then 1 else 0
  {
    assert OnNode(m[i.id := i], node) == OnNode(m, node) + if node == i.nodeId then {i.id} else {};
  }

  lemma CountedStep(m: map<string, NetworkInterface>, i: NetworkInterface, counts: map<string, nat>)
    requires Counted(m, counts) && CountsFit(m) && i.id !in m
    ensures var count := (if i.nodeId in counts then counts[i.nodeId] else 0) + 1;
      && Counted(m[i.id := i], counts[i.nodeId := count]) && |OnNode(m[i.id := i], i.nodeId)| == count
      && (count <= MAX_INTERFACES_PER_NODE ==> CountsFit(m[i.id := i]))
  {
    hide OnNode;
    var m' := m[i.id := i];
    forall node ensures |OnNode(m', node)| == |OnNode(m, node)| + if node == i.nodeId then 1 else 0 {
      OnNodeStep(m, i, node);
    }
  }

  lemma GatheredStep(s: seq<NetworkInterface>, n: nat, zones: map<string, NetworkZone>, bound: set<(string, string)>, t: Topology,
                     m: map<string, NetworkInterface>, names: set<string>)
    requires n < |s| && Gathered(s, n, zones, bound, t, m, names) && InterfaceOk(s[n], zones, bound, t)
    requires s[n].id !in m && NameKey(s[n]) !in names && CountsFit(m[s[n].id := s[n]])
    ensures Gathered(s, n + 1, zones, bound, t, m[s[n].id := s[n]], names + {NameKey(s[n])})
  {
    hide InterfaceOk, NameKey, Distinct, Index, CountsFit;
    SeenStep(Project(s, InterfaceId), n);
    SeenStep(Project(s, NameKey), n);
    IndexStep(s, InterfaceId, n);
  }

  lemma GatheredReject(s: seq<NetworkInterface>, n: nat, zones: map<string, NetworkZone>, bound: set<(string, string)>, t: Topology,
                       m: map<string, NetworkInterface>, names: set<string>)
    requires n < |s| && Gathered(s, n, zones, bound, t, m, names)
    requires !InterfaceOk(s[n], zones, bound, t) || s[n].id in m || NameKey(s[n]) in names
    ensures !Distinct(Project(s, InterfaceId)) || !GatherOk(Index(s, InterfaceId), zones, bound, t)
  {
    hide InterfaceOk, NameKey, Index, CountsFit;
    var ids, keys := Project(s, InterfaceId), Project(s, NameKey);
    SeenStep(ids, n);
    if Distinct(ids) {
      IndexMeaning(s, InterfaceId);
      if NameKey(s[n]) in names {
        var i :| 0 <= i < n && keys[..n][i] == keys[n];
        assert ids[i] != ids[n];
      }
    }
  }

  // A count over the limit stays over it as interfaces are added.
  lemma GatheredOverflow(s: seq<NetworkInterface>, n: nat, zones: map<string, NetworkZone>, bound: set<(string, string)>, t: Topology,
                         m: map<string, NetworkInterface>, names: set<string>)
    requires n < |s| && Gathered(s, n, zones, bound, t, m, names)
    requires |OnNode(m[s[n].id := s[n]], s[n].nodeId)| > MAX_INTERFACES_PER_NODE
    ensures !Distinct(Project(s, InterfaceId)) || !GatherOk(Index(s, InterfaceId), zones, bound, t)
  {
    hide InterfaceOk, NameKey, Index, OnNode, Distinct;
    IndexStep(s, InterfaceId, n);
    if Distinct(Project(s, InterfaceId)) {
      OnNodeGrows(s, n + 1, s[n].nodeId);
    }
  }

  lemma {:induction false} OnNodeGrows(s: seq<NetworkInterface>, n: nat, node: string)
    requires n <= |s| && Distinct(Project(s, InterfaceId))
    ensures |OnNode(Index(s[..n], InterfaceId), node)| <= |OnNode(Index(s, InterfaceId), node)|
    decreases |s| - n
  {
    hide Index, Distinct, OnNode;
    assert s[..|s|] == s;
    if n < |s| {
      OnNodeGrows(s, n + 1, node);
      IndexStep(s, InterfaceId, n);
      IndexKeys(s[..n], InterfaceId);
      var ids := Project(s, InterfaceId);
      SeenStep(ids, n);
      assert Project(s[..n], InterfaceId) == ids[..n];
      OnNodeStep(Index(s[..n], InterfaceId), s[n], node);
    }
  }

  lemma GatheredAll(s: seq<NetworkInterface>, zones: map<string, NetworkZone>, bound: set<(string, string)>, t: Topology,
                    m: map<string, NetworkInterface>, names: set<string>)
    requires Gathered(s, |s|, zones, bound, t, m, names)
    ensures Distinct(Project(s, InterfaceId)) && m == Index(s, InterfaceId) && GatherOk(m, zones, bound, t)
  {
    hide InterfaceOk, NameKey, Index, CountsFit, NamesDiffer, Distinct;
    var ids, keys := Project(s, InterfaceId), Project(s, NameKey);
    assert ids[..|s|] == ids && keys[..|s|] == keys && s[..|s|] == s;
    IndexKeys(s, InterfaceId);
    NamesFromList(s);
  }

  lemma NamesFromList(s: seq<NetworkInterface>)
    requires Distinct(Project(s, InterfaceId)) && Distinct(Project(s, NameKey))
    ensures NamesDiffer(Index(s, InterfaceId))
  {
    hide Index, NameKey;
    IndexKeys(s, InterfaceId);
    var m, keys := Index(s, InterfaceId), Project(s, NameKey);
    forall a, b | a in m && b in m && a != b ensures NameKey(m[a]) != NameKey(m[b]) {
      var i :| 0 <= i < |s| && s[i] == m[a];
      var j :| 0 <= j < |s| && s[j] == m[b];
      assert keys[i] != keys[j];
    }
  }

  lemma GatheredFits(s: seq<NetworkInterface>, n: nat, zones: map<string, NetworkZone>, bound: set<(string, string)>, t: Topology,
                     m: map<string, NetworkInterface>, names: set<string>)
    requires n <= |s| && Gathered(s, n, zones, bound, t, m, names)
    ensures CountsFit(m)
  {
  }

  method GatherInterfaces(s: seq<NetworkInterface>, zones: map<string, NetworkZone>, nodes: map<string, set<string>>,
                          ghost bound: set<(string, string)>, t: Topology)
    returns (ok: bool, m: map<string, NetworkInterface>)
    requires TreeOk(t.scopes, t.rootId) && NodesIndexed(nodes, bound)
    ensures ok <==> Distinct(Project(s, InterfaceId)) && GatherOk(Index(s, InterfaceId), zones, bound, t)
    ensures ok ==> m == Index(s, InterfaceId)
  {
    hide TreeOk, NodesIndexed, InterfaceOk, NameKey, Distinct, Index, GatherOk, CountsFit, OnNode;
    m := map[];
    var names: set<string> := {};
    var counts: map<string, nat> := map[];
    GatheredStart(s, zones, bound, t);
    hide Gathered, Counted;
    for n := 0 to |s|
      invariant Gathered(s, n, zones, bound, t, m, names) && Counted(m, counts)
    {
      var i := s[n];
      var wellFormed := ValidateNetworkInterface(i, zones, nodes, bound, t);
      if !wellFormed || i.id in m || NameKey(i) in names {
        GatheredReject(s, n, zones, bound, t, m, names);
        return false, m;
      }
      GatheredFits(s, n, zones, bound, t, m, names);
      CountedStep(m, i, counts);
      var count := (if i.nodeId in counts then counts[i.nodeId] else 0) + 1;
      if count > MAX_INTERFACES_PER_NODE {
        GatheredOverflow(s, n, zones, bound, t, m, names);
        return false, m;
      }
      GatheredStep(s, n, zones, bound, t, m, names);
      counts := counts[i.nodeId := count];
      m := m[i.id := i];
      names := names + {NameKey(i)};
    }
    GatheredAll(s, zones, bound, t, m, names);
    ok := true;
  }

  // ---- scanning interfaces: parents and VLANs ----

  ghost predicate ParentsOk(m: map<string, NetworkInterface>) {
    forall id | id in m :: ParentOk(m[id], m)
  }

  ghost predicate VlansDiffer(m: map<string, NetworkInterface>) {
    forall a, b | a in m && b in m && a != b && VlanTag(m[a]).Some? :: VlanTag(m[a]) != VlanTag(m[b])
  }

  ghost predicate ParentsLinked(s: seq<NetworkInterface>, n: nat, m: map<string, NetworkInterface>, parents: map<string, string>)
    requires n <= |s|
  {
    && parents.Keys == Elements(Project(s, InterfaceId)[..n])
    && forall i | 0 <= i < n :: ParentOk(s[i], m) && s[i].id in parents && parents[s[i].id] == s[i].parentInterfaceId
  }

  ghost predicate VlansLinked(tags: seq<Option<(string, string, nat)>>, n: nat, vlans: set<(string, string, nat)>)
    requires n <= |tags|
  {
    && (forall k :: k in vlans <==> Some(k) in tags[..n])
    && forall i, j | 0 <= i < j < n && tags[i].Some? :: tags[i] != tags[j]
  }

  lemma ParentsStep(s: seq<NetworkInterface>, n: nat, m: map<string, NetworkInterface>, parents: map<string, string>)
    requires n < |s| && ParentsLinked(s, n, m, parents) && ParentOk(s[n], m) && Distinct(Project(s, InterfaceId))
    ensures ParentsLinked(s, n + 1, m, parents[s[n].id := s[n].parentInterfaceId])
  {
    hide ParentOk;
    var ids := Project(s, InterfaceId);
    SeenStep(ids, n);
    assert forall i | 0 <= i < n :: ids[i] != ids[n];
  }

  lemma VlansStep(tags: seq<Option<(string, string, nat)>>, n: nat, vlans: set<(string, string, nat)>)
    requires n < |tags| && VlansLinked(tags, n, vlans) && (tags[n].Some? ==> tags[n].value !in vlans)
    ensures VlansLinked(tags, n + 1, if tags[n].Some? then vlans + {tags[n].value} else vlans)
  {
    assert tags[..n + 1] == tags[..n] + [tags[n]];
    forall i | 0 <= i < n && tags[i].Some? ensures tags[i] != tags[n] {
      assert tags[..n][i] == tags[i];
      assert Some(tags[i].value) in tags[..n];
    }
  }

  lemma LinkedReject(s: seq<NetworkInterface>, n: nat, m: map<string, NetworkInterface>, vlans: set<(string, string, nat)>)
    requires n < |s| && VlansLinked(Project(s, VlanTag), n, vlans) && Distinct(Project(s, InterfaceId)) && m == Index(s, InterfaceId)
    requires !ParentOk(s[n], m) || (VlanTag(s[n]).Some? && VlanTag(s[n]).value in vlans)
    ensures !ParentsOk(m) || !VlansDiffer(m)
  {
    hide ParentOk, VlanTag, Index;
    IndexMeaning(s, InterfaceId);
    var ids, tags := Project(s, InterfaceId), Project(s, VlanTag);
    assert m[ids[n]] == s[n];
    if ParentOk(s[n], m) {
      assert Some(tags[n].value) in tags[..n];
      var i :| 0 <= i < n && tags[..n][i] == tags[n];
      assert ids[i] != ids[n] && m[ids[i]] == s[i];
    }
  }

  lemma ParentsAll(s: seq<NetworkInterface>, m: map<string, NetworkInterface>, parents: map<string, string>)
    requires ParentsLinked(s, |s|, m, parents) && m == Index(s, InterfaceId)
    ensures ParentsOk(m) && parents == Parents(m)
  {
    hide ParentOk, Index;
    IndexKeys(s, InterfaceId);
    var ids := Project(s, InterfaceId);
    assert ids[..|s|] == ids;
    forall id | id in m ensures ParentOk(m[id], m) && id in parents && parents[id] == m[id].parentInterfaceId {
      var i :| 0 <= i < |s| && s[i] == m[id];
    }
  }

  lemma VlansAll(s: seq<NetworkInterface>, vlans: set<(string, string, nat)>)
    requires VlansLinked(Project(s, VlanTag), |s|, vlans)
    ensures VlansDiffer(Index(s, InterfaceId))
  {
    hide VlanTag, Index;
    IndexKeys(s, InterfaceId);
    var m, tags := Index(s, InterfaceId), Project(s, VlanTag);
    forall a, b | a in m && b in m && a != b && VlanTag(m[a]).Some? ensures VlanTag(m[a]) != VlanTag(m[b]) {
      var i :| 0 <= i < |s| && s[i] == m[a];
      var j :| 0 <= j < |s| && s[j] == m[b];
      assert tags[i] != tags[j];
    }
  }

  method LinkInterfaces(s: seq<NetworkInterface>, m: map<string, NetworkInterface>) returns (ok: bool, parents: map<string, string>)
    requires Distinct(Project(s, InterfaceId)) && m == Index(s, InterfaceId)
    ensures ok <==> ParentsOk(m) && VlansDiffer(m)
    ensures ok ==> parents == Parents(m)
  {
    parents := map[];
    var vlans: set<(string, string, nat)> := {};
    ghost var tags := Project(s, VlanTag);
    assert ParentsLinked(s, 0, m, parents) && VlansLinked(tags, 0, vlans);
    hide ParentOk, VlanTag, Index, Distinct, ParentsOk, VlansDiffer, ParentsLinked, VlansLinked;
    for n := 0 to |s|
      invariant ParentsLinked(s, n, m, parents) && VlansLinked(tags, n, vlans)
    {
      var tag := VlanTag(s[n]);
      if !ParentOk(s[n], m) || (tag.Some? && tag.value in vlans) {
        LinkedReject(s, n, m, vlans);
        return false, parents;
      }
      ParentsStep(s, n, m, parents);
      VlansStep(tags, n, vlans);
      parents := parents[s[n].id := s[n].parentInterfaceId];
      if tag.Some? {
        vlans := vlans + {tag.value};
      }
    }
    ParentsAll(s, m, parents);
    VlansAll(s, vlans);
    ok := true;
  }

  // ---- ValidateNetworkContracts ----

  // The passes together accept exactly the sound networks.
  method ValidateNetworkContracts(zones: seq<NetworkZone>, interfaces: seq<NetworkInterface>, assignments: seq<RoleAssignment>, t: Topology)
    returns (ok: bool)
    requires TreeOk(t.scopes, t.rootId)
    ensures ok <==>
      && Distinct(Project(zones, NetworkZoneId)) && Distinct(Project(interfaces, InterfaceId))
      && NetworkOk(Index(zones, NetworkZoneId), Index(interfaces, InterfaceId), BoundBy(assignments), t)
  {
    hide TreeOk, Distinct, Index, GatherOk, NetworkZonesOk, ParentsOk, VlansDiffer, NetworkOk, NoCycle, BoundBy, NodesIndexed;
    NetworkParts(Index(zones, NetworkZoneId), Index(interfaces, InterfaceId), BoundBy(assignments), t);
    var zoned, zonesById := ScanZones(zones, t);
    if !zoned {
      return false;
    }
    var nodes := IndexNodes(assignments);
    var gathered, byId := GatherInterfaces(interfaces, zonesById, nodes, BoundBy(assignments), t);
    if !gathered {
      return false;
    }
    var linked, parents := LinkInterfaces(interfaces, byId);
    if !linked {
      return false;
    }
    ParentsClosed(byId, zonesById, BoundBy(assignments), t);
    ok := CheckCycles(parents);
  }

  lemma NetworkParts(zones: map<string, NetworkZone>, m: map<string, NetworkInterface>, bound: set<(string, string)>, t: Topology)
    ensures NetworkOk(zones, m, bound, t) <==>
            NetworkZonesOk(zones, t) && GatherOk(m, zones, bound, t) && ParentsOk(m) && VlansDiffer(m) && NoCycle(Parents(m))
  {
    hide NetworkZoneOk, InterfaceOk, ParentOk, NameKey, VlanTag, NoCycle, OnNode;
    if NetworkZonesOk(zones, t) && GatherOk(m, zones, bound, t) && ParentsOk(m) && VlansDiffer(m) && NoCycle(Parents(m)) {
      forall a, b | a in m && b in m && a != b ensures Neighbours(m[a], m[b]) {
      }
    }
    if NetworkOk(zones, m, bound, t) {
      forall a, b | a in m && b in m && a != b ensures Neighbours(m[a], m[b]) {
      }
    }
  }

  lemma ParentsClosed(m: map<string, NetworkInterface>, zones: map<string, NetworkZone>, bound: set<(string, string)>, t: Topology)
    requires GatherOk(m, zones, bound, t) && ParentsOk(m)
    ensures "" !in Parents(m) && forall i | i in Parents(m) :: Parents(m)[i] == "" || Parents(m)[i] in Parents(m)
  {
    hide InterfaceOk, NamesDiffer, CountsFit;
    forall id | id in m ensures id != "" {
      InterfaceIdNotEmpty(m[id], zones, bound, t);
    }
  }

  lemma InterfaceIdNotEmpty(i: NetworkInterface, zones: map<string, NetworkZone>, bound: set<(string, string)>, t: Topology)
    requires InterfaceOk(i, zones, bound, t)
    ensures i.id != ""
  {
    hide InterfacePlaced, LinkOk, AddressesOk, ValidDisplayName;
  }
}
