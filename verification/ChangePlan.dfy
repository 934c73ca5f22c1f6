// Staged network change plans: validation and canonical form
// (internal/networkpolicy/change_plan.go, policy.go).
module ChangePlan {
  import opened Options
  import opened Sorting
  import opened Text

  // A textual "sha256:<hex>" identity. Sha256 is the digest of a canonical
  // document, equal exactly when the documents are; OtherText is any string
  // that is the digest of no document considered here.
  datatype DigestId<+T> = Sha256(content: T) | OtherText(text: string)

  // Every duration and instant is a number of nanoseconds; an instant counts
  // from the zero time, so IsZero is "== 0".
  const SECOND := 1_000_000_000
  const MINUTE := 60 * SECOND
  const MAX_INTERFACES := 64
  const MAX_FORWARDING := 128
  const MAX_PROBES := 128
  const MAX_PHASE_TIMEOUT := 15 * MINUTE
  const PLAN_SCHEMA := "network.change.plan/v1"

  datatype InterfaceIntent = InterfaceIntent(interfaceId: string, zone: string, changed: bool)

  datatype ForwardingIntent = ForwardingIntent(source: string, destination: string, explicitlyEnabled: bool, edgeGatewayAssigned: bool)

  datatype ProbeKind = LinkState | ZoneReachability | ControlPlane | UnknownKind(text: string)

  datatype ConnectivityProbe = ConnectivityProbe(id: string, kind: ProbeKind, interfaceId: string, zone: string)

  datatype TimeoutPolicy = TimeoutPolicy(snapshot: int, preflight: int, applyWindow: int, probe: int, rollback: int)

  datatype ChangePlanRequest = ChangePlanRequest(
    nodeId: string, revisionId: string, interfaces: seq<InterfaceIntent>, forwarding: seq<ForwardingIntent>,
    probes: seq<ConnectivityProbe>, timeouts: TimeoutPolicy)

  datatype Stage = SnapshotStage | PreflightStage | ApplyWindowStage | ProbesStage | DecisionStage

  datatype Action = CaptureRecoverySnapshot | ValidateNetworkContract | ValidateManagementPath | AuthorizeForwarding
                  | OpenTemporaryWindow | RunConnectivityProbes | CommitOrRollback

  datatype ChangeStep = ChangeStep(order: int, stage: Stage, action: Action)

  // Everything of a plan but its identity.
  datatype PlanBody = PlanBody(
    schemaVersion: string, nodeId: string, revisionId: string, interfaces: seq<InterfaceIntent>,
    forwarding: seq<ForwardingIntent>, forwardingDefaultDeny: bool, probes: seq<ConnectivityProbe>,
    timeouts: TimeoutPolicy, steps: seq<ChangeStep>)

  type PlanId = DigestId<PlanBody>

  datatype ChangePlan = ChangePlan(planId: PlanId, body: PlanBody)

  const STEPS := [
    ChangeStep(1, SnapshotStage, CaptureRecoverySnapshot),
    ChangeStep(2, PreflightStage, ValidateNetworkContract),
    ChangeStep(3, PreflightStage, ValidateManagementPath),
    ChangeStep(4, PreflightStage, AuthorizeForwarding),
    ChangeStep(5, ApplyWindowStage, OpenTemporaryWindow),
    ChangeStep(6, ProbesStage, RunConnectivityProbes),
    ChangeStep(7, DecisionStage, CommitOrRollback)]

  // ---- single fields ----

  predicate ValidIdentifier(s: string) {
    IsIdentifier(s, "._-", 128)
  }

  predicate ValidZone(z: string) {
    z in {"WAN", "LAN", "MANAGEMENT", "DMZ", "CLUSTER", "STORAGE", "BACKUP"}
  }

  function CanonicalZone(z: string): string {
    ToUpper(TrimSpace(z))
  }

  lemma ValidZoneIsCanonical(z: string)
    requires ValidZone(z)
    ensures CanonicalZone(z) == z && NUL !in z
  {
    assert z != [] && forall i | 0 <= i < |z| :: 'A' <= z[i] <= 'Z';
    assert !IsSpace(z[0]) && !IsSpace(z[|z| - 1]);
    assert TrimSpace(z) == z;
    assert ToUpper(z) == z;
  }

  predicate ValidTimeout(t: int) {
    0 < t <= MAX_PHASE_TIMEOUT
  }

  predicate ValidTimeouts(t: TimeoutPolicy) {
    && ValidTimeout(t.snapshot) && ValidTimeout(t.preflight) && ValidTimeout(t.applyWindow)
    && ValidTimeout(t.probe) && ValidTimeout(t.rollback)
    && t.probe <= t.applyWindow
  }

  // Same-zone traffic is not forwarding; anything else needs an explicit
  // opt-in, and WAN an edge gateway as well.
  predicate ForwardingAuthorized(f: ForwardingIntent) {
    && ValidZone(f.source) && ValidZone(f.destination)
    && (f.source == f.destination
        || (f.explicitlyEnabled && ((f.source != "WAN" && f.destination != "WAN") || f.edgeGatewayAssigned)))
  }

  // ---- interfaces ----

  function CanonicalInterface(i: InterfaceIntent): InterfaceIntent {
    i.(interfaceId := TrimSpace(i.interfaceId), zone := CanonicalZone(i.zone))
  }

  predicate InterfaceOk(i: InterfaceIntent) {
    ValidIdentifier(i.interfaceId) && ValidZone(i.zone)
  }

  predicate InterfaceLess(a: InterfaceIntent, b: InterfaceIntent) {
    Less(a.interfaceId, b.interfaceId)
  }

  function Interfaces(s: seq<InterfaceIntent>): seq<InterfaceIntent> {
    Project(s, CanonicalInterface)
  }

  function InterfaceKey(x: InterfaceIntent): string {
    x.interfaceId
  }

  function InterfaceIds(s: seq<InterfaceIntent>): seq<string> {
    Project(s, InterfaceKey)
  }

  ghost predicate InterfacesOk(s: seq<InterfaceIntent>) {
    && 1 <= |s| <= MAX_INTERFACES
    && (forall i | 0 <= i < |s| :: InterfaceOk(s[i]))
    && Distinct(InterfaceIds(s))
    && (exists i | 0 <= i < |s| :: s[i].changed)
  }

  ghost function CanonicalInterfaces(input: seq<InterfaceIntent>): Option<seq<InterfaceIntent>> {
    if InterfacesOk(Interfaces(input)) then Some(Sort(Interfaces(input), InterfaceLess)) else None
  }

  // byId is the lookup table of s.
  ghost predicate Indexes(byId: map<string, InterfaceIntent>, s: seq<InterfaceIntent>) {
    && (forall i | 0 <= i < |s| :: s[i].interfaceId in byId && byId[s[i].interfaceId] == s[i])
    && (forall k | k in byId :: byId[k] in s && byId[k].interfaceId == k)
  }

  lemma IndexStep(byId: map<string, InterfaceIntent>, s: seq<InterfaceIntent>, x: InterfaceIntent)
    requires Indexes(byId, s) && x.interfaceId !in byId
    ensures Indexes(byId[x.interfaceId := x], s + [x])
  {
    var t, byId' := s + [x], byId[x.interfaceId := x];
    forall i | 0 <= i < |t| ensures t[i].interfaceId in byId' && byId'[t[i].interfaceId] == t[i] {
      assert i < |s| ==> t[i] == s[i];
    }
    forall k | k in byId' ensures byId'[k] in t && byId'[k].interfaceId == k {
      assert k != x.interfaceId ==> byId[k] in s;
    }
  }

  // What the scan knows after n interfaces.
  ghost predicate InterfacesScanned(all: seq<InterfaceIntent>, n: nat, list: seq<InterfaceIntent>, byId: map<string, InterfaceIntent>, changed: int)
  {
    && n <= |all| && list == all[..n] && Indexes(byId, list)
    && byId.Keys == Elements(InterfaceIds(all)[..n])
    && (forall i | 0 <= i < n :: InterfaceOk(all[i]))
    && Distinct(InterfaceIds(all)[..n])
    && changed >= 0 && (changed > 0 <==> exists x :: x in list && x.changed)
  }

  lemma InterfacesScanStep(all: seq<InterfaceIntent>, n: nat, list: seq<InterfaceIntent>, byId: map<string, InterfaceIntent>, changed: int)
    requires InterfacesScanned(all, n, list, byId, changed) && n < |all|
    ensures all[n].interfaceId in byId ==> !InterfacesOk(all)
    ensures InterfaceOk(all[n]) && all[n].interfaceId !in byId ==>
      InterfacesScanned(all, n + 1, list + [all[n]], byId[all[n].interfaceId := all[n]], if all[n].changed then changed + 1 else changed)
  {
    hide InterfaceOk, Indexes, Distinct;
    var x := all[n];
    SeenStep(InterfaceIds(all), n);
    if x.interfaceId !in byId && InterfaceOk(x) {
      IndexStep(byId, list, x);
      assert forall y :: y in list + [x] <==> y in list || y == x;
    }
  }

  lemma InterfacesScanEnd(all: seq<InterfaceIntent>, list: seq<InterfaceIntent>, byId: map<string, InterfaceIntent>, changed: int)
    requires InterfacesScanned(all, |all|, list, byId, changed)
    ensures list == all && Indexes(byId, all)
    ensures InterfacesOk(all) <==> 1 <= |all| <= MAX_INTERFACES && changed > 0
  {
    hide ValidIdentifier, ValidZone;
    assert list == all && InterfaceIds(all)[..|all|] == InterfaceIds(all);
  }

  method BuildCanonicalInterfaces(input: seq<InterfaceIntent>)
    returns (result: Option<seq<InterfaceIntent>>, byId: map<string, InterfaceIntent>)
    ensures result == CanonicalInterfaces(input)
    ensures result.Some? ==> Indexes(byId, Interfaces(input))
  {
    hide ValidIdentifier, ValidZone, TrimSpace, Sort;
    ghost var all := Interfaces(input);
    byId := map[];
    if |input| == 0 || |input| > MAX_INTERFACES {
      return None, byId;
    }
    var list: seq<InterfaceIntent> := [];
    var changed := 0;
    assert InterfacesScanned(all, 0, list, byId, changed);
    hide InterfacesScanned, Distinct, Indexes;
    for n := 0 to |input|
      invariant InterfacesScanned(all, n, list, byId, changed)
    {
      var item := CanonicalInterface(input[n]);
      InterfacesScanStep(all, n, list, byId, changed);
      if !InterfaceOk(item) || item.interfaceId in byId {
        return None, byId;
      }
      if item.changed {
        changed := changed + 1;
      }
      byId := byId[item.interfaceId := item];
      list := list + [item];
    }
    InterfacesScanEnd(all, list, byId, changed);
    if changed == 0 {
      return None, byId;
    }
    result := Some(Sort(list, InterfaceLess));
  }

  // ---- forwarding ----

  function CanonicalForward(f: ForwardingIntent): ForwardingIntent {
    f.(source := CanonicalZone(f.source), destination := CanonicalZone(f.destination))
  }

  predicate ForwardLess(a: ForwardingIntent, b: ForwardingIntent) {
    if a.source == b.source then Less(a.destination, b.destination) else Less(a.source, b.source)
  }

  function Forwards(s: seq<ForwardingIntent>): seq<ForwardingIntent> {
    Project(s, CanonicalForward)
  }

  ghost predicate ForwardOk(f: ForwardingIntent, interfaces: seq<InterfaceIntent>) {
    && ForwardingAuthorized(f)
    && (exists i | 0 <= i < |interfaces| :: interfaces[i].zone == f.source)
    && (exists i | 0 <= i < |interfaces| :: interfaces[i].zone == f.destination)
  }

  function ForwardKey(x: ForwardingIntent): (string, string) {
    (x.source, x.destination)
  }

  function ForwardPairs(s: seq<ForwardingIntent>): seq<(string, string)> {
    Project(s, ForwardKey)
  }

  // The NUL-joined keys under which pairs of zones are remembered.
  function ForwardKeys(s: seq<(string, string)>): set<string> {
    set p | p in s :: NulJoin(p.0, p.1)
  }

  lemma ForwardKeyStep(s: seq<(string, string)>, p: (string, string))
    requires NUL !in p.0 && forall q | q in s :: NUL !in q.0
    ensures NulJoin(p.0, p.1) in ForwardKeys(s) <==> p in s
    ensures ForwardKeys(s + [p]) == ForwardKeys(s) + {NulJoin(p.0, p.1)}
  {
    forall q | q in s ensures NulJoin(q.0, q.1) == NulJoin(p.0, p.1) <==> q == p {
      NulJoinInjective(q.0, q.1, p.0, p.1);
    }
    assert forall q :: q in s + [p] <==> q in s || q == p;
  }

  ghost predicate ForwardsOk(s: seq<ForwardingIntent>, interfaces: seq<InterfaceIntent>) {
    && |s| <= MAX_FORWARDING
    && (forall i | 0 <= i < |s| :: ForwardOk(s[i], interfaces))
    && Distinct(ForwardPairs(s))
  }

  ghost function CanonicalForwarding(input: seq<ForwardingIntent>, interfaces: seq<InterfaceIntent>): Option<seq<ForwardingIntent>> {
    if ForwardsOk(Forwards(input), interfaces) then Some(Sort(Forwards(input), ForwardLess)) else None
  }

  // ForwardOk by lookup in the set of declared zones.
  predicate DeclaredForwardOk(f: ForwardingIntent, zones: set<string>) {
    ForwardingAuthorized(f) && f.source in zones && f.destination in zones
  }

  method BuildCanonicalForwarding(input: seq<ForwardingIntent>, byId: map<string, InterfaceIntent>, ghost interfaces: seq<InterfaceIntent>)
    returns (result: Option<seq<ForwardingIntent>>)
    requires Indexes(byId, interfaces)
    ensures result == CanonicalForwarding(input, interfaces)
  {
    hide Sort, TrimSpace, ToUpper, ValidZone;
    ghost var all := Forwards(input);
    ghost var pairs := ForwardPairs(all);
    if |input| > MAX_FORWARDING {
      return None;
    }
    var zones := set k | k in byId :: byId[k].zone;
    ZonesOfIndex(byId, interfaces, zones);
    var list: seq<ForwardingIntent> := [];
    var seen: set<string> := {};
    assert Distinct(pairs[..0]);
    hide Distinct, ForwardOk, DeclaredForwardOk, NulJoin;
    for n := 0 to |input|
      invariant list == all[..n]
      invariant forall i | 0 <= i < n :: ForwardOk(all[i], interfaces)
      invariant forall p | p in pairs[..n] :: NUL !in p.0
      invariant Distinct(pairs[..n]) && seen == ForwardKeys(pairs[..n])
    {
      var item := CanonicalForward(input[n]);
      DeclaredForward(item, zones, interfaces);
      if !DeclaredForwardOk(item, zones) {
        return None;
      }
      SeenStep(pairs, n);
      assert pairs[..n + 1] == pairs[..n] + [pairs[n]];
      ForwardKeyStep(pairs[..n], pairs[n]);
      if NulJoin(item.source, item.destination) in seen {
        return None;
      }
      seen := seen + {NulJoin(item.source, item.destination)};
      list := list + [item];
    }
    assert list == all && pairs[..|input|] == pairs;
    result := Some(Sort(list, ForwardLess));
  }

  lemma DeclaredForward(f: ForwardingIntent, zones: set<string>, interfaces: seq<InterfaceIntent>)
    requires forall z :: z in zones <==> exists i | 0 <= i < |interfaces| :: interfaces[i].zone == z
    ensures DeclaredForwardOk(f, zones) <==> ForwardOk(f, interfaces)
    ensures DeclaredForwardOk(f, zones) ==> NUL !in f.source
  {
    if DeclaredForwardOk(f, zones) {
      ValidZoneIsCanonical(f.source);
    }
  }

  lemma ZonesOfIndex(byId: map<string, InterfaceIntent>, interfaces: seq<InterfaceIntent>, zones: set<string>)
    requires Indexes(byId, interfaces) && zones == set k | k in byId :: byId[k].zone
    ensures forall z :: z in zones <==> exists i | 0 <= i < |interfaces| :: interfaces[i].zone == z
  {
    forall z ensures z in zones <==> exists i | 0 <= i < |interfaces| :: interfaces[i].zone == z {
      if z in zones {
        var k :| k in byId && byId[k].zone == z;
        assert byId[k] in interfaces;
      }
      if i :| 0 <= i < |interfaces| && interfaces[i].zone == z {
        assert byId[interfaces[i].interfaceId].zone == z;
      }
    }
  }

  // ---- probes ----

  function CanonicalProbe(p: ConnectivityProbe): ConnectivityProbe {
    p.(id := TrimSpace(p.id), interfaceId := TrimSpace(p.interfaceId), zone := CanonicalZone(p.zone))
  }

  predicate ProbeLess(a: ConnectivityProbe, b: ConnectivityProbe) {
    Less(a.id, b.id)
  }

  function Probes(s: seq<ConnectivityProbe>): seq<ConnectivityProbe> {
    Project(s, CanonicalProbe)
  }

  ghost predicate ProbeOk(p: ConnectivityProbe, interfaces: seq<InterfaceIntent>) {
    && ValidIdentifier(p.id) && ValidIdentifier(p.interfaceId) && !p.kind.UnknownKind?
    && (exists i | 0 <= i < |interfaces| :: interfaces[i].interfaceId == p.interfaceId && interfaces[i].zone == p.zone)
  }

  // ProbeOk by lookup in the interface table.
  predicate IndexedProbeOk(p: ConnectivityProbe, byId: map<string, InterfaceIntent>) {
    && ValidIdentifier(p.id) && ValidIdentifier(p.interfaceId) && !p.kind.UnknownKind?
    && p.interfaceId in byId && byId[p.interfaceId].zone == p.zone
  }

  lemma IndexedProbe(p: ConnectivityProbe, byId: map<string, InterfaceIntent>, interfaces: seq<InterfaceIntent>)
    requires Indexes(byId, interfaces)
    ensures IndexedProbeOk(p, byId) <==> ProbeOk(p, interfaces)
  {
    if p.interfaceId in byId {
      assert byId[p.interfaceId] in interfaces;
    }
  }

  function ProbeKey(x: ConnectivityProbe): string {
    x.id
  }

  function ProbeIds(s: seq<ConnectivityProbe>): seq<string> {
    Project(s, ProbeKey)
  }

  ghost predicate ProbesOk(s: seq<ConnectivityProbe>, interfaces: seq<InterfaceIntent>) {
    && 1 <= |s| <= MAX_PROBES
    && (forall i | 0 <= i < |s| :: ProbeOk(s[i], interfaces))
    && Distinct(ProbeIds(s))
  }

  ghost function CanonicalProbes(input: seq<ConnectivityProbe>, interfaces: seq<InterfaceIntent>): Option<seq<ConnectivityProbe>> {
    if ProbesOk(Probes(input), interfaces) then Some(Sort(Probes(input), ProbeLess)) else None
  }

  method BuildCanonicalProbes(input: seq<ConnectivityProbe>, byId: map<string, InterfaceIntent>, ghost interfaces: seq<InterfaceIntent>)
    returns (result: Option<seq<ConnectivityProbe>>)
    requires Indexes(byId, interfaces)
    ensures result == CanonicalProbes(input, interfaces)
  {
    hide Sort, TrimSpace, ToUpper, ValidIdentifier, ValidZone, CanonicalZone;
    ghost var all := Probes(input);
    ghost var ids := ProbeIds(all);
    if |input| == 0 || |input| > MAX_PROBES {
      return None;
    }
    var list: seq<ConnectivityProbe> := [];
    var seen: set<string> := {};
    for n := 0 to |input|
      invariant list == all[..n]
      invariant forall i | 0 <= i < n :: ProbeOk(all[i], interfaces)
      invariant Distinct(ids[..n]) && seen == Elements(ids[..n])
    {
      var item := CanonicalProbe(input[n]);
      IndexedProbe(item, byId, interfaces);
      if !IndexedProbeOk(item, byId) {
        return None;
      }
      SeenStep(ids, n);
      if item.id in seen {
        return None;
      }
      seen := seen + {item.id};
      list := list + [item];
    }
    assert list == all && ids[..|input|] == ids;
    result := Some(Sort(list, ProbeLess));
  }

  // ---- coverage ----

  ghost predicate Covered(interfaces: seq<InterfaceIntent>, probes: seq<ConnectivityProbe>) {
    && (forall i | 0 <= i < |interfaces| && interfaces[i].changed ::
          exists j | 0 <= j < |probes| :: probes[j].interfaceId == interfaces[i].interfaceId)
    && (exists j | 0 <= j < |probes| :: probes[j].kind.ControlPlane? && probes[j].zone in {"MANAGEMENT", "LAN"})
  }

  method ValidateProbeCoverage(interfaces: seq<InterfaceIntent>, probes: seq<ConnectivityProbe>) returns (ok: bool)
    ensures ok <==> Covered(interfaces, probes)
  {
    var covered: set<string> := {};
    var managementPath := false;
    for n := 0 to |probes|
      invariant covered == set j | 0 <= j < n :: probes[j].interfaceId
      invariant managementPath <==> exists j | 0 <= j < n :: probes[j].kind.ControlPlane? && probes[j].zone in {"MANAGEMENT", "LAN"}
    {
      covered := covered + {probes[n].interfaceId};
      if probes[n].kind.ControlPlane? && (probes[n].zone == "MANAGEMENT" || probes[n].zone == "LAN") {
        managementPath := true;
      }
    }
    for n := 0 to |interfaces|
      invariant forall i | 0 <= i < n && interfaces[i].changed :: interfaces[i].interfaceId in covered
    {
      if interfaces[n].changed && interfaces[n].interfaceId !in covered {
        return false;
      }
    }
    return managementPath;
  }

  // ---- the plan ----

  // The plan a request stands for, or None when it is rejected.
  ghost function PlanFor(request: ChangePlanRequest): Option<ChangePlan> {
    var interfaces, forwarding, probes :=
      CanonicalInterfaces(request.interfaces),
      CanonicalForwarding(request.forwarding, Interfaces(request.interfaces)),
      CanonicalProbes(request.probes, Interfaces(request.interfaces));
    if && ValidIdentifier(TrimSpace(request.nodeId)) && ValidIdentifier(TrimSpace(request.revisionId))
       && ValidTimeouts(request.timeouts)
       && interfaces.Some? && forwarding.Some? && probes.Some?
       && Covered(interfaces.value, probes.value)
    then
      var body := PlanBody(PLAN_SCHEMA, TrimSpace(request.nodeId), TrimSpace(request.revisionId), interfaces.value,
                           forwarding.value, true, probes.value, request.timeouts, STEPS);
      Some(ChangePlan(Sha256(body), body))
    else None
  }

  method BuildChangePlan(request: ChangePlanRequest) returns (result: Option<ChangePlan>)
    ensures result == PlanFor(request)
  {
    var nodeId, revisionId := TrimSpace(request.nodeId), TrimSpace(request.revisionId);
    if !ValidIdentifier(nodeId) || !ValidIdentifier(revisionId) || !ValidTimeouts(request.timeouts) {
      return None;
    }
    var interfaces, byId := BuildCanonicalInterfaces(request.interfaces);
    if interfaces.None? {
      return None;
    }
    var forwarding := BuildCanonicalForwarding(request.forwarding, byId, Interfaces(request.interfaces));
    if forwarding.None? {
      return None;
    }
    var probes := BuildCanonicalProbes(request.probes, byId, Interfaces(request.interfaces));
    if probes.None? {
      return None;
    }
    var covered := ValidateProbeCoverage(interfaces.value, probes.value);
    if !covered {
      return None;
    }
    var body := PlanBody(PLAN_SCHEMA, nodeId, revisionId, interfaces.value, forwarding.value, true, probes.value,
                         request.timeouts, STEPS);
    result := Some(ChangePlan(Sha256(body), body));
  }

  // The request that carries a plan's own fields, as integrity checks rebuild it.
  function RequestOf(plan: ChangePlan): ChangePlanRequest {
    ChangePlanRequest(plan.body.nodeId, plan.body.revisionId, plan.body.interfaces, plan.body.forwarding,
                      plan.body.probes, plan.body.timeouts)
  }

  // The integrity check of NewChangeMachine: rebuilding reproduces the plan.
  ghost predicate Canonical(plan: ChangePlan) {
    PlanFor(RequestOf(plan)) == Some(plan)
  }

  // ---- what building guarantees ----

  lemma OrdersAreWeak()
    ensures WeakOrder(InterfaceLess) && WeakOrder(ForwardLess) && WeakOrder(ProbeLess)
  {
    LessIsWeakOrder();
    assert WeakOrder(InterfaceLess) by {
      forall a, b | InterfaceLess(a, b) ensures !InterfaceLess(b, a) {
        LessAsymmetric(a.interfaceId, b.interfaceId);
      }
      forall a, b, c | InterfaceLess(a, b) ensures InterfaceLess(a, c) || InterfaceLess(c, b) {
        assert Less(a.interfaceId, b.interfaceId);
      }
    }
    assert WeakOrder(ProbeLess) by {
      forall a, b | ProbeLess(a, b) ensures !ProbeLess(b, a) {
        LessAsymmetric(a.id, b.id);
      }
      forall a, b, c | ProbeLess(a, b) ensures ProbeLess(a, c) || ProbeLess(c, b) {
        assert Less(a.id, b.id);
      }
    }
    ForwardOrderIsWeak();
  }

  lemma ForwardOrderIsWeak()
    ensures WeakOrder(ForwardLess)
  {
    LessIsWeakOrder();
    forall a, b | ForwardLess(a, b) ensures !ForwardLess(b, a) {
      assert Less(a.source, b.source) || Less(a.destination, b.destination);
    }
    forall a, b, c | ForwardLess(a, b) ensures ForwardLess(a, c) || ForwardLess(c, b) {
      LessTotal(a.source, c.source);
      LessTotal(c.source, b.source);
      if a.source == b.source {
        assert Less(a.destination, b.destination);
      } else {
        assert Less(a.source, b.source);
      }
    }
  }

  // A rearrangement of acceptable interfaces is acceptable.
  lemma InterfacesPermuted(s: seq<InterfaceIntent>, t: seq<InterfaceIntent>)
    requires InterfacesOk(s) && multiset(s) == multiset(t)
    ensures InterfacesOk(t)
  {
    hide InterfaceOk;
    SameElements(s, t);
    ProjectPermuted(s, t, InterfaceKey);
    PermutedDistinct(InterfaceIds(s), InterfaceIds(t));
    var i :| 0 <= i < |s| && s[i].changed;
    assert s[i] in t;
    assert forall k | 0 <= k < |t| :: t[k] in s;
  }

  lemma SameElements<T>(s: seq<T>, t: seq<T>)
    requires multiset(s) == multiset(t)
    ensures |s| == |t| && forall x :: x in s <==> x in t
  {
    assert |s| == |multiset(s)| == |multiset(t)| == |t|;
    forall x ensures x in s <==> x in t {
      assert x in s <==> x in multiset(s);
      assert x in t <==> x in multiset(t);
    }
  }

  lemma ForwardsPermuted(s: seq<ForwardingIntent>, t: seq<ForwardingIntent>, a: seq<InterfaceIntent>, b: seq<InterfaceIntent>)
    requires ForwardsOk(s, a) && multiset(s) == multiset(t) && multiset(a) == multiset(b)
    ensures ForwardsOk(t, b)
  {
    hide ForwardingAuthorized;
    SameElements(s, t);
    SameElements(a, b);
    ProjectPermuted(s, t, ForwardKey);
    PermutedDistinct(ForwardPairs(s), ForwardPairs(t));
    forall i | 0 <= i < |t| ensures ForwardOk(t[i], b) {
      assert t[i] in s && ForwardOk(t[i], a);
      var j :| 0 <= j < |a| && a[j].zone == t[i].source;
      var k :| 0 <= k < |a| && a[k].zone == t[i].destination;
      assert a[j] in b && a[k] in b;
    }
  }

  lemma ProbesPermuted(s: seq<ConnectivityProbe>, t: seq<ConnectivityProbe>, a: seq<InterfaceIntent>, b: seq<InterfaceIntent>)
    requires ProbesOk(s, a) && multiset(s) == multiset(t) && multiset(a) == multiset(b)
    ensures ProbesOk(t, b)
  {
    hide ValidIdentifier;
    SameElements(s, t);
    SameElements(a, b);
    ProjectPermuted(s, t, ProbeKey);
    PermutedDistinct(ProbeIds(s), ProbeIds(t));
    forall i | 0 <= i < |t| ensures ProbeOk(t[i], b) {
      assert t[i] in s && ProbeOk(t[i], a);
      var j :| 0 <= j < |a| && a[j].interfaceId == t[i].interfaceId && a[j].zone == t[i].zone;
      assert a[j] in b;
    }
  }

  // Distinct keys make the sort order decisive.
  lemma KeysSeparate(s: seq<InterfaceIntent>, f: seq<ForwardingIntent>, p: seq<ConnectivityProbe>)
    ensures Distinct(InterfaceIds(s)) ==> Separates(s, InterfaceLess)
    ensures Distinct(ForwardPairs(f)) ==> Separates(f, ForwardLess)
    ensures Distinct(ProbeIds(p)) ==> Separates(p, ProbeLess)
  {
    forall i, j | 0 <= i < |s| && 0 <= j < |s| && s[i] != s[j] && Distinct(InterfaceIds(s))
      ensures InterfaceLess(s[i], s[j]) || InterfaceLess(s[j], s[i])
    {
      assert InterfaceIds(s)[i] != InterfaceIds(s)[j];
      LessTotal(s[i].interfaceId, s[j].interfaceId);
    }
    forall i, j | 0 <= i < |f| && 0 <= j < |f| && f[i] != f[j] && Distinct(ForwardPairs(f))
      ensures ForwardLess(f[i], f[j]) || ForwardLess(f[j], f[i])
    {
      assert ForwardPairs(f)[i] != ForwardPairs(f)[j];
      LessTotal(f[i].source, f[j].source);
      LessTotal(f[i].destination, f[j].destination);
    }
    forall i, j | 0 <= i < |p| && 0 <= j < |p| && p[i] != p[j] && Distinct(ProbeIds(p))
      ensures ProbeLess(p[i], p[j]) || ProbeLess(p[j], p[i])
    {
      assert ProbeIds(p)[i] != ProbeIds(p)[j];
      LessTotal(p[i].id, p[j].id);
    }
  }

  // Sections of the plan do not depend on the order they are listed in.
  lemma SectionsOrderFree(a: seq<InterfaceIntent>, a': seq<InterfaceIntent>, f: seq<ForwardingIntent>, f': seq<ForwardingIntent>,
                          p: seq<ConnectivityProbe>, p': seq<ConnectivityProbe>)
    requires multiset(a) == multiset(a') && multiset(f) == multiset(f') && multiset(p) == multiset(p')
    ensures CanonicalInterfaces(a) == CanonicalInterfaces(a')
    ensures CanonicalForwarding(f, Interfaces(a)) == CanonicalForwarding(f', Interfaces(a'))
    ensures CanonicalProbes(p, Interfaces(a)) == CanonicalProbes(p', Interfaces(a'))
  {
    hide InterfacesOk, ForwardsOk, ProbesOk, Sort, WeakOrder, Separates;
    ProjectPermuted(a, a', CanonicalInterface);
    ProjectPermuted(f, f', CanonicalForward);
    ProjectPermuted(p, p', CanonicalProbe);
    OrdersAreWeak();
    SortOrderFree(Interfaces(a), Interfaces(a'), Forwards(f), Forwards(f'), Probes(p), Probes(p'));
  }

  lemma SortOrderFree(a: seq<InterfaceIntent>, a': seq<InterfaceIntent>, f: seq<ForwardingIntent>, f': seq<ForwardingIntent>,
                      p: seq<ConnectivityProbe>, p': seq<ConnectivityProbe>)
    requires multiset(a) == multiset(a') && multiset(f) == multiset(f') && multiset(p) == multiset(p')
    ensures InterfacesOk(a) <==> InterfacesOk(a')
    ensures InterfacesOk(a) ==> Sort(a, InterfaceLess) == Sort(a', InterfaceLess)
    ensures ForwardsOk(f, a) <==> ForwardsOk(f', a')
    ensures ForwardsOk(f, a) ==> Sort(f, ForwardLess) == Sort(f', ForwardLess)
    ensures ProbesOk(p, a) <==> ProbesOk(p', a')
    ensures ProbesOk(p, a) ==> Sort(p, ProbeLess) == Sort(p', ProbeLess)
  {
    hide InterfaceOk, ForwardOk, ProbeOk, Sort, WeakOrder, Separates, Distinct;
    OrdersAreWeak();
    KeysSeparate(a, f, p);
    if InterfacesOk(a) {
      InterfacesPermuted(a, a');
      SortCanonical(a, a', InterfaceLess);
    }
    if InterfacesOk(a') {
      InterfacesPermuted(a', a);
    }
    if ForwardsOk(f, a) {
      ForwardsPermuted(f, f', a, a');
      SortCanonical(f, f', ForwardLess);
    }
    if ForwardsOk(f', a') {
      ForwardsPermuted(f', f, a', a);
    }
    if ProbesOk(p, a) {
      ProbesPermuted(p, p', a, a');
      SortCanonical(p, p', ProbeLess);
    }
    if ProbesOk(p', a') {
      ProbesPermuted(p', p, a', a);
    }
  }

  // The plan, identity included, does not depend on the order in which a
  // request lists its interfaces, forwarding intents and probes.
  lemma PlanOrderFree(r: ChangePlanRequest, r': ChangePlanRequest)
    requires r.nodeId == r'.nodeId && r.revisionId == r'.revisionId && r.timeouts == r'.timeouts
    requires multiset(r.interfaces) == multiset(r'.interfaces)
    requires multiset(r.forwarding) == multiset(r'.forwarding)
    requires multiset(r.probes) == multiset(r'.probes)
    ensures PlanFor(r) == PlanFor(r')
  {
    hide CanonicalInterfaces, CanonicalForwarding, CanonicalProbes, Covered, ValidIdentifier, ValidTimeouts;
    SectionsOrderFree(r.interfaces, r'.interfaces, r.forwarding, r'.forwarding, r.probes, r'.probes);
  }

  // Canonicalisation leaves acceptable, already canonical sections alone.
  lemma SectionsFixed(a: seq<InterfaceIntent>, f: seq<ForwardingIntent>, p: seq<ConnectivityProbe>)
    requires InterfacesOk(a) && ForwardsOk(f, a) && ProbesOk(p, a)
    ensures Interfaces(a) == a && Forwards(f) == f && Probes(p) == p
  {
    hide ToUpper, TrimSpace, ForwardingAuthorized, Distinct;
    forall i | 0 <= i < |a| ensures CanonicalInterface(a[i]) == a[i] {
      assert InterfaceOk(a[i]);
      InterfaceFixed(a[i]);
    }
    forall i | 0 <= i < |f| ensures CanonicalForward(f[i]) == f[i] {
      assert ForwardOk(f[i], a);
      ForwardFixed(f[i]);
    }
    forall i | 0 <= i < |p| ensures CanonicalProbe(p[i]) == p[i] {
      assert ProbeOk(p[i], a);
      var j :| 0 <= j < |a| && a[j].interfaceId == p[i].interfaceId && a[j].zone == p[i].zone;
      InterfaceFixed(a[j]);
      IdentifierTrimmed(p[i].id, "._-", 128);
    }
  }

  lemma InterfaceFixed(x: InterfaceIntent)
    requires InterfaceOk(x)
    ensures CanonicalInterface(x) == x && CanonicalZone(x.zone) == x.zone && TrimSpace(x.interfaceId) == x.interfaceId
  {
    IdentifierTrimmed(x.interfaceId, "._-", 128);
    ValidZoneIsCanonical(x.zone);
  }

  lemma ForwardFixed(x: ForwardingIntent)
    requires ForwardingAuthorized(x)
    ensures CanonicalForward(x) == x
  {
    ValidZoneIsCanonical(x.source);
    ValidZoneIsCanonical(x.destination);
  }

  // Rebuilding sorted sections gives them back.
  lemma SectionsRebuild(a: seq<InterfaceIntent>, f: seq<ForwardingIntent>, p: seq<ConnectivityProbe>)
    requires InterfacesOk(a) && ForwardsOk(f, a) && ProbesOk(p, a)
    ensures CanonicalInterfaces(Sort(a, InterfaceLess)) == Some(Sort(a, InterfaceLess))
    ensures CanonicalForwarding(Sort(f, ForwardLess), Interfaces(Sort(a, InterfaceLess))) == Some(Sort(f, ForwardLess))
    ensures CanonicalProbes(Sort(p, ProbeLess), Interfaces(Sort(a, InterfaceLess))) == Some(Sort(p, ProbeLess))
  {
    hide InterfacesOk, ForwardsOk, ProbesOk, Sort, WeakOrder, Ordered;
    var a', f', p' := Sort(a, InterfaceLess), Sort(f, ForwardLess), Sort(p, ProbeLess);
    SortMultiset(a, InterfaceLess);
    SortMultiset(f, ForwardLess);
    SortMultiset(p, ProbeLess);
    InterfacesPermuted(a, a');
    ForwardsPermuted(f, f', a, a');
    ProbesPermuted(p, p', a, a');
    SectionsFixed(a', f', p');
    OrdersAreWeak();
    SortOrdered(a, InterfaceLess);
    SortOrdered(f, ForwardLess);
    SortOrdered(p, ProbeLess);
    SortFixed(a', InterfaceLess);
    SortFixed(f', ForwardLess);
    SortFixed(p', ProbeLess);
  }

  // Building is idempotent: every plan it returns passes the integrity check.
  lemma BuiltPlanIsCanonical(request: ChangePlanRequest)
    requires PlanFor(request).Some?
    ensures Canonical(PlanFor(request).value)
  {
    hide InterfacesOk, ForwardsOk, ProbesOk, Sort, Covered, ValidTimeouts, TrimSpace;
    SectionsRebuild(Interfaces(request.interfaces), Forwards(request.forwarding), Probes(request.probes));
    IdentifierTrimmed(TrimSpace(request.nodeId), "._-", 128);
    IdentifierTrimmed(TrimSpace(request.revisionId), "._-", 128);
  }

  // What a plan that passed the integrity check offers its users.
  lemma CanonicalPlanFacts(plan: ChangePlan)
    requires Canonical(plan)
    ensures plan.planId == Sha256(plan.body) && plan.body.schemaVersion == PLAN_SCHEMA
    ensures ValidTimeouts(plan.body.timeouts) && ValidIdentifier(plan.body.revisionId)
    ensures 1 <= |plan.body.probes| <= MAX_PROBES
    ensures Ascending(ProbeIds(plan.body.probes))
    ensures forall i | 0 <= i < |plan.body.probes| :: ValidIdentifier(plan.body.probes[i].id)
  {
    hide InterfacesOk, ForwardsOk, Covered, ValidTimeouts, TrimSpace, ValidIdentifier, Sort;
    var p := plan.body.probes;
    var q := Probes(p);
    SortMultiset(q, ProbeLess);
    SameElements(q, p);
    OrdersAreWeak();
    SortOrdered(q, ProbeLess);
    ProjectPermuted(q, p, ProbeKey);
    PermutedDistinct(ProbeIds(q), ProbeIds(p));
    forall i | 0 <= i < |p| ensures ValidIdentifier(p[i].id) {
      assert p[i] in q;
    }
    forall i, j | 0 <= i < j < |p| ensures Less(ProbeIds(p)[i], ProbeIds(p)[j]) {
      assert !ProbeLess(p[j], p[i]) && ProbeIds(p)[i] != ProbeIds(p)[j];
      LessTotal(p[i].id, p[j].id);
    }
  }
}
