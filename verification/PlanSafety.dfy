// What a built change plan holds (internal/networkpolicy/change_plan.go,
// policy.go): the request's own content, and the rules that keep a change
// recoverable.
module PlanSafety {
  import opened ChangePlan
  import opened Sorting
  import opened Text

  // ---- content ----

  // The request's records with identities trimmed and zones in upper case, in
  // the order of their identities, none twice.
  ghost predicate Carries(r: ChangePlanRequest, b: PlanBody) {
    && b.nodeId == TrimSpace(r.nodeId) && b.revisionId == TrimSpace(r.revisionId) && b.timeouts == r.timeouts && b.forwardingDefaultDeny
    && |b.interfaces| == |r.interfaces| && |b.forwarding| == |r.forwarding| && |b.probes| == |r.probes|
    && (forall i, j | 0 <= i < j < |b.interfaces| :: Less(b.interfaces[i].interfaceId, b.interfaces[j].interfaceId))
    && (forall i, j | 0 <= i < j < |b.probes| :: Less(b.probes[i].id, b.probes[j].id))
    && (forall i, j | 0 <= i < j < |b.forwarding| ::
          var f, g := b.forwarding[i], b.forwarding[j];
          Less(f.source, g.source) || (f.source == g.source && Less(f.destination, g.destination)))
    && (forall x | x in r.interfaces :: InterfaceIntent(TrimSpace(x.interfaceId), ToUpper(TrimSpace(x.zone)), x.changed) in b.interfaces)
    && (forall x | x in r.forwarding ::
          ForwardingIntent(ToUpper(TrimSpace(x.source)), ToUpper(TrimSpace(x.destination)), x.explicitlyEnabled, x.edgeGatewayAssigned) in b.forwarding)
    && (forall x | x in r.probes ::
          ConnectivityProbe(TrimSpace(x.id), x.kind, TrimSpace(x.interfaceId), ToUpper(TrimSpace(x.zone))) in b.probes)
  }

  // ---- safety ----

  // Nothing is forwarded between two zones unless both have an interface and
  // the rule opts in, and neither into nor out of WAN without an edge gateway.
  ghost predicate ForwardsSafely(b: PlanBody) {
    forall f | f in b.forwarding ::
      && (exists i | i in b.interfaces :: i.zone == f.source) && (exists i | i in b.interfaces :: i.zone == f.destination)
      && (f.source != f.destination ==> f.explicitlyEnabled)
      && (f.source != f.destination && (f.source == "WAN" || f.destination == "WAN") ==> f.edgeGatewayAssigned)
  }

  // Something changes; whatever changes is probed, each probe sits on an
  // interface of the plan in its zone, and the control plane is probed over
  // MANAGEMENT or LAN.
  ghost predicate Probed(b: PlanBody) {
    && (exists i | i in b.interfaces :: i.changed)
    && (forall i | i in b.interfaces && i.changed :: exists p | p in b.probes :: p.interfaceId == i.interfaceId && p.zone == i.zone)
    && (forall p | p in b.probes :: exists i | i in b.interfaces :: p.interfaceId == i.interfaceId && p.zone == i.zone)
    && (exists p | p in b.probes :: p.kind.ControlPlane? && (p.zone == "MANAGEMENT" || p.zone == "LAN"))
  }

  // ---- why ----

  lemma Rearranged<T>(input: seq<T>, f: T -> T, less: (T, T) -> bool)
    ensures var all, r := Project(input, f), Sort(Project(input, f), less);
      multiset(all) == multiset(r) && |r| == |input| && forall x | x in input :: f(x) in r
  {
    hide Sort;
    var all, r := Project(input, f), Sort(Project(input, f), less);
    SortMultiset(all, less);
    assert |multiset(r)| == |r| && |multiset(all)| == |all|;
    forall x | x in input ensures f(x) in r {
      var i :| 0 <= i < |input| && input[i] == x;
      assert all[i] == f(x) && all[i] in multiset(r);
    }
  }

  // The sections of a plan meet the rules of the sections of its request.
  lemma SectionRules(r: ChangePlanRequest)
    requires PlanFor(r).Some?
    ensures var b := PlanFor(r).value.body;
      InterfacesOk(b.interfaces) && ForwardsOk(b.forwarding, b.interfaces) && ProbesOk(b.probes, b.interfaces) && Covered(b.interfaces, b.probes)
  {
    hide InterfacesOk, ForwardsOk, ProbesOk, Sort, Covered, ValidTimeouts, TrimSpace, ValidIdentifier, CanonicalInterface, CanonicalForward,
         CanonicalProbe;
    var a, f, p := Interfaces(r.interfaces), Forwards(r.forwarding), Probes(r.probes);
    SortMultiset(a, InterfaceLess);
    SortMultiset(f, ForwardLess);
    SortMultiset(p, ProbeLess);
    InterfacesPermuted(a, Sort(a, InterfaceLess));
    ForwardsPermuted(f, Sort(f, ForwardLess), a, Sort(a, InterfaceLess));
    ProbesPermuted(p, Sort(p, ProbeLess), a, Sort(a, InterfaceLess));
  }

  lemma InterfacesAscend(s: seq<InterfaceIntent>)
    requires Ordered(s, InterfaceLess) && Distinct(InterfaceIds(s))
    ensures forall i, j | 0 <= i < j < |s| :: Less(s[i].interfaceId, s[j].interfaceId)
  {
    forall i, j | 0 <= i < j < |s| ensures Less(s[i].interfaceId, s[j].interfaceId) {
      assert !InterfaceLess(s[j], s[i]) && InterfaceIds(s)[i] != InterfaceIds(s)[j];
      LessTotal(s[i].interfaceId, s[j].interfaceId);
    }
  }

  lemma ProbesAscend(s: seq<ConnectivityProbe>)
    requires Ordered(s, ProbeLess) && Distinct(ProbeIds(s))
    ensures forall i, j | 0 <= i < j < |s| :: Less(s[i].id, s[j].id)
  {
    forall i, j | 0 <= i < j < |s| ensures Less(s[i].id, s[j].id) {
      assert !ProbeLess(s[j], s[i]) && ProbeIds(s)[i] != ProbeIds(s)[j];
      LessTotal(s[i].id, s[j].id);
    }
  }

  lemma ForwardsAscend(s: seq<ForwardingIntent>)
    requires Ordered(s, ForwardLess) && Distinct(ForwardPairs(s))
    ensures forall i, j | 0 <= i < j < |s| ::
      Less(s[i].source, s[j].source) || (s[i].source == s[j].source && Less(s[i].destination, s[j].destination))
  {
    hide Less;
    forall i, j | 0 <= i < j < |s|
      ensures Less(s[i].source, s[j].source) || (s[i].source == s[j].source && Less(s[i].destination, s[j].destination))
    {
      assert !ForwardLess(s[j], s[i]) && ForwardPairs(s)[i] != ForwardPairs(s)[j];
      LessTotal(s[i].source, s[j].source);
      LessTotal(s[i].destination, s[j].destination);
    }
  }

  lemma DistinctKeys(a: seq<InterfaceIntent>, f: seq<ForwardingIntent>, p: seq<ConnectivityProbe>)
    requires InterfacesOk(a) && ForwardsOk(f, a) && ProbesOk(p, a)
    ensures Distinct(InterfaceIds(a)) && Distinct(ForwardPairs(f)) && Distinct(ProbeIds(p))
  {
  }

  // A plan carries its request.
  lemma BuiltPlanCarriesRequest(r: ChangePlanRequest)
    requires PlanFor(r).Some?
    ensures Carries(r, PlanFor(r).value.body)
  {
    hide InterfacesOk, ForwardsOk, ProbesOk, Sort, Covered, ValidTimeouts, TrimSpace, ToUpper, ValidIdentifier, Less, Distinct, Ordered;
    var b := PlanFor(r).value.body;
    SectionRules(r);
    DistinctKeys(b.interfaces, b.forwarding, b.probes);
    OrdersAreWeak();
    hide WeakOrder, InterfaceLess, ForwardLess, ProbeLess;
    SortOrdered(Interfaces(r.interfaces), InterfaceLess);
    SortOrdered(Forwards(r.forwarding), ForwardLess);
    SortOrdered(Probes(r.probes), ProbeLess);
    InterfacesAscend(b.interfaces);
    ForwardsAscend(b.forwarding);
    ProbesAscend(b.probes);
    Rearranged(r.interfaces, CanonicalInterface, InterfaceLess);
    Rearranged(r.forwarding, CanonicalForward, ForwardLess);
    Rearranged(r.probes, CanonicalProbe, ProbeLess);
  }

  lemma ForwardingIsSafe(b: PlanBody)
    requires ForwardsOk(b.forwarding, b.interfaces)
    ensures ForwardsSafely(b)
  {
    hide ValidZone, Distinct;
    forall f | f in b.forwarding
      ensures (exists i | i in b.interfaces :: i.zone == f.source) && (exists i | i in b.interfaces :: i.zone == f.destination)
      ensures ForwardingAuthorized(f)
    {
      var n :| 0 <= n < |b.forwarding| && b.forwarding[n] == f;
      assert ForwardOk(b.forwarding[n], b.interfaces);
      var i :| 0 <= i < |b.interfaces| && b.interfaces[i].zone == f.source;
      var j :| 0 <= j < |b.interfaces| && b.interfaces[j].zone == f.destination;
      assert b.interfaces[i] in b.interfaces && b.interfaces[j] in b.interfaces;
    }
  }

  lemma ProbePlace(b: PlanBody, p: ConnectivityProbe) returns (i: InterfaceIntent)
    requires ProbesOk(b.probes, b.interfaces) && p in b.probes
    ensures i in b.interfaces && p.interfaceId == i.interfaceId && p.zone == i.zone
  {
    hide ValidIdentifier, Distinct;
    var n :| 0 <= n < |b.probes| && b.probes[n] == p;
    assert ProbeOk(b.probes[n], b.interfaces);
    var k :| 0 <= k < |b.interfaces| && b.interfaces[k].interfaceId == p.interfaceId && b.interfaces[k].zone == p.zone;
    i := b.interfaces[k];
  }

  lemma SameInterface(s: seq<InterfaceIntent>, a: InterfaceIntent, b: InterfaceIntent)
    requires Distinct(InterfaceIds(s)) && a in s && b in s && a.interfaceId == b.interfaceId
    ensures a == b
  {
    var i :| 0 <= i < |s| && s[i] == a;
    var j :| 0 <= j < |s| && s[j] == b;
    var ids := InterfaceIds(s);
    assert ids[i] == ids[j];
  }

  lemma SomethingChanges(b: PlanBody)
    requires InterfacesOk(b.interfaces)
    ensures Distinct(InterfaceIds(b.interfaces)) && exists i | i in b.interfaces :: i.changed
  {
    hide InterfaceOk;
    var k :| 0 <= k < |b.interfaces| && b.interfaces[k].changed;
    assert b.interfaces[k] in b.interfaces;
  }

  lemma ProbeFor(b: PlanBody, i: InterfaceIntent) returns (p: ConnectivityProbe)
    requires Distinct(InterfaceIds(b.interfaces)) && ProbesOk(b.probes, b.interfaces) && Covered(b.interfaces, b.probes)
    requires i in b.interfaces && i.changed
    ensures p in b.probes && p.interfaceId == i.interfaceId && p.zone == i.zone
  {
    var n :| 0 <= n < |b.interfaces| && b.interfaces[n] == i;
    var j :| 0 <= j < |b.probes| && b.probes[j].interfaceId == b.interfaces[n].interfaceId;
    hide Covered, ProbesOk, Distinct;
    p := b.probes[j];
    var place := ProbePlace(b, p);
    SameInterface(b.interfaces, i, place);
  }

  lemma ControlPlaneProbed(b: PlanBody)
    requires Covered(b.interfaces, b.probes)
    ensures exists p | p in b.probes :: p.kind.ControlPlane? && (p.zone == "MANAGEMENT" || p.zone == "LAN")
  {
    var c :| 0 <= c < |b.probes| && b.probes[c].kind.ControlPlane? && b.probes[c].zone in {"MANAGEMENT", "LAN"};
    assert b.probes[c] in b.probes;
  }

  lemma ChangesAreProbed(b: PlanBody)
    requires InterfacesOk(b.interfaces) && ProbesOk(b.probes, b.interfaces) && Covered(b.interfaces, b.probes)
    ensures Probed(b)
  {
    hide InterfacesOk, ProbesOk, Covered, Distinct;
    SomethingChanges(b);
    ControlPlaneProbed(b);
    forall p | p in b.probes ensures exists i | i in b.interfaces :: p.interfaceId == i.interfaceId && p.zone == i.zone {
      var i := ProbePlace(b, p);
    }
    forall i | i in b.interfaces && i.changed ensures exists p | p in b.probes :: p.interfaceId == i.interfaceId && p.zone == i.zone {
      var p := ProbeFor(b, i);
    }
  }

  // And it is recoverable: safe forwarding, and probes for every change.
  lemma BuiltPlanIsSafe(r: ChangePlanRequest)
    requires PlanFor(r).Some?
    ensures ForwardsSafely(PlanFor(r).value.body) && Probed(PlanFor(r).value.body)
  {
    hide *;
    SectionRules(r);
    ForwardingIsSafe(PlanFor(r).value.body);
    ChangesAreProbed(PlanFor(r).value.body);
  }
}
