// Plans exist, and every one of them can be carried through to a commit.
module CommitRuns {
  import opened ChangeMachine
  import opened ChangePlan
  import opened ChangeRuns
  import opened Options
  import opened Sorting
  import opened Text

  // ---- the smallest plan ----

  // One changed LAN interface with a control-plane probe.
  function SmallRequest(nodeId: string, revisionId: string, interfaceId: string, probeId: string, timeouts: TimeoutPolicy): ChangePlanRequest {
    ChangePlanRequest(nodeId, revisionId, [InterfaceIntent(interfaceId, "LAN", true)], [],
                      [ConnectivityProbe(probeId, ControlPlane, interfaceId, "LAN")], timeouts)
  }

  lemma SortOne<T>(s: seq<T>, less: (T, T) -> bool)
    requires |s| == 1
    ensures Sort(s, less) == s
  {
    SortFixed(s, less);
  }

  lemma IdentifierKept(s: string)
    requires ValidIdentifier(s)
    ensures TrimSpace(s) == s
  {
    IdentifierTrimmed(s, "._-", 128);
  }

  lemma SmallInterfaces(interfaceId: string)
    requires ValidIdentifier(interfaceId)
    ensures var i := [InterfaceIntent(interfaceId, "LAN", true)]; Interfaces(i) == i && CanonicalInterfaces(i) == Some(i)
  {
    var i := [InterfaceIntent(interfaceId, "LAN", true)];
    IdentifierKept(interfaceId);
    assert ValidZone("LAN");
    ValidZoneIsCanonical("LAN");
    hide ValidIdentifier, ValidZone, CanonicalZone, TrimSpace, Sort;
    assert Interfaces(i) == i;
    SortOne(i, InterfaceLess);
    assert i[0].changed;
  }

  lemma SmallProbes(interfaceId: string, probeId: string)
    requires ValidIdentifier(interfaceId) && ValidIdentifier(probeId)
    ensures var i, p := [InterfaceIntent(interfaceId, "LAN", true)], [ConnectivityProbe(probeId, ControlPlane, interfaceId, "LAN")];
      CanonicalProbes(p, i) == Some(p) && Covered(i, p)
  {
    var i, p := [InterfaceIntent(interfaceId, "LAN", true)], [ConnectivityProbe(probeId, ControlPlane, interfaceId, "LAN")];
    IdentifierKept(interfaceId);
    IdentifierKept(probeId);
    assert ValidZone("LAN");
    ValidZoneIsCanonical("LAN");
    hide ValidIdentifier, ValidZone, CanonicalZone, TrimSpace, Sort;
    assert Probes(p) == p;
    SortOne(p, ProbeLess);
    assert i[0].interfaceId == p[0].interfaceId && i[0].zone == p[0].zone && p[0].kind.ControlPlane?;
  }

  lemma NoForwarding(interfaces: seq<InterfaceIntent>)
    ensures CanonicalForwarding([], interfaces) == Some([])
  {
    assert Forwards([]) == [];
    SortNothing();
  }

  lemma SortNothing()
    ensures Sort([], ForwardLess) == []
  {
  }

  // For any identifiers and valid timeouts the request is accepted, and the
  // plan is one that machines are created from.
  lemma SmallPlanIsBuilt(nodeId: string, revisionId: string, interfaceId: string, probeId: string, timeouts: TimeoutPolicy)
    requires ValidIdentifier(nodeId) && ValidIdentifier(revisionId) && ValidIdentifier(interfaceId)
    requires ValidIdentifier(probeId) && ValidTimeouts(timeouts)
    ensures var plan := PlanFor(SmallRequest(nodeId, revisionId, interfaceId, probeId, timeouts)); plan.Some? && Canonical(plan.value)
  {
    hide ValidIdentifier, ValidTimeouts, TrimSpace, CanonicalInterfaces, CanonicalForwarding, CanonicalProbes, Covered, Interfaces, Canonical;
    IdentifierKept(nodeId);
    IdentifierKept(revisionId);
    SmallInterfaces(interfaceId);
    SmallProbes(interfaceId, probeId);
    NoForwarding([InterfaceIntent(interfaceId, "LAN", true)]);
    BuiltPlanIsCanonical(SmallRequest(nodeId, revisionId, interfaceId, probeId, timeouts));
  }

  // ---- a run that commits ----

  // The n-th event of the straight way: snapshot, preflight, apply, then one
  // pass per probe, all at one instant.
  function StraightEvent(plan: ChangePlan, ids: seq<EventId>, snapshotId: string, at: int, n: nat): ChangeEvent
    requires n < |ids| == 3 + |plan.body.probes|
  {
    if n == 0 then ChangeEvent(ids[n], SnapshotCaptured, snapshotId, "", "", at)
    else if n == 1 then ChangeEvent(ids[n], PreflightPassed, "", "", "", at)
    else if n == 2 then ChangeEvent(ids[n], TemporaryApplied, "", "", "", at)
    else ChangeEvent(ids[n], ProbePassed, "", plan.body.probes[n - 3].id, "", at)
  }

  function StraightRun(plan: ChangePlan, ids: seq<EventId>, snapshotId: string, at: int, n: nat): seq<Delivery>
    requires n <= |ids| == 3 + |plan.body.probes|
  {
    seq(n, i requires 0 <= i < n => Delivery(StraightEvent(plan, ids, snapshotId, at, i), i + 1))
  }

  // Where the machine is after n of them.
  ghost predicate OnTheWay(m: Machine, plan: ChangePlan, ids: seq<EventId>, at: int, n: nat)
    requires n <= |ids| == 3 + |plan.body.probes|
  {
    && m.plan == plan && m.snapshot.version == n + 1 && m.snapshot.updatedAt == at && m.processed.Keys == Elements(ids[..n])
    && m.passed == Elements(ProbeIds(plan.body.probes)[..if n < 3 then 0 else n - 3])
    && (n < |ids| ==> at <= m.snapshot.deadline)
    && m.snapshot.state == if n == 0 then SnapshotPending else if n == 1 then Preflight else if n == 2 then ApplyWindow
                           else if n < |ids| then Probing else Committed
  }

  lemma StraightEventValid(plan: ChangePlan, ids: seq<EventId>, snapshotId: string, at: int, n: nat)
    requires forall i | 0 <= i < |plan.body.probes| :: ValidIdentifier(plan.body.probes[i].id)
    requires n < |ids| == 3 + |plan.body.probes| && ValidEventId(ids[n]) && ValidIdentifier(snapshotId) && at != 0
    ensures ValidEvent(StraightEvent(plan, ids, snapshotId, at, n))
  {
    hide ValidEventId;
    if n >= 3 {
      assert ValidIdentifier(plan.body.probes[n - 3].id);
    }
    hide IsIdentifier;
  }

  lemma TakesStep(m: Machine, e: ChangeEvent)
    requires ValidEvent(e) && e.id !in m.processed && !m.snapshot.state.Terminal() && Timely(m.snapshot, e) && Transition(m, e).Some?
    ensures Step(m, e, m.snapshot.version) == After(m, e)
  {
    hide ValidEvent, Timely, Transition, After;
  }

  // The three opening events.
  lemma OpeningStep(m: Machine, e: ChangeEvent)
    requires ValidTimeouts(m.plan.body.timeouts) && e.at <= m.snapshot.deadline
    requires || (m.snapshot.state.SnapshotPending? && e.kind.SnapshotCaptured?)
             || (m.snapshot.state.Preflight? && e.kind.PreflightPassed?)
             || (m.snapshot.state.ApplyWindow? && e.kind.TemporaryApplied?)
    ensures Transition(m, e).Some?
    ensures var m' := After(m, e);
      && m'.plan == m.plan && m'.snapshot.version == m.snapshot.version + 1 && m'.snapshot.updatedAt == e.at && m'.passed == m.passed
      && m'.processed == m.processed[e.id := EventDigest(e)] && e.at <= m'.snapshot.deadline
      && m'.snapshot.state == if e.kind.SnapshotCaptured? then Preflight else if e.kind.PreflightPassed? then ApplyWindow else Probing
  {
    hide Detail, HasProbe;
  }

  lemma ProbeStep(m: Machine, e: ChangeEvent)
    requires m.snapshot.state.Probing? && e.kind.ProbePassed? && HasProbe(m.plan, e.probeId) && e.probeId !in m.passed
    ensures Transition(m, e).Some?
    ensures var m', passed := After(m, e), m.passed + {e.probeId};
      && m'.plan == m.plan && m'.snapshot.version == m.snapshot.version + 1 && m'.snapshot.updatedAt == e.at && m'.passed == passed
      && m'.processed == m.processed[e.id := EventDigest(e)]
      && (if |passed| == |m.plan.body.probes| then m'.snapshot.state.Committed?
          else m'.snapshot.state.Probing? && m'.snapshot.deadline == m.snapshot.deadline)
  {
    hide Detail, HasProbe;
  }

  lemma OpeningProgress(m: Machine, plan: ChangePlan, ids: seq<EventId>, snapshotId: string, at: int, n: nat)
    requires ValidTimeouts(plan.body.timeouts) && plan.body.probes != []
    requires n < 3 && |ids| == 3 + |plan.body.probes| && OnTheWay(m, plan, ids, at, n) && Distinct(ids)
    requires ValidEvent(StraightEvent(plan, ids, snapshotId, at, n))
    ensures OnTheWay(Step(m, StraightEvent(plan, ids, snapshotId, at, n), n + 1), plan, ids, at, n + 1)
  {
    hide ValidEvent, ValidTimeouts, Transition, After, Step, ProbeIds, Distinct;
    var e := StraightEvent(plan, ids, snapshotId, at, n);
    NextIdentity(ids, n);
    OpeningStep(m, e);
    TakesStep(m, e);
  }

  lemma ProbeProgress(m: Machine, plan: ChangePlan, ids: seq<EventId>, snapshotId: string, at: int, n: nat)
    requires Ascending(ProbeIds(plan.body.probes))
    requires 3 <= n < |ids| == 3 + |plan.body.probes| && OnTheWay(m, plan, ids, at, n) && Distinct(ids)
    requires ValidEvent(StraightEvent(plan, ids, snapshotId, at, n))
    ensures OnTheWay(Step(m, StraightEvent(plan, ids, snapshotId, at, n), n + 1), plan, ids, at, n + 1)
  {
    hide ValidEvent, Ascending, Transition, After, Step, ProbeIds, Distinct, HasProbe;
    var e := StraightEvent(plan, ids, snapshotId, at, n);
    NextIdentity(ids, n);
    ProbeNamed(plan, n - 3);
    ProbeTurn(ProbeIds(plan.body.probes), n - 3);
    ProbeStep(m, e);
    TakesStep(m, e);
  }

  lemma NextIdentity(ids: seq<EventId>, n: nat)
    requires Distinct(ids) && n < |ids|
    ensures ids[n] !in Elements(ids[..n]) && Elements(ids[..n + 1]) == Elements(ids[..n]) + {ids[n]}
  {
    SeenStep(ids, n);
  }

  lemma ProbeNamed(plan: ChangePlan, k: nat)
    requires k < |plan.body.probes|
    ensures |ProbeIds(plan.body.probes)| == |plan.body.probes| && ProbeIds(plan.body.probes)[k] == plan.body.probes[k].id
    ensures HasProbe(plan, plan.body.probes[k].id)
  {
    assert ProbeIds(plan.body.probes)[k] == plan.body.probes[k].id;
  }

  // Probe k is new after the first k, and makes k + 1 of them.
  lemma ProbeTurn(ids: seq<string>, k: nat)
    requires Ascending(ids) && k < |ids|
    ensures ids[k] in ids && ids[k] !in Elements(ids[..k])
    ensures Elements(ids[..k]) + {ids[k]} == Elements(ids[..k + 1]) && |Elements(ids[..k + 1])| == k + 1
  {
    AscendingDistinct(ids);
    SeenStep(ids, k);
    DistinctSize(ids[..k + 1]);
  }

  lemma StraightStep(m: Machine, plan: ChangePlan, ids: seq<EventId>, snapshotId: string, at: int, n: nat)
    requires ValidTimeouts(plan.body.timeouts) && Ascending(ProbeIds(plan.body.probes)) && plan.body.probes != []
    requires n < |ids| == 3 + |plan.body.probes| && OnTheWay(m, plan, ids, at, n) && Distinct(ids)
    requires ValidEvent(StraightEvent(plan, ids, snapshotId, at, n))
    ensures OnTheWay(Step(m, StraightEvent(plan, ids, snapshotId, at, n), n + 1), plan, ids, at, n + 1)
  {
    hide *;
    if n < 3 {
      OpeningProgress(m, plan, ids, snapshotId, at, n);
    } else {
      ProbeProgress(m, plan, ids, snapshotId, at, n);
    }
  }

  lemma StraightRunLast(plan: ChangePlan, ids: seq<EventId>, snapshotId: string, at: int, n: nat)
    requires n <= |ids| == 3 + |plan.body.probes|
    ensures var run := StraightRun(plan, ids, snapshotId, at, n);
      && |run| == n
      && (n > 0 ==> run[..n - 1] == StraightRun(plan, ids, snapshotId, at, n - 1)
                    && run[n - 1] == Delivery(StraightEvent(plan, ids, snapshotId, at, n - 1), n))
  {
    hide StraightEvent;
  }

  lemma {:induction false} StraightRunProgress(plan: ChangePlan, ids: seq<EventId>, snapshotId: string, at: int, n: nat)
    requires Canonical(plan) && n <= |ids| == 3 + |plan.body.probes| && Distinct(ids) && at != 0
    requires (forall i | 0 <= i < |ids| :: ValidEventId(ids[i])) && ValidIdentifier(snapshotId)
    ensures OnTheWay(Run(Initial(plan, at), StraightRun(plan, ids, snapshotId, at, n)), plan, ids, at, n)
  {
    CanonicalPlanFacts(plan);
    hide *;
    RunUnfolds(Initial(plan, at), StraightRun(plan, ids, snapshotId, at, n));
    StraightRunLast(plan, ids, snapshotId, at, n);
    if n == 0 {
      StartsOnTheWay(plan, ids, at);
    } else {
      StraightRunProgress(plan, ids, snapshotId, at, n - 1);
      StraightEventValid(plan, ids, snapshotId, at, n - 1);
      StraightStep(Run(Initial(plan, at), StraightRun(plan, ids, snapshotId, at, n - 1)), plan, ids, snapshotId, at, n - 1);
    }
  }

  lemma RunUnfolds(m: Machine, run: seq<Delivery>)
    ensures run == [] ==> Run(m, run) == m
    ensures run != [] ==>
      Run(m, run) == Step(Run(m, run[..|run| - 1]), run[|run| - 1].event, run[|run| - 1].expected)
  {
    hide Step;
  }

  lemma StartsOnTheWay(plan: ChangePlan, ids: seq<EventId>, at: int)
    requires ValidTimeouts(plan.body.timeouts) && |ids| == 3 + |plan.body.probes|
    ensures OnTheWay(Initial(plan, at), plan, ids, at, 0)
  {
  }

  // Every canonical plan can be committed, whatever its probes: the straight
  // run under any distinct event identities does it.
  lemma EveryPlanCanCommit(plan: ChangePlan, ids: seq<EventId>, snapshotId: string, at: int)
    requires Canonical(plan) && |ids| == 3 + |plan.body.probes| && Distinct(ids) && at != 0
    requires (forall i | 0 <= i < |ids| :: ValidEventId(ids[i])) && ValidIdentifier(snapshotId)
    ensures Run(Initial(plan, at), StraightRun(plan, ids, snapshotId, at, |ids|)).snapshot.state.Committed?
  {
    hide Canonical, ValidEventId, Distinct, ValidIdentifier, Run, StraightRun;
    StraightRunProgress(plan, ids, snapshotId, at, |ids|);
  }
}
