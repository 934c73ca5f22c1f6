// What every run of the change machine keeps: a run is any sequence of
// deliveries, accepted or not, to a freshly created machine.
module ChangeRuns {
  import opened ChangeMachine
  import opened ChangePlan
  import opened Sorting

  datatype Delivery = Delivery(event: ChangeEvent, expected: nat)

  function Run(m: Machine, ins: seq<Delivery>): Machine {
    if ins == [] then m
    else
      var last := ins[|ins| - 1];
      Step(Run(m, ins[..|ins| - 1]), last.event, last.expected)
  }

  // The events of a run that took effect, in order.
  function History(m: Machine, ins: seq<Delivery>): seq<ChangeEvent> {
    if ins == [] then []
    else
      var last := ins[|ins| - 1];
      var before := History(m, ins[..|ins| - 1]);
      if Decide(Run(m, ins[..|ins| - 1]), last.event, last.expected).Accepted? then before + [last.event] else before
  }

  lemma {:induction false} RunAppend(m: Machine, a: seq<Delivery>, b: seq<Delivery>)
    ensures Run(m, a + b) == Run(Run(m, a), b)
    ensures History(m, a + b) == History(m, a) + History(Run(m, a), b)
    decreases |b|
  {
    if b == [] {
      assert a + b == a;
    } else {
      assert (a + b)[..|a + b| - 1] == a + b[..|b| - 1];
      RunAppend(m, a, b[..|b| - 1]);
    }
  }

  // ---- the shape of a history, state by state ----

  ghost predicate Prepared(h: seq<ChangeEvent>) {
    |h| >= 2 && h[0].kind.SnapshotCaptured? && h[1].kind.PreflightPassed?
  }

  ghost predicate TemporarilyApplied(h: seq<ChangeEvent>) {
    Prepared(h) && |h| >= 3 && h[2].kind.TemporaryApplied?
  }

  function ProbesOf(h: seq<ChangeEvent>): (ids: set<string>) {
    set e | e in h :: e.probeId
  }

  // Events 3..k are probe passes for distinct probes of the plan; passed
  // collects them.
  ghost predicate PassesUpTo(plan: ChangePlan, h: seq<ChangeEvent>, k: nat, passed: set<string>) {
    && 3 <= k <= |h|
    && (forall i | 3 <= i < k :: h[i].kind.ProbePassed?)
    && passed == ProbesOf(h[3..k]) && |passed| == k - 3
    && passed <= Elements(ProbeIds(plan.body.probes))
  }

  // A change that must be rolled back: nothing was applied in the window, or
  // some probes passed and then one failed or time ran out.
  ghost predicate MustRollBack(plan: ChangePlan, h: seq<ChangeEvent>, passed: set<string>) {
    || (Prepared(h) && |h| == 3 && h[2].kind.PhaseTimedOut? && passed == {})
    || (&& |h| >= 4 && TemporarilyApplied(h) && PassesUpTo(plan, h, |h| - 1, passed)
        && |h| - 4 < |plan.body.probes|
        && (h[|h| - 1].kind.ProbeFailed? || h[|h| - 1].kind.PhaseTimedOut?))
  }

  // Everything that a commit requires: a captured snapshot, a passed
  // preflight, a temporary apply, and one pass for each probe of the plan.
  ghost predicate Complete(plan: ChangePlan, h: seq<ChangeEvent>) {
    && TemporarilyApplied(h) && |h| == 3 + |plan.body.probes|
    && (forall i | 3 <= i < |h| :: h[i].kind.ProbePassed?)
    && ProbesOf(h[3..]) == Elements(ProbeIds(plan.body.probes))
  }

  ghost predicate Shape(m: Machine, h: seq<ChangeEvent>) {
    match m.snapshot.state
    case SnapshotPending => h == [] && m.passed == {}
    case Preflight => |h| == 1 && h[0].kind.SnapshotCaptured? && m.passed == {}
    case ApplyWindow => |h| == 2 && Prepared(h) && m.passed == {}
    case Probing => TemporarilyApplied(h) && PassesUpTo(m.plan, h, |h|, m.passed) && |h| - 3 < |m.plan.body.probes|
    case RollbackPending => MustRollBack(m.plan, h, m.passed)
    case Committed => TemporarilyApplied(h) && PassesUpTo(m.plan, h, |h|, m.passed) && |h| - 3 == |m.plan.body.probes|
    case RolledBack =>
      h != [] && MustRollBack(m.plan, h[..|h| - 1], m.passed) && h[|h| - 1].kind.RollbackSucceeded?
    case FailedClosed =>
      || (|h| == 1 && (h[0].kind.SnapshotFailed? || h[0].kind.PhaseTimedOut?))
      || (|h| == 2 && h[0].kind.SnapshotCaptured? && (h[1].kind.PreflightFailed? || h[1].kind.PhaseTimedOut?))
      || (h != [] && MustRollBack(m.plan, h[..|h| - 1], m.passed)
          && (h[|h| - 1].kind.RollbackFailed? || h[|h| - 1].kind.PhaseTimedOut?))
  }

  // Phase deadlines, and the moment a commit can happen at the latest.
  ghost predicate OnTime(m: Machine, start: int) {
    var s, t := m.snapshot, m.plan.body.timeouts;
    match s.state
    case SnapshotPending => s.updatedAt == start && s.deadline == start + t.snapshot
    case Preflight => s.updatedAt <= start + t.snapshot && s.deadline == s.updatedAt + t.preflight
    case ApplyWindow => s.updatedAt <= start + t.snapshot + t.preflight && s.deadline == s.updatedAt + t.applyWindow
    case Probing => s.updatedAt <= s.deadline <= start + t.snapshot + t.preflight + t.applyWindow
    case RollbackPending => s.deadline == s.updatedAt + t.rollback
    case Committed => s.updatedAt <= start + t.snapshot + t.preflight + t.applyWindow
    case _ => true
  }

  // Processed events are exactly the history, each under its own identity.
  ghost predicate Recorded(m: Machine, h: seq<ChangeEvent>) {
    m.snapshot.version == 1 + |h| && (forall i | 0 <= i < |h| :: ValidEvent(h[i])) && Logged(m.processed, h)
  }

  // The digests on file are those of the accepted events.
  ghost predicate Logged(processed: map<EventId, EventDigest>, h: seq<ChangeEvent>) {
    && |processed| == |h|
    && (forall i | 0 <= i < |h| :: h[i].id in processed && processed[h[i].id] == EventDigest(h[i]))
    && (forall id | id in processed :: processed[id].event in h && processed[id].event.id == id)
  }

  lemma LoggedStep(processed: map<EventId, EventDigest>, h: seq<ChangeEvent>, e: ChangeEvent)
    requires Logged(processed, h) && e.id !in processed
    ensures Logged(processed[e.id := EventDigest(e)], h + [e])
  {
    var p', h' := processed[e.id := EventDigest(e)], h + [e];
    assert p'.Keys == processed.Keys + {e.id};
    forall i | 0 <= i < |h'| ensures h'[i].id in p' && p'[h'[i].id] == EventDigest(h'[i]) {
      assert i < |h| ==> h'[i] == h[i];
    }
    forall id | id in p' ensures p'[id].event in h' && p'[id].event.id == id {
      assert id != e.id ==> processed[id].event in h;
    }
  }

  // The recovery snapshot is the one the first event captured.
  ghost predicate Anchored(m: Machine, h: seq<ChangeEvent>) {
    m.snapshot.snapshotId == if h != [] && h[0].kind.SnapshotCaptured? then h[0].snapshotId else ""
  }

  ghost predicate Good(m: Machine, start: int, h: seq<ChangeEvent>) {
    && Canonical(m.plan) && m.snapshot.planId == m.plan.planId
    && Recorded(m, h) && Anchored(m, h) && OnTime(m, start) && Shape(m, h)
  }

  // ---- one accepted event keeps all of it ----

  lemma AfterTakes(m: Machine, e: ChangeEvent)
    requires Transition(m, e).Some?
    ensures After(m, e).processed == m.processed[e.id := EventDigest(e)] && After(m, e).snapshot.version == m.snapshot.version + 1
  {
    hide Transition;
  }

  lemma RecordedStep(m: Machine, h: seq<ChangeEvent>, e: ChangeEvent)
    requires Recorded(m, h) && ValidEvent(e) && e.id !in m.processed && Transition(m, e).Some?
    ensures Recorded(After(m, e), h + [e])
  {
    AfterTakes(m, e);
    hide Transition, ValidEvent, After, Logged;
    LoggedStep(m.processed, h, e);
  }

  lemma OnTimeStep(m: Machine, start: int, e: ChangeEvent)
    requires ValidTimeouts(m.plan.body.timeouts) && OnTime(m, start) && Timely(m.snapshot, e) && Transition(m, e).Some?
    ensures OnTime(After(m, e), start)
  {
    hide Detail;
  }

  // One more probe pass extends the passes.
  lemma PassesStep(plan: ChangePlan, h: seq<ChangeEvent>, passed: set<string>, e: ChangeEvent)
    requires PassesUpTo(plan, h, |h|, passed)
    requires e.kind.ProbePassed? && HasProbe(plan, e.probeId) && e.probeId !in passed
    ensures PassesUpTo(plan, h + [e], |h| + 1, passed + {e.probeId})
  {
    assert (h + [e])[3..|h| + 1] == h[3..|h|] + [e];
    assert forall x :: x in h[3..|h|] + [e] <==> x in h[3..|h|] || x == e;
  }

  lemma PassesThen(plan: ChangePlan, h: seq<ChangeEvent>, passed: set<string>, e: ChangeEvent)
    requires PassesUpTo(plan, h, |h|, passed)
    ensures PassesUpTo(plan, h + [e], |h|, passed)
  {
    assert (h + [e])[3..|h|] == h[3..|h|];
  }

  lemma ShapeStep(m: Machine, h: seq<ChangeEvent>, e: ChangeEvent)
    requires Shape(m, h) && Transition(m, e).Some?
    requires 1 <= |m.plan.body.probes|
    ensures Shape(After(m, e), h + [e])
  {
    hide Detail, PassesUpTo, HasProbe, ProbeIds;
    var h' := h + [e];
    assert h'[..|h|] == h;
    match m.snapshot.state
    case Probing =>
      PassesThen(m.plan, h, m.passed, e);
      ProbingCount(m.plan, h, m.passed);
      if e.kind.ProbePassed? {
        PassesStep(m.plan, h, m.passed, e);
      }
    case ApplyWindow =>
      if e.kind.TemporaryApplied? {
        NoPassesYet(m.plan, h');
      }
    case _ =>
  }

  lemma NoPassesYet(plan: ChangePlan, h: seq<ChangeEvent>)
    requires |h| == 3
    ensures PassesUpTo(plan, h, 3, {})
  {
    assert h[3..3] == [];
  }

  lemma ProbingCount(plan: ChangePlan, h: seq<ChangeEvent>, passed: set<string>)
    requires PassesUpTo(plan, h, |h|, passed)
    ensures |passed| == |h| - 3
    ensures forall id | id !in passed :: |passed + {id}| == |h| - 2
  {
  }

  lemma AnchoredStep(m: Machine, h: seq<ChangeEvent>, e: ChangeEvent)
    requires Shape(m, h) && Anchored(m, h) && Transition(m, e).Some?
    ensures Anchored(After(m, e), h + [e])
  {
    hide Detail, HasProbe, PassesUpTo;
    assert h != [] ==> (h + [e])[0] == h[0];
  }

  lemma GoodStep(m: Machine, start: int, h: seq<ChangeEvent>, e: ChangeEvent, expected: nat)
    requires Good(m, start, h) && Decide(m, e, expected).Accepted?
    ensures Good(Step(m, e, expected), start, h + [e])
  {
    hide Shape, OnTime, Recorded, Anchored, Transition, Timely, ValidEvent, Canonical;
    CanonicalPlanFacts(m.plan);
    RecordedStep(m, h, e);
    OnTimeStep(m, start, e);
    ShapeStep(m, h, e);
    AnchoredStep(m, h, e);
    TransitionKeepsPlan(m, e);
  }

  lemma TransitionKeepsPlan(m: Machine, e: ChangeEvent)
    ensures After(m, e).plan == m.plan && After(m, e).snapshot.planId == m.snapshot.planId
  {
    hide Detail, HasProbe;
  }

  // The invariant of every run.
  lemma {:induction false} RunIsGood(plan: ChangePlan, now: int, ins: seq<Delivery>)
    requires Canonical(plan)
    ensures Good(Run(Initial(plan, now), ins), now, History(Initial(plan, now), ins))
    ensures Run(Initial(plan, now), ins).plan == plan
  {
    hide Canonical, Decide;
    var m0 := Initial(plan, now);
    if ins == [] {
    } else {
      var init, last := ins[..|ins| - 1], ins[|ins| - 1];
      RunIsGood(plan, now, init);
      if Decide(Run(m0, init), last.event, last.expected).Accepted? {
        GoodStep(Run(m0, init), now, History(m0, init), last.event, last.expected);
        TransitionKeepsPlan(Run(m0, init), last.event);
      }
    }
  }

  // ---- commit ----

  lemma SubsetOfSameSize<T>(a: set<T>, b: set<T>)
    requires a <= b && |a| == |b|
    ensures a == b
  {
    assert |b - a| == |b| - |a|;
  }

  lemma CommittedIsComplete(m: Machine, h: seq<ChangeEvent>)
    requires Canonical(m.plan) && Shape(m, h)
    ensures m.snapshot.state.Committed? ==> Complete(m.plan, h)
  {
    hide Canonical, ProbeIds;
    CanonicalPlanFacts(m.plan);
    AscendingDistinct(ProbeIds(m.plan.body.probes));
    DistinctSize(ProbeIds(m.plan.body.probes));
    ProbeCount(m.plan);
    if m.snapshot.state.Committed? {
      SubsetOfSameSize(m.passed, Elements(ProbeIds(m.plan.body.probes)));
      assert h[3..|h|] == h[3..];
    }
  }

  lemma ProbeCount(plan: ChangePlan)
    ensures |ProbeIds(plan.body.probes)| == |plan.body.probes|
  {
  }

  lemma CompleteIsCommitted(m: Machine, h: seq<ChangeEvent>)
    requires 1 <= |m.plan.body.probes| && Shape(m, h) && Complete(m.plan, h)
    ensures m.snapshot.state.Committed?
  {
    hide ProbeIds, PassesUpTo;
  }

  // In every run, the machine is committed exactly when the events that took
  // effect are a captured snapshot, a passed preflight, a temporary apply and
  // a pass of every probe of the plan; that is before the three windows add up.
  lemma CommitExactlyWhenComplete(plan: ChangePlan, now: int, ins: seq<Delivery>)
    requires Canonical(plan)
    ensures var m, h := Run(Initial(plan, now), ins), History(Initial(plan, now), ins);
      && (m.snapshot.state.Committed? <==> Complete(plan, h))
      && (m.snapshot.state.Committed? ==>
            && m.snapshot.snapshotId == h[0].snapshotId
            && m.snapshot.updatedAt <= now + plan.body.timeouts.snapshot + plan.body.timeouts.preflight + plan.body.timeouts.applyWindow)
  {
    hide Canonical, Shape, Run, History, Recorded;
    var m, h := Run(Initial(plan, now), ins), History(Initial(plan, now), ins);
    RunIsGood(plan, now, ins);
    CanonicalPlanFacts(plan);
    CommittedIsComplete(m, h);
    if Complete(plan, h) {
      CompleteIsCommitted(m, h);
    }
  }

  // ---- rollback ----

  // A run that ends anywhere but committed after a temporary apply has been
  // in rollback_pending, with the apply already done, before it ended.
  lemma {:induction false} FailureAfterApplyRollsBack(plan: ChangePlan, now: int, ins: seq<Delivery>)
    requires Canonical(plan)
    requires Run(Initial(plan, now), ins).snapshot.state in {RolledBack, FailedClosed}
    requires TemporarilyApplied(History(Initial(plan, now), ins))
    ensures exists k | 0 <= k < |ins| ::
      && Run(Initial(plan, now), ins[..k]).snapshot.state.RollbackPending?
      && TemporarilyApplied(History(Initial(plan, now), ins[..k]))
  {
    hide Canonical, Decide, Recorded, OnTime, PassesUpTo;
    var m0 := Initial(plan, now);
    if ins != [] {
      var init, last := ins[..|ins| - 1], ins[|ins| - 1];
      RunIsGood(plan, now, init);
      if Decide(Run(m0, init), last.event, last.expected).Accepted? {
        EndsFromRollback(Run(m0, init), History(m0, init), last.event, last.expected);
        assert Run(m0, ins[..|ins| - 1]).snapshot.state.RollbackPending?;
      } else {
        FailureAfterApplyRollsBack(plan, now, init);
        var k :| 0 <= k < |init| && Run(m0, init[..k]).snapshot.state.RollbackPending?
                 && TemporarilyApplied(History(m0, init[..k]));
        assert init[..k] == ins[..k];
      }
    }
  }

  lemma EndsFromRollback(m: Machine, h: seq<ChangeEvent>, e: ChangeEvent, expected: nat)
    requires Shape(m, h) && Decide(m, e, expected).Accepted?
    requires Step(m, e, expected).snapshot.state in {RolledBack, FailedClosed}
    requires TemporarilyApplied(h + [e])
    ensures m.snapshot.state.RollbackPending? && TemporarilyApplied(h)
  {
    hide ValidEvent, Timely, Detail, PassesUpTo, HasProbe;
  }

  // ---- winding down ----

  lemma ShapeBound(m: Machine, h: seq<ChangeEvent>)
    requires Shape(m, h) && 1 <= |m.plan.body.probes|
    ensures |h| <= |m.plan.body.probes| + 4
  {
    hide PassesUpTo;
  }

  // A run never accepts more than four events beyond the probes of its plan,
  // and a machine still running is never past its deadline on its own clock.
  lemma RunWindsDown(plan: ChangePlan, now: int, ins: seq<Delivery>)
    requires Canonical(plan)
    ensures var m := Run(Initial(plan, now), ins);
      && |History(Initial(plan, now), ins)| <= |plan.body.probes| + 4
      && m.snapshot.version <= MAX_PROBES + 5
      && (!m.snapshot.state.Terminal() ==> m.snapshot.updatedAt <= m.snapshot.deadline)
  {
    hide Canonical, Shape, Run, History;
    RunIsGood(plan, now, ins);
    CanonicalPlanFacts(plan);
    ShapeBound(Run(Initial(plan, now), ins), History(Initial(plan, now), ins));
  }

  ghost predicate FreshTimeout(m: Machine, e: ChangeEvent) {
    ValidEvent(e) && e.kind.PhaseTimedOut? && e.id !in m.processed && e.at >= m.snapshot.deadline
  }

  // One fresh timeout, at most a second one once the rollback window is over,
  // brings any reachable machine to a terminal state.
  lemma TwoTimeoutsSuffice(plan: ChangePlan, now: int, ins: seq<Delivery>, first: ChangeEvent, second: ChangeEvent)
    requires Canonical(plan)
    requires var m := Run(Initial(plan, now), ins);
      && FreshTimeout(m, first) && ValidEvent(second) && second.kind.PhaseTimedOut?
      && second.id != first.id && second.id !in m.processed && second.at >= first.at + plan.body.timeouts.rollback
    ensures var m := Run(Initial(plan, now), ins);
      var m1 := Step(m, first, m.snapshot.version);
      m.snapshot.state.Terminal() || m1.snapshot.state.Terminal()
      || Step(m1, second, m1.snapshot.version).snapshot.state.Terminal()
  {
    hide Canonical, ValidEvent, Run, History, Shape, Recorded, HasProbe, Detail;
    RunWindsDown(plan, now, ins);
    RunIsGood(plan, now, ins);
    CanonicalPlanFacts(plan);
  }

  // ---- exactly once ----

  // An event that took effect is recognised wherever it is delivered again,
  // whatever version it expects; the same identity with other content is refused.
  lemma RecognisedAgain(plan: ChangePlan, now: int, ins: seq<Delivery>, e: ChangeEvent, expected: nat)
    requires Canonical(plan) && e in History(Initial(plan, now), ins)
    ensures var m := Run(Initial(plan, now), ins);
      && Decide(m, e, expected).Replayed? && Step(m, e, expected) == m
      && forall e': ChangeEvent | e'.id == e.id && e' != e && ValidEvent(e') :: Decide(m, e', expected) == Rejected(IdempotencyConflict)
  {
    hide Canonical, ValidEvent, Run, History, Shape, OnTime;
    RunIsGood(plan, now, ins);
  }

  // full is base with deliveries of already effective events put in anywhere.
  ghost predicate Redelivers(m: Machine, full: seq<Delivery>, base: seq<Delivery>)
    decreases |full|
  {
    if full == [] then base == []
    else
      var last := full[|full| - 1];
      || (base != [] && base[|base| - 1] == last && Redelivers(m, full[..|full| - 1], base[..|base| - 1]))
      || (last.event in History(m, base) && Redelivers(m, full[..|full| - 1], base))
  }

  // Delivery is exactly once in effect.
  lemma {:induction false} RedeliveryChangesNothing(plan: ChangePlan, now: int, full: seq<Delivery>, base: seq<Delivery>)
    requires Canonical(plan) && Redelivers(Initial(plan, now), full, base)
    ensures Run(Initial(plan, now), full) == Run(Initial(plan, now), base)
    ensures History(Initial(plan, now), full) == History(Initial(plan, now), base)
    decreases |full|
  {
    hide Canonical, Decide, Initial;
    var m0 := Initial(plan, now);
    if full != [] {
      var front, last := full[..|full| - 1], full[|full| - 1];
      if base != [] && base[|base| - 1] == last && Redelivers(m0, front, base[..|base| - 1]) {
        RedeliveryChangesNothing(plan, now, front, base[..|base| - 1]);
      } else {
        RedeliveryChangesNothing(plan, now, front, base);
        RecognisedAgain(plan, now, base, last.event, last.expected);
      }
    }
  }

  // The version counts the events that took effect, and so does the record.
  lemma VersionCountsEvents(plan: ChangePlan, now: int, ins: seq<Delivery>)
    requires Canonical(plan)
    ensures var m := Run(Initial(plan, now), ins);
      m.snapshot.version == 1 + |m.processed| == 1 + |History(Initial(plan, now), ins)|
  {
    hide Canonical, Run, History, Shape, OnTime;
    RunIsGood(plan, now, ins);
  }

  lemma {:induction false} VersionNeverDrops(m: Machine, ins: seq<Delivery>)
    ensures Run(m, ins).snapshot.version >= m.snapshot.version
    ensures History(m, ins) == [] ==> Run(m, ins) == m
    ensures Run(m, ins).snapshot.version == m.snapshot.version ==> History(m, ins) == []
  {
    hide Decide, Transition;
    if ins != [] {
      VersionNeverDrops(m, ins[..|ins| - 1]);
      AcceptedRaisesVersion(Run(m, ins[..|ins| - 1]), ins[|ins| - 1].event, ins[|ins| - 1].expected);
    }
  }

  lemma AcceptedRaisesVersion(m: Machine, e: ChangeEvent, expected: nat)
    ensures Decide(m, e, expected).Accepted? ==>
      Step(m, e, expected).snapshot.version == m.snapshot.version + 1 && m.snapshot.version == expected
  {
    hide Transition, ValidEvent, Timely;
  }

  // Two deliveries that both took effect never expected the same version.
  lemma NoSharedVersion(m: Machine, a: seq<Delivery>, d: Delivery, b: seq<Delivery>, d': Delivery)
    requires Decide(Run(m, a), d.event, d.expected).Accepted?
    requires Decide(Run(m, a + [d] + b), d'.event, d'.expected).Accepted?
    ensures d.expected < d'.expected
  {
    hide Decide, Transition;
    AcceptedRaisesVersion(Run(m, a), d.event, d.expected);
    AcceptedRaisesVersion(Run(m, a + [d] + b), d'.event, d'.expected);
    assert (a + [d])[..|a|] == a;
    assert Run(m, a + [d]) == Step(Run(m, a), d.event, d.expected);
    RunAppend(m, a + [d], b);
    VersionNeverDrops(Run(m, a + [d]), b);
  }
}
