// When a phase ends, why a run ended and which probes it counts, read off the
// events that took effect.
module ChangeTimes {
  import opened ChangeMachine
  import opened ChangePlan
  import opened ChangeRuns
  import opened Sorting

  // ---- the clock ----

  // The moment of the last event that took effect.
  function Latest(start: int, h: seq<ChangeEvent>): int {
    if h == [] then start else h[|h| - 1].at
  }

  // Each phase ends a fixed time after the event that began it; probing ends
  // with its own timeout or with the apply window, whichever comes first.
  ghost predicate Clocked(m: Machine, start: int, h: seq<ChangeEvent>) {
    var s, t := m.snapshot, m.plan.body.timeouts;
    && s.updatedAt == Latest(start, h)
    && (match s.state
        case SnapshotPending => s.deadline == start + t.snapshot
        case Preflight => |h| == 1 && s.deadline == h[0].at + t.preflight
        case ApplyWindow => |h| == 2 && s.deadline == h[1].at + t.applyWindow
        case Probing =>
          && |h| >= 3
          && s.deadline <= h[2].at + t.probe && s.deadline <= h[1].at + t.applyWindow
          && (s.deadline == h[2].at + t.probe || s.deadline == h[1].at + t.applyWindow)
        case RollbackPending => h != [] && s.deadline == h[|h| - 1].at + t.rollback
        case Committed =>
          && |h| >= 3 && s.deadline == 0
          && s.updatedAt <= h[2].at + t.probe && s.updatedAt <= h[1].at + t.applyWindow
        case _ => s.deadline == 0)
  }

  // The reason a failed run gives: the one its deciding event carries, or the
  // fixed one of the phase it failed in.
  ghost predicate Explained(m: Machine, h: seq<ChangeEvent>) {
    var reason := m.snapshot.reasonCode;
    match m.snapshot.state
    case RollbackPending => h != [] && reason == RollbackReason(h)
    case RolledBack => |h| >= 2 && reason == RollbackReason(h[..|h| - 1])
    case FailedClosed =>
      h != [] && reason == Given(h[|h| - 1], if |h| == 1 then "snapshot_not_available"
                                             else if |h| == 2 then "preflight_not_safe"
                                             else "rollback_not_confirmed")
    case _ => reason == ""
  }

  function Given(e: ChangeEvent, otherwise: string): string {
    if e.reasonCode == "" then otherwise else e.reasonCode
  }

  function RollbackReason(h: seq<ChangeEvent>): string
    requires h != []
  {
    Given(h[|h| - 1], if |h| == 3 then "apply_window_timeout" else "connectivity_validation_failed")
  }

  // The probes counted as passed are those of the accepted passes.
  ghost predicate CountsPasses(m: Machine, h: seq<ChangeEvent>) {
    forall id :: id in m.passed <==> exists i :: 0 <= i < |h| && h[i].kind.ProbePassed? && h[i].probeId == id
  }

  ghost predicate Timeline(m: Machine, start: int, h: seq<ChangeEvent>) {
    Clocked(m, start, h) && Explained(m, h) && CountsPasses(m, h)
  }

  // ---- one accepted event keeps it ----

  lemma ClockedBefore(m: Machine, start: int, h: seq<ChangeEvent>, e: ChangeEvent)
    requires ValidTimeouts(m.plan.body.timeouts) && Shape(m, h) && Clocked(m, start, h)
    requires Timely(m.snapshot, e) && Transition(m, e).Some?
    requires m.snapshot.state in {SnapshotPending, Preflight, ApplyWindow}
    ensures Clocked(After(m, e), start, h + [e])
  {
    hide Detail, PassesUpTo, MustRollBack;
    assert forall i | 0 <= i < |h| :: (h + [e])[i] == h[i];
  }

  lemma ClockedSince(m: Machine, start: int, h: seq<ChangeEvent>, e: ChangeEvent)
    requires ValidTimeouts(m.plan.body.timeouts) && Clocked(m, start, h)
    requires Timely(m.snapshot, e) && Transition(m, e).Some?
    requires m.snapshot.state !in {SnapshotPending, Preflight, ApplyWindow}
    ensures Clocked(After(m, e), start, h + [e])
  {
    hide Detail, HasProbe;
    assert forall i | 0 <= i < |h| :: (h + [e])[i] == h[i];
  }

  lemma ClockedStep(m: Machine, start: int, h: seq<ChangeEvent>, e: ChangeEvent)
    requires ValidTimeouts(m.plan.body.timeouts) && Shape(m, h) && Clocked(m, start, h)
    requires Timely(m.snapshot, e) && Transition(m, e).Some?
    ensures Clocked(After(m, e), start, h + [e])
  {
    hide *;
    if m.snapshot.state in {SnapshotPending, Preflight, ApplyWindow} {
      ClockedBefore(m, start, h, e);
    } else {
      ClockedSince(m, start, h, e);
    }
  }

  lemma ShapeLengths(m: Machine, h: seq<ChangeEvent>)
    requires Shape(m, h)
    ensures match m.snapshot.state
      case SnapshotPending => |h| == 0
      case Preflight => |h| == 1
      case ApplyWindow => |h| == 2
      case Probing => |h| >= 3
      case RollbackPending => |h| >= 3
      case _ => h != []
  {
  }

  lemma DetailIsGiven(e: ChangeEvent, otherwise: string)
    ensures Detail(e, otherwise) == Given(e, otherwise)
  {
  }

  // What an accepted event leaves as the reason.
  lemma ReasonAfter(m: Machine, e: ChangeEvent)
    requires Transition(m, e).Some?
    ensures var s := After(m, e).snapshot;
      match m.snapshot.state
      case SnapshotPending => if s.state.FailedClosed? then s.reasonCode == Detail(e, "snapshot_not_available") else s.state.Preflight? && s.reasonCode == ""
      case Preflight => if s.state.FailedClosed? then s.reasonCode == Detail(e, "preflight_not_safe") else s.state.ApplyWindow? && s.reasonCode == ""
      case ApplyWindow => if s.state.RollbackPending? then s.reasonCode == Detail(e, "apply_window_timeout") else s.state.Probing? && s.reasonCode == ""
      case Probing =>
        if s.state.RollbackPending? then s.reasonCode == Detail(e, "connectivity_validation_failed")
        else s.state in {Probing, Committed} && s.reasonCode in {"", m.snapshot.reasonCode}
      case RollbackPending =>
        if s.state.FailedClosed? then s.reasonCode == Detail(e, "rollback_not_confirmed")
        else s.state.RolledBack? && s.reasonCode == m.snapshot.reasonCode
      case _ => true
  {
    hide Detail, HasProbe;
  }

  lemma ExplainedStep(m: Machine, h: seq<ChangeEvent>, e: ChangeEvent)
    requires Shape(m, h) && Explained(m, h) && Transition(m, e).Some?
    ensures Explained(After(m, e), h + [e])
  {
    ShapeLengths(m, h);
    ReasonAfter(m, e);
    OnlyRunningMoves(m, e);
    hide Shape, Transition, After, Detail, Given;
    var h' := h + [e];
    assert h'[..|h|] == h && h'[|h|] == e;
    match m.snapshot.state
    case SnapshotPending =>
      DetailIsGiven(e, "snapshot_not_available");
    case Preflight =>
      DetailIsGiven(e, "preflight_not_safe");
    case ApplyWindow =>
      DetailIsGiven(e, "apply_window_timeout");
    case Probing =>
      DetailIsGiven(e, "connectivity_validation_failed");
    case RollbackPending =>
      DetailIsGiven(e, "rollback_not_confirmed");
    case _ =>
  }

  lemma OnlyRunningMoves(m: Machine, e: ChangeEvent)
    requires Transition(m, e).Some?
    ensures !m.snapshot.state.Terminal()
  {
  }

  lemma PassedStep(m: Machine, e: ChangeEvent)
    requires Transition(m, e).Some?
    requires e.kind.ProbePassed? ==> m.snapshot.state.Probing?
    ensures After(m, e).passed == if e.kind.ProbePassed? then m.passed + {e.probeId} else m.passed
  {
    hide Detail, HasProbe;
  }

  lemma OnlyProbingPasses(m: Machine, e: ChangeEvent)
    requires Transition(m, e).Some? && e.kind.ProbePassed?
    ensures m.snapshot.state.Probing?
  {
  }

  lemma CountsPassesStep(m: Machine, h: seq<ChangeEvent>, e: ChangeEvent)
    requires CountsPasses(m, h) && Transition(m, e).Some?
    ensures CountsPasses(After(m, e), h + [e])
  {
    if e.kind.ProbePassed? {
      OnlyProbingPasses(m, e);
    }
    PassedStep(m, e);
    hide Transition, After;
    var h' := h + [e];
    forall id ensures id in After(m, e).passed <==> exists i :: 0 <= i < |h'| && h'[i].kind.ProbePassed? && h'[i].probeId == id {
      if i :| 0 <= i < |h| && h[i].kind.ProbePassed? && h[i].probeId == id {
        assert h'[i] == h[i];
      }
      assert h'[|h|] == e;
      if i :| 0 <= i < |h'| && h'[i].kind.ProbePassed? && h'[i].probeId == id {
        assert i < |h| ==> h[i] == h'[i];
      }
    }
  }

  // The clock, the reason and the counted probes of every run.
  lemma {:induction false} RunKeepsTime(plan: ChangePlan, now: int, ins: seq<Delivery>)
    requires Canonical(plan)
    ensures Timeline(Run(Initial(plan, now), ins), now, History(Initial(plan, now), ins))
  {
    hide Canonical, Decide, Timely, Transition, Shape, Recorded;
    var m0 := Initial(plan, now);
    if ins == [] {
    } else {
      var init, last := ins[..|ins| - 1], ins[|ins| - 1];
      RunKeepsTime(plan, now, init);
      RunIsGood(plan, now, init);
      CanonicalPlanFacts(plan);
      var m, h := Run(m0, init), History(m0, init);
      if Decide(m, last.event, last.expected).Accepted? {
        AcceptedIsTimely(m, last.event, last.expected);
        ClockedStep(m, now, h, last.event);
        ExplainedStep(m, h, last.event);
        CountsPassesStep(m, h, last.event);
      }
    }
  }

  lemma AcceptedIsTimely(m: Machine, e: ChangeEvent, expected: nat)
    requires Decide(m, e, expected).Accepted?
    ensures Timely(m.snapshot, e) && Transition(m, e).Some? && ValidEvent(e)
  {
  }

  // ---- which event may come next ----

  // The instant a phase runs out.
  function PhaseEnd(plan: ChangePlan, start: int, state: ChangeState, h: seq<ChangeEvent>): int
    requires !state.Terminal()
    requires state.Preflight? ==> |h| >= 1
    requires state.ApplyWindow? ==> |h| >= 2
    requires state.Probing? ==> |h| >= 3
    requires state.RollbackPending? ==> |h| >= 1
  {
    var t := plan.body.timeouts;
    match state
    case SnapshotPending => start + t.snapshot
    case Preflight => h[0].at + t.preflight
    case ApplyWindow => h[1].at + t.applyWindow
    case Probing => if h[2].at + t.probe <= h[1].at + t.applyWindow then h[2].at + t.probe else h[1].at + t.applyWindow
    case RollbackPending => h[|h| - 1].at + t.rollback
  }

  // The events a phase waits for, other than its timeout.
  predicate Awaited(plan: ChangePlan, state: ChangeState, h: seq<ChangeEvent>, e: ChangeEvent) {
    match state
    case SnapshotPending => e.kind in {SnapshotCaptured, SnapshotFailed}
    case Preflight => e.kind in {PreflightPassed, PreflightFailed}
    case ApplyWindow => e.kind.TemporaryApplied?
    case Probing =>
      && (exists k :: 0 <= k < |plan.body.probes| && plan.body.probes[k].id == e.probeId)
      && (e.kind.ProbeFailed? || (e.kind.ProbePassed? && forall i | 0 <= i < |h| :: h[i].kind.ProbePassed? ==> h[i].probeId != e.probeId))
    case RollbackPending => e.kind in {RollbackSucceeded, RollbackFailed}
    case _ => false
  }

  ghost predicate MayFollow(plan: ChangePlan, start: int, state: ChangeState, h: seq<ChangeEvent>, e: ChangeEvent) {
    && !state.Terminal()
    && (state.Preflight? ==> |h| >= 1) && (state.ApplyWindow? ==> |h| >= 2)
    && (state.Probing? ==> |h| >= 3) && (state.RollbackPending? ==> |h| >= 1)
    && e.at >= Latest(start, h)
    && (if e.kind.PhaseTimedOut? then e.at >= PhaseEnd(plan, start, state, h)
        else Awaited(plan, state, h, e) && e.at <= PhaseEnd(plan, start, state, h))
  }

  lemma HasProbeMeans(plan: ChangePlan, id: string)
    ensures HasProbe(plan, id) <==> exists k :: 0 <= k < |plan.body.probes| && plan.body.probes[k].id == id
  {
    var probes := plan.body.probes;
    var ids := ProbeIds(probes);
    if k :| 0 <= k < |probes| && probes[k].id == id {
      assert ids[k] == id;
    }
    if id in ids {
      var k :| 0 <= k < |ids| && ids[k] == id;
      assert probes[k].id == id;
    }
  }

  lemma TransitionAwaits(m: Machine, h: seq<ChangeEvent>, e: ChangeEvent)
    requires CountsPasses(m, h) && !m.snapshot.state.Terminal() && !e.kind.PhaseTimedOut?
    ensures Transition(m, e).Some? <==> Awaited(m.plan, m.snapshot.state, h, e)
  {
    HasProbeMeans(m.plan, e.probeId);
    hide Detail, HasProbe;
    if m.snapshot.state.Probing? && e.kind.ProbePassed? {
      assert e.probeId in m.passed <==> exists i :: 0 <= i < |h| && h[i].kind.ProbePassed? && h[i].probeId == e.probeId;
    }
  }

  lemma TimeoutMoves(m: Machine, e: ChangeEvent)
    requires !m.snapshot.state.Terminal() && e.kind.PhaseTimedOut?
    ensures Transition(m, e).Some?
    ensures After(m, e).snapshot.state == if m.snapshot.state in {ApplyWindow, Probing} then RollbackPending else FailedClosed
  {
    hide Detail, HasProbe;
  }

  lemma ClockedEnd(m: Machine, start: int, h: seq<ChangeEvent>)
    requires Clocked(m, start, h) && !m.snapshot.state.Terminal()
    ensures var state := m.snapshot.state;
      && (state.Preflight? ==> |h| >= 1) && (state.ApplyWindow? ==> |h| >= 2)
      && (state.Probing? ==> |h| >= 3) && (state.RollbackPending? ==> |h| >= 1)
      && m.snapshot.deadline == PhaseEnd(m.plan, start, state, h)
  {
  }

  lemma DecideFresh(m: Machine, e: ChangeEvent)
    requires ValidEvent(e) && e.id !in m.processed
    ensures Decide(m, e, m.snapshot.version)
      == if !m.snapshot.state.Terminal() && Timely(m.snapshot, e) && Transition(m, e).Some? then Accepted else Rejected(InvalidTransition)
    ensures forall expected | expected != m.snapshot.version :: Decide(m, e, expected) == Rejected(VersionConflict)
  {
    hide ValidEvent, Timely, Transition;
  }

  // In every run, a new event that expects the current version takes effect
  // exactly if its phase awaits it, no earlier than the last event and no later
  // than the phase's end; a timeout takes effect exactly from that end on.
  // Any other expected version is a conflict.
  lemma NextEventExactly(plan: ChangePlan, now: int, ins: seq<Delivery>, e: ChangeEvent)
    requires Canonical(plan) && ValidEvent(e) && e.id !in Run(Initial(plan, now), ins).processed
    ensures var m, h := Run(Initial(plan, now), ins), History(Initial(plan, now), ins);
      && Decide(m, e, m.snapshot.version)
         == (if MayFollow(plan, now, m.snapshot.state, h, e) then Accepted else Rejected(InvalidTransition))
      && forall expected | expected != m.snapshot.version :: Decide(m, e, expected) == Rejected(VersionConflict)
  {
    var m, h := Run(Initial(plan, now), ins), History(Initial(plan, now), ins);
    hide Canonical, ValidEvent, Run, History, Shape, Recorded, Transition, Decide, Explained, CountsPasses, Awaited, PhaseEnd, Initial;
    RunKeepsTime(plan, now, ins);
    RunIsGood(plan, now, ins);
    DecideFresh(m, e);
    if !m.snapshot.state.Terminal() {
      ClockedEnd(m, now, h);
      if e.kind.PhaseTimedOut? {
        TimeoutMoves(m, e);
      } else {
        TransitionAwaits(m, h, e);
      }
    }
  }

  // A committed run ended inside the probe timeout and inside the apply window.
  lemma CommittedInTime(plan: ChangePlan, now: int, ins: seq<Delivery>)
    requires Canonical(plan) && Run(Initial(plan, now), ins).snapshot.state.Committed?
    ensures var h, t := History(Initial(plan, now), ins), plan.body.timeouts;
      |h| >= 3 && h[|h| - 1].at <= h[2].at + t.probe && h[|h| - 1].at <= h[1].at + t.applyWindow
  {
    hide Canonical, Run, History, Shape, Recorded, Explained, CountsPasses, Initial;
    RunKeepsTime(plan, now, ins);
    RunIsGood(plan, now, ins);
  }

  lemma AfterProbeWindow(m: Machine, start: int, h: seq<ChangeEvent>, e: ChangeEvent)
    requires ValidTimeouts(m.plan.body.timeouts) && Clocked(m, start, h) && m.snapshot.state.Probing?
    requires ValidEvent(e) && e.id !in m.processed
    ensures var t, next := m.plan.body.timeouts, Step(m, e, m.snapshot.version);
      && (e.kind.PhaseTimedOut? && e.at >= h[|h| - 1].at && (e.at >= h[2].at + t.probe || e.at >= h[1].at + t.applyWindow) ==>
            next.snapshot.state.RollbackPending? && next.snapshot.deadline == e.at + t.rollback)
      && (!e.kind.PhaseTimedOut? && (e.at > h[2].at + t.probe || e.at > h[1].at + t.applyWindow) ==> next == m)
  {
    DecideFresh(m, e);
    hide ValidEvent, Transition, Decide, After;
    if e.kind.PhaseTimedOut? {
      TimeoutMoves(m, e);
      RollbackDeadline(m, e);
    }
  }

  // While probing, a fresh timeout that comes once the probe timeout or the
  // apply window is over rolls the change back; after either, nothing else is
  // taken.
  lemma ProbeWindow(plan: ChangePlan, now: int, ins: seq<Delivery>, e: ChangeEvent)
    requires Canonical(plan) && ValidEvent(e) && e.id !in Run(Initial(plan, now), ins).processed
    requires Run(Initial(plan, now), ins).snapshot.state.Probing?
    ensures var m, h, t := Run(Initial(plan, now), ins), History(Initial(plan, now), ins), plan.body.timeouts;
      var next := Step(m, e, m.snapshot.version);
      && |h| >= 3
      && (e.kind.PhaseTimedOut? && e.at >= h[|h| - 1].at && (e.at >= h[2].at + t.probe || e.at >= h[1].at + t.applyWindow) ==>
            next.snapshot.state.RollbackPending? && next.snapshot.deadline == e.at + t.rollback)
      && (!e.kind.PhaseTimedOut? && (e.at > h[2].at + t.probe || e.at > h[1].at + t.applyWindow) ==> next == m)
  {
    var m, h := Run(Initial(plan, now), ins), History(Initial(plan, now), ins);
    hide Canonical, ValidEvent, Run, History, Shape, OnTime, Recorded, Step, Explained, CountsPasses, Initial;
    RunIsGood(plan, now, ins);
    RunKeepsTime(plan, now, ins);
    CanonicalPlanFacts(plan);
    AfterProbeWindow(m, now, h, e);
  }

  lemma RollbackDeadline(m: Machine, e: ChangeEvent)
    requires Transition(m, e).Some? && After(m, e).snapshot.state.RollbackPending?
    requires ValidTimeouts(m.plan.body.timeouts)
    ensures After(m, e).snapshot.deadline == e.at + m.plan.body.timeouts.rollback
  {
    hide Detail, HasProbe;
  }

  // ---- the published copy ----

  // Some place of the plan names a, and a later one names b.
  ghost predicate InPlanOrder(ids: seq<string>, a: string, b: string) {
    exists i, j :: 0 <= i < j < |ids| && ids[i] == a && ids[j] == b
  }

  lemma {:induction false} PassedInOrderMeans(ids: seq<string>, passed: set<string>)
    ensures forall id :: id in PassedInOrder(ids, passed) <==> id in ids && id in passed
    ensures forall a, b | 0 <= a < b < |PassedInOrder(ids, passed)| ::
      InPlanOrder(ids, PassedInOrder(ids, passed)[a], PassedInOrder(ids, passed)[b])
  {
    if ids == [] {
    } else {
      var front, last := ids[..|ids| - 1], ids[|ids| - 1];
      PassedInOrderMeans(front, passed);
      var list, before := PassedInOrder(ids, passed), PassedInOrder(front, passed);
      assert ids == front + [last];
      forall a, b | 0 <= a < b < |list| ensures InPlanOrder(ids, list[a], list[b]) {
        if b < |before| {
          assert InPlanOrder(front, before[a], before[b]);
          var i, j :| 0 <= i < j < |front| && front[i] == before[a] && front[j] == before[b];
          assert ids[i] == list[a] && ids[j] == list[b];
        } else {
          assert list[a] == before[a] && before[a] in front;
          var i :| 0 <= i < |front| && front[i] == before[a];
          assert ids[i] == list[a] && ids[|ids| - 1] == list[b];
        }
      }
    }
  }

  lemma PassedAreProbes(m: Machine, h: seq<ChangeEvent>)
    requires Shape(m, h) && CountsPasses(m, h)
    ensures forall id | id in m.passed :: id in ProbeIds(m.plan.body.probes)
  {
    hide ProbeIds;
  }

  // Exactly the probes of the accepted passes, each once, in plan order.
  ghost predicate ListsPasses(ids: seq<string>, h: seq<ChangeEvent>, list: seq<string>) {
    && (forall id :: id in list <==> exists i :: 0 <= i < |h| && h[i].kind.ProbePassed? && h[i].probeId == id)
    && (forall a, b | 0 <= a < b < |list| :: list[a] != list[b] && InPlanOrder(ids, list[a], list[b]))
  }

  lemma PublishedLists(m: Machine, h: seq<ChangeEvent>)
    requires Shape(m, h) && CountsPasses(m, h) && Ascending(ProbeIds(m.plan.body.probes))
    ensures ListsPasses(ProbeIds(m.plan.body.probes), h, Published(m).passedProbeIds)
  {
    var ids := ProbeIds(m.plan.body.probes);
    PassedAreProbes(m, h);
    AscendingDistinct(ids);
    PassedInOrderMeans(ids, m.passed);
    hide Shape, ProbeIds, PassedInOrder;
  }

  // In every run, the published copy lists exactly the probes of the accepted
  // passes, each once, in the order of the plan.
  lemma PublishedPasses(plan: ChangePlan, now: int, ins: seq<Delivery>)
    requires Canonical(plan)
    ensures ListsPasses(ProbeIds(plan.body.probes), History(Initial(plan, now), ins),
                        Published(Run(Initial(plan, now), ins)).passedProbeIds)
  {
    var m, h := Run(Initial(plan, now), ins), History(Initial(plan, now), ins);
    hide Canonical, Run, History, Shape, OnTime, Recorded, Explained, CountsPasses, Initial, Clocked, Published, ListsPasses, ProbeIds;
    RunKeepsTime(plan, now, ins);
    RunIsGood(plan, now, ins);
    CanonicalPlanFacts(plan);
    PublishedLists(m, h);
  }
}
