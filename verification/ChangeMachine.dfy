// Verification evidence and preflight admissions as documents
// (internal/networkpolicy/verification_freshness.go, verification_preflight.go).
module VerificationDocuments {
  import opened ChangePlan

  datatype CheckStatus = Pass | Fail | UnknownStatus(text: string)

  // The digest of raw check evidence; only its well-formedness matters.
  datatype CheckEvidence = CheckEvidence(name: string, status: CheckStatus, evidenceDigest: DigestId<string>, observedAt: int)

  datatype Evidence = Evidence(schemaVersion: string, planId: PlanId, revisionId: string, verifiedAt: int, checks: seq<CheckEvidence>)

  type EvidenceId = DigestId<Evidence>

  // Everything of an admission but its identity.
  datatype AdmissionBody = AdmissionBody(
    schemaVersion: string, planId: PlanId, revisionId: string, evidenceId: EvidenceId, machineVersion: nat,
    evaluatedAt: int, expiresAt: int, ready: bool,
    missingChecks: seq<string>, staleChecks: seq<string>, failedChecks: seq<string>,
    executionAuthorized: bool, productionMutationAllowed: bool)

  type AdmissionId = DigestId<AdmissionBody>

  datatype Admission = Admission(admissionId: AdmissionId, body: AdmissionBody)
}

// The staged network change machine (internal/networkpolicy/change_machine.go):
// its step function, the object that runs it, and what every run keeps.
module ChangeMachine {
  import opened ChangePlan
  import opened Options
  import opened VerificationDocuments

  datatype ChangeState = SnapshotPending | Preflight | ApplyWindow | Probing | RollbackPending
                       | Committed | RolledBack | FailedClosed
  {
    predicate Terminal() {
      Committed? || RolledBack? || FailedClosed?
    }
  }

  datatype EventType = SnapshotCaptured | SnapshotFailed | PreflightPassed | PreflightFailed | TemporaryApplied
                     | ProbePassed | ProbeFailed | PhaseTimedOut | RollbackSucceeded | RollbackFailed
                     | UnknownEvent(text: string)

  // An event is named by its sender, or after the digest of the admission it
  // was derived from ("preflight-" and 64 hex digits).
  datatype EventId = Named(text: string) | OfAdmission(admission: AdmissionBody)

  datatype ChangeEvent = ChangeEvent(id: EventId, kind: EventType, snapshotId: string, probeId: string, reasonCode: string, at: int)

  // The digest under which a processed event is remembered.
  datatype EventDigest = EventDigest(event: ChangeEvent)

  datatype ChangeSnapshot = ChangeSnapshot(
    planId: PlanId, snapshotId: string, state: ChangeState, version: nat, deadline: int,
    passedProbeIds: seq<string>, reasonCode: string, updatedAt: int)

  datatype ApplyError = MalformedEvent | IdempotencyConflict | VersionConflict | InvalidTransition

  datatype Outcome = Accepted | Replayed | Rejected(error: ApplyError)

  datatype Machine = Machine(plan: ChangePlan, snapshot: ChangeSnapshot, passed: set<string>, processed: map<EventId, EventDigest>)

  // ---- the step ----

  predicate ValidEventId(id: EventId) {
    id.OfAdmission? || ValidIdentifier(id.text)
  }

  predicate IsFailure(kind: EventType) {
    kind.SnapshotFailed? || kind.PreflightFailed? || kind.ProbeFailed? || kind.PhaseTimedOut? || kind.RollbackFailed?
  }

  predicate ValidEvent(e: ChangeEvent) {
    && ValidEventId(e.id) && e.at != 0
    && (e.reasonCode != "" ==> ValidIdentifier(e.reasonCode))
    && (e.probeId != "" ==> ValidIdentifier(e.probeId))
    && ((e.kind.ProbePassed? || e.kind.ProbeFailed?) <==> e.probeId != "")
    && (if e.kind.SnapshotCaptured? then ValidIdentifier(e.snapshotId) else e.snapshotId == "")
    && (e.reasonCode != "" ==> IsFailure(e.kind))
    && !e.kind.UnknownEvent?
  }

  function Detail(e: ChangeEvent, fallback: string): string {
    if e.reasonCode != "" then e.reasonCode else fallback
  }

  function Enter(s: ChangeSnapshot, state: ChangeState, at: int, timeout: int, reason: string): ChangeSnapshot {
    s.(state := state, reasonCode := reason, deadline := if timeout > 0 then at + timeout else 0)
  }

  predicate HasProbe(plan: ChangePlan, id: string) {
    id in ProbeIds(plan.body.probes)
  }

  function Earlier(a: int, b: int): int {
    if a > b then b else a
  }

  // What an event does to the snapshot and the passed probes, if it is
  // admissible in the current state.
  function Transition(m: Machine, e: ChangeEvent): Option<(ChangeSnapshot, set<string>)> {
    var s, t := m.snapshot, m.plan.body.timeouts;
    match s.state
    case SnapshotPending =>
      if e.kind.SnapshotCaptured? then
        Some((Enter(s.(snapshotId := e.snapshotId), Preflight, e.at, t.preflight, ""), m.passed))
      else if e.kind.SnapshotFailed? || e.kind.PhaseTimedOut? then
        Some((Enter(s, FailedClosed, e.at, 0, Detail(e, "snapshot_not_available")), m.passed))
      else None
    case Preflight =>
      if e.kind.PreflightPassed? then
        Some((Enter(s, ApplyWindow, e.at, t.applyWindow, ""), m.passed))
      else if e.kind.PreflightFailed? || e.kind.PhaseTimedOut? then
        Some((Enter(s, FailedClosed, e.at, 0, Detail(e, "preflight_not_safe")), m.passed))
      else None
    case ApplyWindow =>
      if e.kind.TemporaryApplied? then
        Some((s.(state := Probing, deadline := Earlier(e.at + t.probe, s.deadline), reasonCode := ""), m.passed))
      else if e.kind.PhaseTimedOut? then
        Some((Enter(s, RollbackPending, e.at, t.rollback, Detail(e, "apply_window_timeout")), m.passed))
      else None
    case Probing =>
      if e.kind.ProbePassed? then
        if !HasProbe(m.plan, e.probeId) || e.probeId in m.passed then None
        else
          var passed := m.passed + {e.probeId};
          Some((if |passed| == |m.plan.body.probes| then Enter(s, Committed, e.at, 0, "") else s, passed))
      else if e.kind.ProbeFailed? || e.kind.PhaseTimedOut? then
        if e.kind.ProbeFailed? && !HasProbe(m.plan, e.probeId) then None
        else Some((Enter(s, RollbackPending, e.at, t.rollback, Detail(e, "connectivity_validation_failed")), m.passed))
      else None
    case RollbackPending =>
      if e.kind.RollbackSucceeded? then
        Some((Enter(s, RolledBack, e.at, 0, s.reasonCode), m.passed))
      else if e.kind.RollbackFailed? || e.kind.PhaseTimedOut? then
        Some((Enter(s, FailedClosed, e.at, 0, Detail(e, "rollback_not_confirmed")), m.passed))
      else None
    case _ => None
  }

  // The deadline and ordering checks made before a transition.
  predicate Timely(s: ChangeSnapshot, e: ChangeEvent) {
    && e.at >= s.updatedAt
    && (if e.kind.PhaseTimedOut? then e.at >= s.deadline else e.at <= s.deadline)
  }

  function Decide(m: Machine, e: ChangeEvent, expected: nat): Outcome {
    if !ValidEvent(e) then Rejected(MalformedEvent)
    else if e.id in m.processed then
      if m.processed[e.id] != EventDigest(e) then Rejected(IdempotencyConflict) else Replayed
    else if m.snapshot.version != expected then Rejected(VersionConflict)
    else if m.snapshot.state.Terminal() || !Timely(m.snapshot, e) || Transition(m, e).None? then Rejected(InvalidTransition)
    else Accepted
  }

  function After(m: Machine, e: ChangeEvent): Machine {
    match Transition(m, e)
    case None => m
    case Some((s, passed)) =>
      m.(snapshot := s.(version := m.snapshot.version + 1, updatedAt := e.at), passed := passed,
         processed := m.processed[e.id := EventDigest(e)])
  }

  function Step(m: Machine, e: ChangeEvent, expected: nat): Machine {
    if Decide(m, e, expected).Accepted? then After(m, e) else m
  }

  function Initial(plan: ChangePlan, now: int): Machine {
    Machine(plan, ChangeSnapshot(plan.planId, "", SnapshotPending, 1, now + plan.body.timeouts.snapshot, [], "", now), {}, map[])
  }

  // The copy handed out: passed probes listed in plan order.
  function Published(m: Machine): ChangeSnapshot {
    m.snapshot.(passedProbeIds := PassedInOrder(ProbeIds(m.plan.body.probes), m.passed))
  }

  function PassedInOrder(ids: seq<string>, passed: set<string>): seq<string> {
    if ids == [] then []
    else
      var front := PassedInOrder(ids[..|ids| - 1], passed);
      if ids[|ids| - 1] in passed then front + [ids[|ids| - 1]] else front
  }

  // ---- the object ----

  class StagedChange {
    const plan: ChangePlan
    var snapshot: ChangeSnapshot
    var passed: set<string>
    var processedEvents: map<EventId, EventDigest>

    ghost function Model(): Machine
      reads this
    {
      Machine(plan, snapshot, passed, processedEvents)
    }

    constructor (plan: ChangePlan, now: int)
      ensures Model() == Initial(plan, now)
    {
      this.plan := plan;
      snapshot := ChangeSnapshot(plan.planId, "", SnapshotPending, 1, now + plan.body.timeouts.snapshot, [], "", now);
      passed := {};
      processedEvents := map[];
    }

    // Snapshot: a copy with the passed probes in plan order.
    method Snapshot() returns (copy: ChangeSnapshot)
      ensures copy == Published(Model())
    {
      var ids := ProbeIds(plan.body.probes);
      var list: seq<string> := [];
      for n := 0 to |ids|
        invariant list == PassedInOrder(ids[..n], passed)
      {
        assert ids[..n + 1][..n] == ids[..n];
        if ids[n] in passed {
          list := list + [ids[n]];
        }
      }
      assert ids[..|ids|] == ids;
      copy := snapshot.(passedProbeIds := list);
    }

    method EnterState(state: ChangeState, at: int, timeout: int, reason: string)
      modifies this`snapshot
      ensures snapshot == Enter(old(snapshot), state, at, timeout, reason)
    {
      snapshot := snapshot.(state := state, reasonCode := reason);
      if timeout > 0 {
        snapshot := snapshot.(deadline := at + timeout);
      } else {
        snapshot := snapshot.(deadline := 0);
      }
    }

    method ApplyTransition(e: ChangeEvent) returns (ok: bool)
      modifies this`snapshot, this`passed
      ensures ok <==> Transition(old(Model()), e).Some?
      ensures (snapshot, passed) == if ok then Transition(old(Model()), e).value else old((snapshot, passed))
    {
      var t := plan.body.timeouts;
      match snapshot.state {
      case SnapshotPending =>
        if e.kind.SnapshotCaptured? {
          snapshot := snapshot.(snapshotId := e.snapshotId);
          EnterState(Preflight, e.at, t.preflight, "");
        } else if e.kind.SnapshotFailed? || e.kind.PhaseTimedOut? {
          EnterState(FailedClosed, e.at, 0, Detail(e, "snapshot_not_available"));
        } else {
          return false;
        }
      case Preflight =>
        if e.kind.PreflightPassed? {
          EnterState(ApplyWindow, e.at, t.applyWindow, "");
        } else if e.kind.PreflightFailed? || e.kind.PhaseTimedOut? {
          EnterState(FailedClosed, e.at, 0, Detail(e, "preflight_not_safe"));
        } else {
          return false;
        }
      case ApplyWindow =>
        if e.kind.TemporaryApplied? {
          var deadline := e.at + t.probe;
          var applyDeadline := snapshot.deadline;
          if deadline > applyDeadline {
            deadline := applyDeadline;
          }
          snapshot := snapshot.(state := Probing, deadline := deadline, reasonCode := "");
        } else if e.kind.PhaseTimedOut? {
          EnterState(RollbackPending, e.at, t.rollback, Detail(e, "apply_window_timeout"));
        } else {
          return false;
        }
      case Probing =>
        if e.kind.ProbePassed? {
          if !HasProbe(plan, e.probeId) || e.probeId in passed {
            return false;
          }
          passed := passed + {e.probeId};
          if |passed| == |plan.body.probes| {
            EnterState(Committed, e.at, 0, "");
          }
        } else if e.kind.ProbeFailed? || e.kind.PhaseTimedOut? {
          if e.kind.ProbeFailed? && !HasProbe(plan, e.probeId) {
            return false;
          }
          EnterState(RollbackPending, e.at, t.rollback, Detail(e, "connectivity_validation_failed"));
        } else {
          return false;
        }
      case RollbackPending =>
        if e.kind.RollbackSucceeded? {
          EnterState(RolledBack, e.at, 0, snapshot.reasonCode);
        } else if e.kind.RollbackFailed? || e.kind.PhaseTimedOut? {
          EnterState(FailedClosed, e.at, 0, Detail(e, "rollback_not_confirmed"));
        } else {
          return false;
        }
      case _ =>
        return false;
      }
      ok := true;
    }

    // One delivery. Errors and replays leave the object alone; both report the
    // current state.
    method Apply(event: ChangeEvent, expectedVersion: nat) returns (copy: ChangeSnapshot, error: Option<ApplyError>)
      modifies this
      ensures Model() == Step(old(Model()), event, expectedVersion)
      ensures copy == Published(Model())
      ensures error == match Decide(old(Model()), event, expectedVersion)
                       case Rejected(e) => Some(e)
                       case _ => None
    {
      if !ValidEvent(event) {
        error := Some(MalformedEvent);
      } else if event.id in processedEvents {
        error := if processedEvents[event.id] != EventDigest(event) then Some(IdempotencyConflict) else None;
      } else if snapshot.version != expectedVersion {
        error := Some(VersionConflict);
      } else if snapshot.state.Terminal() || event.at < snapshot.updatedAt {
        error := Some(InvalidTransition);
      } else if event.kind.PhaseTimedOut? && event.at < snapshot.deadline {
        error := Some(InvalidTransition);
      } else if !event.kind.PhaseTimedOut? && event.at > snapshot.deadline {
        error := Some(InvalidTransition);
      } else {
        var ok := ApplyTransition(event);
        if !ok {
          error := Some(InvalidTransition);
        } else {
          processedEvents := processedEvents[event.id := EventDigest(event)];
          snapshot := snapshot.(version := snapshot.version + 1);
          snapshot := snapshot.(updatedAt := event.at);
          error := None;
        }
      }
      copy := Snapshot();
    }
  }

  // NewChangeMachine: refuses a zero start time and any plan that does not
  // survive rebuilding.
  method NewChangeMachine(plan: ChangePlan, now: int) returns (machine: StagedChange?)
    ensures machine != null <==> now != 0 && Canonical(plan)
    ensures machine != null ==> fresh(machine) && machine.Model() == Initial(plan, now)
  {
    if now == 0 {
      return null;
    }
    var rebuilt := BuildChangePlan(RequestOf(plan));
    if rebuilt != Some(plan) {
      return null;
    }
    machine := new StagedChange(plan, now);
  }
}
