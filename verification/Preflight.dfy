// Admissions that bind fresh evidence to one plan and one machine version, and
// their use as the preflight_passed event (internal/networkpolicy/
// verification_preflight.go, verification_current.go).
module PreflightAdmission {
  import opened ChangeMachine
  import opened ChangePlan
  import opened ChangeRuns
  import opened Freshness
  import opened Options
  import opened Sorting
  import opened Text
  import opened VerificationDocuments

  const ADMISSION_SCHEMA := "network.change.verification-preflight-admission/v1"

  // ---- identities ----

  function TrimmedCheck(c: CheckEvidence): CheckEvidence {
    c.(name := TrimSpace(c.name))
  }

  predicate CheckLess(a: CheckEvidence, b: CheckEvidence) {
    Less(a.name, b.name)
  }

  function EvidenceIdentity(e: Evidence): EvidenceId {
    Sha256(e.(checks := Sort(Project(e.checks, TrimmedCheck), CheckLess)))
  }

  function AdmissionIdentity(a: AdmissionBody): AdmissionId {
    Sha256(a.(missingChecks := Sort(a.missingChecks, Less), staleChecks := Sort(a.staleChecks, Less),
              failedChecks := Sort(a.failedChecks, Less)))
  }

  // ---- building ----

  function AdmissionFrom(now: int, plan: ChangePlan, snapshot: ChangeSnapshot, e: Evidence, policy: Policy, v: Verdict): Admission {
    var body := AdmissionBody(ADMISSION_SCHEMA, plan.planId, plan.body.revisionId, EvidenceIdentity(e), snapshot.version, now,
                              if v.ready then Expiry(e, policy.maxAge) else 0, v.ready, v.missing, v.stale, v.failed, false, false);
    Admission(AdmissionIdentity(body), body)
  }

  // BuildVerificationPreflightAdmission, None standing for its errors. A ready
  // verdict that has expired already would be refused too.
  ghost function BuildAdmission(now: int, plan: ChangePlan, snapshot: ChangeSnapshot, e: Evidence, policy: Policy): Option<Admission> {
    if now == 0 || snapshot.planId != plan.planId || !snapshot.state.Preflight? || snapshot.version == 0 then None
    else match EvaluateForPlan(now, plan, e, policy)
      case None => None
      case Some(v) => if v.ready && Expiry(e, policy.maxAge) <= now then None else Some(AdmissionFrom(now, plan, snapshot, e, policy, v))
  }

  method BuildVerificationPreflightAdmission(now: int, plan: ChangePlan, snapshot: ChangeSnapshot, evidence: Evidence, policy: Policy)
    returns (result: Option<Admission>)
    ensures result == BuildAdmission(now, plan, snapshot, evidence, policy)
  {
    if now == 0 || snapshot.planId != plan.planId || !snapshot.state.Preflight? || snapshot.version == 0 {
      return None;
    }
    var verdict := EvaluateChangePlanFreshness(now, plan, evidence, policy);
    if verdict.None? {
      return None;
    }
    var v := verdict.value;
    var expiresAt := 0;
    if v.ready {
      expiresAt := VerificationExpiry(evidence, policy.maxAge);
      if expiresAt <= now {
        return None;
      }
    }
    var body := AdmissionBody(ADMISSION_SCHEMA, plan.planId, plan.body.revisionId, EvidenceIdentity(evidence), snapshot.version, now,
                              expiresAt, v.ready, v.missing, v.stale, v.failed, false, false);
    result := Some(Admission(AdmissionIdentity(body), body));
  }

  // ---- using an admission ----

  predicate ValidAdmission(a: Admission) {
    var b := a.body;
    && b.schemaVersion == ADMISSION_SCHEMA
    && ValidDigest(a.admissionId) && ValidDigest(b.planId) && ValidIdentifier(b.revisionId) && ValidDigest(b.evidenceId)
    && b.machineVersion != 0 && b.evaluatedAt != 0
    && !b.executionAuthorized && !b.productionMutationAllowed
    && (if b.ready
        then b.expiresAt != 0 && b.expiresAt > b.evaluatedAt && b.missingChecks == [] && b.staleChecks == [] && b.failedChecks == []
        else b.expiresAt == 0)
    && AdmissionIdentity(b) == a.admissionId
  }

  // The event of a valid, ready admission at an instant within its lifetime.
  function EventOf(a: Admission, at: int): Option<ChangeEvent> {
    if ValidAdmission(a) && a.body.ready && at != 0 && a.body.evaluatedAt <= at < a.body.expiresAt
    then Some(ChangeEvent(OfAdmission(a.admissionId.content), PreflightPassed, "", "", "", at))
    else None
  }

  // The checks ApplyVerifiedPreflight makes on the snapshot it reads.
  function PreflightEvent(snapshot: ChangeSnapshot, a: Admission, at: int): Option<ChangeEvent> {
    if snapshot.planId != a.body.planId || !snapshot.state.Preflight? || snapshot.version != a.body.machineVersion then None
    else EventOf(a, at)
  }

  // The checks ApplyCurrentVerifiedPreflight makes before that: the plan is
  // intact and still the machine's, and the admission agrees with the evidence
  // as judged at the instant of use.
  ghost predicate CurrentlyAdmitted(planId: PlanId, plan: ChangePlan, a: Admission, e: Evidence, policy: Policy, at: int) {
    && Rebuilds(plan)
    && planId == plan.planId
    && a.body.planId == plan.planId && a.body.revisionId == plan.body.revisionId
    && at != 0 && EvidenceIdentity(e) == a.body.evidenceId
    && EvaluateForPlan(at, plan, e, policy).Some? && EvaluateForPlan(at, plan, e, policy).value.ready
    && a.body.expiresAt == Expiry(e, policy.maxAge)
  }

  // The identity comparison of validateCurrentVerificationPlan.
  ghost predicate Rebuilds(plan: ChangePlan) {
    var r := PlanFor(RequestOf(plan));
    r.Some? && r.value.planId == plan.planId && r.value.body.revisionId == plan.body.revisionId
  }

  // ApplyCurrentVerifiedPreflight with the machine in state first, second and
  // third at its two reads and its final Apply: other deliveries may land in
  // between.
  ghost function Attempt(first: Machine, second: Machine, third: Machine, plan: ChangePlan, a: Admission, e: Evidence, policy: Policy, at: int)
    : Option<ChangeEvent>
  {
    if !CurrentlyAdmitted(first.snapshot.planId, plan, a, e, policy, at) then None
    else match PreflightEvent(second.snapshot, a, at)
      case None => None
      case Some(event) => if Decide(third, event, a.body.machineVersion).Rejected? then None else Some(event)
  }

  method ApplyVerifiedPreflight(machine: StagedChange?, admission: Admission, at: int) returns (ok: bool)
    modifies machine
    ensures machine == null ==> !ok
    ensures machine != null ==>
      var m := old(machine.Model());
      var event := PreflightEvent(m.snapshot, admission, at);
      && (ok <==> event.Some? && !Decide(m, event.value, admission.body.machineVersion).Rejected?)
      && machine.Model() == if ok then Step(m, event.value, admission.body.machineVersion) else m
  {
    if machine == null {
      return false;
    }
    var snapshot := machine.Snapshot();
    if snapshot.planId != admission.body.planId || !snapshot.state.Preflight? || snapshot.version != admission.body.machineVersion {
      return false;
    }
    var event := EventOf(admission, at);
    if event.None? {
      return false;
    }
    var _, error := machine.Apply(event.value, admission.body.machineVersion);
    ok := error.None?;
  }

  // Nobody else touches the machine in between: the sequential case.
  method ApplyCurrentVerifiedPreflight(machine: StagedChange?, plan: ChangePlan, admission: Admission, evidence: Evidence, policy: Policy, at: int)
    returns (ok: bool)
    modifies machine
    ensures machine == null ==> !ok
    ensures machine != null ==>
      var m := old(machine.Model());
      var event := Attempt(m, m, m, plan, admission, evidence, policy, at);
      && (ok <==> event.Some?)
      && machine.Model() == if ok then Step(m, event.value, admission.body.machineVersion) else m
  {
    hide Decide, Step, EvaluateForPlan, PlanFor, ValidAdmission;
    if machine == null {
      return false;
    }
    var validated := BuildChangePlan(RequestOf(plan));
    if validated.None? || validated.value.planId != plan.planId || validated.value.body.revisionId != plan.body.revisionId {
      return false;
    }
    var snapshot := machine.Snapshot();
    if snapshot.planId != plan.planId || admission.body.planId != plan.planId || admission.body.revisionId != plan.body.revisionId || at == 0 {
      return false;
    }
    if EvidenceIdentity(evidence) != admission.body.evidenceId {
      return false;
    }
    var verdict := EvaluateChangePlanFreshness(at, plan, evidence, policy);
    if verdict.None? || !verdict.value.ready {
      return false;
    }
    var expiry := VerificationExpiry(evidence, policy.maxAge);
    if admission.body.expiresAt != expiry {
      return false;
    }
    ok := ApplyVerifiedPreflight(machine, admission, at);
  }

  // ---- what success means ----

  // preflight_passed is only ever the second event of a history.
  lemma PreflightPassedIsSecond(m: Machine, h: seq<ChangeEvent>, i: nat)
    requires Shape(m, h) && i < |h| && h[i].kind.PreflightPassed?
    ensures i == 1
  {
    hide ProbeIds, ProbesOf;
  }

  // Whatever deliveries land between the reads and the write, a successful
  // attempt means that the supplied plan is the machine's, that every probe
  // of it has a PASS fresh at the instant of use, and that this very event is
  // what took the machine out of preflight.
  lemma SuccessMeansFreshEvidence(plan0: ChangePlan, start: int, a: seq<Delivery>, b: seq<Delivery>, c: seq<Delivery>,
                                  plan: ChangePlan, admission: Admission, e: Evidence, policy: Policy, at: int)
    requires Canonical(plan0)
    requires var m0 := Initial(plan0, start);
      Attempt(Run(m0, a), Run(m0, a + b), Run(m0, a + b + c), plan, admission, e, policy, at).Some?
    ensures plan == plan0 && AllPassFresh(plan0, e, policy.maxAge, at)
    ensures var m0 := Initial(plan0, start);
      var event := Attempt(Run(m0, a), Run(m0, a + b), Run(m0, a + b + c), plan, admission, e, policy, at).value;
      var h := History(m0, a + b + c + [Delivery(event, admission.body.machineVersion)]);
      && Run(m0, a + b).snapshot.state.Preflight?
      && |h| >= 2 && h[1] == event
  {
    hide Canonical, EvaluateForPlan, Decide, Good, Initial, ValidAdmission, EvidenceIdentity;
    var m0 := Initial(plan0, start);
    var event := Attempt(Run(m0, a), Run(m0, a + b), Run(m0, a + b + c), plan, admission, e, policy, at).value;
    AdmittedPlanIsTheMachines(plan0, start, a, plan, admission, e, policy, at);
    ReadyMeansEveryProbePasses(at, plan, e, policy);
    EventIsTheSecond(plan0, start, a + b, c, event, admission.body.machineVersion);
  }

  lemma AdmittedPlanIsTheMachines(plan0: ChangePlan, start: int, a: seq<Delivery>,
                                  plan: ChangePlan, admission: Admission, e: Evidence, policy: Policy, at: int)
    requires Canonical(plan0)
    requires CurrentlyAdmitted(Run(Initial(plan0, start), a).snapshot.planId, plan, admission, e, policy, at)
    ensures plan == plan0
  {
    hide PlanFor, Run, Evaluate, Shape, OnTime, Recorded;
    RunIsGood(plan0, start, a);
    CanonicalImpliesIdentity(plan0);
    CanonicalImpliesIdentity(plan);
  }

  // A machine read in preflight at the expected version, and an event that
  // was then not rejected: it is the second event of the history.
  lemma EventIsTheSecond(plan0: ChangePlan, start: int, ab: seq<Delivery>, c: seq<Delivery>, event: ChangeEvent, version: nat)
    requires Canonical(plan0) && event.kind.PreflightPassed?
    requires var m0 := Initial(plan0, start);
      && Run(m0, ab).snapshot.state.Preflight? && Run(m0, ab).snapshot.version == version
      && !Decide(Run(m0, ab + c), event, version).Rejected?
    ensures var h := History(Initial(plan0, start), ab + c + [Delivery(event, version)]);
      |h| >= 2 && h[1] == event
  {
    hide Canonical, Decide, OnTime, Anchored, PassesUpTo;
    var m0 := Initial(plan0, start);
    var d := Delivery(event, version);
    RunIsGood(plan0, start, ab);
    RunIsGood(plan0, start, ab + c);
    RunAppend(m0, ab, c);
    VersionNeverDrops(Run(m0, ab), c);
    var h3 := History(m0, ab + c);
    assert (ab + c + [d])[..|ab + c|] == ab + c;
    if Decide(Run(m0, ab + c), event, version).Accepted? {
      AcceptedRaisesVersion(Run(m0, ab + c), event, version);
      assert h3 == History(m0, ab);
    } else {
      ReplayedIsProcessed(Run(m0, ab + c), event, version);
      assert event in h3;
      var i :| 0 <= i < |h3| && h3[i] == event;
      PreflightPassedIsSecond(Run(m0, ab + c), h3, i);
    }
  }

  lemma ReplayedIsProcessed(m: Machine, e: ChangeEvent, expected: nat)
    requires !Decide(m, e, expected).Rejected? && !Decide(m, e, expected).Accepted?
    ensures e.id in m.processed && m.processed[e.id] == EventDigest(e)
  {
    hide ValidEvent, Transition, Timely;
  }

  // ---- an admission that was built can be used ----

  // A ready verdict is never already expired, so building from ready
  // evidence always succeeds.
  lemma ReadyAdmissionIsBuilt(now: int, plan: ChangePlan, snapshot: ChangeSnapshot, e: Evidence, policy: Policy)
    requires now != 0 && snapshot.planId == plan.planId && snapshot.state.Preflight? && snapshot.version != 0
    ensures BuildAdmission(now, plan, snapshot, e, policy).Some? <==> EvaluateForPlan(now, plan, e, policy).Some?
  {
    hide EvaluateForPlan, Expiry;
    if EvaluateForPlan(now, plan, e, policy).Some? && EvaluateForPlan(now, plan, e, policy).value.ready {
      ReadyUntilExpiry(now, now, plan, e, policy);
    }
  }

  lemma BuiltAdmissionIsValid(now: int, plan: ChangePlan, snapshot: ChangeSnapshot, e: Evidence, policy: Policy)
    requires BuildAdmission(now, plan, snapshot, e, policy).Some?
    requires Expiry(e, policy.maxAge) != 0
    ensures var a := BuildAdmission(now, plan, snapshot, e, policy).value;
      a.body.ready ==> ValidAdmission(a) && a.admissionId.content == a.body
  {
    hide Canonical, ValidIdentifier, Expiry, Sort, MissingIn, FailedIn, StaleIn;
    SortedEmpty([]);
    CanonicalPlanFacts(plan);
  }

  // Round trip: an admission built in preflight from ready evidence, used
  // within its lifetime and the phase deadline on the unchanged machine, moves
  // it to the apply window.
  lemma BuiltAdmissionAdvances(plan: ChangePlan, start: int, ins: seq<Delivery>, now: int, e: Evidence, policy: Policy, at: int)
    requires Canonical(plan) && Expiry(e, policy.maxAge) != 0
    requires var m := Run(Initial(plan, start), ins);
      && BuildAdmission(now, plan, m.snapshot, e, policy).Some?
      && BuildAdmission(now, plan, m.snapshot, e, policy).value.body.ready
      && at != 0 && now <= at < Expiry(e, policy.maxAge) && m.snapshot.updatedAt <= at <= m.snapshot.deadline
      && OfAdmission(BuildAdmission(now, plan, m.snapshot, e, policy).value.body) !in m.processed
    ensures var m := Run(Initial(plan, start), ins);
      var a := BuildAdmission(now, plan, m.snapshot, e, policy).value;
      var event := Attempt(m, m, m, plan, a, e, policy, at);
      event.Some? && Step(m, event.value, a.body.machineVersion).snapshot.state.ApplyWindow?
  {
    hide Canonical, EvaluateForPlan, Run, ValidAdmission, Expiry, EvidenceIdentity, AdmissionIdentity, Good, PlanFor;
    var m := Run(Initial(plan, start), ins);
    ReadyUntilExpiry(now, at, plan, e, policy);
    BuiltAdmissionIsValid(now, plan, m.snapshot, e, policy);
    CanonicalRebuilds(plan);
  }

  lemma CanonicalRebuilds(plan: ChangePlan)
    requires Canonical(plan)
    ensures Rebuilds(plan)
  {
    hide PlanFor;
  }

  // ---- which evidence an admission stands for ----

  // The same findings, in whatever order.
  ghost predicate SameFindings(e: Evidence, e': Evidence) {
    && e.schemaVersion == e'.schemaVersion && e.planId == e'.planId && e.revisionId == e'.revisionId && e.verifiedAt == e'.verifiedAt
    && multiset(e.checks) == multiset(e'.checks)
  }

  lemma TrimmedChecks(checks: seq<CheckEvidence>)
    requires forall i | 0 <= i < |checks| :: ValidIdentifier(checks[i].name)
    ensures Project(checks, TrimmedCheck) == checks
  {
    hide TrimSpace, IsIdentifier;
    forall i | 0 <= i < |checks| ensures TrimmedCheck(checks[i]) == checks[i] {
      IdentifierTrimmed(checks[i].name, "._-", 128);
    }
  }

  lemma CheckOrder(checks: seq<CheckEvidence>)
    requires Distinct(CheckNames(checks))
    ensures WeakOrder(CheckLess) && Separates(checks, CheckLess)
  {
    hide Less;
    LessIsWeakOrder();
    forall a, b | CheckLess(a, b) ensures !CheckLess(b, a) {
      assert Less(a.name, b.name);
    }
    forall a, b, c | CheckLess(a, b) ensures CheckLess(a, c) || CheckLess(c, b) {
      assert Less(a.name, b.name);
    }
    forall i, j | 0 <= i < |checks| && 0 <= j < |checks| && checks[i] != checks[j]
      ensures CheckLess(checks[i], checks[j]) || CheckLess(checks[j], checks[i])
    {
      assert CheckNames(checks)[i] != CheckNames(checks)[j];
      LessTotal(checks[i].name, checks[j].name);
    }
  }

  lemma EvaluatedChecks(now: int, plan: ChangePlan, e: Evidence, policy: Policy)
    requires EvaluateForPlan(now, plan, e, policy).Some?
    ensures Distinct(CheckNames(e.checks)) && Project(e.checks, TrimmedCheck) == e.checks
  {
    hide Canonical, ValidIdentifier, TrimSpace, VerdictOn, ProbeIds;
    TrimmedChecks(e.checks);
  }

  // Two pieces of accepted evidence have one identity exactly if they hold the
  // same findings.
  lemma EvidenceIdentityExactly(e: Evidence, e': Evidence)
    requires Distinct(CheckNames(e.checks))
    requires Project(e.checks, TrimmedCheck) == e.checks && Project(e'.checks, TrimmedCheck) == e'.checks
    ensures EvidenceIdentity(e) == EvidenceIdentity(e') <==> SameFindings(e, e')
  {
    hide Sort, Distinct, TrimmedCheck, CheckLess;
    CheckOrder(e.checks);
    hide WeakOrder, Separates;
    SortMultiset(e.checks, CheckLess);
    SortMultiset(e'.checks, CheckLess);
    if SameFindings(e, e') {
      SortCanonical(e.checks, e'.checks, CheckLess);
    }
  }

  // An admission is good for its evidence only: a successful attempt comes with
  // the findings it was built from, for the same plan and machine version, at
  // an instant from its evaluation on and before its expiry.
  lemma AdmissionBindsEvidence(now: int, plan0: ChangePlan, snapshot: ChangeSnapshot, e0: Evidence, policy0: Policy, a: Admission,
                               first: Machine, second: Machine, third: Machine, plan: ChangePlan, e: Evidence, policy: Policy, at: int)
    requires BuildAdmission(now, plan0, snapshot, e0, policy0) == Some(a)
    requires Attempt(first, second, third, plan, a, e, policy, at).Some?
    ensures SameFindings(e0, e) && plan.planId == plan0.planId && plan.body.revisionId == plan0.body.revisionId
    ensures a.body.ready && second.snapshot.version == snapshot.version && now <= at < Expiry(e, policy.maxAge)
  {
    hide EvaluateForPlan, Decide, ValidAdmission, Expiry, EvidenceIdentity, AdmissionIdentity, Rebuilds, SameFindings;
    EvaluatedChecks(now, plan0, e0, policy0);
    EvaluatedChecks(at, plan, e, policy);
    EvidenceIdentityExactly(e0, e);
  }
}
