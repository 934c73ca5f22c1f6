// The node lifecycle relation, every run of it, and the drain, replace and
// decommission plans compiled against it.
module Lifecycle {
  import opened Metadata
  import opened Options
  import opened Sorting
  import opened Text

  const MAX_REASON_LENGTH := 512

  datatype State = Discovered | Enrolling | Ready | Degraded | Draining | Maintenance | Updating | Replacing | Removing
                 | Offline | Recovering | Retired | OtherState(name: string)

  datatype TransitionType = Desired | Observation | OtherType(name: string)

  datatype Check = EnrollmentAuthorized | IdentityVerified | ReadinessPassed | MaintenancePreflightPassed | SchedulingDisabled
                 | SchedulingEnabled | DrainComplete | NoActiveJobs | NoActivePlacements | StatefulWorkloadsSafe
                 | OperationApproved | OperationCancelled | RollbackVerified | UpdateVerified | ReplacementNodeReady
                 | StateSynchronized | SwitchoverVerified | ReplacementHealthVerified | RemovalApproved | RemovalVerified
                 | RecoveryStarted | RecoveryVerified | RetirementApproved | NoManagedState | OtherCheck(name: string)

  datatype NodeLifecycle = NodeLifecycle(meta: ObjectMetadata, state: State, stateChangedAt: int, reason: string)

  datatype Request = Request(to: State, kind: TransitionType, reason: string, precondition: Precondition, passed: seq<Check>)

  datatype Rule = Rule(kind: TransitionType, required: seq<Check>)

  const DRAIN_CHECKS := [MaintenancePreflightPassed, SchedulingDisabled, DrainComplete, NoActiveJobs, NoActivePlacements, StatefulWorkloadsSafe]

  // ---- the rule table ----

  function Reports(): Option<Rule> {
    Some(Rule(Observation, []))
  }

  function Observed(required: seq<Check>): Option<Rule> {
    Some(Rule(Observation, required))
  }

  function Wanted(required: seq<Check>): Option<Rule> {
    Some(Rule(Desired, required))
  }

  function RuleFor(source: State, target: State): Option<Rule> {
    match (source, target)
    case (Discovered, Enrolling) => Wanted([EnrollmentAuthorized])
    case (Discovered, Retired) => Wanted([RetirementApproved, NoManagedState])
    case (Enrolling, Ready) => Observed([IdentityVerified, ReadinessPassed])
    case (Enrolling, Degraded) => Reports()
    case (Enrolling, Offline) => Reports()
    case (Enrolling, Retired) => Wanted([RetirementApproved, NoManagedState])
    case (Ready, Degraded) => Reports()
    case (Ready, Draining) => Wanted([MaintenancePreflightPassed, SchedulingDisabled])
    case (Ready, Offline) => Reports()
    case (Degraded, Ready) => Observed([ReadinessPassed])
    case (Degraded, Draining) => Wanted([MaintenancePreflightPassed, SchedulingDisabled])
    case (Degraded, Offline) => Reports()
    case (Degraded, Recovering) => Observed([RecoveryStarted])
    case (Draining, Maintenance) => Observed(DRAIN_CHECKS)
    case (Draining, Ready) => Wanted([OperationCancelled, SchedulingEnabled, ReadinessPassed])
    case (Draining, Degraded) => Reports()
    case (Draining, Offline) => Reports()
    case (Maintenance, Ready) => Wanted([SchedulingEnabled, ReadinessPassed])
    case (Maintenance, Updating) => Wanted([OperationApproved, MaintenancePreflightPassed])
    case (Maintenance, Replacing) => Wanted([OperationApproved, ReplacementNodeReady, StateSynchronized])
    case (Maintenance, Removing) => Wanted([OperationApproved, RemovalApproved] + DRAIN_CHECKS)
    case (Maintenance, Degraded) => Reports()
    case (Maintenance, Offline) => Reports()
    case (Updating, Ready) => Observed([UpdateVerified, SchedulingEnabled, ReadinessPassed])
    case (Updating, Maintenance) => Observed([UpdateVerified])
    case (Updating, Degraded) => Reports()
    case (Updating, Offline) => Reports()
    case (Replacing, Retired) => Observed([ReplacementNodeReady, StateSynchronized, SwitchoverVerified, ReplacementHealthVerified])
    case (Replacing, Maintenance) => Wanted([OperationCancelled, RollbackVerified])
    case (Replacing, Degraded) => Reports()
    case (Replacing, Offline) => Reports()
    case (Removing, Retired) => Observed([RemovalVerified, RetirementApproved])
    case (Removing, Maintenance) => Wanted([OperationCancelled, RollbackVerified])
    case (Removing, Degraded) => Reports()
    case (Removing, Offline) => Reports()
    case (Offline, Recovering) => Observed([IdentityVerified, RecoveryStarted])
    case (Offline, Retired) => Wanted([RetirementApproved, NoManagedState, StatefulWorkloadsSafe])
    case (Recovering, Ready) => Observed([RecoveryVerified, ReadinessPassed])
    case (Recovering, Degraded) => Reports()
    case (Recovering, Offline) => Reports()
    case (Recovering, Draining) => Wanted([MaintenancePreflightPassed, SchedulingDisabled])
    case _ => None
  }

  // ---- validation of one object and one transition ----

  // The states that must give a reason; every other one must have cleared it.
  predicate NeedsReason(state: State) {
    state in {Degraded, Offline, Recovering, Retired}
  }

  predicate ReasonOk(state: State, reason: string) {
    && TrimSpace(reason) == reason && |reason| <= MAX_REASON_LENGTH
    && (forall i | 0 <= i < |reason| :: !IsControl(reason[i]))
    && (NeedsReason(state) <==> reason != "")
  }

  predicate NodeOk(n: NodeLifecycle) {
    && MetadataOk(n.meta) && !n.state.OtherState? && n.stateChangedAt != 0
    && n.meta.createdAt <= n.stateChangedAt <= n.meta.updatedAt && ReasonOk(n.state, n.reason)
  }

  predicate InitialOk(n: NodeLifecycle) {
    && NodeOk(n) && n.state == Discovered && n.meta.generation == 1
    && n.meta.createdAt == n.meta.updatedAt == n.stateChangedAt
  }

  // Known checks only, no check twice, and every required one among them.
  ghost predicate EvidenceOk(passed: seq<Check>, required: seq<Check>) {
    && (forall c | c in passed :: !c.OtherCheck?) && Distinct(passed)
    && (forall c | c in required :: c in passed)
  }

  method ValidateEvidence(passed: seq<Check>, required: seq<Check>) returns (ok: bool)
    ensures ok <==> EvidenceOk(passed, required)
  {
    var seen: set<Check> := {};
    for n := 0 to |passed|
      invariant forall i | 0 <= i < n :: !passed[i].OtherCheck?
      invariant Distinct(passed[..n]) && seen == Elements(passed[..n])
    {
      SeenStep(passed, n);
      if passed[n].OtherCheck? || passed[n] in seen {
        return false;
      }
      seen := seen + {passed[n]};
    }
    assert passed[..|passed|] == passed;
    for n := 0 to |required|
      invariant forall i | 0 <= i < n :: required[i] in passed
    {
      if required[n] !in seen {
        return false;
      }
    }
    return true;
  }

  ghost predicate TransitionOk(current: NodeLifecycle, next: NodeLifecycle, r: Request) {
    var rule := RuleFor(current.state, next.state);
    && NodeOk(current) && NodeOk(next)
    && r.to == next.state && r.reason == next.reason && Guards(r.precondition, current.meta)
    && rule.Some? && r.kind == rule.value.kind
    && current.meta.scopeId == next.meta.scopeId && current.meta.ownerScope == next.meta.ownerScope
    && next.stateChangedAt == next.meta.updatedAt && current.stateChangedAt < next.stateChangedAt
    && EvidenceOk(r.passed, rule.value.required)
    && Succeeds(current.meta, next.meta, r.kind == Desired)
  }

  method ValidateTransition(current: NodeLifecycle, next: NodeLifecycle, r: Request) returns (ok: bool)
    ensures ok <==> TransitionOk(current, next, r)
  {
    hide NodeOk, Guards, RuleFor, EvidenceOk, Succeeds;
    RulesAreTyped(current.state, next.state);
    if !NodeOk(current) || !NodeOk(next) {
      return false;
    }
    if r.to.OtherState? || r.kind.OtherType? || r.to != next.state || r.reason != next.reason || !Guards(r.precondition, current.meta) {
      NodeStateKnown(next);
      return false;
    }
    var rule := RuleFor(current.state, next.state);
    if rule.None? || r.kind != rule.value.kind {
      return false;
    }
    if current.meta.scopeId != next.meta.scopeId || current.meta.ownerScope != next.meta.ownerScope
       || next.stateChangedAt != next.meta.updatedAt || next.stateChangedAt <= current.stateChangedAt {
      return false;
    }
    var evidence := ValidateEvidence(r.passed, rule.value.required);
    return evidence && Succeeds(current.meta, next.meta, r.kind == Desired);
  }

  lemma RulesAreTyped(source: State, target: State)
    ensures RuleFor(source, target).Some? ==> RuleFor(source, target).value.kind in {Desired, Observation}
  {
  }

  lemma NodeStateKnown(n: NodeLifecycle)
    requires NodeOk(n)
    ensures !n.state.OtherState?
  {
  }

  // ---- runs ----

  ghost predicate Run(trace: seq<NodeLifecycle>, requests: seq<Request>) {
    && |trace| == |requests| + 1 && InitialOk(trace[0])
    && forall i | 0 <= i < |requests| :: TransitionOk(trace[i], trace[i + 1], requests[i])
  }

  predicate Drained(s: State) {
    s in {Maintenance, Updating, Replacing, Removing}
  }

  // The step at `entry` is a checked drain, and the node has stayed in the
  // drained states from there to `n`.
  ghost predicate DrainedSince(trace: seq<NodeLifecycle>, requests: seq<Request>, entry: nat, n: nat)
    requires n <= |requests| && |trace| == |requests| + 1
  {
    && entry < n && trace[entry].state == Draining && trace[entry + 1].state == Maintenance
    && (forall c | c in DRAIN_CHECKS :: c in requests[entry].passed)
    && forall k | entry < k <= n :: Drained(trace[k].state)
  }

  // Only draining leads into the drained states, and only with every check.
  lemma DrainGate(source: State, target: State)
    requires RuleFor(source, target).Some? && Drained(target) && !Drained(source)
    ensures source == Draining && target == Maintenance && RuleFor(source, target).value.required == DRAIN_CHECKS
  {
  }

  // A node in maintenance, updating, replacing or removing last entered that
  // group by a complete drain.
  lemma {:induction false} NoMaintenanceWithoutDrain(trace: seq<NodeLifecycle>, requests: seq<Request>, n: nat) returns (entry: nat)
    requires Run(trace, requests) && n <= |requests| && Drained(trace[n].state)
    ensures DrainedSince(trace, requests, entry, n)
  {
    hide RuleFor, NodeOk, Guards, Succeeds, Distinct;
    assert n > 0;
    assert TransitionOk(trace[n - 1], trace[n], requests[n - 1]);
    if Drained(trace[n - 1].state) {
      entry := NoMaintenanceWithoutDrain(trace, requests, n - 1);
    } else {
      DrainGate(trace[n - 1].state, trace[n].state);
      entry := n - 1;
    }
  }

  function DesiredCount(requests: seq<Request>): nat {
    if requests == [] then 0 else DesiredCount(requests[..|requests| - 1]) + if requests[|requests| - 1].kind == Desired then 1 else 0
  }

  // Generation counts intent; identity and ownership never change; the clock
  // of state changes only goes forward.
  lemma {:induction false} RunFacts(trace: seq<NodeLifecycle>, requests: seq<Request>, n: nat)
    requires Run(trace, requests) && n <= |requests|
    ensures trace[n].meta.generation == 1 + DesiredCount(requests[..n])
    ensures trace[n].meta.objectId == trace[0].meta.objectId && trace[n].meta.scopeId == trace[0].meta.scopeId
    ensures trace[n].meta.ownerScope == trace[0].meta.ownerScope && trace[n].meta.createdAt == trace[0].meta.createdAt
    ensures trace[n].stateChangedAt == trace[n].meta.updatedAt >= trace[0].meta.createdAt + n
  {
    hide RuleFor, ReasonOk, Guards, EvidenceOk, MetadataOk;
    if n > 0 {
      RunFacts(trace, requests, n - 1);
      assert TransitionOk(trace[n - 1], trace[n], requests[n - 1]);
      assert requests[..n][..n - 1] == requests[..n - 1];
    }
  }

  // In every run the node carries a reason exactly while it is degraded,
  // offline, recovering or retired, and it is the one the last request gave.
  lemma ReasonFollowsState(trace: seq<NodeLifecycle>, requests: seq<Request>, n: nat)
    requires Run(trace, requests) && n <= |requests|
    ensures trace[n].reason != "" <==> NeedsReason(trace[n].state)
    ensures n > 0 ==> requests[n - 1].reason == trace[n].reason
    ensures n > 0 && requests[n - 1].reason != "" ==> requests[n - 1].kind == Observation || trace[n].state == Retired
  {
    hide MetadataOk, Guards, Succeeds, EvidenceOk, TrimSpace;
    if n > 0 {
      assert TransitionOk(trace[n - 1], trace[n], requests[n - 1]);
    }
  }

  lemma RetiredHasNoSuccessor(current: NodeLifecycle, next: NodeLifecycle, r: Request)
    requires current.state == Retired
    ensures !TransitionOk(current, next, r)
  {
    hide NodeOk, Guards, EvidenceOk, Succeeds;
  }

  // Nothing follows retirement.
  lemma RetiredIsFinal(trace: seq<NodeLifecycle>, requests: seq<Request>, n: nat)
    requires Run(trace, requests) && n < |trace| && trace[n].state == Retired
    ensures n == |requests|
  {
    hide TransitionOk, InitialOk;
    if n < |requests| {
      RetiredHasNoSuccessor(trace[n], trace[n + 1], requests[n]);
    }
  }

  // A node that was drained retires only through a verified switchover or a
  // verified removal, unless it first left the drained states.
  lemma RetiredFromDrained(trace: seq<NodeLifecycle>, requests: seq<Request>, n: nat) returns (entry: nat)
    requires Run(trace, requests) && n < |requests| && trace[n + 1].state == Retired && Drained(trace[n].state)
    ensures DrainedSince(trace, requests, entry, n)
    ensures || (SwitchoverVerified in requests[n].passed && ReplacementHealthVerified in requests[n].passed)
            || (RemovalVerified in requests[n].passed && RetirementApproved in requests[n].passed)
  {
    hide NodeOk, Guards, Succeeds, Distinct;
    entry := NoMaintenanceWithoutDrain(trace, requests, n);
    assert TransitionOk(trace[n], trace[n + 1], requests[n]);
    var rule := RuleFor(trace[n].state, Retired).value;
    if trace[n].state == Replacing {
      assert rule.required[2] in rule.required && rule.required[3] in rule.required;
    } else {
      assert rule.required[0] in rule.required && rule.required[1] in rule.required;
    }
  }

  // ---- plans ----

  datatype Operation = Drain | Replace | OtherOperation(name: string)

  datatype Workload = Stateless | Stateful | OtherWorkload(name: string)

  datatype Placement = Placement(workloadId: string, kind: Workload, migrationAdapter: string, healthyReplicasOutside: int)

  datatype PlanRequest = PlanRequest(kind: Operation, replacementNodeId: string, placements: seq<Placement>)

  // A step names its action; the lifecycle actions name the state they enter.
  datatype Action = SchedulerDisable | PlacementsEvacuate | ReplacementVerifyReady | StateSynchronize | PlacementsSwitchover
                  | ReplacementVerifyHealth | RemovalVerifyApproved | RemovalVerifyDrained | RemovalVerifyComplete | Enter(state: State)

  datatype Step = Step(order: nat, action: Action, required: seq<Check>)

  // The plan identity is a digest of everything the plan was derived from.
  datatype PlanId = PlanId(
    kind: Operation, nodeId: string, scopeId: string, ownerScope: string, generation: uint64, resourceVersion: string,
    replacementNodeId: string, placements: seq<Placement>)

  datatype Plan = Plan(id: PlanId, kind: Operation, nodeId: string, replacementNodeId: string, steps: seq<Step>)

  predicate ValidName(s: string) {
    IsIdentifier(s, "._:-", 128)
  }

  predicate PlacementOk(p: Placement) {
    && ValidName(p.workloadId)
    && (match p.kind
        case Stateless => p.migrationAdapter == "" && p.healthyReplicasOutside >= 0
        case Stateful => ValidName(p.migrationAdapter) && p.healthyReplicasOutside >= 1
        case OtherWorkload(_) => false)
  }

  function WorkloadOf(p: Placement): string {
    p.workloadId
  }

  ghost predicate PlacementsOk(s: seq<Placement>) {
    (forall i | 0 <= i < |s| :: PlacementOk(s[i])) && Distinct(Project(s, WorkloadOf))
  }

  method ValidatePlacements(s: seq<Placement>) returns (ok: bool)
    ensures ok <==> PlacementsOk(s)
  {
    hide PlacementOk;
    var seen: set<string> := {};
    ghost var ids := Project(s, WorkloadOf);
    assert Distinct(ids[..0]);
    hide Distinct;
    for n := 0 to |s|
      invariant forall i | 0 <= i < n :: PlacementOk(s[i])
      invariant Distinct(ids[..n]) && seen == Elements(ids[..n])
    {
      SeenStep(ids, n);
      if s[n].workloadId in seen || !PlacementOk(s[n]) {
        return false;
      }
      seen := seen + {s[n].workloadId};
    }
    assert ids[..|s|] == ids;
    return true;
  }

  predicate WorkloadLess(a: Placement, b: Placement) {
    Less(a.workloadId, b.workloadId)
  }

  const DRAIN_STEPS := [
    Step(1, SchedulerDisable, [MaintenancePreflightPassed]),
    Step(2, Enter(Draining), [MaintenancePreflightPassed, SchedulingDisabled]),
    Step(3, PlacementsEvacuate, [SchedulingDisabled, StatefulWorkloadsSafe]),
    Step(4, Enter(Maintenance), DRAIN_CHECKS)]

  const REPLACE_STEPS := [
    Step(1, ReplacementVerifyReady, [OperationApproved]),
    Step(2, StateSynchronize, [ReplacementNodeReady]),
    Step(3, Enter(Replacing), [OperationApproved, ReplacementNodeReady, StateSynchronized]),
    Step(4, PlacementsSwitchover, [ReplacementNodeReady, StateSynchronized, StatefulWorkloadsSafe]),
    Step(5, ReplacementVerifyHealth, [SwitchoverVerified]),
    Step(6, Enter(Retired), [ReplacementNodeReady, StateSynchronized, SwitchoverVerified, ReplacementHealthVerified])]

  const DECOMMISSION_STEPS := [
    Step(1, RemovalVerifyApproved, [OperationApproved, RemovalApproved]),
    Step(2, RemovalVerifyDrained, DRAIN_CHECKS),
    Step(3, Enter(Removing), [OperationApproved, RemovalApproved] + DRAIN_CHECKS),
    Step(4, RemovalVerifyComplete, [RemovalVerified]),
    Step(5, Enter(Retired), [RemovalVerified, RetirementApproved])]

  ghost predicate Plannable(current: NodeLifecycle, r: PlanRequest) {
    && NodeOk(current) && PlacementsOk(r.placements)
    && match r.kind
       case Drain => current.state in {Ready, Degraded} && TrimSpace(r.replacementNodeId) == ""
       case Replace =>
         && current.state == Maintenance && ValidName(TrimSpace(r.replacementNodeId))
         && TrimSpace(r.replacementNodeId) != current.meta.objectId
       case OtherOperation(_) => false
  }

  method BuildOperationPlan(current: NodeLifecycle, r: PlanRequest) returns (plan: Option<Plan>)
    ensures plan.Some? <==> Plannable(current, r)
    ensures plan.Some? ==>
      && plan.value.steps == (if r.kind == Drain then DRAIN_STEPS else REPLACE_STEPS)
      && plan.value.id == PlanIdFor(current, r) && plan.value.nodeId == current.meta.objectId
      && plan.value.kind == r.kind && plan.value.replacementNodeId == Replacement(r)
      && PlanPath(current.state, plan.value.steps) == Some(if r.kind == Drain then Maintenance else Retired)
  {
    hide NodeOk, PlacementsOk, ValidName, TrimSpace, Sort, PlanPath;
    if !NodeOk(current) {
      return None;
    }
    var placed := ValidatePlacements(r.placements);
    if !placed {
      return None;
    }
    var steps: seq<Step>;
    match r.kind {
      case Drain =>
        if (current.state != Ready && current.state != Degraded) || TrimSpace(r.replacementNodeId) != "" {
          return None;
        }
        DrainPath(current.state);
        steps := DRAIN_STEPS;
      case Replace =>
        if current.state != Maintenance || !ValidName(TrimSpace(r.replacementNodeId))
           || TrimSpace(r.replacementNodeId) == current.meta.objectId {
          return None;
        }
        ReplacePath();
        steps := REPLACE_STEPS;
      case OtherOperation(_) =>
        return None;
    }
    plan := Some(Plan(PlanIdFor(current, r), r.kind, current.meta.objectId, Replacement(r), steps));
  }

  function Replacement(r: PlanRequest): string {
    if r.kind == Replace then TrimSpace(r.replacementNodeId) else r.replacementNodeId
  }

  function PlanIdFor(current: NodeLifecycle, r: PlanRequest): PlanId {
    PlanId(r.kind, current.meta.objectId, current.meta.scopeId, current.meta.ownerScope, current.meta.generation,
           current.meta.resourceVersion, Replacement(r), Sort(r.placements, WorkloadLess))
  }

  // The plan does not depend on the order the placements arrive in.
  lemma PlanOrderFree(current: NodeLifecycle, r: PlanRequest, placements: seq<Placement>)
    requires Plannable(current, r) && multiset(placements) == multiset(r.placements)
    ensures PlanIdFor(current, r.(placements := placements)) == PlanIdFor(current, r)
  {
    hide NodeOk, PlacementOk, Sort, Less, TrimSpace;
    var s := r.placements;
    WorkloadLessIsWeak();
    forall i, j | 0 <= i < |s| && 0 <= j < |s| && s[i] != s[j] ensures WorkloadLess(s[i], s[j]) || WorkloadLess(s[j], s[i]) {
      var ids := Project(s, WorkloadOf);
      assert ids[i] != ids[j];
      LessTotal(ids[i], ids[j]);
    }
    SortCanonical(s, placements, WorkloadLess);
  }

  lemma WorkloadLessIsWeak()
    ensures WeakOrder(WorkloadLess)
  {
    hide Less;
    LessIsWeakOrder();
  }

  // Follow the lifecycle steps of a plan: each must be an edge of the rule
  // table that demands exactly the checks the step lists.
  ghost function PlanPath(source: State, steps: seq<Step>): Option<State>
    decreases |steps|
  {
    if steps == [] then Some(source)
    else if !steps[0].action.Enter? then PlanPath(source, steps[1..])
    else
      var rule := RuleFor(source, steps[0].action.state);
      if rule.Some? && rule.value.required == steps[0].required then PlanPath(steps[0].action.state, steps[1..]) else None
  }

  lemma StepOther(source: State, steps: seq<Step>, n: nat)
    requires n < |steps| && !steps[n].action.Enter?
    ensures PlanPath(source, steps[n..]) == PlanPath(source, steps[n + 1..])
  {
    assert steps[n..][1..] == steps[n + 1..];
  }

  lemma StepEnter(source: State, steps: seq<Step>, n: nat)
    requires n < |steps| && steps[n].action.Enter?
    requires RuleFor(source, steps[n].action.state).Some? && RuleFor(source, steps[n].action.state).value.required == steps[n].required
    ensures PlanPath(source, steps[n..]) == PlanPath(steps[n].action.state, steps[n + 1..])
  {
    assert steps[n..][1..] == steps[n + 1..];
  }

  lemma DrainPath(source: State)
    requires source == Ready || source == Degraded
    ensures PlanPath(source, DRAIN_STEPS) == Some(Maintenance)
  {
    hide PlanPath;
    StepOther(source, DRAIN_STEPS, 0);
    StepEnter(source, DRAIN_STEPS, 1);
    StepOther(Draining, DRAIN_STEPS, 2);
    StepEnter(Draining, DRAIN_STEPS, 3);
    PathEnd(Maintenance, DRAIN_STEPS);
    assert DRAIN_STEPS[0..] == DRAIN_STEPS;
  }

  lemma ReplacePath()
    ensures PlanPath(Maintenance, REPLACE_STEPS) == Some(Retired)
  {
    hide PlanPath;
    StepOther(Maintenance, REPLACE_STEPS, 0);
    StepOther(Maintenance, REPLACE_STEPS, 1);
    StepEnter(Maintenance, REPLACE_STEPS, 2);
    StepOther(Replacing, REPLACE_STEPS, 3);
    StepOther(Replacing, REPLACE_STEPS, 4);
    StepEnter(Replacing, REPLACE_STEPS, 5);
    PathEnd(Retired, REPLACE_STEPS);
    assert REPLACE_STEPS[0..] == REPLACE_STEPS;
  }

  lemma DecommissionPath()
    ensures PlanPath(Maintenance, DECOMMISSION_STEPS) == Some(Retired)
  {
    hide PlanPath;
    StepOther(Maintenance, DECOMMISSION_STEPS, 0);
    StepOther(Maintenance, DECOMMISSION_STEPS, 1);
    StepEnter(Maintenance, DECOMMISSION_STEPS, 2);
    StepOther(Removing, DECOMMISSION_STEPS, 3);
    StepEnter(Removing, DECOMMISSION_STEPS, 4);
    PathEnd(Retired, DECOMMISSION_STEPS);
    assert DECOMMISSION_STEPS[0..] == DECOMMISSION_STEPS;
  }

  lemma PathEnd(s: State, steps: seq<Step>)
    ensures PlanPath(s, steps[|steps|..]) == Some(s)
  {
  }

  // ---- plans can be carried out ----

  // The successor and request an executor submits for one lifecycle step.
  function NextNode(n: NodeLifecycle, to: State, kind: TransitionType, reason: string, now: int, version: string): NodeLifecycle {
    NodeLifecycle(
      n.meta.(generation := (if kind == Desired then Increment(n.meta.generation) else n.meta.generation),
              resourceVersion := version, updatedAt := now), to, now, reason)
  }

  function StepRequest(n: NodeLifecycle, to: State, kind: TransitionType, reason: string, passed: seq<Check>): Request {
    Request(to, kind, reason, Precondition(n.meta.objectId, n.meta.resourceVersion, None), passed)
  }

  // An edge of the table is taken by submitting its own checks, whatever the
  // node, as long as versions, time and generation allow a successor.
  lemma EdgeCanBeTaken(n: NodeLifecycle, to: State, reason: string, now: int, version: string)
    requires NodeOk(n) && RuleFor(n.state, to).Some?
    requires ReasonOk(to, reason) && n.meta.updatedAt < now && now != 0 && ValidToken(version) && version != n.meta.resourceVersion
    requires RuleFor(n.state, to).value.kind == Desired ==> n.meta.generation != MAX_UINT64
    ensures var rule := RuleFor(n.state, to).value;
      TransitionOk(n, NextNode(n, to, rule.kind, reason, now, version), StepRequest(n, to, rule.kind, reason, rule.required))
  {
    var rule := RuleFor(n.state, to).value;
    RequiredChecksOk(n.state, to);
    RulesAreKnown(n.state, to);
    RulesAreTyped(n.state, to);
    hide RuleFor, ReasonOk, ValidToken, ValidIdentifier;
  }

  lemma RulesAreKnown(source: State, target: State)
    requires RuleFor(source, target).Some?
    ensures !target.OtherState?
  {
  }

  // No rule asks for a check twice or for an unknown one.
  lemma RequiredChecksOk(source: State, target: State)
    requires RuleFor(source, target).Some?
    ensures EvidenceOk(RuleFor(source, target).value.required, RuleFor(source, target).value.required)
  {
    var s := RuleFor(source, target).value.required;
    hide EvidenceOk;
    if |s| == 0 {
      NoChecks(s);
    } else if |s| <= 4 {
      FewChecks(s);
    } else {
      DrainChecksOk();
    }
  }

  lemma NoChecks(s: seq<Check>)
    requires s == []
    ensures EvidenceOk(s, s)
  {
  }

  lemma FewChecks(s: seq<Check>)
    requires 1 <= |s| <= 4 && !s[0].OtherCheck?
    requires |s| > 1 ==> !s[1].OtherCheck? && s[0] != s[1]
    requires |s| > 2 ==> !s[2].OtherCheck? && s[0] != s[2] && s[1] != s[2]
    requires |s| > 3 ==> !s[3].OtherCheck? && s[0] != s[3] && s[1] != s[3] && s[2] != s[3]
    ensures EvidenceOk(s, s)
  {
  }

  lemma DrainChecksOk()
    ensures EvidenceOk(DRAIN_CHECKS, DRAIN_CHECKS)
    ensures EvidenceOk([OperationApproved, RemovalApproved] + DRAIN_CHECKS, [OperationApproved, RemovalApproved] + DRAIN_CHECKS)
  {
  }
}
