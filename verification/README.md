# Control Center: a verified model of its distributed core

This project models, in Dafny 4.11, the side-effect-free contracts at the heart
of Control Center and proves what they promise over every input and every run.

* **Staged network change** (`ChangePlan.dfy`, `ChangeMachine.dfy`,
  `ChangeRuns.dfy`, `ChangeTimes.dfy`, `CommitRuns.dfy`, `PlanSafety.dfy`,
  `Freshness.dfy`, `Preflight.dfy`):
  canonical change plans, the machine that captures, checks, applies, probes and
  commits or rolls back, the freshness of verification evidence, and the
  preflight admission that ties the two together, also when other events land in
  between.
* **Distributed object store** (`Metadata.dfy`, `Topology.dfy`, `Roles.dfy`,
  `Network.dfy`, `Objects.dfy`, `Mutations.dfy`, `Repository.dfy`,
  `VersionReuse.dfy`, `Bootstrap.dfy`, `RoleDocuments.dfy`): scope trees, role
  assignments, network records, validation of whole snapshots, compare-and-swap
  mutations and the in-memory repository with idempotency receipts.
* **Node lifecycle** (`Lifecycle.dfy`): the transition table, all its runs, and
  the drain, replace and decommission plans read against it.
* **Algorithms**: module install order (`InstallOrder.dfy`,
  `InstallUnfolding.dfy`), incident paging (`IncidentQuery.dfy`,
  `IncidentPages.dfy`), inventory reconciliation (`Inventory.dfy`), semantic
  version comparison (`Versions.dfy`), the load harness (`LoadHarness.dfy`),
  growth forecast and capacity assessment (`Forecast.dfy`, `Planner.dfy`,
  `Verdicts.dfy`), and network telemetry aggregation (`Telemetry.dfy`).
* `Text.dfy`, `Sorting.dfy`, `Indexing.dfy`, `Arithmetic.dfy` and `Options.dfy`
  hold what these share: strings in byte order, stable sorting and its
  uniqueness, maps built from lists, division and multiplication facts.

Code that updates state in loops or objects is modelled by methods and classes
and proved against specification functions and predicates; the laws are lemmas
about those. `None` stands for a returned error; which error is kept apart only
where a law needs it. Where iteration over a Go map decides an order, the method
takes an arbitrary order and its result is proved not to depend on it.

Conventions. Time is an integer number of nanoseconds from the zero time.
A SHA-256 digest of canonical content is a constructor applied to that content,
so equal digests mean equal content. Strings are concrete: trimming, identifier
patterns, byte length and byte order are spelled out. Unsigned 64-bit
generations wrap as in Go, and the model shows the wrap is never stored.
Floating point is `real`, with the tolerance of the code kept where it decides a
branch. A mutex section is one atomic step.

Where a comparison passed to a sort need not be transitive, the sort is a
parameter: it rearranges, and puts in order whatever the comparison orders
consistently. Results are stated for every such sort.

Four findings, each with an input at which a natural claim fails and the exact
condition under which it holds:

* A version generator that never repeats a token can still lose an update if it
  returns a version an object had initially (`ReusedVersionLosesUpdate`). The
  exact condition is that no committed token reissues an earlier version of its
  object (`NoLostUpdates`, `ReissuedVersionLosesUpdate`).
* A role document that reads the same but is a different JSON value can never be
  stored over the old one (`RespelledRoleIsRefused`, from the bootstrap store on).
  A role replacement that meets every other rule is admitted exactly if the
  store and the role rule agree on whether it changed anything
  (`RoleReplacementExactly`, `RespelledRoleExactly`).
* Capacities closer than the tolerance can hide the worst failure from the
  safe-capacity figure (`CloseCapacitiesHideTheWorstCase`). It is the worst case
  exactly if no such pair of nodes is split between removed and kept, or no
  failure is reserved for (`AssessedWorstCaseExactly`,
  `WorstCaseWhateverTheSort`).
* A node whose confidence level is spelled "LOW" passes validation, but its weak
  score does not bring the advice to collect evidence
  (`LoudLevelHidesWeakEvidence`). It does exactly if the weakest eligible node's
  level is spelled "low" (`WeakEvidenceExactly`).

## Model

| member | source | states |
|---|---|---|
| ChangePlan.BuildCanonicalInterfaces | internal/networkpolicy/change_plan.go:198-229 | The scan with its index returns the interfaces normalised and sorted exactly if there are 1 to the maximum, all well formed and distinct, and at least one changes; the index finds each by identity. |
| ChangePlan.BuildCanonicalForwarding | internal/networkpolicy/change_plan.go:231-266 | Forwarding intents are accepted exactly if authorised, between declared zones, without a repeated pair and within the maximum; the result is their canonical order. |
| ChangePlan.BuildCanonicalProbes | internal/networkpolicy/change_plan.go:268-301 | Probes are accepted exactly if well formed, bound to a declared interface and its zone, and distinct; the result is sorted by identity. |
| ChangePlan.ValidateProbeCoverage | internal/networkpolicy/change_plan.go:303-321 | The scan succeeds exactly if every changed interface has a probe and a control-plane probe sits on MANAGEMENT or LAN. |
| ChangePlan.BuildChangePlan | internal/networkpolicy/change_plan.go:145-196 | Building a plan returns the specification plan: canonical sections under a digest of the whole body, or an error. |
| ChangePlan.PlanOrderFree | internal/networkpolicy/change_plan.go:145-196 | Permuting interfaces, forwarding rules and probes of a request leaves the plan, including its digest identity, unchanged. |
| ChangePlan.BuiltPlanIsCanonical | internal/networkpolicy/change_plan.go:145-196 | A built plan is a fixed point: rebuilding it from its own content gives the same plan. |
| ChangePlan.CanonicalPlanFacts | internal/networkpolicy/change_plan.go:145-196 | A canonical plan is identified by the digest of its body and has valid timeouts and 1 to 128 probes with strictly ascending, hence unique, identities. |
| PlanSafety.BuiltPlanCarriesRequest | internal/networkpolicy/change_plan.go:145-301 | A plan holds the request's own node, revision, timeouts and records, trimmed and with zones in upper case, as many as given, each section strictly ascending by identity, with forwarding denied by default. |
| PlanSafety.BuiltPlanIsSafe | internal/networkpolicy/change_plan.go:231-321 | In every built plan nothing is forwarded between zones without interfaces on both sides and an explicit opt-in, nor through WAN without an edge gateway; something changes, every changed interface has a probe in its own zone, every probe sits on an interface of the plan, and the control plane is probed over MANAGEMENT or LAN. |
| ChangeMachine.NewChangeMachine | internal/networkpolicy/change_machine.go:82-103 | A machine is created exactly for a canonical plan and a set time, in the initial state with the snapshot deadline. |
| ChangeMachine.StagedChange.constructor | internal/networkpolicy/change_machine.go:93-102 | The object starts as the model's initial machine. |
| ChangeMachine.StagedChange.Snapshot | internal/networkpolicy/change_machine.go:105-109 | The copy handed out is the model's snapshot with the passed probes listed; what it lists over every run is PublishedPasses. |
| ChangeMachine.StagedChange.EnterState | internal/networkpolicy/change_machine.go:227-235 | Entering a state sets state, deadline and reason as specified and touches nothing else. |
| ChangeMachine.StagedChange.ApplyTransition | internal/networkpolicy/change_machine.go:154-225 | The branching in place agrees with the transition relation, including which probes have passed; an invalid event changes nothing. What the relation allows and sets over every run is NextEventExactly and RunKeepsTime. |
| ChangeMachine.StagedChange.Apply | internal/networkpolicy/change_machine.go:114-152 | Apply equals the step function: replay, conflict, stale version and invalid event are told apart, and every rejected event leaves the machine as it was. |
| ChangeRuns.RunIsGood | internal/networkpolicy/change_machine.go:114-235 | Invariant of every run: version, receipts, deadlines, anchored snapshot and the shape of the accepted events per state. |
| ChangeRuns.CommitExactlyWhenComplete | internal/networkpolicy/change_machine.go:154-225 | In every run Committed holds exactly if the accepted events are snapshot, preflight, apply and a pass for every probe of the plan; the commit comes no later than start plus snapshot, preflight and apply windows. |
| ChangeRuns.FailureAfterApplyRollsBack | internal/networkpolicy/change_machine.go:154-225 | After a temporary apply, a run that ends in RolledBack or FailedClosed went through RollbackPending. |
| ChangeRuns.RunWindsDown | internal/networkpolicy/change_machine.go:135-235 | A run accepts at most probes + 4 events, and outside terminal states the last update is not past the deadline. |
| ChangeRuns.TwoTimeoutsSuffice | internal/networkpolicy/change_machine.go:154-235 | From any reachable state at most two fresh phase timeouts reach a terminal state. |
| ChangeRuns.RecognisedAgain | internal/networkpolicy/change_machine.go:118-127 | An accepted event is recognised under any expected version later in the run and changes nothing; the same identity with other content is a conflict. |
| ChangeRuns.RedeliveryChangesNothing | internal/networkpolicy/change_machine.go:118-151 | Inserting any number of repeats of accepted events anywhere in a run leaves final state and history unchanged. |
| ChangeRuns.VersionCountsEvents | internal/networkpolicy/change_machine.go:135-151 | Version is one plus the number of processed events. |
| ChangeRuns.VersionNeverDrops | internal/networkpolicy/change_machine.go:135-151 | Version never decreases, and a run that keeps it accepted nothing and changed nothing. |
| ChangeRuns.NoSharedVersion | internal/networkpolicy/change_machine.go:128-151 | Two accepted events of one run never carried the same expected version: the later one expected more. |
| ChangeTimes.RunKeepsTime | internal/networkpolicy/change_machine.go:114-235 | In every run, read off the accepted events: the last update is the last event's time; each phase ends its own timeout after the event that began it, probing at the earlier of temporary apply plus probe timeout and preflight plus apply window; a failed run gives the deciding event's reason or the fixed one of its phase; the passed probes are those of the accepted passes. |
| ChangeTimes.NextEventExactly | internal/networkpolicy/change_machine.go:118-225 | In every run a new valid event that expects the current version takes effect exactly if its phase awaits that kind (a probe of the plan, not passed before), no earlier than the last event and no later than the phase's end, or it is a timeout at or after that end; otherwise it is an invalid transition, and with another expected version a version conflict. |
| ChangeTimes.ProbeWindow | internal/networkpolicy/change_machine.go:178-209 | In every run that is probing, a fresh timeout once the probe timeout or the apply window is over moves to RollbackPending with a full rollback window; after either, no other event changes anything. |
| ChangeTimes.CommittedInTime | internal/networkpolicy/change_machine.go:178-202 | A committed run ended within the probe timeout of its temporary apply and within the apply window of its preflight. |
| ChangeTimes.PublishedPasses | internal/networkpolicy/change_machine.go:246-255 | In every run the published snapshot lists exactly the probes of the accepted passes, each once, in the order of the plan. |
| CommitRuns.SmallPlanIsBuilt | internal/networkpolicy/change_plan.go:145-196 | For any identifiers and valid timeouts, one changed LAN interface with a control-plane probe makes a plan, and it is canonical. |
| CommitRuns.EveryPlanCanCommit | internal/networkpolicy/change_machine.go:114-225 | Every canonical plan, whatever its probes, is committed by the straight run under any distinct event identities. |
| Freshness.CanonicalRequiredChecks | internal/networkpolicy/verification_freshness.go:218-237 | The scan returns the trimmed, sorted names exactly if there are some, all valid and distinct. |
| Freshness.CanonicalChecks | internal/networkpolicy/verification_freshness.go:239-279 | The scan accepts exactly the well-formed, distinct and timely checks and indexes them by name. |
| Freshness.EvaluateVerificationFreshness | internal/networkpolicy/verification_freshness.go:133-216 | The verdict lists exactly the missing, stale and failed checks, and ready means none. |
| Freshness.EvaluateChangePlanFreshness | internal/networkpolicy/verification_freshness.go:75-127 | Evaluation bound to a plan: only for a plan that rebuilds to its own identity and for evidence that names no check outside its probes; the probes are the required checks. |
| Freshness.VerificationExpiry | internal/networkpolicy/verification_preflight.go:194-203 | The loop computes the earliest of all expiry times. |
| Freshness.BeforeExpiry | internal/networkpolicy/verification_preflight.go:194-203 | A time is before the expiry exactly if it is before the expiry of the document and of every check. |
| Freshness.ExpiryIsTheStaleBoundary | internal/networkpolicy/verification_preflight.go:194-203 | For plan-bound evidence there is no stale check at a time exactly if that time is before the expiry. |
| Freshness.ReadyMeansEveryProbePasses | internal/networkpolicy/verification_freshness.go:133-216 | Ready holds exactly if every probe of the plan has a fresh pass. |
| Freshness.VerdictLists | internal/networkpolicy/verification_freshness.go:133-216 | A probe is listed as missing exactly if no check names it, a name as failed exactly if its check did not pass, and as stale exactly if its check, or for "verification" the document, has reached the maximum age; each list is in order. |
| Freshness.AcceptedLater | internal/networkpolicy/verification_freshness.go:75-216 | Evidence accepted once is accepted at every later time (possibly as stale). |
| Freshness.ReadyUntilExpiry | internal/networkpolicy/verification_preflight.go:99-121 | Ready now means ready at exactly the later times before the expiry. |
| PreflightAdmission.BuildVerificationPreflightAdmission | internal/networkpolicy/verification_preflight.go:41-92 | The admission built binds plan, revision, evidence digest, machine version and expiry, or is refused. |
| PreflightAdmission.ApplyVerifiedPreflight | internal/networkpolicy/verification_preflight.go:127-150 | It succeeds exactly if the admission yields an event the machine does not reject, and then the machine takes that one step; otherwise nothing changes. |
| PreflightAdmission.ApplyCurrentVerifiedPreflight | internal/networkpolicy/verification_current.go:38-79 | The same with the plan and evidence evaluated again at the time of the call. |
| PreflightAdmission.SuccessMeansFreshEvidence | internal/networkpolicy/verification_current.go:38-79 | With any events landing between its read, its event and its write, a success means the plan is the machine's, every probe has a pass fresh at that instant, the machine was in preflight, and the event is the second one of its history. |
| PreflightAdmission.EvidenceIdentityExactly | internal/networkpolicy/verification_preflight.go:205-220 | Two pieces of accepted evidence have the same identity exactly if they agree on plan, revision and time and hold the same checks, in whatever order. |
| PreflightAdmission.AdmissionBindsEvidence | internal/networkpolicy/verification_current.go:38-79 | A successful attempt with a built admission, whatever lands in between, comes with the very checks the admission was built from, for the same plan and machine version, between its evaluation and its expiry. |
| PreflightAdmission.ReadyAdmissionIsBuilt | internal/networkpolicy/verification_preflight.go:41-92 | In preflight an admission is built exactly if the evidence can be evaluated for the plan. |
| PreflightAdmission.BuiltAdmissionIsValid | internal/networkpolicy/verification_preflight.go:152-192 | A ready admission passes its own validation, and its identity is the digest of its body. |
| PreflightAdmission.BuiltAdmissionAdvances | internal/networkpolicy/verification_preflight.go:99-150 | A ready admission used before expiry and deadline moves the machine to the apply window. |
| Topologies.NewTopology | internal/corecontracts/topology.go:72-134 | A topology is built exactly if no identity repeats and the records form one tree under the only global scope with well-bound sites and zones; the result indexes exactly the given records. |
| Topologies.IndexScopes | internal/corecontracts/topology.go:78-95 | The first pass accepts distinct well-formed scopes with exactly one global one; on failure no root makes a tree. |
| Topologies.CheckParents | internal/corecontracts/topology.go:96-103 | Every non-global scope has a known parent, and conversely. |
| Topologies.ValidatePathToRoot | internal/corecontracts/topology.go:281-298 | The walk with a visited set terminates and succeeds exactly if the scope climbs to the global root. |
| Topologies.CheckPaths | internal/corecontracts/topology.go:104-108 | All walks succeed exactly if every scope climbs to the root. |
| Topologies.BindSites | internal/corecontracts/topology.go:110-123 | Sites are accepted exactly if well formed on site scopes, distinct, and one per scope. |
| Topologies.ValidateZone | internal/corecontracts/topology.go:258-279 | A zone is accepted exactly if its scope is known and inside its site, if it names one. |
| Topologies.BindZones | internal/corecontracts/topology.go:124-132 | Zones are accepted exactly if all are valid and distinct. |
| Topologies.ValidateScope | internal/corecontracts/topology.go:197-233 | One scope is accepted exactly if its fields fit its kind and its grants are known and distinct. |
| Topologies.Contains | internal/corecontracts/topology.go:159-180 | The upward walk terminates on every accepted topology and equals ancestor reachability. |
| Topologies.WithinReflexive | internal/corecontracts/topology.go:159-180 | Containment is reflexive. |
| Topologies.WithinTransitive | internal/corecontracts/topology.go:159-180 | Containment is transitive. |
| Topologies.WithinAntisymmetric | internal/corecontracts/topology.go:159-180 | On an accepted tree two scopes that contain each other are the same. |
| Topologies.AncestorsComparable | internal/corecontracts/topology.go:159-180 | Any two scopes that contain a third one are nested. |
| Topologies.WithinUnfolds | internal/corecontracts/topology.go:159-180 | Containment is membership of oneself or of the parent's container: the recursion the walk runs. |
| Topologies.RootUnique | internal/corecontracts/topology.go:85-95 | A tree has no second global scope. |
| Topologies.TopologyOrderFree | internal/corecontracts/topology.go:72-134 | For every permutation of the records the same topologies are built, or none: the verdict, repeated identities included, and the result do not depend on the order. |
| Topologies.BuildsOne | internal/corecontracts/topology.go:72-134 | The records determine the topology. |
| Roles.ValidateRoleAssignment | internal/corecontracts/roles.go:65-145 | One assignment is accepted exactly if owner, authority, site, role-specific placement and management zone agree with the topology. |
| Roles.ValidateRoleAssignmentSuccessor | internal/corecontracts/roles.go:151-170 | A successor keeps role and identity and advances its generation exactly if the placement moved. |
| Roles.ValidateRoleAssignments | internal/corecontracts/roles.go:175-209 | The single pass over its tables accepts exactly the sets of valid assignments that are pairwise compatible. |
| Roles.BindingKeyMeaning | internal/corecontracts/roles.go:189-193 | The NUL-joined key stands for node, role and service identity: no two different bindings collide. |
| Roles.ControlPlanesOneToOne | internal/corecontracts/roles.go:195-206 | In an accepted set two controllers share a scope exactly if they share the service identity. |
| Roles.FitsMeansCompatible | internal/corecontracts/roles.go:189-206 | The tables decide compatibility with every earlier assignment. |
| NetworkContracts.ValidateNetworkContracts | internal/corecontracts/network.go:127-204 | The passes accept exactly the networks with valid zones and interfaces, unique names and VLAN bindings, at most 64 interfaces per node, local parents, and no parent cycle. |
| NetworkContracts.ValidateNetworkZone | internal/corecontracts/network.go:206-230 | A zone is accepted exactly if its fields are valid and its scope lies inside its site. |
| NetworkContracts.ValidateNetworkInterface | internal/corecontracts/network.go:232-312 | An interface is accepted exactly if fields, site, zone, role-bound node, link and addresses agree. |
| NetworkContracts.IndexNodes | internal/corecontracts/network.go:139-148 | The nested index holds exactly the site and node pairs that role assignments bind. |
| NetworkContracts.ScanZones | internal/corecontracts/network.go:128-137 | Zones are accepted exactly if valid and distinct. |
| NetworkContracts.GatherInterfaces | internal/corecontracts/network.go:150-170 | The first pass decides fields, distinct identities and names, and the count per node. |
| NetworkContracts.LinkInterfaces | internal/corecontracts/network.go:172-193 | The second pass decides parents and VLAN bindings and collects the parent map. |
| NetworkContracts.WalkUp | internal/corecontracts/network.go:194-202 | One walk terminates, and succeeds exactly if the chain of parents ends; otherwise it exhibits an interface that is its own ancestor. |
| NetworkContracts.CheckCycles | internal/corecontracts/network.go:194-202 | All walks together succeed exactly if no interface is its own ancestor. |
| NetworkContracts.EndingChain | internal/corecontracts/network.go:194-202 | A chain of parents that ends is on no cycle. |
| NetworkContracts.NameKeyMeaning | internal/corecontracts/network.go:161-165 | The name key stands for the node and the name without its case. |
| Objects.CollectObjects | internal/corecontracts/objects.go:166-219 | The first loop accepts exactly distinct objects with valid envelopes and decodable documents and collects the list of each type. |
| Objects.ValidateTypedObject | internal/corecontracts/objects.go:369-461 | One object is accepted exactly if its document fits its type, envelope and topology. |
| Objects.ValidateDesiredState | internal/corecontracts/state.go:54-77 | A desired state is accepted exactly if owned by an authorised container of its scope, with a valid target and an object as spec. |
| Objects.ValidateStoredObjects | internal/corecontracts/objects.go:162-237 | The staged checks over lists accept exactly the valid snapshots: one specification on the map of objects. |
| Objects.VerdictOrderFree | internal/corecontracts/objects.go:162-237 | The verdict does not depend on the order of the objects. |
| Objects.GatherIndex | internal/corecontracts/objects.go:181-218 | Where documents carry their object's identity, the list of a type indexes to the same records as the object map. |
| Mutations.ValidateTypedSuccessor | internal/corecontracts/objects.go:463-548 | A successor is accepted exactly if the immutable fields of its type are kept and observations advance. |
| Mutations.ReplaceInSnapshot | internal/corecontracts/objects.go:595-613 | The result is a permutation of every other object and the successor once. |
| Mutations.TopologyFromObjects | internal/corecontracts/objects.go:550-581 | On a valid snapshot it yields that snapshot's topology, and it fails only on invalid ones. |
| Mutations.CandidateIndex | internal/corecontracts/objects.go:595-613 | On a snapshot without repeats the candidate is the object map with one entry replaced. |
| Mutations.PrepareMutation | internal/corecontracts/objects.go:242-314 | A successor is returned exactly if the request is admitted: guards, types, version rules and a valid snapshot afterwards. Its fields are stated by AdmittedStores. |
| Repository.ListingAdmits | internal/corecontracts/memory_repository.go:117-133 | Any listing of the stored map admits the same requests, so map iteration order does not matter. |
| Repository.NewMemoryObjectRepository | internal/corecontracts/memory_repository.go:28-42 | A repository is opened exactly on a valid initial snapshot and holds it. |
| Repository.MemoryObjectRepository.constructor | internal/corecontracts/memory_repository.go:32-41 | The repository starts with the given objects and no receipts. |
| Repository.MemoryObjectRepository.Snapshot | internal/corecontracts/memory_repository.go:135-141 | The snapshot lists the stored objects, each once, in some order. |
| Repository.MemoryObjectRepository.Apply | internal/corecontracts/memory_repository.go:98-133 | Apply equals the step function; the objects stay valid, and a failed call changes neither objects nor receipts. |
| Repository.RunKeepsValid | internal/corecontracts/memory_repository.go:98-133 | In every state of every run from a valid store the object map is accepted. |
| Repository.ReplayReturnsFirstResult | internal/corecontracts/memory_repository.go:111-116 | Repeating a successful request under its key, equal in every field and in the JSON value of its document, returns the first result after any later calls and changes nothing. |
| Repository.KeyIsSpent | internal/corecontracts/memory_repository.go:111-116 | A request under a spent key that differs in any field or in the JSON value of its document is refused forever. |
| Repository.ReceiptKept | internal/corecontracts/memory_repository.go:130-132 | A receipt is never overwritten. |
| Repository.NoLostUpdates | internal/corecontracts/objects.go:277-307 | Unless a version is reissued for an object, two replacements of it are never guarded by the same version. |
| Repository.FreshTokensReissueNothing | internal/corecontracts/objects.go:318-324 | Tokens that differ from each other and from the initial versions reissue nothing. |
| VersionReuse.ReissuedVersionLosesUpdate | internal/corecontracts/objects.go:277-307 | Conversely, as soon as a version is reissued, one resubmission makes two replacements guarded by the same version: the condition is exact. |
| VersionReuse.ReusedVersionLosesUpdate | internal/corecontracts/objects.go:318-324 | A generator that never repeats itself but returns the initial version of an object loses an update: distinct tokens alone are not enough. |
| VersionReuse.RefreshIsAdmitted | internal/corecontracts/objects.go:277-313 | Resubmitting any stored object unchanged under its current version is always admitted and changes only version and update time. |
| Repository.RunDescends | internal/corecontracts/objects.go:463-548 | Over any run an object keeps type, creation time and its type's identity fields, generation and update time never go back; an observation keeps generation, scope and owner, what it observed never goes back, and it says the same until it advances. |
| Repository.GenerationCountsIntent | internal/corecontracts/objects.go:291-306 | Over any run the generation of a stored object rises by exactly one whenever its stored scope, owner or JSON value changes, observations excepted, and not otherwise. |
| Repository.AdmittedStores | internal/corecontracts/objects.go:236-313 | What an admitted request stores, on the fields: its own type, document, scope and owner under the new version at the given time; a creation starts at generation 1 without a precondition; a replacement is guarded by the current version, keeps type and creation time, and its generation is one more exactly if the stored scope, owner or JSON value differ and it is no observation. |
| Repository.CommitStores | internal/corecontracts/memory_repository.go:118-134 | A committed call stores exactly that object, keeps every other object, and files it under the key. |
| Repository.ControlPlanesStayUnique | internal/corecontracts/roles.go:175-209 | In every state of every run two controllers share a scope exactly if they share the service identity. |
| Repository.RootStays | internal/corecontracts/topology.go:229-231 | In every state of every run the global root is the same object, and no authority is ever delegated to it. |
| RoleDocuments.RoleReplacementExactly | internal/corecontracts/objects.go:277-313 | A role replacement is admitted exactly if it meets every other rule and its JSON value changed exactly when its placement moved. |
| RoleDocuments.RespelledRoleExactly | internal/corecontracts/roles.go:164-169 | A document that reads like the stored role assignment replaces it exactly if it is the same JSON value. |
| RoleDocuments.WorkerIsAdmitted | internal/corecontracts/objects.go:265-276 | From the bootstrap store a worker role can be created. |
| RoleDocuments.RespelledRoleIsRefused | internal/corecontracts/roles.go:164-169 | In that store the stored spelling of the role is accepted again and every other spelling is refused, under any fresh version. |
| Bootstrap.LegacySnapshotIsValid | internal/corecontracts/objects.go:147-158 | The single global scope an older database is upgraded to is a valid snapshot. |
| Bootstrap.LegacyRuns | internal/corecontracts/objects.go:147-158 | Every run from it keeps a valid store in which that object stays the global scope. |
| Bootstrap.LegacyScopeCanBeRefreshed | internal/corecontracts/objects.go:147-158 | The bootstrap object can be submitted again under its bootstrap version. |
| Lifecycle.ValidateEvidence | internal/nodelifecycle/lifecycle.go:363-380 | The scan accepts exactly known, distinct checks that include every required one. |
| Lifecycle.ValidateTransition | internal/nodelifecycle/lifecycle.go:305-352 | A transition is accepted exactly if it is an edge of the table of the right type with its evidence, guard, ownership, time and version rules. |
| Lifecycle.NoMaintenanceWithoutDrain | internal/nodelifecycle/lifecycle.go:181-259 | In every run a node in maintenance, updating, replacing or removing last entered that group by draining to maintenance with all six drain checks. |
| Lifecycle.RunFacts | internal/nodelifecycle/lifecycle.go:305-352 | In every run generation minus one is the number of desired transitions; identity and ownership stay; the time of change advances with every step. |
| Lifecycle.ReasonFollowsState | internal/nodelifecycle/lifecycle.go:382-405 | In every run the node carries a reason exactly while it is degraded, offline, recovering or retired, and it is the one the last request gave; an intent gives one only for retiring. |
| Lifecycle.RetiredIsFinal | internal/nodelifecycle/lifecycle.go:245 | No run continues after retired. |
| Lifecycle.RetiredFromDrained | internal/nodelifecycle/lifecycle.go:223-234 | A drained node retires only through a verified switchover or a verified, approved removal. |
| Lifecycle.EdgeCanBeTaken | internal/nodelifecycle/lifecycle.go:305-352 | Every edge of the table can be taken with exactly its own checks, from any valid node, while generation and versions allow. |
| Lifecycle.RequiredChecksOk | internal/nodelifecycle/lifecycle.go:181-246 | No rule asks for an unknown check or for one twice. |
| Lifecycle.ValidatePlacements | internal/nodelifecycle/operation_plan.go:155-185 | Placements are accepted exactly if each is well formed for its kind and no workload repeats. |
| Lifecycle.BuildOperationPlan | internal/nodelifecycle/operation_plan.go:74-153 | A plan is built exactly for a plannable request; its lifecycle steps list exactly the checks of their edges and lead to maintenance or retired. |
| Lifecycle.DrainPath | internal/nodelifecycle/operation_plan.go:93-98 | The drain steps form a path from ready or degraded to maintenance. |
| Lifecycle.ReplacePath | internal/nodelifecycle/operation_plan.go:111-118 | The replace steps form a path from maintenance to retired. |
| Lifecycle.DecommissionPath | internal/nodelifecycle/decommission_plan.go:44-50 | The decommission steps form a path from maintenance to retired. |
| Lifecycle.PlanOrderFree | internal/nodelifecycle/operation_plan.go:78-82 | The plan identity does not depend on the order of the placements. |
| InstallOrder.IndexModules | internal/market/dependencies.go:17-28 | The index is built exactly if every trimmed name is set and distinct. |
| InstallOrder.AllKnown | internal/market/dependencies.go:30-37 | The check succeeds exactly if every dependency is a listed module. |
| InstallOrder.Resolver.VisitModule | internal/market/dependencies.go:39-60 | The recursive visit over its state map terminates and refines the model walk. |
| InstallOrder.ResolveInstallOrder | internal/market/dependencies.go:16-73 | The method returns the specified resolution: malformed, cyclic or an order. |
| InstallOrder.ResolveIsTopologicalSort | internal/market/dependencies.go:39-73 | On well-formed input it reports a cycle exactly if the graph has one, and otherwise lists every module once with all its dependencies earlier. |
| InstallUnfolding.ResolveIsUnfolding | internal/market/dependencies.go:39-73 | Refinement: for every ranking that puts dependencies below their dependents, the install order is the walk without any memory (modules by name, each after everything it needs, as often as needed) with all but first occurrences dropped. |
| InstallUnfolding.OrderRanks | internal/market/dependencies.go:39-73 | Every input that resolves has such a ranking. |
| InstallUnfolding.DepsInNameOrder | internal/market/dependencies.go:48-54 | Dependencies are walked sorted as written and then trimmed. |
| InstallUnfolding.InstallOrderMeans | internal/market/dependencies.go:16-73 | On the records: the order lists exactly the trimmed declared names, each once, and each after every trimmed dependency of its record. |
| InstallUnfolding.MalformedExactly | internal/market/dependencies.go:17-37 | Input is refused as malformed exactly for a blank name, a name declared twice or a dependency on an undeclared module. |
| InstallOrder.VisitSound | internal/market/dependencies.go:39-60 | A successful visit keeps the listed modules topologically ordered and finishes its module. |
| InstallOrder.VisitFailsOnCycle | internal/market/dependencies.go:39-60 | A failed visit exhibits a cycle. |
| InstallOrder.TopologicalMeansAcyclic | internal/market/dependencies.go:39-73 | A complete topological list rules out every cycle. |
| InstallOrder.ResolveOrderFree | internal/market/dependencies.go:50-72 | The result, malformed verdicts included, does not depend on the order of the modules or of their dependency lists. |
| IncidentQuery.NormalizeFilter | internal/incidents/query.go:116-152 | A status or severity filter is accepted exactly if its values are allowed and distinct, and comes back sorted. |
| IncidentQuery.NormalizeListQuery | internal/incidents/query.go:48-114 | A query is accepted exactly if acceptable, and comes back with sorted filters and the default limit. |
| IncidentQuery.FilterPage | internal/incidents/query.go:172-211 | The page is the prefix of the canonical listing past the cursor, with the cursor of its last incident if more follow. Order and content are stated on the fields in IncidentPages. |
| IncidentPages.PageShowsNewest | internal/incidents/query.go:172-211 | A page shows later starts first and equal starts by object identity: the first incidents of the listing up to the limit (50 if none is given), with the start and identity of the last one shown exactly if more match. |
| IncidentPages.FollowShowsNewestFirst | internal/incidents/query.go:172-211 | All pages together, following the cursor to the end, are in that order too. |
| IncidentPages.Unfiltered | internal/incidents/query.go:172-211 | Without filters and cursor every incident is listed as often as it is given. |
| IncidentPages.StatusFilter | internal/incidents/query.go:214-216 | A status filter keeps exactly the incidents with one of its statuses, with multiplicity. |
| IncidentPages.SeverityFilter | internal/incidents/query.go:217-219 | A severity filter keeps exactly those with one of its severities. |
| IncidentPages.ScopeFilter | internal/incidents/query.go:220-222 | A scope filter keeps exactly those of the scope. |
| IncidentPages.StartFilter | internal/incidents/query.go:223-228 | Start bounds keep exactly those at or after the first and before the second. |
| IncidentPages.ResourceFilter | internal/incidents/query.go:237-252 | A resource filter keeps exactly those with an affected resource of the kind and, where given, the identity. |
| IncidentPages.CursorFilter | internal/incidents/query.go:229-236 | A cursor keeps exactly those that started earlier, or at the same instant with a later object identity. |
| IncidentQuery.NextPage | internal/incidents/query.go:172-235 | The next page lists exactly what is past the last incident shown. |
| IncidentQuery.CursorAccepted | internal/incidents/query.go:104-112 | Every emitted cursor is accepted back unchanged. |
| IncidentQuery.FollowingReproducesTheListing | internal/incidents/query.go:172-235 | Following the cursors yields the whole listing exactly if no page boundary falls between incidents with equal keys. |
| IncidentQuery.DistinctIncidentsPageCleanly | internal/incidents/query.go:172-235 | With distinct object identities the pages concatenate to the canonical listing, without skip or repeat. |
| Inventory.Aggregates | internal/inventory/reconcile.go:27-56 | The loop over observations computes the fold per device, or rejects the batch. |
| Inventory.ReconcileObservations | internal/inventory/reconcile.go:26-75 | The listing is the rendering of the fold, sorted by device. |
| Inventory.FoldMeaning | internal/inventory/reconcile.go:26-75 | Per device the fold has exactly its sources, and the latest observation is the leftmost one that no other beats on time and source. |
| Inventory.LatestSighting | internal/inventory/reconcile.go:26-75 | On the fields: no sighting of a device is later than its latest one, none at the same time has a smaller source, and of equal ones the first counts. |
| Inventory.ReconcileReports | internal/inventory/reconcile.go:26-75 | Reconciling lists exactly the sighted devices, each once, by increasing trimmed identity, each with all its trimmed sources in order and its latest sighting. |
| Inventory.BestAssociative | internal/inventory/reconcile.go:52-55 | Picking the winner is associative, ties included. |
| Inventory.FoldAppend | internal/inventory/state.go:18-39 | Folding a concatenation is merging the folds. |
| Inventory.MergeStrings | internal/inventory/state.go:75-89 | The merged list is the sorted set of the trimmed non-empty values. |
| Inventory.MemoryRegistry.Ingest | internal/inventory/state.go:18-39 | An accepted batch merges its fold into the registry and returns the new listing; a rejected batch changes nothing. |
| Inventory.MemoryRegistry.List | internal/inventory/state.go:41-45 | The listing is the rendering of the registry. |
| Inventory.MemoryRegistry.Get | internal/inventory/state.go:47-55 | A device is found exactly if known after trimming. |
| Inventory.RegistryAgreesWithReconcile | internal/inventory/state.go:18-39 | After any batches the registry lists what reconciling the concatenation of the accepted ones lists. |
| Versions.DecimalIsNumeric | internal/market/manifest_v2.go:893-909 | Comparing digit strings of any length with any leading zeros is comparing the numbers. |
| Versions.CompareIsPrecedence | internal/market/manifest_v2.go:882-891 | Comparison of versions is the major, minor, patch precedence of section 11 of Semantic Versioning 2.0.0. |
| Versions.CompareIsAnOrder | internal/market/manifest_v2.go:882-891 | It is a total preorder: antisymmetric in sign and transitive. |
| LoadHarness.Run | internal/loadtest/harness.go:44-92 | The nested loops compute the model counters, without the batch size entering them. |
| LoadHarness.CountersAddUp | internal/loadtest/harness.go:55-81 | Offered is agents times rounds and splits into accepted and dropped; accepted splits into results and stale rejections; drops and restarts are the floor quotients; stale rejections are at most restarts times agents. |
| LoadHarness.EveryRestartRejectsEveryAgent | internal/loadtest/harness.go:55-81 | When nothing is dropped every restart rejects every agent once. |
| LoadHarness.CountersFit | internal/loadtest/harness.go:44-81 | Under the accepted limits no counter exceeds 10^9. |
| Forecast.PrepareObservations | internal/capacity/forecast.go:73-103 | Observations are accepted exactly if valid and with neighbours apart after the sort, whatever the sort does, and come back in its order. |
| Forecast.PreparedDaysIncrease | internal/capacity/forecast.go:93-103 | Accepted days are strictly increasing exactly if neighbours came out of the sort in order, and always where the comparison is consistent. |
| Forecast.PreparedExactly | internal/capacity/forecast.go:93-103 | With neighbours in order, the check on neighbours refuses exactly if any two days are close. |
| Forecast.AcceptedWhateverTheSort | internal/capacity/forecast.go:73-103 | Observations are accepted under every sort exactly if they are valid and no two days are close: a condition on the input. |
| Forecast.PreparedOrderFree | internal/capacity/forecast.go:73-103 | Where the comparison is consistent, neither the order of the observations nor the sort changes the verdict or the result. |
| Forecast.ForecastOrderFree | internal/capacity/forecast.go:62-186 | Where the comparison is consistent, the forecast depends only on the set of observations and the request. |
| Forecast.Spread | internal/capacity/forecast.go:113-118 | The loop computes covariance and day variance. |
| Forecast.Distances | internal/capacity/forecast.go:125-132 | The loop computes residual and total sums of squares. |
| Forecast.BuildForecast | internal/capacity/forecast.go:62-186 | The forecast is the specified one for every sort of the days; what it says is ForecastMeans. |
| Forecast.ForecastMeans | internal/capacity/forecast.go:62-186 | Growth is the slope of a line no other line beats in squared error; the projection is the last workload moved along it for the horizon, at least zero; the plan is the projection times (100 + margin) / 100; the fit is the share of the spread the line explains, in [0, 1]; quality is high from 8 samples and a fit of 0.8, low below 4 samples or a fit of 0.5. |
| Forecast.FittedLineIsOptimal | internal/capacity/forecast.go:105-132 | The fitted line is the unique minimum of the sum of squared residuals over all lines, with the exact excess of any other line. |
| Forecast.RSquaredNeedsNoClamp | internal/capacity/forecast.go:133-141 | The quality of the fit lies between zero and one before the clamps. |
| Planner.EligibleNodes | internal/capacity/planner.go:72-99 | The scan returns the candidates exactly if all nodes are valid and distinct. |
| Planner.Totals | internal/capacity/planner.go:105-118 | The loop computes the totals, the lowest confidence and the bottleneck. |
| Planner.BuildAssessment | internal/capacity/planner.go:64-148 | The assessment is the specified one for every order an unstable sort may produce; its figures and its advice are stated on the fields by AssessedFigures and AssessedAdvice. |
| Planner.WorstCaseExactly | internal/capacity/planner.go:119-129 | For any arrangement, the capacity left after removing the first n is the worst case over all choices of n failed nodes exactly if the removed ones dominate the rest. |
| Planner.AssessedWorstCaseExactly | internal/capacity/planner.go:103-147 | Where the comparison is consistent on the eligible nodes, the assessed safe capacity is the worst case, under every sort, exactly if no larger node is ranked as kept while a close smaller one is ranked as removed. |
| Planner.WorstCaseWhateverTheSort | internal/capacity/planner.go:103-147 | The assessed safe capacity is the worst case under every sort exactly if no failure is reserved for, or the comparison is consistent and hides no such pair: a condition on the request and nodes. |
| Planner.EqualOrFarIsConsistent | internal/capacity/planner.go:119-125 | Capacities that are pairwise equal or far make the comparison a strict weak order. |
| Planner.SafeCapacityIsWorstCase | internal/capacity/planner.go:119-129 | With capacities equal or farther apart than the tolerance it is. |
| Planner.AssessedCapacityIsWorstCase | internal/capacity/planner.go:103-147 | For such nodes the assessed safe capacity is the minimum surviving capacity over all choices of failed nodes. |
| Planner.CloseCapacitiesHideTheWorstCase | internal/capacity/planner.go:119-129 | A concrete request with one reserved failure and two valid nodes closer than the tolerance: under every sort the assessed safe capacity is more than losing the other node leaves. |
| Planner.BottleneckIsFirstLeast | internal/capacity/planner.go:107-118 | The bottleneck is the first node with the least reserve. |
| Planner.SafeIsAntitone | internal/capacity/planner.go:103-147 | A smaller reserve or a smaller workload never turns a safe verdict unsafe, whatever the capacities. |
| Planner.SafeVerdictMeans | internal/capacity/planner.go:130-147 | Safe holds exactly if the capacity reserve and every node's reserve are not negative up to the tolerance. |
| Verdicts.EligibleExactly | internal/capacity/planner.go:76-103 | The nodes that count are exactly the healthy ones of the role, identities trimmed, each once and by increasing identity. |
| Verdicts.AssessedFigures | internal/capacity/planner.go:105-132 | Current workload is the sum over the eligible nodes, safe capacity and technical limit the sums over those left after the reserved failures, and the reserve is safe capacity less expected workload. |
| Verdicts.AssessedAdvice | internal/capacity/planner.go:105-147 | The confidence is that of the first eligible node with the least score; evidence is asked for exactly if its level is "low", capacity exactly if it is not and the safe capacity falls short by more than the tolerance, nothing otherwise; the bottleneck is the first node of least reserve, and safe means neither it nor the capacity falls short. |
| Verdicts.WeakEvidenceExactly | internal/capacity/planner.go:131-136 | Evidence is asked for only if some eligible node scores below one half; such a score brings the request exactly if the weakest node's level is spelled "low". |
| Verdicts.LoudLevelHidesWeakEvidence | internal/capacity/contracts.go:376-396 | One worker with a score of 0.2 and the accepted level "LOW" is assessed without asking for evidence. |
| Telemetry.NormalizeBatch | internal/networktelemetry/telemetry.go:242-281 | A batch is accepted exactly if well formed, distinct and without neighbouring overlaps, and comes back canonical and sorted. |
| Telemetry.NormalizedOrderFree | internal/networktelemetry/telemetry.go:242-281 | The normalised batch does not depend on the order of the observations. |
| Telemetry.NormalizedIsNeat | internal/networktelemetry/telemetry.go:242-281 | Accepted observations are ordered, valid and free of neighbouring overlaps. |
| Telemetry.WindowsDisjoint | internal/networktelemetry/telemetry.go:272-279 | The check on neighbours makes all windows of a series pairwise disjoint. |
| Telemetry.Accumulate | internal/networktelemetry/telemetry.go:341-379 | The loop accumulates each series, and fails exactly if a sample count exceeds its bound. |
| Telemetry.AggregateNormalized | internal/networktelemetry/telemetry.go:341-389 | The list holds one aggregate per series, sorted by series, whatever the map iteration order; what each says is AggregateMeaning. |
| Telemetry.AggregateMeaning | internal/networktelemetry/telemetry.go:341-389 | For every series of every accepted batch: samples counted once, the average times the samples is the sum of value times sample count, between any lower bound and the peak, peak attained, confidence that of an observation with the least score, latest observation unique, and the age in seconds rounded up and within the limit. |
| Telemetry.SamplesConserved | internal/networktelemetry/telemetry.go:341-389 | The sample counts of the aggregates add up to those of the batch. |
| Telemetry.CeilingBound | internal/networktelemetry/telemetry.go:578-583 | The age is rounded up to whole seconds and stays within the limit. |
| Telemetry.SelectBottleneck | internal/networktelemetry/telemetry.go:410-442 | The loop accepts exactly well-formed, distinct boundaries with aggregates and returns the tightest input. |
| Telemetry.BuildRecommendationInput | internal/networktelemetry/telemetry.go:393-447 | A recommendation input is built exactly if batch, sample bounds and boundaries are acceptable; it holds the aggregates of the batch and the tightest boundary. |
| Telemetry.TightestIsLeast | internal/networktelemetry/telemetry.go:433-438 | The selected input is one of the inputs, and none is tighter. |
| Telemetry.BottleneckMeaning | internal/networktelemetry/telemetry.go:433-488 | On the fields: every input reports its boundary against the latest value of its series, with reserves that add up to the limits and percentages of them; the selected one leaves the smallest share of its safe limit, and among equals has the earliest identity. |
| Telemetry.BottleneckOrderFree | internal/networktelemetry/telemetry.go:410-442 | The bottleneck does not depend on the order of the boundaries. |

## Left out

- HTTP handlers, command-line start-up, configuration, PostgreSQL adapters, workers and scripts: wiring around these contracts.
- JSON encoding and decoding, SHA-256, regular expressions, MAC and CIDR parsers and random tokens: library behaviour, represented by what they return.
- Documents of stored objects: represented by what each strict decoder reads from them and an identity of the JSON value; their bytes are not modelled.
- Error texts and, for the store, lifecycle, telemetry, forecast and planner, the kind of error: a failure is one value.
- Context cancellation before an operation, which only returns early.
- Floating-point rounding, NaN and infinities beyond the finiteness checks: arithmetic is exact.
- Case mapping of characters whose lower or upper case is not ASCII, other than the four with an ASCII image, and strings that are not valid UTF-8.
- The difference between nil and empty slices in deep comparison of plans.
- The identities of forecasts and assessments, which are digests of the whole input.
- BuildCurrentVerificationPreflightAdmission, which builds an admission from the current snapshot by the two members modelled here.
- MemoryObjectRepository.List and Get, the pairing of desired and actual states, BuildDecommissionPlan's checks and digest, and lifecycle projections: easy members.
- Capacity placement evidence, calibration, curves and horizons; agent enrolment; incident mutations and access control; edge-gateway authorisation; manifest field validation and migration: wide field checks that add no harder law.
- Telemetry.BuildRecommendationInput: the acceptance of a batch and of boundaries takes what the IP and MAC address parsers say of an identifier as a parameter.
- Lifecycle.EdgeCanBeTaken: assumes a valid unused version, a later time and, for desired edges, a generation below the maximum, which the source demands as well.
- PreflightAdmission.BuiltAdmissionIsValid: excludes an expiry that falls on the zero time, which the source treats as unset.
