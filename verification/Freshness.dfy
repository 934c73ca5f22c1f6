// Freshness of verification evidence
// (internal/networkpolicy/verification_freshness.go, verificationExpiry).
module Freshness {
  import opened ChangePlan
  import opened Options
  import opened Sorting
  import opened Text
  import opened VerificationDocuments

  const FRESHNESS_SCHEMA := "network.change.verification-freshness/v1"
  const MAX_AGE := 24 * 60 * MINUTE
  const MAX_SKEW := 5 * MINUTE
  const MAX_CHECKS := MAX_PROBES

  datatype Policy = Policy(maxAge: int, maxFutureSkew: int)

  datatype Verdict = Verdict(ready: bool, missing: seq<string>, stale: seq<string>, failed: seq<string>)

  predicate IsHex(c: char) {
    '0' <= c <= '9' || 'a' <= c <= 'f' || 'A' <= c <= 'F'
  }

  // sha256: and 64 hex digits.
  predicate ValidDigest<T>(d: DigestId<T>) {
    d.Sha256? || (|d.text| == 71 && d.text[..7] == "sha256:" && forall i | 7 <= i < 71 :: IsHex(d.text[i]))
  }

  // ---- which evidence is considered at all ----

  ghost predicate CheckOk(c: CheckEvidence, verifiedAt: int, now: int, skew: int) {
    && ValidIdentifier(c.name) && !c.status.UnknownStatus? && ValidDigest(c.evidenceDigest)
    && c.observedAt != 0 && c.observedAt <= now + skew && c.observedAt <= verifiedAt + skew
  }

  function CheckKey(c: CheckEvidence): string {
    c.name
  }

  function CheckNames(s: seq<CheckEvidence>): seq<string> {
    Project(s, CheckKey)
  }

  ghost predicate ChecksOk(s: seq<CheckEvidence>, verifiedAt: int, now: int, skew: int) {
    && 1 <= |s| <= MAX_CHECKS
    && (forall i | 0 <= i < |s| :: CheckOk(s[i], verifiedAt, now, skew))
    && Distinct(CheckNames(s))
  }

  ghost predicate RequiredOk(names: seq<string>) {
    && 1 <= |names| <= MAX_CHECKS
    && (forall i | 0 <= i < |names| :: ValidIdentifier(names[i]))
    && Distinct(names)
  }

  predicate EnvelopeOk(now: int, planId: PlanId, revisionId: string, e: Evidence, policy: Policy) {
    && now != 0 && ValidDigest(planId) && ValidIdentifier(revisionId)
    && e.schemaVersion == FRESHNESS_SCHEMA && ValidDigest(e.planId) && e.planId == planId
    && ValidIdentifier(e.revisionId) && e.revisionId == revisionId
    && 0 < policy.maxAge <= MAX_AGE && 0 <= policy.maxFutureSkew <= MAX_SKEW
    && e.verifiedAt != 0 && e.verifiedAt <= now + policy.maxFutureSkew
  }

  // ---- the verdict ----

  function Lookup(checks: seq<CheckEvidence>, name: string): Option<CheckEvidence> {
    if checks == [] then None
    else if checks[|checks| - 1].name == name then Some(checks[|checks| - 1])
    else Lookup(checks[..|checks| - 1], name)
  }

  predicate Missing(e: Evidence, name: string) {
    Lookup(e.checks, name).None?
  }

  predicate Failed(e: Evidence, name: string) {
    Lookup(e.checks, name).Some? && !Lookup(e.checks, name).value.status.Pass?
  }

  predicate Stale(e: Evidence, maxAge: int, now: int, name: string) {
    Lookup(e.checks, name).Some? && Lookup(e.checks, name).value.observedAt + maxAge <= now
  }

  function MissingIn(e: Evidence, names: seq<string>): seq<string> {
    if names == [] then []
    else MissingIn(e, names[..|names| - 1]) + (if Missing(e, names[|names| - 1]) then [names[|names| - 1]] else [])
  }

  function FailedIn(e: Evidence, names: seq<string>): seq<string> {
    if names == [] then []
    else FailedIn(e, names[..|names| - 1]) + (if Failed(e, names[|names| - 1]) then [names[|names| - 1]] else [])
  }

  // The envelope itself counts as the check "verification".
  function StaleIn(e: Evidence, maxAge: int, now: int, names: seq<string>): seq<string> {
    if names == [] then (if e.verifiedAt + maxAge <= now then ["verification"] else [])
    else StaleIn(e, maxAge, now, names[..|names| - 1])
         + (if Stale(e, maxAge, now, names[|names| - 1]) then [names[|names| - 1]] else [])
  }

  function VerdictOn(now: int, e: Evidence, maxAge: int, required: seq<string>): Verdict {
    var missing, stale, failed :=
      Sort(MissingIn(e, required), Less), Sort(StaleIn(e, maxAge, now, required), Less), Sort(FailedIn(e, required), Less);
    Verdict(missing == [] && stale == [] && failed == [], missing, stale, failed)
  }

  // EvaluateVerificationFreshness, None standing for its error.
  ghost function Evaluate(now: int, planId: PlanId, revisionId: string, e: Evidence, policy: Policy, required: seq<string>): Option<Verdict> {
    var names := Project(required, TrimSpace);
    if EnvelopeOk(now, planId, revisionId, e, policy) && RequiredOk(names)
       && ChecksOk(e.checks, e.verifiedAt, now, policy.maxFutureSkew)
    then Some(VerdictOn(now, e, policy.maxAge, Sort(names, Less)))
    else None
  }

  // EvaluateChangePlanVerificationFreshness: the plan must be intact and the
  // evidence may name nothing but its probes.
  ghost function EvaluateForPlan(now: int, plan: ChangePlan, e: Evidence, policy: Policy): Option<Verdict> {
    if Canonical(plan) && (forall c | c in e.checks :: ValidIdentifier(c.name) && c.name in ProbeIds(plan.body.probes))
    then Evaluate(now, plan.planId, plan.body.revisionId, e, policy, ProbeIds(plan.body.probes))
    else None
  }

  // ---- the methods ----

  method CanonicalRequiredChecks(input: seq<string>) returns (result: Option<seq<string>>)
    ensures result == if RequiredOk(Project(input, TrimSpace)) then Some(Sort(Project(input, TrimSpace), Less)) else None
  {
    hide ValidIdentifier, TrimSpace, Sort;
    ghost var names := Project(input, TrimSpace);
    if |input| == 0 || |input| > MAX_CHECKS {
      return None;
    }
    var list: seq<string> := [];
    var seen: set<string> := {};
    assert Distinct(names[..0]);
    hide Distinct;
    for n := 0 to |input|
      invariant list == names[..n] && seen == Elements(names[..n]) && Distinct(names[..n])
      invariant forall i | 0 <= i < n :: ValidIdentifier(names[i])
    {
      var name := TrimSpace(input[n]);
      SeenStep(names, n);
      if !ValidIdentifier(name) || name in seen {
        return None;
      }
      seen := seen + {name};
      list := list + [name];
    }
    assert names[..|input|] == names;
    result := Some(Sort(list, Less));
  }

  ghost predicate ByName(m: map<string, CheckEvidence>, s: seq<CheckEvidence>) {
    && m.Keys == Elements(CheckNames(s))
    && forall name | name in m :: Lookup(s, name) == Some(m[name])
  }

  lemma ByNameStep(m: map<string, CheckEvidence>, s: seq<CheckEvidence>, n: nat)
    requires n < |s| && ByName(m, s[..n])
    ensures ByName(m[s[n].name := s[n]], s[..n + 1])
  {
    assert s[..n + 1][..n] == s[..n];
    var names, names' := CheckNames(s[..n]), CheckNames(s[..n + 1]);
    assert names' == names + [s[n].name];
    assert forall x :: x in names' <==> x in names || x == s[n].name;
  }

  method CanonicalChecks(input: seq<CheckEvidence>, verifiedAt: int, now: int, skew: int)
    returns (ok: bool, byName: map<string, CheckEvidence>)
    ensures ok <==> ChecksOk(input, verifiedAt, now, skew)
    ensures ok ==> ByName(byName, input)
  {
    hide ValidIdentifier, ValidDigest;
    ghost var names := CheckNames(input);
    byName := map[];
    if |input| == 0 || |input| > MAX_CHECKS {
      return false, byName;
    }
    assert Distinct(names[..0]) && ByName(byName, input[..0]);
    hide Distinct;
    for n := 0 to |input|
      invariant ByName(byName, input[..n]) && Distinct(names[..n])
      invariant forall i | 0 <= i < n :: CheckOk(input[i], verifiedAt, now, skew)
    {
      var check := input[n];
      SeenStep(names, n);
      assert names[..n] == CheckNames(input[..n]);
      if !ValidIdentifier(check.name) || check.name in byName || check.status.UnknownStatus? || !ValidDigest(check.evidenceDigest) {
        return false, byName;
      }
      if check.observedAt == 0 || check.observedAt > now + skew || check.observedAt > verifiedAt + skew {
        return false, byName;
      }
      ByNameStep(byName, input, n);
      byName := byName[check.name := check];
    }
    assert input[..|input|] == input && names[..|input|] == names;
    ok := true;
  }

  lemma LookupDefined(s: seq<CheckEvidence>, name: string)
    ensures Lookup(s, name).Some? <==> name in CheckNames(s)
    ensures Lookup(s, name).Some? ==> Lookup(s, name).value in s && Lookup(s, name).value.name == name
  {
    if s != [] {
      LookupDefined(s[..|s| - 1], name);
      assert CheckNames(s) == CheckNames(s[..|s| - 1]) + [s[|s| - 1].name];
    }
  }

  method EvaluateVerificationFreshness(now: int, planId: PlanId, revisionId: string, evidence: Evidence, policy: Policy, required: seq<string>)
    returns (result: Option<Verdict>)
    ensures result == Evaluate(now, planId, revisionId, evidence, policy, required)
  {
    hide Sort, Lookup, EnvelopeOk, RequiredOk, ChecksOk, Distinct;
    if !EnvelopeOk(now, planId, revisionId, evidence, policy) {
      return None;
    }
    var names := CanonicalRequiredChecks(required);
    if names.None? {
      return None;
    }
    var ok, checks := CanonicalChecks(evidence.checks, evidence.verifiedAt, now, policy.maxFutureSkew);
    if !ok {
      return None;
    }
    var list := names.value;
    var missing: seq<string>, stale: seq<string>, failed: seq<string> := [], [], [];
    if evidence.verifiedAt + policy.maxAge <= now {
      stale := ["verification"];
    }
    for n := 0 to |list|
      invariant missing == MissingIn(evidence, list[..n])
      invariant failed == FailedIn(evidence, list[..n])
      invariant stale == StaleIn(evidence, policy.maxAge, now, list[..n])
    {
      assert list[..n + 1][..n] == list[..n];
      LookupDefined(evidence.checks, list[n]);
      if list[n] !in checks {
        missing := missing + [list[n]];
      } else {
        var check := checks[list[n]];
        if !check.status.Pass? {
          failed := failed + [list[n]];
        }
        if check.observedAt + policy.maxAge <= now {
          stale := stale + [list[n]];
        }
      }
    }
    assert list[..|list|] == list;
    missing, stale, failed := Sort(missing, Less), Sort(stale, Less), Sort(failed, Less);
    result := Some(Verdict(missing == [] && stale == [] && failed == [], missing, stale, failed));
  }

  method EvaluateChangePlanFreshness(now: int, plan: ChangePlan, evidence: Evidence, policy: Policy) returns (result: Option<Verdict>)
    ensures result == EvaluateForPlan(now, plan, evidence, policy)
  {
    hide Evaluate, ValidIdentifier, PlanFor;
    if plan.planId != Sha256(plan.body) {
      CanonicalImpliesIdentity(plan);
      return None;
    }
    var validated := BuildChangePlan(RequestOf(plan));
    RebuiltIdentity(plan);
    if validated.None? || validated.value.planId != plan.planId {
      return None;
    }
    var required := ProbeIds(validated.value.body.probes);
    var requiredSet := Elements(required);
    for n := 0 to |evidence.checks|
      invariant forall i | 0 <= i < n :: ValidIdentifier(evidence.checks[i].name) && evidence.checks[i].name in required
    {
      if !ValidIdentifier(evidence.checks[n].name) || evidence.checks[n].name !in requiredSet {
        return None;
      }
    }
    result := EvaluateVerificationFreshness(now, validated.value.planId, validated.value.body.revisionId, evidence, policy, required);
  }

  lemma CanonicalImpliesIdentity(plan: ChangePlan)
    ensures Canonical(plan) ==> plan.planId == Sha256(plan.body)
  {
    if Canonical(plan) {
      CanonicalPlanFacts(plan);
    }
  }

  // With the identity check, a matching rebuilt identity means a matching plan.
  lemma RebuiltIdentity(plan: ChangePlan)
    requires plan.planId == Sha256(plan.body)
    ensures Canonical(plan) <==> PlanFor(RequestOf(plan)).Some? && PlanFor(RequestOf(plan)).value.planId == plan.planId
  {
    hide CanonicalInterfaces, CanonicalForwarding, CanonicalProbes, Covered, ValidIdentifier, ValidTimeouts;
  }

  // ---- expiry ----

  function ExpiryOf(verifiedAt: int, checks: seq<CheckEvidence>, maxAge: int): int {
    if checks == [] then verifiedAt + maxAge
    else
      var earlier := ExpiryOf(verifiedAt, checks[..|checks| - 1], maxAge);
      if checks[|checks| - 1].observedAt + maxAge < earlier then checks[|checks| - 1].observedAt + maxAge else earlier
  }

  function Expiry(e: Evidence, maxAge: int): int {
    ExpiryOf(e.verifiedAt, e.checks, maxAge)
  }

  method VerificationExpiry(evidence: Evidence, maxAge: int) returns (expiresAt: int)
    ensures expiresAt == Expiry(evidence, maxAge)
  {
    expiresAt := evidence.verifiedAt + maxAge;
    for n := 0 to |evidence.checks|
      invariant expiresAt == ExpiryOf(evidence.verifiedAt, evidence.checks[..n], maxAge)
    {
      assert evidence.checks[..n + 1][..n] == evidence.checks[..n];
      var candidate := evidence.checks[n].observedAt + maxAge;
      if candidate < expiresAt {
        expiresAt := candidate;
      }
    }
    assert evidence.checks[..|evidence.checks|] == evidence.checks;
  }

  lemma {:induction false} BeforeExpiry(verifiedAt: int, checks: seq<CheckEvidence>, maxAge: int, t: int)
    ensures t < ExpiryOf(verifiedAt, checks, maxAge) <==>
      t < verifiedAt + maxAge && forall c | c in checks :: t < c.observedAt + maxAge
  {
    if checks != [] {
      var front := checks[..|checks| - 1];
      BeforeExpiry(verifiedAt, front, maxAge, t);
      assert checks == front + [checks[|checks| - 1]];
    }
  }

  // ---- what the verdict means ----

  lemma {:induction false} SelectionsEmpty(e: Evidence, maxAge: int, now: int, names: seq<string>)
    ensures MissingIn(e, names) == [] <==> forall n | n in names :: !Missing(e, n)
    ensures FailedIn(e, names) == [] <==> forall n | n in names :: !Failed(e, n)
    ensures StaleIn(e, maxAge, now, names) == [] <==> now < e.verifiedAt + maxAge && forall n | n in names :: !Stale(e, maxAge, now, n)
  {
    hide Missing, Failed, Stale;
    if names != [] {
      var front, last := names[..|names| - 1], names[|names| - 1];
      SelectionsEmpty(e, maxAge, now, front);
      assert names == front + [last];
      assert forall n :: n in names <==> n in front || n == last;
    }
  }

  lemma SortedEmpty(s: seq<string>)
    ensures Sort(s, Less) == [] <==> s == []
  {
    SortMultiset(s, Less);
  }

  // A check of the evidence is the one found under its name.
  lemma {:induction false} LookupFinds(s: seq<CheckEvidence>, c: CheckEvidence)
    requires c in s && Distinct(CheckNames(s))
    ensures Lookup(s, c.name) == Some(c)
  {
    var last, front := s[|s| - 1], s[..|s| - 1];
    var i :| 0 <= i < |s| && s[i] == c;
    if i < |s| - 1 {
      assert CheckNames(s)[i] != CheckNames(s)[|s| - 1];
      assert front[i] == c;
      forall a, b | 0 <= a < b < |front| ensures CheckNames(front)[a] != CheckNames(front)[b] {
        assert CheckNames(s)[a] != CheckNames(s)[b];
      }
      LookupFinds(front, c);
    }
  }

  // Every probe has a pass that is still fresh, and so is the envelope.
  ghost predicate AllPassFresh(plan: ChangePlan, e: Evidence, maxAge: int, now: int) {
    && now < e.verifiedAt + maxAge
    && forall id | id in ProbeIds(plan.body.probes) ::
         exists c | c in e.checks :: c.name == id && c.status.Pass? && now < c.observedAt + maxAge
  }

  // A verdict on a plan's probes, without the detours of trimming and sorting.
  lemma PlanVerdict(now: int, plan: ChangePlan, e: Evidence, policy: Policy)
    requires EvaluateForPlan(now, plan, e, policy).Some?
    ensures Distinct(CheckNames(e.checks))
    ensures EvaluateForPlan(now, plan, e, policy).value == VerdictOn(now, e, policy.maxAge, ProbeIds(plan.body.probes))
    ensures forall c | c in e.checks :: c.name in ProbeIds(plan.body.probes)
  {
    hide Canonical, ValidIdentifier, TrimSpace, Lookup, VerdictOn;
    CanonicalPlanFacts(plan);
    var ids := ProbeIds(plan.body.probes);
    TrimsToItself(ids);
    AscendingDistinct(ids);
    SortFixed(ids, Less);
  }

  lemma TrimsToItself(ids: seq<string>)
    requires forall i | 0 <= i < |ids| :: ValidIdentifier(ids[i])
    ensures Project(ids, TrimSpace) == ids
  {
    hide TrimSpace, IsIdentifier;
    forall i | 0 <= i < |ids| ensures TrimSpace(ids[i]) == ids[i] {
      assert IsIdentifier(ids[i], "._-", 128);
      IdentifierTrimmed(ids[i], "._-", 128);
    }
  }

  lemma {:induction false} SelectionsHold(e: Evidence, maxAge: int, now: int, names: seq<string>, id: string)
    ensures id in MissingIn(e, names) <==> id in names && Missing(e, id)
    ensures id in FailedIn(e, names) <==> id in names && Failed(e, id)
    ensures id in StaleIn(e, maxAge, now, names)
      <==> (id in names && Stale(e, maxAge, now, id)) || (id == "verification" && e.verifiedAt + maxAge <= now)
  {
    hide Missing, Failed, Stale;
    if names != [] {
      var front, last := names[..|names| - 1], names[|names| - 1];
      SelectionsHold(e, maxAge, now, front, id);
      assert id in names <==> id in front || id == last;
    }
  }

  lemma CheckNamed(checks: seq<CheckEvidence>, id: string)
    requires Distinct(CheckNames(checks))
    ensures Lookup(checks, id).None? <==> forall c | c in checks :: c.name != id
    ensures forall c | c in checks && c.name == id :: Lookup(checks, id) == Some(c)
    ensures Lookup(checks, id).Some? ==> Lookup(checks, id).value in checks && Lookup(checks, id).value.name == id
  {
    hide Distinct, Lookup;
    LookupDefined(checks, id);
    forall c | c in checks && c.name == id ensures Lookup(checks, id) == Some(c) {
      LookupFinds(checks, c);
    }
  }

  // What the three lists of a verdict hold, in terms of the checks: probes
  // without a check, checks that did not pass, checks past their age (and the
  // envelope, as "verification"). Each list is in order.
  lemma VerdictLists(now: int, plan: ChangePlan, e: Evidence, policy: Policy, id: string)
    requires EvaluateForPlan(now, plan, e, policy).Some?
    ensures var v := EvaluateForPlan(now, plan, e, policy).value;
      && (id in v.missing <==> id in ProbeIds(plan.body.probes) && forall c | c in e.checks :: c.name != id)
      && (id in v.failed <==> exists c | c in e.checks :: c.name == id && !c.status.Pass?)
      && (id in v.stale <==>
            (exists c | c in e.checks :: c.name == id && c.observedAt + policy.maxAge <= now)
            || (id == "verification" && e.verifiedAt + policy.maxAge <= now))
      && Ordered(v.missing, Less) && Ordered(v.stale, Less) && Ordered(v.failed, Less)
  {
    hide EvaluateForPlan, Lookup, ProbeIds, Distinct, Sort, MissingIn, FailedIn, StaleIn, Ordered;
    var ids, maxAge := ProbeIds(plan.body.probes), policy.maxAge;
    PlanVerdict(now, plan, e, policy);
    CheckNamed(e.checks, id);
    SelectionsHold(e, maxAge, now, ids, id);
    LessIsWeakOrder();
    hide WeakOrder;
    SortElements(MissingIn(e, ids), Less, id);
    SortElements(FailedIn(e, ids), Less, id);
    SortElements(StaleIn(e, maxAge, now, ids), Less, id);
    SortOrdered(MissingIn(e, ids), Less);
    SortOrdered(FailedIn(e, ids), Less);
    SortOrdered(StaleIn(e, maxAge, now, ids), Less);
  }

  // Plan-bound evidence has no stale check exactly before its expiry.
  lemma ExpiryIsTheStaleBoundary(now: int, plan: ChangePlan, e: Evidence, policy: Policy)
    requires EvaluateForPlan(now, plan, e, policy).Some?
    ensures EvaluateForPlan(now, plan, e, policy).value.stale == [] <==> now < Expiry(e, policy.maxAge)
  {
    hide EvaluateForPlan, Lookup, ProbeIds, Distinct, Sort;
    PlanVerdict(now, plan, e, policy);
    var ids := ProbeIds(plan.body.probes);
    SelectionsEmpty(e, policy.maxAge, now, ids);
    SortedEmpty(StaleIn(e, policy.maxAge, now, ids));
    BeforeExpiry(e.verifiedAt, e.checks, policy.maxAge, now);
    forall id | id in ids && Stale(e, policy.maxAge, now, id) ensures Lookup(e.checks, id).value in e.checks {
      LookupDefined(e.checks, id);
    }
    forall c | c in e.checks ensures Stale(e, policy.maxAge, now, c.name) <==> c.observedAt + policy.maxAge <= now {
      LookupFinds(e.checks, c);
    }
  }

  // Ready is exactly: every probe of the plan has a fresh PASS.
  lemma ReadyMeansEveryProbePasses(now: int, plan: ChangePlan, e: Evidence, policy: Policy)
    requires EvaluateForPlan(now, plan, e, policy).Some?
    ensures EvaluateForPlan(now, plan, e, policy).value.ready <==> AllPassFresh(plan, e, policy.maxAge, now)
  {
    hide EvaluateForPlan, Lookup, ProbeIds, Distinct, Sort;
    PlanVerdict(now, plan, e, policy);
    var ids, maxAge := ProbeIds(plan.body.probes), policy.maxAge;
    SelectionsEmpty(e, maxAge, now, ids);
    SortedEmpty(StaleIn(e, maxAge, now, ids));
    SortedEmpty(MissingIn(e, ids));
    SortedEmpty(FailedIn(e, ids));
    forall id | id in ids
      ensures (!Missing(e, id) && !Failed(e, id) && !Stale(e, maxAge, now, id))
        <==> exists c | c in e.checks :: c.name == id && c.status.Pass? && now < c.observedAt + maxAge
    {
      LookupDefined(e.checks, id);
      forall c | c in e.checks && c.name == id ensures Lookup(e.checks, id) == Some(c) {
        LookupFinds(e.checks, c);
      }
    }
  }

  // Acceptance survives the passing of time.
  lemma AcceptedLater(now: int, later: int, plan: ChangePlan, e: Evidence, policy: Policy)
    requires EvaluateForPlan(now, plan, e, policy).Some? && now <= later && later != 0
    ensures EvaluateForPlan(later, plan, e, policy).Some?
  {
    hide Canonical, ValidIdentifier, ValidDigest, TrimSpace, VerdictOn, RequiredOk, Distinct;
    forall i | 0 <= i < |e.checks| ensures CheckOk(e.checks[i], e.verifiedAt, later, policy.maxFutureSkew) {
      assert CheckOk(e.checks[i], e.verifiedAt, now, policy.maxFutureSkew);
    }
  }

  // Ready evidence stays ready up to its expiry, and not a moment longer.
  lemma ReadyUntilExpiry(now: int, later: int, plan: ChangePlan, e: Evidence, policy: Policy)
    requires EvaluateForPlan(now, plan, e, policy).Some? && EvaluateForPlan(now, plan, e, policy).value.ready
    requires now <= later && later != 0
    ensures EvaluateForPlan(later, plan, e, policy).Some?
    ensures EvaluateForPlan(later, plan, e, policy).value.ready <==> later < Expiry(e, policy.maxAge)
  {
    hide EvaluateForPlan, Lookup, Sort;
    AcceptedLater(now, later, plan, e, policy);
    ReadyMeansEveryProbePasses(now, plan, e, policy);
    ReadyMeansEveryProbePasses(later, plan, e, policy);
    BeforeExpiry(e.verifiedAt, e.checks, policy.maxAge, later);
    PlanVerdict(later, plan, e, policy);
    if EvaluateForPlan(later, plan, e, policy).value.ready {
      ExpiryIsTheStaleBoundary(later, plan, e, policy);
    }
  }
}
