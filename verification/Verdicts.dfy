// What a capacity assessment reports (internal/capacity/planner.go), field by
// field and for every sort of the nodes.
module Verdicts {
  import opened Planner
  import opened Sorting
  import opened Text

  // ---- which nodes count ----

  lemma {:induction false} CandidatesExactly(s: seq<Node>, role: string, x: Node)
    ensures x in Candidates(s, role) <==> x in s && x.healthy && x.role == role
  {
    if s != [] {
      CandidatesExactly(s[..|s| - 1], role, x);
      assert x in s <==> x in s[..|s| - 1] || x == s[|s| - 1];
    }
  }

  // x is a healthy node of the role, with its identities trimmed.
  ghost predicate Qualifies(nodes: seq<Node>, role: string, x: Node) {
    exists n | n in nodes ::
      && n.healthy && n.role == role
      && x == n.(nodeId := TrimSpace(n.nodeId), bottleneckTargetId := TrimSpace(n.bottleneckTargetId))
  }

  // The eligible nodes are the healthy ones of the role, with their identities
  // trimmed, each once and by increasing identity.
  lemma EligibleExactly(nodes: seq<Node>, role: string)
    requires NodesOk(Project(nodes, TrimmedNode))
    ensures var e := Eligible(nodes, role);
      && (forall i, j | 0 <= i < j < |e| :: Less(e[i].nodeId, e[j].nodeId))
      && (forall x :: x in e <==> Qualifies(nodes, role, x))
  {
    hide NodesOk, NodeOk, TrimSpace;
    var all, e := Project(nodes, TrimmedNode), Eligible(nodes, role);
    EligibleNodesAreOk(nodes, role);
    forall i, j | 0 <= i < j < |e| ensures Less(e[i].nodeId, e[j].nodeId) {
      assert Less(Ids(e)[i], Ids(e)[j]);
    }
    forall x ensures x in e <==> Qualifies(nodes, role, x) {
      SortElements(Candidates(all, role), NodeLess, x);
      CandidatesExactly(all, role, x);
      TrimmedMember(nodes, x);
    }
  }

  lemma TrimmedMember(nodes: seq<Node>, x: Node)
    ensures x in Project(nodes, TrimmedNode) <==> exists n | n in nodes :: x == TrimmedNode(n)
  {
    hide TrimmedNode;
    var all := Project(nodes, TrimmedNode);
    if x in all {
      var i :| 0 <= i < |all| && all[i] == x;
      assert nodes[i] in nodes && x == TrimmedNode(nodes[i]);
    }
    if n :| n in nodes && x == TrimmedNode(n) {
      var i :| 0 <= i < |nodes| && nodes[i] == n;
      assert all[i] == x;
    }
  }

  // ---- the weakest node ----

  ghost predicate FirstWeakest(s: seq<Node>, k: nat) {
    && k < |s|
    && (forall i | 0 <= i < |s| :: s[k].confidence.score <= s[i].confidence.score)
    && (forall i | 0 <= i < k :: s[k].confidence.score < s[i].confidence.score)
  }

  lemma FirstWeakestStep(s: seq<Node>, k: nat)
    requires s != [] && FirstWeakest(s[..|s| - 1], k)
    ensures k < |s| - 1 && s[..|s| - 1][k] == s[k]
    ensures FirstWeakest(s, if s[|s| - 1].confidence.score < s[k].confidence.score then |s| - 1 else k)
  {
    var front := s[..|s| - 1];
    assert forall i | 0 <= i < |front| :: front[i] == s[i];
  }

  lemma OnlyNode(s: seq<Node>)
    requires |s| == 1
    ensures FirstWeakest(s, 0)
  {
  }

  // A perfect score is certified, so it does not matter that the scan starts
  // from a certified confidence that no node has.
  lemma PerfectIsCertified(c: Confidence)
    requires ConfidenceOk(c) && c.score >= 1.0
    ensures c == Confidence("certified", 1.0)
  {
    hide ToLower, TrimSpace;
  }

  lemma {:induction false} LowestIsFirstWeakest(s: seq<Node>) returns (k: nat)
    requires s != [] && forall i | 0 <= i < |s| :: ConfidenceOk(s[i].confidence)
    ensures FirstWeakest(s, k) && LowestConfidence(s) == s[k].confidence
  {
    hide FirstWeakest, ConfidenceOk;
    var front, last := s[..|s| - 1], s[|s| - 1];
    if last.confidence.score >= 1.0 {
      PerfectIsCertified(last.confidence);
    }
    if |s| == 1 {
      k := 0;
      OnlyNode(s);
      assert LowestConfidence(front) == Confidence("certified", 1.0);
    } else {
      k := LowestIsFirstWeakest(front);
      FirstWeakestStep(s, k);
      k := if last.confidence.score < s[k].confidence.score then |s| - 1 else k;
    }
  }

  // ---- the report ----

  // Falling short by more than the tolerance comes to one part in 10^9 of a unit.
  lemma ShortBy(x: real)
    ensures NotNegative(x) <==> x >= -0.000000001
  {
  }

  // The eligible nodes that are left when the reserved failures have happened.
  ghost function Kept(r: AssessmentRequest, nodes: seq<Node>, sorter: seq<Node> -> seq<Node>): seq<Node>
    requires Sorts(sorter) && Assess(r, nodes, sorter).Some?
  {
    SortedLength(Eligible(nodes, r.requiredRole), sorter);
    sorter(Eligible(nodes, r.requiredRole))[r.failureReserveNodes..]
  }

  lemma KeptSums(r: AssessmentRequest, e: seq<Node>, p: seq<Node>)
    requires multiset(e) == multiset(p) && e != [] && 0 <= r.failureReserveNodes <= |p|
    ensures var a, kept := AssessmentFrom(r, e, p), p[r.failureReserveNodes..];
      && a.currentWorkload == Sum(Project(e, (n: Node) => n.currentWorkload))
      && a.safeCapacity == Sum(Project(kept, (n: Node) => n.safeCapacity))
      && a.technicalLimit == Sum(Project(kept, (n: Node) => n.technicalLimit))
      && a.safeReserve == a.safeCapacity - a.expectedWorkload
  {
    hide Sum, NotNegative, Bottleneck, LowestConfidence;
    var kept := p[r.failureReserveNodes..];
    SafeRemaining(e, p, r.failureReserveNodes);
    assert Project(e, (n: Node) => n.currentWorkload) == Project(e, CurrentOf);
    assert Project(kept, (n: Node) => n.safeCapacity) == Project(kept, SafeOf);
    assert Project(kept, (n: Node) => n.technicalLimit) == Project(kept, TechnicalOf);
  }

  // The figures of an assessment are sums over the eligible nodes and over
  // those that are left.
  lemma AssessedFigures(r: AssessmentRequest, nodes: seq<Node>, sorter: seq<Node> -> seq<Node>)
    requires Sorts(sorter) && Assess(r, nodes, sorter).Some?
    ensures var a, e, kept := Assess(r, nodes, sorter).value, Eligible(nodes, r.requiredRole), Kept(r, nodes, sorter);
      && a.healthyNodes == |e| && |kept| == |e| - a.failureReserveNodes && (forall x | x in kept :: x in e)
      && a.failureReserveNodes == r.failureReserveNodes && a.expectedWorkload == r.expectedWorkload
      && a.currentWorkload == Sum(Project(e, (n: Node) => n.currentWorkload))
      && a.safeCapacity == Sum(Project(kept, (n: Node) => n.safeCapacity))
      && a.technicalLimit == Sum(Project(kept, (n: Node) => n.technicalLimit))
      && a.safeReserve == a.safeCapacity - r.expectedWorkload
  {
    hide Eligible, NodesOk, RequestOk, Sum, NotNegative, Bottleneck, LowestConfidence, Sorts, Consistent, Ordered;
    var e := Eligible(nodes, r.requiredRole);
    FailureReserveRange(r);
    SortedLength(e, sorter);
    KeptSums(r, e, sorter(e));
    forall x | x in Kept(r, nodes, sorter) ensures x in e {
      assert x in sorter(e);
      assert x in multiset(sorter(e));
    }
  }

  // The advice: collect evidence exactly if the weakest eligible node is rated
  // "low", otherwise add capacity exactly if the safe capacity falls short of
  // the expected workload by more than the tolerance. The bottleneck is the
  // eligible node of least reserve.
  lemma AssessedAdvice(r: AssessmentRequest, nodes: seq<Node>, sorter: seq<Node> -> seq<Node>) returns (weak: nat, tight: nat)
    requires Sorts(sorter) && Assess(r, nodes, sorter).Some?
    ensures var a, e := Assess(r, nodes, sorter).value, Eligible(nodes, r.requiredRole);
      && FirstWeakest(e, weak) && a.confidence == e[weak].confidence
      && (a.action == CollectEvidence <==> a.confidence.level == "low")
      && (a.action == AddRoleCapacity <==> a.confidence.level != "low" && a.safeCapacity - r.expectedWorkload < -0.000000001)
      && (a.action == NoAction <==> a.confidence.level != "low" && a.safeCapacity - r.expectedWorkload >= -0.000000001)
      && FirstLeast(e, tight) && a.bottleneckNodeId == e[tight].nodeId
      && a.bottleneckMetric == e[tight].bottleneckMetric && a.bottleneckTargetId == e[tight].bottleneckTargetId
      && (a.safe <==> a.safeCapacity - r.expectedWorkload >= -0.000000001 && e[tight].bottleneckReserve >= -0.000000001)
  {
    hide Eligible, NodesOk, RequestOk, SafeSum, TechnicalSum, NotNegative, Bottleneck, LowestConfidence, Sorts, ConfidenceOk, FirstWeakest,
         FirstLeast, Ascending;
    var e := Eligible(nodes, r.requiredRole);
    FailureReserveRange(r);
    SortedLength(e, sorter);
    EligibleNodesAreOk(nodes, r.requiredRole);
    weak := LowestIsFirstWeakest(e);
    tight := BottleneckIsFirstLeast(e);
    WeakestInside(e, weak);
    LeastInside(e, tight);
    ShortBy(Assess(r, nodes, sorter).value.safeReserve);
    ShortBy(e[tight].bottleneckReserve);
  }

  lemma WeakestInside(s: seq<Node>, k: nat)
    requires FirstWeakest(s, k)
    ensures k < |s|
  {
  }

  lemma LeastInside(s: seq<Node>, k: nat)
    requires FirstLeast(s, k)
    ensures k < |s|
  {
  }

  // ---- weak evidence ----

  lemma LowIsBelowHalf(c: Confidence)
    requires ConfidenceOk(c) && c.level == "low"
    ensures c.score < 0.5
  {
    TrimOne("low");
    assert ToLower("low") == "low";
    hide TrimSpace, ToLower;
  }

  ghost predicate WeakEvidence(e: seq<Node>) {
    exists x | x in e :: x.confidence.score < 0.5
  }

  // Where the weakest eligible node scores below one half, its level is
  // spelled as the advice compares it.
  ghost predicate SpelledLow(e: seq<Node>) {
    forall k: nat | FirstWeakest(e, k) :: e[k].confidence.score < 0.5 ==> e[k].confidence.level == "low"
  }

  lemma WeakestDecides(e: seq<Node>, weak: nat)
    requires FirstWeakest(e, weak) && ConfidenceOk(e[weak].confidence)
    ensures WeakEvidence(e) <==> e[weak].confidence.score < 0.5
    ensures SpelledLow(e) <==> (e[weak].confidence.score < 0.5 ==> e[weak].confidence.level == "low")
    ensures e[weak].confidence.level == "low" ==> e[weak].confidence.score < 0.5
  {
    hide ConfidenceOk;
    var c := e[weak].confidence;
    if c.level == "low" {
      LowIsBelowHalf(c);
    }
    assert e[weak] in e;
    forall k: nat | FirstWeakest(e, k) ensures k == weak {
    }
  }

  // Advice to collect evidence always rests on a score below one half.
  // Conversely such a score brings that advice exactly if the weakest node's
  // level is spelled "low"; validation accepts other spellings of it.
  lemma WeakEvidenceExactly(r: AssessmentRequest, nodes: seq<Node>, sorter: seq<Node> -> seq<Node>)
    requires Sorts(sorter) && Assess(r, nodes, sorter).Some?
    ensures var a, e := Assess(r, nodes, sorter).value, Eligible(nodes, r.requiredRole);
      && (a.action == CollectEvidence ==> WeakEvidence(e))
      && ((WeakEvidence(e) ==> a.action == CollectEvidence) <==> SpelledLow(e))
  {
    hide Eligible, Sorts, NodesOk, AssessmentFrom, ConfidenceOk, FirstLeast, FirstWeakest, Ascending, WeakEvidence, SpelledLow;
    var e := Eligible(nodes, r.requiredRole);
    var weak, tight := AssessedAdvice(r, nodes, sorter);
    WeakestInside(e, weak);
    EligibleNodesAreOk(nodes, r.requiredRole);
    WeakestDecides(e, weak);
  }

  const LOUD := Worker("a", 100.0).(confidence := Confidence("LOW", 0.2))

  lemma LoudOk()
    ensures NodeOk(LOUD) && TrimmedNode(LOUD) == LOUD
  {
    TrimOne("a");
    TrimOne("t");
    TrimOne("LOW");
    assert ToLower("LOW") == "low";
    hide TrimSpace, ToLower;
  }

  lemma LoudEligible()
    ensures NodesOk(Project([LOUD], TrimmedNode)) && Eligible([LOUD], WORKER) == [LOUD]
  {
    LoudOk();
    hide NodeOk, TrimmedNode;
    assert Project([LOUD], TrimmedNode) == [LOUD];
    assert [LOUD][..0] == [] && Candidates([], WORKER) == [];
    assert Candidates([LOUD], WORKER) == [LOUD];
    SortFixed([LOUD], NodeLess);
  }

  // One healthy worker with a score of 0.2, its level spelled "LOW": nothing
  // is advised.
  lemma LoudLevelHidesWeakEvidence(sorter: seq<Node> -> seq<Node>)
    requires Sorts(sorter)
    ensures Assess(CLOSE_REQUEST.(failureReserveNodes := 0), [LOUD], sorter).Some?
    ensures Assess(CLOSE_REQUEST.(failureReserveNodes := 0), [LOUD], sorter).value.action == NoAction
    ensures WeakEvidence(Eligible([LOUD], WORKER))
  {
    var r := CLOSE_REQUEST.(failureReserveNodes := 0);
    CloseRequestOk();
    LoudEligible();
    assert Assess(r, [LOUD], sorter).Some?;
    var weak, tight := AssessedAdvice(r, [LOUD], sorter);
    AssessedFigures(r, [LOUD], sorter);
    SortedCapacities([LOUD], WORKER, sorter);
    hide Assess, Eligible, Sorts, FirstLeast, NodesOk, RequestOk;
    PositiveKept(r, sorter);
    assert LOUD in [LOUD];
  }

  lemma PositiveKept(r: AssessmentRequest, sorter: seq<Node> -> seq<Node>)
    requires Sorts(sorter) && r.failureReserveNodes == 0 && r.requiredRole == WORKER && Assess(r, [LOUD], sorter).Some?
    ensures Assess(r, [LOUD], sorter).value.safeCapacity > 0.0
  {
    hide Eligible, Sorts, NodesOk, RequestOk, NodeOk, NotNegative, Bottleneck, LowestConfidence, SafeSum, TechnicalSum, Consistent, Ordered;
    LoudEligible();
    SortedCapacities([LOUD], WORKER, sorter);
    SafeRemaining(Eligible([LOUD], WORKER), sorter([LOUD]), 0);
    PositiveSums(sorter([LOUD])[0..]);
  }
}
