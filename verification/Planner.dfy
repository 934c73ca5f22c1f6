// Capacity assessment with failed nodes (internal/capacity/planner.go), with
// float64 idealised as real.
module Planner {
  import opened Forecast
  import opened Options
  import opened Sorting
  import opened Text

  datatype Confidence = Confidence(level: string, score: real)

  datatype Node = Node(
    nodeId: string, role: string, healthy: bool, currentWorkload: real, safeCapacity: real, technicalLimit: real,
    confidence: Confidence, bottleneckMetric: string, bottleneckTargetId: string, bottleneckReserve: real)

  datatype AssessmentRequest = AssessmentRequest(
    scopeId: string, requiredRole: string, workloadUnit: string, failureReserveNodes: int, expectedWorkload: real)

  datatype Action = NoAction | CollectEvidence | AddRoleCapacity

  datatype Assessment = Assessment(
    scopeId: string, requiredRole: string, workloadUnit: string, healthyNodes: int, failureReserveNodes: int,
    currentWorkload: real, expectedWorkload: real, safeCapacity: real, technicalLimit: real, safeReserve: real,
    bottleneckNodeId: string, bottleneckMetric: string, bottleneckTargetId: string, confidence: Confidence,
    safe: bool, action: Action, advisoryOnly: bool, productionMutation: bool)

  const ROLES := {
    "management-node", "global-controller", "site-controller", "controller-cluster-member", "worker-node", "managed-node",
    "agent", "data-node", "consensus-node", "repository-node", "telemetry-node", "backup-repository-node", "edge-gateway"}

  const METRICS := {
    "cpu.utilization", "memory.used", "storage.used", "storage.iops", "storage.latency", "storage.queue-depth",
    "network.throughput", "network.latency", "network.packet-loss", "database.latency", "database.transactions", "service.queue-depth"}

  // ---- which nodes count ----

  // The level is compared in lower case, except that the evidence synthesised
  // for "certified" is granted to the exact spelling only.
  predicate ConfidenceOk(c: Confidence) {
    var level := ToLower(TrimSpace(c.level));
    && 0.0 <= c.score <= 1.0
    && (|| (level == "low" && c.score < 0.5)
        || (level == "medium" && 0.5 <= c.score < 0.75)
        || (level == "high" && 0.75 <= c.score < 0.95)
        || (level == "certified" && 0.95 <= c.score && c.level == "certified"))
  }

  function TrimmedNode(n: Node): Node {
    n.(nodeId := TrimSpace(n.nodeId), bottleneckTargetId := TrimSpace(n.bottleneckTargetId))
  }

  function NodeKey(n: Node): string {
    n.nodeId
  }

  predicate NodeOk(n: Node) {
    && ValidId(n.nodeId) && ValidId(n.bottleneckTargetId) && n.role in ROLES
    && Finite(n.currentWorkload) && n.currentWorkload >= 0.0
    && Finite(n.safeCapacity) && n.safeCapacity > 0.0
    && Finite(n.technicalLimit) && n.safeCapacity < n.technicalLimit
    && Finite(n.bottleneckReserve)
    && n.bottleneckMetric in METRICS && ConfidenceOk(n.confidence)
  }

  predicate RequestOk(r: AssessmentRequest) {
    && ValidId(TrimSpace(r.scopeId)) && r.requiredRole in ROLES
    && r.workloadUnit in {"devices", "concurrent-sessions", "jobs-per-minute", "requests-per-second", "instances"}
    && 0 <= r.failureReserveNodes <= 16 && Finite(r.expectedWorkload) && r.expectedWorkload >= 0.0
  }

  ghost predicate NodesOk(s: seq<Node>) {
    && 1 <= |s| <= 4096
    && (forall i | 0 <= i < |s| :: NodeOk(s[i]))
    && Distinct(Project(s, NodeKey))
  }

  function Candidates(s: seq<Node>, role: string): seq<Node> {
    if s == [] then []
    else
      var last := s[|s| - 1];
      Candidates(s[..|s| - 1], role) + (if last.healthy && last.role == role then [last] else [])
  }

  predicate NodeLess(a: Node, b: Node) {
    Less(a.nodeId, b.nodeId)
  }

  function Eligible(nodes: seq<Node>, role: string): seq<Node> {
    Sort(Candidates(Project(nodes, TrimmedNode), role), NodeLess)
  }

  // The comparison by which nodes are sorted for removal: larger capacity
  // first, capacities within the tolerance by identity. It need not be
  // transitive. Where it is a strict weak order on the nodes at hand, a sort
  // puts them in order; otherwise it only rearranges them.
  predicate CapacityLess(a: Node, b: Node) {
    if !Close(a.safeCapacity, b.safeCapacity) then a.safeCapacity > b.safeCapacity else Less(a.nodeId, b.nodeId)
  }

  ghost predicate EqualOrFar(s: seq<Node>) {
    forall i, j | 0 <= i < |s| && 0 <= j < |s| && Close(s[i].safeCapacity, s[j].safeCapacity) :: s[i].safeCapacity == s[j].safeCapacity
  }

  ghost predicate SortOutcome(eligible: seq<Node>, byCapacity: seq<Node>) {
    multiset(byCapacity) == multiset(eligible) && (Consistent(eligible) ==> Ordered(byCapacity, CapacityLess))
  }

  ghost predicate Consistent(s: seq<Node>) {
    WeakOrderOn(Elements(s), CapacityLess)
  }

  // Among equal or far capacities the comparison is by capacity, then identity.
  lemma PlainCapacityLess(a: Node, b: Node)
    requires Finite(a.safeCapacity) && Finite(b.safeCapacity)
    requires Close(a.safeCapacity, b.safeCapacity) ==> a.safeCapacity == b.safeCapacity
    ensures CapacityLess(a, b) <==> a.safeCapacity > b.safeCapacity || (a.safeCapacity == b.safeCapacity && Less(a.nodeId, b.nodeId))
  {
    hide Finite, Close, Less;
    if !Close(a.safeCapacity, b.safeCapacity) {
      NotCloseDiffers(a.safeCapacity, b.safeCapacity);
    }
  }

  lemma EqualOrFarIsConsistent(s: seq<Node>)
    requires EqualOrFar(s) && forall i | 0 <= i < |s| :: Finite(s[i].safeCapacity)
    ensures Consistent(s)
  {
    hide Finite, Close, Less, CapacityLess;
    LessIsWeakOrder();
    forall a, b | a in s && b in s
      ensures CapacityLess(a, b) <==> a.safeCapacity > b.safeCapacity || (a.safeCapacity == b.safeCapacity && Less(a.nodeId, b.nodeId))
    {
      var i :| 0 <= i < |s| && s[i] == a;
      var j :| 0 <= j < |s| && s[j] == b;
      PlainCapacityLess(a, b);
    }
  }

  // ---- sums ----

  function Sum(s: seq<real>): real {
    if s == [] then 0.0 else Sum(s[..|s| - 1]) + s[|s| - 1]
  }

  lemma {:induction false} SumAppend(a: seq<real>, b: seq<real>)
    ensures Sum(a + b) == Sum(a) + Sum(b)
    decreases |b|
  {
    if b == [] {
      assert a + b == a;
    } else {
      assert (a + b)[..|a + b| - 1] == a + b[..|b| - 1];
      SumAppend(a, b[..|b| - 1]);
    }
  }

  lemma SumRemove(s: seq<real>, i: nat)
    requires i < |s|
    ensures Sum(s) == Sum(s[..i] + s[i + 1..]) + s[i]
  {
    assert s == s[..i] + ([s[i]] + s[i + 1..]);
    SumAppend(s[..i], [s[i]] + s[i + 1..]);
    SumAppend([s[i]], s[i + 1..]);
    SumAppend(s[..i], s[i + 1..]);
    assert [s[i]][..0] == [];
  }

  // A sum does not depend on the order of its terms.
  lemma {:induction false} SumPermuted(s: seq<real>, t: seq<real>)
    requires multiset(s) == multiset(t)
    ensures Sum(s) == Sum(t)
    decreases |s|
  {
    if s == [] {
      assert |multiset(t)| == |t|;
      assert s == t;
    } else {
      hide Sum;
      assert s[0] in multiset(t);
      var i :| 0 <= i < |t| && t[i] == s[0];
      PermutedTail(s, t, i);
      SumPermuted(s[1..], t[..i] + t[i + 1..]);
      SumRemove(t, i);
      SumRemove(s, 0);
      assert s[..0] + s[1..] == s[1..];
    }
  }

  function SafeOf(n: Node): real {
    n.safeCapacity
  }

  function TechnicalOf(n: Node): real {
    n.technicalLimit
  }

  function CurrentOf(n: Node): real {
    n.currentWorkload
  }

  function SafeSum(s: seq<Node>): real {
    Sum(Project(s, SafeOf))
  }

  function TechnicalSum(s: seq<Node>): real {
    Sum(Project(s, TechnicalOf))
  }

  // Removing the first n of a rearrangement leaves the sum of the others.
  lemma RemainingSum(eligible: seq<Node>, byCapacity: seq<Node>, n: nat, key: Node -> real)
    requires multiset(eligible) == multiset(byCapacity) && n <= |byCapacity|
    ensures Sum(Project(eligible, key)) - Sum(Project(byCapacity[..n], key)) == Sum(Project(byCapacity[n..], key))
  {
    ProjectPermuted(eligible, byCapacity, key);
    SumPermuted(Project(eligible, key), Project(byCapacity, key));
    assert Project(byCapacity, key) == Project(byCapacity[..n], key) + Project(byCapacity[n..], key);
    SumAppend(Project(byCapacity[..n], key), Project(byCapacity[n..], key));
  }

  // ---- the worst choice of failed nodes ----

  // What each node still contributes when the nodes in failed are gone.
  function Contribution(failed: set<string>): Node -> real {
    (n: Node) => if n.nodeId in failed then 0.0 else n.safeCapacity
  }

  function Surviving(s: seq<Node>, failed: set<string>): real {
    Sum(Project(s, Contribution(failed)))
  }

  function Ids(s: seq<Node>): seq<string> {
    Project(s, NodeKey)
  }

  // Any n nodes of s.
  ghost predicate Choice(s: seq<Node>, n: nat, failed: set<string>) {
    failed <= Elements(Ids(s)) && |failed| == n
  }

  // Every removed node is at least as large as every remaining one.
  ghost predicate Dominates(s: seq<Node>, n: nat) {
    forall i, j | 0 <= i < n <= j < |s| :: s[i].safeCapacity >= s[j].safeCapacity
  }

  function Alive(s: seq<Node>, failed: set<string>): nat {
    if s == [] then 0 else Alive(s[..|s| - 1], failed) + (if s[|s| - 1].nodeId in failed then 0 else 1)
  }

  // Capacity above a threshold that survives.
  function Excess(s: seq<Node>, failed: set<string>, c: real): real {
    if s == [] then 0.0
    else Excess(s[..|s| - 1], failed, c) + (if s[|s| - 1].nodeId in failed then 0.0 else s[|s| - 1].safeCapacity - c)
  }

  lemma {:induction false} ExcessIsSurplus(s: seq<Node>, failed: set<string>, c: real)
    ensures Surviving(s, failed) == Excess(s, failed, c) + Times(Alive(s, failed) as real, c)
  {
    hide Times;
    if s == [] {
      TimesZero(c);
    } else {
      var front, last := s[..|s| - 1], s[|s| - 1];
      ExcessIsSurplus(front, failed, c);
      assert Project(s, Contribution(failed)) == Project(front, Contribution(failed)) + [Contribution(failed)(last)];
      TimesSuccessor(Alive(front, failed) as real, c);
    }
  }

  lemma TimesSuccessor(x: real, c: real)
    ensures Times(x + 1.0, c) == Times(x, c) + c
  {
  }

  // Below the threshold, losing nodes only helps the surplus; above it, no
  // survivor hurts.
  lemma {:induction false} ExcessBounds(s: seq<Node>, failed: set<string>, c: real)
    ensures (forall i | 0 <= i < |s| :: s[i].safeCapacity >= c) ==> Excess(s, failed, c) >= 0.0
    ensures (forall i | 0 <= i < |s| :: s[i].safeCapacity <= c) ==> Excess(s, failed, c) >= Excess(s, {}, c)
  {
    if s != [] {
      ExcessBounds(s[..|s| - 1], failed, c);
    }
  }

  lemma {:induction false} ExcessAppend(a: seq<Node>, b: seq<Node>, failed: set<string>, c: real)
    ensures Excess(a + b, failed, c) == Excess(a, failed, c) + Excess(b, failed, c)
    ensures Alive(a + b, failed) == Alive(a, failed) + Alive(b, failed)
    decreases |b|
  {
    if b == [] {
      assert a + b == a;
    } else {
      assert (a + b)[..|a + b| - 1] == a + b[..|b| - 1];
      ExcessAppend(a, b[..|b| - 1], failed, c);
    }
  }

  lemma {:induction false} AliveCount(s: seq<Node>, failed: set<string>)
    requires Distinct(Ids(s)) && failed <= Elements(Ids(s))
    ensures Alive(s, failed) == |s| - |failed|
  {
    if s != [] {
      var front, last := s[..|s| - 1], s[|s| - 1];
      assert Ids(s) == Ids(front) + [last.nodeId];
      assert Ids(front) == Ids(s)[..|s| - 1];
      assert last.nodeId !in Elements(Ids(front)) by { SeenStep(Ids(s), |s| - 1); }
      var rest := failed - {last.nodeId};
      AliveCount(front, rest);
      SameAlive(front, failed, rest, last.nodeId);
      if last.nodeId in failed {
        assert |rest| == |failed| - 1;
      }
    }
  }

  lemma {:induction false} SameAlive(s: seq<Node>, failed: set<string>, rest: set<string>, id: string)
    requires rest == failed - {id} && id !in Elements(Ids(s))
    ensures Alive(s, failed) == Alive(s, rest)
  {
    if s != [] {
      assert Ids(s)[|s| - 1] in Ids(s);
      assert Ids(s[..|s| - 1]) == Ids(s)[..|s| - 1];
      SameAlive(s[..|s| - 1], failed, rest, id);
    }
  }

  lemma {:induction false} AliveAll(s: seq<Node>)
    ensures Alive(s, {}) == |s| && Surviving(s, {}) == SafeSum(s)
  {
    if s != [] {
      AliveAll(s[..|s| - 1]);
      assert Project(s, SafeOf) == Project(s[..|s| - 1], SafeOf) + [s[|s| - 1].safeCapacity];
      assert Project(s, Contribution({})) == Project(s[..|s| - 1], Contribution({})) + [s[|s| - 1].safeCapacity];
    } else {
      assert Project(s, SafeOf) == [] && Project(s, Contribution({})) == [];
    }
  }

  // A cut with the larger nodes removed leaves the least capacity any n
  // failures can leave.
  lemma DominatingCutIsWorst(s: seq<Node>, n: nat, failed: set<string>)
    requires n <= |s| && Distinct(Ids(s)) && Dominates(s, n) && Choice(s, n, failed)
    ensures SafeSum(s[n..]) <= Surviving(s, failed)
  {
    hide Surviving, SafeSum, Excess, Alive, Distinct;
    var top, rest := s[..n], s[n..];
    assert s == top + rest;
    var c := Threshold(s, n);
    AliveCount(s, failed);
    ExcessIsSurplus(s, failed, c);
    ExcessIsSurplus(rest, {}, c);
    AliveAll(rest);
    ExcessAppend(top, rest, failed, c);
    ExcessBounds(top, failed, c);
    ExcessBounds(rest, failed, c);
  }

  lemma {:induction false} Threshold(s: seq<Node>, n: nat) returns (c: real)
    requires n <= |s| && Dominates(s, n)
    ensures forall i | 0 <= i < n :: s[i].safeCapacity >= c
    ensures forall j | n <= j < |s| :: s[j].safeCapacity <= c
  {
    if n == |s| {
      c := LowerBound(s);
    } else {
      c := UpperBound(s[n..]);
      assert exists j | n <= j < |s| :: s[j].safeCapacity == c by {
        var k :| 0 <= k < |s[n..]| && s[n..][k].safeCapacity == c;
        assert s[n + k].safeCapacity == c;
      }
      forall j | n <= j < |s| ensures s[j].safeCapacity <= c {
        assert s[n..][j - n] == s[j];
      }
    }
  }

  lemma {:induction false} LowerBound(s: seq<Node>) returns (c: real)
    ensures forall i | 0 <= i < |s| :: s[i].safeCapacity >= c
  {
    c := 0.0;
    if s != [] {
      c := LowerBound(s[..|s| - 1]);
      if s[|s| - 1].safeCapacity < c {
        c := s[|s| - 1].safeCapacity;
      }
    }
  }

  lemma {:induction false} UpperBound(s: seq<Node>) returns (c: real)
    requires s != []
    ensures exists k | 0 <= k < |s| :: s[k].safeCapacity == c
    ensures forall i | 0 <= i < |s| :: s[i].safeCapacity <= c
  {
    var last, front := s[|s| - 1], s[..|s| - 1];
    if front == [] {
      c := last.safeCapacity;
    } else {
      c := UpperBound(front);
      var k :| 0 <= k < |front| && front[k].safeCapacity == c;
      assert s[k].safeCapacity == c;
      if last.safeCapacity > c {
        c := last.safeCapacity;
      }
    }
  }

  // Failing exactly the removed nodes leaves exactly the remaining capacity.
  lemma RemovedIsAChoice(s: seq<Node>, n: nat)
    requires n <= |s| && Distinct(Ids(s))
    ensures Choice(s, n, Elements(Ids(s[..n]))) && Surviving(s, Elements(Ids(s[..n]))) == SafeSum(s[n..])
  {
    hide SafeSum;
    var failed := Elements(Ids(s[..n]));
    assert Ids(s[..n]) == Ids(s)[..n] && Ids(s[n..]) == Ids(s)[n..];
    DistinctSize(Ids(s[..n]));
    SurvivingSplit(s, n, failed);
    AllFailed(s[..n], failed);
    forall i | n <= i < |s| ensures s[i].nodeId !in failed {
      assert Ids(s)[i] == s[i].nodeId;
    }
    NoneFailed(s[n..], failed);
  }

  lemma SurvivingSplit(s: seq<Node>, n: nat, failed: set<string>)
    requires n <= |s|
    ensures Surviving(s, failed) == Surviving(s[..n], failed) + Surviving(s[n..], failed)
  {
    var key := Contribution(failed);
    assert Project(s, key) == Project(s[..n], key) + Project(s[n..], key);
    SumAppend(Project(s[..n], key), Project(s[n..], key));
  }

  lemma {:induction false} AllFailed(s: seq<Node>, failed: set<string>)
    requires forall i | 0 <= i < |s| :: s[i].nodeId in failed
    ensures Surviving(s, failed) == 0.0
  {
    var key := Contribution(failed);
    if s != [] {
      AllFailed(s[..|s| - 1], failed);
      assert Project(s, key) == Project(s[..|s| - 1], key) + [0.0];
    } else {
      assert Project(s, key) == [];
    }
  }

  lemma NoneFailed(s: seq<Node>, failed: set<string>)
    requires forall i | 0 <= i < |s| :: s[i].nodeId !in failed
    ensures Surviving(s, failed) == SafeSum(s)
  {
    assert Project(s, Contribution(failed)) == Project(s, SafeOf);
  }

  // When a smaller node was removed in place of a larger one, failing the
  // larger one leaves less.
  lemma ExchangeIsWorse(s: seq<Node>, n: nat, i: nat, j: nat) returns (failed: set<string>)
    requires 0 <= i < n <= j < |s| && Distinct(Ids(s)) && s[i].safeCapacity < s[j].safeCapacity
    ensures Choice(s, n, failed) && Surviving(s, failed) < SafeSum(s[n..])
  {
    hide SafeSum, Surviving, Distinct;
    var removed := Elements(Ids(s[..n]));
    var a, b := s[i].nodeId, s[j].nodeId;
    failed := removed - {a} + {b};
    RemovedIsAChoice(s, n);
    RemovedMembers(s, n, i, j);
    assert |removed - {a}| == |removed| - 1;
    assert b in Elements(Ids(s));
    SwapOne(s, removed, i, j);
  }

  lemma RemovedMembers(s: seq<Node>, n: nat, i: nat, j: nat)
    requires 0 <= i < n <= j < |s| && Distinct(Ids(s))
    ensures s[i].nodeId in Elements(Ids(s[..n])) && s[j].nodeId !in Elements(Ids(s[..n])) && s[j].nodeId in Ids(s)
  {
    assert Ids(s[..n]) == Ids(s)[..n];
    assert Ids(s)[..n][i] == s[i].nodeId && Ids(s)[j] == s[j].nodeId;
  }

  lemma SwapOne(s: seq<Node>, removed: set<string>, i: nat, j: nat)
    requires i < |s| && j < |s| && Distinct(Ids(s)) && s[i].nodeId in removed && s[j].nodeId !in removed
    ensures Surviving(s, removed - {s[i].nodeId} + {s[j].nodeId}) == Surviving(s, removed) + s[i].safeCapacity - s[j].safeCapacity
  {
    var a, b := s[i].nodeId, s[j].nodeId;
    Revive(s, removed, i);
    assert removed - {a} + {b} - {b} == removed - {a};
    Revive(s, removed - {a} + {b}, j);
  }

  // Taking one node off the failed set adds its capacity.
  lemma Revive(s: seq<Node>, failed: set<string>, i: nat)
    requires i < |s| && Distinct(Ids(s)) && s[i].nodeId in failed
    ensures Surviving(s, failed - {s[i].nodeId}) == Surviving(s, failed) + s[i].safeCapacity
  {
    hide Sum;
    var k, k' := Contribution(failed), Contribution(failed - {s[i].nodeId});
    var p, p' := Project(s, k), Project(s, k');
    SumRemove(p, i);
    SumRemove(p', i);
    forall x | 0 <= x < |s| && x != i ensures p[x] == p'[x] {
      assert Ids(s)[x] != Ids(s)[i];
    }
    assert p[..i] + p[i + 1..] == p'[..i] + p'[i + 1..];
  }

  // For any arrangement: what remains after removing the first n is the least
  // capacity over all choices of n failed nodes exactly when no removed node
  // is smaller than a remaining one. It is always the capacity of one choice.
  lemma WorstCaseExactly(s: seq<Node>, n: nat)
    requires n <= |s| && Distinct(Ids(s))
    ensures (forall failed | Choice(s, n, failed) :: SafeSum(s[n..]) <= Surviving(s, failed)) <==> Dominates(s, n)
    ensures exists failed | Choice(s, n, failed) :: Surviving(s, failed) == SafeSum(s[n..])
  {
    hide SafeSum, Surviving, Distinct;
    RemovedIsAChoice(s, n);
    if Dominates(s, n) {
      forall failed | Choice(s, n, failed) ensures SafeSum(s[n..]) <= Surviving(s, failed) {
        DominatingCutIsWorst(s, n, failed);
      }
    } else {
      var i, j :| 0 <= i < n <= j < |s| && s[i].safeCapacity < s[j].safeCapacity;
      var failed := ExchangeIsWorse(s, n, i, j);
    }
  }

  lemma SurvivingPermuted(s: seq<Node>, t: seq<Node>, failed: set<string>)
    requires multiset(s) == multiset(t)
    ensures Surviving(s, failed) == Surviving(t, failed)
  {
    ProjectPermuted(s, t, Contribution(failed));
    SumPermuted(Project(s, Contribution(failed)), Project(t, Contribution(failed)));
  }

  lemma SameIds(s: seq<Node>, t: seq<Node>)
    requires multiset(s) == multiset(t) && Distinct(Ids(s))
    ensures Distinct(Ids(t)) && Elements(Ids(t)) == Elements(Ids(s)) && |s| == |t|
  {
    ProjectPermuted(s, t, NodeKey);
    PermutedDistinct(Ids(s), Ids(t));
    forall x ensures x in Ids(s) <==> x in Ids(t) {
      assert x in Ids(s) <==> x in multiset(Ids(s));
      assert x in Ids(t) <==> x in multiset(Ids(t));
    }
    assert |multiset(s)| == |s| && |multiset(t)| == |t|;
  }

  // Capacities pairwise equal or farther apart than the tolerance: the safe
  // capacity is the minimum over every choice of failed nodes.
  lemma SafeCapacityIsWorstCase(eligible: seq<Node>, byCapacity: seq<Node>, n: nat, failed: set<string>)
    requires SortOutcome(eligible, byCapacity) && EqualOrFar(eligible) && Distinct(Ids(eligible))
    requires n <= |byCapacity| && Choice(eligible, n, failed)
    requires forall i | 0 <= i < |eligible| :: Finite(eligible[i].safeCapacity)
    ensures SafeSum(eligible) - SafeSum(byCapacity[..n]) <= Surviving(eligible, failed)
  {
    hide SafeSum, Surviving, Distinct;
    SameIds(eligible, byCapacity);
    CapacitiesDescend(eligible, byCapacity, n);
    DominatingCutIsWorst(byCapacity, n, failed);
    SurvivingPermuted(eligible, byCapacity, failed);
    SafeRemaining(eligible, byCapacity, n);
  }

  lemma SafeRemaining(eligible: seq<Node>, byCapacity: seq<Node>, n: nat)
    requires multiset(eligible) == multiset(byCapacity) && n <= |byCapacity|
    ensures SafeSum(eligible) - SafeSum(byCapacity[..n]) == SafeSum(byCapacity[n..])
    ensures TechnicalSum(eligible) - TechnicalSum(byCapacity[..n]) == TechnicalSum(byCapacity[n..])
  {
    RemainingSum(eligible, byCapacity, n, SafeOf);
    RemainingSum(eligible, byCapacity, n, TechnicalOf);
  }

  lemma CapacitiesDescend(eligible: seq<Node>, byCapacity: seq<Node>, n: nat)
    requires SortOutcome(eligible, byCapacity) && EqualOrFar(eligible) && n <= |byCapacity|
    requires forall i | 0 <= i < |eligible| :: Finite(eligible[i].safeCapacity)
    ensures Dominates(byCapacity, n)
  {
    EqualOrFarIsConsistent(eligible);
    hide Close, Finite, Consistent;
    forall i, j | 0 <= i < n <= j < |byCapacity| ensures byCapacity[i].safeCapacity >= byCapacity[j].safeCapacity {
      var a, b := byCapacity[i], byCapacity[j];
      assert !CapacityLess(b, a);
      assert a in multiset(eligible) && b in multiset(eligible);
      var x :| 0 <= x < |eligible| && eligible[x] == a;
      var y :| 0 <= y < |eligible| && eligible[y] == b;
      assert Close(eligible[y].safeCapacity, eligible[x].safeCapacity) ==> a.safeCapacity == b.safeCapacity;
    }
  }

  // ---- the exact condition ----

  // How many eligible nodes are removed before x.
  ghost function Rank(e: seq<Node>, x: Node): nat {
    |set y | y in e && CapacityLess(y, x)|
  }

  // x is removed and y is kept although y is larger, by less than the tolerance.
  ghost predicate HiddenPair(e: seq<Node>, n: nat, x: Node, y: Node) {
    && x in e && y in e && Close(x.safeCapacity, y.safeCapacity) && x.safeCapacity < y.safeCapacity
    && Rank(e, x) < n <= Rank(e, y)
  }

  ghost predicate NothingHidden(e: seq<Node>, n: nat) {
    forall x, y | x in e && y in e :: !HiddenPair(e, n, x, y)
  }

  // c is what some n failures leave, and no n failures leave less.
  ghost predicate IsWorstCase(e: seq<Node>, n: nat, c: real) {
    && (forall failed | Choice(e, n, failed) :: c <= Surviving(e, failed))
    && (exists failed | Choice(e, n, failed) :: c == Surviving(e, failed))
  }

  // What an arrangement leaves is the worst case exactly if it dominates.
  lemma FigureIsWorstCase(e: seq<Node>, p: seq<Node>, n: nat)
    requires multiset(e) == multiset(p) && n <= |p| && Distinct(Ids(e))
    ensures IsWorstCase(e, n, SafeSum(e) - SafeSum(p[..n])) <==> Dominates(p, n)
  {
    hide SafeSum, Surviving, Distinct, Dominates;
    SameIds(e, p);
    WorstCaseExactly(p, n);
    SafeRemaining(e, p, n);
    forall failed ensures Surviving(e, failed) == Surviving(p, failed) && (Choice(e, n, failed) <==> Choice(p, n, failed)) {
      SurvivingPermuted(e, p, failed);
    }
    var failed :| Choice(p, n, failed) && Surviving(p, failed) == SafeSum(p[n..]);
    assert Choice(e, n, failed) && Surviving(e, failed) == SafeSum(p[n..]);
  }

  lemma CapacitySeparates(e: seq<Node>)
    requires Distinct(Ids(e)) && forall i | 0 <= i < |e| :: Finite(e[i].safeCapacity)
    ensures Separates(e, CapacityLess)
  {
    hide Finite, Close, Less;
    forall i, j | 0 <= i < |e| && 0 <= j < |e| && e[i] != e[j] ensures CapacityLess(e[i], e[j]) || CapacityLess(e[j], e[i]) {
      assert Ids(e)[i] != Ids(e)[j];
      LessTotal(e[i].nodeId, e[j].nodeId);
      CloseSymmetric(e[i].safeCapacity, e[j].safeCapacity);
      if !Close(e[i].safeCapacity, e[j].safeCapacity) {
        NotCloseDiffers(e[i].safeCapacity, e[j].safeCapacity);
      }
    }
  }

  lemma IdsTellApart(p: seq<Node>)
    requires Distinct(Ids(p))
    ensures Distinct(p)
  {
    forall i, j | 0 <= i < j < |p| ensures p[i] != p[j] {
      assert Ids(p)[i] != Ids(p)[j];
    }
  }

  // In the sorted arrangement the rank is the position.
  lemma RankIsPosition(e: seq<Node>, p: seq<Node>, k: nat)
    requires multiset(e) == multiset(p) && Ordered(p, CapacityLess) && Consistent(e) && Separates(e, CapacityLess)
    requires Distinct(p) && k < |p|
    ensures Rank(e, p[k]) == k
  {
    hide CapacityLess;
    forall y ensures y in e <==> y in p {
      assert y in e <==> y in multiset(e);
      assert y in p <==> y in multiset(p);
    }
    forall y | y in e ensures CapacityLess(y, p[k]) <==> y in p[..k] {
      var i :| 0 <= i < |p| && p[i] == y;
      assert y in p[..k] <==> i < k by {
        assert i < k ==> p[..k][i] == y;
      }
      Earlier(e, p, i, k);
    }
    assert (set y | y in e && CapacityLess(y, p[k])) == Elements(p[..k]);
    DistinctSize(p[..k]);
  }

  lemma Earlier(e: seq<Node>, p: seq<Node>, i: nat, k: nat)
    requires multiset(e) == multiset(p) && Ordered(p, CapacityLess) && Consistent(e) && Separates(e, CapacityLess)
    requires Distinct(p) && i < |p| && k < |p|
    ensures CapacityLess(p[i], p[k]) <==> i < k
  {
    hide CapacityLess;
    assert p[i] in multiset(e) && p[k] in multiset(e);
    assert p[i] in e && p[k] in e;
    var x :| 0 <= x < |e| && e[x] == p[i];
    var y :| 0 <= y < |e| && e[y] == p[k];
    if i < k {
      assert p[i] != p[k];
      assert e[x] != e[y];
    }
  }

  // So an arrangement fails to dominate exactly if a pair is hidden.
  lemma DominatesByRank(e: seq<Node>, p: seq<Node>, n: nat)
    requires multiset(e) == multiset(p) && Ordered(p, CapacityLess) && Consistent(e) && Distinct(Ids(e)) && n <= |p|
    requires forall i | 0 <= i < |e| :: Finite(e[i].safeCapacity)
    ensures Dominates(p, n) <==> NothingHidden(e, n)
  {
    hide Finite, Close, Consistent, Rank, Separates, Distinct;
    CapacitySeparates(e);
    SameIds(e, p);
    IdsTellApart(p);
    forall k | 0 <= k < |p| ensures Rank(e, p[k]) == k && p[k] in e {
      RankIsPosition(e, p, k);
      assert p[k] in multiset(e);
    }
    if !Dominates(p, n) {
      var i, j :| 0 <= i < n <= j < |p| && p[i].safeCapacity < p[j].safeCapacity;
      assert !CapacityLess(p[j], p[i]);
      CloseSymmetric(p[i].safeCapacity, p[j].safeCapacity);
      assert HiddenPair(e, n, p[i], p[j]);
    }
    if !NothingHidden(e, n) {
      var x, y :| x in e && y in e && HiddenPair(e, n, x, y);
      assert x in multiset(p) && y in multiset(p);
      var i :| 0 <= i < |p| && p[i] == x;
      var j :| 0 <= j < |p| && p[j] == y;
    }
  }

  // ---- bottleneck and confidence ----

  // The scan: smaller reserve, or a close one with a smaller identity.
  function Bottleneck(s: seq<Node>): Node
    requires s != []
  {
    if |s| == 1 then s[0]
    else
      var best, last := Bottleneck(s[..|s| - 1]), s[|s| - 1];
      if last.bottleneckReserve < best.bottleneckReserve || (Close(last.bottleneckReserve, best.bottleneckReserve) && Less(last.nodeId, best.nodeId))
      then last else best
  }

  ghost predicate FirstLeast(s: seq<Node>, k: nat) {
    && k < |s|
    && (forall i | 0 <= i < |s| :: s[k].bottleneckReserve <= s[i].bottleneckReserve)
    && (forall i | 0 <= i < k :: s[k].bottleneckReserve < s[i].bottleneckReserve)
  }

  // Nodes are scanned by increasing identity, so closeness never decides:
  // the bottleneck is the first node of least reserve.
  lemma {:induction false} BottleneckIsFirstLeast(s: seq<Node>) returns (k: nat)
    requires s != [] && Ascending(Ids(s))
    ensures FirstLeast(s, k) && Bottleneck(s) == s[k]
  {
    hide Close, Less, FirstLeast;
    if |s| == 1 {
      k := 0;
      OnlyOne(s);
    } else {
      var front, last := s[..|s| - 1], s[|s| - 1];
      assert Ids(front) == Ids(s)[..|s| - 1];
      k := BottleneckIsFirstLeast(front);
      FirstLeastStep(s, k);
      assert Less(Ids(s)[k], Ids(s)[|s| - 1]);
      LessAsymmetric(s[k].nodeId, last.nodeId);
      k := if last.bottleneckReserve < s[k].bottleneckReserve then |s| - 1 else k;
    }
  }

  lemma OnlyOne(s: seq<Node>)
    requires |s| == 1
    ensures FirstLeast(s, 0)
  {
  }

  lemma FirstLeastStep(s: seq<Node>, k: nat)
    requires s != [] && FirstLeast(s[..|s| - 1], k)
    ensures k < |s| - 1 && s[..|s| - 1][k] == s[k]
    ensures FirstLeast(s, if s[|s| - 1].bottleneckReserve < s[k].bottleneckReserve then |s| - 1 else k)
  {
    var front := s[..|s| - 1];
    assert forall i | 0 <= i < |front| :: front[i] == s[i];
  }

  // The lowest-scored confidence, starting from a perfect one.
  function LowestConfidence(s: seq<Node>): Confidence {
    if s == [] then Confidence("certified", 1.0)
    else
      var lowest := LowestConfidence(s[..|s| - 1]);
      if s[|s| - 1].confidence.score < lowest.score then s[|s| - 1].confidence else lowest
  }

  // ---- the assessment ----

  predicate NotNegative(x: real) {
    x >= -Tolerance(x, x)
  }

  function AssessmentFrom(r: AssessmentRequest, eligible: seq<Node>, byCapacity: seq<Node>): Assessment
    requires eligible != [] && 0 <= r.failureReserveNodes <= |byCapacity|
  {
    var safe := SafeSum(eligible) - SafeSum(byCapacity[..r.failureReserveNodes]);
    var technical := TechnicalSum(eligible) - TechnicalSum(byCapacity[..r.failureReserveNodes]);
    var reserve, confidence, b := safe - r.expectedWorkload, LowestConfidence(eligible), Bottleneck(eligible);
    Assessment(TrimSpace(r.scopeId), r.requiredRole, r.workloadUnit, |eligible|, r.failureReserveNodes,
               Sum(Project(eligible, CurrentOf)), r.expectedWorkload, safe, technical, reserve,
               b.nodeId, b.bottleneckMetric, b.bottleneckTargetId, confidence,
               NotNegative(reserve) && NotNegative(b.bottleneckReserve),
               if confidence.level == "low" then CollectEvidence else if !NotNegative(reserve) then AddRoleCapacity else NoAction,
               true, false)
  }

  // A sort of the removal order: a fixed function of its input.
  ghost predicate Sorts(sorter: seq<Node> -> seq<Node>) {
    forall s :: SortOutcome(s, sorter(s))
  }

  ghost predicate Assessable(r: AssessmentRequest, nodes: seq<Node>) {
    RequestOk(r) && NodesOk(Project(nodes, TrimmedNode)) && |Eligible(nodes, r.requiredRole)| > r.failureReserveNodes
  }

  ghost function Assess(r: AssessmentRequest, nodes: seq<Node>, sorter: seq<Node> -> seq<Node>): Option<Assessment>
    requires Sorts(sorter)
  {
    if !Assessable(r, nodes) then None
    else
      var eligible := Eligible(nodes, r.requiredRole);
      SortedLength(eligible, sorter);
      Some(AssessmentFrom(r, eligible, sorter(eligible)))
  }

  lemma SortedLength(s: seq<Node>, sorter: seq<Node> -> seq<Node>)
    requires Sorts(sorter)
    ensures |sorter(s)| == |s| && SortOutcome(s, sorter(s))
  {
    hide EqualOrFar, Ordered;
    assert SortOutcome(s, sorter(s));
    assert |multiset(s)| == |s| && |multiset(sorter(s))| == |sorter(s)|;
  }

  // The validation loop, collecting healthy nodes of the role.
  method EligibleNodes(nodes: seq<Node>, role: string) returns (result: Option<seq<Node>>)
    ensures result == if NodesOk(Project(nodes, TrimmedNode)) then Some(Candidates(Project(nodes, TrimmedNode), role)) else None
  {
    hide TrimmedNode, NodeOk;
    ghost var all := Project(nodes, TrimmedNode);
    ghost var ids := Project(all, NodeKey);
    if |nodes| == 0 || |nodes| > 4096 {
      return None;
    }
    var list: seq<Node> := [];
    var seen: set<string> := {};
    assert Distinct(ids[..0]);
    hide Distinct;
    for n := 0 to |nodes|
      invariant list == Candidates(all[..n], role) && Distinct(ids[..n]) && seen == Elements(ids[..n])
      invariant forall i | 0 <= i < n :: NodeOk(all[i])
    {
      assert all[..n + 1][..n] == all[..n];
      var node := TrimmedNode(nodes[n]);
      SeenStep(ids, n);
      if !NodeOk(node) || node.nodeId in seen {
        return None;
      }
      seen := seen + {node.nodeId};
      if node.healthy && node.role == role {
        list := list + [node];
      }
    }
    assert all[..|nodes|] == all && ids[..|nodes|] == ids;
    result := Some(list);
  }

  // The aggregation loop over eligible nodes.
  method Totals(eligible: seq<Node>) returns (current: real, safe: real, technical: real, confidence: Confidence, bottleneck: Node)
    requires eligible != []
    ensures current == Sum(Project(eligible, CurrentOf)) && safe == SafeSum(eligible) && technical == TechnicalSum(eligible)
    ensures confidence == LowestConfidence(eligible) && bottleneck == Bottleneck(eligible)
  {
    hide Close, Less;
    current, safe, technical := 0.0, 0.0, 0.0;
    confidence, bottleneck := Confidence("certified", 1.0), eligible[0];
    ghost var c, s, t := Project(eligible, CurrentOf), Project(eligible, SafeOf), Project(eligible, TechnicalOf);
    SelfIsNotLess(eligible[0].nodeId);
    for n := 0 to |eligible|
      invariant current == Sum(c[..n]) && safe == Sum(s[..n]) && technical == Sum(t[..n])
      invariant confidence == LowestConfidence(eligible[..n])
      invariant bottleneck == if n == 0 then eligible[0] else Bottleneck(eligible[..n])
    {
      var node := eligible[n];
      assert eligible[..n + 1][..n] == eligible[..n];
      assert c[..n + 1][..n] == c[..n] && s[..n + 1][..n] == s[..n] && t[..n + 1][..n] == t[..n];
      current := current + node.currentWorkload;
      safe := safe + node.safeCapacity;
      technical := technical + node.technicalLimit;
      if node.confidence.score < confidence.score {
        confidence := node.confidence;
      }
      if node.bottleneckReserve < bottleneck.bottleneckReserve
         || (Close(node.bottleneckReserve, bottleneck.bottleneckReserve) && Less(node.nodeId, bottleneck.nodeId)) {
        bottleneck := node;
      }
    }
    assert eligible[..|eligible|] == eligible && c[..|eligible|] == c && s[..|eligible|] == s && t[..|eligible|] == t;
  }

  lemma SelfIsNotLess(id: string)
    ensures !Less(id, id)
  {
    if Less(id, id) {
      LessAsymmetric(id, id);
    }
  }

  method BuildAssessment(request: AssessmentRequest, nodes: seq<Node>, sorter: seq<Node> -> seq<Node>) returns (result: Option<Assessment>)
    requires Sorts(sorter)
    ensures result == Assess(request, nodes, sorter)
  {
    hide RequestOk, NodesOk, Sort, SafeSum, TechnicalSum, LowestConfidence, Bottleneck, Candidates, Sorts, SortOutcome, Tolerance;
    if !RequestOk(request) {
      return None;
    }
    FailureReserveRange(request);
    var candidates := EligibleNodes(nodes, request.requiredRole);
    if candidates.None? {
      return None;
    }
    SortMultiset(candidates.value, NodeLess);
    if |candidates.value| <= request.failureReserveNodes {
      return None;
    }
    var eligible := Sort(candidates.value, NodeLess);
    var current, safe, technical, confidence, bottleneck := Totals(eligible);
    var byCapacity := sorter(eligible);
    SortedLength(eligible, sorter);
    var n := request.failureReserveNodes;
    ghost var safe0, technical0 := safe, technical;
    ghost var s, t := Project(byCapacity, SafeOf), Project(byCapacity, TechnicalOf);
    for i := 0 to n
      invariant safe == safe0 - Sum(s[..i]) && technical == technical0 - Sum(t[..i])
    {
      assert s[..i + 1][..i] == s[..i] && t[..i + 1][..i] == t[..i];
      safe := safe - byCapacity[i].safeCapacity;
      technical := technical - byCapacity[i].technicalLimit;
    }
    PrefixSums(byCapacity, n);
    var reserve := safe - request.expectedWorkload;
    var action := NoAction;
    if confidence.level == "low" {
      action := CollectEvidence;
    } else if reserve < -Tolerance(reserve, reserve) {
      action := AddRoleCapacity;
    }
    result := Some(Assessment(TrimSpace(request.scopeId), request.requiredRole, request.workloadUnit, |eligible|, n, current,
                              request.expectedWorkload, safe, technical, reserve, bottleneck.nodeId, bottleneck.bottleneckMetric,
                              bottleneck.bottleneckTargetId, confidence,
                              NotNegative(reserve) && NotNegative(bottleneck.bottleneckReserve), action, true, false));
  }

  lemma FailureReserveRange(r: AssessmentRequest)
    requires RequestOk(r)
    ensures 0 <= r.failureReserveNodes <= 16
  {
  }

  lemma PrefixSums(s: seq<Node>, n: nat)
    requires n <= |s|
    ensures Sum(Project(s, SafeOf)[..n]) == SafeSum(s[..n]) && Sum(Project(s, TechnicalOf)[..n]) == TechnicalSum(s[..n])
  {
    assert Project(s, SafeOf)[..n] == Project(s[..n], SafeOf);
    assert Project(s, TechnicalOf)[..n] == Project(s[..n], TechnicalOf);
  }

  // ---- what the verdict guarantees ----

  lemma EligibleNodesAreOk(nodes: seq<Node>, role: string)
    requires NodesOk(Project(nodes, TrimmedNode))
    ensures var e := Eligible(nodes, role);
      && Ascending(Ids(e))
      && forall i | 0 <= i < |e| :: NodeOk(e[i]) && e[i].healthy && e[i].role == role
  {
    hide NodeOk, TrimmedNode;
    var all := Project(nodes, TrimmedNode);
    var c := Candidates(all, role);
    CandidatesKept(all, role);
    SortMultiset(c, NodeLess);
    var e := Eligible(nodes, role);
    forall i | 0 <= i < |e| ensures NodeOk(e[i]) && e[i].healthy && e[i].role == role {
      SortElements(c, NodeLess, e[i]);
      assert e[i] in c;
    }
    SameIds(c, e);
    NodeOrderIsWeak();
    SortOrdered(c, NodeLess);
    forall i, j | 0 <= i < j < |e| ensures Less(Ids(e)[i], Ids(e)[j]) {
      assert !NodeLess(e[j], e[i]) && Ids(e)[i] != Ids(e)[j];
      LessTotal(e[i].nodeId, e[j].nodeId);
    }
  }

  lemma NodeOrderIsWeak()
    ensures WeakOrder(NodeLess)
  {
    LessIsWeakOrder();
    forall a, b | NodeLess(a, b) ensures !NodeLess(b, a) {
      LessAsymmetric(a.nodeId, b.nodeId);
    }
    forall a, b, c | NodeLess(a, b) ensures NodeLess(a, c) || NodeLess(c, b) {
      assert Less(a.nodeId, b.nodeId);
    }
  }

  lemma {:induction false} CandidatesKept(s: seq<Node>, role: string)
    requires Distinct(Project(s, NodeKey))
    ensures Distinct(Ids(Candidates(s, role)))
    ensures forall x | x in Candidates(s, role) :: x in s && x.healthy && x.role == role
  {
    if s != [] {
      var front, last := s[..|s| - 1], s[|s| - 1];
      assert Project(front, NodeKey) == Project(s, NodeKey)[..|s| - 1];
      CandidatesKept(front, role);
      var c := Candidates(front, role);
      forall i | 0 <= i < |c| ensures c[i].nodeId != last.nodeId {
        assert c[i] in front;
        var k :| 0 <= k < |front| && front[k] == c[i];
        assert Project(s, NodeKey)[k] != Project(s, NodeKey)[|s| - 1];
      }
    }
  }

  lemma {:induction false} PositiveSums(s: seq<Node>)
    requires forall i | 0 <= i < |s| :: 0.0 < s[i].safeCapacity < s[i].technicalLimit
    ensures 0.0 <= SafeSum(s) <= TechnicalSum(s) && (s != [] ==> 0.0 < SafeSum(s) < TechnicalSum(s))
  {
    if s != [] {
      var front := s[..|s| - 1];
      PositiveSums(front);
      assert Project(s, SafeOf) == Project(front, SafeOf) + [s[|s| - 1].safeCapacity];
      assert Project(s, TechnicalOf) == Project(front, TechnicalOf) + [s[|s| - 1].technicalLimit];
    } else {
      assert Project(s, SafeOf) == [] && Project(s, TechnicalOf) == [];
    }
  }

  lemma FewerRemovedLeavesMore(s: seq<Node>, n: nat, m: nat)
    requires n <= m <= |s| && forall i | 0 <= i < |s| :: 0.0 < s[i].safeCapacity < s[i].technicalLimit
    ensures SafeSum(s[m..]) <= SafeSum(s[n..])
  {
    hide Sum;
    assert s[n..] == s[n..m] + s[m..];
    assert Project(s[n..], SafeOf) == Project(s[n..m], SafeOf) + Project(s[m..], SafeOf);
    SumAppend(Project(s[n..m], SafeOf), Project(s[m..], SafeOf));
    PositiveSums(s[n..m]);
  }

  lemma NodeCapacities(n: Node)
    requires NodeOk(n)
    ensures 0.0 < n.safeCapacity < n.technicalLimit
  {
  }

  lemma ReserveMonotone(x: real, y: real)
    requires x <= y
    ensures NotNegative(x) ==> NotNegative(y)
  {
  }

  lemma SortedCapacities(nodes: seq<Node>, role: string, sorter: seq<Node> -> seq<Node>)
    requires NodesOk(Project(nodes, TrimmedNode)) && Sorts(sorter)
    ensures var e := Eligible(nodes, role);
      var p := sorter(e);
      && multiset(e) == multiset(p) && |p| == |e|
      && forall i | 0 <= i < |p| :: 0.0 < p[i].safeCapacity < p[i].technicalLimit
  {
    hide Eligible, NodesOk, Sorts, NodeOk, Consistent, Ordered, CapacityLess, Ascending;
    var e := Eligible(nodes, role);
    var p := sorter(e);
    EligibleNodesAreOk(nodes, role);
    SortedLength(e, sorter);
    forall i | 0 <= i < |p| ensures 0.0 < p[i].safeCapacity < p[i].technicalLimit {
      assert p[i] in multiset(e);
      NodeCapacities(p[i]);
    }
  }

  // Whatever the sort leaves: an assessment that is safe stays safe with fewer
  // failures to survive and with less expected workload, and what survives
  // is below its technical limit.
  lemma SafeIsAntitone(r: AssessmentRequest, r': AssessmentRequest, nodes: seq<Node>, sorter: seq<Node> -> seq<Node>)
    requires Sorts(sorter) && Assess(r, nodes, sorter).Some? && RequestOk(r')
    requires r'.requiredRole == r.requiredRole
    requires r'.failureReserveNodes <= r.failureReserveNodes && r'.expectedWorkload <= r.expectedWorkload
    ensures Assess(r', nodes, sorter).Some?
    ensures Assess(r', nodes, sorter).value.safeCapacity >= Assess(r, nodes, sorter).value.safeCapacity > 0.0
    ensures Assess(r, nodes, sorter).value.safe ==> Assess(r', nodes, sorter).value.safe
    ensures Assess(r, nodes, sorter).value.safeCapacity < Assess(r, nodes, sorter).value.technicalLimit
  {
    hide Eligible, NodesOk, SafeSum, TechnicalSum, NotNegative, Bottleneck, LowestConfidence, Sorts, EqualOrFar, NodeOk, Consistent, Ordered, CapacityLess, Distinct, Ascending;
    var e := Eligible(nodes, r.requiredRole);
    var p := sorter(e);
    FailureReserveRange(r);
    FailureReserveRange(r');
    SortedCapacities(nodes, r.requiredRole, sorter);
    var n, n' := r.failureReserveNodes, r'.failureReserveNodes;
    SafeRemaining(e, p, n);
    SafeRemaining(e, p, n');
    FewerRemovedLeavesMore(p, n', n);
    PositiveSums(p[n..]);
    ReserveMonotone(SafeSum(p[n..]) - r.expectedWorkload, SafeSum(p[n'..]) - r'.expectedWorkload);
  }

  // Safe means: enough capacity after the reserved failures, and no eligible
  // node short of its own reserve.
  lemma SafeVerdictMeans(r: AssessmentRequest, nodes: seq<Node>, sorter: seq<Node> -> seq<Node>)
    requires Sorts(sorter) && Assess(r, nodes, sorter).Some?
    ensures var a, e := Assess(r, nodes, sorter).value, Eligible(nodes, r.requiredRole);
      a.safe <==> NotNegative(a.safeCapacity - r.expectedWorkload) && forall i | 0 <= i < |e| :: NotNegative(e[i].bottleneckReserve)
  {
    hide Eligible, NodesOk, SafeSum, TechnicalSum, NotNegative, Bottleneck, LowestConfidence, Sorts, EqualOrFar, NodeOk, Consistent, Ordered, CapacityLess, Distinct, Ascending;
    var e := Eligible(nodes, r.requiredRole);
    FailureReserveRange(r);
    EligibleNodesAreOk(nodes, r.requiredRole);
    var k := BottleneckIsFirstLeast(e);
    forall i | 0 <= i < |e| ensures NotNegative(e[k].bottleneckReserve) ==> NotNegative(e[i].bottleneckReserve) {
      ReserveMonotone(e[k].bottleneckReserve, e[i].bottleneckReserve);
    }
  }

  // With capacities equal or far apart, the assessed safe capacity is what
  // the worst choice of failed nodes leaves, and some choice leaves just that.
  lemma AssessedCapacityIsWorstCase(r: AssessmentRequest, nodes: seq<Node>, sorter: seq<Node> -> seq<Node>)
    requires Sorts(sorter) && Assess(r, nodes, sorter).Some? && EqualOrFar(Eligible(nodes, r.requiredRole))
    ensures var a, e := Assess(r, nodes, sorter).value, Eligible(nodes, r.requiredRole);
      && (forall failed | Choice(e, r.failureReserveNodes, failed) :: a.safeCapacity <= Surviving(e, failed))
      && (exists failed | Choice(e, r.failureReserveNodes, failed) :: a.safeCapacity == Surviving(e, failed))
  {
    hide Eligible, NodesOk, SafeSum, TechnicalSum, NotNegative, Bottleneck, LowestConfidence, Sorts, EqualOrFar, NodeOk, Consistent, Ordered, CapacityLess, Distinct, Ascending, Surviving;
    var e, n := Eligible(nodes, r.requiredRole), r.failureReserveNodes;
    var p := sorter(e);
    FailureReserveRange(r);
    EligibleNodesAreOk(nodes, r.requiredRole);
    AscendingDistinct(Ids(e));
    SortedLength(e, sorter);
    forall i | 0 <= i < |e| ensures Finite(e[i].safeCapacity) {
      NodeFinite(e[i]);
    }
    forall failed | Choice(e, n, failed) ensures SafeSum(e) - SafeSum(p[..n]) <= Surviving(e, failed) {
      SafeCapacityIsWorstCase(e, p, n, failed);
    }
    SameIds(e, p);
    RemovedIsAChoice(p, n);
    SurvivingPermuted(e, p, Elements(Ids(p[..n])));
    SafeRemaining(e, p, n);
  }

  lemma EligibleFacts(nodes: seq<Node>, role: string)
    requires NodesOk(Project(nodes, TrimmedNode))
    ensures var e := Eligible(nodes, role); Distinct(Ids(e)) && forall i | 0 <= i < |e| :: Finite(e[i].safeCapacity)
  {
    hide NodesOk, Eligible, NodeOk, Finite;
    var e := Eligible(nodes, role);
    EligibleNodesAreOk(nodes, role);
    AscendingDistinct(Ids(e));
    forall i | 0 <= i < |e| ensures Finite(e[i].safeCapacity) {
      NodeFinite(e[i]);
    }
  }

  // Where the comparison is consistent on the eligible nodes, every sort gives
  // the same figure, and it is the worst case exactly if no larger node is
  // kept in place of a close one that is removed.
  lemma AssessedWorstCaseExactly(r: AssessmentRequest, nodes: seq<Node>, sorter: seq<Node> -> seq<Node>)
    requires Sorts(sorter) && Assess(r, nodes, sorter).Some? && Consistent(Eligible(nodes, r.requiredRole))
    ensures var a, e := Assess(r, nodes, sorter).value, Eligible(nodes, r.requiredRole);
      IsWorstCase(e, r.failureReserveNodes, a.safeCapacity) <==> NothingHidden(e, r.failureReserveNodes)
  {
    hide Eligible, NodesOk, SafeSum, TechnicalSum, NotNegative, Bottleneck, LowestConfidence, Sorts, Consistent, IsWorstCase, NothingHidden, Dominates, Distinct, Finite;
    var e, n := Eligible(nodes, r.requiredRole), r.failureReserveNodes;
    FailureReserveRange(r);
    EligibleFacts(nodes, r.requiredRole);
    SortedLength(e, sorter);
    FigureIsWorstCase(e, sorter(e), n);
    DominatesByRank(e, sorter(e), n);
  }

  // A caller can decide it from the request: the figure is the worst case
  // whatever the sort does exactly if no failure is reserved for, or the
  // comparison is consistent on the eligible nodes and hides no pair.
  lemma WorstCaseWhateverTheSort(r: AssessmentRequest, nodes: seq<Node>)
    requires Assessable(r, nodes)
    ensures var e, n := Eligible(nodes, r.requiredRole), r.failureReserveNodes;
      (forall sorter | Sorts(sorter) :: IsWorstCase(e, n, Assess(r, nodes, sorter).value.safeCapacity))
      <==> n == 0 || (Consistent(e) && NothingHidden(e, n))
  {
    hide Eligible, NodesOk, SafeSum, TechnicalSum, NotNegative, Bottleneck, LowestConfidence, Sorts, Consistent, IsWorstCase, NothingHidden, Dominates, Distinct, Finite;
    FailureReserveRange(r);
    var e, n := Eligible(nodes, r.requiredRole), r.failureReserveNodes;
    EligibleFacts(nodes, r.requiredRole);
    if n == 0 {
      forall sorter | Sorts(sorter) ensures IsWorstCase(e, n, Assess(r, nodes, sorter).value.safeCapacity) {
        SortedLength(e, sorter);
        FigureIsWorstCase(e, sorter(e), n);
        NothingRemoved(sorter(e));
      }
    } else if Consistent(e) {
      InsertionSortSorts();
      forall sorter | Sorts(sorter)
        ensures IsWorstCase(e, n, Assess(r, nodes, sorter).value.safeCapacity) <==> NothingHidden(e, n)
      {
        AssessedWorstCaseExactly(r, nodes, sorter);
      }
    } else {
      var p := BadArrangement(e, n);
      var bad := SortWith(e, p);
      SortWithSorts(e, p);
      assert bad(e) == p;
      SortedLength(e, bad);
      FigureIsWorstCase(e, p, n);
    }
  }

  lemma NothingRemoved(p: seq<Node>)
    ensures Dominates(p, 0)
  {
  }

  function SortWith(e: seq<Node>, p: seq<Node>): seq<Node> -> seq<Node> {
    (s: seq<Node>) => if s == e then p else Sort(s, CapacityLess)
  }

  lemma SortWithSorts(e: seq<Node>, p: seq<Node>)
    requires SortOutcome(e, p)
    ensures Sorts(SortWith(e, p))
  {
    hide CapacityLess, Sort, Consistent, Ordered;
    forall s ensures SortOutcome(s, SortWith(e, p)(s)) {
      InsertionSortOutcome(s);
    }
  }

  lemma InsertionSortOutcome(s: seq<Node>)
    ensures SortOutcome(s, Sort(s, CapacityLess))
  {
    hide CapacityLess;
    SortMultiset(s, CapacityLess);
    if Consistent(s) {
      SortOrderedOn(s, CapacityLess, Elements(s));
    }
  }

  // There are sorts of this kind.
  lemma InsertionSortSorts()
    ensures Sorts((s: seq<Node>) => Sort(s, CapacityLess))
  {
    hide CapacityLess, Sort, Consistent, Ordered;
    var sorter := (s: seq<Node>) => Sort(s, CapacityLess);
    forall s ensures SortOutcome(s, sorter(s)) {
      InsertionSortOutcome(s);
    }
  }

  // An inconsistent comparison leaves room for an arrangement that removes a
  // smaller node first and keeps a larger one last.
  lemma BadArrangement(e: seq<Node>, n: nat) returns (p: seq<Node>)
    requires !Consistent(e) && 0 < n < |e| && forall i | 0 <= i < |e| :: Finite(e[i].safeCapacity)
    ensures SortOutcome(e, p) && |p| == |e| && !Dominates(p, n)
  {
    hide Consistent, Finite;
    var i, j := DifferentCapacities(e);
    p := Rearranged(e, i, j);
    assert p[0].safeCapacity < p[|p| - 1].safeCapacity;
  }

  lemma DifferentCapacities(e: seq<Node>) returns (i: nat, j: nat)
    requires !Consistent(e) && forall i | 0 <= i < |e| :: Finite(e[i].safeCapacity)
    ensures i < |e| && j < |e| && e[i].safeCapacity < e[j].safeCapacity
  {
    hide Consistent, Finite, Close;
    if EqualOrFar(e) {
      EqualOrFarIsConsistent(e);
      assert false;
    }
    i, j :| 0 <= i < |e| && 0 <= j < |e| && e[i].safeCapacity != e[j].safeCapacity;
    if e[j].safeCapacity < e[i].safeCapacity {
      i, j := j, i;
    }
  }

  lemma Rearranged(e: seq<Node>, i: nat, j: nat) returns (p: seq<Node>)
    requires i < |e| && j < |e| && i != j
    ensures multiset(p) == multiset(e) && |p| == |e| && p[0] == e[i] && p[|p| - 1] == e[j]
  {
    var rest := e[..i] + e[i + 1..];
    var k := if j < i then j else j - 1;
    var back := rest[..k] + rest[k + 1..] + [rest[k]];
    p := [e[i]] + back;
    ToFront(e, i);
    ToBack(rest, k);
    SameTail(e[i], back, rest);
  }

  lemma ToFront<T>(s: seq<T>, i: nat)
    requires i < |s|
    ensures multiset([s[i]] + (s[..i] + s[i + 1..])) == multiset(s)
  {
    RemoveAt(s, i);
    assert s[i] in multiset(s);
  }

  lemma ToBack<T>(s: seq<T>, i: nat)
    requires i < |s|
    ensures multiset(s[..i] + s[i + 1..] + [s[i]]) == multiset(s)
  {
    RemoveAt(s, i);
    assert s[i] in multiset(s);
  }

  lemma SameTail<T>(x: T, s: seq<T>, t: seq<T>)
    requires multiset(s) == multiset(t)
    ensures multiset([x] + s) == multiset([x] + t)
  {
  }

  // ---- a request whose figure is not the worst case ----

  const WORKER := "worker-node"

  function Worker(id: string, safe: real): Node {
    Node(id, WORKER, true, 0.0, safe, 200.0, Confidence("high", 0.8), "cpu.utilization", "t", 1.0)
  }

  const CLOSE_NODES := [Worker("a", 100.0), Worker("b", 100.00000005)]

  const CLOSE_REQUEST := AssessmentRequest("s", WORKER, "devices", 1, 0.0)

  lemma TrimOne(s: string)
    requires s != [] && !IsSpace(s[0]) && !IsSpace(s[|s| - 1])
    ensures TrimSpace(s) == s
  {
  }

  lemma WorkerOk(id: string, safe: real)
    requires (id == "a" || id == "b") && 0.0 < safe < 200.0
    ensures NodeOk(Worker(id, safe)) && TrimmedNode(Worker(id, safe)) == Worker(id, safe)
  {
    TrimOne(id);
    TrimOne("t");
    TrimOne("high");
    assert ToLower("high") == "high";
    hide TrimSpace, ToLower;
  }

  lemma CloseRequestOk()
    ensures RequestOk(CLOSE_REQUEST)
  {
    TrimOne("s");
    hide TrimSpace;
  }

  lemma CloseEligible()
    ensures NodesOk(Project(CLOSE_NODES, TrimmedNode)) && Eligible(CLOSE_NODES, WORKER) == CLOSE_NODES
  {
    var a, b := CLOSE_NODES[0], CLOSE_NODES[1];
    WorkerOk("a", 100.0);
    WorkerOk("b", 100.00000005);
    hide NodeOk, TrimmedNode;
    assert Project(CLOSE_NODES, TrimmedNode) == CLOSE_NODES;
    assert Project(CLOSE_NODES, NodeKey) == ["a", "b"];
    CandidatesOfTwo(a, b);
    assert Less("a", "b") && !Less("b", "a");
    SortFixed(CLOSE_NODES, NodeLess);
  }

  lemma CandidatesOfTwo(a: Node, b: Node)
    requires a.healthy && b.healthy && a.role == b.role == WORKER
    ensures Candidates([a, b], WORKER) == [a, b]
  {
    assert [a, b][..1] == [a] && [a][..0] == [];
    assert Candidates([], WORKER) == [];
    assert Candidates([a], WORKER) == [a];
  }

  lemma CloseOrder()
    ensures CapacityLess(CLOSE_NODES[0], CLOSE_NODES[1]) && !CapacityLess(CLOSE_NODES[1], CLOSE_NODES[0])
    ensures forall i | 0 <= i < 2 :: !CapacityLess(CLOSE_NODES[i], CLOSE_NODES[i])
  {
    assert Close(100.0, 100.00000005) && Close(100.00000005, 100.0);
    assert Less("a", "b") && !Less("b", "a");
    SelfIsNotLess("a");
    SelfIsNotLess("b");
  }

  lemma CloseIsConsistent()
    ensures Consistent(CLOSE_NODES)
  {
    CloseOrder();
    hide CapacityLess;
    assert forall x | x in Elements(CLOSE_NODES) :: x == CLOSE_NODES[0] || x == CLOSE_NODES[1];
  }

  lemma SumOne(x: real)
    ensures Sum([x]) == x
  {
    assert [x][..0] == [];
  }

  lemma SumTwo(x: real, y: real)
    ensures Sum([x, y]) == x + y
  {
    SumOne(x);
    assert [x, y][..1] == [x];
  }

  // With one failure reserved for, the node that comes first by name is
  // removed although the other, within the tolerance, is larger: whatever the
  // sort, the figure is more than losing that other one would leave.
  lemma CloseCapacitiesHideTheWorstCase(sorter: seq<Node> -> seq<Node>)
    requires Sorts(sorter)
    ensures Assess(CLOSE_REQUEST, CLOSE_NODES, sorter).Some?
    ensures Assess(CLOSE_REQUEST, CLOSE_NODES, sorter).value.safeCapacity == 100.00000005
    ensures var e := Eligible(CLOSE_NODES, WORKER); Choice(e, 1, {"b"}) && Surviving(e, {"b"}) == 100.0
  {
    hide Sorts, NodesOk, RequestOk, Eligible, Consistent, NotNegative, Bottleneck, LowestConfidence, Sum, CapacityLess;
    CloseRequestOk();
    CloseEligible();
    CloseIsConsistent();
    var p := sorter(CLOSE_NODES);
    SortedLength(CLOSE_NODES, sorter);
    CloseSorted(p);
    assert Project(CLOSE_NODES, SafeOf) == [100.0, 100.00000005] && Project(CLOSE_NODES[..1], SafeOf) == [100.0];
    SumTwo(100.0, 100.00000005);
    SumOne(100.0);
    assert Project(CLOSE_NODES, Contribution({"b"})) == [100.0, 0.0];
    SumTwo(100.0, 0.0);
    assert Ids(CLOSE_NODES) == ["a", "b"];
  }

  lemma CloseSorted(p: seq<Node>)
    requires multiset(p) == multiset(CLOSE_NODES) && Ordered(p, CapacityLess)
    ensures p == CLOSE_NODES
  {
    CloseOrder();
    hide CapacityLess;
    assert Ordered(CLOSE_NODES, CapacityLess) && Separates(CLOSE_NODES, CapacityLess);
    OrderedUnique(CLOSE_NODES, p, CapacityLess);
  }

  lemma NodeFinite(n: Node)
    requires NodeOk(n)
    ensures Finite(n.safeCapacity)
  {
  }
}
