// The synthetic agent load harness (internal/loadtest/harness.go).
module LoadHarness {
  import opened Arithmetic
  import opened Options

  datatype Config = Config(agentCount: int, rounds: int, batchSize: int, restartEvery: int, dropEvery: int)

  datatype Confidence = Medium | High | Certified

  datatype Baseline = Baseline(agents: int, rounds: int, acceptedPerRound: real, peakBatch: int, confidence: Confidence, synthetic: bool)

  datatype Counters = Counters(offered: nat, accepted: nat, dropped: nat, acceptedResults: nat, rejectedStale: nat, restarts: nat, falseSuccesses: nat)

  datatype Report = Report(counters: Counters, baseline: Baseline, sideEffectFree: bool, productionTraffic: bool)

  predicate ValidConfig(c: Config) {
    && 1 <= c.agentCount <= 100_000 && 1 <= c.rounds <= 10_000
    && 1 <= c.batchSize <= c.agentCount && c.restartEvery >= 0 && c.dropEvery >= 0
  }

  // ---- the simulation without batches ----

  // The part of a configuration that can influence the counters.
  datatype Load = Load(agents: nat, restartEvery: nat, dropEvery: nat)

  datatype State = State(epoch: nat, agentEpoch: seq<nat>, counters: Counters)

  function Zero(): Counters {
    Counters(0, 0, 0, 0, 0, 0, 0)
  }

  predicate Drops(l: Load, ordinal: nat) {
    l.dropEvery > 0 && ordinal % l.dropEvery == 0
  }

  // One heartbeat of one agent. Every heartbeat so far was offered, so the
  // next ordinal is one more than that.
  function Beat(l: Load, s: State, agent: nat): State
    requires agent < |s.agentEpoch|
  {
    var c := s.counters.(offered := s.counters.offered + 1);
    if Drops(l, c.offered) then s.(counters := c.(dropped := c.dropped + 1))
    else
      var c := c.(accepted := c.accepted + 1);
      if s.agentEpoch[agent] != s.epoch then
        s.(agentEpoch := s.agentEpoch[agent := s.epoch], counters := c.(rejectedStale := c.rejectedStale + 1))
      else s.(counters := c.(acceptedResults := c.acceptedResults + 1))
  }

  // The first n agents of a round, one after the other.
  function Beats(l: Load, s: State, n: nat): (r: State)
    requires n <= |s.agentEpoch|
    ensures |r.agentEpoch| == |s.agentEpoch|
  {
    if n == 0 then s else Beat(l, Beats(l, s, n - 1), n - 1)
  }

  predicate RestartsAt(l: Load, round: nat) {
    l.restartEvery > 0 && round > 1 && (round - 1) % l.restartEvery == 0
  }

  function StartRound(l: Load, s: State, round: nat): State {
    if RestartsAt(l, round) then s.(epoch := s.epoch + 1, counters := s.counters.(restarts := s.counters.restarts + 1)) else s
  }

  function Rounds(l: Load, n: nat): (r: State)
    ensures |r.agentEpoch| == l.agents
  {
    if n == 0 then State(1, seq(l.agents, i => 1), Zero())
    else Beats(l, StartRound(l, Rounds(l, n - 1), n), l.agents)
  }

  function ConfidenceFor(samples: nat): Confidence {
    if samples >= 100_000 then Certified else if samples >= 10_000 then High else Medium
  }

  lemma WhenToAct(l: Load, round: nat, ordinal: nat)
    ensures RestartsAt(l, round) <==> l.restartEvery > 0 && round > 1 && (round - 1) % l.restartEvery == 0
    ensures Drops(l, ordinal) <==> l.dropEvery > 0 && ordinal % l.dropEvery == 0
  {
  }

  lemma BeatsUnfold(l: Load, s: State, n: nat)
    requires n <= |s.agentEpoch|
    ensures Beats(l, s, n) == if n == 0 then s else Beat(l, Beats(l, s, n - 1), n - 1)
  {
  }

  lemma RoundsUnfold(l: Load, n: nat)
    ensures Rounds(l, n) ==
      if n == 0 then State(1, seq(l.agents, i => 1), Zero()) else Beats(l, StartRound(l, Rounds(l, n - 1), n), l.agents)
  {
  }

  // ---- the three nested loops ----

  method Run(config: Config) returns (report: Option<Report>)
    ensures report.Some? <==> ValidConfig(config)
    // No mention of the batch size: the counters do not depend on it.
    ensures report.Some? ==>
      && report.value.counters == Rounds(Load(config.agentCount, config.restartEvery, config.dropEvery), config.rounds).counters
      && report.value.baseline == Baseline(config.agentCount, config.rounds,
                                           report.value.counters.accepted as real / config.rounds as real, config.batchSize,
                                           ConfidenceFor(report.value.counters.accepted), true)
      && report.value.sideEffectFree && !report.value.productionTraffic
  {
    hide Rounds, Beats, Drops, RestartsAt;
    if !ValidConfig(config) {
      return None;
    }
    ghost var l := Load(config.agentCount, config.restartEvery, config.dropEvery);
    var controllerEpoch := 1;
    var agentEpoch := new nat[config.agentCount](i => 1);
    var c := Zero();
    var ordinal := 0;
    assert agentEpoch[..] == seq(l.agents, i => 1);
    RoundsUnfold(l, 0);
    for round := 1 to config.rounds + 1
      invariant State(controllerEpoch, agentEpoch[..], c) == Rounds(l, round - 1)
      invariant ordinal == c.offered
    {
      RoundsUnfold(l, round);
      WhenToAct(l, round, 0);
      if config.restartEvery > 0 && round > 1 && (round - 1) % config.restartEvery == 0 {
        controllerEpoch := controllerEpoch + 1;
        c := c.(restarts := c.restarts + 1);
      }
      ghost var atStart := StartRound(l, Rounds(l, round - 1), round);
      assert State(controllerEpoch, agentEpoch[..], c) == atStart;
      BeatsUnfold(l, atStart, 0);
      var start := 0;
      while start < config.agentCount
        invariant 0 <= start
        invariant State(controllerEpoch, agentEpoch[..], c)
          == Beats(l, atStart, if start < config.agentCount then start else config.agentCount)
        invariant ordinal == c.offered
        decreases config.agentCount - start
      {
        var end := start + config.batchSize;
        if end > config.agentCount {
          end := config.agentCount;
        }
        for agentId := start to end
          invariant State(controllerEpoch, agentEpoch[..], c) == Beats(l, atStart, agentId)
          invariant ordinal == c.offered
        {
          ghost var before := Beats(l, atStart, agentId);
          BeatsUnfold(l, atStart, agentId + 1);
          assert before.agentEpoch[agentId] == agentEpoch[agentId];
          ordinal := ordinal + 1;
          WhenToAct(l, 0, ordinal);
          c := c.(offered := c.offered + 1);
          if config.dropEvery > 0 && ordinal % config.dropEvery == 0 {
            c := c.(dropped := c.dropped + 1);
            continue;
          }
          c := c.(accepted := c.accepted + 1);
          if agentEpoch[agentId] != controllerEpoch {
            c := c.(rejectedStale := c.rejectedStale + 1);
            agentEpoch[agentId] := controllerEpoch;
            assert agentEpoch[..] == before.agentEpoch[agentId := controllerEpoch];
            continue;
          }
          c := c.(acceptedResults := c.acceptedResults + 1);
        }
        start := start + config.batchSize;
      }
    }
    var baseline := Baseline(config.agentCount, config.rounds, c.accepted as real / config.rounds as real, config.batchSize,
                             ConfidenceFor(c.accepted), true);
    report := Some(Report(c, baseline, true, false));
  }

  // ---- what the counters add up to ----

  // Agents that rebound to a newer controller epoch, counted over all agents.
  function Rebinds(epochs: seq<nat>): int {
    if epochs == [] then 0 else Rebinds(epochs[..|epochs| - 1]) + epochs[|epochs| - 1] - 1
  }

  lemma {:induction false} RebindsUpdate(epochs: seq<nat>, i: nat, v: nat)
    requires i < |epochs|
    ensures Rebinds(epochs[i := v]) == Rebinds(epochs) - epochs[i] + v
  {
    var front := epochs[..|epochs| - 1];
    if i < |front| {
      RebindsUpdate(front, i, v);
      assert epochs[i := v][..|epochs| - 1] == front[i := v];
    } else {
      assert epochs[i := v][..|epochs| - 1] == front;
    }
  }

  lemma {:induction false} RebindsBound(epochs: seq<nat>, epoch: nat)
    requires forall i | 0 <= i < |epochs| :: 1 <= epochs[i] <= epoch
    ensures 0 <= Rebinds(epochs) <= |epochs| * (epoch - 1)
    ensures (forall i | 0 <= i < |epochs| :: epochs[i] == epoch) ==> Rebinds(epochs) == |epochs| * (epoch - 1)
  {
    if epochs != [] {
      var front := epochs[..|epochs| - 1];
      RebindsBound(front, epoch);
      MulSuccessor(|front|, epoch - 1);
    }
  }

  function DroppedBy(l: Load, ordinal: nat): nat {
    if l.dropEvery == 0 then 0 else ordinal / l.dropEvery
  }

  function RestartsBy(l: Load, round: nat): nat {
    if l.restartEvery == 0 || round == 0 then 0 else (round - 1) / l.restartEvery
  }

  // What holds after every heartbeat.
  ghost predicate Balanced(l: Load, s: State) {
    var c := s.counters;
    && c.offered == c.accepted + c.dropped
    && c.accepted == c.acceptedResults + c.rejectedStale
    && c.dropped == DroppedBy(l, c.offered)
    && s.epoch == 1 + c.restarts
    && c.falseSuccesses == 0
    && (forall i | 0 <= i < |s.agentEpoch| :: 1 <= s.agentEpoch[i] <= s.epoch)
    && c.rejectedStale <= Rebinds(s.agentEpoch)
  }

  lemma BeatBalanced(l: Load, s: State, agent: nat)
    requires Balanced(l, s) && agent < |s.agentEpoch|
    ensures Balanced(l, Beat(l, s, agent))
  {
    if l.dropEvery > 0 {
      DivideStep(s.counters.offered, l.dropEvery);
    }
    if s.agentEpoch[agent] != s.epoch {
      RebindsUpdate(s.agentEpoch, agent, s.epoch);
    }
  }

  lemma {:induction false} BeatsBalanced(l: Load, s: State, n: nat)
    requires Balanced(l, s) && n <= |s.agentEpoch|
    ensures Balanced(l, Beats(l, s, n))
    ensures Beats(l, s, n).counters.offered == s.counters.offered + n
    ensures Beats(l, s, n).counters.restarts == s.counters.restarts
  {
    hide Balanced;
    if n > 0 {
      BeatsBalanced(l, s, n - 1);
      BeatBalanced(l, Beats(l, s, n - 1), n - 1);
    }
  }

  lemma {:induction false} InitialRebinds(n: nat)
    ensures Rebinds(seq(n, i => 1)) == 0
  {
    if n > 0 {
      InitialRebinds(n - 1);
      assert seq(n, i => 1)[..n - 1] == seq(n - 1, i => 1);
    }
  }

  lemma {:induction false} RoundsBalanced(l: Load, n: nat)
    ensures Balanced(l, Rounds(l, n))
    ensures Rounds(l, n).counters.offered == l.agents * n
    ensures Rounds(l, n).counters.restarts == RestartsBy(l, n)
  {
    if n == 0 {
      InitialRebinds(l.agents);
    } else {
      RoundsBalanced(l, n - 1);
      var s := Rounds(l, n - 1);
      if l.restartEvery > 0 && n > 1 {
        DivideStep(n - 2, l.restartEvery);
      }
      if n == 1 && l.restartEvery > 0 {
        DivideUnique(0, l.restartEvery, 0, 0);
      }
      assert Balanced(l, StartRound(l, s, n));
      BeatsBalanced(l, StartRound(l, s, n), l.agents);
      MulSuccessor(n - 1, l.agents);
    }
  }

  // After every number of rounds: offered = agents x rounds = accepted +
  // dropped, accepted = results + stale rejections, the closed forms of drops
  // and restarts, and at most one stale rejection per agent and restart.
  lemma CountersAddUp(l: Load, n: nat)
    ensures var c := Rounds(l, n).counters;
      && c.offered == l.agents * n == c.accepted + c.dropped
      && c.accepted == c.acceptedResults + c.rejectedStale
      && c.dropped == DroppedBy(l, l.agents * n)
      && c.restarts == RestartsBy(l, n)
      && c.rejectedStale <= c.restarts * l.agents
      && c.falseSuccesses == 0
  {
    hide Rounds, Rebinds, DroppedBy, RestartsBy;
    RoundsBalanced(l, n);
    var s := Rounds(l, n);
    RebindsBound(s.agentEpoch, s.epoch);
    assert |s.agentEpoch| * (s.epoch - 1) == s.counters.restarts * l.agents;
  }

  // Supported configurations stay far below the 64-bit counters.
  lemma CountersFit(config: Config)
    requires ValidConfig(config)
    ensures var c := Rounds(Load(config.agentCount, config.restartEvery, config.dropEvery), config.rounds).counters;
      c.offered <= 1_000_000_000 && c.accepted <= c.offered && c.dropped <= c.offered && c.restarts < config.rounds
  {
    var l := Load(config.agentCount, config.restartEvery, config.dropEvery);
    CountersAddUp(l, config.rounds);
    MulMonotone(config.agentCount, 100_000, config.rounds);
    if l.restartEvery > 0 {
      var q := (config.rounds - 1) / l.restartEvery;
      DivModIdentity(config.rounds - 1, l.restartEvery);
      MulMonotone(1, l.restartEvery, q);
    }
  }

  // ---- nothing dropped ----

  // Within a round, the agents already heard are bound to the current epoch
  // and every rebinding so far was one stale rejection.
  ghost predicate InStep(s: State, before: State, n: nat) {
    && 0 < |s.agentEpoch| == |before.agentEpoch| && n <= |s.agentEpoch|
    && s.epoch == before.epoch
    && (forall i | 0 <= i < n :: s.agentEpoch[i] == s.epoch)
    && (forall i | n <= i < |s.agentEpoch| :: s.agentEpoch[i] == before.agentEpoch[i])
    && s.counters.rejectedStale == before.counters.rejectedStale + (if before.epoch == before.agentEpoch[0] then 0 else n)
  }

  lemma {:induction false} BeatsInStep(l: Load, s: State, n: nat)
    requires 0 < |s.agentEpoch| && n <= |s.agentEpoch|
    requires forall i | 0 <= i < |s.agentEpoch| :: s.agentEpoch[i] == s.agentEpoch[0]
    requires forall k | s.counters.offered < k <= s.counters.offered + n :: !Drops(l, k)
    ensures InStep(Beats(l, s, n), s, n) && Beats(l, s, n).counters.offered == s.counters.offered + n
  {
    hide Drops;
    if n > 0 {
      BeatsInStep(l, s, n - 1);
      assert !Drops(l, s.counters.offered + n);
      var b := Beats(l, s, n - 1);
      assert b.agentEpoch[n - 1] == s.agentEpoch[n - 1];
    }
  }

  ghost predicate NothingDropped(l: Load, n: nat) {
    l.dropEvery == 0 || l.dropEvery > l.agents * n
  }

  lemma NoDrops(l: Load, n: nat, k: nat)
    requires NothingDropped(l, n) && 1 <= k <= l.agents * n
    ensures !Drops(l, k)
  {
    if l.dropEvery > 0 {
      DivideUnique(k, l.dropEvery, 0, k);
    }
  }

  // Without drops every restart costs exactly one stale rejection per agent.
  lemma {:induction false} EveryRestartRejectsEveryAgent(l: Load, n: nat)
    requires l.agents > 0 && NothingDropped(l, n)
    ensures var s := Rounds(l, n);
      && s.counters.rejectedStale == s.counters.restarts * l.agents
      && forall i | 0 <= i < l.agents :: s.agentEpoch[i] == s.epoch
  {
    if n > 0 {
      hide Beats, RestartsAt, Drops, Balanced, RestartsBy;
      MulSuccessor(n - 1, l.agents);
      EveryRestartRejectsEveryAgent(l, n - 1);
      RoundsBalanced(l, n - 1);
      var s := StartRound(l, Rounds(l, n - 1), n);
      forall k | s.counters.offered < k <= s.counters.offered + l.agents ensures !Drops(l, k) {
        NoDrops(l, n, k);
      }
      BeatsInStep(l, s, l.agents);
      BeatsKeepRestarts(l, s, l.agents);
      MulSuccessor(s.counters.restarts - 1, l.agents);
    }
  }

  lemma {:induction false} BeatsKeepRestarts(l: Load, s: State, n: nat)
    requires n <= |s.agentEpoch|
    ensures Beats(l, s, n).counters.restarts == s.counters.restarts
  {
    hide Drops;
    if n > 0 {
      BeatsKeepRestarts(l, s, n - 1);
    }
  }
}
