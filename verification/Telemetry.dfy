// Network telemetry: normalised batches, per-series aggregates and the
// bottleneck input (internal/networktelemetry/telemetry.go), with float64
// idealised as real.
module Telemetry {
  import opened Options
  import opened Sorting
  import opened Text

  const OBSERVATION_SCHEMA := "network.telemetry.observation/v1"
  const BATCH_SCHEMA := "network.telemetry.batch/v1"
  const BOUNDARY_SCHEMA := "network.telemetry.boundary/v1"
  const MAX_OBSERVATIONS := 1024
  const MAX_BOUNDARIES := 256
  const MAX_FRESHNESS_SECONDS := 24 * 60 * 60
  const SECOND := 1_000_000_000
  const MAX_WINDOW := 24 * 3600 * SECOND
  const MAX_SAMPLES := 1_000_000_000_000
  const MAX_AGGREGATE_SAMPLES := 1_000_000_000_000_000

  datatype Target = Target(kind: string, id: string)

  // Instants are nanoseconds from the zero time.
  datatype SampleWindow = SampleWindow(startedAt: int, endedAt: int, sampleCount: nat)

  datatype Confidence = Confidence(level: string, score: real)

  datatype Observation = Observation(
    schemaVersion: string, id: string, target: Target, metric: string, value: real, unit: string,
    window: SampleWindow, confidence: Confidence)

  datatype Batch = Batch(schemaVersion: string, maxAgeSeconds: nat, observations: seq<Observation>)

  datatype MetricDefinition = MetricDefinition(unit: string, maximum: real)

  const METRICS: map<string, MetricDefinition> := map[
    "network.throughput.receive" := MetricDefinition("bits-per-second", 1_000_000_000_000_000.0),
    "network.throughput.transmit" := MetricDefinition("bits-per-second", 1_000_000_000_000_000.0),
    "network.utilization.receive" := MetricDefinition("percent", 100.0),
    "network.utilization.transmit" := MetricDefinition("percent", 100.0),
    "network.errors.receive" := MetricDefinition("errors-per-second", 1_000_000_000_000.0),
    "network.errors.transmit" := MetricDefinition("errors-per-second", 1_000_000_000_000.0),
    "network.latency" := MetricDefinition("milliseconds", 600_000.0),
    "network.packet-loss" := MetricDefinition("percent", 100.0)]

  // ---- single observations ----

  // isAddress stands for the IP and MAC address parsers.
  predicate ValidId(s: string, isAddress: string -> bool) {
    IsIdentifier(s, "._:-", 128) && !isAddress(s)
  }

  function CanonicalTarget(t: Target): Target {
    Target(ToLower(TrimSpace(t.kind)), TrimSpace(t.id))
  }

  predicate TargetOk(t: Target, isAddress: string -> bool) {
    t.kind in {"interface", "zone", "site"} && ValidId(t.id, isAddress)
  }

  predicate ConfidenceOk(c: Confidence) {
    && 0.0 <= c.score <= 1.0
    && (|| (c.level == "low" && c.score < 0.5)
        || (c.level == "medium" && 0.5 <= c.score < 0.8)
        || (c.level == "high" && 0.8 <= c.score))
  }

  function Canonical(o: Observation): Observation {
    o.(schemaVersion := TrimSpace(o.schemaVersion), id := TrimSpace(o.id), target := CanonicalTarget(o.target),
       metric := ToLower(TrimSpace(o.metric)), unit := ToLower(TrimSpace(o.unit)),
       confidence := o.confidence.(level := ToLower(TrimSpace(o.confidence.level))))
  }

  predicate WindowOk(w: SampleWindow, evaluatedAt: int, maxAge: int) {
    && w.startedAt != 0 && w.endedAt != 0 && w.startedAt < w.endedAt
    && SECOND <= w.endedAt - w.startedAt <= MAX_WINDOW
    && 1 <= w.sampleCount <= MAX_SAMPLES
    && w.endedAt <= evaluatedAt && evaluatedAt - w.endedAt <= maxAge
  }

  predicate LabelsOk(o: Observation, isAddress: string -> bool) {
    && o.schemaVersion == OBSERVATION_SCHEMA && ValidId(o.id, isAddress) && TargetOk(o.target, isAddress)
    && o.metric in METRICS && o.unit == METRICS[o.metric].unit && 0.0 <= o.value <= METRICS[o.metric].maximum
    && ConfidenceOk(o.confidence)
  }

  // Acceptance of an observation in canonical form.
  predicate ObservationOk(o: Observation, evaluatedAt: int, maxAge: int, isAddress: string -> bool) {
    LabelsOk(o, isAddress) && WindowOk(o.window, evaluatedAt, maxAge)
  }

  function TargetMetricKey(t: Target, metric: string): string {
    NulJoin(t.kind, NulJoin(ToLower(t.id), metric))
  }

  function SeriesKey(o: Observation): string {
    TargetMetricKey(o.target, o.metric)
  }

  function IdKey(o: Observation): string {
    ToLower(o.id)
  }

  // By series, then start, end and identity.
  predicate ObservationLess(a: Observation, b: Observation) {
    if SeriesKey(a) != SeriesKey(b) then Less(SeriesKey(a), SeriesKey(b))
    else if a.window.startedAt != b.window.startedAt then a.window.startedAt < b.window.startedAt
    else if a.window.endedAt != b.window.endedAt then a.window.endedAt < b.window.endedAt
    else Less(a.id, b.id)
  }

  // ---- batches ----

  ghost predicate HeaderOk(b: Batch, evaluatedAt: int) {
    && TrimSpace(b.schemaVersion) == BATCH_SCHEMA && evaluatedAt != 0
    && 1 <= b.maxAgeSeconds <= MAX_FRESHNESS_SECONDS && 1 <= |b.observations| <= MAX_OBSERVATIONS
  }

  ghost predicate ObservationsOk(s: seq<Observation>, evaluatedAt: int, maxAge: int, isAddress: string -> bool) {
    && (forall i | 0 <= i < |s| :: ObservationOk(s[i], evaluatedAt, maxAge, isAddress))
    && Distinct(Project(s, IdKey))
  }

  // The check on neighbours.
  ghost predicate NoAdjacentOverlap(s: seq<Observation>) {
    forall i | 0 < i < |s| :: SeriesKey(s[i - 1]) == SeriesKey(s[i]) ==> s[i - 1].window.endedAt <= s[i].window.startedAt
  }

  // NormalizeBatch, None standing for its errors.
  ghost function Normalized(b: Batch, evaluatedAt: int, isAddress: string -> bool): Option<seq<Observation>> {
    var all := Project(b.observations, Canonical);
    var sorted := Sort(all, ObservationLess);
    if HeaderOk(b, evaluatedAt) && ObservationsOk(all, evaluatedAt, b.maxAgeSeconds * SECOND, isAddress) && NoAdjacentOverlap(sorted)
    then Some(sorted) else None
  }

  method NormalizeBatch(batch: Batch, evaluatedAt: int, isAddress: string -> bool) returns (result: Option<seq<Observation>>)
    ensures result == Normalized(batch, evaluatedAt, isAddress)
  {
    hide TrimSpace, Sort, Canonical, ObservationOk, SeriesKey, ToLower;
    if TrimSpace(batch.schemaVersion) != BATCH_SCHEMA || evaluatedAt == 0 || batch.maxAgeSeconds == 0
       || batch.maxAgeSeconds > MAX_FRESHNESS_SECONDS || |batch.observations| == 0 || |batch.observations| > MAX_OBSERVATIONS {
      return None;
    }
    ghost var all := Project(batch.observations, Canonical);
    ghost var keys := Project(all, IdKey);
    var maxAge := batch.maxAgeSeconds * SECOND;
    var list: seq<Observation> := [];
    var ids: set<string> := {};
    assert Distinct(keys[..0]);
    hide Distinct;
    for n := 0 to |batch.observations|
      invariant list == all[..n] && Distinct(keys[..n]) && ids == Elements(keys[..n])
      invariant forall i | 0 <= i < n :: ObservationOk(all[i], evaluatedAt, maxAge, isAddress)
    {
      var o := Canonical(batch.observations[n]);
      SeenStep(keys, n);
      if !ObservationOk(o, evaluatedAt, maxAge, isAddress) || ToLower(o.id) in ids {
        return None;
      }
      ids := ids + {ToLower(o.id)};
      list := list + [o];
    }
    assert list == all && keys[..|batch.observations|] == keys;
    SortMultiset(list, ObservationLess);
    var sorted := Sort(list, ObservationLess);
    for i := 1 to |sorted|
      invariant forall k | 0 < k < i :: SeriesKey(sorted[k - 1]) == SeriesKey(sorted[k]) ==> sorted[k - 1].window.endedAt <= sorted[k].window.startedAt
    {
      if SeriesKey(sorted[i - 1]) == SeriesKey(sorted[i]) && sorted[i].window.startedAt < sorted[i - 1].window.endedAt {
        return None;
      }
    }
    result := Some(sorted);
  }

  // ---- order ----

  lemma ObservationOrderIsWeak()
    ensures WeakOrder(ObservationLess)
  {
    hide SeriesKey, Less;
    forall a, b | ObservationLess(a, b) ensures !ObservationLess(b, a) {
      LessStrict(SeriesKey(a), SeriesKey(b));
      LessStrict(a.id, b.id);
    }
    forall a, b, c | ObservationLess(a, b) ensures ObservationLess(a, c) || ObservationLess(c, b) {
      Between(SeriesKey(a), SeriesKey(c), SeriesKey(b));
      Between(a.id, c.id, b.id);
      LessTotal(SeriesKey(a), SeriesKey(c));
      LessTotal(SeriesKey(c), SeriesKey(b));
    }
  }

  lemma LessStrict(a: string, b: string)
    ensures Less(a, b) ==> !Less(b, a)
  {
    if Less(a, b) {
      LessAsymmetric(a, b);
    }
  }

  lemma Between(a: string, c: string, b: string)
    ensures Less(a, b) ==> Less(a, c) || Less(c, b)
    ensures Less(a, c) && Less(c, b) ==> Less(a, b)
  {
    LessIsWeakOrder();
    if Less(a, c) && Less(c, b) {
      LessTransitive(a, c, b);
    }
  }

  lemma DistinctIdsSeparate(s: seq<Observation>)
    requires Distinct(Project(s, IdKey))
    ensures Separates(s, ObservationLess)
  {
    hide SeriesKey, Less, ToLower;
    var keys := Project(s, IdKey);
    forall i, j | 0 <= i < |s| && 0 <= j < |s| && s[i] != s[j] ensures ObservationLess(s[i], s[j]) || ObservationLess(s[j], s[i]) {
      assert keys[i] != keys[j];
      LessTotal(SeriesKey(s[i]), SeriesKey(s[j]));
      LessTotal(s[i].id, s[j].id);
    }
  }

  lemma ObservationsPermuted(s: seq<Observation>, t: seq<Observation>, evaluatedAt: int, maxAge: int, isAddress: string -> bool)
    requires multiset(s) == multiset(t) && ObservationsOk(s, evaluatedAt, maxAge, isAddress)
    ensures ObservationsOk(t, evaluatedAt, maxAge, isAddress)
  {
    hide ObservationOk, IdKey;
    ProjectPermuted(s, t, IdKey);
    PermutedDistinct(Project(s, IdKey), Project(t, IdKey));
    forall i | 0 <= i < |t| ensures ObservationOk(t[i], evaluatedAt, maxAge, isAddress) {
      assert t[i] in multiset(s);
    }
  }

  // The normalised batch, and whether there is one, does not depend on the
  // order of the observations.
  lemma NormalizedOrderFree(b: Batch, b': Batch, evaluatedAt: int, isAddress: string -> bool)
    requires b.schemaVersion == b'.schemaVersion && b.maxAgeSeconds == b'.maxAgeSeconds
    requires multiset(b.observations) == multiset(b'.observations)
    ensures Normalized(b, evaluatedAt, isAddress) == Normalized(b', evaluatedAt, isAddress)
  {
    hide Sort, NoAdjacentOverlap, ObservationOk, Canonical, WeakOrder, Separates, TrimSpace, Distinct;
    var s, t := Project(b.observations, Canonical), Project(b'.observations, Canonical);
    var maxAge := b.maxAgeSeconds * SECOND;
    assert |multiset(b.observations)| == |b.observations| && |multiset(b'.observations)| == |b'.observations|;
    ProjectPermuted(b.observations, b'.observations, Canonical);
    if ObservationsOk(s, evaluatedAt, maxAge, isAddress) {
      ObservationsPermuted(s, t, evaluatedAt, maxAge, isAddress);
      ObservationOrderIsWeak();
      DistinctIdsSeparate(s);
      SortCanonical(s, t, ObservationLess);
    } else if ObservationsOk(t, evaluatedAt, maxAge, isAddress) {
      ObservationsPermuted(t, s, evaluatedAt, maxAge, isAddress);
    }
  }

  // ---- windows of a series ----

  ghost predicate Neat(s: seq<Observation>) {
    && Ordered(s, ObservationLess) && NoAdjacentOverlap(s)
    && forall i | 0 <= i < |s| :: s[i].window.startedAt < s[i].window.endedAt && s[i].window.sampleCount >= 1
  }

  lemma NormalizedIsNeat(b: Batch, evaluatedAt: int, isAddress: string -> bool)
    requires Normalized(b, evaluatedAt, isAddress).Some?
    ensures Neat(Normalized(b, evaluatedAt, isAddress).value)
    ensures ObservationsOk(Normalized(b, evaluatedAt, isAddress).value, evaluatedAt, b.maxAgeSeconds * SECOND, isAddress)
  {
    hide Sort, NoAdjacentOverlap, LabelsOk, Canonical, WeakOrder, Distinct, Ordered;
    var all := Project(b.observations, Canonical);
    ObservationOrderIsWeak();
    SortOrdered(all, ObservationLess);
    SortMultiset(all, ObservationLess);
    ObservationsPermuted(all, Sort(all, ObservationLess), evaluatedAt, b.maxAgeSeconds * SECOND, isAddress);
  }

  // Checking neighbours is enough: all windows of a series are disjoint, and
  // later in the batch means later in time.
  lemma {:induction false} WindowsDisjoint(s: seq<Observation>, i: nat, j: nat)
    requires Neat(s) && i < j < |s| && SeriesKey(s[i]) == SeriesKey(s[j])
    ensures s[i].window.endedAt <= s[j].window.startedAt && s[i].window.endedAt < s[j].window.endedAt
    decreases j - i
  {
    hide SeriesKey, Less;
    if j == i + 1 {
      assert SeriesKey(s[j - 1]) == SeriesKey(s[j]);
    } else {
      SameSeriesBetween(s, i, j - 1, j);
      WindowsDisjoint(s, i, j - 1);
      WindowsDisjoint(s, j - 1, j);
    }
  }

  lemma SameSeriesBetween(s: seq<Observation>, i: nat, k: nat, j: nat)
    requires Ordered(s, ObservationLess) && i < k < j < |s| && SeriesKey(s[i]) == SeriesKey(s[j])
    ensures SeriesKey(s[k]) == SeriesKey(s[i])
  {
    hide SeriesKey, Less;
    assert !ObservationLess(s[k], s[i]) && !ObservationLess(s[j], s[k]);
    LessTotal(SeriesKey(s[k]), SeriesKey(s[i]));
  }

  // ---- aggregation ----

  datatype Accumulator = Accumulator(
    target: Target, metric: string, unit: string, latestId: string, latestValue: real, peak: real, samples: nat,
    startedAt: int, endedAt: int, confidence: Confidence, weightedSum: real)

  function Weight(o: Observation): real {
    o.value * o.window.sampleCount as real
  }

  function Start(o: Observation): Accumulator {
    Accumulator(o.target, o.metric, o.unit, o.id, o.value, o.value, 0, o.window.startedAt, o.window.endedAt, o.confidence, 0.0)
  }

  predicate Later(o: Observation, a: Accumulator) {
    o.window.endedAt > a.endedAt || (o.window.endedAt == a.endedAt && Less(o.id, a.latestId))
  }

  function Update(a: Accumulator, o: Observation): Accumulator {
    var b := a.(samples := a.samples + o.window.sampleCount, weightedSum := a.weightedSum + Weight(o),
                peak := if o.value > a.peak then o.value else a.peak,
                startedAt := if o.window.startedAt < a.startedAt then o.window.startedAt else a.startedAt,
                confidence := if o.confidence.score < a.confidence.score then o.confidence else a.confidence);
    if Later(o, a) then b.(endedAt := o.window.endedAt, latestId := o.id, latestValue := o.value) else b
  }

  function AccumulatorOf(s: seq<Observation>): Accumulator
    requires s != []
  {
    var last := s[|s| - 1];
    Update(if |s| == 1 then Start(last) else AccumulatorOf(s[..|s| - 1]), last)
  }

  // The observations of one series, in batch order.
  function Series(s: seq<Observation>, key: string): seq<Observation> {
    if s == [] then []
    else Series(s[..|s| - 1], key) + (if SeriesKey(s[|s| - 1]) == key then [s[|s| - 1]] else [])
  }

  function Samples(s: seq<Observation>): nat {
    if s == [] then 0 else Samples(s[..|s| - 1]) + s[|s| - 1].window.sampleCount
  }

  function Keys(s: seq<Observation>): set<string> {
    set o | o in s :: SeriesKey(o)
  }

  ghost predicate WithinBounds(s: seq<Observation>) {
    forall key :: Samples(Series(s, key)) <= MAX_AGGREGATE_SAMPLES
  }

  // The accumulators after a whole batch.
  ghost predicate Accumulates(s: seq<Observation>, bySeries: map<string, Accumulator>) {
    && bySeries.Keys == Keys(s)
    && forall key | key in bySeries :: Series(s, key) != [] && bySeries[key] == AccumulatorOf(Series(s, key))
  }

  lemma {:induction false} SeriesKnown(s: seq<Observation>, key: string)
    ensures Series(s, key) != [] <==> key in Keys(s)
    ensures forall o | o in Series(s, key) :: o in s && SeriesKey(o) == key
  {
    hide SeriesKey;
    if s != [] {
      SeriesKnown(s[..|s| - 1], key);
      assert forall o :: o in s <==> o in s[..|s| - 1] || o == s[|s| - 1];
    }
  }

  lemma {:induction false} SeriesGrows(s: seq<Observation>, n: nat, key: string)
    requires n <= |s|
    ensures Samples(Series(s[..n], key)) <= Samples(Series(s, key))
    decreases |s| - n
  {
    hide SeriesKey;
    if n == |s| {
      assert s[..n] == s;
    } else {
      assert s[..n + 1][..n] == s[..n];
      SamplesSnoc(Series(s[..n], key), s[n]);
      SeriesGrows(s, n + 1, key);
    }
  }

  lemma SamplesSnoc(s: seq<Observation>, o: Observation)
    ensures Samples(s + [o]) == Samples(s) + o.window.sampleCount
    ensures s + [] == s
  {
    assert (s + [o])[..|s|] == s;
  }

  lemma {:induction false} AccumulatorSamples(s: seq<Observation>)
    requires s != []
    ensures AccumulatorOf(s).samples == Samples(s)
  {
    hide Later;
    if |s| > 1 {
      AccumulatorSamples(s[..|s| - 1]);
    } else {
      assert Samples(s[..0]) == 0;
    }
  }

  // One more observation: its accumulator, and what the bound check sees.
  lemma AccumulateStep(s: seq<Observation>, n: nat, bySeries: map<string, Accumulator>)
    requires n < |s| && Accumulates(s[..n], bySeries)
    ensures var o, key := s[n], SeriesKey(s[n]);
      var before := if key in bySeries then bySeries[key] else Start(o);
      && Accumulates(s[..n + 1], bySeries[key := Update(before, o)])
      && before.samples == Samples(Series(s[..n], key))
      && Samples(Series(s[..n + 1], key)) == before.samples + o.window.sampleCount
  {
    hide SeriesKey, Update, Samples, Series, Keys, AccumulatorOf;
    var o, key := s[n], SeriesKey(s[n]);
    var front, all := s[..n], s[..n + 1];
    KeysStep(s, n);
    SeriesKnown(front, key);
    SeriesStep(s, n, key);
    SamplesSnoc(Series(front, key), o);
    AccumulatorSnoc(Series(front, key), o);
    if key in bySeries {
      AccumulatorSamples(Series(front, key));
    }
    NoSamples();
    forall k | k != key ensures Series(all, k) == Series(front, k) {
      SeriesStep(s, n, k);
    }
  }

  lemma NoSamples()
    ensures Samples([]) == 0
  {
  }

  lemma EmptyAccumulates(s: seq<Observation>, bySeries: map<string, Accumulator>)
    requires s == [] && bySeries == map[]
    ensures Accumulates(s, bySeries) && WithinBounds(s)
  {
  }

  lemma WithinPrefix(s: seq<Observation>, n: nat)
    requires n <= |s| && !WithinBounds(s[..n])
    ensures !WithinBounds(s)
  {
    hide Samples, Series;
    var key :| Samples(Series(s[..n], key)) > MAX_AGGREGATE_SAMPLES;
    SeriesGrows(s, n, key);
  }

  lemma WithinStep(s: seq<Observation>, n: nat)
    requires n < |s| && WithinBounds(s[..n])
    ensures WithinBounds(s[..n + 1]) <==> Samples(Series(s[..n + 1], SeriesKey(s[n]))) <= MAX_AGGREGATE_SAMPLES
  {
    hide SeriesKey, Samples, Series;
    OtherSeries(s, n);
    var t := s[..n + 1];
    forall k | k != SeriesKey(s[n]) ensures Samples(Series(t, k)) <= MAX_AGGREGATE_SAMPLES {
      assert Series(t, k) == Series(s[..n], k);
    }
  }

  // The accumulation loop; None when a series exceeds its sample bound.
  method Accumulate(observations: seq<Observation>) returns (result: Option<map<string, Accumulator>>)
    requires forall i | 0 <= i < |observations| :: observations[i].window.sampleCount >= 1
    ensures result.Some? <==> WithinBounds(observations)
    ensures result.Some? ==> Accumulates(observations, result.value)
  {
    hide SeriesKey, Update, Samples, AccumulatorOf, Accumulates;
    var bySeries: map<string, Accumulator> := map[];
    NoSamples();
    EmptyAccumulates(observations[..0], bySeries);
    hide WithinBounds;
    for n := 0 to |observations|
      invariant Accumulates(observations[..n], bySeries) && WithinBounds(observations[..n])
    {
      var o := observations[n];
      var key := SeriesKey(o);
      var item := if key in bySeries then bySeries[key] else Start(o);
      AccumulateStep(observations, n, bySeries);
      WithinStep(observations, n);
      if MAX_AGGREGATE_SAMPLES - item.samples < o.window.sampleCount {
        WithinPrefix(observations, n + 1);
        return None;
      }
      bySeries := bySeries[key := Update(item, o)];
    }
    assert observations[..|observations|] == observations;
    result := Some(bySeries);
  }

  lemma SeriesStep(s: seq<Observation>, n: nat, k: string)
    requires n < |s|
    ensures Series(s[..n + 1], k) == if SeriesKey(s[n]) == k then Series(s[..n], k) + [s[n]] else Series(s[..n], k)
  {
    hide SeriesKey;
    assert s[..n + 1][..n] == s[..n];
  }

  lemma KeysStep(s: seq<Observation>, n: nat)
    requires n < |s|
    ensures Keys(s[..n + 1]) == Keys(s[..n]) + {SeriesKey(s[n])}
  {
    hide SeriesKey;
    var front, all := s[..n], s[..n + 1];
    assert forall x :: x in all <==> x in front || x == s[n];
  }

  lemma AccumulatorSnoc(s: seq<Observation>, o: Observation)
    ensures AccumulatorOf(s + [o]) == Update(if s == [] then Start(o) else AccumulatorOf(s), o)
  {
    hide Update;
    assert (s + [o])[..|s|] == s;
  }

  lemma OtherSeries(s: seq<Observation>, n: nat)
    requires n < |s|
    ensures forall k | k != SeriesKey(s[n]) :: Series(s[..n + 1], k) == Series(s[..n], k)
  {
    hide SeriesKey;
    assert s[..n + 1][..n] == s[..n];
  }

  // ---- what an aggregate says ----

  datatype Aggregate = Aggregate(
    target: Target, metric: string, unit: string, latestObservationId: string, latestValue: real, weightedAverage: real,
    peakValue: real, sampleCount: nat, windowStartedAt: int, windowEndedAt: int, freshnessAgeSeconds: nat, confidence: Confidence)

  function CeilingSeconds(duration: int): nat {
    if duration <= 0 then 0 else (duration + SECOND - 1) / SECOND
  }

  function Finish(a: Accumulator, evaluatedAt: int): Aggregate
    requires a.samples > 0
  {
    Aggregate(a.target, a.metric, a.unit, a.latestId, a.latestValue, a.weightedSum / a.samples as real, a.peak, a.samples,
              a.startedAt, a.endedAt, CeilingSeconds(evaluatedAt - a.endedAt), a.confidence)
  }

  // Observations of one series with ordered, disjoint windows.
  ghost predicate Chained(s: seq<Observation>) {
    && (forall i, j | 0 <= i < j < |s| :: s[i].window.endedAt < s[j].window.endedAt && s[i].window.endedAt <= s[j].window.startedAt)
    && forall i | 0 <= i < |s| :: s[i].window.startedAt < s[i].window.endedAt && s[i].window.sampleCount >= 1
  }

  lemma {:induction false} SeriesChained(s: seq<Observation>, key: string)
    requires Neat(s)
    ensures Chained(Series(s, key))
  {
    hide SeriesKey, Less;
    if s != [] {
      var front, last := s[..|s| - 1], s[|s| - 1];
      NeatPrefix(s);
      SeriesChained(front, key);
      hide Chained;
      var r := Series(front, key);
      SeriesKnown(front, key);
      if SeriesKey(last) == key {
        forall x | x in r ensures x.window.endedAt < last.window.endedAt && x.window.endedAt <= last.window.startedAt {
          var k :| 0 <= k < |front| && front[k] == x;
          WindowsDisjoint(s, k, |s| - 1);
        }
        ChainedSnoc(r, last);
      } else {
        assert r + [] == r;
      }
    }
  }

  lemma ChainedSnoc(r: seq<Observation>, o: Observation)
    requires Chained(r) && o.window.startedAt < o.window.endedAt && o.window.sampleCount >= 1
    requires forall x | x in r :: x.window.endedAt < o.window.endedAt && x.window.endedAt <= o.window.startedAt
    ensures Chained(r + [o])
  {
    var t := r + [o];
    forall i, j | 0 <= i < j < |t| ensures t[i].window.endedAt < t[j].window.endedAt && t[i].window.endedAt <= t[j].window.startedAt {
      assert t[i] == r[i] && r[i] in r;
    }
  }

  lemma NeatPrefix(s: seq<Observation>)
    requires Neat(s) && s != []
    ensures Neat(s[..|s| - 1])
  {
    hide SeriesKey, ObservationLess;
    var front := s[..|s| - 1];
    assert forall i | 0 <= i < |front| :: front[i] == s[i];
  }

  // The latest observation is the last one of the series; it alone ends at
  // the end of the aggregate window.
  lemma {:induction false} LatestIsUnique(s: seq<Observation>)
    requires s != [] && Chained(s)
    ensures var a, last := AccumulatorOf(s), s[|s| - 1];
      && a.latestId == last.id && a.latestValue == last.value && a.endedAt == last.window.endedAt
      && a.startedAt == s[0].window.startedAt
      && forall i | 0 <= i < |s| - 1 :: s[i].window.endedAt < a.endedAt
  {
    hide Less;
    if |s| > 1 {
      var front := s[..|s| - 1];
      assert forall i | 0 <= i < |front| :: front[i] == s[i];
      LatestIsUnique(front);
      assert s[0].window.startedAt < s[0].window.endedAt <= s[|s| - 1].window.startedAt;
    }
  }

  // The weighted sum lies between the extremes times the number of samples.
  ghost predicate Bracketed(low: real, high: real, samples: nat, sum: real) {
    low * samples as real <= sum <= high * samples as real
  }

  lemma {:induction false} WeightedBetween(s: seq<Observation>, low: real)
    requires s != [] && forall i | 0 <= i < |s| :: low <= s[i].value
    ensures var a := AccumulatorOf(s); Bracketed(low, a.peak, a.samples, a.weightedSum)
  {
    hide Later, Weight, Bracketed;
    var last := s[|s| - 1];
    if |s| == 1 {
      BracketNothing(low, last.value);
      WeightStep(low, last.value, last.value, 0, 0.0, last);
    } else {
      var front := s[..|s| - 1];
      WeightedBetween(front, low);
      var b := AccumulatorOf(front);
      WeightStep(low, b.peak, if last.value > b.peak then last.value else b.peak, b.samples, b.weightedSum, last);
    }
  }

  lemma BracketNothing(low: real, high: real)
    ensures Bracketed(low, high, 0, 0.0)
  {
  }

  // The peak is the largest value of the series.
  lemma {:induction false} PeakIsLargest(s: seq<Observation>)
    requires s != []
    ensures forall o | o in s :: o.value <= AccumulatorOf(s).peak
    ensures exists o | o in s :: o.value == AccumulatorOf(s).peak
  {
    hide Later, Weight;
    var last := s[|s| - 1];
    if |s| > 1 {
      var front := s[..|s| - 1];
      PeakIsLargest(front);
      assert forall o :: o in s <==> o in front || o == last;
    } else {
      assert s == [last];
    }
  }

  lemma WeightStep(low: real, peak: real, peak': real, samples: nat, sum: real, o: Observation)
    requires Bracketed(low, peak, samples, sum)
    requires low <= o.value <= peak' && peak <= peak'
    ensures Bracketed(low, peak', samples + o.window.sampleCount, sum + Weight(o))
  {
    var n, m := samples as real, o.window.sampleCount as real;
    MulLe(low, o.value, m);
    MulLe(o.value, peak', m);
    MulLe(peak, peak', n);
    assert (samples + o.window.sampleCount) as real == n + m;
    DistributeReal(low, n, m);
    DistributeReal(peak', n, m);
  }

  lemma MulLe(x: real, y: real, m: real)
    requires x <= y && m >= 0.0
    ensures x * m <= y * m
  {
  }

  lemma DistributeReal(x: real, n: real, m: real)
    ensures x * (n + m) == x * n + x * m
  {
  }

  lemma DivideBetween(low: real, sum: real, high: real, n: real)
    requires n > 0.0 && low * n <= sum <= high * n
    ensures low <= sum / n <= high
  {
    assert (sum / n) * n == sum;
    if sum / n < low {
      MulLt(sum / n, low, n);
    }
    if sum / n > high {
      MulLt(high, sum / n, n);
    }
  }

  lemma MulLt(x: real, y: real, m: real)
    requires x < y && m > 0.0
    ensures x * m < y * m
  {
  }

  lemma {:induction false} AverageBetween(s: seq<Observation>, low: real, evaluatedAt: int)
    requires s != [] && Chained(s) && forall i | 0 <= i < |s| :: low <= s[i].value
    ensures AccumulatorOf(s).samples > 0
    ensures var g := Finish(AccumulatorOf(s), evaluatedAt); low <= g.weightedAverage <= g.peakValue
  {
    hide Later, Update;
    AccumulatorSamples(s);
    assert Samples(s) >= s[|s| - 1].window.sampleCount;
    WeightedBetween(s, low);
    var a := AccumulatorOf(s);
    DivideBetween(low, a.weightedSum, a.peak, a.samples as real);
  }

  lemma CeilingBound(duration: int, seconds: nat)
    requires duration <= seconds * SECOND
    ensures CeilingSeconds(duration) <= seconds
    ensures duration >= 0 ==> (CeilingSeconds(duration) - 1) * SECOND < duration <= CeilingSeconds(duration) * SECOND || duration == 0
  {
    if duration > 0 {
      var q := (duration + SECOND - 1) / SECOND;
      assert q * SECOND <= duration + SECOND - 1 < (q + 1) * SECOND;
    }
  }

  // ---- the aggregates of a batch ----

  // Aggregates in order of their series.
  ghost function Aggregates(s: seq<Observation>, evaluatedAt: int): seq<Aggregate>
    requires forall i | 0 <= i < |s| :: s[i].window.sampleCount >= 1
  {
    var keys := Sorted(Keys(s));
    seq(|keys|, i requires 0 <= i < |keys| => AggregateAt(s, keys[i], evaluatedAt))
  }

  ghost function AggregateAt(s: seq<Observation>, key: string, evaluatedAt: int): Aggregate
    requires (forall i | 0 <= i < |s| :: s[i].window.sampleCount >= 1) && key in Sorted(Keys(s))
  {
    SeriesPopulated(s, key);
    Finish(AccumulatorOf(Series(s, key)), evaluatedAt)
  }

  lemma SeriesPopulated(s: seq<Observation>, key: string)
    requires (forall i | 0 <= i < |s| :: s[i].window.sampleCount >= 1) && key in Sorted(Keys(s))
    ensures Series(s, key) != [] && AccumulatorOf(Series(s, key)).samples > 0
  {
    hide SeriesKey, Update;
    assert key in Elements(Sorted(Keys(s)));
    SeriesKnown(s, key);
    var r := Series(s, key);
    AccumulatorSamples(r);
    assert r[|r| - 1] in r && r[|r| - 1] in s;
    assert Samples(r) >= r[|r| - 1].window.sampleCount;
  }

  function AggregateKey(g: Aggregate): string {
    TargetMetricKey(g.target, g.metric)
  }

  predicate AggregateLess(a: Aggregate, b: Aggregate) {
    Less(AggregateKey(a), AggregateKey(b))
  }

  lemma {:induction false} AccumulatorKey(s: seq<Observation>, key: string)
    requires s != [] && forall o | o in s :: SeriesKey(o) == key
    ensures TargetMetricKey(AccumulatorOf(s).target, AccumulatorOf(s).metric) == key
  {
    hide TargetMetricKey, Later, Weight;
    if |s| > 1 {
      assert forall o | o in s[..|s| - 1] :: o in s;
      AccumulatorKey(s[..|s| - 1], key);
    } else {
      assert s[0] in s && SeriesKey(s[0]) == key;
    }
  }

  // The finishing loop: one aggregate per series, sorted by series.
  method AggregateNormalized(observations: seq<Observation>, evaluatedAt: int) returns (result: Option<seq<Aggregate>>)
    requires forall i | 0 <= i < |observations| :: observations[i].window.sampleCount >= 1
    ensures result == if WithinBounds(observations) then Some(Aggregates(observations, evaluatedAt)) else None
  {
    hide WithinBounds, Sort, SeriesKey, Update, Series, Sorted, Ascending, Distinct, Aggregates;
    var accumulated := Accumulate(observations);
    if accumulated.None? {
      return None;
    }
    var bySeries := accumulated.value;
    var keys := AnyOrder(bySeries.Keys);
    SortIsSorted(keys);
    SortMultiset(keys, Less);
    var list: seq<Aggregate> := [];
    for n := 0 to |keys|
      invariant |list| == n && forall i | 0 <= i < n :: Belongs(observations, keys[i], list[i], evaluatedAt)
    {
      assert keys[n] in Elements(keys);
      SortElements(keys, Less, keys[n]);
      SeriesPopulated(observations, keys[n]);
      BelongsFinish(observations, keys[n], evaluatedAt);
      list := list + [Finish(bySeries[keys[n]], evaluatedAt)];
    }
    SortedAggregates(observations, evaluatedAt, keys, list);
    result := Some(Sort(list, AggregateLess));
  }

  // g is the aggregate of that series.
  ghost predicate Belongs(s: seq<Observation>, key: string, g: Aggregate, evaluatedAt: int) {
    && (forall i | 0 <= i < |s| :: s[i].window.sampleCount >= 1) && key in Sorted(Keys(s))
    && g == AggregateAt(s, key, evaluatedAt) && AggregateKey(g) == key
  }

  lemma BelongsFinish(s: seq<Observation>, key: string, evaluatedAt: int)
    requires (forall i | 0 <= i < |s| :: s[i].window.sampleCount >= 1) && key in Sorted(Keys(s))
    ensures Belongs(s, key, AggregateAt(s, key, evaluatedAt), evaluatedAt)
  {
    hide SeriesKey, Update, Sorted, TargetMetricKey;
    SeriesPopulated(s, key);
    SeriesKnown(s, key);
    AccumulatorKey(Series(s, key), key);
  }

  lemma SortedAggregates(s: seq<Observation>, evaluatedAt: int, keys: seq<string>, list: seq<Aggregate>)
    requires forall i | 0 <= i < |s| :: s[i].window.sampleCount >= 1
    requires |list| == |keys| && forall i | 0 <= i < |list| :: Belongs(s, keys[i], list[i], evaluatedAt)
    requires Sort(keys, Less) == Sorted(Keys(s))
    ensures Sort(list, AggregateLess) == Aggregates(s, evaluatedAt)
  {
    hide AggregateAt, Sort, Sorted, AggregateKey, Less;
    var r, sorted := Sort(list, AggregateLess), Sorted(Keys(s));
    assert Project(list, AggregateKey) == keys;
    SortByKey(list, AggregateKey, AggregateLess);
    forall i | 0 <= i < |r| ensures r[i] == Aggregates(s, evaluatedAt)[i] {
      SortElements(list, AggregateLess, r[i]);
      var j :| 0 <= j < |list| && list[j] == r[i];
      assert Project(r, AggregateKey)[i] == sorted[i];
      assert Belongs(s, keys[j], list[j], evaluatedAt);
    }
  }

  // The sum of all sampled values of a series.
  function WeightedTotal(r: seq<Observation>): real {
    if r == [] then 0.0 else r[0].value * r[0].window.sampleCount as real + WeightedTotal(r[1..])
  }

  lemma {:induction false} WeightedTotalSnoc(r: seq<Observation>, o: Observation)
    ensures WeightedTotal(r + [o]) == WeightedTotal(r) + Weight(o)
  {
    if r == [] {
      assert WeightedTotal([o][1..]) == 0.0;
    } else {
      assert (r + [o])[1..] == r[1..] + [o];
      WeightedTotalSnoc(r[1..], o);
    }
  }

  lemma {:induction false} SumIsTotal(r: seq<Observation>)
    requires r != []
    ensures AccumulatorOf(r).weightedSum == WeightedTotal(r)
  {
    hide Later, Weight, WeightedTotal;
    var front, last := r[..|r| - 1], r[|r| - 1];
    assert front + [last] == r;
    WeightedTotalSnoc(front, last);
    if |r| == 1 {
      NothingSampled();
    } else {
      SumIsTotal(front);
    }
  }

  lemma NothingSampled()
    ensures WeightedTotal([]) == 0.0
  {
  }

  // average is the mean of that many samples with that total.
  predicate IsMean(average: real, samples: nat, total: real) {
    average * samples as real == total
  }

  lemma QuotientIsMean(samples: nat, total: real)
    requires samples > 0
    ensures IsMean(total / samples as real, samples, total)
  {
  }

  lemma AverageExactly(r: seq<Observation>, evaluatedAt: int)
    requires r != [] && AccumulatorOf(r).samples > 0
    ensures IsMean(Finish(AccumulatorOf(r), evaluatedAt).weightedAverage, Samples(r), WeightedTotal(r))
  {
    hide AccumulatorOf, WeightedTotal, Samples, IsMean;
    SumIsTotal(r);
    AccumulatorSamples(r);
    QuotientIsMean(Samples(r), WeightedTotal(r));
  }

  // c is the confidence of an observation of r, and none has a lower score.
  ghost predicate LeastConfident(c: Confidence, r: seq<Observation>) {
    (exists o | o in r :: o.confidence == c) && forall o | o in r :: c.score <= o.confidence.score
  }

  lemma {:induction false} ConfidenceIsLeast(r: seq<Observation>)
    requires r != []
    ensures LeastConfident(AccumulatorOf(r).confidence, r)
  {
    hide Later, Weight;
    var last := r[|r| - 1];
    if |r| > 1 {
      var front := r[..|r| - 1];
      ConfidenceIsLeast(front);
      assert forall o :: o in r <==> o in front || o == last;
    } else {
      assert r == [last];
    }
  }

  lemma {:induction false} NamesFirst(r: seq<Observation>)
    requires r != []
    ensures var a := AccumulatorOf(r); a.target == r[0].target && a.metric == r[0].metric && a.unit == r[0].unit
  {
    hide Later, Weight;
    if |r| > 1 {
      NamesFirst(r[..|r| - 1]);
    }
  }

  // An aggregate says of its series: every sample counted once, the average
  // of all of them, which lies between any lower bound and the peak, the peak
  // the largest value, the confidence the least, and the latest observation
  // the only one that ends with the window.
  ghost predicate Summarises(g: Aggregate, r: seq<Observation>, low: real)
    requires r != []
  {
    var last := r[|r| - 1];
    && g.target == r[0].target && g.metric == r[0].metric && g.unit == r[0].unit
    && g.sampleCount == Samples(r) && IsMean(g.weightedAverage, Samples(r), WeightedTotal(r))
    && low <= g.weightedAverage <= g.peakValue
    && (forall o | o in r :: o.value <= g.peakValue) && (exists o | o in r :: o.value == g.peakValue)
    && LeastConfident(g.confidence, r)
    && g.latestObservationId == last.id && g.latestValue == last.value
    && g.windowStartedAt == r[0].window.startedAt && g.windowEndedAt == last.window.endedAt
    && forall i | 0 <= i < |r| - 1 :: r[i].window.endedAt < g.windowEndedAt
  }

  lemma ChainedMeaning(r: seq<Observation>, evaluatedAt: int, low: real)
    requires r != [] && Chained(r) && forall i | 0 <= i < |r| :: low <= r[i].value
    ensures AccumulatorOf(r).samples > 0 && Summarises(Finish(AccumulatorOf(r), evaluatedAt), r, low)
  {
    hide Update, AccumulatorOf, Chained, Samples, WeightedTotal, LeastConfident, IsMean;
    AccumulatorSamples(r);
    LatestIsUnique(r);
    PeakIsLargest(r);
    AverageBetween(r, low, evaluatedAt);
    AverageExactly(r, evaluatedAt);
    ConfidenceIsLeast(r);
    NamesFirst(r);
  }

  // age is duration in whole seconds, rounded up.
  predicate RoundsUp(age: nat, duration: int) {
    duration <= age * SECOND && (age == 0 || (age - 1) * SECOND < duration)
  }

  lemma CeilingRounds(duration: int)
    ensures RoundsUp(CeilingSeconds(duration), duration)
  {
    if duration > 0 {
      CeilingBound(duration, duration);
    }
  }

  // This holds for every series of every accepted batch, and the aggregate's
  // age in whole seconds does not exceed the batch's limit.
  lemma AggregateMeaning(b: Batch, evaluatedAt: int, isAddress: string -> bool, s: seq<Observation>, key: string, low: real)
    requires Normalized(b, evaluatedAt, isAddress) == Some(s) && key in Keys(s)
    requires forall o | o in s && SeriesKey(o) == key :: low <= o.value
    ensures var r := Series(s, key);
      && r != [] && Chained(r) && AccumulatorOf(r).samples > 0
      && var g := Finish(AccumulatorOf(r), evaluatedAt);
         && Summarises(g, r, low)
         && RoundsUp(g.freshnessAgeSeconds, evaluatedAt - r[|r| - 1].window.endedAt) && g.freshnessAgeSeconds <= b.maxAgeSeconds
  {
    hide Normalized, SeriesKey, AccumulatorOf, Neat, Distinct, LabelsOk, Chained, Samples, Keys, Series, CeilingSeconds, RoundsUp,
         WeightedTotal, LeastConfident, IsMean;
    var r := Series(s, key);
    NormalizedIsNeat(b, evaluatedAt, isAddress);
    SeriesKnown(s, key);
    SeriesChained(s, key);
    assert forall i | 0 <= i < |r| :: r[i] in r;
    ChainedMeaning(r, evaluatedAt, low);
    var last := r[|r| - 1];
    var i :| 0 <= i < |s| && s[i] == last;
    CeilingBound(evaluatedAt - last.window.endedAt, b.maxAgeSeconds);
    CeilingRounds(evaluatedAt - last.window.endedAt);
  }

  // ---- conservation ----

  function SampleSum(list: seq<Aggregate>): nat {
    if list == [] then 0 else SampleSum(list[..|list| - 1]) + list[|list| - 1].sampleCount
  }

  function SamplesByKey(s: seq<Observation>, keys: seq<string>): nat {
    if keys == [] then 0 else SamplesByKey(s, keys[..|keys| - 1]) + Samples(Series(s, keys[|keys| - 1]))
  }

  lemma LastIsNew(keys: seq<string>)
    requires keys != [] && Distinct(keys)
    ensures Distinct(keys[..|keys| - 1]) && keys[|keys| - 1] !in keys[..|keys| - 1]
    ensures forall k :: k in keys <==> k in keys[..|keys| - 1] || k == keys[|keys| - 1]
  {
    assert keys == keys[..|keys| - 1] + [keys[|keys| - 1]];
  }

  lemma {:induction false} OneSeriesGrows(s: seq<Observation>, n: nat, keys: seq<string>)
    requires n < |s| && Distinct(keys)
    ensures SamplesByKey(s[..n + 1], keys) == SamplesByKey(s[..n], keys) + (if SeriesKey(s[n]) in keys then s[n].window.sampleCount else 0)
  {
    hide SeriesKey, Series, Samples;
    if keys != [] {
      var k := |keys| - 1;
      var front, last := keys[..k], keys[k];
      LastIsNew(keys);
      hide Distinct;
      OneSeriesGrows(s, n, front);
      SeriesStep(s, n, last);
      SamplesSnoc(Series(s[..n], last), s[n]);
    }
  }

  lemma {:induction false} SeriesPartition(s: seq<Observation>, n: nat, keys: seq<string>)
    requires n <= |s| && Distinct(keys) && forall i | 0 <= i < n :: SeriesKey(s[i]) in keys
    ensures SamplesByKey(s[..n], keys) == Samples(s[..n])
  {
    hide SeriesKey, Distinct, SamplesByKey, Samples;
    if n == 0 {
      NoSeries(s[..0], keys);
      NoSamples();
      assert s[..0] == [];
    } else {
      SeriesPartition(s, n - 1, keys);
      OneSeriesGrows(s, n - 1, keys);
      assert s[..n] == s[..n - 1] + [s[n - 1]];
      SamplesSnoc(s[..n - 1], s[n - 1]);
    }
  }

  lemma {:induction false} NoSeries(s: seq<Observation>, keys: seq<string>)
    requires s == []
    ensures SamplesByKey(s, keys) == 0
  {
    if keys != [] {
      NoSeries(s, keys[..|keys| - 1]);
    }
  }

  lemma SumsStep(g: seq<Aggregate>, s: seq<Observation>, keys: seq<string>, n: nat)
    requires n < |g| && n < |keys| && g[n].sampleCount == Samples(Series(s, keys[n]))
    requires SampleSum(g[..n]) == SamplesByKey(s, keys[..n])
    ensures SampleSum(g[..n + 1]) == SamplesByKey(s, keys[..n + 1])
  {
    hide Samples, Series;
    assert g[..n + 1][..n] == g[..n] && keys[..n + 1][..n] == keys[..n];
  }

  lemma {:induction false} AggregateSamples(s: seq<Observation>, evaluatedAt: int, n: nat)
    requires forall i | 0 <= i < |s| :: s[i].window.sampleCount >= 1
    requires n <= |Sorted(Keys(s))|
    ensures n <= |Aggregates(s, evaluatedAt)| && SampleSum(Aggregates(s, evaluatedAt)[..n]) == SamplesByKey(s, Sorted(Keys(s))[..n])
  {
    hide SeriesKey, Sorted, Keys, Aggregates, Series, Samples;
    var g, keys := Aggregates(s, evaluatedAt), Sorted(Keys(s));
    AggregateCount(s, evaluatedAt);
    if n > 0 {
      AggregateSamples(s, evaluatedAt, n - 1);
      OneAggregate(s, evaluatedAt, n - 1);
      SumsStep(g, s, keys, n - 1);
    }
  }

  lemma OneAggregate(s: seq<Observation>, evaluatedAt: int, i: nat)
    requires (forall i | 0 <= i < |s| :: s[i].window.sampleCount >= 1) && i < |Sorted(Keys(s))|
    ensures i < |Aggregates(s, evaluatedAt)| && Aggregates(s, evaluatedAt)[i].sampleCount == Samples(Series(s, Sorted(Keys(s))[i]))
  {
    hide SeriesKey, Sorted, Update, Samples, Series, Keys, AccumulatorOf;
    SeriesPopulated(s, Sorted(Keys(s))[i]);
    AccumulatorSamples(Series(s, Sorted(Keys(s))[i]));
  }

  // No sample is lost or counted twice over the aggregates of a batch.
  lemma SamplesConserved(s: seq<Observation>, evaluatedAt: int)
    requires forall i | 0 <= i < |s| :: s[i].window.sampleCount >= 1
    ensures SampleSum(Aggregates(s, evaluatedAt)) == Samples(s)
  {
    hide SeriesKey, Sorted, Aggregates, SamplesByKey, Samples, SampleSum;
    var g, keys := Aggregates(s, evaluatedAt), Sorted(Keys(s));
    AggregateCount(s, evaluatedAt);
    AggregateSamples(s, evaluatedAt, |keys|);
    assert g[..|keys|] == g && keys[..|keys|] == keys && s[..|s|] == s;
    AscendingDistinct(keys);
    forall i | 0 <= i < |s| ensures SeriesKey(s[i]) in keys {
      assert s[i] in s;
      assert SeriesKey(s[i]) in Elements(keys);
    }
    SeriesPartition(s, |s|, keys);
  }

  lemma AggregateCount(s: seq<Observation>, evaluatedAt: int)
    requires forall i | 0 <= i < |s| :: s[i].window.sampleCount >= 1
    ensures |Aggregates(s, evaluatedAt)| == |Sorted(Keys(s))|
  {
  }

  // ---- boundaries and the bottleneck ----

  datatype Boundary = Boundary(schemaVersion: string, id: string, target: Target, metric: string, unit: string, safeLimit: real, technicalLimit: real)

  datatype BottleneckInput = BottleneckInput(
    boundary: Boundary, observationId: string, observedValue: real, observedAt: int, safeReserve: real, safeReservePercent: real,
    technicalReserve: real, technicalReservePercent: real, freshnessAgeSeconds: nat, confidence: Confidence)

  function CanonicalBoundary(b: Boundary): Boundary {
    b.(schemaVersion := TrimSpace(b.schemaVersion), id := TrimSpace(b.id), target := CanonicalTarget(b.target),
       metric := ToLower(TrimSpace(b.metric)), unit := ToLower(TrimSpace(b.unit)))
  }

  predicate BoundaryOk(b: Boundary, isAddress: string -> bool) {
    && b.schemaVersion == BOUNDARY_SCHEMA && ValidId(b.id, isAddress) && TargetOk(b.target, isAddress)
    && b.metric in METRICS && b.unit == METRICS[b.metric].unit
    && 0.0 < b.safeLimit < b.technicalLimit <= METRICS[b.metric].maximum
  }

  function BoundaryKey(b: Boundary): string {
    TargetMetricKey(b.target, b.metric)
  }

  function BoundaryId(b: Boundary): string {
    ToLower(b.id)
  }

  function InputFor(b: Boundary, g: Aggregate): BottleneckInput
    requires 0.0 < b.safeLimit < b.technicalLimit
  {
    var v := g.latestValue;
    BottleneckInput(b, g.latestObservationId, v, g.windowEndedAt, b.safeLimit - v, (b.safeLimit - v) / b.safeLimit * 100.0,
                    b.technicalLimit - v, (b.technicalLimit - v) / b.technicalLimit * 100.0, g.freshnessAgeSeconds, g.confidence)
  }

  predicate Tighter(a: BottleneckInput, b: BottleneckInput) {
    a.safeReservePercent < b.safeReservePercent
    || (a.safeReservePercent == b.safeReservePercent && Less(a.boundary.id, b.boundary.id))
  }

  function Tightest(s: seq<BottleneckInput>): BottleneckInput
    requires s != []
  {
    if |s| == 1 then s[0]
    else
      var best, last := Tightest(s[..|s| - 1]), s[|s| - 1];
      if Tighter(last, best) then last else best
  }

  lemma TighterIsWeak()
    ensures WeakOrder(Tighter)
  {
    hide Less;
    forall a, b | Tighter(a, b) ensures !Tighter(b, a) {
      LessStrict(a.boundary.id, b.boundary.id);
    }
    forall a, b, c | Tighter(a, b) ensures Tighter(a, c) || Tighter(c, b) {
      Between(a.boundary.id, c.boundary.id, b.boundary.id);
    }
  }

  // The selected bottleneck is one of the inputs, and none is tighter.
  lemma {:induction false} TightestIsLeast(s: seq<BottleneckInput>)
    requires s != []
    ensures Tightest(s) in s && forall x | x in s :: !Tighter(x, Tightest(s))
  {
    hide Tighter;
    TighterIsWeak();
    var last := s[|s| - 1];
    if |s| > 1 {
      var front := s[..|s| - 1];
      TightestIsLeast(front);
      assert forall x :: x in s <==> x in front || x == last;
    } else {
      assert s == [last];
    }
  }

  // What is left below a limit, in the metric's unit and as a percentage of
  // the limit.
  predicate Reserves(x: BottleneckInput) {
    var b := x.boundary;
    && x.safeReserve + x.observedValue == b.safeLimit && x.safeReservePercent * b.safeLimit == 100.0 * x.safeReserve
    && x.technicalReserve + x.observedValue == b.technicalLimit && x.technicalReservePercent * b.technicalLimit == 100.0 * x.technicalReserve
  }

  // An input reports its boundary against the latest value of the aggregate.
  predicate Reports(x: BottleneckInput, b: Boundary, g: Aggregate) {
    && x.boundary == b && x.observationId == g.latestObservationId && x.observedValue == g.latestValue && x.observedAt == g.windowEndedAt
    && x.freshnessAgeSeconds == g.freshnessAgeSeconds && x.confidence == g.confidence && Reserves(x)
  }

  lemma PercentOf(part: real, limit: real)
    requires limit != 0.0
    ensures part / limit * 100.0 * limit == 100.0 * part
  {
    assert part / limit * limit == part;
  }

  lemma InputReports(b: Boundary, g: Aggregate)
    requires 0.0 < b.safeLimit < b.technicalLimit
    ensures Reports(InputFor(b, g), b, g)
  {
    PercentOf(b.safeLimit - g.latestValue, b.safeLimit);
    PercentOf(b.technicalLimit - g.latestValue, b.technicalLimit);
  }

  // The selected bottleneck reports one of the boundaries; no boundary leaves
  // a smaller share of its safe limit, and of those that leave as much none
  // has an earlier identity.
  lemma BottleneckMeaning(all: seq<Boundary>, bySeries: map<string, Aggregate>, inputs: seq<BottleneckInput>)
    requires inputs != [] && Inputs(all, bySeries, inputs)
    ensures var best := Tightest(inputs);
      && (exists i :: 0 <= i < |all| && BoundaryKey(all[i]) in bySeries && Reports(best, all[i], bySeries[BoundaryKey(all[i])]))
      && (forall i | 0 <= i < |all| ::
            && Reports(inputs[i], all[i], bySeries[BoundaryKey(all[i])])
            && best.safeReservePercent <= inputs[i].safeReservePercent
            && (best.safeReservePercent == inputs[i].safeReservePercent ==> !Less(all[i].id, best.boundary.id)))
  {
    hide Less, BoundaryKey, InputFor, Reserves, Tightest;
    var best := Tightest(inputs);
    TightestIsLeast(inputs);
    forall i | 0 <= i < |all| ensures Reports(inputs[i], all[i], bySeries[BoundaryKey(all[i])]) && inputs[i] in inputs {
      InputReports(all[i], bySeries[BoundaryKey(all[i])]);
    }
    var i :| 0 <= i < |inputs| && inputs[i] == best;
    assert Reports(best, all[i], bySeries[BoundaryKey(all[i])]);
  }

  ghost predicate BoundariesOk(s: seq<Boundary>, keys: set<string>, isAddress: string -> bool) {
    && 1 <= |s| <= MAX_BOUNDARIES
    && (forall i | 0 <= i < |s| :: BoundaryOk(s[i], isAddress) && BoundaryKey(s[i]) in keys)
    && Distinct(Project(s, BoundaryId)) && Distinct(Project(s, BoundaryKey))
  }

  ghost predicate Indexed(bySeries: map<string, Aggregate>, aggregates: seq<Aggregate>) {
    && (forall key | key in bySeries :: bySeries[key] in aggregates && AggregateKey(bySeries[key]) == key)
    && (forall g | g in aggregates :: AggregateKey(g) in bySeries)
  }

  ghost predicate Inputs(boundaries: seq<Boundary>, bySeries: map<string, Aggregate>, inputs: seq<BottleneckInput>) {
    && |inputs| == |boundaries|
    && forall i | 0 <= i < |inputs| ::
         && 0.0 < boundaries[i].safeLimit < boundaries[i].technicalLimit && BoundaryKey(boundaries[i]) in bySeries
         && inputs[i] == InputFor(boundaries[i], bySeries[BoundaryKey(boundaries[i])])
  }

  lemma InputsIncluded(all: seq<Boundary>, all': seq<Boundary>, bySeries: map<string, Aggregate>, inputs: seq<BottleneckInput>,
                       inputs': seq<BottleneckInput>, x: BottleneckInput)
    requires multiset(all) == multiset(all') && Inputs(all, bySeries, inputs) && Inputs(all', bySeries, inputs') && x in inputs
    ensures x in inputs' && x.boundary in all
  {
    hide BoundaryKey, InputFor;
    var i :| 0 <= i < |inputs| && inputs[i] == x;
    assert all[i] in multiset(all');
    var j :| 0 <= j < |all'| && all'[j] == all[i];
    assert inputs'[j] == x;
    InputKeeps(all[i], bySeries[BoundaryKey(all[i])]);
  }

  lemma InputKeeps(b: Boundary, g: Aggregate)
    requires 0.0 < b.safeLimit < b.technicalLimit
    ensures InputFor(b, g).boundary == b
  {
  }

  // The bottleneck does not depend on the order of the boundaries.
  lemma BottleneckOrderFree(all: seq<Boundary>, all': seq<Boundary>, bySeries: map<string, Aggregate>, inputs: seq<BottleneckInput>,
                            inputs': seq<BottleneckInput>)
    requires all != [] && multiset(all) == multiset(all') && Distinct(Project(all, BoundaryId))
    requires Inputs(all, bySeries, inputs) && Inputs(all', bySeries, inputs')
    ensures inputs != [] && inputs' != [] && Tightest(inputs) == Tightest(inputs')
  {
    hide Tightest, Less, InputFor, BoundaryKey, Inputs;
    assert |multiset(all)| == |all| && |multiset(all')| == |all'|;
    InputsSize(all, bySeries, inputs);
    InputsSize(all', bySeries, inputs');
    TightestIsLeast(inputs);
    TightestIsLeast(inputs');
    var x, y := Tightest(inputs), Tightest(inputs');
    InputsIncluded(all, all', bySeries, inputs, inputs', x);
    InputsIncluded(all', all, bySeries, inputs', inputs, y);
    LessTotal(x.boundary.id, y.boundary.id);
    SameBoundary(all, bySeries, inputs, x, y);
  }

  lemma InputsSize(all: seq<Boundary>, bySeries: map<string, Aggregate>, inputs: seq<BottleneckInput>)
    requires Inputs(all, bySeries, inputs)
    ensures |inputs| == |all|
  {
    hide BoundaryKey, InputFor;
  }

  lemma SameBoundary(all: seq<Boundary>, bySeries: map<string, Aggregate>, inputs: seq<BottleneckInput>, x: BottleneckInput, y: BottleneckInput)
    requires Distinct(Project(all, BoundaryId)) && Inputs(all, bySeries, inputs) && x in inputs && y in inputs
    ensures x.boundary.id == y.boundary.id ==> x == y
  {
    hide BoundaryKey;
    var i :| 0 <= i < |inputs| && inputs[i] == x;
    var j :| 0 <= j < |inputs| && inputs[j] == y;
    InputKeeps(all[i], bySeries[BoundaryKey(all[i])]);
    InputKeeps(all[j], bySeries[BoundaryKey(all[j])]);
    var ids := Project(all, BoundaryId);
    assert x.boundary.id == y.boundary.id ==> ids[i] == ids[j];
  }

  // The first n boundaries have been accepted.
  ghost predicate Selected(all: seq<Boundary>, n: nat, ids: set<string>, series: set<string>, bySeries: map<string, Aggregate>,
                           inputs: seq<BottleneckInput>, best: Option<BottleneckInput>, isAddress: string -> bool)
    requires n <= |all|
  {
    && Distinct(Project(all, BoundaryId)[..n]) && ids == Elements(Project(all, BoundaryId)[..n])
    && Distinct(Project(all, BoundaryKey)[..n]) && series == Elements(Project(all, BoundaryKey)[..n])
    && (forall i | 0 <= i < n :: BoundaryOk(all[i], isAddress) && BoundaryKey(all[i]) in bySeries)
    && Inputs(all[..n], bySeries, inputs)
    && if n == 0 then best == None else best == Some(Tightest(inputs))
  }

  predicate Acceptable(b: Boundary, ids: set<string>, series: set<string>, bySeries: map<string, Aggregate>, isAddress: string -> bool) {
    BoundaryOk(b, isAddress) && BoundaryId(b) !in ids && BoundaryKey(b) !in series && BoundaryKey(b) in bySeries
  }

  lemma SelectedStart(all: seq<Boundary>, bySeries: map<string, Aggregate>, isAddress: string -> bool)
    ensures Selected(all, 0, {}, {}, bySeries, [], None, isAddress)
  {
    hide BoundaryOk, BoundaryId, BoundaryKey;
  }

  lemma SelectedStep(all: seq<Boundary>, n: nat, ids: set<string>, series: set<string>, bySeries: map<string, Aggregate>,
                     inputs: seq<BottleneckInput>, best: Option<BottleneckInput>, isAddress: string -> bool)
    requires n < |all| && Selected(all, n, ids, series, bySeries, inputs, best, isAddress)
    requires Acceptable(all[n], ids, series, bySeries, isAddress) && 0.0 < all[n].safeLimit < all[n].technicalLimit
    ensures var input := InputFor(all[n], bySeries[BoundaryKey(all[n])]);
      Selected(all, n + 1, ids + {BoundaryId(all[n])}, series + {BoundaryKey(all[n])}, bySeries, inputs + [input],
               if best.None? || Tighter(input, best.value) then Some(input) else best, isAddress)
  {
    hide BoundaryOk, BoundaryId, BoundaryKey, Distinct, InputFor, Tighter;
    SeenStep(Project(all, BoundaryId), n);
    SeenStep(Project(all, BoundaryKey), n);
    var input := InputFor(all[n], bySeries[BoundaryKey(all[n])]);
    assert (inputs + [input])[..n] == inputs;
    assert all[..n + 1] == all[..n] + [all[n]];
  }

  lemma SelectedReject(all: seq<Boundary>, n: nat, ids: set<string>, series: set<string>, bySeries: map<string, Aggregate>,
                       inputs: seq<BottleneckInput>, best: Option<BottleneckInput>, isAddress: string -> bool)
    requires n < |all| && Selected(all, n, ids, series, bySeries, inputs, best, isAddress)
    requires !Acceptable(all[n], ids, series, bySeries, isAddress)
    ensures !BoundariesOk(all, bySeries.Keys, isAddress)
  {
    hide BoundaryOk, BoundaryId, BoundaryKey, Distinct, Inputs, Tightest;
    SeenStep(Project(all, BoundaryId), n);
    SeenStep(Project(all, BoundaryKey), n);
  }

  lemma SelectedAll(all: seq<Boundary>, ids: set<string>, series: set<string>, bySeries: map<string, Aggregate>,
                    inputs: seq<BottleneckInput>, best: Option<BottleneckInput>, isAddress: string -> bool)
    requires 1 <= |all| <= MAX_BOUNDARIES && Selected(all, |all|, ids, series, bySeries, inputs, best, isAddress)
    ensures BoundariesOk(all, bySeries.Keys, isAddress) && inputs != [] && Inputs(all, bySeries, inputs) && best == Some(Tightest(inputs))
  {
    hide BoundaryOk, BoundaryId, BoundaryKey, Distinct, InputFor, Tightest;
    var ids', keys := Project(all, BoundaryId), Project(all, BoundaryKey);
    assert all[..|all|] == all && ids'[..|all|] == ids' && keys[..|all|] == keys;
  }

  lemma LimitsPositive(b: Boundary, isAddress: string -> bool)
    requires BoundaryOk(b, isAddress)
    ensures 0.0 < b.safeLimit < b.technicalLimit
  {
    hide ValidId, TargetOk;
  }

  // The selection loop of BuildRecommendationInput over fresh aggregates: it
  // succeeds exactly on well-formed boundaries, distinct in identity and in
  // series, each with an aggregate, and then returns the tightest input.
  method SelectBottleneck(boundaries: seq<Boundary>, bySeries: map<string, Aggregate>, isAddress: string -> bool)
    returns (result: Option<BottleneckInput>, ghost inputs: seq<BottleneckInput>)
    ensures result.Some? <==> BoundariesOk(Project(boundaries, CanonicalBoundary), bySeries.Keys, isAddress)
    ensures result.Some? ==> inputs != [] && Inputs(Project(boundaries, CanonicalBoundary), bySeries, inputs) && result.value == Tightest(inputs)
  {
    hide CanonicalBoundary, BoundaryOk, BoundaryId, BoundaryKey, Selected, Tighter, InputFor, Inputs, Tightest, Distinct;
    ghost var all := Project(boundaries, CanonicalBoundary);
    inputs := [];
    if |boundaries| == 0 || |boundaries| > MAX_BOUNDARIES {
      return None, inputs;
    }
    var ids: set<string>, series: set<string> := {}, {};
    var best: Option<BottleneckInput> := None;
    SelectedStart(all, bySeries, isAddress);
    for n := 0 to |boundaries|
      invariant Selected(all, n, ids, series, bySeries, inputs, best, isAddress)
    {
      var b := CanonicalBoundary(boundaries[n]);
      var id, key := BoundaryId(b), BoundaryKey(b);
      if !BoundaryOk(b, isAddress) || id in ids || key in series || key !in bySeries {
        SelectedReject(all, n, ids, series, bySeries, inputs, best, isAddress);
        return None, inputs;
      }
      LimitsPositive(b, isAddress);
      SelectedStep(all, n, ids, series, bySeries, inputs, best, isAddress);
      ids := ids + {id};
      series := series + {key};
      var input := InputFor(b, bySeries[key]);
      if best.None? || Tighter(input, best.value) {
        best := Some(input);
      }
      inputs := inputs + [input];
    }
    SelectedAll(all, ids, series, bySeries, inputs, best, isAddress);
    result := best;
  }

  datatype RecommendationInput = RecommendationInput(
    evaluatedAt: int, aggregates: seq<Aggregate>, bottleneck: BottleneckInput, advisoryOnly: bool, productionMutation: bool)

  method BuildRecommendationInput(batch: Batch, boundaries: seq<Boundary>, evaluatedAt: int, isAddress: string -> bool)
    returns (result: Option<RecommendationInput>, ghost bySeries: map<string, Aggregate>, ghost inputs: seq<BottleneckInput>)
    ensures var s := Normalized(batch, evaluatedAt, isAddress);
      result.Some? ==>
        && s.Some? && (forall i | 0 <= i < |s.value| :: s.value[i].window.sampleCount >= 1) && WithinBounds(s.value)
        && result.value.aggregates == Aggregates(s.value, evaluatedAt) && result.value.evaluatedAt == evaluatedAt
        && Indexed(bySeries, result.value.aggregates)
        && BoundariesOk(Project(boundaries, CanonicalBoundary), bySeries.Keys, isAddress)
        && inputs != [] && Inputs(Project(boundaries, CanonicalBoundary), bySeries, inputs)
        && result.value.bottleneck == Tightest(inputs)
        && result.value.advisoryOnly && !result.value.productionMutation
    ensures var s := Normalized(batch, evaluatedAt, isAddress);
      result.Some? <==>
        && s.Some? && WithinBounds(s.value)
        && BoundariesOk(Project(boundaries, CanonicalBoundary), Keys(s.value), isAddress)
  {
    hide Normalized, WithinBounds, Aggregates, BoundariesOk, Inputs, Tightest, Neat, Distinct, LabelsOk;
    bySeries, inputs := map[], [];
    var normalized := NormalizeBatch(batch, evaluatedAt, isAddress);
    if normalized.None? {
      return None, bySeries, inputs;
    }
    NormalizedIsNeat(batch, evaluatedAt, isAddress);
    var aggregates := AggregateNormalized(normalized.value, evaluatedAt);
    if aggregates.None? {
      return None, bySeries, inputs;
    }
    var index := IndexAggregates(aggregates.value);
    IndexedKeys(normalized.value, evaluatedAt, index);
    bySeries := index;
    var bottleneck: Option<BottleneckInput>;
    bottleneck, inputs := SelectBottleneck(boundaries, index, isAddress);
    if bottleneck.None? {
      return None, bySeries, inputs;
    }
    result := Some(RecommendationInput(evaluatedAt, aggregates.value, bottleneck.value, true, false));
  }

  method IndexAggregates(aggregates: seq<Aggregate>) returns (bySeries: map<string, Aggregate>)
    ensures Indexed(bySeries, aggregates)
  {
    hide AggregateKey;
    bySeries := map[];
    for n := 0 to |aggregates|
      invariant forall key | key in bySeries :: bySeries[key] in aggregates && AggregateKey(bySeries[key]) == key
      invariant forall i | 0 <= i < n :: AggregateKey(aggregates[i]) in bySeries
    {
      bySeries := bySeries[AggregateKey(aggregates[n]) := aggregates[n]];
    }
  }

  // The index has exactly the series of the batch.
  lemma IndexedKeys(s: seq<Observation>, evaluatedAt: int, bySeries: map<string, Aggregate>)
    requires (forall i | 0 <= i < |s| :: s[i].window.sampleCount >= 1) && Indexed(bySeries, Aggregates(s, evaluatedAt))
    ensures bySeries.Keys == Keys(s)
  {
    hide AggregateKey, AggregateAt, Keys, SeriesKey, Sorted;
    var g, keys := Aggregates(s, evaluatedAt), Sorted(Keys(s));
    forall i | 0 <= i < |g| ensures AggregateKey(g[i]) == keys[i] && keys[i] in Keys(s) {
      BelongsFinish(s, keys[i], evaluatedAt);
      assert Belongs(s, keys[i], g[i], evaluatedAt);
      assert keys[i] in Elements(keys);
    }
    forall key | key in bySeries ensures key in Keys(s) {
      assert bySeries[key] in g;
    }
    forall key | key in Keys(s) ensures key in bySeries {
      assert key in Elements(keys);
      var i :| 0 <= i < |keys| && keys[i] == key;
      assert g[i] in g;
    }
  }
}
