// Least-squares workload forecast (internal/capacity/forecast.go), with
// float64 idealised as real.
module Forecast {
  import opened Options
  import opened Sorting
  import opened Text

  datatype Growth = Growth(id: string, day: real, workload: real)

  datatype Request = Request(scopeId: string, workloadUnit: string, horizonDays: real, safetyMarginPercent: real)

  datatype Quality = Low | Medium | High

  datatype Forecast = Forecast(
    scopeId: string, workloadUnit: string, sampleCount: int, currentWorkload: real, dailyGrowth: real, horizonDays: real,
    projectedWorkload: real, safetyMarginPercent: real, planningWorkload: real, fitRSquared: real, quality: Quality,
    advisoryOnly: bool, productionMutation: bool)

  // ---- tolerances ----

  const LIMIT := 1_000_000_000_000_000_000_000.0
  const TOLERANCE := 0.000000001

  function Abs(x: real): real {
    if x < 0.0 then -x else x
  }

  predicate Finite(x: real) {
    Abs(x) <= LIMIT
  }

  function Scale(a: real, b: real): real {
    var s := if Abs(a) > 1.0 then Abs(a) else 1.0;
    if Abs(b) > s then Abs(b) else s
  }

  // floatTolerance of two values; of one value it is Tolerance(x, x).
  function Tolerance(a: real, b: real): real {
    Scale(a, b) * TOLERANCE
  }

  predicate Close(a: real, b: real) {
    Finite(a) && Finite(b) && Abs(a - b) <= Tolerance(a, b)
  }

  // ---- the observations ----

  predicate ValidId(s: string) {
    IsIdentifier(s, "._:-", 255)
  }

  function Trimmed(o: Growth): Growth {
    o.(id := TrimSpace(o.id))
  }

  function IdKey(o: Growth): string {
    o.id
  }

  predicate GrowthOk(o: Growth) {
    ValidId(o.id) && Finite(o.day) && o.day >= 0.0 && Finite(o.workload) && o.workload >= 0.0
  }

  // By day; days within the tolerance of each other by identity. This need
  // not be transitive.
  predicate DayLess(a: Growth, b: Growth) {
    if !Close(a.day, b.day) then a.day < b.day else Less(a.id, b.id)
  }

  ghost predicate ObservationsOk(obs: seq<Growth>) {
    && 2 <= |obs| <= 4096
    && (forall i | 0 <= i < |obs| :: GrowthOk(obs[i]))
    && Distinct(Project(obs, IdKey))
  }

  ghost predicate DaysApart(obs: seq<Growth>) {
    forall i | 0 < i < |obs| :: !Close(obs[i - 1].day, obs[i].day)
  }

  // Where the comparison is a strict weak order on the observations a sort puts
  // them in order; otherwise it only rearranges them.
  ghost predicate DaysConsistent(obs: seq<Growth>) {
    WeakOrderOn(Elements(obs), DayLess)
  }

  ghost predicate DaySortOutcome(obs: seq<Growth>, p: seq<Growth>) {
    multiset(p) == multiset(obs) && (DaysConsistent(obs) ==> Ordered(p, DayLess))
  }

  ghost predicate DaySorts(sorter: seq<Growth> -> seq<Growth>) {
    forall s :: DaySortOutcome(s, sorter(s))
  }

  // The observations as they enter the fit, or None when they are refused.
  ghost function Prepared(obs: seq<Growth>, sorter: seq<Growth> -> seq<Growth>): Option<seq<Growth>> {
    var all := Project(obs, Trimmed);
    if ObservationsOk(all) && DaysApart(sorter(all)) then Some(sorter(all)) else None
  }

  // ---- sums ----

  // A product kept apart from the solver's own arithmetic; lemmas that need
  // more than its sign use it in the open.
  function Times(x: real, y: real): real {
    x * y
  }

  function Square(x: real): real {
    Times(x, x)
  }

  function SumDay(obs: seq<Growth>): real {
    if obs == [] then 0.0 else SumDay(obs[..|obs| - 1]) + obs[|obs| - 1].day
  }

  function SumWork(obs: seq<Growth>): real {
    if obs == [] then 0.0 else SumWork(obs[..|obs| - 1]) + obs[|obs| - 1].workload
  }

  function Covariance(obs: seq<Growth>, mx: real, my: real): real {
    if obs == [] then 0.0 else Covariance(obs[..|obs| - 1], mx, my) + Times(obs[|obs| - 1].day - mx, obs[|obs| - 1].workload - my)
  }

  function Variance(obs: seq<Growth>, mx: real): real {
    if obs == [] then 0.0 else Variance(obs[..|obs| - 1], mx) + Square(obs[|obs| - 1].day - mx)
  }

  function Total(obs: seq<Growth>, my: real): real {
    if obs == [] then 0.0 else Total(obs[..|obs| - 1], my) + Square(obs[|obs| - 1].workload - my)
  }

  // Squared distances from the line a + b * day.
  function Residual(obs: seq<Growth>, a: real, b: real): real {
    if obs == [] then 0.0
    else Residual(obs[..|obs| - 1], a, b) + Square(obs[|obs| - 1].workload - (a + Times(b, obs[|obs| - 1].day)))
  }

  function MeanDay(obs: seq<Growth>): real
    requires obs != []
  {
    SumDay(obs) / |obs| as real
  }

  function MeanWork(obs: seq<Growth>): real
    requires obs != []
  {
    SumWork(obs) / |obs| as real
  }

  function DayVariance(obs: seq<Growth>): real
    requires obs != []
  {
    Variance(obs, MeanDay(obs))
  }

  function Slope(obs: seq<Growth>): real
    requires obs != [] && DayVariance(obs) != 0.0
  {
    Covariance(obs, MeanDay(obs), MeanWork(obs)) / DayVariance(obs)
  }

  function Intercept(obs: seq<Growth>): real
    requires obs != [] && DayVariance(obs) != 0.0
  {
    MeanWork(obs) - Times(Slope(obs), MeanDay(obs))
  }

  // ---- signs of products ----

  lemma TimesPositive(x: real, y: real)
    requires x > 0.0 && y > 0.0
    ensures Times(x, y) > 0.0
  {
  }

  lemma TimesZero(x: real)
    ensures Times(0.0, x) == 0.0 && Times(x, 0.0) == 0.0 && Times(-x, -x) == Times(x, x)
  {
  }

  lemma SquareSign(x: real)
    ensures Square(x) >= 0.0 && (x != 0.0 ==> Square(x) > 0.0)
  {
    hide Times;
    TimesZero(x);
    if x > 0.0 {
      TimesPositive(x, x);
    } else if x < 0.0 {
      TimesPositive(-x, -x);
    }
  }

  lemma WeightedSquare(v: real, x: real)
    requires v > 0.0
    ensures Times(v, Square(x)) >= 0.0 && (x != 0.0 ==> Times(v, Square(x)) > 0.0)
  {
    hide Times;
    SquareSign(x);
    TimesZero(v);
    TimesZero(0.0);
    if x != 0.0 {
      TimesPositive(v, Square(x));
    } else {
      TimesZero(x);
    }
  }

  // ---- the fit ----

  // The residual sum written around a centre that a line misses by u.
  function Around(t: real, v: real, c: real, sy: real, sx: real, n: real, b: real, u: real): real {
    t + b * b * v + n * (u * u) - 2.0 * b * c - 2.0 * u * sy + 2.0 * b * u * sx
  }

  lemma ExpandSquare(dx: real, dy: real, b: real, u: real)
    ensures (dy - b * dx - u) * (dy - b * dx - u)
      == dy * dy + b * b * (dx * dx) + u * u - 2.0 * b * (dx * dy) - 2.0 * u * dy + 2.0 * b * u * dx
  {
  }

  lemma CollectTerms(t: real, v: real, c: real, sy: real, sx: real, n: real, b: real, u: real, dx: real, dy: real)
    ensures Around(t, v, c, sy, sx, n, b, u)
          + (dy * dy + b * b * (dx * dx) + u * u - 2.0 * b * (dx * dy) - 2.0 * u * dy + 2.0 * b * u * dx)
      == Around(t + dy * dy, v + dx * dx, c + dx * dy, sy + dy, sx + dx, n + 1.0, b, u)
  {
  }

  lemma ShiftedResidual(a: real, b: real, mx: real, my: real, x: real, y: real)
    ensures y - (a + Times(b, x)) == (y - my) - Times(b, x - mx) - (a + Times(b, mx) - my)
  {
  }

  lemma SquaredResidual(dx: real, dy: real, b: real, u: real)
    ensures Square(dy - Times(b, dx) - u) == dy * dy + b * b * (dx * dx) + u * u - 2.0 * b * (dx * dy) - 2.0 * u * dy + 2.0 * b * u * dx
  {
    ExpandSquare(dx, dy, b, u);
  }

  lemma OneMoreTimes(n: real, m: real)
    ensures Times(n + 1.0, m) == Times(n, m) + m
  {
  }

  lemma Products(dx: real, dy: real)
    ensures Square(dx) == dx * dx && Square(dy) == dy * dy && Times(dx, dy) == dx * dy
  {
  }

  lemma OneMorePoint(t: real, v: real, c: real, sw: real, sd: real, n: real, a: real, b: real, mx: real, my: real, x: real, y: real)
    ensures Around(t, v, c, sw - Times(n, my), sd - Times(n, mx), n, b, a + Times(b, mx) - my) + Square(y - (a + Times(b, x)))
      == Around(t + Square(y - my), v + Square(x - mx), c + Times(x - mx, y - my), (sw + y) - Times(n + 1.0, my),
                (sd + x) - Times(n + 1.0, mx), n + 1.0, b, a + Times(b, mx) - my)
  {
    var u, dx, dy := a + Times(b, mx) - my, x - mx, y - my;
    ShiftedResidual(a, b, mx, my, x, y);
    SquaredResidual(dx, dy, b, u);
    CollectTerms(t, v, c, sw - Times(n, my), sd - Times(n, mx), n, b, u, dx, dy);
    OneMoreTimes(n, my);
    OneMoreTimes(n, mx);
    Products(dx, dy);
    hide Around, Times, Square;
  }

  // The residual of any line in terms of the spread around any centre.
  lemma {:induction false} ResidualAround(obs: seq<Growth>, a: real, b: real, mx: real, my: real)
    ensures var n := |obs| as real;
      Residual(obs, a, b) == Around(Total(obs, my), Variance(obs, mx), Covariance(obs, mx, my),
                                    SumWork(obs) - Times(n, my), SumDay(obs) - Times(n, mx), n, b, a + Times(b, mx) - my)
  {
    if obs != [] {
      hide Around, Times, Square;
      var front, last := obs[..|obs| - 1], obs[|obs| - 1];
      ResidualAround(front, a, b, mx, my);
      OneMorePoint(Total(front, my), Variance(front, mx), Covariance(front, mx, my), SumWork(front), SumDay(front),
                   |front| as real, a, b, mx, my, last.day, last.workload);
    }
  }

  lemma MeansCentre(obs: seq<Growth>)
    requires obs != []
    ensures SumDay(obs) == Times(|obs| as real, MeanDay(obs)) && SumWork(obs) == Times(|obs| as real, MeanWork(obs))
  {
  }

  // With slope s = c / v, completing the square.
  lemma AroundMeans(t: real, v: real, c: real, s: real, n: real, b: real, u: real)
    requires c == s * v
    ensures Around(t, v, c, 0.0, 0.0, n, b, u) == (t - s * s * v) + Times(v, Square(b - s)) + Times(n, Square(u))
  {
    assert b * c == b * s * v;
    assert v * ((b - s) * (b - s)) == b * b * v - 2.0 * (b * s * v) + s * s * v;
  }

  lemma ResidualAroundMeans(obs: seq<Growth>, a: real, b: real)
    requires obs != [] && DayVariance(obs) > 0.0
    ensures var mx, my, v, s := MeanDay(obs), MeanWork(obs), DayVariance(obs), Slope(obs);
      Residual(obs, a, b) == (Total(obs, my) - s * s * v) + Times(v, Square(b - s)) + Times(|obs| as real, Square(a + Times(b, mx) - my))
  {
    hide Residual, Total, Variance, Covariance, SumDay, SumWork, Around, Times, Square, MeanDay, MeanWork;
    var mx, my, v := MeanDay(obs), MeanWork(obs), DayVariance(obs);
    var c := Covariance(obs, mx, my);
    MeansCentre(obs);
    ResidualAround(obs, a, b, mx, my);
    QuotientTimes(c, v);
    AroundMeans(Total(obs, my), v, c, c / v, |obs| as real, b, a + Times(b, mx) - my);
  }

  lemma QuotientTimes(c: real, v: real)
    requires v != 0.0
    ensures c == (c / v) * v
  {
  }

  // How much worse any other line is: the fitted line is the unique minimum
  // of the sum of squared residuals.
  lemma FittedLineIsOptimal(obs: seq<Growth>, a: real, b: real)
    requires obs != [] && DayVariance(obs) > 0.0
    ensures Residual(obs, a, b) == Residual(obs, Intercept(obs), Slope(obs))
        + Times(DayVariance(obs), Square(b - Slope(obs))) + Times(|obs| as real, Square(a + Times(b, MeanDay(obs)) - MeanWork(obs)))
    ensures Residual(obs, Intercept(obs), Slope(obs)) <= Residual(obs, a, b)
    ensures Residual(obs, a, b) == Residual(obs, Intercept(obs), Slope(obs)) ==> a == Intercept(obs) && b == Slope(obs)
  {
    hide Residual, Total, Variance, Covariance, Times, Square, MeanDay, MeanWork, Slope;
    var mx, my, v, s, n := MeanDay(obs), MeanWork(obs), DayVariance(obs), Slope(obs), |obs| as real;
    ResidualAroundMeans(obs, a, b);
    ResidualAroundMeans(obs, Intercept(obs), s);
    SquareOfZero();
    TimesZero(v);
    TimesZero(n);
    WeightedSquare(v, b - s);
    WeightedSquare(n, a + Times(b, mx) - my);
  }

  lemma SquareOfZero()
    ensures Square(0.0) == 0.0
  {
  }

  lemma {:induction false} SumsOfSquares(obs: seq<Growth>, a: real, b: real, my: real)
    ensures Residual(obs, a, b) >= 0.0 && Total(obs, my) >= 0.0
    ensures Residual(obs, my, 0.0) == Total(obs, my)
  {
    hide Times, Square;
    if obs != [] {
      SumsOfSquares(obs[..|obs| - 1], a, b, my);
      var last := obs[|obs| - 1];
      TimesZero(last.day);
      SquareSign(last.workload - (a + Times(b, last.day)));
      SquareSign(last.workload - my);
    }
  }

  function RSquared(residual: real, total: real): real {
    if total > Tolerance(total, total) then 1.0 - residual / total else 1.0
  }

  lemma RatioWithinUnit(residual: real, total: real)
    requires 0.0 <= residual <= total && total > 0.0
    ensures 0.0 <= 1.0 - residual / total <= 1.0
  {
  }

  // The coefficient of determination lies in [0, 1] before any clamping.
  lemma RSquaredNeedsNoClamp(obs: seq<Growth>)
    requires obs != [] && DayVariance(obs) > 0.0
    ensures 0.0 <= RSquared(Residual(obs, Intercept(obs), Slope(obs)), Total(obs, MeanWork(obs))) <= 1.0
  {
    hide Residual, Total, Variance, Covariance, MeanDay, MeanWork, Intercept, Slope, Times, Square;
    var my := MeanWork(obs);
    SumsOfSquares(obs, Intercept(obs), Slope(obs), my);
    FittedLineIsOptimal(obs, my, 0.0);
    var res, total := Residual(obs, Intercept(obs), Slope(obs)), Total(obs, my);
    if total > Tolerance(total, total) {
      assert Scale(total, total) * TOLERANCE > 0.0;
      RatioWithinUnit(res, total);
    }
  }

  // ---- order of days ----

  lemma CloseSymmetric(a: real, b: real)
    ensures Close(a, b) <==> Close(b, a)
  {
    assert Abs(a - b) == Abs(b - a) && Scale(a, b) == Scale(b, a);
  }

  ghost predicate NeighboursInOrder(p: seq<Growth>) {
    forall i | 0 < i < |p| :: !DayLess(p[i], p[i - 1])
  }

  lemma NeighboursOfConsistent(obs: seq<Growth>, p: seq<Growth>)
    requires DaySortOutcome(obs, p) && DaysConsistent(obs)
    ensures NeighboursInOrder(p)
  {
  }

  lemma NeighboursOfInsertion(obs: seq<Growth>)
    ensures NeighboursInOrder(Sort(obs, DayLess))
  {
    hide Close;
    forall a, b | DayLess(a, b) ensures !DayLess(b, a) {
      CloseSymmetric(a.day, b.day);
      if Close(a.day, b.day) {
        LessAsymmetric(a.id, b.id);
      }
    }
    SortAdjacent(obs, DayLess);
  }

  lemma SameObservations(obs: seq<Growth>, p: seq<Growth>)
    requires multiset(p) == multiset(obs)
    ensures |p| == |obs| && forall o :: o in p <==> o in obs
  {
    assert |multiset(p)| == |p| && |multiset(obs)| == |obs|;
    forall o ensures o in p <==> o in obs {
      assert o in p <==> o in multiset(p);
      assert o in obs <==> o in multiset(obs);
    }
  }

  // The order that the fit and the current workload rely on.
  ghost predicate DaysIncrease(p: seq<Growth>) {
    forall i, j | 0 <= i < j < |p| :: p[i].day < p[j].day
  }

  // Accepted observations are in strictly increasing order of day exactly if
  // neighbours came out of the sort in order, which they do wherever the
  // comparison is consistent. The last one is then the current workload.
  lemma PreparedDaysIncrease(obs: seq<Growth>, sorter: seq<Growth> -> seq<Growth>)
    requires DaySorts(sorter) && Prepared(obs, sorter).Some?
    ensures var p := Prepared(obs, sorter).value;
      && |p| == |obs| && multiset(p) == multiset(Project(obs, Trimmed))
      && (DaysIncrease(p) <==> NeighboursInOrder(p))
      && (DaysConsistent(Project(obs, Trimmed)) ==> DaysIncrease(p))
  {
    hide Close, GrowthOk, Distinct, DaysConsistent;
    var all := Project(obs, Trimmed);
    var p := sorter(all);
    assert DaySortOutcome(all, p);
    SameObservations(all, p);
    if DaysConsistent(all) {
      NeighboursOfConsistent(all, p);
    }
    forall i | 0 < i < |p| ensures p[i - 1].day < p[i].day <==> !DayLess(p[i], p[i - 1]) {
      CloseSymmetric(p[i].day, p[i - 1].day);
      FiniteDay(all, p[i]);
      FiniteDay(all, p[i - 1]);
      NotCloseDiffers(p[i - 1].day, p[i].day);
    }
    if NeighboursInOrder(p) {
      NeighboursIncrease(p);
    }
  }

  lemma FiniteDay(all: seq<Growth>, o: Growth)
    requires ObservationsOk(all) && o in all
    ensures Finite(o.day) && o.day >= 0.0
  {
    hide Distinct, ValidId, Finite;
  }

  lemma NotCloseDiffers(a: real, b: real)
    requires !Close(a, b) && Finite(a) && Finite(b)
    ensures a != b
  {
    assert Scale(a, b) * TOLERANCE > 0.0;
  }

  lemma {:induction false} NeighboursIncrease(p: seq<Growth>)
    requires forall i | 0 < i < |p| :: p[i - 1].day < p[i].day
    ensures forall i, j | 0 <= i < j < |p| :: p[i].day < p[j].day
  {
    if p != [] {
      var front := p[..|p| - 1];
      NeighboursIncrease(front);
      forall i, j | 0 <= i < j < |p| ensures p[i].day < p[j].day {
        if j == |p| - 1 && i < j - 1 {
          assert front[i].day < front[j - 1].day;
        } else if j < |p| - 1 {
          assert front[i].day < front[j].day;
        }
      }
    }
  }

  // ---- which observations are accepted ----

  ghost predicate PairwiseApart(s: seq<Growth>) {
    forall i, j | 0 <= i < j < |s| :: !Close(s[i].day, s[j].day)
  }

  // A day between two close ones is close to the first.
  lemma CloseBetween(a: real, b: real, c: real)
    requires 0.0 <= a <= b <= c && Close(a, c)
    ensures Close(a, b)
  {
    var d := c - b;
    assert Scale(a, c) - d <= Scale(a, b);
    ScaleShrinks(Scale(a, c), d, Scale(a, b));
  }

  lemma ScaleShrinks(x: real, d: real, y: real)
    requires x - d <= y && d >= 0.0
    ensures x * TOLERANCE - d <= y * TOLERANCE
  {
  }

  lemma DifferentPlaces(s: seq<Growth>, i: nat, j: nat)
    requires Distinct(Project(s, IdKey)) && i < |s| && j < |s| && i != j
    ensures s[i].id != s[j].id
  {
    assert Project(s, IdKey)[i] != Project(s, IdKey)[j];
  }

  // Being pairwise apart does not depend on the arrangement.
  lemma ApartPermuted(s: seq<Growth>, p: seq<Growth>)
    requires multiset(p) == multiset(s) && Distinct(Project(s, IdKey)) && PairwiseApart(s)
    ensures PairwiseApart(p)
  {
    hide Close, Distinct;
    SameObservations(s, p);
    ProjectPermuted(s, p, IdKey);
    PermutedDistinct(Project(s, IdKey), Project(p, IdKey));
    forall i, j | 0 <= i < j < |p| ensures !Close(p[i].day, p[j].day) {
      DifferentPlaces(p, i, j);
      assert p[i] in p && p[j] in p;
      var x :| 0 <= x < |s| && s[x] == p[i];
      var y :| 0 <= y < |s| && s[y] == p[j];
      CloseSymmetric(p[i].day, p[j].day);
    }
  }

  // In increasing order, neighbours apart means everything apart.
  lemma NeighboursDecide(p: seq<Growth>)
    requires forall i, j | 0 <= i < j < |p| :: 0.0 <= p[i].day < p[j].day
    requires DaysApart(p)
    ensures PairwiseApart(p)
  {
    hide Close;
    forall i, j | 0 <= i < j < |p| ensures !Close(p[i].day, p[j].day) {
      if Close(p[i].day, p[j].day) {
        CloseBetween(p[i].day, p[i + 1].day, p[j].day);
      }
    }
  }

  // With neighbours in order the check on neighbours decides exactly whether
  // any two days are close.
  lemma PreparedExactly(obs: seq<Growth>, sorter: seq<Growth> -> seq<Growth>)
    requires DaySorts(sorter) && NeighboursInOrder(sorter(Project(obs, Trimmed)))
    ensures var all := Project(obs, Trimmed); Prepared(obs, sorter).Some? <==> ObservationsOk(all) && PairwiseApart(all)
  {
    hide Close, GrowthOk, Distinct, DaysConsistent, NeighboursInOrder, PairwiseApart, DayLess;
    var all := Project(obs, Trimmed);
    var p := sorter(all);
    assert DaySortOutcome(all, p);
    SameObservations(all, p);
    if Prepared(obs, sorter).Some? {
      PreparedDaysIncrease(obs, sorter);
      forall i | 0 <= i < |p| ensures p[i].day >= 0.0 {
        FiniteDay(all, p[i]);
      }
      assert DaysIncrease(p);
      NeighboursDecide(p);
      ProjectPermuted(all, p, IdKey);
      PermutedDistinct(Project(all, IdKey), Project(p, IdKey));
      ApartPermuted(p, all);
    }
    if ObservationsOk(all) && PairwiseApart(all) {
      ApartPermuted(all, p);
      NeighboursApart(p);
    }
  }

  lemma NeighboursApart(p: seq<Growth>)
    requires PairwiseApart(p)
    ensures DaysApart(p)
  {
  }

  lemma ApartIsConsistent(all: seq<Growth>)
    requires ObservationsOk(all) && PairwiseApart(all)
    ensures DaysConsistent(all)
  {
    hide Close, Distinct, Less, GrowthOk;
    forall a, b | a in all && b in all ensures DayLess(a, b) <==> a.day < b.day || (a == b && Less(a.id, a.id)) {
      var i :| 0 <= i < |all| && all[i] == a;
      var j :| 0 <= j < |all| && all[j] == b;
      CloseSymmetric(a.day, b.day);
      if i == j {
        FiniteDay(all, a);
        CloseSelf(a.day);
      } else {
        DifferentPlaces(all, i, j);
      }
    }
    forall a | a in all ensures !Less(a.id, a.id) {
      if Less(a.id, a.id) {
        LessAsymmetric(a.id, a.id);
      }
    }
    hide DayLess;
    DifferentDays(all);
  }

  lemma CloseSelf(a: real)
    requires Finite(a)
    ensures Close(a, a)
  {
    assert Scale(a, a) * TOLERANCE > 0.0;
  }

  lemma DifferentDays(all: seq<Growth>)
    requires ObservationsOk(all) && PairwiseApart(all)
    ensures forall a, b | a in all && b in all && a != b :: a.day != b.day
  {
    hide Close, Distinct, GrowthOk;
    forall a, b | a in all && b in all && a != b ensures a.day != b.day {
      var i :| 0 <= i < |all| && all[i] == a;
      var j :| 0 <= j < |all| && all[j] == b;
      FiniteDay(all, a);
      if a.day == b.day {
        CloseSelf(a.day);
      }
    }
  }

  lemma InsertionDaySorts()
    ensures DaySorts((s: seq<Growth>) => Sort(s, DayLess))
  {
    hide DayLess, Sort;
    var sorter := (s: seq<Growth>) => Sort(s, DayLess);
    forall s ensures DaySortOutcome(s, sorter(s)) {
      SortMultiset(s, DayLess);
      if DaysConsistent(s) {
        SortOrderedOn(s, DayLess, Elements(s));
      }
    }
  }

  // A caller can decide it: observations are accepted whatever the sort does
  // exactly if they are well formed and no two days are close.
  lemma AcceptedWhateverTheSort(obs: seq<Growth>)
    ensures var all := Project(obs, Trimmed);
      (forall sorter | DaySorts(sorter) :: Prepared(obs, sorter).Some?) <==> ObservationsOk(all) && PairwiseApart(all)
  {
    hide Prepared, PairwiseApart, ObservationsOk, DaySorts, DaysConsistent, DayLess, Sort, NeighboursInOrder;
    var all := Project(obs, Trimmed);
    if ObservationsOk(all) && PairwiseApart(all) {
      ApartIsConsistent(all);
      forall sorter | DaySorts(sorter) ensures Prepared(obs, sorter).Some? {
        SortsThis(all, sorter);
        NeighboursOfConsistent(all, sorter(all));
        PreparedExactly(obs, sorter);
      }
    } else {
      var sorter := (s: seq<Growth>) => Sort(s, DayLess);
      InsertionDaySorts();
      NeighboursOfInsertion(all);
      PreparedExactly(obs, sorter);
    }
  }

  lemma SortsThis(all: seq<Growth>, sorter: seq<Growth> -> seq<Growth>)
    requires DaySorts(sorter)
    ensures DaySortOutcome(all, sorter(all))
  {
    hide DaySortOutcome;
  }

  lemma DaysSeparate(all: seq<Growth>)
    requires ObservationsOk(all)
    ensures Separates(all, DayLess)
  {
    hide Close, Less, GrowthOk, Distinct;
    forall i, j | 0 <= i < |all| && 0 <= j < |all| && all[i] != all[j] ensures DayLess(all[i], all[j]) || DayLess(all[j], all[i]) {
      DifferentPlaces(all, i, j);
      LessTotal(all[i].id, all[j].id);
      CloseSymmetric(all[i].day, all[j].day);
      FiniteDay(all, all[i]);
      FiniteDay(all, all[j]);
      if !Close(all[i].day, all[j].day) {
        NotCloseDiffers(all[i].day, all[j].day);
      }
    }
  }

  lemma ObservationsPermuted(s: seq<Growth>, t: seq<Growth>)
    requires multiset(s) == multiset(t) && ObservationsOk(s)
    ensures ObservationsOk(t)
  {
    hide GrowthOk, Distinct;
    SameObservations(s, t);
    ProjectPermuted(s, t, IdKey);
    PermutedDistinct(Project(s, IdKey), Project(t, IdKey));
    forall i | 0 <= i < |t| ensures GrowthOk(t[i]) {
      assert t[i] in t;
    }
  }

  // Where the comparison is consistent, neither the order of the observations
  // nor the sort decides anything.
  lemma PreparedOrderFree(obs: seq<Growth>, obs': seq<Growth>, sorter: seq<Growth> -> seq<Growth>, sorter': seq<Growth> -> seq<Growth>)
    requires DaySorts(sorter) && DaySorts(sorter') && multiset(obs) == multiset(obs') && DaysConsistent(Project(obs, Trimmed))
    ensures Prepared(obs, sorter) == Prepared(obs', sorter')
  {
    hide DaySorts, DayLess, Sort, ObservationsOk, Trimmed, DaysApart, Separates, Ordered;
    var all, all' := Project(obs, Trimmed), Project(obs', Trimmed);
    ProjectPermuted(obs, obs', Trimmed);
    if ObservationsOk(all) {
      ObservationsPermuted(all, all');
      DaysSeparate(all);
      SameObservations(all, all');
      assert Elements(all) == Elements(all');
      SortsThis(all, sorter);
      SortsThis(all', sorter');
      hide DaysConsistent;
      ConsistentSort(all, sorter(all));
      ConsistentSort(all, sorter'(all'));
    } else if ObservationsOk(all') {
      ObservationsPermuted(all', all);
    }
  }

  lemma ConsistentSort(all: seq<Growth>, p: seq<Growth>)
    requires DaysConsistent(all) && Separates(all, DayLess) && multiset(p) == multiset(all) && Ordered(p, DayLess)
    ensures p == Sort(all, DayLess)
  {
    hide DayLess, Sort, Separates, Ordered;
    AnySortAgrees(all, p, DayLess);
  }

  // ---- the forecast ----

  predicate RequestOk(r: Request) {
    && ValidId(TrimSpace(r.scopeId))
    && r.workloadUnit in {"devices", "concurrent-sessions", "jobs-per-minute", "requests-per-second", "instances"}
    && Finite(r.horizonDays) && 0.0 < r.horizonDays <= 3650.0
    && Finite(r.safetyMarginPercent) && 0.0 <= r.safetyMarginPercent <= 200.0
  }

  function Projected(current: real, slope: real, horizon: real): real {
    var p := current + Times(slope, horizon);
    if p < 0.0 then 0.0 else p
  }

  function Planning(projected: real, margin: real): real {
    Times(projected, 1.0 + margin / 100.0)
  }

  function QualityFor(n: nat, r2: real): Quality {
    if n >= 8 && r2 >= 0.8 then High else if n >= 4 && r2 >= 0.5 then Medium else Low
  }

  function ForecastFrom(r: Request, obs: seq<Growth>): Forecast
    requires obs != [] && DayVariance(obs) != 0.0
  {
    var current, slope := obs[|obs| - 1].workload, Slope(obs);
    var projected := Projected(current, slope, r.horizonDays);
    // Unclamped: RSquaredNeedsNoClamp.
    var r2 := RSquared(Residual(obs, Intercept(obs), slope), Total(obs, MeanWork(obs)));
    Forecast(TrimSpace(r.scopeId), r.workloadUnit, |obs|, current, slope, r.horizonDays, projected, r.safetyMarginPercent,
             Planning(projected, r.safetyMarginPercent), r2, QualityFor(|obs|, r2), true, false)
  }

  ghost function Expected(r: Request, observations: seq<Growth>, sorter: seq<Growth> -> seq<Growth>): Option<Forecast>
    requires DaySorts(sorter)
  {
    if !RequestOk(r) || Prepared(observations, sorter).None? then None
    else
      var obs := Prepared(observations, sorter).value;
      PreparedNotEmpty(observations, sorter);
      if DayVariance(obs) <= Tolerance(DayVariance(obs), DayVariance(obs)) then None
      else
        TolerancePositive(DayVariance(obs));
        var f := ForecastFrom(r, obs);
        if Finite(f.planningWorkload) then Some(f) else None
  }

  lemma TolerancePositive(x: real)
    ensures Tolerance(x, x) > 0.0
  {
  }

  lemma PreparedNotEmpty(obs: seq<Growth>, sorter: seq<Growth> -> seq<Growth>)
    requires DaySorts(sorter) && Prepared(obs, sorter).Some?
    ensures |Prepared(obs, sorter).value| == |obs| >= 2
  {
    hide Distinct, GrowthOk, DaysConsistent, DaySorts;
    var all := Project(obs, Trimmed);
    SortsThis(all, sorter);
    SameObservations(all, sorter(all));
  }

  // Where the comparison is consistent the forecast depends on the set of
  // observations only.
  lemma ForecastOrderFree(r: Request, obs: seq<Growth>, obs': seq<Growth>, sorter: seq<Growth> -> seq<Growth>, sorter': seq<Growth> -> seq<Growth>)
    requires DaySorts(sorter) && DaySorts(sorter') && multiset(obs) == multiset(obs') && DaysConsistent(Project(obs, Trimmed))
    ensures Expected(r, obs, sorter) == Expected(r, obs', sorter')
  {
    hide DaySorts, Prepared, DaysConsistent, RequestOk, ForecastFrom, DayVariance, Tolerance;
    PreparedOrderFree(obs, obs', sorter, sorter');
  }

  // ---- what a forecast says ----

  // The current workload moved along the slope for that long, never below zero.
  predicate MovesAlong(projected: real, current: real, slope: real, horizon: real) {
    var moved := current + slope * horizon;
    projected == if moved >= 0.0 then moved else 0.0
  }

  // planned adds margin percent to projected.
  predicate AddsMargin(planned: real, projected: real, margin: real) {
    100.0 * planned == projected * (100.0 + margin)
  }

  lemma ProjectedMoves(current: real, slope: real, horizon: real)
    ensures MovesAlong(Projected(current, slope, horizon), current, slope, horizon) && Projected(current, slope, horizon) >= 0.0
  {
  }

  lemma PlanningAdds(projected: real, margin: real)
    requires projected >= 0.0 && margin >= 0.0
    ensures AddsMargin(Planning(projected, margin), projected, margin) && Planning(projected, margin) >= projected
  {
    var k := margin / 100.0;
    assert projected * (1.0 + k) == projected + projected * k;
    assert projected * (100.0 + margin) == 100.0 * (projected * (1.0 + k));
    assert projected * k >= 0.0;
  }

  // fit is the share of the spread around the mean that the line explains.
  predicate Explains(fit: real, residual: real, total: real) {
    if total > Tolerance(total, total) then fit * total == total - residual else fit == 1.0
  }

  lemma RSquaredExplains(residual: real, total: real)
    ensures Explains(RSquared(residual, total), residual, total)
  {
    TolerancePositive(total);
    hide Tolerance;
    if total > Tolerance(total, total) {
      QuotientTimes(residual, total);
      assert residual / total * total == residual;
    }
  }

  // No line is closer to the observations in the sum of squares.
  ghost predicate LeastSquares(obs: seq<Growth>, a: real, b: real) {
    forall a', b' :: Residual(obs, a, b) <= Residual(obs, a', b')
  }

  lemma SlopeIsLeastSquares(obs: seq<Growth>)
    requires obs != [] && DayVariance(obs) > 0.0
    ensures LeastSquares(obs, Intercept(obs), Slope(obs))
  {
    hide Residual, Variance, Intercept, Slope;
    forall a', b' ensures Residual(obs, Intercept(obs), Slope(obs)) <= Residual(obs, a', b') {
      FittedLineIsOptimal(obs, a', b');
    }
  }

  // A forecast on prepared observations: the growth is the slope of a least
  // squares line, the projection moves the last workload along it, the plan
  // adds the margin, and the quality follows sample count and fit.
  ghost predicate Forecasts(f: Forecast, r: Request, obs: seq<Growth>, intercept: real) {
    && f.sampleCount == |obs| >= 2 && f.currentWorkload == obs[|obs| - 1].workload
    && f.horizonDays == r.horizonDays && f.safetyMarginPercent == r.safetyMarginPercent
    && LeastSquares(obs, intercept, f.dailyGrowth)
    && MovesAlong(f.projectedWorkload, f.currentWorkload, f.dailyGrowth, r.horizonDays)
    && AddsMargin(f.planningWorkload, f.projectedWorkload, r.safetyMarginPercent)
    && 0.0 <= f.projectedWorkload <= f.planningWorkload <= LIMIT
    && Explains(f.fitRSquared, Residual(obs, intercept, f.dailyGrowth), Total(obs, MeanWork(obs))) && 0.0 <= f.fitRSquared <= 1.0
    && (f.quality == High <==> |obs| >= 8 && f.fitRSquared >= 0.8)
    && (f.quality == Low <==> |obs| < 4 || f.fitRSquared < 0.5)
  }

  lemma ForecastMeans(r: Request, observations: seq<Growth>, sorter: seq<Growth> -> seq<Growth>)
    requires DaySorts(sorter) && Expected(r, observations, sorter).Some?
    ensures Prepared(observations, sorter).Some?
    ensures exists intercept ::
      Forecasts(Expected(r, observations, sorter).value, r, Prepared(observations, sorter).value, intercept)
  {
    hide DaySorts, Prepared, TrimSpace, Tolerance, Residual, Total, Slope, Intercept, MeanWork, DayVariance, RSquared, Projected, Planning,
         LeastSquares, MovesAlong, AddsMargin, Explains, ValidId;
    var obs := Prepared(observations, sorter).value;
    PreparedNotEmpty(observations, sorter);
    TolerancePositive(DayVariance(obs));
    var a, b, f := Intercept(obs), Slope(obs), Expected(r, observations, sorter).value;
    SlopeIsLeastSquares(obs);
    RSquaredNeedsNoClamp(obs);
    RSquaredExplains(Residual(obs, a, b), Total(obs, MeanWork(obs)));
    ProjectedMoves(f.currentWorkload, b, r.horizonDays);
    PlanningAdds(f.projectedWorkload, r.safetyMarginPercent);
    assert Forecasts(f, r, obs, a);
  }

  // Validation, trimming and sorting.
  method PrepareObservations(observations: seq<Growth>, sorter: seq<Growth> -> seq<Growth>) returns (result: Option<seq<Growth>>)
    requires DaySorts(sorter)
    ensures result == Prepared(observations, sorter)
  {
    hide TrimSpace, GrowthOk, Close, DaySorts, DaysConsistent;
    ghost var all := Project(observations, Trimmed);
    ghost var ids := Project(all, IdKey);
    if |observations| < 2 || |observations| > 4096 {
      return None;
    }
    var list: seq<Growth> := [];
    var seen: set<string> := {};
    assert Distinct(ids[..0]);
    hide Distinct;
    for n := 0 to |observations|
      invariant list == all[..n] && Distinct(ids[..n]) && seen == Elements(ids[..n])
      invariant forall i | 0 <= i < n :: GrowthOk(all[i])
    {
      var o := Trimmed(observations[n]);
      SeenStep(ids, n);
      if !GrowthOk(o) || o.id in seen {
        return None;
      }
      seen := seen + {o.id};
      list := list + [o];
    }
    assert list == all && ids[..|observations|] == ids;
    var sorted := sorter(list);
    SortsThis(list, sorter);
    SameObservations(list, sorted);
    for i := 1 to |sorted|
      invariant forall k | 0 < k < i :: !Close(sorted[k - 1].day, sorted[k].day)
    {
      if Close(sorted[i - 1].day, sorted[i].day) {
        return None;
      }
    }
    result := Some(sorted);
  }

  method BuildForecast(request: Request, observations: seq<Growth>, sorter: seq<Growth> -> seq<Growth>) returns (result: Option<Forecast>)
    requires DaySorts(sorter)
    ensures result == Expected(request, observations, sorter)
  {
    hide TrimSpace, Prepared, RequestOk, Tolerance, Times, Square, DaySorts;
    if !RequestOk(request) {
      return None;
    }
    var prepared := PrepareObservations(observations, sorter);
    if prepared.None? {
      return None;
    }
    var obs := prepared.value;
    PreparedNotEmpty(observations, sorter);
    var n := |obs|;
    var meanDay, meanWork := 0.0, 0.0;
    for i := 0 to n
      invariant meanDay == SumDay(obs[..i]) && meanWork == SumWork(obs[..i])
    {
      assert obs[..i + 1][..i] == obs[..i];
      meanDay := meanDay + obs[i].day;
      meanWork := meanWork + obs[i].workload;
    }
    assert obs[..n] == obs;
    meanDay := meanDay / n as real;
    meanWork := meanWork / n as real;
    var covariance, dayVariance := Spread(obs, meanDay, meanWork);
    if dayVariance <= Tolerance(dayVariance, dayVariance) {
      return None;
    }
    TolerancePositive(dayVariance);
    var slope := covariance / dayVariance;
    var intercept := meanWork - Times(slope, meanDay);
    var residual, total := Distances(obs, intercept, slope, meanWork);
    var r2 := 1.0;
    TolerancePositive(total);
    if total > Tolerance(total, total) {
      r2 := 1.0 - residual / total;
      RSquaredNeedsNoClamp(obs);
      if r2 < 0.0 {
        r2 := 0.0;
      } else if r2 > 1.0 {
        r2 := 1.0;
      }
    }
    var current := obs[n - 1].workload;
    var projected := current + Times(slope, request.horizonDays);
    if projected < 0.0 {
      projected := 0.0;
    }
    var planning := Times(projected, 1.0 + request.safetyMarginPercent / 100.0);
    if !Finite(planning) {
      return None;
    }
    result := Some(Forecast(TrimSpace(request.scopeId), request.workloadUnit, n, current, slope, request.horizonDays, projected,
                            request.safetyMarginPercent, planning, r2, QualityFor(n, r2), true, false));
  }

  // The second summing loop.
  method Spread(obs: seq<Growth>, meanDay: real, meanWork: real) returns (covariance: real, dayVariance: real)
    ensures covariance == Covariance(obs, meanDay, meanWork) && dayVariance == Variance(obs, meanDay)
  {
    covariance, dayVariance := 0.0, 0.0;
    for i := 0 to |obs|
      invariant covariance == Covariance(obs[..i], meanDay, meanWork) && dayVariance == Variance(obs[..i], meanDay)
    {
      assert obs[..i + 1][..i] == obs[..i];
      var dx := obs[i].day - meanDay;
      covariance := covariance + Times(dx, obs[i].workload - meanWork);
      dayVariance := dayVariance + Square(dx);
    }
    assert obs[..|obs|] == obs;
  }

  // The third summing loop.
  method Distances(obs: seq<Growth>, intercept: real, slope: real, meanWork: real) returns (residual: real, total: real)
    ensures residual == Residual(obs, intercept, slope) && total == Total(obs, meanWork)
  {
    residual, total := 0.0, 0.0;
    for i := 0 to |obs|
      invariant residual == Residual(obs[..i], intercept, slope) && total == Total(obs[..i], meanWork)
    {
      assert obs[..i + 1][..i] == obs[..i];
      var predicted := intercept + Times(slope, obs[i].day);
      var r := obs[i].workload - predicted;
      var centred := obs[i].workload - meanWork;
      residual := residual + Square(r);
      total := total + Square(centred);
    }
    assert obs[..|obs|] == obs;
  }
}
