/** Analyzer: the range generator, return simulator and institutional scorer
    of analyzer.py (class PoolAnalyzer). Pool fields are read through
    to_float with the defaults the code gives at each use. */
module Analyzer {
  import opened Values

  /** The pool fields the analyzer reads, as stored (Null when missing). */
  datatype AnalyzerPool = AnalyzerPool(
    currentPrice: Scalar,
    volatility: Scalar,
    feeTier: Scalar,
    volume24h: Scalar,
    tvlUsd: Scalar,
    il7d: Scalar,
    feeApr: Scalar)

  // ---------------------------------------------------------------------
  // Ranges
  // ---------------------------------------------------------------------

  datatype Multipliers = Multipliers(lower: real, upper: real)

  /** RANGE_MULTIPLIERS: ±15%, ±8%, ±4% around the price. */
  function RangeMultipliers(s: Strategy): (m: Multipliers)
    ensures m.lower + m.upper == 2.0 && 0.0 < m.lower < 1.0 < m.upper
  {
    match s
    case Defensive => Multipliers(0.85, 1.15)
    case Optimized => Multipliers(0.92, 1.08)
    case Aggressive => Multipliers(0.96, 1.04)
  }

  /** One range: the strategy's multipliers, each pushed out by
      (volatility - 15)% when volatility exceeds 15. */
  function RangeFor(price: real, volatility: real, s: Strategy): RangeSpec {
    var m := RangeMultipliers(s);
    var lower := if volatility > 15.0 then m.lower * (1.0 - (volatility - 15.0) / 100.0) else m.lower;
    var upper := if volatility > 15.0 then m.upper * (1.0 + (volatility - 15.0) / 100.0) else m.upper;
    RangeSpec(price * lower, price * upper, (upper - lower) * 100.0, s)
  }

  function PriceOf(pool: AnalyzerPool): real {
    ToFloatOr(pool.currentPrice, 1.0)
  }

  function VolatilityOf(pool: AnalyzerPool): real {
    ToFloatOr(pool.volatility, 10.0)
  }

  /** _generate_ranges, as a specification: one range per strategy, from the
      price (1.0 by default) and the volatility (10.0 by default). */
  function Ranges(pool: AnalyzerPool): map<Strategy, RangeSpec> {
    var price, volatility := PriceOf(pool), VolatilityOf(pool);
    map[Defensive := RangeFor(price, volatility, Defensive),
        Optimized := RangeFor(price, volatility, Optimized),
        Aggressive := RangeFor(price, volatility, Aggressive)]
  }

  /** _generate_ranges: one range per entry of RANGE_MULTIPLIERS. */
  method GenerateRanges(pool: AnalyzerPool) returns (ranges: map<Strategy, RangeSpec>)
    ensures ranges == Ranges(pool)
  {
    var currentPrice := ToFloatOr(pool.currentPrice, 1.0);
    var volatility := ToFloatOr(pool.volatility, 10.0);
    ranges := map[];
    var i := 0;
    while i < |StrategyOrder|
      invariant 0 <= i <= |StrategyOrder|
      invariant forall s: Strategy :: s in ranges <==> s in StrategyOrder[..i]
      invariant forall s :: s in ranges ==> ranges[s] == RangeFor(currentPrice, volatility, s)
    {
      var strategy := StrategyOrder[i];
      var m := RangeMultipliers(strategy);
      var lowerMult := m.lower;
      var upperMult := m.upper;
      if volatility > 15.0 {
        lowerMult := lowerMult * (1.0 - (volatility - 15.0) / 100.0);
        upperMult := upperMult * (1.0 + (volatility - 15.0) / 100.0);
      }
      var range := RangeSpec(currentPrice * lowerMult, currentPrice * upperMult, (upperMult - lowerMult) * 100.0, strategy);
      assert range == RangeFor(currentPrice, volatility, strategy);
      ranges := ranges[strategy := range];
      assert StrategyOrder[..i + 1] == StrategyOrder[..i] + [strategy];
      i := i + 1;
    }
    assert StrategyOrder[..|StrategyOrder|] == StrategyOrder;
    AllStrategiesInOrder(Defensive);
    AllStrategiesInOrder(Optimized);
    AllStrategiesInOrder(Aggressive);
    forall s: Strategy ensures s in ranges {
      AllStrategiesInOrder(s);
    }
    assert ranges.Keys == Ranges(pool).Keys;
  }

  /** The spread at volatility 15 or below: 30, 16 and 8 points. */
  function BaseSpread(s: Strategy): real {
    match s
    case Defensive => 30.0
    case Optimized => 16.0
    case Aggressive => 8.0
  }

  /** Spreads are the multiplier gap in points; volatility above 15 widens
      every spread by 2*(volatility - 15), since the two multipliers add up
      to 2. */
  lemma SpreadFormula(price: real, volatility: real, s: Strategy)
    ensures volatility <= 15.0 ==> RangeFor(price, volatility, s).spreadPercent == BaseSpread(s)
    ensures volatility > 15.0 ==> RangeFor(price, volatility, s).spreadPercent == BaseSpread(s) + 2.0 * (volatility - 15.0)
  {
    var m := RangeMultipliers(s);
    var d := (volatility - 15.0) / 100.0;
    if volatility > 15.0 {
      calc {
        (m.upper * (1.0 + d) - m.lower * (1.0 - d)) * 100.0;
        (m.upper - m.lower) * 100.0 + (m.upper + m.lower) * d * 100.0;
        { assert m.upper + m.lower == 2.0; }
        (m.upper - m.lower) * 100.0 + 2.0 * (volatility - 15.0);
      }
    }
  }

  /** Defensive is wider than optimized, which is wider than aggressive,
      at every volatility. */
  lemma SpreadOrder(price: real, volatility: real)
    ensures RangeFor(price, volatility, Defensive).spreadPercent > RangeFor(price, volatility, Optimized).spreadPercent > RangeFor(price, volatility, Aggressive).spreadPercent
  {
    SpreadFormula(price, volatility, Defensive);
    SpreadFormula(price, volatility, Optimized);
    SpreadFormula(price, volatility, Aggressive);
  }

  /** For a positive price every range straddles it. */
  lemma RangeStraddlesPrice(price: real, volatility: real, s: Strategy)
    requires price > 0.0
    ensures RangeFor(price, volatility, s).minPrice < price < RangeFor(price, volatility, s).maxPrice
  {
    var m := RangeMultipliers(s);
    var d := (volatility - 15.0) / 100.0;
    var lower := if volatility > 15.0 then m.lower * (1.0 - d) else m.lower;
    var upper := if volatility > 15.0 then m.upper * (1.0 + d) else m.upper;
    if volatility > 15.0 {
      assert m.upper * d > 0.0;
      assert m.upper * (1.0 + d) == m.upper + m.upper * d;
      assert m.lower * d > 0.0;
      assert m.lower * (1.0 - d) == m.lower - m.lower * d;
    }
    assert lower < 1.0 < upper;
    assert price * lower < price * 1.0 by {
      assert price * (1.0 - lower) > 0.0;
    }
    assert price * 1.0 < price * upper by {
      assert price * (upper - 1.0) > 0.0;
    }
  }

  // ---------------------------------------------------------------------
  // Time in range
  // ---------------------------------------------------------------------

  /** _estimate_time_in_range: 0 for a spread of 0 or less, else a step
      function of spread / max(volatility, 1). */
  function EstimateTimeInRange(volatility: real, spread: real): (p: real)
    ensures spread <= 0.0 ==> p == 0.0
    ensures spread > 0.0 ==> p in {0.35, 0.50, 0.65, 0.75, 0.85, 0.95}
  {
    if spread <= 0.0 then 0.0
    else
      var ratio := spread / Max(volatility, 1.0);
      if ratio > 3.0 then 0.95
      else if ratio > 2.0 then 0.85
      else if ratio > 1.5 then 0.75
      else if ratio > 1.0 then 0.65
      else if ratio > 0.5 then 0.50
      else 0.35
  }

  lemma RatioAbove(spread: real, m: real, c: real)
    requires m > 0.0
    ensures spread / m > c <==> spread > c * m
  {
    var ratio := spread / m;
    assert ratio * m == spread;
    if ratio > c {
      assert (ratio - c) * m > 0.0;
    } else {
      assert (c - ratio) * m >= 0.0;
    }
  }

  /** The step function restated without division: each step is reached
      exactly when the spread exceeds the matching multiple of
      max(volatility, 1). */
  lemma TimeInRangeSteps(volatility: real, spread: real)
    requires spread > 0.0
    ensures var p := EstimateTimeInRange(volatility, spread); var m := Max(volatility, 1.0);
      (p >= 0.95 <==> spread > 3.0 * m) &&
      (p >= 0.85 <==> spread > 2.0 * m) &&
      (p >= 0.75 <==> spread > 1.5 * m) &&
      (p >= 0.65 <==> spread > 1.0 * m) &&
      (p >= 0.50 <==> spread > 0.5 * m)
  {
    var m := Max(volatility, 1.0);
    RatioAbove(spread, m, 3.0);
    RatioAbove(spread, m, 2.0);
    RatioAbove(spread, m, 1.5);
    RatioAbove(spread, m, 1.0);
    RatioAbove(spread, m, 0.5);
  }

  /** A wider spread never lowers the estimate. */
  lemma TimeInRangeMonotoneInSpread(volatility: real, s1: real, s2: real)
    requires s1 <= s2
    ensures EstimateTimeInRange(volatility, s1) <= EstimateTimeInRange(volatility, s2)
  {
    if s1 > 0.0 {
      TimeInRangeSteps(volatility, s1);
      TimeInRangeSteps(volatility, s2);
    }
  }

  /** A higher volatility never raises the estimate. */
  lemma TimeInRangeAntitoneInVolatility(v1: real, v2: real, spread: real)
    requires v1 <= v2
    ensures EstimateTimeInRange(v2, spread) <= EstimateTimeInRange(v1, spread)
  {
    if spread > 0.0 {
      TimeInRangeSteps(v1, spread);
      TimeInRangeSteps(v2, spread);
      var m1, m2 := Max(v1, 1.0), Max(v2, 1.0);
      assert m1 <= m2;
    }
  }

  // ---------------------------------------------------------------------
  // Period returns and simulations
  // ---------------------------------------------------------------------

  /** Gas per operation in USD, and the $1000 capital the deduction assumes. */
  const AnalyzerGasCostUsd: real := 5.0
  const ReferenceCapitalUsd: real := 1000.0

  /** The TVL used as a divisor: 1 when it is 0 or less. */
  function EffectiveTvl(pool: AnalyzerPool): (t: real)
    ensures t > 0.0
    ensures ToFloatOr(pool.tvlUsd, 1.0) > 0.0 ==> t == ToFloatOr(pool.tvlUsd, 1.0)
    ensures ToFloatOr(pool.tvlUsd, 1.0) <= 0.0 ==> t == 1.0
  {
    var tvl := ToFloatOr(pool.tvlUsd, 1.0);
    if tvl <= 0.0 then 1.0 else tvl
  }

  /** Fees over the period in percent: the daily fee rate volume*fee/100/TVL
      times days, time in range and 100. */
  function FeesPct(pool: AnalyzerPool, days: int, tir: real): real {
    var dailyFeeRate := (ToFloatOr(pool.volume24h, 0.0) * ToFloatOr(pool.feeTier, 0.3) / 100.0) / EffectiveTvl(pool);
    dailyFeeRate * days as real * tir * 100.0
  }

  /** IL over the period: the 7-day IL per day, times days and time in range. */
  function IlOverPeriod(pool: AnalyzerPool, days: int, tir: real): real {
    ToFloatOr(pool.il7d, 0.0) / 7.0 * days as real * tir
  }

  function TirOf(pool: AnalyzerPool, range: RangeSpec): real {
    EstimateTimeInRange(ToFloatOr(pool.volatility, 10.0), range.spreadPercent)
  }

  /** _calculate_period_returns. The reported net return is fees minus IL and
      net_after_gas is exactly 0.5 below it (5 USD of gas on a 1000 USD
      capital), each rounded to cents of a percent; time in range is the
      estimate in percent. */
  function PeriodReturns(pool: AnalyzerPool, range: RangeSpec, days: int): (r: PeriodResult)
    ensures var tir := TirOf(pool, range);
      var fees := FeesPct(pool, days, tir);
      var il := IlOverPeriod(pool, days, tir);
      r.timeInRange == tir * 100.0 &&
      fees - 0.005 <= r.feesCollected <= fees + 0.005 &&
      il - 0.005 <= r.impermanentLoss <= il + 0.005 &&
      (fees - il) - 0.005 <= r.netReturn <= (fees - il) + 0.005
    ensures r.netAfterGas == r.netReturn - 0.5
    ensures r.gasCost == AnalyzerGasCostUsd
    ensures 0.0 <= r.timeInRange <= 95.0
  {
    var tir := TirOf(pool, range);
    var fees := FeesPct(pool, days, tir);
    var il := IlOverPeriod(pool, days, tir);
    var net := fees - il;
    TirPercentExact(tir);
    Round2Shift(net, 50);
    PeriodResult(
      Round1(tir * 100.0),
      Round2(fees),
      Round2(il),
      Round2(net),
      AnalyzerGasCostUsd,
      Round2(net - (AnalyzerGasCostUsd / ReferenceCapitalUsd * 100.0)))
  }

  /** Every estimate, in percent, is a whole number, so round(x, 1) keeps it. */
  lemma TirPercentExact(tir: real)
    requires tir in {0.0, 0.35, 0.50, 0.65, 0.75, 0.85, 0.95}
    ensures Round1(tir * 100.0) == tir * 100.0
  {
    var n := (tir * 100.0).Floor;
    assert n as real == tir * 100.0;
    Round1Tenths(n * 10);
    assert (n * 10) as real / 10.0 == tir * 100.0;
  }

  /** _simulate_returns, as a specification. */
  function Simulations(pool: AnalyzerPool, ranges: map<Strategy, RangeSpec>): map<Strategy, Simulation> {
    map s | s in ranges :: Simulation(PeriodReturns(pool, ranges[s], 7), PeriodReturns(pool, ranges[s], 30))
  }

  /** _simulate_returns: a 7-day and a 30-day result for every range, in the
      ranges' order. */
  method SimulateReturns(pool: AnalyzerPool, ranges: map<Strategy, RangeSpec>) returns (sims: map<Strategy, Simulation>)
    ensures sims == Simulations(pool, ranges)
    ensures sims.Keys == ranges.Keys
  {
    sims := map[];
    var i := 0;
    while i < |StrategyOrder|
      invariant 0 <= i <= |StrategyOrder|
      invariant forall s :: s in sims <==> s in ranges && s in StrategyOrder[..i]
      invariant forall s :: s in sims ==> sims[s] == Simulation(PeriodReturns(pool, ranges[s], 7), PeriodReturns(pool, ranges[s], 30))
    {
      var strategy := StrategyOrder[i];
      if strategy in ranges {
        var rangeData := ranges[strategy];
        sims := sims[strategy := Simulation(PeriodReturns(pool, rangeData, 7), PeriodReturns(pool, rangeData, 30))];
      }
      assert StrategyOrder[..i + 1] == StrategyOrder[..i] + [strategy];
      i := i + 1;
    }
    assert StrategyOrder[..|StrategyOrder|] == StrategyOrder;
    forall s: Strategy | s in ranges ensures s in sims {
      AllStrategiesInOrder(s);
    }
    assert sims.Keys == Simulations(pool, ranges).Keys;
  }

  // ---------------------------------------------------------------------
  // Institutional score
  // ---------------------------------------------------------------------

  /** TVL sub-score: 20 up to 100k, then 40, 60, 80, and 100 above 5M. */
  function TvlScore(tvl: real): (r: int)
    ensures r in {20, 40, 60, 80, 100}
    ensures r >= 60 <==> tvl > 500000.0
  {
    if tvl > 5000000.0 then 100
    else if tvl > 1000000.0 then 80
    else if tvl > 500000.0 then 60
    else if tvl > 100000.0 then 40
    else 20
  }

  /** Volume sub-score: 20 up to 50k, then 40, 60, 80, and 100 above 1M. */
  function VolumeScore(volume: real): (r: int)
    ensures r in {20, 40, 60, 80, 100}
    ensures r >= 60 <==> volume > 100000.0
  {
    if volume > 1000000.0 then 100
    else if volume > 500000.0 then 80
    else if volume > 100000.0 then 60
    else if volume > 50000.0 then 40
    else 20
  }

  /** Fee APR sub-score: 20 up to 10%, then 40, 60, 80, and 100 above 100%. */
  function FeeAprScore(feeApr: real): (r: int)
    ensures r in {20, 40, 60, 80, 100}
    ensures r >= 60 <==> feeApr > 25.0
  {
    if feeApr > 100.0 then 100
    else if feeApr > 50.0 then 80
    else if feeApr > 25.0 then 60
    else if feeApr > 10.0 then 40
    else 20
  }

  /** IL-risk sub-score, inverted: 100 below 1%, down to 20 at 10% or more. */
  function IlRiskScore(il7d: real): (r: int)
    ensures r in {20, 40, 60, 80, 100}
    ensures r >= 60 <==> il7d < 5.0
  {
    if il7d < 1.0 then 100
    else if il7d < 2.0 then 80
    else if il7d < 5.0 then 60
    else if il7d < 10.0 then 40
    else 20
  }

  /** Volatility sub-score, inverted: 100 below 5, down to 20 at 25 or more. */
  function VolatilityScore(volatility: real): (r: int)
    ensures r in {20, 40, 60, 80, 100}
    ensures r >= 60 <==> volatility < 15.0
  {
    if volatility < 5.0 then 100
    else if volatility < 10.0 then 80
    else if volatility < 15.0 then 60
    else if volatility < 25.0 then 40
    else 20
  }

  datatype SubScores = SubScores(tvl: int, volume: int, feeApr: int, ilRisk: int, volatility: int, timeInRange: real)

  predicate HasAllStrategies<T>(sims: map<Strategy, T>) {
    Defensive in sims && Optimized in sims && Aggressive in sims
  }

  /** The best 30-day time in range over the three strategies. */
  function BestTimeInRange30(sims: map<Strategy, Simulation>): (r: real)
    requires HasAllStrategies(sims)
    ensures r in {sims[Defensive].d30.timeInRange, sims[Optimized].d30.timeInRange, sims[Aggressive].d30.timeInRange}
    ensures r >= sims[Defensive].d30.timeInRange && r >= sims[Optimized].d30.timeInRange && r >= sims[Aggressive].d30.timeInRange
  {
    Max(Max(sims[Defensive].d30.timeInRange, sims[Optimized].d30.timeInRange), sims[Aggressive].d30.timeInRange)
  }

  /** The sub-scores of a pool: the five tables over its fields (0 when
      missing) and min(100, best 30-day time in range * 1.2). */
  function SubScoresOf(pool: AnalyzerPool, sims: map<Strategy, Simulation>): (r: SubScores)
    requires HasAllStrategies(sims)
    ensures r.tvl == TvlScore(ToFloatOr(pool.tvlUsd, 0.0))
    ensures r.volume == VolumeScore(ToFloatOr(pool.volume24h, 0.0))
    ensures r.feeApr == FeeAprScore(ToFloatOr(pool.feeApr, 0.0))
    ensures r.ilRisk == IlRiskScore(ToFloatOr(pool.il7d, 0.0))
    ensures r.volatility == VolatilityScore(ToFloatOr(pool.volatility, 0.0))
    ensures BestTimeInRange30(sims) * 1.2 <= 100.0 ==> r.timeInRange == BestTimeInRange30(sims) * 1.2
    ensures BestTimeInRange30(sims) * 1.2 >= 100.0 ==> r.timeInRange == 100.0
    ensures r.timeInRange <= 100.0
    ensures BestTimeInRange30(sims) >= 0.0 ==> r.timeInRange >= 0.0
  {
    var best := BestTimeInRange30(sims);
    SubScores(
      TvlScore(ToFloatOr(pool.tvlUsd, 0.0)),
      VolumeScore(ToFloatOr(pool.volume24h, 0.0)),
      FeeAprScore(ToFloatOr(pool.feeApr, 0.0)),
      IlRiskScore(ToFloatOr(pool.il7d, 0.0)),
      VolatilityScore(ToFloatOr(pool.volatility, 0.0)),
      if best * 1.2 < 100.0 then best * 1.2 else 100.0)
  }

  datatype Metric = TvlMetric | VolumeMetric | FeeAprMetric | IlRiskMetric | VolatilityMetric | TimeInRangeMetric

  /** SCORE_WEIGHTS, in its order. */
  const MetricOrder: seq<Metric> := [TvlMetric, VolumeMetric, FeeAprMetric, IlRiskMetric, VolatilityMetric, TimeInRangeMetric]

  function Weight(m: Metric): real {
    match m
    case TvlMetric => 0.20
    case VolumeMetric => 0.15
    case FeeAprMetric => 0.25
    case IlRiskMetric => 0.20
    case VolatilityMetric => 0.10
    case TimeInRangeMetric => 0.10
  }

  function ScoreFor(sc: SubScores, m: Metric): real {
    match m
    case TvlMetric => sc.tvl as real
    case VolumeMetric => sc.volume as real
    case FeeAprMetric => sc.feeApr as real
    case IlRiskMetric => sc.ilRisk as real
    case VolatilityMetric => sc.volatility as real
    case TimeInRangeMetric => sc.timeInRange
  }

  /** The weighted sum over a list of metrics. */
  function WeightedSum(sc: SubScores, ms: seq<Metric>): real
    decreases |ms|
  {
    if ms == [] then 0.0
    else WeightedSum(sc, ms[..|ms| - 1]) + ScoreFor(sc, ms[|ms| - 1]) * Weight(ms[|ms| - 1])
  }

  function SumWeights(ms: seq<Metric>): real
    decreases |ms|
  {
    if ms == [] then 0.0 else SumWeights(ms[..|ms| - 1]) + Weight(ms[|ms| - 1])
  }

  /** The weighted sum over SCORE_WEIGHTS, written out term by term. */
  lemma WeightedSumTerms(sc: SubScores)
    ensures SumWeights(MetricOrder) == 1.0
    ensures WeightedSum(sc, MetricOrder) ==
      sc.tvl as real * 0.20 + sc.volume as real * 0.15 + sc.feeApr as real * 0.25 +
      sc.ilRisk as real * 0.20 + sc.volatility as real * 0.10 + sc.timeInRange * 0.10
  {
    var ms := MetricOrder;
    assert ms[..1][..0] == [];
    assert SumWeights(ms[..1]) == 0.20 && WeightedSum(sc, ms[..1]) == sc.tvl as real * 0.20;
    assert ms[..2][..1] == ms[..1];
    assert SumWeights(ms[..2]) == 0.35;
    assert WeightedSum(sc, ms[..2]) == sc.tvl as real * 0.20 + sc.volume as real * 0.15;
    assert ms[..3][..2] == ms[..2];
    assert SumWeights(ms[..3]) == 0.60;
    assert WeightedSum(sc, ms[..3]) == sc.tvl as real * 0.20 + sc.volume as real * 0.15 + sc.feeApr as real * 0.25;
    assert ms[..4][..3] == ms[..3];
    assert SumWeights(ms[..4]) == 0.80;
    assert ms[..5][..4] == ms[..4];
    assert SumWeights(ms[..5]) == 0.90;
    assert ms[..6][..5] == ms[..5];
    assert ms[..6] == ms;
  }

  /** The weights add up to 1, so the final score is a weighted mean of the
      sub-scores: it is at most 100 when each sub-score is, and at least 0
      when each sub-score is. */
  lemma WeightedMean(sc: SubScores)
    ensures SumWeights(MetricOrder) == 1.0
    ensures (forall m: Metric :: ScoreFor(sc, m) <= 100.0) ==> WeightedSum(sc, MetricOrder) <= 100.0
    ensures (forall m: Metric :: 0.0 <= ScoreFor(sc, m)) ==> 0.0 <= WeightedSum(sc, MetricOrder)
  {
    WeightedSumTerms(sc);
    assert ScoreFor(sc, TvlMetric) == sc.tvl as real;
    assert ScoreFor(sc, VolumeMetric) == sc.volume as real;
    assert ScoreFor(sc, FeeAprMetric) == sc.feeApr as real;
    assert ScoreFor(sc, IlRiskMetric) == sc.ilRisk as real;
    assert ScoreFor(sc, VolatilityMetric) == sc.volatility as real;
    assert ScoreFor(sc, TimeInRangeMetric) == sc.timeInRange;
  }

  /** The explanation's content: a quality band, the strengths (TVL, APR,
      volume) and the points of attention (volatility, IL risk). */
  datatype Quality = Excelente | Boa | Moderada | Baixa
  datatype Strength = SolidTvl | AttractiveApr | HighVolume
  datatype Weakness = HighVolatility | IlRisk
  datatype Explanation = Explanation(quality: Quality, strengths: seq<Strength>, weaknesses: seq<Weakness>)

  function QualityBand(score: int): (q: Quality)
    ensures q == Excelente <==> score >= 80
    ensures q == Boa <==> 60 <= score < 80
    ensures q == Moderada <==> 40 <= score < 60
    ensures q == Baixa <==> score < 40
  {
    if score >= 80 then Excelente
    else if score >= 60 then Boa
    else if score >= 40 then Moderada
    else Baixa
  }

  function StrengthRank(s: Strength): int {
    match s
    case SolidTvl => 0
    case AttractiveApr => 1
    case HighVolume => 2
  }

  /** The strengths: TVL, fee APR and volume sub-scores at 60 or more, in
      that order. */
  function Strengths(scores: SubScores): (r: seq<Strength>)
    ensures SolidTvl in r <==> scores.tvl >= 60
    ensures AttractiveApr in r <==> scores.feeApr >= 60
    ensures HighVolume in r <==> scores.volume >= 60
    ensures forall i, j :: 0 <= i < j < |r| ==> StrengthRank(r[i]) < StrengthRank(r[j])
  {
    var volume := if scores.volume >= 60 then [HighVolume] else [];
    var tail := if scores.feeApr >= 60 then [AttractiveApr] + volume else volume;
    if scores.tvl >= 60 then [SolidTvl] + tail else tail
  }

  /** The points of attention: volatility and IL-risk sub-scores below 60,
      in that order. */
  function Weaknesses(scores: SubScores): (r: seq<Weakness>)
    ensures HighVolatility in r <==> scores.volatility < 60
    ensures IlRisk in r <==> scores.ilRisk < 60
    ensures |r| == (if scores.volatility < 60 then 1 else 0) + (if scores.ilRisk < 60 then 1 else 0)
    ensures |r| == 2 ==> r == [HighVolatility, IlRisk]
  {
    (if scores.volatility < 60 then [HighVolatility] else []) +
    (if scores.ilRisk < 60 then [IlRisk] else [])
  }

  /** _generate_score_explanation: the band of the final score, the
      strengths and the points of attention. */
  function GenerateScoreExplanation(scores: SubScores, finalScore: int): (r: Explanation)
    ensures r.quality == QualityBand(finalScore)
    ensures r.strengths == Strengths(scores) && r.weaknesses == Weaknesses(scores)
  {
    Explanation(QualityBand(finalScore), Strengths(scores), Weaknesses(scores))
  }

  /** _calculate_institutional_score: the sub-scores, then the weighted sum
      accumulated over SCORE_WEIGHTS and truncated by int(). */
  method CalculateInstitutionalScore(pool: AnalyzerPool, sims: map<Strategy, Simulation>)
    returns (score: int, explanation: Explanation)
    requires HasAllStrategies(sims)
    ensures score == TruncInt(WeightedSum(SubScoresOf(pool, sims), MetricOrder))
    ensures score <= 100
    ensures BestTimeInRange30(sims) >= 0.0 ==> 0 <= score
    ensures explanation == GenerateScoreExplanation(SubScoresOf(pool, sims), score)
  {
    var scores := SubScoresOf(pool, sims);
    var finalScore := 0.0;
    var i := 0;
    while i < |MetricOrder|
      invariant 0 <= i <= |MetricOrder|
      invariant finalScore == WeightedSum(scores, MetricOrder[..i])
    {
      assert MetricOrder[..i + 1][..i] == MetricOrder[..i];
      var metric := MetricOrder[i];
      finalScore := finalScore + ScoreFor(scores, metric) * Weight(metric);
      i := i + 1;
    }
    assert MetricOrder[..|MetricOrder|] == MetricOrder;
    ScoreBounds(pool, sims);
    score := TruncInt(finalScore);
    explanation := GenerateScoreExplanation(scores, score);
  }

  /** The weighted sum of a pool's sub-scores is at most 100, and not
      negative when the best 30-day time in range is not. */
  lemma ScoreBounds(pool: AnalyzerPool, sims: map<Strategy, Simulation>)
    requires HasAllStrategies(sims)
    ensures WeightedSum(SubScoresOf(pool, sims), MetricOrder) <= 100.0
    ensures BestTimeInRange30(sims) >= 0.0 ==> 0.0 <= WeightedSum(SubScoresOf(pool, sims), MetricOrder)
  {
    var scores := SubScoresOf(pool, sims);
    WeightedMean(scores);
    assert forall m: Metric :: ScoreFor(scores, m) <= 100.0;
    if BestTimeInRange30(sims) >= 0.0 {
      assert forall m: Metric :: 0.0 <= ScoreFor(scores, m);
    }
  }

  // ---------------------------------------------------------------------
  // Recommendation
  // ---------------------------------------------------------------------

  datatype Recommendation =
    | StrongBuy(strategy: Option<Strategy>, bestReturn: real)
    | Buy(strategy: Option<Strategy>, bestReturn: real)
    | Neutral(strategy: Option<Strategy>, bestReturn: real)
    | Avoid

  /** The best 30-day net_after_gas over the strategies present, visited in
      order, starting from (None, -999): the first strictly greatest wins. */
  function BestReturn(sims: map<Strategy, Simulation>, order: seq<Strategy>): (Option<Strategy>, real)
    decreases |order|
  {
    if order == [] then (None, -999.0)
    else
      var prev := BestReturn(sims, order[..|order| - 1]);
      var s := order[|order| - 1];
      if s in sims && sims[s].d30.netAfterGas > prev.1 then (Some(s), sims[s].d30.netAfterGas) else prev
  }

  /** The threshold ladder on score and best return. */
  function RecommendationFor(score: int, best: (Option<Strategy>, real)): Recommendation {
    if score >= 70 && best.1 > 10.0 then StrongBuy(best.0, best.1)
    else if score >= 50 && best.1 > 5.0 then Buy(best.0, best.1)
    else if score >= 30 && best.1 > 0.0 then Neutral(best.0, best.1)
    else Avoid
  }

  /** _generate_recommendation: the loop keeping the best 30-day return, then
      the ladder. */
  method GenerateRecommendation(score: int, sims: map<Strategy, Simulation>) returns (r: Recommendation)
    ensures r == RecommendationFor(score, BestReturn(sims, StrategyOrder))
  {
    var bestStrategy: Option<Strategy> := None;
    var bestReturn := -999.0;
    var i := 0;
    while i < |StrategyOrder|
      invariant 0 <= i <= |StrategyOrder|
      invariant (bestStrategy, bestReturn) == BestReturn(sims, StrategyOrder[..i])
    {
      assert StrategyOrder[..i + 1][..i] == StrategyOrder[..i];
      var strategy := StrategyOrder[i];
      if strategy in sims {
        var net30d := sims[strategy].d30.netAfterGas;
        if net30d > bestReturn {
          bestReturn := net30d;
          bestStrategy := Some(strategy);
        }
      }
      i := i + 1;
    }
    assert StrategyOrder[..|StrategyOrder|] == StrategyOrder;
    r := RecommendationFor(score, (bestStrategy, bestReturn));
  }

  /** The best return is the greatest 30-day net_after_gas (or -999 when
      none exceeds it), held by the strategy reported, and every strategy
      visited before it returns strictly less. */
  lemma {:induction false} BestReturnSpec(sims: map<Strategy, Simulation>, order: seq<Strategy>)
    ensures var b := BestReturn(sims, order);
      b.1 >= -999.0 &&
      (forall i :: 0 <= i < |order| && order[i] in sims ==> sims[order[i]].d30.netAfterGas <= b.1) &&
      (b.0.None? <==> b.1 == -999.0) &&
      (b.0.Some? ==> exists i :: (0 <= i < |order| && order[i] == b.0.value && order[i] in sims &&
        sims[order[i]].d30.netAfterGas == b.1 &&
        forall j :: 0 <= j < i && order[j] in sims ==> sims[order[j]].d30.netAfterGas < b.1))
  {
    if order != [] {
      var init := order[..|order| - 1];
      BestReturnSpec(sims, init);
      assert forall i :: 0 <= i < |init| ==> init[i] == order[i];
      var b := BestReturn(sims, order);
      var prev := BestReturn(sims, init);
      if b != prev {
        assert b.0 == Some(order[|order| - 1]);
      } else if b.0.Some? {
        var i :| 0 <= i < |init| && init[i] == b.0.value && init[i] in sims &&
          sims[init[i]].d30.netAfterGas == b.1 &&
          forall j :: 0 <= j < i && init[j] in sims ==> sims[init[j]].d30.netAfterGas < b.1;
        assert order[i] == b.0.value;
      }
    }
  }

  /** Any recommendation other than EVITAR names a strategy. */
  lemma RecommendationNamesStrategy(score: int, sims: map<Strategy, Simulation>)
    ensures !RecommendationFor(score, BestReturn(sims, StrategyOrder)).Avoid? ==>
      RecommendationFor(score, BestReturn(sims, StrategyOrder)).strategy.Some?
  {
    BestReturnSpec(sims, StrategyOrder);
  }

  function Grade(r: Recommendation): int {
    match r
    case Avoid => 0
    case Neutral(_, _) => 1
    case Buy(_, _) => 2
    case StrongBuy(_, _) => 3
  }

  /** The ladder is monotone: a higher score with a higher return never gets
      a weaker recommendation. */
  lemma RecommendationMonotone(s1: int, s2: int, b1: (Option<Strategy>, real), b2: (Option<Strategy>, real))
    requires s1 <= s2 && b1.1 <= b2.1
    ensures Grade(RecommendationFor(s1, b1)) <= Grade(RecommendationFor(s2, b2))
  {
  }
}
