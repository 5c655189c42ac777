/** Scanner: the older PoolAnalyzer of scanner.py. It normalises a pool
    row in place, then builds volatility-proportional ranges and a
    concentration-based return simulation from the normalised row. */
module Scanner {
  import opened Values

  // ---------------------------------------------------------------------
  // Normalising a row
  // ---------------------------------------------------------------------

  /** The fields of a pool row the scanner reads and normalises. */
  datatype RowValues = RowValues(
    tvlUsd: Scalar,
    volume24h: Scalar,
    fees24h: Scalar,
    currentPrice: Scalar,
    priceChange24h: Scalar,
    feeTier: Scalar,
    score: Scalar,
    token0Symbol: TextField,
    token1Symbol: TextField)

  /** A pool row as a mutable dictionary: _validate_pool_data overwrites its
      fields in place. */
  class PoolRow {
    var tvlUsd: Scalar
    var volume24h: Scalar
    var fees24h: Scalar
    var currentPrice: Scalar
    var priceChange24h: Scalar
    var feeTier: Scalar
    var score: Scalar
    var token0Symbol: TextField
    var token1Symbol: TextField

    constructor (v: RowValues)
      ensures Values() == v
    {
      tvlUsd := v.tvlUsd;
      volume24h := v.volume24h;
      fees24h := v.fees24h;
      currentPrice := v.currentPrice;
      priceChange24h := v.priceChange24h;
      feeTier := v.feeTier;
      score := v.score;
      token0Symbol := v.token0Symbol;
      token1Symbol := v.token1Symbol;
    }

    /** The row's current contents. */
    function Values(): RowValues
      reads this
    {
      RowValues(tvlUsd, volume24h, fees24h, currentPrice, priceChange24h, feeTier, score, token0Symbol, token1Symbol)
    }
  }

  /** float(v or d): the default for a falsy value, float(v) otherwise; None
      when float() raises. */
  function NumberOr(v: Scalar, d: real): (r: Option<real>)
    ensures !Truthy(v) ==> r == Some(d)
    ensures Truthy(v) ==> (r.Some? <==> v.Num? || v.NumText?)
    ensures Truthy(v) && r.Some? ==> r.value == v.x
  {
    if Truthy(v) then ToFloat(v) else Some(d)
  }

  /** Python int() accepts a numeric string only when it spells an integer;
      a numeric string is taken to do so exactly when its value is whole. */
  predicate IsWhole(x: real) {
    x.Floor as real == x
  }

  /** int(v or 0): 0 for a falsy value, int() truncation of a number, the
      value of an integer string; None when int() raises. */
  function IntOr(v: Scalar): (r: Option<int>)
    ensures !Truthy(v) ==> r == Some(0)
    ensures Truthy(v) ==> (r.Some? <==> v.Num? || (v.NumText? && IsWhole(v.x)))
    ensures Truthy(v) && v.Num? ==> r == Some(TruncInt(v.x))
    ensures Truthy(v) && v.NumText? && IsWhole(v.x) ==> r == Some(v.x.Floor) && r.value as real == v.x
  {
    if !Truthy(v) then Some(0)
    else match v
      case Num(x) => Some(TruncInt(x))
      case NumText(x) => if IsWhole(x) then Some(x.Floor) else None
      case _ => None
  }

  /** x or 'UNKNOWN' */
  function SymbolOr(t: TextField): (r: TextField)
    ensures TextTruthy(t) ==> r == t
    ensures !TextTruthy(t) ==> r == Str("UNKNOWN")
  {
    if TextTruthy(t) then t else Str("UNKNOWN")
  }

  /** _validate_pool_data, as a specification: the row after the method and
      whether it returned normally. The seven numeric fields are rewritten
      one after the other; the first conversion that raises stops the
      method with the fields before it already rewritten. */
  function Validated(v: RowValues): (RowValues, bool) {
    match NumberOr(v.tvlUsd, 0.0)
    case None => (v, false)
    case Some(tvl) =>
      var v1 := v.(tvlUsd := Num(tvl));
      match NumberOr(v.volume24h, 0.0)
      case None => (v1, false)
      case Some(volume) =>
        var v2 := v1.(volume24h := Num(volume));
        match NumberOr(v.fees24h, 0.0)
        case None => (v2, false)
        case Some(fees) =>
          var v3 := v2.(fees24h := Num(fees));
          match NumberOr(v.currentPrice, 0.0)
          case None => (v3, false)
          case Some(price) =>
            var v4 := v3.(currentPrice := Num(price));
            match NumberOr(v.priceChange24h, 0.0)
            case None => (v4, false)
            case Some(change) =>
              var v5 := v4.(priceChange24h := Num(change));
              match NumberOr(v.feeTier, 0.3)
              case None => (v5, false)
              case Some(fee) =>
                var v6 := v5.(feeTier := Num(fee));
                match IntOr(v.score)
                case None => (v6, false)
                case Some(sc) =>
                  (v6.(score := Num(sc as real),
                       token0Symbol := SymbolOr(v.token0Symbol),
                       token1Symbol := SymbolOr(v.token1Symbol)), true)
  }

  /** _validate_pool_data: rewrites the row in place and returns the same
      row, or stops (None) where a conversion raises. */
  method ValidatePoolData(pool: PoolRow) returns (r: Option<PoolRow>)
    modifies pool
    ensures (pool.Values(), r.Some?) == Validated(old(pool.Values()))
    ensures r.Some? ==> r.value == pool
  {
    var tvl := NumberOr(pool.tvlUsd, 0.0);
    if tvl.None? { return None; }
    pool.tvlUsd := Num(tvl.value);
    var volume := NumberOr(pool.volume24h, 0.0);
    if volume.None? { return None; }
    pool.volume24h := Num(volume.value);
    var fees := NumberOr(pool.fees24h, 0.0);
    if fees.None? { return None; }
    pool.fees24h := Num(fees.value);
    var price := NumberOr(pool.currentPrice, 0.0);
    if price.None? { return None; }
    pool.currentPrice := Num(price.value);
    var change := NumberOr(pool.priceChange24h, 0.0);
    if change.None? { return None; }
    pool.priceChange24h := Num(change.value);
    var fee := NumberOr(pool.feeTier, 0.3);
    if fee.None? { return None; }
    pool.feeTier := Num(fee.value);
    var sc := IntOr(pool.score);
    if sc.None? { return None; }
    pool.score := Num(sc.value as real);
    pool.token0Symbol := SymbolOr(pool.token0Symbol);
    pool.token1Symbol := SymbolOr(pool.token1Symbol);
    return Some(pool);
  }

  /** A truthy value float() accepts. */
  predicate Numeric(v: Scalar) {
    !Truthy(v) || v.Num? || v.NumText?
  }

  /** The outcome of normalising: it succeeds iff every truthy numeric field
      is a number (the score an integer), and then falsy numbers become 0,
      a falsy fee tier (an explicit 0 included) becomes 0.3, the score is
      truncated to an integer and empty symbols become UNKNOWN. */
  lemma ValidatedSpec(v: RowValues)
    ensures var (w, ok) := Validated(v);
      (ok <==> Numeric(v.tvlUsd) && Numeric(v.volume24h) && Numeric(v.fees24h) &&
               Numeric(v.currentPrice) && Numeric(v.priceChange24h) && Numeric(v.feeTier) &&
               (!Truthy(v.score) || v.score.Num? || (v.score.NumText? && IsWhole(v.score.x)))) &&
      (ok ==>
        w.tvlUsd == Num(if Truthy(v.tvlUsd) then v.tvlUsd.x else 0.0) &&
        w.volume24h == Num(if Truthy(v.volume24h) then v.volume24h.x else 0.0) &&
        w.fees24h == Num(if Truthy(v.fees24h) then v.fees24h.x else 0.0) &&
        w.currentPrice == Num(if Truthy(v.currentPrice) then v.currentPrice.x else 0.0) &&
        w.priceChange24h == Num(if Truthy(v.priceChange24h) then v.priceChange24h.x else 0.0) &&
        w.feeTier == Num(if Truthy(v.feeTier) then v.feeTier.x else 0.3) &&
        w.score.Num? && IsWhole(w.score.x) &&
        (Truthy(v.score) && v.score.Num? ==> w.score == Num(TruncInt(v.score.x) as real)) &&
        (Truthy(v.score) && v.score.NumText? ==> w.score == Num(v.score.x)) &&
        (!Truthy(v.score) ==> w.score == Num(0.0)) &&
        w.token0Symbol == (if TextTruthy(v.token0Symbol) then v.token0Symbol else Str("UNKNOWN")) &&
        w.token1Symbol == (if TextTruthy(v.token1Symbol) then v.token1Symbol else Str("UNKNOWN"))) &&
      (!ok ==> w.token0Symbol == v.token0Symbol && w.token1Symbol == v.token1Symbol)
  {
    var sc := IntOr(v.score);
    if sc.Some? {
      assert (sc.value as real).Floor == sc.value;
    }
  }

  /** Normalising a normalised row changes nothing, unless its fee tier is
      0: a truthy fee tier whose value is 0 (the text "0") is kept as 0 the
      first time and becomes 0.3 the second. */
  lemma ValidatedIdempotent(v: RowValues)
    requires Validated(v).1
    ensures Validated(v).0.feeTier != Num(0.0) ==> Validated(Validated(v).0) == (Validated(v).0, true)
    ensures Validated(v).0.feeTier == Num(0.0) ==> Validated(Validated(v).0).0.feeTier == Num(0.3)
  {
    ValidatedSpec(v);
    var w := Validated(v).0;
    ValidatedSpec(w);
    var s := w.score.x;
    assert s.Floor as real == s;
    if s != 0.0 {
      assert TruncInt(s) == s.Floor;
    }
  }

  // ---------------------------------------------------------------------
  // The normalised row
  // ---------------------------------------------------------------------

  /** The numbers the range generator and the simulator read from a
      normalised row. */
  datatype ValidPool = ValidPool(tvlUsd: real, fees24h: real, currentPrice: real, priceChange24h: real)

  function AsValid(v: RowValues): Option<ValidPool> {
    if v.tvlUsd.Num? && v.fees24h.Num? && v.currentPrice.Num? && v.priceChange24h.Num? then
      Some(ValidPool(v.tvlUsd.x, v.fees24h.x, v.currentPrice.x, v.priceChange24h.x))
    else None
  }

  /** Every row that normalises successfully has the numbers the range
      generator and the simulator read. */
  lemma ValidatedIsValid(v: RowValues)
    requires Validated(v).1
    ensures AsValid(Validated(v).0).Some?
    ensures AsValid(Validated(v).0).value.tvlUsd == (if Truthy(v.tvlUsd) then v.tvlUsd.x else 0.0)
  {
    ValidatedSpec(v);
  }

  // ---------------------------------------------------------------------
  // Ranges
  // ---------------------------------------------------------------------

  /** The price the ranges are centred on: 1000 when the row's price is 0 or
      less. */
  function EffectivePrice(p: ValidPool): (r: real)
    ensures r > 0.0
    ensures p.currentPrice > 0.0 ==> r == p.currentPrice
    ensures p.currentPrice <= 0.0 ==> r == 1000.0
  {
    if p.currentPrice <= 0.0 then 1000.0 else p.currentPrice
  }

  /** The volatility the ranges are scaled by: |price change|, 2.5 when that
      is 0. */
  function RangeVolatility(p: ValidPool): (r: real)
    ensures r > 0.0
    ensures p.priceChange24h != 0.0 ==> r == Abs(p.priceChange24h)
    ensures p.priceChange24h == 0.0 ==> r == 2.5
  {
    var volatility := Abs(p.priceChange24h);
    if volatility == 0.0 then 2.5 else volatility
  }

  /** The half-width of each range, in multiples of the volatility. */
  function WidthFactor(s: Strategy): real {
    match s
    case Defensive => 3.0
    case Optimized => 1.5
    case Aggressive => 0.5
  }

  function RangeAround(price: real, volatility: real, s: Strategy): RangeSpec {
    var w := volatility * WidthFactor(s);
    RangeSpec(price * (1.0 - w / 100.0), price * (1.0 + w / 100.0), w, s)
  }

  /** _generate_ranges: three ranges centred on the price, each
      spread_percent wide on either side, the spreads shrinking from
      defensive to aggressive. */
  function GenerateRanges(p: ValidPool): (r: map<Strategy, RangeSpec>)
    ensures r.Keys == {Defensive, Optimized, Aggressive}
    ensures forall s :: s in r ==> r[s].strategy == s
    ensures r[Defensive].spreadPercent == 3.0 * RangeVolatility(p)
    ensures r[Optimized].spreadPercent == 1.5 * RangeVolatility(p)
    ensures r[Aggressive].spreadPercent == 0.5 * RangeVolatility(p)
    ensures r[Defensive].spreadPercent > r[Optimized].spreadPercent > r[Aggressive].spreadPercent > 0.0
  {
    var price := EffectivePrice(p);
    var volatility := RangeVolatility(p);
    map[Defensive := RangeAround(price, volatility, Defensive),
        Optimized := RangeAround(price, volatility, Optimized),
        Aggressive := RangeAround(price, volatility, Aggressive)]
  }

  /** Every range lies symmetrically around the price it was centred on, and
      straddles it strictly. */
  lemma RangesStraddlePrice(p: ValidPool, s: Strategy)
    ensures var r := GenerateRanges(p)[s]; var price := EffectivePrice(p);
      r.minPrice + r.maxPrice == 2.0 * price &&
      r.maxPrice - price == price * r.spreadPercent / 100.0 &&
      r.minPrice < price < r.maxPrice
  {
    var price := EffectivePrice(p);
    var w := RangeVolatility(p) * WidthFactor(s);
    assert w > 0.0;
    assert price * (1.0 + w / 100.0) == price + price * w / 100.0;
    assert price * (1.0 - w / 100.0) == price - price * w / 100.0;
    assert price * w / 100.0 > 0.0;
  }

  // ---------------------------------------------------------------------
  // Simulation
  // ---------------------------------------------------------------------

  /** The TVL used as a divisor: 1 when it is 0 or less. */
  function ScannerTvl(p: ValidPool): (t: real)
    ensures t > 0.0
    ensures p.tvlUsd > 0.0 ==> t == p.tvlUsd
    ensures p.tvlUsd <= 0.0 ==> t == 1.0
  {
    if p.tvlUsd <= 0.0 then 1.0 else p.tvlUsd
  }

  /** The yearly fee APR in percent, from a day of fees over the TVL. */
  function AprBase(p: ValidPool): real {
    p.fees24h * 365.0 / ScannerTvl(p) * 100.0
  }

  /** The concentration factor: 10 / spread (1 for a spread of 0 or less),
      clamped to [0.5, 3]. */
  function ConcentrationFactor(spread: real): (cf: real)
    ensures 0.5 <= cf <= 3.0
    ensures spread <= 0.0 ==> cf == 1.0
  {
    var raw := if spread > 0.0 then 10.0 / spread else 1.0;
    if raw < 0.5 then 0.5 else if raw > 3.0 then 3.0 else raw
  }

  /** Between the clamps the factor is exactly 10 / spread; wider than 20
      points it is 0.5, narrower than 10/3 points it is 3, and for positive
      spreads it never grows with the spread. */
  lemma ConcentrationShape(s1: real, s2: real)
    requires 0.0 < s1 <= s2
    ensures ConcentrationFactor(s2) <= ConcentrationFactor(s1)
    ensures s1 >= 20.0 ==> ConcentrationFactor(s1) == 0.5
    ensures s1 * 3.0 <= 10.0 ==> ConcentrationFactor(s1) == 3.0
    ensures 10.0 <= s1 * 3.0 && s1 <= 20.0 ==> ConcentrationFactor(s1) * s1 == 10.0
  {
    var q1 := 10.0 / s1;
    var q2 := 10.0 / s2;
    assert q1 * s1 == 10.0 && q2 * s2 == 10.0;
    assert q2 <= q1;
    assert s1 >= 20.0 ==> q1 <= 0.5;
    assert s1 * 3.0 <= 10.0 ==> q1 >= 3.0;
    assert 10.0 <= s1 * 3.0 && s1 <= 20.0 ==> 0.5 <= q1 <= 3.0;
  }

  /** The 7-day and 30-day time in range of a strategy, in percent:
      min(cap, base + (5 - volatility)). */
  function TimeInRange(s: Strategy, volatility: real): (real, real) {
    match s
    case Defensive => (Min(95.0, 90.0 + (5.0 - volatility)), Min(95.0, 85.0 + (5.0 - volatility)))
    case Optimized => (Min(85.0, 75.0 + (5.0 - volatility)), Min(80.0, 65.0 + (5.0 - volatility)))
    case Aggressive => (Min(70.0, 50.0 + (5.0 - volatility)), Min(60.0, 40.0 + (5.0 - volatility)))
  }

  /** The caps hold for every volatility, but since the volatility is an
      absolute value they never bind: the time in range is the linear
      formula, 95/90, 80/70 and 55/45 minus the volatility, and it falls
      below 0 once the volatility exceeds that figure. */
  lemma TimeInRangeShape(s: Strategy, volatility: real)
    requires volatility >= 0.0
    ensures var (t7, t30) := TimeInRange(s, volatility);
      match s
      case Defensive => t7 == 95.0 - volatility && t30 == 90.0 - volatility && t7 <= 95.0 && t30 <= 95.0
      case Optimized => t7 == 80.0 - volatility && t30 == 70.0 - volatility && t7 <= 85.0 && t30 <= 80.0
      case Aggressive => t7 == 55.0 - volatility && t30 == 45.0 - volatility && t7 <= 70.0 && t30 <= 60.0
  {
  }

  /** A higher volatility never raises the time in range. */
  lemma TimeInRangeAntitone(s: Strategy, v1: real, v2: real)
    requires v1 <= v2
    ensures TimeInRange(s, v2).0 <= TimeInRange(s, v1).0
    ensures TimeInRange(s, v2).1 <= TimeInRange(s, v1).1
  {
  }

  /** Fees over a period in percent: the concentrated APR pro-rated over the
      days and scaled by the time in range. */
  function PeriodFees(aprAdjusted: real, days: real, timeInRange: real): real {
    aprAdjusted * days / 365.0 * (timeInRange / 100.0)
  }

  /** One period, with 5 USD of gas taken off the net return. */
  function ScannerPeriod(aprAdjusted: real, days: real, timeInRange: real, il: real): PeriodResult
  {
    var fees := PeriodFees(aprAdjusted, days, timeInRange);
    PeriodResult(Round1(timeInRange), Round2(fees), Round2(il), Round2(fees - il), 5.0, Round2(fees - il - 5.0))
  }

  /** One period: fees and net return within rounding of their formulas,
      the loss not negative when its input is not, and the net after gas
      exactly 5 USD below the rounded net return. */
  lemma ScannerPeriodSpec(aprAdjusted: real, days: real, timeInRange: real, il: real)
    ensures var r := ScannerPeriod(aprAdjusted, days, timeInRange, il);
      var fees := PeriodFees(aprAdjusted, days, timeInRange);
      fees - 0.005 <= r.feesCollected <= fees + 0.005 &&
      (fees - il) - 0.005 <= r.netReturn <= (fees - il) + 0.005
    ensures var r := ScannerPeriod(aprAdjusted, days, timeInRange, il);
      r.netAfterGas == r.netReturn - 5.0
    ensures il >= 0.0 ==> ScannerPeriod(aprAdjusted, days, timeInRange, il).impermanentLoss >= 0.0
    ensures PeriodFees(aprAdjusted, days, timeInRange) >= 0.0 ==>
      ScannerPeriod(aprAdjusted, days, timeInRange, il).feesCollected >= 0.0
    ensures var r := ScannerPeriod(aprAdjusted, days, timeInRange, il);
      timeInRange - 0.05 <= r.timeInRange <= timeInRange + 0.05 && r.gasCost == 5.0
  {
    Round2Shift(PeriodFees(aprAdjusted, days, timeInRange) - il, 500);
  }

  /** The two periods of a simulation, from the base APR, the volatility,
      the concentration factor and the two times in range: fees accrue at
      the APR multiplied by the concentration factor, and the impermanent
      loss is 0.1 (7 days) or 0.3 (30 days) of the volatility, divided by
      the concentration factor. */
  function SimulationOf(aprBase: real, volatility: real, cf: real, tir: (real, real)): Simulation
    requires cf != 0.0
  {
    var aprAdjusted := aprBase * cf;
    Simulation(
      ScannerPeriod(aprAdjusted, 7.0, tir.0, Loss(volatility, 0.1, cf)),
      ScannerPeriod(aprAdjusted, 30.0, tir.1, Loss(volatility, 0.3, cf)))
  }

  /** Impermanent loss: a share of the volatility, divided by the
      concentration factor. */
  function Loss(volatility: real, share: real, cf: real): real
    requires cf != 0.0
  {
    volatility * share * (1.0 / cf)
  }

  /** The simulation of one strategy's range. */
  function ScannerSimulation(p: ValidPool, s: Strategy, range: RangeSpec): Simulation {
    var cf := ConcentrationFactor(range.spreadPercent);
    var volatility := Abs(p.priceChange24h);
    SimulationOf(AprBase(p), volatility, cf, TimeInRange(s, volatility))
  }

  /** _simulate_returns, as a specification. */
  function Simulations(p: ValidPool, ranges: map<Strategy, RangeSpec>): map<Strategy, Simulation> {
    map s | s in ranges :: ScannerSimulation(p, s, ranges[s])
  }

  /** The body of the loop of _simulate_returns for one range, with the
      base APR computed once before the loop. */
  method SimulateRange(p: ValidPool, aprBase: real, strategy: Strategy, range: RangeSpec) returns (simulation: Simulation)
    requires aprBase == AprBase(p)
    ensures simulation == ScannerSimulation(p, strategy, range)
  {
    var concentrationFactor := ConcentrationFactor(range.spreadPercent);
    var volatility := Abs(p.priceChange24h);
    var timeInRange := TimeInRange(strategy, volatility);
    simulation := SimulationOf(aprBase, volatility, concentrationFactor, timeInRange);
  }

  /** The simulations of the ranges among the first i strategies. */
  function SimulationsUpTo(p: ValidPool, ranges: map<Strategy, RangeSpec>, i: nat): map<Strategy, Simulation> {
    map s | s in ranges && StrategyIndex(s) < i :: ScannerSimulation(p, s, ranges[s])
  }

  /** Taking one more strategy adds its simulation when it has a range. */
  lemma SimulationsUpToStep(p: ValidPool, ranges: map<Strategy, RangeSpec>, i: nat)
    requires i < |StrategyOrder|
    ensures var s := StrategyOrder[i];
      SimulationsUpTo(p, ranges, i + 1) ==
        if s in ranges then SimulationsUpTo(p, ranges, i)[s := ScannerSimulation(p, s, ranges[s])]
        else SimulationsUpTo(p, ranges, i)
  {
    assert StrategyIndex(StrategyOrder[i]) == i;
  }

  /** _simulate_returns: one simulation per range, built in a loop. */
  method SimulateReturns(p: ValidPool, ranges: map<Strategy, RangeSpec>) returns (sims: map<Strategy, Simulation>)
    ensures sims == Simulations(p, ranges)
    ensures sims.Keys == ranges.Keys
  {
    var aprBase := AprBase(p);
    sims := map[];
    var i := 0;
    assert SimulationsUpTo(p, ranges, 0) == map[];
    while i < |StrategyOrder|
      invariant 0 <= i <= |StrategyOrder|
      invariant sims == SimulationsUpTo(p, ranges, i)
    {
      SimulationsUpToStep(p, ranges, i);
      var strategy := StrategyOrder[i];
      if strategy in ranges {
        var simulation := SimulateRange(p, aprBase, strategy, ranges[strategy]);
        sims := sims[strategy := simulation];
      }
      i := i + 1;
    }
    assert SimulationsUpTo(p, ranges, |StrategyOrder|) == Simulations(p, ranges);
  }

  /** The 30-day loss is three times the 7-day one. */
  lemma LossScales(volatility: real, cf: real)
    requires cf != 0.0
    ensures Loss(volatility, 0.3, cf) == 3.0 * Loss(volatility, 0.1, cf)
  {
    var m := volatility * (1.0 / cf);
    assert volatility * 0.3 * (1.0 / cf) == 0.3 * m;
    assert volatility * 0.1 * (1.0 / cf) == 0.1 * m;
  }

  /** Fees are never negative when the APR and the time in range are not. */
  lemma PeriodFeesNonNegative(aprBase: real, cf: real, days: real, timeInRange: real)
    requires aprBase >= 0.0 && cf > 0.0 && days >= 0.0 && timeInRange >= 0.0
    ensures PeriodFees(aprBase * cf, days, timeInRange) >= 0.0
  {
    var a := aprBase * cf;
    assert a >= 0.0;
    var x := a * days;
    assert x >= 0.0;
    assert timeInRange / 100.0 >= 0.0;
  }

  /** Both periods of a simulation: impermanent loss is never negative, net
      after gas is exactly 5 below the net return, and with a non-negative
      APR and time in range the fees are never negative. */
  lemma SimulationOfSpec(aprBase: real, volatility: real, cf: real, tir: (real, real))
    requires cf > 0.0 && volatility >= 0.0
    ensures var sim := SimulationOf(aprBase, volatility, cf, tir);
      sim.d7.impermanentLoss >= 0.0 && sim.d30.impermanentLoss >= 0.0 &&
      sim.d7.netAfterGas == sim.d7.netReturn - 5.0 &&
      sim.d30.netAfterGas == sim.d30.netReturn - 5.0 &&
      (aprBase >= 0.0 && tir.0 >= 0.0 ==> sim.d7.feesCollected >= 0.0) &&
      (aprBase >= 0.0 && tir.1 >= 0.0 ==> sim.d30.feesCollected >= 0.0)
  {
    assert 1.0 / cf > 0.0;
    assert Loss(volatility, 0.1, cf) >= 0.0 by {
      assert volatility * 0.1 >= 0.0;
    }
    assert Loss(volatility, 0.3, cf) >= 0.0 by {
      assert volatility * 0.3 >= 0.0;
    }
    ScannerPeriodSpec(aprBase * cf, 7.0, tir.0, Loss(volatility, 0.1, cf));
    ScannerPeriodSpec(aprBase * cf, 30.0, tir.1, Loss(volatility, 0.3, cf));
    if aprBase >= 0.0 && tir.0 >= 0.0 {
      PeriodFeesNonNegative(aprBase, cf, 7.0, tir.0);
    }
    if aprBase >= 0.0 && tir.1 >= 0.0 {
      PeriodFeesNonNegative(aprBase, cf, 30.0, tir.1);
    }
  }

  /** The base APR is never negative when the day's fees are not. */
  lemma AprBaseNonNegative(p: ValidPool)
    requires p.fees24h >= 0.0
    ensures AprBase(p) >= 0.0
  {
    var x := p.fees24h * 365.0;
    assert x >= 0.0;
    assert x / ScannerTvl(p) >= 0.0;
  }

  /** Each strategy's simulation: impermanent loss is never negative, net
      after gas is exactly 5 below the net return, and with non-negative
      fees a day and a volatility no greater than the strategy's 30-day
      figure (90, 70 or 45) the 30-day fees are never negative. */
  lemma SimulationSpec(p: ValidPool, s: Strategy, range: RangeSpec)
    ensures var sim := ScannerSimulation(p, s, range);
      sim.d7.impermanentLoss >= 0.0 && sim.d30.impermanentLoss >= 0.0 &&
      sim.d7.netAfterGas == sim.d7.netReturn - 5.0 &&
      sim.d30.netAfterGas == sim.d30.netReturn - 5.0
    ensures p.fees24h >= 0.0 && TimeInRange(s, Abs(p.priceChange24h)).1 >= 0.0 ==>
      ScannerSimulation(p, s, range).d30.feesCollected >= 0.0
  {
    var cf := ConcentrationFactor(range.spreadPercent);
    var volatility := Abs(p.priceChange24h);
    if p.fees24h >= 0.0 {
      AprBaseNonNegative(p);
    }
    SimulationOfSpec(AprBase(p), volatility, cf, TimeInRange(s, volatility));
  }
}
