/** RiskEngine: the user's risk configuration and the per-pool rules of
    risk_engine.py — position sizing, the gas-viability rule, the
    percent/USDT conversion and the stop-loss trigger. The engine's fields are
    set once by its constructor and never change afterwards, so the engine is
    a value and every rule is a function of it. */
module RiskEngine {
  import opened Values
  import opened RiskPools

  /** Average gas cost of one operation, in USD. */
  const GasCostUsd: real := 5.0
  /** Warn when gas exceeds this share of the expected return. */
  const GasWarningThreshold: real := 0.10

  datatype RangeType = Defensivo | Otimizado | Agressivo

  /** The limits attached to a risk profile. */
  datatype Profile = Profile(maxPositionPct: real, minScore: int, maxIlTolerance: real, rangeType: RangeType)

  /** RISK_PROFILES */
  const RiskProfiles: map<string, Profile> := map[
    "conservador" := Profile(20.0, 70, 5.0, Defensivo),
    "moderado" := Profile(30.0, 60, 10.0, Otimizado),
    "agressivo" := Profile(40.0, 50, 15.0, Agressivo)
  ]

  /** RISK_PROFILES.get(name, RISK_PROFILES['conservador']) */
  function ProfileFor(name: string): (p: Profile)
    ensures name in RiskProfiles ==> p == RiskProfiles[name]
    ensures name !in RiskProfiles ==> p == RiskProfiles["conservador"]
    ensures 20.0 <= p.maxPositionPct <= 40.0 && 5.0 <= p.maxIlTolerance <= 15.0
  {
    if name in RiskProfiles then RiskProfiles[name] else RiskProfiles["conservador"]
  }

  /** The user configuration dictionary: None marks a missing key. */
  datatype Config = Config(
    capitalTotal: Option<real>,
    perfilRisco: Option<string>,
    maxPositions: Option<real>,
    stopLoss: Option<real>,
    maxPositionSize: Option<real>,
    minScore: Option<real>,
    gasMultiplier: Option<real>)

  datatype Engine = Engine(
    capitalTotal: real,
    perfilRisco: string,
    maxPositions: int,
    stopLoss: real,
    maxPositionSize: real,
    minScore: int,
    gasMultiplier: real,
    profileLimits: Profile)

  /** __init__: each setting from the configuration or its default, and the
      limits of the named profile (conservador when the name is unknown). */
  function NewEngine(c: Config): (e: Engine)
    ensures e.capitalTotal == c.capitalTotal.GetOr(10000.0)
    ensures e.perfilRisco == c.perfilRisco.GetOr("conservador")
    ensures e.maxPositions == TruncInt(c.maxPositions.GetOr(3.0))
    ensures e.stopLoss == c.stopLoss.GetOr(10.0)
    ensures e.maxPositionSize == c.maxPositionSize.GetOr(30.0)
    ensures e.minScore == TruncInt(c.minScore.GetOr(60.0))
    ensures e.gasMultiplier == c.gasMultiplier.GetOr(2.0)
    ensures e.profileLimits == ProfileFor(e.perfilRisco)
  {
    var name := c.perfilRisco.GetOr("conservador");
    Engine(
      c.capitalTotal.GetOr(10000.0),
      name,
      TruncInt(c.maxPositions.GetOr(3.0)),
      c.stopLoss.GetOr(10.0),
      c.maxPositionSize.GetOr(30.0),
      TruncInt(c.minScore.GetOr(60.0)),
      c.gasMultiplier.GetOr(2.0),
      ProfileFor(name))
  }

  // ---------------------------------------------------------------------
  // Gas viability
  // ---------------------------------------------------------------------

  /** The non-fatal warning attached when gas is a large share of the return:
      the share, in percent. */
  datatype Warning = GasShare(percent: real)

  datatype GasCheck = GasCheck(
    viable: bool,
    estimatedReturnUsd: real,
    minReturnNeeded: real,
    warnings: seq<Warning>,
    gasPercentage: Option<real>)

  /** The 7-day return in percent a simulation dictionary states:
      net_after_gas, else net_return, else 0; 0.0 when float() rejects it. */
  function NetPct(sim: SimDict): real {
    var v := Get(sim.netAfterGas);
    var w := if v.Null? then GetOr(sim.netReturn, Num(0.0)) else v;
    ToFloat(w).GetOr(0.0)
  }

  /** The USD return the extracted simulation promises for a position;
      0.0 without a simulation. */
  function SimulatedReturnUsd(positionSize: real, sim: SimDict): real {
    if NonEmpty(sim) then positionSize * (NetPct(sim) / 100.0) else 0.0
  }

  /** The USD return from a flat 7-day APR pro-rated to 7 of 365 days; 0.0
      when float() rejects the APR. */
  function AprReturnUsd(positionSize: real, apr7d: Scalar): real {
    match ToFloat(apr7d)
    case Some(a) => positionSize * (a / 100.0) * (7.0 / 365.0)
    case None => 0.0
  }

  /** The estimate validate_gas_cost compares with the gas cost. */
  function EstimatedReturnUsd(positionSize: real, p: PoolData): (r: real)
    ensures SimulatedReturnUsd(positionSize, Extracted(p)) > 0.0 ==> r == SimulatedReturnUsd(positionSize, Extracted(p))
    ensures !Truthy(p.apr7d) ==> r == SimulatedReturnUsd(positionSize, Extracted(p))
    ensures SimulatedReturnUsd(positionSize, Extracted(p)) <= 0.0 && Truthy(p.apr7d) ==> r == AprReturnUsd(positionSize, p.apr7d)
  {
    var simulated := SimulatedReturnUsd(positionSize, Extracted(p));
    if simulated <= 0.0 && Truthy(p.apr7d) then AprReturnUsd(positionSize, p.apr7d) else simulated
  }

  /** validate_gas_cost: viable exactly when the estimated return reaches gas
      times the multiplier; a warning only on the viable path, exactly when
      gas exceeds 10% of the return. */
  function ValidateGasCost(e: Engine, positionSize: real, p: PoolData): (r: GasCheck)
    ensures r.estimatedReturnUsd == EstimatedReturnUsd(positionSize, p)
    ensures r.minReturnNeeded == GasCostUsd * e.gasMultiplier
    ensures r.viable <==> r.estimatedReturnUsd >= GasCostUsd * e.gasMultiplier
    ensures !r.viable ==> r.warnings == [] && r.gasPercentage.None?
    ensures r.viable ==> r.gasPercentage.Some? && (r.warnings != [] <==> GasCostUsd > GasWarningThreshold * r.estimatedReturnUsd)
    ensures r.warnings != [] ==> r.warnings == [GasShare(r.gasPercentage.value)] && r.gasPercentage.value > 10.0
  {
    var estimated := EstimatedReturnUsd(positionSize, p);
    var needed := GasCostUsd * e.gasMultiplier;
    if estimated < needed then
      GasCheck(false, estimated, needed, [], None)
    else
      var gasPct := if estimated > 0.0 then (GasCostUsd / estimated) * 100.0 else 100.0;
      assert estimated > 0.0 ==> (gasPct > GasWarningThreshold * 100.0 <==> GasCostUsd > GasWarningThreshold * estimated) by {
        if estimated > 0.0 {
          GasShareBound(estimated);
        }
      }
      var warnings := if gasPct > GasWarningThreshold * 100.0 then [GasShare(gasPct)] else [];
      GasCheck(true, estimated, needed, warnings, Some(gasPct))
  }

  /** For a positive return, gas is more than 10% of it exactly when the
      return is below 50 USD. */
  lemma GasShareBound(estimated: real)
    requires estimated > 0.0
    ensures (GasCostUsd / estimated) * 100.0 > GasWarningThreshold * 100.0 <==> GasCostUsd > GasWarningThreshold * estimated
    ensures GasCostUsd > GasWarningThreshold * estimated <==> estimated < 50.0
  {
    var q := GasCostUsd / estimated;
    assert q * estimated == GasCostUsd;
    if q > 0.1 {
      assert q * estimated > 0.1 * estimated;
    } else {
      assert q * estimated <= 0.1 * estimated;
    }
  }

  /** Scaling by a non-negative rate keeps the order of two non-negative
      amounts. */
  lemma ScaleMonotone(x: real, y: real, c: real)
    requires 0.0 <= x <= y && 0.0 <= c
    ensures 0.0 <= x * c <= y * c
  {
    assert y * c - x * c == (y - x) * c;
  }

  /** With non-negative rates, a larger position never has a smaller
      estimated return, so it never turns a viable pool non-viable. */
  lemma GasViabilityMonotone(e: Engine, s1: real, s2: real, p: PoolData)
    requires 0.0 <= s1 <= s2
    requires NetPct(Extracted(p)) >= 0.0
    requires ToFloat(p.apr7d).Some? ==> ToFloat(p.apr7d).value >= 0.0
    ensures EstimatedReturnUsd(s1, p) <= EstimatedReturnUsd(s2, p)
    ensures ValidateGasCost(e, s1, p).viable ==> ValidateGasCost(e, s2, p).viable
  {
    var sim := Extracted(p);
    var n := NetPct(sim);
    var a := ToFloat(p.apr7d).GetOr(0.0);
    var sim1, sim2 := SimulatedReturnUsd(s1, sim), SimulatedReturnUsd(s2, sim);
    assert 0.0 <= sim1 <= sim2 by {
      if NonEmpty(sim) {
        ScaleMonotone(s1, s2, n / 100.0);
      }
    }
    var apr1, apr2 := AprReturnUsd(s1, p.apr7d), AprReturnUsd(s2, p.apr7d);
    assert 0.0 <= apr1 <= apr2 by {
      if ToFloat(p.apr7d).Some? {
        ScaleMonotone(s1, s2, a / 100.0);
        ScaleMonotone(s1 * (a / 100.0), s2 * (a / 100.0), 7.0 / 365.0);
      }
    }
    if sim1 <= 0.0 && sim2 > 0.0 {
      assert s1 == 0.0 || n == 0.0 || !NonEmpty(sim);
      assert n > 0.0 && NonEmpty(sim);
      assert s1 == 0.0;
      assert apr1 == 0.0;
    }
  }

  // ---------------------------------------------------------------------
  // Position sizing
  // ---------------------------------------------------------------------

  datatype SizeReason =
    | ScoreBelowMinimum(score: real, minimum: int)
    | ReturnBelowGas(estimatedUsd: real, neededUsd: real, multiplier: real)
    | SizeOk

  datatype PositionSize = PositionSize(
    canOperate: bool,
    reason: SizeReason,
    sizePct: real,
    sizeUsdt: real,
    gasCost: Option<real>,
    warnings: seq<Warning>)

  /** The base percentage: a truthy override capped by max_position_size, or
      the linear scale from 10% at score 60 to the profile maximum at score
      100, with no clamp at either end. */
  function BasePct(e: Engine, score: real, overridePct: Option<real>): real {
    if overridePct.Some? && overridePct.value != 0.0 then
      Min(overridePct.value, e.maxPositionSize)
    else
      10.0 + (e.profileLimits.maxPositionPct - 10.0) * ((score - 60.0) / 40.0)
  }

  /** size_pct before rounding: the base capped by both maxima. */
  function SizePct(e: Engine, score: real, overridePct: Option<real>): (r: real)
    ensures r <= BasePct(e, score, overridePct) && r <= e.maxPositionSize && r <= e.profileLimits.maxPositionPct
    ensures r == BasePct(e, score, overridePct) || r == e.maxPositionSize || r == e.profileLimits.maxPositionPct
  {
    Min(Min(BasePct(e, score, overridePct), e.maxPositionSize), e.profileLimits.maxPositionPct)
  }

  /** A capital share at a percentage no greater than the cap is at most the
      capped share, and cutting it to cents keeps it so. */
  lemma ShareWithinCap(capital: real, pct: real, cap: real)
    requires pct <= cap
    ensures capital >= 0.0 && cap >= 0.0 ==> TruncCents(capital * (pct / 100.0)) <= capital * (cap / 100.0)
  {
    if capital >= 0.0 && cap >= 0.0 {
      var exact := capital * (pct / 100.0);
      assert capital * (cap / 100.0) - exact == capital * ((cap - pct) / 100.0);
      assert capital * ((cap - pct) / 100.0) >= 0.0;
      assert capital * (cap / 100.0) >= 0.0;
    }
  }

  /** size_usdt: the capital share at size_pct, cut down to whole cents, so
      never above the exact share, less than a cent below it, and never
      above the max_position_size share of the capital. */
  function SizeUsdt(e: Engine, sizePct: real): (r: real)
    requires sizePct <= e.maxPositionSize
    ensures var exact := e.capitalTotal * (sizePct / 100.0);
      exact >= 0.0 ==> r <= exact < r + 0.01
    ensures e.capitalTotal >= 0.0 && e.maxPositionSize >= 0.0 ==> r <= e.capitalTotal * (e.maxPositionSize / 100.0)
  {
    var exact := e.capitalTotal * (sizePct / 100.0);
    ShareWithinCap(e.capitalTotal, sizePct, e.maxPositionSize);
    TruncCents(exact)
  }

  /** calculate_position_size. Below the minimum score it refuses with a zero
      size; otherwise size_pct is the capped base rounded to two decimals,
      size_usdt is the capital share cut down to whole cents, and the pool
      may be operated exactly when the gas check finds that size viable. */
  function CalculatePositionSize(e: Engine, p: PoolData, overridePct: Option<real>): (r: PositionSize)
    ensures ScoreOf(p) < e.minScore as real ==>
      !r.canOperate && r.reason.ScoreBelowMinimum? && r.sizePct == 0.0 && r.sizeUsdt == 0.0 && r.warnings == []
    ensures ScoreOf(p) >= e.minScore as real ==>
      r.sizePct == Round2(SizePct(e, ScoreOf(p), overridePct)) &&
      r.sizeUsdt == SizeUsdt(e, SizePct(e, ScoreOf(p), overridePct)) &&
      r.canOperate == ValidateGasCost(e, r.sizeUsdt, p).viable &&
      r.warnings == ValidateGasCost(e, r.sizeUsdt, p).warnings &&
      (r.canOperate <==> r.reason.SizeOk?) &&
      r.gasCost == Some(GasCostUsd)
  {
    var score := ScoreOf(p);
    if score < e.minScore as real then
      PositionSize(false, ScoreBelowMinimum(score, e.minScore), 0.0, 0.0, None, [])
    else
      var sizePct := SizePct(e, score, overridePct);
      var sizeUsdt := SizeUsdt(e, sizePct);
      var gas := ValidateGasCost(e, sizeUsdt, p);
      var reason := if gas.viable then SizeOk else ReturnBelowGas(gas.estimatedReturnUsd, gas.minReturnNeeded, e.gasMultiplier);
      PositionSize(gas.viable, reason, Round2(sizePct), sizeUsdt, Some(GasCostUsd), gas.warnings)
  }

  /** Without an override, a higher score never yields a smaller size. */
  lemma SizePctMonotone(e: Engine, s1: real, s2: real)
    requires s1 <= s2
    requires e.profileLimits.maxPositionPct >= 10.0
    ensures SizePct(e, s1, None) <= SizePct(e, s2, None)
  {
    var k := e.profileLimits.maxPositionPct - 10.0;
    assert k * ((s2 - 60.0) / 40.0) - k * ((s1 - 60.0) / 40.0) == k * ((s2 - s1) / 40.0);
    assert k * ((s2 - s1) / 40.0) >= 0.0;
  }

  /** The scale's end points: 10% at score 60 and the profile maximum at
      score 100, each then capped; below 60 the base falls under 10%. */
  lemma SizePctEndPoints(e: Engine, score: real)
    ensures SizePct(e, 60.0, None) == Min(Min(10.0, e.maxPositionSize), e.profileLimits.maxPositionPct)
    ensures SizePct(e, 100.0, None) == Min(e.profileLimits.maxPositionPct, e.maxPositionSize)
    ensures score < 60.0 && e.profileLimits.maxPositionPct > 10.0 ==> BasePct(e, score, None) < 10.0
  {
    if score < 60.0 && e.profileLimits.maxPositionPct > 10.0 {
      var k := e.profileLimits.maxPositionPct - 10.0;
      var f := (score - 60.0) / 40.0;
      assert f < 0.0;
      assert k * (-f) > 0.0;
      assert k * f < 0.0;
    }
  }

  // ---------------------------------------------------------------------
  // Percent / USDT conversion and stop loss
  // ---------------------------------------------------------------------

  /** sync_position_values before rounding: 'pct' caps the percentage at 100
      and derives the USDT amount; any other unit caps the amount at the
      capital and derives the percentage (0 without capital). Neither value
      is clamped from below. */
  function SyncExact(e: Engine, value: real, valueType: string): (r: (real, real))
    ensures valueType == "pct" ==> r.0 == Min(value, 100.0) && r.1 == e.capitalTotal * (r.0 / 100.0)
    ensures valueType != "pct" ==> r.1 == Min(value, e.capitalTotal)
    ensures valueType != "pct" && e.capitalTotal <= 0.0 ==> r.0 == 0.0
    ensures e.capitalTotal > 0.0 ==> r.1 == e.capitalTotal * (r.0 / 100.0)
    ensures e.capitalTotal > 0.0 ==> r.0 <= 100.0 && r.1 <= e.capitalTotal
  {
    if valueType == "pct" then
      var pct := Min(value, 100.0);
      var usdt := e.capitalTotal * (pct / 100.0);
      assert e.capitalTotal > 0.0 ==> usdt <= e.capitalTotal by {
        if e.capitalTotal > 0.0 {
          assert e.capitalTotal - usdt == e.capitalTotal * ((100.0 - pct) / 100.0);
        }
      }
      (pct, usdt)
    else
      var usdt := Min(value, e.capitalTotal);
      var pct := if e.capitalTotal > 0.0 then usdt / e.capitalTotal * 100.0 else 0.0;
      assert e.capitalTotal > 0.0 ==> usdt == e.capitalTotal * (pct / 100.0) && pct <= 100.0 by {
        if e.capitalTotal > 0.0 {
          var q := usdt / e.capitalTotal;
          assert q * e.capitalTotal == usdt;
          assert pct / 100.0 == q;
        }
      }
      (pct, usdt)
  }

  /** sync_position_values: both values rounded to two decimals. */
  function SyncPositionValues(e: Engine, value: real, valueType: string): (r: (real, real))
    ensures SyncExact(e, value, valueType).0 - 0.005 <= r.0 <= SyncExact(e, value, valueType).0 + 0.005
    ensures SyncExact(e, value, valueType).1 - 0.005 <= r.1 <= SyncExact(e, value, valueType).1 + 0.005
    ensures valueType == "pct" ==> r.0 <= 100.0
  {
    var x := SyncExact(e, value, valueType);
    if valueType == "pct" then
      Round2Monotone(x.0, 100.0);
      Round2Cents(10000);
      (Round2(x.0), Round2(x.1))
    else
      (Round2(x.0), Round2(x.1))
  }

  /** A percentage converted to USDT and back is the percentage again (before
      rounding), whenever there is capital and the percentage is at most 100. */
  lemma SyncRoundTrip(e: Engine, pct: real)
    requires e.capitalTotal > 0.0 && pct <= 100.0
    ensures SyncExact(e, SyncExact(e, pct, "pct").1, "usdt").0 == pct
  {
    var usdt := SyncExact(e, pct, "pct").1;
    var q := pct / 100.0;
    assert usdt == e.capitalTotal * q;
    assert usdt <= e.capitalTotal;
    assert usdt / e.capitalTotal == q;
  }

  datatype StopDecision =
    | Stop(lossPct: real, lossAmount: real)
    | Hold(currentLossPct: Option<real>)

  /** validate_stop_loss: never stops a position of size <= 0; otherwise stops
      exactly when the loss reaches the stop-loss percentage of the size. */
  function ValidateStopLoss(e: Engine, currentPnl: real, positionSize: real): (r: StopDecision)
    ensures positionSize <= 0.0 ==> r == Hold(None)
    ensures r.Stop? <==> positionSize > 0.0 && currentPnl * 100.0 <= -e.stopLoss * positionSize
    ensures r.Stop? ==> r.lossAmount == currentPnl && r.lossPct * positionSize == currentPnl * 100.0
    ensures r.Hold? && positionSize > 0.0 ==> r.currentLossPct.Some? && r.currentLossPct.value * positionSize == currentPnl * 100.0
  {
    if positionSize <= 0.0 then Hold(None)
    else
      var lossPct := currentPnl / positionSize * 100.0;
      LossPctScaled(currentPnl, positionSize, e.stopLoss);
      if lossPct <= -e.stopLoss then Stop(lossPct, currentPnl) else Hold(Some(lossPct))
  }

  lemma LossPctScaled(pnl: real, size: real, stopLoss: real)
    requires size > 0.0
    ensures (pnl / size * 100.0) * size == pnl * 100.0
    ensures pnl / size * 100.0 <= -stopLoss <==> pnl * 100.0 <= -stopLoss * size
  {
    var l := pnl / size * 100.0;
    assert (pnl / size) * size == pnl;
    assert l * size == pnl * 100.0;
    if l <= -stopLoss {
      assert l * size <= -stopLoss * size;
    } else {
      assert l * size > -stopLoss * size;
    }
  }
}
