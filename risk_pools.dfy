/** RiskPools: the pool records the risk engine reads and the helpers that dig
    identifiers and a 7-day simulation out of them (risk_engine.py). The
    duck-typed dictionaries become records whose slots keep the distinctions
    the code observes: a missing key, a None, a non-dict, a falsy value. */
module RiskPools {
  import opened Values

  /** A 7-day simulation dictionary as the risk engine reads it: the five keys
      it looks up, and whether any other key is present (such a dictionary is
      truthy even when none of the five is). */
  datatype SimDict = SimDict(
    netAfterGas: Field,
    netReturn: Field,
    timeInRange: Field,
    ilPercentage: Field,
    impermanentLoss: Field,
    otherKeys: bool)

  /** The empty dictionary {}. */
  const EmptySim := SimDict(Absent, Absent, Absent, Absent, Absent, false)

  /** Truthiness of a simulation dictionary: it is not {}. */
  predicate NonEmpty(d: SimDict) {
    d != EmptySim
  }

  /** The value of strategy['7d']: falsy (read as {} by `or {}`), a dict, or a
      truthy value that is not a dict. */
  datatype DaySlot = FalsyDay | DayDict(d: SimDict) | DayOther

  /** sims.get(strategy): not a dict (missing included), or a dict whose '7d'
      slot is given. */
  datatype StrategySlot = NotADict | StrategyDict(day7: DaySlot)

  /** A parsed simulations blob: one slot per strategy key the engine visits. */
  datatype SimsDict = SimsDict(defensive: StrategySlot, optimized: StrategySlot, aggressive: StrategySlot)

  function SlotOf(sims: SimsDict, k: Strategy): StrategySlot {
    match k
    case Defensive => sims.defensive
    case Optimized => sims.optimized
    case Aggressive => sims.aggressive
  }

  /** The slots in the order the engine visits them. */
  function SlotsInOrder(sims: SimsDict): (r: seq<StrategySlot>)
    ensures |r| == |StrategyOrder|
    ensures forall i :: 0 <= i < |r| ==> r[i] == SlotOf(sims, StrategyOrder[i])
  {
    [sims.defensive, sims.optimized, sims.aggressive]
  }

  /** pool['simulations'] or pool['simulations_data'] after JSON decoding:
      falsy or missing (NoBlob), a dict (given directly or as JSON text that
      decodes to one), or any other truthy value, JSON text that fails to
      decode included (BlobOther). */
  datatype Blob = NoBlob | BlobDict(sims: SimsDict) | BlobOther

  /** A pool dictionary as the risk engine sees it. score is None when the key
      is missing (read as 0); a score holding None or another non-number, on
      which the engine's comparisons raise, is not represented. simulation7d
      and sim7d are None when the key is missing or does not hold a dict. */
  datatype PoolData = PoolData(
    score: Option<real>,
    poolAddress: TextField,
    address: TextField,
    pair: TextField,
    token0Symbol: TextField,
    token1Symbol: TextField,
    simulation7d: Option<SimDict>,
    sim7d: Option<SimDict>,
    simulations: Blob,
    simulationsData: Blob,
    apr7d: Scalar)

  /** pool.get('score', 0) */
  function ScoreOf(p: PoolData): real {
    p.score.GetOr(0.0)
  }

  /** _get_pool_address: 'pool_address' when truthy, else whatever 'address'
      holds (None when it is missing or None). */
  function PoolAddress(p: PoolData): (r: Option<string>)
    ensures TextTruthy(p.poolAddress) ==> r == Some(p.poolAddress.s)
    ensures !TextTruthy(p.poolAddress) ==> (r.Some? <==> p.address.Str?)
    ensures !TextTruthy(p.poolAddress) && r.Some? ==> r.value == p.address.s
  {
    if TextTruthy(p.poolAddress) then Some(p.poolAddress.s)
    else if p.address.Str? then Some(p.address.s)
    else None
  }

  /** The string an f-string shows for pool.get(key, default). */
  function Shown(t: TextField, default: string): string {
    match t
    case NoKey => default
    case NoneText => "None"
    case Str(s) => s
  }

  /** _get_pair_label: 'pair' when truthy, else "<token0>/<token1>" with
      TOKEN0/TOKEN1 for missing symbols. */
  function PairLabel(p: PoolData): (r: string)
    ensures r != ""
    ensures TextTruthy(p.pair) ==> r == p.pair.s
    ensures !TextTruthy(p.pair) ==>
      r == Shown(p.token0Symbol, "TOKEN0") + "/" + Shown(p.token1Symbol, "TOKEN1")
  {
    if TextTruthy(p.pair) then p.pair.s
    else Shown(p.token0Symbol, "TOKEN0") + "/" + Shown(p.token1Symbol, "TOKEN1")
  }

  /** The number a 7-day dictionary is ranked by: net_after_gas, or
      net_return when net_after_gas is None or missing; None when float()
      rejects it. */
  function RankOf(d: SimDict): Option<real> {
    var v := if Get(d.netAfterGas).Null? then Get(d.netReturn) else Get(d.netAfterGas);
    ToFloat(v)
  }

  /** What one strategy contributes to the search: its rank and its 7-day
      dictionary, or None when the loop skips it. */
  function Candidate(slot: StrategySlot): Option<(real, SimDict)> {
    match slot
    case NotADict => None
    case StrategyDict(day) =>
      match day
      case DayOther => None
      case FalsyDay => (match RankOf(EmptySim) case None => None case Some(v) => Some((v, EmptySim)))
      case DayDict(d) => (match RankOf(d) case None => None case Some(v) => Some((v, d)))
  }

  /** The best candidate among the slots: the first one whose rank is
      strictly greater than every earlier rank. */
  function BestOf(slots: seq<StrategySlot>): Option<(real, SimDict)>
    decreases |slots|
  {
    if slots == [] then None
    else
      var prev := BestOf(slots[..|slots| - 1]);
      match Candidate(slots[|slots| - 1])
      case None => prev
      case Some(c) => if prev.None? || c.0 > prev.value.0 then Some(c) else prev
  }

  /** The search finds nothing exactly when no slot has a numeric rank. */
  lemma {:induction false} BestOfNone(slots: seq<StrategySlot>)
    ensures BestOf(slots).None? <==> forall i :: 0 <= i < |slots| ==> Candidate(slots[i]).None?
  {
    if slots != [] {
      var init := slots[..|slots| - 1];
      BestOfNone(init);
      assert forall i :: 0 <= i < |init| ==> init[i] == slots[i];
    }
  }

  /** What the search returns is a candidate of the slots whose rank is the
      greatest, and every earlier candidate ranks strictly lower: the first
      strategy wins ties. */
  lemma {:induction false} BestOfIsFirstMaximum(slots: seq<StrategySlot>)
    requires BestOf(slots).Some?
    ensures exists i :: (0 <= i < |slots| && Candidate(slots[i]) == BestOf(slots) &&
      forall j :: 0 <= j < i && Candidate(slots[j]).Some? ==> Candidate(slots[j]).value.0 < BestOf(slots).value.0)
    ensures forall j :: 0 <= j < |slots| && Candidate(slots[j]).Some? ==> Candidate(slots[j]).value.0 <= BestOf(slots).value.0
  {
    var n := |slots| - 1;
    var init := slots[..n];
    assert forall i :: 0 <= i < |init| ==> init[i] == slots[i];
    var b := BestOf(slots);
    var prev := BestOf(init);
    if prev.Some? {
      BestOfIsFirstMaximum(init);
    } else {
      BestOfNone(init);
    }
    if b == prev {
      if Candidate(slots[n]).Some? {
        assert prev.Some? && Candidate(slots[n]).value.0 <= prev.value.0;
      }
      var i :| 0 <= i < |init| && Candidate(init[i]) == prev &&
        (forall j :: 0 <= j < i && Candidate(init[j]).Some? ==> Candidate(init[j]).value.0 < prev.value.0);
      assert Candidate(slots[i]) == b;
    } else {
      assert Candidate(slots[n]) == b;
    }
  }

  /** The summary the engine builds from the winning 7-day dictionary: floats
      of its fields, with 0.0 (and the rank for net_return) when a field is
      missing or float() rejects it. */
  function Summary(best: (real, SimDict)): SimDict {
    var d := best.1;
    var il := ToFloat(GetOr(d.impermanentLoss, Num(0.0))).GetOr(0.0);
    var tir := ToFloat(GetOr(d.timeInRange, Num(0.0))).GetOr(0.0);
    var net := ToFloat(GetOr(d.netReturn, Num(best.0))).GetOr(best.0);
    SimDict(Present(Num(best.0)), Present(Num(net)), Present(Num(tir)), Present(Num(il)), Absent, false)
  }

  /** pool.get('simulations') or pool.get('simulations_data') */
  function BlobOf(p: PoolData): Blob {
    if p.simulations.NoBlob? then p.simulationsData else p.simulations
  }

  /** _extract_simulation_7d, as a specification: a dict under
      'simulation_7d', else one under 'sim_7d', else the summary of the
      best-ranked strategy of the simulations blob, else {}. */
  function Extracted(p: PoolData): SimDict {
    if p.simulation7d.Some? then p.simulation7d.value
    else if p.sim7d.Some? then p.sim7d.value
    else match BlobOf(p)
      case BlobDict(sims) =>
        (match BestOf(SlotsInOrder(sims)) case None => EmptySim case Some(b) => Summary(b))
      case _ => EmptySim
  }

  /** What Extracted promises, stated without its definition: precomputed
      dictionaries win in order; otherwise the result is {} exactly when no
      strategy has a numeric rank, and else carries the greatest rank as
      net_after_gas. */
  lemma ExtractedSpec(p: PoolData)
    ensures p.simulation7d.Some? ==> Extracted(p) == p.simulation7d.value
    ensures p.simulation7d.None? && p.sim7d.Some? ==> Extracted(p) == p.sim7d.value
    ensures p.simulation7d.None? && p.sim7d.None? && !BlobOf(p).BlobDict? ==> Extracted(p) == EmptySim
    ensures p.simulation7d.None? && p.sim7d.None? && BlobOf(p).BlobDict? ==>
      var slots := SlotsInOrder(BlobOf(p).sims);
      (Extracted(p) == EmptySim <==> forall i :: 0 <= i < |slots| ==> Candidate(slots[i]).None?) &&
      (forall i :: 0 <= i < |slots| && Candidate(slots[i]).Some? ==>
        Extracted(p).netAfterGas.Present? && Extracted(p).netAfterGas.v.Num? &&
        Candidate(slots[i]).value.0 <= Extracted(p).netAfterGas.v.x)
  {
    if p.simulation7d.None? && p.sim7d.None? && BlobOf(p).BlobDict? {
      var slots := SlotsInOrder(BlobOf(p).sims);
      BestOfNone(slots);
      if BestOf(slots).Some? {
        BestOfIsFirstMaximum(slots);
      }
    }
  }

  /** _extract_simulation_7d: the loop over the three strategy keys keeping
      the best (rank, 7-day dict) pair seen so far. */
  method ExtractSimulation7d(p: PoolData) returns (r: SimDict)
    ensures r == Extracted(p)
  {
    if p.simulation7d.Some? {
      return p.simulation7d.value;
    }
    if p.sim7d.Some? {
      return p.sim7d.value;
    }
    var blob := if p.simulations.NoBlob? then p.simulationsData else p.simulations;
    if blob.BlobDict? {
      ghost var slots := SlotsInOrder(blob.sims);
      var best: Option<(real, SimDict)> := None;
      var i := 0;
      while i < |StrategyOrder|
        invariant 0 <= i <= |StrategyOrder|
        invariant best == BestOf(slots[..i])
      {
        assert slots[..i + 1][..i] == slots[..i];
        var strat := SlotOf(blob.sims, StrategyOrder[i]);
        if strat.StrategyDict? && !strat.day7.DayOther? {
          var data7d := if strat.day7.DayDict? then strat.day7.d else EmptySim;
          var netAfter := Get(data7d.netAfterGas);
          if netAfter.Null? {
            netAfter := Get(data7d.netReturn);
          }
          var value := ToFloat(netAfter);
          if value.Some? && (best.None? || value.value > best.value.0) {
            best := Some((value.value, data7d));
          }
        }
        i := i + 1;
      }
      assert slots[..|StrategyOrder|] == slots;
      if best.Some? {
        var data7d := best.value.1;
        var il := ToFloat(GetOr(data7d.impermanentLoss, Num(0.0))).GetOr(0.0);
        var tir := ToFloat(GetOr(data7d.timeInRange, Num(0.0))).GetOr(0.0);
        var net := ToFloat(GetOr(data7d.netReturn, Num(best.value.0))).GetOr(best.value.0);
        return SimDict(Present(Num(best.value.0)), Present(Num(net)), Present(Num(tir)), Present(Num(il)), Absent, false);
      }
    }
    return EmptySim;
  }
}
