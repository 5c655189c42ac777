/** RiskMarket: the market-wide go/no-go gate and the greedy capital allocator
    of risk_engine.py (check_market_conditions and
    calculate_portfolio_allocation). Each is a method with the source's loop,
    proved equal to a specification function whose properties are lemmas. */
module RiskMarket {
  import opened Values
  import opened RiskPools
  import opened RiskEngine

  // ---------------------------------------------------------------------
  // Market gate
  // ---------------------------------------------------------------------

  /** An entry of good_pools. */
  datatype GoodPool = GoodPool(poolAddress: Option<string>, pair: string, score: real, netReturn: real, ilPercentage: real)

  /** |il_percentage| of a simulation, falling back to impermanent_loss when
      that key is missing, then to 0; 0.0 when float() rejects it. */
  function IlPct(sim: SimDict): (r: real)
    ensures r >= 0.0
  {
    Abs(ToFloat(GetOr(sim.ilPercentage, GetOr(sim.impermanentLoss, Num(0.0)))).GetOr(0.0))
  }

  /** net_after_gas of a simulation, falling back to net_return when that key
      is missing, then to 0; 0.0 when float() rejects it. */
  function NetReturn(sim: SimDict): real {
    ToFloat(GetOr(sim.netAfterGas, GetOr(sim.netReturn, Num(0.0)))).GetOr(0.0)
  }

  /** The gate's test for one pool: score at least min_score, a non-empty
      7-day simulation, |IL| within the profile's tolerance and a positive
      net return. */
  predicate Qualifies(e: Engine, p: PoolData) {
    var sim := Extracted(p);
    ScoreOf(p) >= e.minScore as real && NonEmpty(sim) &&
    IlPct(sim) <= e.profileLimits.maxIlTolerance && NetReturn(sim) > 0.0
  }

  function AsGoodPool(p: PoolData): GoodPool {
    var sim := Extracted(p);
    GoodPool(PoolAddress(p), PairLabel(p), ScoreOf(p), NetReturn(sim), IlPct(sim))
  }

  /** The qualifying pools, in input order. */
  function Qualifiers(e: Engine, pools: seq<PoolData>): seq<GoodPool>
    decreases |pools|
  {
    if pools == [] then []
    else
      var rest := Qualifiers(e, pools[..|pools| - 1]);
      var p := pools[|pools| - 1];
      if Qualifies(e, p) then rest + [AsGoodPool(p)] else rest
  }

  /** total_score: the sum of the scores of the qualifying pools only. */
  function QualifyingScoreTotal(e: Engine, pools: seq<PoolData>): real
    decreases |pools|
  {
    if pools == [] then 0.0
    else
      var rest := QualifyingScoreTotal(e, pools[..|pools| - 1]);
      var p := pools[|pools| - 1];
      if Qualifies(e, p) then rest + ScoreOf(p) else rest
  }

  function SumScores(gs: seq<GoodPool>): real
    decreases |gs|
  {
    if gs == [] then 0.0 else SumScores(gs[..|gs| - 1]) + gs[|gs| - 1].score
  }

  /** The length of xs[:k] for a list of length n (a negative k counts from
      the end). */
  function SliceEnd(n: nat, k: int): (r: nat)
    ensures r <= n
    ensures k >= 0 ==> r <= k && (r == n || r == k)
  {
    if k >= n then n
    else if k >= 0 then k
    else if n + k >= 0 then n + k
    else 0
  }

  /** The gate's reason, with its recommendation implied. */
  datatype MarketVerdict =
    | NoPoolsAvailable
    | UnfavorableMarket(averageScore: real)
    | NoPoolMeetsCriteria
    | UncertainConditions
    | PoolsFound(found: nat, toOperate: int)

  datatype MarketCheck = MarketCheck(
    canOperate: bool,
    verdict: MarketVerdict,
    goodPools: seq<GoodPool>,
    marketScore: real,
    totalOpportunities: Option<nat>)

  /** check_market_conditions, as a specification. */
  function MarketConditions(e: Engine, pools: seq<PoolData>): MarketCheck {
    if pools == [] then MarketCheck(false, NoPoolsAvailable, [], 0.0, None)
    else
      var good := Qualifiers(e, pools);
      var marketScore := QualifyingScoreTotal(e, pools) / |pools| as real;
      var canOperate := |good| > 0 && marketScore >= 50.0;
      var verdict :=
        if !canOperate then
          if marketScore < 50.0 then UnfavorableMarket(marketScore)
          else if |good| == 0 then NoPoolMeetsCriteria
          else UncertainConditions
        else PoolsFound(|good|, MinInt(|good|, e.maxPositions));
      MarketCheck(canOperate, verdict, good[..SliceEnd(|good|, e.maxPositions)], Round1(marketScore), Some(|good|))
  }

  /** check_market_conditions: one pass over the pools collecting the
      qualifiers and the sum of their scores. */
  method CheckMarketConditions(e: Engine, pools: seq<PoolData>) returns (r: MarketCheck)
    ensures r == MarketConditions(e, pools)
    ensures pools == [] ==> !r.canOperate && r.goodPools == [] && r.marketScore == 0.0
  {
    if |pools| == 0 {
      return MarketCheck(false, NoPoolsAvailable, [], 0.0, None);
    }
    var good: seq<GoodPool> := [];
    var totalScore := 0.0;
    var i := 0;
    while i < |pools|
      invariant 0 <= i <= |pools|
      invariant good == Qualifiers(e, pools[..i])
      invariant totalScore == QualifyingScoreTotal(e, pools[..i])
    {
      assert pools[..i + 1][..i] == pools[..i];
      var pool := pools[i];
      var score := ScoreOf(pool);
      var sim := ExtractSimulation7d(pool);
      if score >= e.minScore as real && NonEmpty(sim) {
        var ilRaw := GetOr(sim.ilPercentage, GetOr(sim.impermanentLoss, Num(0.0)));
        var ilPct := match ToFloat(ilRaw) case Some(x) => Abs(x) case None => 0.0;
        var netRaw := GetOr(sim.netAfterGas, GetOr(sim.netReturn, Num(0.0)));
        var netReturn := ToFloat(netRaw).GetOr(0.0);
        if ilPct <= e.profileLimits.maxIlTolerance && netReturn > 0.0 {
          good := good + [GoodPool(PoolAddress(pool), PairLabel(pool), score, netReturn, ilPct)];
          totalScore := totalScore + score;
        }
      }
      i := i + 1;
    }
    assert pools[..|pools|] == pools;
    var marketScore := totalScore / |pools| as real;
    var canOperate := |good| > 0 && marketScore >= 50.0;
    var verdict;
    if !canOperate {
      if marketScore < 50.0 {
        verdict := UnfavorableMarket(marketScore);
      } else if |good| == 0 {
        verdict := NoPoolMeetsCriteria;
      } else {
        verdict := UncertainConditions;
      }
    } else {
      verdict := PoolsFound(|good|, MinInt(|good|, e.maxPositions));
    }
    r := MarketCheck(canOperate, verdict, good[..SliceEnd(|good|, e.maxPositions)], Round1(marketScore), Some(|good|));
  }

  /** A pool's entry is among the qualifiers exactly when it passes the test,
      and every qualifier is the entry of a pool that passes it. */
  lemma {:induction false} QualifiersExact(e: Engine, pools: seq<PoolData>)
    ensures forall i :: 0 <= i < |pools| && Qualifies(e, pools[i]) ==> AsGoodPool(pools[i]) in Qualifiers(e, pools)
    ensures forall g :: g in Qualifiers(e, pools) ==> exists i :: 0 <= i < |pools| && Qualifies(e, pools[i]) && g == AsGoodPool(pools[i])
    ensures |Qualifiers(e, pools)| <= |pools|
  {
    if pools != [] {
      var init := pools[..|pools| - 1];
      QualifiersExact(e, init);
      assert forall i :: 0 <= i < |init| ==> init[i] == pools[i];
    }
  }

  /** market_score's numerator is the sum of the qualifiers' scores: pools
      that fail the test add nothing to it. */
  lemma {:induction false} TotalIsQualifierSum(e: Engine, pools: seq<PoolData>)
    ensures QualifyingScoreTotal(e, pools) == SumScores(Qualifiers(e, pools))
  {
    if pools != [] {
      var init := pools[..|pools| - 1];
      TotalIsQualifierSum(e, init);
      var q := Qualifiers(e, init);
      if Qualifies(e, pools[|pools| - 1]) {
        var q' := q + [AsGoodPool(pools[|pools| - 1])];
        assert q'[..|q'| - 1] == q;
      }
    }
  }

  /** The gate: it opens exactly when some pool qualifies and the qualifiers'
      score sum averaged over all pools reaches 50. It never opens on an
      empty input; good_pools is an order-preserving prefix of the
      qualifiers, no longer than max_positions, and total_opportunities
      counts all of them. */
  lemma MarketGate(e: Engine, pools: seq<PoolData>)
    ensures var r := MarketConditions(e, pools);
      pools == [] ==> !r.canOperate && r.goodPools == [] && r.marketScore == 0.0 && r.verdict == NoPoolsAvailable
    ensures var r := MarketConditions(e, pools);
      pools != [] ==>
        (r.canOperate <==> |Qualifiers(e, pools)| > 0 && SumScores(Qualifiers(e, pools)) / |pools| as real >= 50.0) &&
        r.goodPools <= Qualifiers(e, pools) &&
        (e.maxPositions >= 0 ==> |r.goodPools| == MinInt(|Qualifiers(e, pools)|, e.maxPositions)) &&
        r.totalOpportunities == Some(|Qualifiers(e, pools)|)
  {
    TotalIsQualifierSum(e, pools);
  }

  /** When the gate stays closed on a non-empty input the reason is always
      the unfavourable market: with no qualifier the score sum is 0, so the
      'no pool meets the criteria' and 'uncertain conditions' reasons can
      never be given. */
  lemma {:induction false} ClosedGateIsUnfavorable(e: Engine, pools: seq<PoolData>)
    requires pools != []
    requires !MarketConditions(e, pools).canOperate
    ensures MarketConditions(e, pools).verdict.UnfavorableMarket?
  {
    if Qualifiers(e, pools) == [] {
      TotalIsQualifierSum(e, pools);
      assert QualifyingScoreTotal(e, pools) == 0.0;
    }
  }

  // ---------------------------------------------------------------------
  // Portfolio allocation
  // ---------------------------------------------------------------------

  /** An entry of allocations. */
  datatype Allocation = Allocation(
    poolAddress: Option<string>,
    pair: string,
    score: real,
    allocationPct: real,
    allocationUsdt: real,
    expectedReturn: real,
    warnings: seq<Warning>)

  datatype Totals = Totals(totalAllocatedUsdt: real, totalAllocatedPct: real, remainingCapital: real, marketScore: real)

  datatype AllocationReason = MarketRefused(verdict: MarketVerdict) | PositionsAllocated(count: nat)

  datatype PortfolioPlan = PortfolioPlan(
    canOperate: bool,
    reason: AllocationReason,
    recommendation: MarketVerdict,
    allocations: seq<Allocation>,
    totals: Option<Totals>)

  /** next(p for p in pools if _get_pool_address(p) == address): the first
      pool with that address (None == None counts as equal). */
  function FindByAddress(pools: seq<PoolData>, address: Option<string>): (r: Option<PoolData>)
    ensures r.Some? ==> r.value in pools && PoolAddress(r.value) == address
    ensures r.None? ==> forall p :: p in pools ==> PoolAddress(p) != address
  {
    if pools == [] then None
    else if PoolAddress(pools[0]) == address then Some(pools[0])
    else FindByAddress(pools[1..], address)
  }

  /** The good-pool entry itself read as a pool dictionary: the fallback of
      next(). */
  function GoodPoolAsData(g: GoodPool): PoolData {
    PoolData(
      Some(g.score),
      match g.poolAddress case Some(a) => Str(a) case None => NoneText,
      NoKey, Str(g.pair), NoKey, NoKey, None, None, NoBlob, NoBlob, Null)
  }

  /** next() returns the first match: the pool found sits at an index no
      earlier pool shares the address with. */
  lemma {:induction false} FindByAddressIsFirst(pools: seq<PoolData>, address: Option<string>)
    ensures var r := FindByAddress(pools, address);
      r.Some? ==> exists i :: 0 <= i < |pools| && pools[i] == r.value && PoolAddress(pools[i]) == address &&
                             (forall j :: 0 <= j < i ==> PoolAddress(pools[j]) != address)
  {
    if pools != [] && PoolAddress(pools[0]) != address {
      var rest := pools[1..];
      FindByAddressIsFirst(rest, address);
      var r := FindByAddress(rest, address);
      if r.Some? {
        var i :| 0 <= i < |rest| && rest[i] == r.value && PoolAddress(rest[i]) == address &&
                 (forall j :: 0 <= j < i ==> PoolAddress(rest[j]) != address);
        assert pools[i + 1] == rest[i];
        forall j | 0 <= j < i + 1
          ensures PoolAddress(pools[j]) != address
        {
          if j > 0 {
            assert pools[j] == rest[j - 1];
          }
        }
      }
    }
  }

  /** The full pool data the allocator sizes a good pool with. */
  function FullPool(pools: seq<PoolData>, g: GoodPool): PoolData {
    match FindByAddress(pools, g.poolAddress)
    case Some(p) => p
    case None => GoodPoolAsData(g)
  }

  function AllocationOf(g: GoodPool, pos: PositionSize): Allocation {
    Allocation(g.poolAddress, g.pair, g.score, pos.sizePct, pos.sizeUsdt, g.netReturn, pos.warnings)
  }

  /** The sizing the allocator computes for a good pool. */
  function SizingOf(e: Engine, pools: seq<PoolData>, g: GoodPool): PositionSize {
    CalculatePositionSize(e, FullPool(pools, g), None)
  }

  datatype AllocState = AllocState(allocations: seq<Allocation>, remaining: real)

  /** The greedy pass over the good pools: accept a pool when its sizing can
      operate and fits the remaining capital, and take its size off. */
  function Allocate(e: Engine, pools: seq<PoolData>, goods: seq<GoodPool>): AllocState
    decreases |goods|
  {
    if goods == [] then AllocState([], e.capitalTotal)
    else
      var prev := Allocate(e, pools, goods[..|goods| - 1]);
      var g := goods[|goods| - 1];
      var pos := SizingOf(e, pools, g);
      if pos.canOperate && pos.sizeUsdt <= prev.remaining then
        AllocState(prev.allocations + [AllocationOf(g, pos)], prev.remaining - pos.sizeUsdt)
      else prev
  }

  /** calculate_portfolio_allocation, as a specification. */
  function PortfolioAllocation(e: Engine, pools: seq<PoolData>): PortfolioPlan {
    var market := MarketConditions(e, pools);
    if !market.canOperate then
      PortfolioPlan(false, MarketRefused(market.verdict), market.verdict, [], None)
    else
      var s := Allocate(e, pools, market.goodPools);
      var total := e.capitalTotal - s.remaining;
      var totalPct := if e.capitalTotal > 0.0 then total / e.capitalTotal * 100.0 else 0.0;
      PortfolioPlan(true, PositionsAllocated(|s.allocations|), market.verdict, s.allocations,
        Some(Totals(Round2(total), Round2(totalPct), Round2(s.remaining), market.marketScore)))
  }

  /** calculate_portfolio_allocation: the market gate, then one greedy pass
      over good_pools in order. */
  method CalculatePortfolioAllocation(e: Engine, pools: seq<PoolData>) returns (r: PortfolioPlan)
    ensures r == PortfolioAllocation(e, pools)
    ensures !MarketConditions(e, pools).canOperate ==> !r.canOperate && r.allocations == []
  {
    var market := CheckMarketConditions(e, pools);
    if !market.canOperate {
      return PortfolioPlan(false, MarketRefused(market.verdict), market.verdict, [], None);
    }
    var allocations, remaining := AllocateGoodPools(e, pools, market.goodPools);
    var totalAllocated := e.capitalTotal - remaining;
    var totalAllocatedPct := if e.capitalTotal > 0.0 then totalAllocated / e.capitalTotal * 100.0 else 0.0;
    r := PortfolioPlan(true, PositionsAllocated(|allocations|), market.verdict, allocations,
      Some(Totals(Round2(totalAllocated), Round2(totalAllocatedPct), Round2(remaining), market.marketScore)));
  }

  /** The loop of calculate_portfolio_allocation: size each good pool with
      its full pool data and take it when it can operate and fits the
      capital that remains. */
  method AllocateGoodPools(e: Engine, pools: seq<PoolData>, goods: seq<GoodPool>)
    returns (allocations: seq<Allocation>, remaining: real)
    ensures AllocState(allocations, remaining) == Allocate(e, pools, goods)
  {
    allocations := [];
    remaining := e.capitalTotal;
    var i := 0;
    while i < |goods|
      invariant 0 <= i <= |goods|
      invariant AllocState(allocations, remaining) == Allocate(e, pools, goods[..i])
    {
      assert goods[..i + 1][..i] == goods[..i] && goods[..i + 1][i] == goods[i];
      var pool := goods[i];
      var fullPool := FullPool(pools, pool);
      var position := CalculatePositionSize(e, fullPool, None);
      if position.canOperate && position.sizeUsdt <= remaining {
        allocations := allocations + [AllocationOf(pool, position)];
        remaining := remaining - position.sizeUsdt;
      }
      i := i + 1;
    }
    assert goods[..|goods|] == goods;
  }

  function SumUsdt(allocs: seq<Allocation>): real
    decreases |allocs|
  {
    if allocs == [] then 0.0 else SumUsdt(allocs[..|allocs| - 1]) + allocs[|allocs| - 1].allocationUsdt
  }

  /** allocs is an in-order subsequence of goods, each entry the sizing of
      its good pool, which could operate. */
  predicate Embeds(e: Engine, pools: seq<PoolData>, allocs: seq<Allocation>, goods: seq<GoodPool>)
    decreases |goods|
  {
    if allocs == [] then true
    else if goods == [] then false
    else
      var g := goods[|goods| - 1];
      (allocs[|allocs| - 1] == AllocationOf(g, SizingOf(e, pools, g)) && SizingOf(e, pools, g).canOperate &&
       Embeds(e, pools, allocs[..|allocs| - 1], goods[..|goods| - 1]))
      || Embeds(e, pools, allocs, goods[..|goods| - 1])
  }

  /** What the greedy pass guarantees: the allocations are an in-order
      subsequence of the good pools, each sized by calculate_position_size
      and able to operate; each one fits the capital left before it; what
      is allocated plus what remains is the whole capital; and the
      remainder never goes negative when the capital is not negative. */
  lemma AllocateSpec(e: Engine, pools: seq<PoolData>, goods: seq<GoodPool>)
    ensures var s := Allocate(e, pools, goods);
      Embeds(e, pools, s.allocations, goods) &&
      SumUsdt(s.allocations) + s.remaining == e.capitalTotal &&
      (forall k :: 0 <= k < |s.allocations| ==> s.allocations[k].allocationUsdt <= e.capitalTotal - SumUsdt(s.allocations[..k])) &&
      (e.capitalTotal >= 0.0 ==> s.remaining >= 0.0)
  {
    AllocateEmbeds(e, pools, goods);
    AllocateConserves(e, pools, goods);
    AllocateFits(e, pools, goods);
  }

  /** One step of the greedy pass: the last good pool is either skipped or
      appended with its sizing, which fits what remained. */
  lemma AllocateStep(e: Engine, pools: seq<PoolData>, goods: seq<GoodPool>)
    requires goods != []
    ensures var prev := Allocate(e, pools, goods[..|goods| - 1]);
      var s := Allocate(e, pools, goods);
      var g := goods[|goods| - 1];
      s == prev ||
      (SizingOf(e, pools, g).canOperate && SizingOf(e, pools, g).sizeUsdt <= prev.remaining &&
       s.allocations == prev.allocations + [AllocationOf(g, SizingOf(e, pools, g))] &&
       s.remaining == prev.remaining - SizingOf(e, pools, g).sizeUsdt)
  {
  }

  lemma {:induction false} AllocateEmbeds(e: Engine, pools: seq<PoolData>, goods: seq<GoodPool>)
    ensures Embeds(e, pools, Allocate(e, pools, goods).allocations, goods)
  {
    if goods != [] {
      var init := goods[..|goods| - 1];
      AllocateEmbeds(e, pools, init);
      AllocateStep(e, pools, goods);
      var prev := Allocate(e, pools, init);
      var s := Allocate(e, pools, goods);
      if s == prev {
        EmbedsDropGood(e, pools, prev.allocations, init, goods[|goods| - 1]);
        assert init + [goods[|goods| - 1]] == goods;
      } else {
        assert s.allocations[..|s.allocations| - 1] == prev.allocations;
      }
    }
  }

  lemma {:induction false} AllocateConserves(e: Engine, pools: seq<PoolData>, goods: seq<GoodPool>)
    ensures var s := Allocate(e, pools, goods);
      SumUsdt(s.allocations) + s.remaining == e.capitalTotal &&
      (e.capitalTotal >= 0.0 ==> s.remaining >= 0.0)
  {
    if goods != [] {
      var init := goods[..|goods| - 1];
      AllocateConserves(e, pools, init);
      AllocateStep(e, pools, goods);
      var prev := Allocate(e, pools, init);
      var s := Allocate(e, pools, goods);
      if s != prev {
        assert s.allocations[..|s.allocations| - 1] == prev.allocations;
      }
    }
  }

  lemma {:induction false} AllocateFits(e: Engine, pools: seq<PoolData>, goods: seq<GoodPool>)
    ensures var a := Allocate(e, pools, goods).allocations;
      forall k :: 0 <= k < |a| ==> a[k].allocationUsdt <= e.capitalTotal - SumUsdt(a[..k])
  {
    if goods != [] {
      var init := goods[..|goods| - 1];
      AllocateFits(e, pools, init);
      AllocateConserves(e, pools, init);
      AllocateStep(e, pools, goods);
      var prev := Allocate(e, pools, init);
      var a := Allocate(e, pools, goods).allocations;
      if a != prev.allocations {
        assert a[..|a| - 1] == prev.allocations;
        forall k | 0 <= k < |a|
          ensures a[k].allocationUsdt <= e.capitalTotal - SumUsdt(a[..k])
        {
          if k < |a| - 1 {
            assert a[..k] == prev.allocations[..k];
          }
        }
      }
    }
  }

  lemma EmbedsDropGood(e: Engine, pools: seq<PoolData>, allocs: seq<Allocation>, init: seq<GoodPool>, g: GoodPool)
    requires Embeds(e, pools, allocs, init)
    ensures Embeds(e, pools, allocs, init + [g])
  {
    assert (init + [g])[..|init|] == init;
  }

  /** The plan: a closed gate yields no allocations and passes its verdict
      on; an open one allocates as the greedy pass does, and the allocated
      total plus the remaining capital is the capital, up to rounding. */
  lemma PortfolioPlanSpec(e: Engine, pools: seq<PoolData>)
    ensures var r := PortfolioAllocation(e, pools);
      !MarketConditions(e, pools).canOperate ==>
        !r.canOperate && r.allocations == [] && r.reason == MarketRefused(MarketConditions(e, pools).verdict)
    ensures var r := PortfolioAllocation(e, pools);
      MarketConditions(e, pools).canOperate ==>
        r.canOperate && r.totals.Some? &&
        Embeds(e, pools, r.allocations, MarketConditions(e, pools).goodPools) &&
        r.totals.value.totalAllocatedUsdt == Round2(SumUsdt(r.allocations)) &&
        e.capitalTotal - 0.01 <= r.totals.value.totalAllocatedUsdt + r.totals.value.remainingCapital <= e.capitalTotal + 0.01 &&
        (e.capitalTotal >= 0.0 ==> r.totals.value.remainingCapital >= 0.0)
  {
    var market := MarketConditions(e, pools);
    if market.canOperate {
      AllocateSpec(e, pools, market.goodPools);
      var s := Allocate(e, pools, market.goodPools);
      assert e.capitalTotal - s.remaining == SumUsdt(s.allocations);
      if e.capitalTotal >= 0.0 {
        Round2Monotone(0.0, s.remaining);
        Round2Cents(0);
      }
    }
  }

  /** Every good pool finds its own record (or one with the same address)
      among the input pools, so the fallback of next() is never taken; when
      addresses are distinct, the allocator sizes each good pool with the
      very pool that qualified. */
  lemma FullPoolOfQualifier(e: Engine, pools: seq<PoolData>, i: nat)
    requires i < |pools| && Qualifies(e, pools[i])
    ensures FindByAddress(pools, AsGoodPool(pools[i]).poolAddress).Some?
    ensures (forall j, k :: 0 <= j < k < |pools| ==> PoolAddress(pools[j]) != PoolAddress(pools[k])) ==>
      FullPool(pools, AsGoodPool(pools[i])) == pools[i]
  {
    assert pools[i] in pools;
    if forall j, k :: 0 <= j < k < |pools| ==> PoolAddress(pools[j]) != PoolAddress(pools[k]) {
      var p := FindByAddress(pools, PoolAddress(pools[i])).value;
      var j :| 0 <= j < |pools| && pools[j] == p;
      assert j == i;
    }
  }

  /** Every allocation is the entry of one of the good pools it was drawn
      from. */
  lemma {:induction false} EmbeddedFromGoods(e: Engine, pools: seq<PoolData>, allocs: seq<Allocation>, goods: seq<GoodPool>)
    requires Embeds(e, pools, allocs, goods)
    ensures forall a :: a in allocs ==> exists g :: g in goods && a == AllocationOf(g, SizingOf(e, pools, g))
  {
    if allocs != [] && goods != [] {
      var g := goods[|goods| - 1];
      var init := goods[..|goods| - 1];
      var front := allocs[..|allocs| - 1];
      assert allocs == front + [allocs[|allocs| - 1]];
      if allocs[|allocs| - 1] == AllocationOf(g, SizingOf(e, pools, g)) && SizingOf(e, pools, g).canOperate &&
         Embeds(e, pools, front, init) {
        EmbeddedFromGoods(e, pools, front, init);
        forall a | a in allocs
          ensures exists g' :: g' in goods && a == AllocationOf(g', SizingOf(e, pools, g'))
        {
          if a in front {
            var g' :| g' in init && a == AllocationOf(g', SizingOf(e, pools, g'));
            assert g' in goods;
          } else {
            assert g in goods;
          }
        }
      } else {
        EmbeddedFromGoods(e, pools, allocs, init);
        forall a | a in allocs
          ensures exists g' :: g' in goods && a == AllocationOf(g', SizingOf(e, pools, g'))
        {
          var g' :| g' in init && a == AllocationOf(g', SizingOf(e, pools, g'));
          assert g' in goods;
        }
      }
    }
  }

  /** Every good pool is the entry of a pool that passes the gate's test. */
  lemma GoodPoolsQualify(e: Engine, pools: seq<PoolData>)
    ensures forall g :: g in MarketConditions(e, pools).goodPools ==>
      exists i :: 0 <= i < |pools| && Qualifies(e, pools[i]) && g == AsGoodPool(pools[i])
  {
    var goods := MarketConditions(e, pools).goodPools;
    MarketGate(e, pools);
    QualifiersExact(e, pools);
    forall g | g in goods
      ensures exists i :: 0 <= i < |pools| && Qualifies(e, pools[i]) && g == AsGoodPool(pools[i])
    {
      var k :| 0 <= k < |goods| && goods[k] == g;
      assert pools != [];
      assert Qualifiers(e, pools)[k] == g && g in Qualifiers(e, pools);
    }
  }

  /** Each allocation is labelled as its pool: the address and the
      non-empty pair label of a pool that passes the gate's test. */
  lemma AllocationLabels(e: Engine, pools: seq<PoolData>)
    ensures forall a :: a in PortfolioAllocation(e, pools).allocations ==>
      a.pair != "" &&
      exists i :: 0 <= i < |pools| && Qualifies(e, pools[i]) &&
        a.pair == PairLabel(pools[i]) && a.poolAddress == PoolAddress(pools[i])
  {
    var market := MarketConditions(e, pools);
    if market.canOperate {
      var allocs := Allocate(e, pools, market.goodPools).allocations;
      assert PortfolioAllocation(e, pools).allocations == allocs;
      AllocateEmbeds(e, pools, market.goodPools);
      EmbeddedFromGoods(e, pools, allocs, market.goodPools);
      GoodPoolsQualify(e, pools);
      forall a | a in allocs
        ensures a.pair != "" &&
          exists i :: 0 <= i < |pools| && Qualifies(e, pools[i]) &&
            a.pair == PairLabel(pools[i]) && a.poolAddress == PoolAddress(pools[i])
      {
        var g :| g in market.goodPools && a == AllocationOf(g, SizingOf(e, pools, g));
        var i :| 0 <= i < |pools| && Qualifies(e, pools[i]) && g == AsGoodPool(pools[i]);
      }
    }
  }
}
