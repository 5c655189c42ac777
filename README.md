# EMITY risk engine and pool analyzers, modelled in Dafny

This project models the decision core of the EMITY liquidity-pool system:

- `RiskEngine` (risk_engine.py): risk profiles, the 7-day simulation a pool
  carries, position sizing, the gas-viability rule, the market gate, the
  greedy portfolio allocator, the %/USDT conversion and the stop-loss test;
- `to_float` and the `PoolAnalyzer` of analyzer.py: the three ranges around
  the price, the time-in-range estimate, the 7- and 30-day return
  simulation, the institutional score with its explanation, and the
  recommendation;
- the older `PoolAnalyzer` of scanner.py: the in-place normaliser of a pool
  row, its volatility-proportional ranges and its concentration-based
  simulation.

Files and modules:

| file | module | contents |
|---|---|---|
| values.dfy | `Values` | Python values as the code observes them (`float()`, truthiness, `dict.get`), `round()` as round-half-to-even, `int()` and `Decimal.quantize(ROUND_DOWN)` as truncation, the strategy names and the range/simulation records both analyzers build |
| risk_pools.dfy | `RiskPools` | the pool record the engine reads and `_extract_simulation_7d` |
| risk_engine.dfy | `RiskEngine` | profiles, engine construction, gas, sizing, sync, stop loss |
| risk_market.dfy | `RiskMarket` | `check_market_conditions` and `calculate_portfolio_allocation` |
| analyzer.dfy | `Analyzer` | analyzer.py's `PoolAnalyzer` helpers |
| scanner.dfy | `Scanner` | scanner.py's `PoolAnalyzer` helpers |

Numbers are exact `real`s. Python's `round(x, n)` is round-half-to-even on
the exact value (`Values.Round1`, `Values.Round2`), `int()` of a float
truncates toward zero (`Values.TruncInt`), and the cent truncation of
position sizes is `Values.TruncCents`. Dictionaries whose keys may be
missing, hold `None`, or hold a value `float()` rejects are modelled with
`Values.Scalar`/`Values.Field`, so the fall-backs of `dict.get` and
`to_float` are stated exactly.

Loops of the source are methods with `while` loops proved against a
specification function (`ExtractSimulation7d`, `CheckMarketConditions`,
`AllocateGoodPools`, analyzer.py's `GenerateRanges`, both
analyzers' `SimulateReturns`, `CalculateInstitutionalScore`,
`GenerateRecommendation`); the scanner's normaliser rewrites the fields of
a `PoolRow` object in place. The engine itself is a value (`Engine`):
`__init__` sets its fields once and no method changes them.

Where the docstrings and the code disagree, the model follows the code:

- the market score is the sum of the scores of the qualifying pools divided
  by the number of all pools, so a closed gate on a non-empty list is
  always reported as an unfavourable market
  (`RiskMarket.ClosedGateIsUnfavorable`);
- the score-based size scale has no lower clamp: a score below 60 (possible
  when `min_score` is configured below 60) gives less than 10%
  (`RiskEngine.SizePctEndPoints`);
- `sync_position_values` caps only from above;
- in scanner.py the per-strategy caps on time in range never bind, because
  the volatility is an absolute value, and the time in range goes negative
  for volatilities above 95/90 (defensive), 80/70 (optimized) and 55/45
  (aggressive) (`Scanner.TimeInRangeShape`);
- the profile's `min_score` and `range_type` are never read; the engine's
  own `min_score` decides.

## Model

| member | source | states |
|---|---|---|
| Values.ToFloatOr | analyzer.py:16-26 | the default for None or a value `float()` rejects, otherwise the value itself |
| Values.TruncCents | risk_engine.py:184 | cut toward zero to whole cents: at most the value and less than a cent below it (mirrored for negatives), and a whole number of cents |
| Values.TruncInt | analyzer.py:276 | `int()` truncates toward zero: within one below a non-negative value, within one above a negative one |
| Values.Round2Shift | analyzer.py:169 | subtracting an even number of cents commutes with `round(x, 2)`, so `net_after_gas` is exactly the rounded net return minus the gas share |
| RiskPools.PoolAddress | risk_engine.py:59-61 | a truthy `pool_address`, else whatever `address` holds |
| RiskPools.PairLabel | risk_engine.py:63-69 | the label is never empty: a truthy `pair` as it is, else `token0/token1` with TOKEN0/TOKEN1 for missing symbols |
| RiskPools.BestOfNone | risk_engine.py:99-122 | the blob search finds nothing exactly when no strategy has a numeric `net_after_gas`/`net_return` |
| RiskPools.BestOfIsFirstMaximum | risk_engine.py:100-120 | the chosen strategy has the greatest rank, and every strategy visited before it ranks strictly lower (the first wins ties) |
| RiskPools.ExtractedSpec | risk_engine.py:80-151 | `simulation_7d` wins, then `sim_7d`; otherwise `{}` exactly when no strategy ranks, else a summary whose `net_after_gas` is at least every rank |
| RiskPools.ExtractSimulation7d | risk_engine.py:71-151 | the loop over defensive/optimized/aggressive returns the specified summary |
| RiskEngine.ProfileFor | risk_engine.py:53 | the named profile, conservador for an unknown name; every profile caps a position at 20–40% and IL at 5–15% |
| RiskEngine.NewEngine | risk_engine.py:42-54 | each setting from the configuration or its default (10000, conservador, 3, 10, 30, 60, 2), integers truncated |
| RiskEngine.EstimatedReturnUsd | risk_engine.py:200-221 | the simulated USD return when positive or when `apr_7d` is falsy; otherwise the APR pro-rated to 7 of 365 days |
| RiskEngine.ValidateGasCost | risk_engine.py:198-243 | viable iff the estimate reaches 5 × gas multiplier; warnings only on the viable path, exactly when gas exceeds 10% of the estimate |
| RiskEngine.GasShareBound | risk_engine.py:235-236 | for a positive estimate, the gas share exceeds 10% iff the estimate is below 50 USD |
| RiskEngine.GasViabilityMonotone | risk_engine.py:213-227 | with non-negative returns, a larger position is never less viable |
| RiskEngine.SizePct | risk_engine.py:171-180 | min(base, `max_position_size`, profile cap): at most each of the three and equal to one of them |
| RiskEngine.SizeUsdt | risk_engine.py:181-184 | the USDT size is at most the exact share of capital and less than a cent below it, and never above the capital cap |
| RiskEngine.ShareWithinCap | risk_engine.py:180-184 | a percentage within the cap yields a truncated USDT amount within the capped share |
| RiskEngine.CalculatePositionSize | risk_engine.py:153-196 | below `min_score`: cannot operate with zero sizes; otherwise the rounded size, the truncated USDT size and `can_operate` equal to the gas check's viability |
| RiskEngine.SizePctMonotone | risk_engine.py:175-180 | without an override, a higher score never gives a smaller size |
| RiskEngine.SizePctEndPoints | risk_engine.py:175-180 | score 60 gives 10% (capped), score 100 the smaller cap, a score below 60 less than 10% |
| RiskEngine.SyncExact | risk_engine.py:382-387 | pct mode: pct = min(value, 100) and usdt its share of capital; usdt mode: usdt = min(value, capital) and pct 0 without capital; with capital both stay in sync |
| RiskEngine.SyncPositionValues | risk_engine.py:377-389 | the returned pair is within half a cent of the exact pair, pct at most 100 in pct mode |
| RiskEngine.SyncRoundTrip | risk_engine.py:382-387 | converting a percentage to USDT and back gives the percentage |
| RiskEngine.ValidateStopLoss | risk_engine.py:391-405 | never stops for a size of 0 or less; otherwise stops iff pnl/size×100 ≤ −stop_loss, reporting the loss |
| RiskEngine.LossPctScaled | risk_engine.py:396-398 | the stop test on the percentage equals the division-free test |
| RiskMarket.IlPct | risk_engine.py:269-273 | the IL taken from `il_percentage`, then `impermanent_loss`, is never negative |
| RiskMarket.SliceEnd | risk_engine.py:316 | `good_pools[:max_positions]` keeps at most `max_positions` entries |
| RiskMarket.CheckMarketConditions | risk_engine.py:245-319 | the loop computes the specified verdict; on no pools it cannot operate, with no good pools and score 0 |
| RiskMarket.QualifiersExact | risk_engine.py:263-290 | a pool is listed as good iff it qualifies (score, non-empty simulation, IL tolerance, positive net) |
| RiskMarket.TotalIsQualifierSum | risk_engine.py:290-293 | the accumulated total is the sum of the qualifying scores |
| RiskMarket.MarketGate | risk_engine.py:250-318 | can operate iff some pool qualifies and the market score reaches 50; good pools are the first `max_positions` qualifiers in order; opportunities count all qualifiers |
| RiskMarket.ClosedGateIsUnfavorable | risk_engine.py:298-307 | whenever the gate is closed on a non-empty list the verdict is the unfavourable market; the two later branches are unreachable |
| RiskMarket.FindByAddress | risk_engine.py:343-346 | `next()` finds a pool with the same address, or there is none |
| RiskMarket.FindByAddressIsFirst | risk_engine.py:343-346 | the pool found is the first with that address: no earlier pool has it |
| RiskMarket.CalculatePortfolioAllocation | risk_engine.py:321-375 | the method computes the specified plan; a closed gate gives no allocations |
| RiskMarket.AllocateGoodPools | risk_engine.py:338-363 | the loop over the good pools yields the allocations and the capital left that the specification `Allocate` gives |
| RiskMarket.AllocateSpec | risk_engine.py:338-363 | allocations are an in-order selection of the good pools, each fits the capital left before it, allocated + remaining = capital, remaining ≥ 0 with non-negative capital |
| RiskMarket.PortfolioPlanSpec | risk_engine.py:321-375 | a refused market gives no allocations; otherwise the rounded totals add up to the capital within a cent and the remainder is not negative |
| RiskMarket.FullPoolOfQualifier | risk_engine.py:343-346 | every good pool's address is found among the pools, and with distinct addresses it is sized with its own record |
| RiskMarket.GoodPoolsQualify | risk_engine.py:263-290 | every good pool is the entry of a pool that passes the gate's test |
| RiskMarket.AllocationLabels | risk_engine.py:338-363 | every allocation carries the address and the non-empty pair label of a pool that passes the gate's test |
| Analyzer.RangeMultipliers | analyzer.py:35-39 | each pair of multipliers brackets 1 and adds up to 2 |
| Analyzer.GenerateRanges | analyzer.py:92-119 | the loop builds one range per strategy from the price (default 1) and volatility (default 10) |
| Analyzer.SpreadFormula | analyzer.py:103-114 | the spread is 30/16/8 up to volatility 15 and grows by 2×(volatility−15) above it |
| Analyzer.SpreadOrder | analyzer.py:103-114 | defensive is wider than optimized, which is wider than aggressive |
| Analyzer.RangeStraddlesPrice | analyzer.py:108-113 | for a positive price, min < price < max |
| Analyzer.EstimateTimeInRange | analyzer.py:172-192 | 0 for a spread of 0 or less, else one of 0.35…0.95 |
| Analyzer.TimeInRangeSteps | analyzer.py:178-192 | each step is reached exactly when the spread exceeds 3, 2, 1.5, 1 or 0.5 × max(volatility, 1) |
| Analyzer.TimeInRangeMonotoneInSpread | analyzer.py:172-192 | a wider spread never lowers the estimate |
| Analyzer.TimeInRangeAntitoneInVolatility | analyzer.py:172-192 | a higher volatility never raises the estimate |
| Analyzer.EffectiveTvl | analyzer.py:145-149 | the TVL divisor is always positive: the pool's TVL (default 1) when that is positive, 1 when it is 0 or less |
| Analyzer.PeriodReturns | analyzer.py:134-170 | fees = volume×fee/100/TVL×days×tir×100 and IL = il_7d/7×days×tir up to rounding, net = fees − IL, net after gas exactly 0.5 below, time in range tir×100 within [0, 95] |
| Analyzer.TirPercentExact | analyzer.py:164 | every estimate in percent is whole, so rounding keeps it |
| Analyzer.SimulateReturns | analyzer.py:121-132 | exactly the input's strategies, each with its 7- and 30-day results |
| Analyzer.TvlScore | analyzer.py:198-209 | one of 20…100, and at least 60 iff TVL > 500k |
| Analyzer.VolumeScore | analyzer.py:211-222 | one of 20…100, and at least 60 iff volume > 100k |
| Analyzer.FeeAprScore | analyzer.py:224-235 | one of 20…100, and at least 60 iff APR > 25 |
| Analyzer.IlRiskScore | analyzer.py:237-248 | one of 20…100, and at least 60 iff 7-day IL < 5 |
| Analyzer.VolatilityScore | analyzer.py:250-261 | one of 20…100, and at least 60 iff volatility < 15 |
| Analyzer.BestTimeInRange30 | analyzer.py:264-268 | the largest of the three 30-day times in range |
| Analyzer.SubScoresOf | analyzer.py:194-269 | the five table sub-scores of the pool's fields (0 when missing or rejected by `float()`), and the time sub-score min(100, best 30-day time in range × 1.2): at most 100, not negative when the best time in range is not |
| Analyzer.WeightedSumTerms | analyzer.py:271-274 | the weights add up to 1 and the loop's sum is the weighted sum of the six sub-scores |
| Analyzer.WeightedMean | analyzer.py:271-274 | the final score is at most 100 when every sub-score is, and not negative when none is |
| Analyzer.ScoreBounds | analyzer.py:263-276 | the weighted sum of a pool's sub-scores is at most 100, and not negative when the best 30-day time in range is not |
| Analyzer.CalculateInstitutionalScore | analyzer.py:194-281 | the integer score truncates the weighted sum, is at most 100 and not negative for non-negative times in range; the explanation is built from the same sub-scores |
| Analyzer.QualityBand | analyzer.py:288-299 | EXCELENTE iff ≥ 80, BOA iff 60–79, MODERADA iff 40–59, BAIXA below 40 |
| Analyzer.Strengths | analyzer.py:312-318 | TVL, APR and volume are listed iff their sub-score is at least 60, in that order |
| Analyzer.Weaknesses | analyzer.py:324-328 | volatility and IL risk are listed iff their sub-score is below 60, each at most once (the length is the number of sub-scores below 60), volatility first |
| Analyzer.GenerateScoreExplanation | analyzer.py:283-333 | the band of the final score with those strengths and points of attention |
| Analyzer.GenerateRecommendation | analyzer.py:335-354 | the loop's best return feeds the 70/10, 50/5, 30/0 ladder |
| Analyzer.BestReturnSpec | analyzer.py:338-345 | the best return is the greatest 30-day net after gas (or −999), held by the first strategy reaching it |
| Analyzer.RecommendationNamesStrategy | analyzer.py:347-354 | any recommendation other than EVITAR names a strategy |
| Analyzer.RecommendationMonotone | analyzer.py:347-354 | a higher score and return never give a weaker recommendation |
| Scanner.NumberOr | scanner.py:92-97 | `float(v or d)`: the default for a falsy value, the number for a numeric one, a failure otherwise |
| Scanner.IntOr | scanner.py:98 | `int(v or 0)`: 0 for falsy, a number truncated toward zero, the value of integer text, a failure for other text and non-numbers |
| Scanner.SymbolOr | scanner.py:101-102 | a truthy symbol is kept, otherwise UNKNOWN |
| Scanner.ValidatedSpec | scanner.py:89-104 | normalising succeeds iff every truthy field converts; then falsy numbers become 0, a falsy fee tier 0.3, a numeric score is truncated toward zero by int(), a whole-number text score keeps its value, a falsy score becomes 0, empty symbols UNKNOWN |
| Scanner.ValidatedIdempotent | scanner.py:92-102 | normalising twice changes nothing more, except a fee tier of 0 which the second pass turns into 0.3 |
| Scanner.ValidatedIsValid | scanner.py:92-96 | a normalised row holds the numbers the range generator and simulator read |
| Scanner.EffectivePrice | scanner.py:108-112 | the price, or 1000 when it is 0 or less |
| Scanner.RangeVolatility | scanner.py:114-118 | the absolute price change, or 2.5 when it is 0; always positive |
| Scanner.GenerateRanges | scanner.py:106-151 | three ranges with spreads 3, 1.5 and 0.5 × volatility, strictly decreasing and positive |
| Scanner.RangesStraddlePrice | scanner.py:121-142 | each range is symmetric around the price and strictly straddles it |
| Scanner.ScannerTvl | scanner.py:157-160 | the TVL divisor is always positive: the TVL when that is positive, 1 when it is 0 or less |
| Scanner.ConcentrationFactor | scanner.py:168-174 | always within [0.5, 3], and 1 for a spread of 0 or less |
| Scanner.ConcentrationShape | scanner.py:168-174 | for positive spreads it never grows with the spread; 0.5 from spread 20, 3 up to 10/3, exactly 10/spread between |
| Scanner.TimeInRangeShape | scanner.py:177-186 | the caps hold but never bind: time in range is 95/90, 80/70 or 55/45 minus the volatility |
| Scanner.TimeInRangeAntitone | scanner.py:177-186 | a higher volatility never raises the time in range |
| Scanner.ScannerPeriodSpec | scanner.py:199-215 | fees and net within rounding of their formulas, IL not negative when its input is not, net after gas exactly 5 below the net return |
| Scanner.SimulateReturns | scanner.py:153-218 | the loop gives exactly the input's strategies, each with its specified simulation |
| Scanner.LossScales | scanner.py:193-197 | the 30-day IL is three times the 7-day IL |
| Scanner.PeriodFeesNonNegative | scanner.py:189-196 | with non-negative APR and time in range the fees are not negative |
| Scanner.SimulationOfSpec | scanner.py:189-216 | both periods have non-negative IL and net after gas 5 below net; fees not negative with non-negative APR and time in range |
| Scanner.AprBaseNonNegative | scanner.py:162 | non-negative daily fees give a non-negative base APR |
| Scanner.SimulationSpec | scanner.py:164-218 | per strategy: non-negative IL, net after gas 5 below net, non-negative 30-day fees while the time in range is not negative |

## Left out

- Supabase queries and updates, `analyze_pool`, `analyze_all_pools`, `_save_analysis`, `run_analyzer`: persistence and scheduling I/O; only the helpers they call are modelled.
- Timestamps (`analyzed_at`, `last_analyzed`): clock reads.
- `json.loads`/`json.dumps` of the simulation blobs: the blob is modelled already parsed; a string that fails to parse behaves as no blob.
- Reason, recommendation and explanation texts, emoji and `:.2f`/`:,.0f` formatting: modelled as enum tags and the numbers they show; the explanation's token labels are not modelled.
- `_get_strategy_description` and the `description` keys of the ranges: constant display strings.
- analyzer.py's `volatility_factor` (line 98): computed and never used.
- IEEE-754 floating point: all arithmetic is exact, so results that differ from the exact value in the last bit (for example `int()` exactly at a bucket boundary) are not reproduced.
- Configuration values that `float()`/`int()` would reject in `__init__`: the constructor raises there; the model takes numbers.
- Dictionary iteration order: the simulation and range dictionaries are taken to be built, and so iterated, in the order defensive, optimized, aggressive, as every producer in the repository builds them.
- Scanner.IntOr: `int()` of a numeric string succeeds only when the text spells an integer; the model treats a numeric string as such exactly when its value is whole (so "85.0" is accepted here, while Python rejects it).
- Scanner.GenerateRanges, Scanner.SimulateReturns: they take the normalised row, as `analyze_pool` always calls them after `_validate_pool_data`; the `.get` defaults of a raw row (0, 2.5, 1) and the comparison of None with a number that would raise are therefore not modelled.
- Analyzer.GenerateScoreExplanation: the strengths and points of attention are built as expressions rather than by appending to lists.
- The profile's `min_score` and `range_type`: present in the profile table but never read by the code.
- CalculatePositionSize, CheckMarketConditions: a `score` key holding None, a string or another non-number makes the comparisons with `min_score` (risk_engine.py:162, risk_engine.py:267) raise TypeError; the pool record holds the score as a number or as missing (read as 0), so that failure is not modelled.
