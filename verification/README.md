# Forex market analyzer — a Dafny model

This project models the core of a Streamlit application that answers
questions about currency pairs with a language model. The model works with
a toolkit of "smart money concepts" analysis functions. The application
advertises 24 tools to the model, one schema per tool. It runs every tool
call the model makes through one dispatcher, and loops for at most ten
rounds until the model answers.

The tools work on a market-data snapshot: OHLCV candles and the
indicators derived from them. The application itself imports
`get_forex_data` from the synthetic provider (`app.py:20`), so the
snapshot it hands to the tools is always a synthetic random walk of 100
candles. The live provider (`utils/polygon_api.py`) is modelled as well:
it builds the same snapshot from however many bars Polygon.io returns (up
to 100, possibly fewer) and falls back to the synthetic provider when
Polygon cannot be used.

Modules, following the program's structure:

- `Common`: optional values, results, JSON values, `str.upper` over ASCII, `sum`, `str(n)`.
- `MarketData`: candles, the snapshot, the session of an hour, the minutes per timeframe.
- `Registry`: `AVAILABLE_FUNCTIONS` and `FUNCTION_SCHEMAS`.
- `Dispatch`: `execute_function_call`.
- `Orchestrator`: `run_analysis`. The language model, `json.loads` and `json.dumps` are parameters.
- `SmcGuards`: the shared vocabulary of the analysis functions:
  - Python slicing, indexing, `max` and `min`;
  - the insufficient-data guard and record of each function;
  - a detector's outcome: the guard's record, a raised exception, or a result.
- `SmcLists`: the sort by distance, proved stable as Python's `list.sort` is (equal keys keep their input order), the nearest entry, the truncation to the top few, and `Collect`, the reference for the scans: the values their steps record, in order.
- `SmcStructure`: break of structure, change of character, market structure break.
- `SmcLiquidity`: liquidity sweeps, pools and voids.
- `SmcBlocks`: order blocks, their trade setup and recommendation, breaker blocks.
- `SmcGaps`: fair value gaps, imbalances, inefficiencies.
- `SmcZones`: premium/discount zones, turtle soup setups.
- `SmcFlow`: order flow, volume profile and its 70% value area.
- `SmcContext`: higher-timeframe map, session characteristics, round-number levels.
- `SmcPatterns`: divergence, manipulation patterns, Wyckoff phases.
- `TechnicalIndicators`: RSI, trend, average range, support and resistance, which both providers compute the same way.
- `PolygonMock`: the synthetic provider.
- `PolygonApi`: the live provider and its fallbacks.

The analysis functions draw random numbers (`random.random`, `randint`,
`choice`, `uniform`). The model takes each draw as a parameter, and a
`requires` clause states the range the random call guarantees. A draw that
the source reads only after its guard is constrained only past that guard.

The clock, the secret store, the HTTP client and the language model are
parameters too.

## Model

| member | source | states |
|---|---|---|
| Registry.LookupIn | app.py:548-552 | a dict lookup finds nothing exactly when no entry has the name |
| Registry.LookupInAt | app.py:146-181 | with distinct keys, looking up the i-th key gives the i-th function |
| Registry.RegistryKeysDistinct | app.py:146-181 | the registry has 24 entries with distinct names |
| Registry.SchemasAgreeWithEntries | app.py:184-544 | schema i names registry entry i and lists that function's parameters, all of them required |
| Registry.SchemaNamesAreKeys | app.py:146-544 | the advertised tool names are the registry keys, in order |
| Registry.KeyIffFound | app.py:548 | a name is a registry key exactly when looking it up finds a function |
| Registry.SchemaNamesMatchRegistry | app.py:146-544 | the advertised tool names are the registry keys in the same order; a name is advertised exactly when it can be dispatched |
| Registry.SchemasMatchSignatures | app.py:184-544 | every schema's name dispatches to a function whose parameters are the schema's properties, all required |
| Dispatch.ExecuteFunctionCall | app.py:546-556 | an unknown name gives the "Function X not found" error record; a raising function gives an error record with its message; otherwise the function's own result |
| Dispatch.DispatchReadsOnlyTheNamedCall | app.py:546-556 | the result depends only on what the named function does with these arguments |
| Dispatch.NotFoundMessageNamesTool | app.py:548-549 | the not-found message contains the requested name |
| Orchestrator.AppTools | app.py:599-617 | the executor the loop calls is `execute_function_call` on the registry |
| Orchestrator.ProcessCalls | app.py:599-626 | a batch of tool calls only appends to the transcript and the log |
| Orchestrator.ProcessCallsContinues | app.py:599-603 | a batch completes exactly when every call's arguments parse |
| Orchestrator.ProcessCallsLog | app.py:599-626 | a batch logs one call/result pair per call, in order, and aborts only with a parse error of one of its calls |
| Orchestrator.ProcessCallsMessages | app.py:620-626 | a completed batch appends one tool message per call, with that call's id and name |
| Orchestrator.RunFrom | app.py:571-637 | the reference definition of the remaining rounds only extends the log and the transcript |
| Orchestrator.Analyze | app.py:561-564 | every transcript starts with the system prompt and the query |
| Orchestrator.RunToolCalls | app.py:599-626 | the loop over tool calls computes the batch of the reference definition |
| Orchestrator.RunAnalysis | app.py:558-637 | the loop's log and answer are those of the reference definition |
| Orchestrator.AnalysisIsWellFormed | app.py:558-637 | every log is call/result pairs, then either nothing (answer: the max-iterations message) or one final response or error entry that the answer repeats |
| Orchestrator.AtMostTenModelCalls | app.py:568-571 | two models that agree on rounds one to ten give the same run |
| Orchestrator.AnswerWithoutToolCalls | app.py:588-594 | a first reply without tool calls ends the run with its text |
| Orchestrator.ModelFailureInFirstRound | app.py:628-634 | an exception in round one ends the run with "Analysis error: Error in iteration 1: …" |
| Orchestrator.ToolRoundContinues | app.py:597-626 | when every argument string parses, a round with tool calls runs them all and hands over to the next round |
| Orchestrator.ExhaustsWhenModelAlwaysCallsTools | app.py:571-637 | a model that always asks for tools exhausts the ten rounds, and the log holds call/result pairs only |
| Orchestrator.NoErrorEntryWithoutExceptions | app.py:628-634 | without model exceptions and parse errors no error entry is logged, whatever the tools return or raise |
| SmcGuards.Bound | utils/smc_functions.py:48 | Python's clamping of a slice index, negative indices included |
| SmcGuards.MaxOf | utils/smc_functions.py:253-254 | `max` of an empty list raises; otherwise the result is in the list and no element exceeds it |
| SmcGuards.MinOf | utils/smc_functions.py:257-258 | `min` of an empty list raises; otherwise the result is in the list and no element is below it |
| SmcGuards.InsufficientRecord | utils/smc_functions.py:38-39 | each guarded function's insufficient-data record has exactly two fields: its main field, empty, and the message (the structure detectors name themselves) |
| SmcStructure.BreakOfStructure | utils/smc_functions.py:26-76 | under 20 candles the insufficient record; past it, no break exactly when the draw is at most 0.4; otherwise the level is the highest high (bullish trend) or lowest low of `candles[-20:-5]`, the call raises with ZeroDivisionError's message exactly when that level is zero, and the confidence is `min(95, 60 + distance * 10000)`, within 60-95 for a positive level |
| SmcStructure.BosLevel | utils/smc_functions.py:45-51 | the level a break is reported at is the highest high of the window in a bullish trend and the lowest low in any other |
| SmcStructure.BosWindow | utils/smc_functions.py:45-51 | `candles[-20:][:-5]` is the fifteen candles before the last five of the last twenty |
| SmcStructure.BosConfidence | utils/smc_functions.py:54-55 | the confidence is between 60 and 95 whenever the level is positive |
| SmcStructure.ChangeOfCharacter | utils/smc_functions.py:78-139 | under 30 candles the record; past it, a change exactly when the draw plus 0.3 in a stretched market exceeds 0.5; failure point and trigger are the extremes of the first ten and last five of the last 15 candles, against the trend; the factors are those of RSI divergence and the two draws, the strength `min(95, 25 * len(factors) + bonus)`; nothing raises |
| SmcStructure.ChochDetected | utils/smc_functions.py:94-129 | past the guard, a change is reported exactly when the draw plus 0.3 in a stretched market exceeds 0.5; it runs against a bullish trend, with the factors of RSI divergence and the two draws and the strength `min(95, 25 * len(factors) + bonus)`, the RSI divergence counted in a stretched market |
| SmcStructure.ChochAt | utils/smc_functions.py:100-129 | failure point and trigger are the opposite extremes of the first ten and last five of the last 15 candles; the factors and strength are those of the draws; the reported candle is the one drawn |
| SmcStructure.ChochFactors | utils/smc_functions.py:110-116 | each factor is present exactly when its condition holds (RSI divergence, volume draw above 0.5, rejections draw above 0.6), so there are as many as hold, at most three |
| SmcStructure.ChochStrength | utils/smc_functions.py:118-127 | with up to three factors and a bonus of 10-25, the strength lies between 10 and 95 |
| SmcStructure.MarketStructureBreak | utils/smc_functions.py:141-182 | under 25 candles the record; a break is reported exactly when the draw exceeds 0.6, with the momentum drawn; the level is the extreme of the first 15 of the last 25 candles on the trend's side, the distance in pips from the price |
| SmcLists.SortBy | utils/smc_functions.py:391 | the sort by a key is a permutation and is sorted |
| SmcLists.Insert | utils/smc_functions.py:391 | inserting into a sorted list keeps it sorted, adds exactly the one element, and puts it in front of equal keys |
| SmcLists.SortedHeadIsFirstMinimal | utils/smc_functions.py:712 | the head of the sorted list is the first element of the input with the least key |
| SmcLists.InsertKeepsOrder | utils/smc_functions.py:391 | inserting as the sort does puts the new element behind no element of its own key |
| SmcLists.SortIsStable | utils/smc_functions.py:391 | the sort is stable: for every key, the elements with that key come out in the order they went in |
| SmcLists.ShownAreNearest | utils/smc_functions.py:458-461 | the entries shown from the sorted list are entries of the input, and none left out is nearer than one shown |
| SmcLists.IndexOf | utils/smc_functions.py:708 | `list.index`: the first position holding the value |
| SmcLists.CollectMembers | utils/smc_functions.py:417-456 | a value is collected exactly when some step records it |
| SmcLists.NearestOfSortedIsClosest | utils/smc_functions.py:391-397 | the nearest entry is absent only for an empty list and otherwise no farther than any entry |
| SmcLists.PrefixOfSorted | utils/smc_functions.py:391-397 | the entries shown from the sorted list are sorted and all come from the input |
| SmcLists.Summarize | utils/smc_functions.py:318 | the shown entries are a prefix of at most `limit` entries, all of them when there are that few; the total counts all |
| SmcLiquidity.LiquiditySweeps | utils/smc_functions.py:184-227 | under 30 candles the record; one sweep per draw, at the extreme of its non-empty window |
| SmcLiquidity.SweepRound | utils/smc_functions.py:200-219 | round `i` reports the extreme of its non-empty window on the side swept, its distance from the price, and a reversal exactly when the reaction draw exceeds 0.4 |
| SmcLiquidity.SweepWindowNonEmpty | utils/smc_functions.py:200-203 | past the guard of 30 candles, both possible sweep windows hold candles |
| SmcLiquidity.PoolWindowEmptiness | utils/smc_functions.py:248-250 | a pool window is empty exactly when the list holds no more than its offset |
| SmcLiquidity.PoolFrom | utils/smc_functions.py:252-259 | a pool lies at the extreme of its window on its side, with a density between 1 and the window's size |
| SmcLiquidity.Density | utils/smc_functions.py:255-259 | the density counts at most the window and at least the level itself |
| SmcLiquidity.PoolRoundAsWritten | utils/smc_functions.py:245-270 | one round as written raises exactly when its window is empty (`max`/`min` of an empty list) or its level is zero (the density's division), with that exception's message, and otherwise builds the round's pool |
| SmcLiquidity.PoolAt | utils/smc_functions.py:248-270 | corrected round: a pool exactly when the round does not raise, and then the round's pool of its own window |
| SmcLiquidity.PoolRoundSkipping | utils/smc_functions.py:248-270 | corrected round: nothing for an empty window, the division's exception exactly for a zero level, and otherwise the round's pool |
| SmcLiquidity.FoundPoolsMembers | utils/smc_functions.py:245-270 | a pool is found exactly when some round builds it; never more pools than rounds |
| SmcLiquidity.FoundPoolsAllRounds | utils/smc_functions.py:245-270 | when no round raises, every round contributes its own pool, in round order |
| SmcLiquidity.PoolWindowsPastGuard | utils/smc_functions.py:239-250 | from 40 candles the first two windows are non-empty; the third is empty exactly up to 45 candles |
| SmcLiquidity.PoolsReport | utils/smc_functions.py:272-277 | the report holds exactly the pools, sorted by distance, the nearest at its head |
| SmcLiquidity.PoolsAgreeBeyond45 | utils/smc_functions.py:239-278 | beyond 45 candles and with at most three rounds, a round raises exactly when its level is zero; with no zero level every round contributes its pool, in order |
| SmcLiquidity.PoolsAgreeWithTwoRounds | utils/smc_functions.py:239-278 | from 40 candles with at most two rounds drawn, a round raises exactly when its level is zero |
| SmcLiquidity.LiquidityPoolsAsWritten | utils/smc_functions.py:229-278 | as written: under 40 candles the record; the call raises exactly when some round reads an empty window or a zero level, with the first such round's exception; otherwise one pool per round, sorted by distance; with 40 to 45 candles and three pools drawn it always raises |
| SmcLiquidity.PoolRoundsAsWritten | utils/smc_functions.py:245-270 | the rounds as written: they raise exactly when some round raises, with the first such round's exception; otherwise one pool per round, the pools found |
| SmcLiquidity.LiquidityPools | utils/smc_functions.py:229-278 | corrected: only a zero level raises; one pool per round with a non-empty window (every round above 45 candles), sorted by distance, the nearest first |
| SmcLiquidity.PoolRounds | utils/smc_functions.py:245-270 | corrected rounds: they raise exactly when some non-empty window has a zero level, with the division's exception; otherwise they give the pools found |
| SmcLiquidity.LiquidityVoids | utils/smc_functions.py:280-321 | under 30 candles the record; otherwise the first three voids the scan finds, and the count of all of them |
| SmcLiquidity.VoidStepAt | utils/smc_functions.py:295-315 | step k looks at `i = len - 5 - k`; a void it records lies between candle `i - 1`'s low and candle `i`'s high, spans more than 5 pips, has its midpoint inside and candle `i`'s time, and carries the fill drawn |
| SmcLiquidity.FoundVoidsMembers | utils/smc_functions.py:295-319 | a void is found exactly when, at one of the 20 positions scanned, its gate passes and the void lies between that candle and the one before; at most 20 are found |
| SmcBlocks.OrderBlockSetup | utils/smc_functions.py:1237-1265 | buy exactly for demand; the entry lies in the zone; the stop lies beyond the zone and the target beyond the entry at 2.5 times the risk |
| SmcBlocks.BlockKind | utils/smc_functions.py:346-350 | the trend's side is taken when the draw exceeds 0.3 |
| SmcBlocks.OrderBlockWindowShape | utils/smc_functions.py:352-356 | each round's window is the slice it names and is never empty past the guard |
| SmcBlocks.OrderBlockOf | utils/smc_functions.py:358-389 | zone bounds widened by 0.05% on the far side, price level inside the zone, fresh exactly when the base candle is among the last 19 (`len - index < 20`) |
| SmcBlocks.LaterRoundsAreAged | utils/smc_functions.py:350-375 | a block from rounds 2 to 4 whose window ends before the list does (`10 + 15 * i < len(candles)`) is never fresh; a fourth round on 50 to 55 candles reads the whole list and can be |
| SmcBlocks.ObRecommendation | utils/smc_functions.py:1267-1282 | no blocks: wait for structure; otherwise the advice names the first block's level and kind |
| SmcBlocks.RecommendationOfSorted | utils/smc_functions.py:1273-1276 | for sorted blocks, "price near zone" exactly when some block is within 10 pips |
| SmcBlocks.RoundBlock | utils/smc_functions.py:345-386 | the block of one round is built on the picked candle of that round's window, which is a candle of the list |
| SmcBlocks.RoundBlocks | utils/smc_functions.py:344-386 | one block per round, in round order, each the block of its round |
| SmcBlocks.BuildRoundBlocks | utils/smc_functions.py:344-386 | the loop appends exactly the blocks of the rounds, in round order |
| SmcBlocks.RoundBlocksAreRounds | utils/smc_functions.py:344-386 | every block collected is the block of one of the rounds |
| SmcBlocks.OrderBlocks | utils/smc_functions.py:327-399 | under 50 candles the record; otherwise exactly the blocks of the rounds, one per round, in the stable sort by distance, with the total, the nearest and the recommendation; nothing raises |
| SmcBlocks.BreakerWindowShape | utils/smc_functions.py:486-489 | each breaker round reads the ten candles it names |
| SmcBlocks.BreakerBlocks | utils/smc_functions.py:467-519 | under 40 candles the record; each breaker flips its original kind and spans its base candle |
| SmcGaps.GapStep | utils/smc_functions.py:417-456 | a bullish gap is recorded exactly when candle `i - 2`'s high is below candle `i`'s low, the bullish gate passes and the gap spans more than 3 pips; when the bullish pattern or gate fails, a bearish gap exactly under the mirrored conditions; the gap recorded lies between those candles and carries the fill drawn |
| SmcGaps.ScanGaps | utils/smc_functions.py:417-456 | the loop records exactly the gaps the reference scan finds, in order |
| SmcGaps.FoundGapsMembers | utils/smc_functions.py:417-456 | a gap is found exactly when the step at one of the 27 positions scanned records it; at most 27 are found |
| SmcGaps.GapSummary | utils/smc_functions.py:458-463 | the gaps shown are the first four of the stable sort by distance, which are nearest gaps; the total counts every gap; the nearest is absent only without gaps and otherwise no farther than any |
| SmcGaps.FairValueGaps | utils/smc_functions.py:401-465 | under 20 candles the record; otherwise the summary of exactly the gaps the scan finds |
| SmcGaps.ImbalanceAsWritten | utils/smc_functions.py:610-633 | as written: a close above the previous high is bullish from that high to this low, a close below the previous low bearish from that low to this high; the size is the absolute difference of the bounds and exceeds 2 pips, so the bounds may be inverted |
| SmcGaps.InvertedImbalanceAsWritten | utils/smc_functions.py:608-622 | two well-formed candles give a bullish imbalance whose high lies under its low |
| SmcGaps.ImbalanceStep | utils/smc_functions.py:602-633 | corrected: a zone only for a real gap, low under high, and then equal to the zone written |
| SmcGaps.Imbalances | utils/smc_functions.py:587-639 | under 25 candles the record; otherwise the first three imbalances, as written and each with its step's drawn rebalance probability, that the scan finds, and the count of all of them |
| SmcGaps.FoundImbalancesMembers | utils/smc_functions.py:602-633 | an imbalance is found exactly when the step at one of the 23 positions scanned records it; at most 23 are found |
| SmcGaps.InefficiencyOver | utils/smc_functions.py:661-664 | the zone spans the highest high and the lowest low of the five candles from `i` |
| SmcGaps.InefficiencyStep | utils/smc_functions.py:656-666 | the step at `i` records a zone only from `i = 5` on, and then the zone of the five candles from `i` with the score drawn |
| SmcGaps.InefficiencyStepFound | utils/smc_functions.py:656-676 | the zone a step records was spanned at the position that step looks at |
| SmcGaps.InefficiencyFoundStep | utils/smc_functions.py:656-676 | a zone found at a position is what the step looking at it records |
| SmcGaps.FoundInefficienciesMembers | utils/smc_functions.py:656-676 | a zone is found exactly when it is found at one of the 25 positions scanned; at most 25 are found |
| SmcGaps.ScanInefficiencies | utils/smc_functions.py:656-676 | the loop records exactly the zones the reference scan finds, in order |
| SmcGaps.Inefficiencies | utils/smc_functions.py:641-682 | under 30 candles the record; otherwise the first two zones the scan finds, and the count of all of them |
| SmcZones.TradingBias | utils/smc_functions.py:570-575 | discount is bullish, premium bearish, equilibrium neutral |
| SmcZones.PremiumDiscountZones | utils/smc_functions.py:521-585 | under 50 candles the record; the bands nest from swing low to swing high; premium above the premium band's lower edge, discount below the discount band's upper edge |
| SmcZones.TurtleSoupSetup | utils/smc_functions.py:1200-1225 | a long has its stop under the level and its entry and target above it, the target three risks from the entry; a short mirrored |
| SmcZones.TurtleSoup | utils/smc_functions.py:1181-1235 | under 30 candles the record; the false break is the extreme of the first ten of the last twenty candles |
| SmcFlow.UpAndDownAtMostAll | utils/smc_functions.py:794-795 | rising and falling candles together are no more than all candles |
| SmcFlow.DominantFlow | utils/smc_functions.py:801-812 | the four thresholds (65% and 55%) pick the dominant flow, balanced otherwise |
| SmcFlow.OrderFlowOf | utils/smc_functions.py:778-835 | under 20 candles the record; the percentages count rising and falling candles and sum to at most 100; buying flow implies a positive delta, selling a negative one |
| SmcFlow.PointOfControl | utils/smc_functions.py:712-714 | the point of control is the first candle with the greatest volume |
| SmcFlow.VolumeRanking | utils/smc_functions.py:712 | the ranking holds every position exactly once, each with its own volume, from the largest volume down |
| SmcFlow.VolumeRankingIsStable | utils/smc_functions.py:712 | equal volumes keep their candles' order, as Python's reversed sort does |
| SmcFlow.RankingStartsAtPointOfControl | utils/smc_functions.py:712-714 | the stable descending sort starts at the point of control |
| SmcFlow.ValueArea | utils/smc_functions.py:712-720 | the loop's positions are the value area: the shortest non-empty prefix of the ranking that reaches 70% of the volume, or the whole ranking |
| SmcFlow.AreaEndsAtThreshold | utils/smc_functions.py:716-720 | a value area is no longer than any non-empty prefix of the ranking that reaches 70% |
| SmcFlow.ValueAreaUnique | utils/smc_functions.py:712-720 | the 70% rule pins the area down: two value areas of the same volumes are equal |
| SmcFlow.ValueAreaHoldsTopVolumes | utils/smc_functions.py:712-720 | the value area names each candle at most once, and no candle left out has more volume than any candle in it |
| SmcFlow.VolumeProfile | utils/smc_functions.py:688-736 | under 40 candles the record; the point of control is the first candle of greatest volume; the value area is that of the last 40 volumes and starts at it; value area high and low are the extremes of its candles and enclose the point of control |
| SmcContext.HigherTimeframe | utils/smc_functions.py:840-850 | the hierarchy's next timeframe, `1d` for an unknown one |
| SmcContext.HigherTimeframeIsLonger | utils/smc_functions.py:840-848 | each known timeframe maps to a longer one that is a whole multiple of it |
| SmcContext.HigherTimeframeStructure | utils/smc_functions.py:837-881 | a change of character is reported only where no break of structure was drawn |
| SmcContext.SessionCharacteristics | utils/smc_functions.py:936-982 | Asian 0-7, London 8-15, New York otherwise; the overlap (12-15) falls in London and adds its note |
| SmcContext.RoundLevels | utils/smc_functions.py:1092-1122 | the two loops collect exactly the levels of the reference steps, whole cents first |
| SmcContext.WholeCentStep | utils/smc_functions.py:1093-1106 | reference step `i + 2` is the first loop's level at `i`, kept when positive |
| SmcContext.HalfCentStep | utils/smc_functions.py:1109-1122 | reference step `i + 7` is the second loop's level at `i`, kept when positive |
| SmcContext.WholeCentLevels | utils/smc_functions.py:1093-1106 | the first loop collects the first five reference steps |
| SmcContext.HalfCentLevels | utils/smc_functions.py:1109-1122 | the second loop completes the collection of all ten steps |
| SmcContext.FoundLevelsMembers | utils/smc_functions.py:1092-1122 | every level found is positive, a whole or half cent from the base at most two cents away, with its distance in pips; at most ten, and all ten for a base above 0.03 |
| SmcContext.InstitutionalLevels | utils/smc_functions.py:1077-1131 | the levels shown are the first five of the stable sort by distance of the levels found, which are nearest levels; the nearest is absent only without levels and otherwise no farther than any |
| SmcPatterns.SmartMoneyDivergence | utils/smc_functions.py:738-776 | under 40 candles the record; a divergence exactly when the gate passes, signalling up for the bullish kinds |
| SmcPatterns.ManipulationPatterns | utils/smc_functions.py:1021-1075 | under 30 candles the record; the bull trap and the Wyckoff spring lie at the picked candle's low and lead up, every other pattern (bear trap included) lies at its high and leads down |
| SmcPatterns.WyckoffPhases | utils/smc_functions.py:1133-1179 | under 50 candles the record; only accumulation and distribution name a sub-phase, each from its own list |
| MarketData.MinutesFor | utils/polygon_api.py:61-66 | the minutes of a known timeframe, 60 for any other |
| MarketData.MarketSession | utils/polygon_api.py:185-196 | Asian 0-7, London 8-15, New York 16-23, unknown for any other number |
| MarketData.VolatilityOf | utils/polygon_api.py:138 | high volatility exactly when the average range exceeds the threshold |
| MarketData.MomentumOf | utils/polygon_api.py:140 | strong momentum exactly when the RSI is above 70 or below 30 |
| TechnicalIndicators.AverageLossVanishes | utils/polygon_api.py:161-178 | the averaged loss is non-negative, and zero exactly when no price fell over the averaged steps |
| TechnicalIndicators.AverageGainVanishes | utils/polygon_api.py:161-178 | the averaged gain is non-negative, and zero exactly when no price rose |
| TechnicalIndicators.RsiIsGainShare | utils/polygon_api.py:180-181 | `100 - 100 / (1 + rs)` is the gains' share of all movement, in `[0, 100)`, and zero exactly without gains |
| TechnicalIndicators.PriceSteps | utils/polygon_api.py:166-172 | the loop's gains and losses are the rises and falls between consecutive prices |
| TechnicalIndicators.RsiOfMeaning | utils/polygon_api.py:174-183 | the RSI lies in `[0, 100]`; it is 100 exactly when no price fell over the last 14 steps; otherwise it is the gains' share of all movement, below 100, and 0 exactly when no price rose |
| TechnicalIndicators.RsiWithLosses | utils/polygon_api.py:178-183 | with a loss among the last 14 steps the RSI is the gains' share of all movement, in `[0, 100)`, and 0 exactly when no price rose |
| TechnicalIndicators.CalculateRsi | utils/polygon_api.py:161-183 | 50 for fewer than 14 prices; otherwise the RSI of the definition, 100 exactly when no price fell; always in `[0, 100]` |
| TechnicalIndicators.RsiValue | utils/polygon_api.py:161-183 | the value `calculate_rsi` returns: 50 below 14 prices, otherwise the index, 100 exactly when no price fell; always in `[0, 100]` |
| TechnicalIndicators.TrendOf | utils/polygon_api.py:110-111 | bullish exactly when the last close is above the close 19 bars back, or the first close of a shorter list |
| TechnicalIndicators.AverageRange | utils/polygon_api.py:114-116 | the mean range of the last 14 candles lies between their least and greatest range, and is non-negative for well-formed candles |
| SmcLists.LeastBy | utils/polygon_api.py:119-122 | the first `limit` entries of the sort are entries of the input, as a sub-multiset, and no entry left out has a smaller key than one taken |
| TechnicalIndicators.LowestFive | utils/polygon_api.py:120-122 | one to five lows, exactly five from five candles on: a sub-multiset of the lows of the last 50 candles with no low left out below one taken |
| TechnicalIndicators.LeastAreLowest | utils/polygon_api.py:120-122 | no value left out by the ascending sort's first entries is below one taken |
| TechnicalIndicators.HighestFive | utils/polygon_api.py:119-123 | one to five highs, exactly five from five candles on: a sub-multiset of the highs of the last 50 candles with no high left out above one taken |
| TechnicalIndicators.MostAreHighest | utils/polygon_api.py:119-123 | no value left out by the descending sort's first entries is above one taken |
| TechnicalIndicators.Support | utils/polygon_api.py:119-122 | corrected: the mean of the lows taken, which lies within the lows of the last 50 candles |
| TechnicalIndicators.Resistance | utils/polygon_api.py:119-123 | corrected: the mean of the highs taken, which lies within the highs of the last 50 candles |
| TechnicalIndicators.SupportAsWrittenFromFiveCandles | utils/polygon_api.py:122 | from five candles on, the support as written equals the corrected one |
| TechnicalIndicators.ResistanceAsWrittenFromFiveCandles | utils/polygon_api.py:123 | from five candles on, the resistance as written equals the corrected one |
| TechnicalIndicators.SupportAsWrittenUnderstates | utils/polygon_api.py:120-122 | with one candle the support as written lies below its low |
| TechnicalIndicators.ComputeIndicators | utils/polygon_api.py:102-123 | the computation, with `calculate_rsi`'s loop, gives the indicators `IndicatorsOf` describes |
| TechnicalIndicators.IndicatorsOf | utils/polygon_api.py:102-123 | the RSI of the closes, in `[0, 100]` and 100 exactly when no close fell; the trend, bullish exactly when the last close is above the close 19 bars back; the average range within the last 14 ranges; support and resistance as written, equal to the corrected ones from five candles on |
| TechnicalIndicators.BuildSnapshot | utils/polygon_api.py:102-147 | the snapshot of the candles: upper-cased pair, the candles and their count, the last close as price, their indicators, volatility high exactly above the threshold, momentum strong exactly outside 30-70, and the hour's session |
| PolygonMock.PriceRange | utils/polygon_mock.py:35-47 | the pair's range, (1.0, 1.2) for an unknown pair, always positive and ordered |
| PolygonMock.CloseAboveHighAsWritten | utils/polygon_mock.py:58-61 | a candle as written can close above its high |
| PolygonMock.StepAsWrittenBounds | utils/polygon_mock.py:56-65 | from a positive price, the candle as written opens at the price inside its range, stays positive, and closes within 0.2% of its open |
| PolygonMock.CandleStep | utils/polygon_mock.py:58-65 | corrected: same open, close, volume and time as written |
| PolygonMock.StepIsWellFormed | utils/polygon_mock.py:56-84 | from a positive price, a corrected candle is well formed and positive, with its close within 0.2% of its open |
| PolygonMock.StepCoversAsWritten | utils/polygon_mock.py:58-61 | the corrected range covers the range written; the two candles coincide exactly when the close does not move |
| PolygonMock.StampsIncrease | utils/polygon_mock.py:72-74 | with a clock that never runs back, candle times increase by at least one candle length |
| PolygonMock.GenerateCandles | utils/polygon_mock.py:53-84 | 100 candles as written, the first opening at the start price and each at the previous close, each positive and holding its open in its range |
| PolygonMock.GeneratedAgreeAt | utils/polygon_mock.py:53-84 | candle `k` of a walk is fixed by the start price, the draws and the clock |
| PolygonMock.GeneratedIsDetermined | utils/polygon_mock.py:53-84 | two walks from the same start price, draws and clock are the same walk |
| PolygonMock.MockThreshold | utils/polygon_mock.py:138 | the volatility threshold, 1% of the pair's range, is positive |
| PolygonMock.GeneratedRangeNonNegative | utils/polygon_mock.py:53-116 | generated candles hold their opens in their ranges, so their average range is never negative |
| PolygonMock.MockForexData | utils/polygon_mock.py:17-147 | the synthetic snapshot: 100 chained candles as written from the start price and the snapshot of them; the RSI of the closes (100 exactly when no close fell), the trend against the close 19 bars back, a non-negative average range, support and resistance as written, equal to the corrected ones, and volatility against 1% of the pair's range |
| PolygonApi.Span | utils/polygon_api.py:45-55 | Polygon's multiplier and unit for a timeframe, (1, hour) for an unknown one |
| PolygonApi.SpanMatchesMinutes | utils/polygon_api.py:45-66 | the bar length Polygon is asked for equals the minutes per candle of the look-back, for every timeframe |
| PolygonApi.Ticker | utils/polygon_api.py:42 | `C:` followed by the upper-cased pair |
| PolygonApi.RequestFor | utils/polygon_api.py:42-82 | the request's look-back spans exactly the 100 bars it asks for |
| PolygonApi.TryPolygon | utils/polygon_api.py:28-88 | no key falls back for want of a key; a failing secret store or client falls back with an initialisation error; a failing request with an API error; an empty answer for want of data; otherwise Polygon's non-empty bars |
| PolygonApi.ForexData | utils/polygon_api.py:16-159 | never fails; with Polygon's bars, however many, their snapshot: the last close as price, their RSI and trend, volatility high above 0.01; otherwise the synthetic snapshot of the start price, draws and clock, with the reason; pair, price and session either way |
| PolygonApi.SessionsAgree | utils/polygon_api.py:185-196 | for hours 0-23 the provider's session is the one the session analysis reports |

## Left out

- The Streamlit user interface, the Groq client's transport and `SYSTEM_PROMPT`'s text. The model sees the language model as a function from the round and the transcript to a reply or an exception.
- `json.loads` and `json.dumps`. They are parameters: a parse that may fail and a total encoding.
- Rounding with `round(x, 4)`, `round(x, 1)` and `round(x, 2)`. The model computes on exact reals. This includes the rounded values that the premium/discount comparisons read back. It also includes the rounded `distance_pips` by which pools (utils/smc_functions.py:268, 272), order blocks (:385, 391), fair value gaps (:452, 458) and institutional levels (:1104, 1125) are sorted: distances that round to the same value keep scan order there, while the model orders them by exact distance, so its nearest entry and the first four or five shown can differ.
- Floating point: all prices are exact reals.
- `datetime.now()`, `utcnow()` and ISO-8601 strings. Timestamps are milliseconds, the clock is a sequence of readings, and the hour is a parameter.
- `PolygonApi.RequestFor`: the date range is kept as its length in minutes. `strftime('%Y-%m-%d')` truncates both ends to days; that is not modelled.
- The conversion loop of the live provider over the returned bars. It only rounds and formats times, so the bars are taken as candles directly.
- The content of every random choice. Draws are parameters; their ranges are requires clauses.
- `detect_news_impact_zones` and `identify_confluences`. Their whole result is random. They are in the registry and the schemas but have no model of their own.
- The interpretation and recommendation strings, beyond the kind and level they name.
- `SmcContext.InstitutionalLevels`: `float(str(price)[:4])` is given as the `base` parameter, because the model has no decimal rendering of reals.
- `dict.get` defaults inside the analysis functions' `data`. The input is a typed record.
- Substring tests on type names (`'high' in pool_type`, `'bullish' in div_type`). They are predicates on the enumerated kinds.
- `SmcLiquidity.LiquidityPools`: the density's relative-distance test divides by the level, so a level of zero raises ZeroDivisionError. The model keeps that error but does not decide the density count beyond its bounds.
- `PolygonMock.MockForexData`: the start price drawn from the range is not rounded to four places. Nor are the candles' prices: each candle opens at the previous close before rounding, as in the code.
- `PolygonApi.ForexData`: timestamps of the bars are taken as given.

## Findings

| source | as written | input that shows it | evidently intended | confidence | as-written member | corrected member |
|---|---|---|---|---|---|---|
| utils/smc_functions.py:239-259 | the guard admits 40 candles, but the third window `candles[-65:-45]` is empty below 46 candles, and `max([])` raises ValueError | 42 candles with three pools drawn | skip windows that hold no candle, as the order-block scan does | high; not executed | SmcLiquidity.LiquidityPoolsAsWritten | SmcLiquidity.LiquidityPools |
| utils/smc_functions.py:608-622 | the size is `abs(high - low)`, so a bullish zone whose candle's low reaches back under the previous high is kept with its bounds inverted | previous candle 1.0980-1.1000, then low 1.0990 and close 1.1010: zone high 1.0990, low 1.1000, 10 pips | record only a real gap: the current low above the previous high (mirrored for bearish) | high; not executed | SmcGaps.InvertedImbalanceAsWritten | SmcGaps.ImbalanceStep |
| utils/polygon_mock.py:58-61 | the wicks are measured from the open alone, while the close moves independently, so a candle can close outside its own range | price 1.0, change +0.2%, upper wick 0.1%: high 1.001, close 1.002 | wicks measured from the body, so that the high is at least the open and the close, and the low at most both | high; not executed | PolygonMock.CloseAboveHighAsWritten | PolygonMock.StepIsWellFormed |
| utils/polygon_api.py:119-123 | the sum of the lowest (highest) five is divided by 5 even when fewer than five bars came back | one bar whose prices are all 1.1: support 0.22 | divide by the number of values taken | medium; not executed | TechnicalIndicators.SupportAsWrittenUnderstates | TechnicalIndicators.Support |
