# Ekubo atomic-arbitrage bot: ranking and calldata compilation

This project models the opportunity-detection and trade-compilation core of an
arbitrage bot for the Ekubo concentrated-liquidity AMM on Starknet. On every
polling cycle the bot does four things:

- It asks the quoting service, for each amount of a ladder of powers of two,
  what a round trip of the base token returns.
- It keeps the quotes whose on-paper profit `total - amount` is above a
  threshold.
- It sorts them by descending profit and keeps the best few.
- It compiles each of them into a three-call bundle: `transfer`,
  `multihop_swap` or `multi_multihop_swap`, then `clear_minimum`. The first
  bundle is submitted.

The model is pure: datatypes, functions and lemmas. The source builds all of
this with `Array.map`, `filter`, `sort`, `slice` and `reduce` chains over fresh
arrays. The one in-place `sort` (index.ts:112) acts on the temporary array that
`filter` returns, so nothing shared is updated.

Modules:

- `Config` holds the clamps on the environment values and the amount ladder.
- `Quotes` holds the quote data model. Calldata words are naturals.
- `Ranking` holds the sweep, the profit filter, the stable sort by descending
  profit (an insertion sort) and the cut to the top N.
- `RouteCompiler` holds the hop reducer with its running token, the per-split
  and multi-split calldata layouts, the `u256` limb split of the price limit,
  and `Compile` / `CompileAll`.
- `CalldataLayout` is a decoder for the flat swap calldata. It reads the
  calldata back the way the router does, using the embedded hop and split
  counts. The round-trip lemmas show that the compiler's output carries the
  quote's splits exactly.
- `Arbitrage` models one cycle up to the bundle it would submit.

The model follows the code as written, including these behaviours:

- **Token order.** The code emits `token0` before `token1` for every hop,
  whatever the direction of the trade (index.ts:166-167, 225-226). It
  computes the running token and then discards it (`.encoded`, index.ts:185,
  244). `FoldRoute`'s contract shows this: the
  words emitted do not depend on the running token. `ThreeHopWalk` walks a
  three-hop cycle.
- **Slippage.** `index.ts` applies no slippage adjustment. `clear_minimum`
  receives the input `amount` (index.ts:132-135), not the quoted total.
- **Exponent cap.** The cap of 65 on the maximum exponent gives way to
  `MIN + 1` when the minimum exponent is 65 or more (index.ts:12-15).
- **Transfer amount from `2^128`.** The transfer sends the amount as the low
  word with a literal `0x0` high word (index.ts:126-130), and the minimum
  exponent has no upper cap (index.ts:11). From a minimum exponent of 128 the
  ladder amount is `2^128` or more, so the transfer words are no longer the
  `u256` encoding of the amount (`TransferPast128IsNotU256`).
- **Empty route.** A quote with exactly one split whose route is empty is
  accepted (index.ts:139 rejects only length 1). It compiles to
  `multihop_swap` with calldata `[0, base, specifiedAmount, 0]`.
- **Compile failures.** The compile step runs inside `.map` over all top-N
  candidates, and nothing inside `while (true)` catches its throws
  (index.ts:90-282). So one refused route shape among the top N, even when
  the best candidate compiles, rejects the whole async function: the final
  `.catch` (index.ts:287-289) logs the error and the bot stops polling for
  good (`CompileAll`, `PlanCycle`).

## Model

| member | source | states |
|---|---|---|
| `Config.Clamp` | index.ts:8-20 | Each setting is raised to its floor: hops ≥ 2, splits ≥ 0, interval ≥ 3000, min exponent ≥ 32, profit threshold ≥ 0, top-N ≥ 1. A raw value already above the floor is kept. The max exponent is above the min exponent. It equals `min(65, raw)` or `min + 1`, and it is ≤ 65 whenever the min exponent is below 65. |
| `Config.AmountLadder` | index.ts:75-77 | The ladder has `max - min` amounts. It starts at `2^min` and each amount is double the one before. |
| `Config.LadderStrictlyAscending` | index.ts:75-77 | The i-th amount is `2^(min+i)`, and the ladder is strictly ascending. |
| `Config.ClampedLadderNonEmpty` | index.ts:11-15 | For any integer exponents in the environment, the clamped exponents give a non-empty ladder. It starts at `2^32` or above and is strictly ascending. |
| `Config.InRangeEnvUnchanged` | index.ts:11-15 | Exponents already within `32 <= min < max <= 65` pass through the clamps unchanged, so the ladder has `max - min` amounts. |
| `Config.Pow2Of128` | index.ts:172 | `Pow2(32)` is `2^32`, and `Pow2(128)` is the constant `U128`, the code's `2n ** 128n`. |
| `Ranking.Sweep` | index.ts:93-105 | There is one slot per ladder amount, in ladder order. A slot is empty exactly when its quote is absent. A full slot pairs the amount with its quote and with `profit = total - amount`. |
| `Ranking.Profitable` | index.ts:109-111 | Every kept candidate comes from a non-empty slot and has profit strictly above the threshold. Every slot with profit above the threshold is kept. |
| `Ranking.SortByProfit` | index.ts:112-114 | The result is a permutation of the input, sorted by descending profit. |
| `Ranking.SortByProfitStable` | index.ts:112-114 | Candidates with equal profit keep their input order. |
| `Ranking.StableOrderUnique` | index.ts:112-114 | Two descending orders that agree on the order within every group of equal profits are equal. |
| `Ranking.SortByProfitIsTheStableSort` | index.ts:112-114 | Any order that is descending and keeps each equal-profit group in input order is `SortByProfit`. So the model is the stable sort that the comparator defines. |
| `Ranking.TopN` | index.ts:115 | `slice(0, n)`: the result is the prefix of length `min(n, |s|)`. |
| `Ranking.Rank` | index.ts:109-115 | The filter, sort and slice chain gives at most top-N candidates, sorted by descending profit. `RankSurvivors`, `RankKeepsBest` and `RankTieBreakBySmallerAmount` state what it keeps and what it drops. |
| `Ranking.RankSurvivors` | index.ts:96-115 | There are at most top-N ranked candidates, sorted by descending profit. Each one has `profit = total - amount > threshold`. Each one comes from a returned quote at its own ladder amount. |
| `Ranking.RankKeepsBest` | index.ts:109-115 | A quote at or below the threshold (break-even included) is never ranked. A profitable quote that is left out earns no more than every ranked candidate, and it is only left out when all top-N places are taken. |
| `Ranking.RankTieBreakBySmallerAmount` | index.ts:112-115 | With strictly ascending amounts, a profitable quote left out by the cut loses only to candidates earning more or earning the same at a smaller ladder amount. So among tied best quotes the smallest amount is ranked, even at top-N 1. |
| `Ranking.RankTiesKeepLadderOrder` | index.ts:112-114 | With strictly ascending amounts, ranked candidates of equal profit appear smaller amount first. |
| `Ranking.SortKeepsAmountOrder` | index.ts:112-114 | Sorting input that is ascending by amount leaves every equal-profit group ascending by amount. |
| `RouteCompiler.LowWord` | index.ts:171-173 | The low word of the price limit is below `2^128`, and a value below `2^128` is its own low word. |
| `RouteCompiler.HighWord` | index.ts:174-176 | `>> 128n` gives the `h` with `h * 2^128 <= x < (h + 1) * 2^128`. |
| `RouteCompiler.U256Words` | index.ts:171-176 | `low + high * 2^128` equals the price limit. The high word is below `2^128` when the limit fits 256 bits. |
| `RouteCompiler.EncodeHop` | index.ts:165-178 | A hop is exactly 8 words, with `token0` first and `token1` second. |
| `RouteCompiler.HopWordsAt` | index.ts:165-178 | Hop `i` of a route occupies words `8i .. 8i+8` of the route's words. |
| `RouteCompiler.Step` | index.ts:156-179 | After a hop, the running token is one of that pool's two tokens. Each hop adds 8 words. |
| `RouteCompiler.StepCrossesPool` | index.ts:157-164 | If the running token is one side of a pool with two distinct tokens, the hop leaves through the other side. |
| `RouteCompiler.FoldRoute` | index.ts:152-185 | The reducer emits exactly the reference layout `HopWords(route)` after the initial words, whatever the running token is. The running token ends on a side of the last pool, and is unchanged for an empty route. |
| `RouteCompiler.ThreeHopWalk` | index.ts:156-185 | On a three-hop cycle from base token 5, the running token goes 5, 3, 7, 5. Every hop is still emitted `token0` first, including a hop entered through `token1`. |
| `RouteCompiler.SplitWords` | index.ts:150-190 | The single-split calldata is `[h] ++ hops ++ [base, specifiedAmount, 0]`, of length `8h + 4`. |
| `RouteCompiler.SplitsWords` | index.ts:208-250 | The splits' words total `Σ (8h_i + 4)`. |
| `RouteCompiler.FoldSplits` | index.ts:208-250 | The split reducer appends every split's words, in order and unwrapped. |
| `RouteCompiler.MultiMultihopCalldata` | index.ts:206-251 | The multi-split calldata is the split count followed by the flat split words, of length `1 + Σ (8h_i + 4)`. |
| `RouteCompiler.RejectedShape` | index.ts:122-124 | Two or more splits are never refused. A single split is refused exactly when its route has one hop (index.ts:139-140). A quote with no split is refused. |
| `RouteCompiler.Compile` | index.ts:116-256 | Compilation fails exactly on no split ("unexpected number of splits") or on one split with a one-hop route ("unexpected single hop route"). Otherwise there are exactly three calls. The first is `transfer` on the base token with `[router, amount, 0]`. The second is the router swap, which is `multihop_swap` exactly when there is one split. The third is `clear_minimum(base, amount)`, with the input amount and not the total. The swap calldata is exactly `SplitWords` for one split and `MultiMultihopCalldata` for several, with the lengths of those layouts. |
| `RouteCompiler.CompileAll` | index.ts:116-256 | The `.map` over the ranked list succeeds exactly when no candidate has a refused shape. On success, bundle `i` is candidate `i`'s compilation. On failure, the error is that of the first failing candidate. |
| `CalldataLayout.HopRoundTrip` | index.ts:165-178 | Decoding a hop's 8 words gives back the pool key, the price limit (from its two limbs) and `skip_ahead`. |
| `CalldataLayout.HopsRoundTrip` | index.ts:152-185 | Reading `|route|` hops off the route's words gives back the route and leaves the rest untouched. |
| `CalldataLayout.SplitRoundTrip` | index.ts:150-190 | The hop count, the base token and the trailing zero delimit a split. Decoding gives back its route and `specifiedAmount`. |
| `CalldataLayout.SplitsRoundTrip` | index.ts:208-250 | Flatly concatenated splits decode back into the same list of splits. |
| `CalldataLayout.MultiMultihopRoundTrip` | index.ts:206-251 | The multi-split calldata decodes, through its split count, to exactly the quote's splits. |
| `CalldataLayout.CompileRoundTrip` | index.ts:137-255 | The swap call of every compiled bundle, read according to its entry point, carries exactly the quote's splits. |
| `Arbitrage.Ladder` | index.ts:75-77 | The clamped ladder has `max - min ≥ 1` amounts. |
| `Arbitrage.PlanCycle` | index.ts:91-264 | A cycle fails exactly when some ranked candidate has a refused route shape. Otherwise it submits a bundle exactly when the ranked list is non-empty. The bundle is the compilation of the first ranked candidate (`topArbitrageResults[0]`), whose profit is above the threshold. |
| `Arbitrage.PlanCycleTakesTheBest` | index.ts:258-264 | The submitted candidate earns at least as much as every profitable quote of the cycle. |
| `Arbitrage.PlanCycleIdleIffNothingProfitable` | index.ts:258 | A cycle submits nothing exactly when no quote clears the threshold. |
| `Arbitrage.LadderAmountsFitLowWord` | index.ts:126-130 | While the clamped minimum exponent is below 128, every ladder amount is its own low `u256` word and has a zero high word. |
| `Arbitrage.CycleTransferIsU256` | index.ts:126-130 | While the clamped minimum exponent is below 128, the submitted `transfer` calldata `[router, amount, 0]` is the `(low, high)` encoding of the input amount. |
| `Arbitrage.TransferPast128IsNotU256` | index.ts:126-130 | With a minimum exponent of 128 (never capped, index.ts:11), the ladder is `[2^128]`, whose words are `(0, 1)`, and a submitted transfer carries `[router, 2^128, 0]`, which is not that encoding. |
| `Arbitrage.TwoAmountScenario` | index.ts:75-115 | Take the ladder `[2^32, 2^33]` with totals `2^32 + 10` and `2^33 - 5` and a zero threshold. The first amount is the sole ranked candidate, with profit 10. |

## Left out

- Quote requests (`fetchQuote`, index.ts:61-69) are HTTP I/O. The model takes
  one `Option<Quote>` per ladder amount as input: `None` for a non-OK
  response. Malformed JSON is not modelled.
- The `Promise.all` fan-out (index.ts:92-106) is concurrency. It is modelled
  as a positional map over the ladder.
- RPC provider, account and contract construction (index.ts:24-38) are
  foreign library calls, and so is the ABI encoding done by
  `ROUTER_CONTRACT.populate` (index.ts:132-135). `clear_minimum` is the
  abstract record `(router, token, amount)`.
- Fee estimation, `execute` with `maxFee = 2 × suggestedMaxFee`, and
  `waitForTransaction` (index.ts:258-279) are on-chain I/O. `PlanCycle` stops
  at the bundle that would be submitted.
- The `while (true)` loop, `sleep`, and console logging (index.ts:71-90,
  281-289) are scheduling and output.
- `num.toHex` string formatting is not modelled: every calldata word is a
  natural.
- `Number(process.env…)` parsing, including `NaN` and non-integer values, is
  not modelled: `Config.Env` holds integers that are already parsed.
- The exponents are assumed small (below `2^30`, say). The model's integers
  are unbounded, but the source's are doubles and BigInts. From `2^53` on,
  `MIN_POWER_OF_2 + 1` equals `MIN_POWER_OF_2` (index.ts:13), so the source's
  ladder is empty. Past the engine's BigInt size limit, `2n ** BigInt(...)`
  (index.ts:77) throws at startup. In both cases the model gives a
  one-amount ladder.
- `PlanCycle`'s `Failure` stands for the termination of the bot: the throw
  rejects the polling function, the final `.catch` logs it and no further
  cycle runs (index.ts:287-289). The model does not represent the loop that
  stops.
- `BigInt` parsing of the quote strings is not modelled: token addresses,
  fees, `specifiedAmount`, `sqrt_ratio_limit` and `skip_ahead` are naturals.
  Negative values from the service, and values above the Starknet field
  prime, are not represented.
- `token1` and the running token are compared as numbers, as the code's
  `BigInt(...) === BigInt(...)` does.
- The comparator `Number(profitB - profitA)` (index.ts:113) is modelled by its
  sign only. The float conversion keeps the sign of a non-zero bigint, so
  the stable sort it induces is `Ranking.SortByProfit`.
- The per-split `amount` field of the response is not read by the core, and
  it is not part of `Quotes.Split`.
