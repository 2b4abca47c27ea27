# DragonSwap V2 routing, quoting and swap execution on SEI

This project models the trading core of the SEI MCP server, in Dafny. That core has two parts:

- the `DragonSwapV2` engine in `mcp/dragonswap.js`;
- the handlers of `mcp/index.js` that use the engine.

The model covers:

- **Token resolution.** A token argument given as a symbol, a table key or an address is turned into an address (`resolveTokenAddress`).
- **The metadata cache.** Each token's decimals, symbol and name are read once and kept. When the reads fail, a degraded record is cached instead. A cached token is answered from the cache, and no operation of the engine ever drops or rewrites a cached entry. Because the chain is one snapshot, a cached record is also what a fresh read would give, so the cache cannot change an answer (see "Left out").
- **Pool discovery.** The factory is probed on the four fee tiers, in both token orders. The pools found are ranked by liquidity with an in-place insertion sort.
- **Single-hop quotes.** The quoter is asked for every active pool. The pools are asked in liquidity order. The largest output wins, and the first maximum wins on ties, so the reported pool is a most liquid one among those tied. The slippage minimum is computed in integer basis points.
- **Multi-hop quotes.** Each hop is quoted at zero slippage from the previous hop's output.
- **Swap preparation.** `exactInputSingle` goes through the top-liquidity pool. `exactInput` uses a packed path: token, fee, token, …. The path is packed with `encodePath` and the fee of each hop's top pool. The model proves that the router's reading of that packed path gives back the tokens and fees.
- **The `executeSwap` handler.**
  - Without a wallet the handler refuses.
  - Native SEI is wrapped after a balance check that keeps a 0.1 SEI gas reserve.
  - The route is chosen: an explicit path, the direct pair, or a bridge through WSEI (or through USDT when WSEI is one side).
  - The token is approved when the allowance is short.
  - A slippage ladder of 1% then 2% (or the caller's slippage alone) retries only errors that mention "failed", "slippage" or "INSUFFICIENT_OUTPUT_AMOUNT".
- **The `getTokenPrice` handler.** One whole token is quoted on the pair. When the pair cannot be quoted and neither side is WSEI, the handler falls back to the route through WSEI.

How the outside world is represented:

- **The chain.** A `Chain.Provider` is one read-only snapshot. Each contract call is a total function that either returns a value or throws a message (`Call<T>`).
- **The wallet.** A `Swap.Wallet` holds the native balance and the outcome of the wrap deposit. For attempt `k` of the ladder it also holds the allowance read, the approval and the sent swap.
- **Time.** The clock is the parameter `nowMillis`.
- **Amounts.** All amounts are in base units of their token, as `nat`. Slippage is an integer number of basis points.
- **The token table.** It is a parameter, and `Tokens.SeiTokens` is the shipped SEI table.
- **The engine instance.** The `initDragonSwap` singleton is the `DragonSwapV2` object the handlers receive.

Modules:

| module | file | models |
|---|---|---|
| `Wrappers` | wrappers.dfy | `Option` and `Result` |
| `Text` | text.dfy | lower-casing, substring search, join, hexadecimal and decimal text |
| `Chain` | chain.dfy | addresses, the provider snapshot |
| `Metadata` | metadata.dfy | token records and the cache invariant |
| `Pools` | pools.dfy | `findBestPool` |
| `Quotes` | quotes.dfy | the slippage minimum, the quote loop, chained quotes |
| `PathCodec` | pathcodec.dfy | `encodePath` and the router's decoding of a packed path |
| `DragonSwap` | dragonswap.dfy | the `DragonSwapV2` class |
| `Tokens` | tokens.dfy | the token table and `resolveTokenAddress` |
| `Swap` | swap.dfy | the `executeSwap` handler |
| `Price` | price.dfy | the `getTokenPrice` handler |

## Model

| member | source | states |
|---|---|---|
| Tokens.KeyLookup | mcp/index.js:181-184 | A hit is an entry of the table stored under exactly that key; a miss means no entry has that key |
| Tokens.SymbolLookup | mcp/index.js:186-191 | A hit is the first entry, in table order, whose lower-cased symbol matches; a miss means no entry's symbol matches |
| Tokens.Resolve | mcp/index.js:174-194 | Text starting with "0x" is returned unchanged. Otherwise resolution fails with "Unknown token: <input>" exactly when no entry answers to the name by key or by symbol, ignoring case. A success is the address of an entry that answers to the name |
| Tokens.ResolveOrder | mcp/index.js:181-191 | A name that is the key of an entry resolves to that entry's address, even when an earlier entry's symbol also matches. On a key miss, a success is the address of the first entry, in table order, whose lower-cased symbol matches |
| Tokens.ConfiguredAddresses | mcp/index.js:75-123 | Every configured address starts with "0x", so it resolves to itself |
| Tokens.ResolveIdempotent | mcp/index.js:174-194 | Resolving a resolved address yields the same address again |
| Tokens.KeysAreLoweredSymbols | mcp/index.js:75-123 | Every key of the shipped table is its entry's lower-cased symbol |
| Tokens.SymbolScanRedundant | mcp/index.js:186-191 | With the shipped table, the symbol scan finds nothing that the key lookup missed |
| Tokens.LookupsMiss | mcp/index.js:181-191 | A name that is no key of the shipped table is missed by both lookups |
| Tokens.UnknownName | mcp/index.js:174-194 | A name that does not start with '0' and is no key is refused with "Unknown token: <input>" |
| Tokens.NativeIsNotAToken | mcp/index.js:902-904 | "SEI" in any case is not a table token, so native input has to be recognised before resolution |
| Tokens.ResolveAsWritten | mcp/index.js:181-184 | The lookup as written agrees with `Resolve` on every name except inherited property names |
| Tokens.InheritedKeyResolvesToNothing | mcp/index.js:181-184 | "constructor" or "__proto__" resolves to no address as written, where an unknown name should be refused |
| Metadata.FetchInfo | mcp/dragonswap.js:84-101 | A failing `decimals()` read gives the record (18, "UNKNOWN", "Unknown"). Otherwise the record keeps the decimals and defaults only the failing `symbol()` or `name()` field. The record always carries its own address |
| Metadata.CacheAgreesValid | mcp/dragonswap.js:92-99 | A cache that only holds fetched records stores each record under its own address |
| Metadata.CacheExtendsTransitive | mcp/dragonswap.js:80-100 | Proof step: "keeps every entry" composes. The engine's methods chain it over their successive `getTokenInfo` calls |
| Pools.LookupTier | mcp/dragonswap.js:114-119 | An address that names a pool comes from one of the two lookup orders. The reversed order is consulted only when the (A,B) answer is empty or the zero address. A throwing answer comes from a lookup that threw |
| Pools.ProbeTierSound | mcp/dragonswap.js:112-141 | A tier contributes a pool exactly when its lookup (A,B, then B,A only if that found nothing) names an address and both state reads succeed. The pool carries the tier's fee and name, and it is active exactly when its liquidity is positive |
| Pools.DiscoveredWellFormed | mcp/dragonswap.js:111-142 | Every discovered pool is well formed and has the fee of a probed tier; there are at most as many pools as tiers |
| Pools.DiscoveredFeesIncrease | mcp/dragonswap.js:65-70 | Tiers are probed in increasing fee order, so discovered pools have strictly increasing fees |
| Pools.DistinctFeesPermutation | mcp/dragonswap.js:145-149 | Reordering pools with pairwise distinct fees keeps the fees distinct |
| Pools.SwapDown | mcp/dragonswap.js:145-149 | Swapping two neighbouring elements is exactly that exchange, and a permutation |
| Pools.InsertAt | mcp/dragonswap.js:145-149 | Sinking element `i` into a sorted prefix gives a sorted prefix one longer, permutes the array and leaves the rest untouched |
| Pools.SortByLiquidity | mcp/dragonswap.js:145-149 | The array ends sorted by non-increasing liquidity and is a permutation of what it held |
| Pools.FindBestPool | mcp/dragonswap.js:107-152 | The result is a permutation of the discovered pools, sorted by non-increasing liquidity and well formed. It has distinct fees and at most four pools, and its head has the largest liquidity |
| Pools.RankingOfDiscovered | mcp/dragonswap.js:145-151 | Any liquidity-sorted permutation of the discovered pools is well formed, has distinct fees and at most four pools, and its head is a top-liquidity pool of the pair |
| Pools.RankingKeeps | mcp/dragonswap.js:145-151 | Ranking keeps the pools well formed, their fees distinct and their number. The head is a discovered pool at least as liquid as every other |
| Pools.TopPool | mcp/dragonswap.js:303-308 | `pools[0]` exists exactly when the pair has a pool, and then it is a top-liquidity pool |
| Pools.TopPoolFee | mcp/dragonswap.js:308 | Proof step: a top pool's fee is a fee the path may carry for that hop |
| Pools.TopFeeIsTierFee | mcp/dragonswap.js:65-70 | Such a fee is one of 100, 500, 3000 and 10000, so it fits in three bytes |
| Quotes.AmountOutMin | mcp/dragonswap.js:213-214 | The minimum is the output times the factor, divided by 10000 and truncated toward zero, as BigNumber `div` does. It is the largest such quotient for a non-negative product and the smallest for a negative one |
| Quotes.AmountOutMinBounds | mcp/dragonswap.js:212-214 | For a slippage between 0% and 100% the minimum is between 0 and the output. It equals the output only at zero slippage or zero output |
| Quotes.AmountOutMinMonotone | mcp/dragonswap.js:212-214 | A larger slippage never raises the minimum, for any slippage |
| Quotes.AmountOutMinExamples | mcp/dragonswap.js:212-214 | Example: 0.5% of 1,000,000 leaves 995,000, and zero slippage keeps the output |
| Quotes.MaxQuoted | mcp/dragonswap.js:178-205 | The best output is absent exactly when no pool is quotable. Otherwise it is the output of a quotable pool and at least every quotable pool's output |
| Quotes.MaxQuotedUnique | mcp/dragonswap.js:178-205 | An output of a quotable pool that no quotable pool exceeds is the best output |
| Quotes.MaxQuotedPermutation | mcp/dragonswap.js:169-205 | The best output does not depend on how the pools are ordered |
| Quotes.QuoteError | mcp/dragonswap.js:169-243 | Every quote error starts "Quote failed: ". The reason is "No liquidity pool found for …" exactly when the pair has no pool, and "Failed to get quote from any pool" otherwise |
| Quotes.ChainedQuote | mcp/dragonswap.js:258-267 | A failing chained quote fails with the quote error of one of the path's hops |
| Quotes.ChainedStep | mcp/dragonswap.js:258-267 | The rest of the path from hop `i` is quoted from hop `i`'s output, or fails with hop `i`'s error |
| Quotes.ChainedSplit | mcp/dragonswap.js:258-267 | Quoting a path in two legs that share a token gives the same result as quoting it whole |
| Quotes.SelectBestQuote | mcp/dragonswap.js:175-209 | The choice is absent exactly when no active pool's quote succeeds. Otherwise it is an active pool of the list with the largest output, strictly above every earlier quotable pool (the first maximum wins), and it agrees with `MaxQuoted` |
| DragonSwap.RankedPools | mcp/dragonswap.js:169-205 | Quoting the ranked list gives the pair's best output, and every ranked pool is a discovered pool |
| DragonSwap.ChosenPoolQuotes | mcp/dragonswap.js:190-199 | Proof step: a quote built from an active discovered pool and its quoter answer is quoted by that pool |
| DragonSwap.FirstMaximumMostLiquid | mcp/dragonswap.js:145-205 | The first maximum of a scan over the liquidity-ranked pools is at least as liquid as every discovered pool that quotes the same output |
| DragonSwap.QuotePair | mcp/dragonswap.js:169-239 | Succeeds exactly when some pool of the pair quotes. An empty pair fails with "No liquidity pool found for A/B" and an unquotable one with "Failed to get quote from any pool". A success reports the best output, its slippage minimum, the pool that gave it and the route "A → B". Among pools tied at the best output, the reported pool is a most liquid one |
| DragonSwap.HopQuotesSnoc | mcp/dragonswap.js:258-266 | Proof step: appending the next hop's quote, fed from the carried amount, keeps the hop-quote chain |
| DragonSwap.ElementsSnoc | mcp/dragonswap.js:371 | Reading one more token of the path adds exactly that token to the cached keys |
| DragonSwap.FetchedAll | mcp/dragonswap.js:371 | One record per token of the path, in order, each for its own address |
| DragonSwap.FetchedAllSnoc | mcp/dragonswap.js:371 | Reading one more token appends its record |
| DragonSwap.HopWithPool | mcp/dragonswap.js:375-379 | Proof step: a hop with a pool extends the pool-free-hop-free prefix |
| DragonSwap.HopWithoutPool | mcp/dragonswap.js:377-378 | Proof step: the first hop without a pool makes the path unpreparable |
| DragonSwap.BuildPathWithFees | mcp/dragonswap.js:373-384 | Fails exactly when some hop has no pool, naming the first such hop's symbols. Otherwise it yields token, fee, …, token with each hop's top-pool fee |
| DragonSwap.MultiHopPathDecodes | mcp/dragonswap.js:373-387 | For full-length addresses, the packed path of a prepared multi-hop swap decodes back to its tokens and hop fees |
| DragonSwap.DragonSwapV2.constructor | mcp/dragonswap.js:55-74 | A new engine has the given chain and router and an empty cache |
| DragonSwap.DragonSwapV2.GetTokenInfo | mcp/dragonswap.js:79-102 | A cached token is answered with its cached record and leaves the cache alone. Any other token is read and its record added, and no other entry changes. The answer is the record a read of the chain yields, under its own address |
| DragonSwap.DragonSwapV2.GetQuote | mcp/dragonswap.js:157-244 | Caches both tokens and keeps every entry it had. It succeeds exactly when the pair has a best output, and fails with "Quote failed: " and the reason. A success reports that output, its slippage minimum, a pool that quotes it, both records and the route. Among pools tied at that output, the reported pool is a most liquid one |
| DragonSwap.DragonSwapV2.GetMultiHopQuote | mcp/dragonswap.js:249-289 | A path under two tokens is refused. Otherwise it succeeds exactly when the chained quote does, with the first failing hop's error. A success reports the chained output, its slippage minimum, one zero-slippage quote per hop, each fed the previous output, and the symbol route. The cache keeps every entry it had |
| DragonSwap.DragonSwapV2.PrepareSwap | mcp/dragonswap.js:294-360 | Fails exactly when the pair has no pool, with the "Failed to prepare swap: " message. Otherwise it builds an `exactInputSingle` to the router through a top-liquidity pool, with value 0, gas 300000, the recipient (or zero address) and the deadline (or now plus 20 minutes). The cache gains both tokens and keeps every entry it had |
| DragonSwap.DragonSwapV2.GetTokenInfos | mcp/dragonswap.js:371 | The records of the path's tokens in order; the cache gains exactly the path's tokens and keeps every entry it had |
| DragonSwap.DragonSwapV2.PrepareMultiHopSwap | mcp/dragonswap.js:365-427 | A path under two tokens is refused with the cache untouched. Otherwise it fails exactly when some hop has no pool, naming the first. A success is an `exactInput` along "0x" and the packed path with each hop's top-pool fee, with value 0, gas 150000 per token and the symbol route. The cache keeps every entry it had |
| PathCodec.EncodePath | mcp/dragonswap.js:441-453 | Fails exactly when a fee sits at an even position (where `slice` is called). Otherwise the result is "0x" followed by each item's piece in order |
| PathCodec.CanonicalEncodable | mcp/dragonswap.js:441-453 | A canonical path has tokens at every even position |
| PathCodec.BodyLength | mcp/dragonswap.js:446-449 | A canonical path packs into 40 characters per token and 6 per fee |
| PathCodec.BodyRoundTrip | mcp/dragonswap.js:441-453 | Decoding the packed body of a canonical path gives the path back |
| PathCodec.EncodeDecodeRoundTrip | mcp/dragonswap.js:441-453 | The router's decoding inverts `encodePath` on canonical paths, whose encoding is 42 + 46 characters per hop |
| PathCodec.EncodingInjective | mcp/dragonswap.js:441-453 | Two canonical paths with the same encoding are equal |
| PathCodec.Interleave | mcp/dragonswap.js:374-384 | `pathWithFees` for n tokens has 2n - 1 items |
| PathCodec.InterleaveCanonical | mcp/dragonswap.js:374-384 | Full-length addresses with fees below 2^24 interleave into a canonical path |
| PathCodec.InterleaveEncodable | mcp/dragonswap.js:374-384 | `pathWithFees` always has tokens at the even positions, so `encodePath` never throws on it |
| Swap.Ladder | mcp/index.js:940 | A non-zero caller slippage is tried alone; otherwise 1% and then 2% |
| Swap.RetryableIffOccurs | mcp/index.js:1106-1108 | A message is retried exactly when "failed", "slippage" or "INSUFFICIENT_OUTPUT_AMOUNT" occurs in it at some index |
| Swap.StatusFailureRetryable | mcp/index.js:1072-1074 | A reverted swap's error mentions "failed", so it is retried |
| Swap.QuoteErrorRetryable | mcp/index.js:1106-1108 | Every failed quote mentions "failed" ("Quote failed: …"), so it is retried |
| Swap.QuoteFailedRetryable | mcp/index.js:1106-1108 | Any message starting "Quote failed: " is retried |
| Swap.ChainedQuoteErrorRetryable | mcp/index.js:1106-1108 | The error of a failing multi-hop quote is retried |
| Swap.SeiAsWsei | mcp/index.js:954-956 | Every "sei" entry of a path, in any case, becomes "WSEI", and every other entry is kept |
| Swap.ResolveAll | mcp/index.js:957 | Succeeds exactly when every name resolves, giving their addresses in order. Otherwise it fails with the first failing name's error |
| Swap.BridgePath | mcp/index.js:1018-1031 | A three-token path between the pair, through USDT exactly when WSEI is one side and through WSEI otherwise |
| Swap.RouteFor | mcp/index.js:952-1045 | An explicit path of two or more tokens wins and fails when a name does not resolve. Otherwise both tokens are required. A direct route has a pool, and a bridged route is the bridge path of a pair with none |
| Swap.MinOutFailure | mcp/index.js:961-964 | Whether the attempt's quote fails does not depend on the slippage, and its failure is retried |
| Swap.QuoteFailsAtEverySlippage | mcp/index.js:1004-1007 | A quote failing at one rung fails with the same retried error at every rung |
| Swap.LadderRelaxes | mcp/index.js:1033-1036 | The ladder only relaxes: a quoted minimum at a larger slippage (up to 100%) is at most the one at a smaller slippage, and never negative |
| Swap.BridgedReportsDirect | mcp/index.js:1092 | A bridged swap crosses two pools but is reported as "direct" |
| Swap.Submit | mcp/index.js:1048-1074 | The approval (to MaxUint256) is sent exactly when the allowance is short. The swap is sent exactly when the allowance read and any approval succeed, and is the last call. It succeeds exactly when the swap is mined with non-zero status; a zero status gives the retried slippage error. The log holds the approval first and the swap last |
| Swap.RoutesAreShaped | mcp/index.js:952-1045 | Proof step: every route an attempt swaps along can be prepared |
| Swap.ChooseRoute | mcp/index.js:952-1045 | The route the attempt reads from the chain, through `findBestPool`, is `RouteFor` |
| Swap.PrepareAttempt | mcp/index.js:961-1045 | Takes the caller's minimum or the quote's. A failing quote fails the attempt. A success is the direct or multi-hop swap prepared along the route with that minimum, and exists exactly when the minimum is non-negative and every hop has a pool |
| Swap.SwapAlong | mcp/index.js:947-1078 | A failing quote sends nothing. A success was prepared for the route and minimum, sent last and mined with non-zero status under the returned hash. No deposit is ever sent |
| Swap.RunAttempt | mcp/index.js:946-1078 | A failed route fails the attempt without sending. WSEI to WSEI is the only case without a swap. A success follows the quoted minimum and ends the log with the swap |
| Swap.StopsClean | mcp/index.js:1076-1099 | Proof step: an attempt that succeeds completes a ladder run |
| Swap.StopsWithError | mcp/index.js:1105-1110 | Proof step: an error that is not retried ends the ladder with that error |
| Swap.Retries | mcp/index.js:1101-1111 | Proof step: a retried error moves on to the next rung |
| Swap.Exhausted | mcp/index.js:1114-1115 | Proof step: when every rung failed with a retried error, the last error is reported |
| Swap.SwapReported | mcp/index.js:1076-1099 | A successful attempt reports its slippage, kind, quoted minimum and a log that ends with the swap |
| Swap.NoSwapReported | mcp/index.js:984-997 | WSEI to WSEI reports the wrap if there was one, and no swap, after one attempt |
| Swap.SwapLadderReported | mcp/index.js:1076-1099 | A successful attempt completes the ladder's report |
| Swap.ErrorReported | mcp/index.js:1105-1110 | An error that is not retried completes the ladder's report with that error |
| Swap.ExhaustedReported | mcp/index.js:1114-1115 | An exhausted ladder completes the ladder's report with the last error |
| Swap.FailsAgain | mcp/index.js:1101-1111 | Proof step: another attempt failing with the same error keeps every attempt failing with it |
| Swap.RunLadder | mcp/index.js:939-1115 | The attempts follow the ladder, and every attempt but the last failed with a retried error. The outcome is the last attempt's: a swap with its slippage, kind, minimum and log; the wrap alone for WSEI to WSEI; or the prefixed error. A failing route or quote sends nothing and keeps failing on every rung |
| Swap.WrapNative | mcp/index.js:902-937 | Non-native input is left alone. Native input short of the amount plus 0.1 SEI, or whose balance read fails, is refused without a deposit. Otherwise exactly one deposit of the amount is sent, and its hash is returned unless it throws |
| Swap.SwapAfterWrap | mcp/index.js:939-1115 | The route is `RouteFor` with WSEI as input after a wrap. The ladder run, its report and the route and quote failures are as for `RunLadder` |
| Swap.KindOf | mcp/index.js:1092 | The kind is "native-swap" exactly after a wrap, "multi-hop" exactly for an explicit path of more than two tokens without a wrap, and "direct" otherwise |
| Swap.NativeShortfall | mcp/index.js:905-916 | A failed balance read gives its own message; a short balance gives the "Insufficient SEI balance. Have … SEI (including gas)" message |
| Swap.ExecuteSwap | mcp/index.js:887-1125 | No wallet: refused. Short of the balance: refused without a call. A deposit happens exactly when native input is wrapped, and only first. The ladder runs exactly when the request gets past the wrap. A swap reports the last rung's slippage, kind "native-swap" after a wrap ("multi-hop" for an explicit path of more than two tokens, else "direct"), the wrap first and the swap last in its log. Every error is prefixed "Error executing swap: " |
| Price.PairSource | mcp/index.js:1292-1302 | A direct price names the quote's pool and that pool's liquidity |
| Price.PairSourceAsWritten | mcp/index.js:1301-1302 | As written, the pool part of a direct report has neither a pool nor a liquidity |
| Price.PoolDropped | mcp/index.js:1301-1302 | The report as written never names the pool or its liquidity; the intended report does |
| Price.GetTokenPrice | mcp/index.js:1272-1335 | The outcome satisfies `Price.Priced`. Failures to resolve the token or the base token are reported with the prefix. So are failures of the `symbol()` or `decimals()` read. One whole token is priced at the pair's best output, by a discovered pool that quotes it. The direct report names that pool and its liquidity, as the corrected `Price.PairSource` of the second Findings row does, not the as-written handler. When the pair cannot be quoted, either side being WSEI gives the quote's error, and otherwise the price is the chained quote through WSEI or its error |
| Price.ViaWseiLegs | mcp/index.js:1315-1319 | The fallback price is the token quoted for WSEI and that WSEI quoted for the base token; the first leg that cannot be quoted gives the error |
| Price.NoFallbackThroughWsei | mcp/index.js:1309-1313 | With WSEI on either side, every price comes from a pool of the pair |

## Left out

- I/O and console logging are not modelled. Chain reads are total functions over one fixed snapshot, so the chain cannot change between reads and concurrent requests do not interleave.
- `Promise.all` ordering is not modelled. When several reads of one `Promise.all` fail, the model reports the first in source order (for `getTokenPrice`, `symbol()` before `decimals()`).
- `parseUnits` and `formatUnits` are not modelled: every amount is in base units, and quotes report base units instead of formatted decimal strings.
- Floating-point results are left out: the price impact (`calculatePriceImpact`, `priceImpact`, `totalPriceImpact`) and `executionPrice`.
- DragonSwap.DragonSwapV2.GetMultiHopQuote: the minimum output uses the integer basis-point formula of the single-hop quote, not the source's floating-point `finalAmountOut * (1 - slippage / 100)` printed with `toFixed(6)`.
- DragonSwap.DragonSwapV2.GetMultiHopQuote: the reported output is the exact chained amount in base units. The source reports `parseFloat` of the last hop's formatted output printed with `toFixed(6)`, which rounds to six decimals.
- Price.GetTokenPrice: the fallback price through WSEI is the exact chained amount. The source reports the multi-hop quote's `toFixed(6)` string, rounded to six decimals.
- DragonSwap.DragonSwapV2.GetTokenInfo: the chain is one snapshot, so a cached record always equals what a fresh read would give, and the cache cannot be observed. A degraded record cached after a transient `decimals()` failure would outlive that failure and mis-scale later `parseUnits` calls. That is not modelled.
- Quotes.AmountOutMin: slippage is an integer number of basis points. A fractional basis point and the floor of the float `1 - slippage/100` are not modelled.
- Text.ToLower: only ASCII letters are lower-cased.
- Swap.Submit: the approval step's `decimals()` read is part of the allowance oracle, whose failure stands for the failure of either read.
- Swap.PrepareAttempt: the ABI encoder is not modelled. Its range check appears only as the "value out-of-bounds" error for a negative minimum, and the error text is shortened.
- Swap.ExecuteSwap: the route is chosen once, before the ladder. The source recomputes it on every attempt, and because the chain is one snapshot each attempt gets the same route.
- Swap.RunAttempt: the `PreparedFor` description of the sent transaction is stated on `Swap.SwapAlong`, not repeated on the attempt and the ladder.
- Swap.ExecuteSwap: the JSON result is not modelled (`formatTransactionResult`, the `from`, `to`, `tokenIn`, `tokenOut`, `path` and `pool` fields).
- Price.GetTokenPrice: the JSON report is not modelled (`priceImpact`, `timestamp`, the "multi-hop via WSEI" string). The zod default of "USDC" for the base token is left to the caller.
- Pools.FindBestPool: the comparator never returns 0, so the order of pools with equal liquidity is up to the JavaScript engine. The contract claims only sorted by non-increasing liquidity and a permutation.
- DragonSwap.DragonSwapV2.PrepareMultiHopSwap: the gas limit follows the code, 150000 for every token of the path (`150000 × path.length`), and is not an estimate per hop.
- `getPoolInfo`, `getAllPools`, the other tools of `mcp/index.js` and the server wiring in `server.js` are not part of this model.
- The wallet's private-key check is modelled as whether a `Wallet` is present. Key handling and signing are not modelled.

## Findings

| source | as written | input that shows it | evidently intended | confidence | as-written member | corrected member |
|---|---|---|---|---|---|---|
| mcp/index.js:181-184 | `SEI_CONFIG.tokens[tokenKey]` also finds properties every object inherits, and returns their `evm`, which is undefined | token "constructor" (or "__proto__") | an unknown name is refused with "Unknown token: constructor" | high (not executed) | Tokens.InheritedKeyResolvesToNothing | Tokens.Resolve |
| mcp/index.js:1301-1302 | the price report reads `quote.bestPool` and `quote.liquidity`, which a quote does not have, so both are dropped from the JSON | any token with a direct pool, e.g. WSEI priced in USDC | report the quote's `pool` and its `liquidity` | high (not executed) | Price.PoolDropped | Price.PairSource |
