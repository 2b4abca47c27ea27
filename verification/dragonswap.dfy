/**
 * The DragonSwap V2 engine: token metadata with a write-once cache, single-
 * and multi-hop quotes, and the router calls that execute a swap.
 */
module DragonSwap {
  import opened Wrappers
  import opened Text
  import opened Chain
  import opened Metadata
  import opened Pools
  import opened Quotes
  import opened PathCodec

  /** The pool a quote or a single-hop swap reports. */
  datatype PoolRef = PoolRef(address: Address, fee: nat, tierName: string, liquidity: nat)

  function RefOf(pool: Pool): PoolRef
  {
    PoolRef(pool.address, pool.fee, pool.tierName, pool.liquidity)
  }

  /** A single-hop quote; amounts are in base units of their token. */
  datatype Quote = Quote(
    amountIn: nat,
    amountOut: nat,
    amountOutMin: int,
    tokenIn: TokenInfo,
    tokenOut: TokenInfo,
    pool: PoolRef,
    gasEstimate: nat,
    slippageBps: int,
    route: string)

  datatype MultiHopQuote = MultiHopQuote(
    amountIn: nat,
    amountOut: nat,
    amountOutMin: int,
    quotes: seq<Quote>,
    route: string,
    hops: nat,
    slippageBps: int)

  /** The router function a prepared transaction calls, with its arguments. */
  datatype RouterCall =
    | ExactInputSingle(tokenIn: Address, tokenOut: Address, fee: nat, recipient: Address, deadline: nat,
                       amountIn: nat, amountOutMinimum: nat, sqrtPriceLimitX96: nat)
    | ExactInput(path: string, recipient: Address, deadline: nat, amountIn: nat, amountOutMinimum: nat)

  /** What a prepared swap reports besides the call: its pool, or its tokens and route. */
  datatype SwapDetails =
    | SingleHop(pool: PoolRef, tokenIn: TokenInfo, tokenOut: TokenInfo)
    | MultiHop(route: string, tokens: seq<TokenInfo>)

  datatype SwapTx = SwapTx(to: Address, data: RouterCall, value: nat, gasLimit: nat, details: SwapDetails)

  /** A deadline that is absent or zero becomes twenty minutes after `nowMillis`, in seconds. */
  function Deadline(deadline: Option<nat>, nowMillis: nat): nat
  {
    if deadline.None? || deadline.value == 0 then nowMillis / 1000 + 60 * 20 else deadline.value
  }

  /** An empty recipient becomes the zero address. */
  function RecipientOrZero(recipient: Address): Address
  {
    if recipient == "" then ZeroAddress else recipient
  }

  function Symbols(tokens: seq<TokenInfo>): seq<string>
  {
    seq(|tokens|, i requires 0 <= i < |tokens| => tokens[i].symbol)
  }

  /** The route a multi-hop quote prints: each hop's input symbol, then the last output symbol. */
  function HopRoute(quotes: seq<Quote>): string
    requires |quotes| > 0
  {
    Join(seq(|quotes|, i requires 0 <= i < |quotes| => quotes[i].tokenIn.symbol), " → ") + " → " + quotes[|quotes| - 1].tokenOut.symbol
  }

  /** `q`'s pool is a discovered pool of the pair, active, and the quoter gives it exactly `q`'s output. */
  ghost predicate QuotedBy(chain: Provider, tokenIn: Address, tokenOut: Address, q: Quote)
  {
    exists p :: p in AllPools(chain, tokenIn, tokenOut) && q.pool == RefOf(p)
      && Quotable(chain, p, tokenIn, tokenOut, q.amountIn)
      && QuotedOut(chain, p, tokenIn, tokenOut, q.amountIn) == q.amountOut
      && chain.quoteExactInputSingle(tokenIn, tokenOut, q.amountIn, p.fee).value.gasEstimate == q.gasEstimate
  }

  /** The ranked list `findBestPool` returns has the pair's pools, so its best quote is the pair's. */
  lemma RankedPools(chain: Provider, tokenIn: Address, tokenOut: Address, amountIn: nat, pools: seq<Pool>)
    requires multiset(pools) == multiset(AllPools(chain, tokenIn, tokenOut))
    ensures |pools| == |AllPools(chain, tokenIn, tokenOut)|
    ensures MaxQuoted(chain, pools, tokenIn, tokenOut, amountIn) == BestAmountOut(chain, tokenIn, tokenOut, amountIn)
    ensures forall p :: p in pools ==> p in AllPools(chain, tokenIn, tokenOut)
  {
    assert |pools| == |multiset(pools)|;
    MaxQuotedPermutation(chain, pools, AllPools(chain, tokenIn, tokenOut), tokenIn, tokenOut, amountIn);
    forall p | p in pools ensures p in AllPools(chain, tokenIn, tokenOut) {
      assert p in multiset(pools);
    }
  }

  lemma ChosenPoolQuotes(chain: Provider, tokenIn: Address, tokenOut: Address, q: Quote, p: Pool, output: QuoterOutput)
    requires p in AllPools(chain, tokenIn, tokenOut) && p.active && q.pool == RefOf(p)
    requires chain.quoteExactInputSingle(tokenIn, tokenOut, q.amountIn, p.fee) == Done(output)
    requires q.amountOut == output.amountOut && q.gasEstimate == output.gasEstimate
    ensures QuotedBy(chain, tokenIn, tokenOut, q)
  {
  }

  /** No pool of the pair that quotes exactly `out` is more liquid than `ref`: ties go to liquidity. */
  ghost predicate MostLiquidAmongTied(chain: Provider, tokenIn: Address, tokenOut: Address, amountIn: nat, out: nat, ref: PoolRef)
  {
    forall p ::
      (p in AllPools(chain, tokenIn, tokenOut) && Quotable(chain, p, tokenIn, tokenOut, amountIn)
       && QuotedOut(chain, p, tokenIn, tokenOut, amountIn) == out) ==> p.liquidity <= ref.liquidity
  }

  /**
   * The first maximum of a scan over the liquidity-ranked pools is a most
   * liquid pool among those tied at that output: a tied pool ranked earlier
   * would have been kept instead.
   */
  lemma FirstMaximumMostLiquid(chain: Provider, tokenIn: Address, tokenOut: Address, amountIn: nat,
                               pools: seq<Pool>, index: nat, out: nat)
    requires multiset(pools) == multiset(AllPools(chain, tokenIn, tokenOut))
    requires SortedByLiquidity(pools)
    requires index < |pools|
    requires forall k :: 0 <= k < index && Quotable(chain, pools[k], tokenIn, tokenOut, amountIn) ==>
      QuotedOut(chain, pools[k], tokenIn, tokenOut, amountIn) < out
    ensures MostLiquidAmongTied(chain, tokenIn, tokenOut, amountIn, out, RefOf(pools[index]))
  {
    forall p | p in AllPools(chain, tokenIn, tokenOut) && Quotable(chain, p, tokenIn, tokenOut, amountIn)
                 && QuotedOut(chain, p, tokenIn, tokenOut, amountIn) == out
      ensures p.liquidity <= pools[index].liquidity
    {
      assert p in multiset(AllPools(chain, tokenIn, tokenOut));
      assert p in multiset(pools);
      var k :| 0 <= k < |pools| && pools[k] == p;
      // a tied pool ranked before `index` would contradict the scan's strict-before bound
      if k > index {
        assert pools[index].liquidity >= pools[k].liquidity;
      }
    }
  }

  /** What a successful quote of `amountIn` of `tokenIn` for `tokenOut` reports. */
  ghost predicate QuoteFor(chain: Provider, tokenIn: Address, tokenOut: Address, amountIn: nat, slippageBps: int,
                           infoIn: TokenInfo, infoOut: TokenInfo, q: Quote)
  {
    && BestAmountOut(chain, tokenIn, tokenOut, amountIn).Some?
    && q.amountIn == amountIn
    && q.amountOut == BestAmountOut(chain, tokenIn, tokenOut, amountIn).value
    && q.amountOutMin == AmountOutMin(q.amountOut, SlippageFactor(slippageBps))
    && q.tokenIn == infoIn && q.tokenOut == infoOut
    && QuotedBy(chain, tokenIn, tokenOut, q)
    && MostLiquidAmongTied(chain, tokenIn, tokenOut, amountIn, q.amountOut, q.pool)
    && q.slippageBps == slippageBps
    && q.route == infoIn.symbol + " → " + infoOut.symbol
  }

  /**
   * The chain-reading part of `getQuote`: rank the pair's pools, keep the
   * largest quoted output, and apply the slippage to it.
   */
  method QuotePair(chain: Provider, tokenIn: Address, tokenOut: Address, amountIn: nat, slippageBps: int,
                   infoIn: TokenInfo, infoOut: TokenInfo) returns (r: Result<Quote>)
    ensures r.Success? <==> BestAmountOut(chain, tokenIn, tokenOut, amountIn).Some?
    ensures |AllPools(chain, tokenIn, tokenOut)| == 0 ==>
      r == Failure("Quote failed: " + ("No liquidity pool found for " + infoIn.symbol + "/" + infoOut.symbol))
    ensures |AllPools(chain, tokenIn, tokenOut)| > 0 && r.Failure? ==> r.error == "Quote failed: " + "Failed to get quote from any pool"
    ensures r.Success? ==> QuoteFor(chain, tokenIn, tokenOut, amountIn, slippageBps, infoIn, infoOut, r.value)
  {
    var pools := FindBestPool(chain, tokenIn, tokenOut);
    RankedPools(chain, tokenIn, tokenOut, amountIn, pools);
    if |pools| == 0 {
      return Failure("Quote failed: " + ("No liquidity pool found for " + infoIn.symbol + "/" + infoOut.symbol));
    }
    var best := SelectBestQuote(chain, pools, tokenIn, tokenOut, amountIn);
    if best.None? {
      return Failure("Quote failed: " + "Failed to get quote from any pool");
    }
    var choice := best.value;
    var amountOut := choice.output.amountOut;
    var q := Quote(amountIn, amountOut, AmountOutMin(amountOut, SlippageFactor(slippageBps)), infoIn, infoOut,
                   RefOf(choice.pool), choice.output.gasEstimate, slippageBps, infoIn.symbol + " → " + infoOut.symbol);
    ChosenPoolQuotes(chain, tokenIn, tokenOut, q, choice.pool, choice.output);
    FirstMaximumMostLiquid(chain, tokenIn, tokenOut, amountIn, pools, choice.index, amountOut);
    return Success(q);
  }

  /**
   * The hop quotes of a multi-hop quote so far: hop `k` goes from token `k`
   * to token `k + 1` at zero slippage, the first starts from `amountIn`,
   * and each later one from its predecessor's output.
   */
  ghost predicate HopQuotes(chain: Provider, path: seq<Address>, amountIn: nat, quotes: seq<Quote>)
  {
    && |quotes| < |path|
    && (forall k :: 0 <= k < |quotes| ==>
          && quotes[k].tokenIn == Fetched(chain, path[k]) && quotes[k].tokenOut == Fetched(chain, path[k + 1])
          && quotes[k].amountOutMin == quotes[k].amountOut)
    && (|quotes| > 0 ==> quotes[0].amountIn == amountIn)
    && (forall k :: 0 < k < |quotes| ==> quotes[k].amountIn == quotes[k - 1].amountOut)
  }

  /** The amount the next hop starts from. */
  function Carried(amountIn: nat, quotes: seq<Quote>): nat
  {
    if |quotes| == 0 then amountIn else quotes[|quotes| - 1].amountOut
  }

  lemma HopQuotesSnoc(chain: Provider, path: seq<Address>, amountIn: nat, quotes: seq<Quote>, q: Quote)
    requires HopQuotes(chain, path, amountIn, quotes) && |quotes| + 1 < |path|
    requires q.tokenIn == Fetched(chain, path[|quotes|]) && q.tokenOut == Fetched(chain, path[|quotes| + 1])
    requires q.amountOutMin == q.amountOut && q.amountIn == Carried(amountIn, quotes)
    ensures HopQuotes(chain, path, amountIn, quotes + [q])
  {
  }

  /** `ref` reports a top-liquidity pool of the pair. */
  ghost predicate TopPoolRef(chain: Provider, tokenA: Address, tokenB: Address, ref: PoolRef)
  {
    exists p :: IsTopPool(chain, tokenA, tokenB, p) && RefOf(p) == ref
  }

  function Elements(s: seq<Address>): set<Address>
  {
    set a | a in s
  }

  /** Growing a prefix by one token adds that token to its elements. */
  lemma ElementsSnoc(keys: set<Address>, path: seq<Address>, i: nat)
    requires i < |path|
    ensures keys + Elements(path[..i + 1]) == (keys + Elements(path[..i])) + {path[i]}
  {
    assert path[..i + 1] == path[..i] + [path[i]];
    assert Elements(path[..i + 1]) == Elements(path[..i]) + {path[i]};
  }

  /** The metadata records of every token of `path`, in order. */
  function FetchedAll(chain: Provider, path: seq<Address>): (infos: seq<TokenInfo>)
    ensures |infos| == |path|
    ensures forall i :: 0 <= i < |path| ==> infos[i].address == path[i]
  {
    seq(|path|, i requires 0 <= i < |path| => Fetched(chain, path[i]))
  }

  /** Reading one more token appends its record. */
  lemma FetchedAllSnoc(chain: Provider, path: seq<Address>, i: nat)
    requires i < |path|
    ensures FetchedAll(chain, path[..i + 1]) == FetchedAll(chain, path[..i]) + [Fetched(chain, path[i])]
  {
    var a, b := FetchedAll(chain, path[..i + 1]), FetchedAll(chain, path[..i]) + [Fetched(chain, path[i])];
    assert forall k :: 0 <= k < i + 1 ==> a[k] == b[k];
  }

  /** The fees `pathWithFees` carries: for each hop, the fee of one of its top-liquidity pools. */
  ghost predicate HopFees(chain: Provider, path: seq<Address>, fees: seq<nat>)
  {
    && |fees| == |path| - 1
    && forall i :: 0 <= i < |fees| ==> TopFee(chain, path[i], path[i + 1], fees[i])
  }

  /** Some hop of the path, before position `end`, has no pool at all. */
  predicate SomeHopWithoutPool(chain: Provider, path: seq<Address>, end: nat)
    requires end < |path|
  {
    exists j :: 0 <= j < end && |AllPools(chain, path[j], path[j + 1])| == 0
  }

  /** Hop `j` is the first hop of the path without a pool. */
  predicate FirstHopWithoutPool(chain: Provider, path: seq<Address>, j: nat)
  {
    && j + 1 < |path|
    && |AllPools(chain, path[j], path[j + 1])| == 0
    && !SomeHopWithoutPool(chain, path, j)
  }

  lemma HopWithPool(chain: Provider, path: seq<Address>, i: nat)
    requires i + 1 < |path| && !SomeHopWithoutPool(chain, path, i) && |AllPools(chain, path[i], path[i + 1])| > 0
    ensures !SomeHopWithoutPool(chain, path, i + 1)
  {
  }

  lemma HopWithoutPool(chain: Provider, path: seq<Address>, i: nat)
    requires FirstHopWithoutPool(chain, path, i)
    ensures SomeHopWithoutPool(chain, path, |path| - 1)
  {
  }

  /**
   * The loop of `prepareMultiHopSwap` that builds `pathWithFees`: for each hop
   * the fee of its top pool, failing at the first hop that has no pool.
   */
  method BuildPathWithFees(chain: Provider, path: seq<Address>, infos: seq<TokenInfo>)
    returns (r: Result<seq<PathItem>>, ghost fees: seq<nat>)
    requires |path| >= 1 && |infos| == |path|
    ensures r.Failure? <==> SomeHopWithoutPool(chain, path, |path| - 1)
    ensures r.Failure? ==> exists j: nat :: (FirstHopWithoutPool(chain, path, j)
      && r.error == "No pool found for " + infos[j].symbol + " → " + infos[j + 1].symbol)
    ensures r.Success? ==> HopFees(chain, path, fees) && r.value == Interleave(path, fees)
  {
    var items: seq<PathItem> := [];
    fees := [];
    for i := 0 to |path| - 1
      invariant |fees| == i
      invariant items + [Token(path[i])] == Interleave(path[..i + 1], fees)
      invariant forall k :: 0 <= k < i ==> TopFee(chain, path[k], path[k + 1], fees[k])
      invariant !SomeHopWithoutPool(chain, path, i)
    {
      var top := TopPool(chain, path[i], path[i + 1]);
      if top.None? {
        assert FirstHopWithoutPool(chain, path, i);
        HopWithoutPool(chain, path, i);
        return Failure("No pool found for " + infos[i].symbol + " → " + infos[i + 1].symbol), fees;
      }
      HopWithPool(chain, path, i);
      TopPoolFee(chain, path[i], path[i + 1], top.value);
      var fee := top.value.fee;
      InterleaveStep(path, fees, fee, items);
      items := items + [Token(path[i]), Fee(fee)];
      fees := fees + [fee];
    }
    assert path[..|path|] == path;
    return Success(items + [Token(path[|path| - 1])]), fees;
  }

  class DragonSwapV2 {
    const chain: Provider
    const router: Address
    var tokenCache: map<Address, TokenInfo>

    /** Every cached record is what the chain's metadata reads yield. */
    ghost predicate Valid()
      reads this
    {
      CacheAgrees(chain, tokenCache)
    }

    constructor (chain: Provider, router: Address)
      ensures Valid()
      ensures this.chain == chain && this.router == router && tokenCache == map[]
    {
      this.chain := chain;
      this.router := router;
      tokenCache := map[];
    }

    /**
     * `getTokenInfo`: a cached address is answered from the cache; any other
     * is read once, and the record (degraded if the reads fail) is cached.
     */
    method GetTokenInfo(token: Address) returns (info: TokenInfo)
      requires Valid()
      modifies this
      ensures Valid()
      ensures info == Fetched(chain, token) && info.address == token
      ensures token in old(tokenCache) ==> info == old(tokenCache)[token] && tokenCache == old(tokenCache)
      ensures token !in old(tokenCache) ==> tokenCache == old(tokenCache)[token := info]
      ensures tokenCache.Keys == old(tokenCache).Keys + {token}
      ensures CacheExtends(old(tokenCache), tokenCache)
    {
      if token in tokenCache {
        info := tokenCache[token];
        return;
      }
      var decimals := chain.decimals(token);
      var symbol := chain.symbol(token);
      var name := chain.name(token);
      info := FetchInfo(token, decimals, symbol, name);
      tokenCache := tokenCache[token := info];
    }

    /**
     * `getQuote`: read both tokens' metadata, then quote the pair on the
     * chain; fails when the pair has no pool or no pool quotes.
     */
    method GetQuote(tokenIn: Address, tokenOut: Address, amountIn: nat, slippageBps: int) returns (r: Result<Quote>)
      requires Valid()
      modifies this
      ensures Valid()
      ensures tokenCache.Keys == old(tokenCache).Keys + {tokenIn, tokenOut}
      ensures CacheExtends(old(tokenCache), tokenCache)
      ensures r.Success? <==> BestAmountOut(chain, tokenIn, tokenOut, amountIn).Some?
      ensures r.Failure? ==> r.error == QuoteError(chain, tokenIn, tokenOut)
      ensures r.Success? ==> QuoteFor(chain, tokenIn, tokenOut, amountIn, slippageBps, Fetched(chain, tokenIn), Fetched(chain, tokenOut), r.value)
    {
      var infoIn := GetTokenInfo(tokenIn);
      ghost var between := tokenCache;
      var infoOut := GetTokenInfo(tokenOut);
      CacheExtendsTransitive(old(tokenCache), between, tokenCache);
      r := QuotePair(chain, tokenIn, tokenOut, amountIn, slippageBps, infoIn, infoOut);
    }

    /**
     * `getMultiHopQuote`: quote each hop at zero slippage, feeding each
     * hop's output into the next, then apply the slippage to the final output.
     */
    method GetMultiHopQuote(path: seq<Address>, amountIn: nat, slippageBps: int) returns (r: Result<MultiHopQuote>)
      requires Valid()
      modifies this
      ensures Valid()
      ensures old(tokenCache).Keys <= tokenCache.Keys <= old(tokenCache).Keys + Elements(path)
      ensures CacheExtends(old(tokenCache), tokenCache)
      ensures |path| < 2 ==> r == Failure("Path must have at least 2 tokens") && tokenCache == old(tokenCache)
      ensures |path| >= 2 ==> (r.Success? <==> ChainedQuote(chain, path, amountIn).Success?)
      ensures |path| >= 2 && r.Failure? ==> r.error == ChainedQuote(chain, path, amountIn).error
      ensures r.Success? ==>
        var m := r.value;
        && m.amountIn == amountIn
        && m.amountOut == ChainedQuote(chain, path, amountIn).value
        && m.amountOutMin == AmountOutMin(m.amountOut, SlippageFactor(slippageBps))
        && m.hops == |path| - 1 == |m.quotes|
        && HopQuotes(chain, path, amountIn, m.quotes)
        && m.amountOut == Carried(amountIn, m.quotes)
        && m.route == HopRoute(m.quotes)
        && m.slippageBps == slippageBps
    {
      if |path| < 2 {
        return Failure("Path must have at least 2 tokens");
      }
      var quotes: seq<Quote> := [];
      var current := amountIn;
      for i := 0 to |path| - 1
        invariant Valid()
        invariant old(tokenCache).Keys <= tokenCache.Keys <= old(tokenCache).Keys + Elements(path)
        invariant CacheExtends(old(tokenCache), tokenCache)
        invariant |quotes| == i
        invariant HopQuotes(chain, path, amountIn, quotes)
        invariant current == Carried(amountIn, quotes)
        invariant ChainedQuote(chain, path, amountIn) == ChainedQuote(chain, path[i..], current)
      {
        ghost var before := tokenCache;
        var q := GetQuote(path[i], path[i + 1], current, 0);
        CacheExtendsTransitive(old(tokenCache), before, tokenCache);
        ChainedStep(chain, path, i, current);
        if q.Failure? {
          return Failure(q.error);
        }
        AmountOutMinBounds(q.value.amountOut, 10000);
        HopQuotesSnoc(chain, path, amountIn, quotes, q.value);
        quotes := quotes + [q.value];
        current := q.value.amountOut;
      }
      assert |path[|path| - 1..]| == 1;
      return Success(MultiHopQuote(amountIn, current, AmountOutMin(current, SlippageFactor(slippageBps)), quotes,
                                   HopRoute(quotes), |path| - 1, slippageBps));
    }

    /**
     * `prepareSwap`: an `exactInputSingle` call through the pair's
     * top-liquidity pool, sending no native value, with a fixed gas limit.
     */
    method PrepareSwap(tokenIn: Address, tokenOut: Address, amountIn: nat, amountOutMin: nat, recipient: Address,
                       deadline: Option<nat>, nowMillis: nat) returns (r: Result<SwapTx>)
      requires Valid()
      modifies this
      ensures Valid()
      ensures tokenCache.Keys == old(tokenCache).Keys + {tokenIn, tokenOut}
      ensures CacheExtends(old(tokenCache), tokenCache)
      ensures r.Failure? <==> |AllPools(chain, tokenIn, tokenOut)| == 0
      ensures r.Failure? ==> r.error == "Failed to prepare swap: No liquidity pool found for "
                                        + Fetched(chain, tokenIn).symbol + "/" + Fetched(chain, tokenOut).symbol
      ensures r.Success? ==>
        && r.value.to == router && r.value.value == 0 && r.value.gasLimit == 300000
        && r.value.details.SingleHop?
        && r.value.details.tokenIn == Fetched(chain, tokenIn) && r.value.details.tokenOut == Fetched(chain, tokenOut)
        && TopPoolRef(chain, tokenIn, tokenOut, r.value.details.pool)
        && r.value.data == ExactInputSingle(tokenIn, tokenOut, r.value.details.pool.fee, RecipientOrZero(recipient),
                                            Deadline(deadline, nowMillis), amountIn, amountOutMin, 0)
    {
      var infoIn := GetTokenInfo(tokenIn);
      ghost var between := tokenCache;
      var infoOut := GetTokenInfo(tokenOut);
      CacheExtendsTransitive(old(tokenCache), between, tokenCache);
      var top := TopPool(chain, tokenIn, tokenOut);
      if top.None? {
        return Failure("Failed to prepare swap: No liquidity pool found for " + infoIn.symbol + "/" + infoOut.symbol);
      }
      var best := top.value;
      assert TopPoolRef(chain, tokenIn, tokenOut, RefOf(best));
      var call := ExactInputSingle(tokenIn, tokenOut, best.fee, RecipientOrZero(recipient), Deadline(deadline, nowMillis),
                                   amountIn, amountOutMin, 0);
      return Success(SwapTx(router, call, 0, 300000, SingleHop(RefOf(best), infoIn, infoOut)));
    }
  
    /** `Promise.all(path.map(getTokenInfo))`: the records of every token of `path`, in order. */
    method GetTokenInfos(path: seq<Address>) returns (infos: seq<TokenInfo>)
      requires Valid()
      modifies this
      ensures Valid()
      ensures infos == FetchedAll(chain, path)
      ensures tokenCache.Keys == old(tokenCache).Keys + Elements(path)
      ensures CacheExtends(old(tokenCache), tokenCache)
    {
      infos := [];
      for i := 0 to |path|
        invariant Valid()
        invariant infos == FetchedAll(chain, path[..i])
        invariant tokenCache.Keys == old(tokenCache).Keys + Elements(path[..i])
        invariant CacheExtends(old(tokenCache), tokenCache)
      {
        ghost var before := tokenCache;
        var info := GetTokenInfo(path[i]);
        CacheExtendsTransitive(old(tokenCache), before, tokenCache);
        ElementsSnoc(old(tokenCache).Keys, path, i);
        FetchedAllSnoc(chain, path, i);
        infos := infos + [info];
      }
      assert path[..|path|] == path;
    }

    /**
     * `prepareMultiHopSwap`: read every token's metadata, take each hop's
     * top-pool fee, and encode an `exactInput` call along the packed path.
     */
    method PrepareMultiHopSwap(path: seq<Address>, amountIn: nat, amountOutMin: nat, recipient: Address,
                               deadline: Option<nat>, nowMillis: nat) returns (r: Result<SwapTx>, ghost fees: seq<nat>)
      requires Valid()
      modifies this
      ensures Valid()
      ensures |path| < 2 ==> r == Failure("Path must have at least 2 tokens") && tokenCache == old(tokenCache)
      ensures |path| >= 2 ==> tokenCache.Keys == old(tokenCache).Keys + Elements(path)
      ensures CacheExtends(old(tokenCache), tokenCache)
      ensures |path| >= 2 ==> (r.Failure? <==> SomeHopWithoutPool(chain, path, |path| - 1))
      ensures |path| >= 2 && r.Failure? ==> exists j: nat :: (FirstHopWithoutPool(chain, path, j)
        && r.error == "No pool found for " + Fetched(chain, path[j]).symbol + " → " + Fetched(chain, path[j + 1]).symbol)
      ensures r.Success? ==>
        && HopFees(chain, path, fees)
        && r.value.to == router && r.value.value == 0 && r.value.gasLimit == 150000 * |path|
        && r.value.data == ExactInput("0x" + Body(Interleave(path, fees)), RecipientOrZero(recipient),
                                      Deadline(deadline, nowMillis), amountIn, amountOutMin)
        && r.value.details == MultiHop(Join(Symbols(FetchedAll(chain, path)), " → "), FetchedAll(chain, path))
    {
      fees := [];
      if |path| < 2 {
        return Failure("Path must have at least 2 tokens"), fees;
      }
      var infos := GetTokenInfos(path);
      var built;
      built, fees := BuildPathWithFees(chain, path, infos);
      if built.Failure? {
        return Failure(built.error), fees;
      }
      InterleaveEncodable(path, fees);
      var encoded := EncodePath(built.value);
      var call := ExactInput(encoded.value, RecipientOrZero(recipient), Deadline(deadline, nowMillis), amountIn, amountOutMin);
      return Success(SwapTx(router, call, 0, 150000 * |path|, MultiHop(Join(Symbols(infos), " → "), infos))), fees;
    }
  }

  /**
   * When every token of the path is a full-length address, the packed path
   * of a prepared multi-hop swap decodes back to the tokens and hop fees.
   */
  lemma MultiHopPathDecodes(chain: Provider, path: seq<Address>, fees: seq<nat>)
    requires |path| >= 2 && HopFees(chain, path, fees)
    requires forall i :: 0 <= i < |path| ==> WellFormedAddress(path[i])
    ensures DecodePath("0x" + Body(Interleave(path, fees))) == Some(Interleave(path, fees))
  {
    forall i | 0 <= i < |fees| ensures fees[i] < 0x100_0000 {
      TopFeeIsTierFee(chain, path[i], path[i + 1], fees[i]);
    }
    InterleaveCanonical(path, fees);
    EncodeDecodeRoundTrip(Interleave(path, fees));
  }
}
