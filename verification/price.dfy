/**
 * The `getTokenPrice` handler: the price of one whole token in units of a
 * base token, quoted on the pair's pools, and through WSEI when the pair
 * cannot be quoted and neither side is WSEI.
 */
module Price {
  import opened Wrappers
  import opened Text
  import opened Chain
  import opened Pools
  import opened Quotes
  import opened DragonSwap
  import opened Tokens

  /** Where a price comes from: a pool of the pair, with its liquidity, or the two hops through WSEI. */
  datatype PriceSource =
    | PairPool(pool: Option<PoolRef>, liquidity: Option<nat>)
    | ViaWsei

  /** The report: the token's symbol and address, the base token as given, and the price in base units. */
  datatype PriceReport = PriceReport(token: string, tokenAddress: Address, baseToken: string, price: nat, source: PriceSource)

  const PriceErrorPrefix: string := "Error getting token price: "

  /** The handler quotes at 0.5% slippage. */
  const PriceSlippageBps: int := 50

  /**
   * The pool part of a direct report as written: the handler reads
   * `quote.bestPool` and `quote.liquidity`, which a quote does not have, so
   * both are undefined and left out of the report.
   */
  function PairSourceAsWritten(q: Quote): (s: PriceSource)
    ensures s.PairPool? && s.pool.None? && s.liquidity.None?
  {
    PairPool(None, None)
  }

  /** The pool part of a direct report as intended: the quote's pool and that pool's liquidity. */
  function PairSource(q: Quote): (s: PriceSource)
    ensures s.PairPool? && s.pool == Some(q.pool) && s.liquidity == Some(q.pool.liquidity)
  {
    PairPool(Some(q.pool), Some(q.pool.liquidity))
  }

  /** The report as written never names the pool that gave the price; the intended one always does. */
  lemma PoolDropped(q: Quote)
    ensures PairSourceAsWritten(q).pool.None? && PairSourceAsWritten(q).liquidity.None?
    ensures PairSource(q).pool.Some? && PairSourceAsWritten(q) != PairSource(q)
  {
  }

  /** `source` names a discovered pool of the pair whose quote for `amountIn` is `price`, and its liquidity. */
  ghost predicate PoolQuoted(chain: Provider, t: Address, b: Address, amountIn: nat, price: nat, source: PriceSource)
  {
    && source.PairPool? && source.pool.Some? && source.liquidity == Some(source.pool.value.liquidity)
    && exists p :: p in AllPools(chain, t, b) && source.pool.value == RefOf(p)
         && Quotable(chain, p, t, b, amountIn) && QuotedOut(chain, p, t, b, amountIn) == price
  }

  /** One whole token in base units, once its `decimals()` read succeeded. */
  function OneToken(chain: Provider, t: Address): nat
    requires chain.decimals(t).Done?
  {
    Pow(10, chain.decimals(t).value)
  }

  /**
   * The answer for the resolved token `t` and base token `b`: a failing
   * `symbol()` or `decimals()` read is an error; otherwise one whole token
   * is quoted on the pair's best pool; a pair that cannot be quoted is an
   * error when either side is WSEI, and is quoted through WSEI otherwise.
   */
  ghost predicate Priced(chain: Provider, t: Address, b: Address, baseToken: string, r: Result<PriceReport>)
  {
    if chain.symbol(t).Threw? then r == Failure(PriceErrorPrefix + chain.symbol(t).message)
    else if chain.decimals(t).Threw? then r == Failure(PriceErrorPrefix + chain.decimals(t).message)
    else
      var one := OneToken(chain, t);
      match BestAmountOut(chain, t, b, one)
      case Some(out) =>
        && r.Success? && r.value.token == chain.symbol(t).value && r.value.tokenAddress == t
        && r.value.baseToken == baseToken && r.value.price == out
        && PoolQuoted(chain, t, b, one, out, r.value.source)
      case None =>
        if t == WSEI || b == WSEI then r == Failure(PriceErrorPrefix + QuoteError(chain, t, b))
        else match ChainedQuote(chain, [t, WSEI, b], one)
          case Success(out) => r == Success(PriceReport(chain.symbol(t).value, t, baseToken, out, ViaWsei))
          case Failure(e) => r == Failure(PriceErrorPrefix + e)
  }

  /**
   * `getTokenPrice`: resolve both tokens, read the token's symbol and
   * decimals, quote one whole token on the pair, and fall back to the route
   * through WSEI. Every failure is reported with the handler's prefix.
   */
  method GetTokenPrice(ds: DragonSwapV2, table: seq<TokenConfig>, token: string, baseToken: string)
    returns (r: Result<PriceReport>)
    requires ds.Valid()
    modifies ds
    ensures ds.Valid()
    ensures Resolve(table, token).Failure? ==> r == Failure(PriceErrorPrefix + Resolve(table, token).error)
    ensures Resolve(table, token).Success? && Resolve(table, baseToken).Failure? ==>
      r == Failure(PriceErrorPrefix + Resolve(table, baseToken).error)
    ensures Resolve(table, token).Success? && Resolve(table, baseToken).Success? ==>
      Priced(ds.chain, Resolve(table, token).value, Resolve(table, baseToken).value, baseToken, r)
  {
    var t := Resolve(table, token);
    if t.Failure? {
      return Failure(PriceErrorPrefix + t.error);
    }
    var b := Resolve(table, baseToken);
    if b.Failure? {
      return Failure(PriceErrorPrefix + b.error);
    }
    var symbol := ds.chain.symbol(t.value);
    if symbol.Threw? {
      return Failure(PriceErrorPrefix + symbol.message);
    }
    var decimals := ds.chain.decimals(t.value);
    if decimals.Threw? {
      return Failure(PriceErrorPrefix + decimals.message);
    }
    var one := Pow(10, decimals.value);
    var q := ds.GetQuote(t.value, b.value, one, PriceSlippageBps);
    if q.Success? {
      return Success(PriceReport(symbol.value, t.value, baseToken, q.value.amountOut, PairSource(q.value)));
    }
    if t.value == WSEI || b.value == WSEI {
      return Failure(PriceErrorPrefix + q.error);
    }
    var m := ds.GetMultiHopQuote([t.value, WSEI, b.value], one, PriceSlippageBps);
    if m.Failure? {
      return Failure(PriceErrorPrefix + m.error);
    }
    return Success(PriceReport(symbol.value, t.value, baseToken, m.value.amountOut, ViaWsei));
  }

  /**
   * The fallback's price is the two legs' quotes chained: one token of `t`
   * quoted for WSEI, and that much WSEI quoted for `b`; the first leg that
   * cannot be quoted gives the error.
   */
  lemma {:induction false} ViaWseiLegs(chain: Provider, t: Address, b: Address, amountIn: nat)
    ensures BestAmountOut(chain, t, WSEI, amountIn).None? ==>
      ChainedQuote(chain, [t, WSEI, b], amountIn) == Failure(QuoteError(chain, t, WSEI))
    ensures BestAmountOut(chain, t, WSEI, amountIn).Some? ==>
      var mid := BestAmountOut(chain, t, WSEI, amountIn).value;
      ChainedQuote(chain, [t, WSEI, b], amountIn) ==
        (match BestAmountOut(chain, WSEI, b, mid)
         case None => Failure(QuoteError(chain, WSEI, b))
         case Some(out) => Success(out))
  {
    var path := [t, WSEI, b];
    assert path[1..] == [WSEI, b] && path[1..][1..] == [b];
    if BestAmountOut(chain, t, WSEI, amountIn).Some? {
      var mid := BestAmountOut(chain, t, WSEI, amountIn).value;
      assert ChainedQuote(chain, path, amountIn) == ChainedQuote(chain, [WSEI, b], mid);
      if BestAmountOut(chain, WSEI, b, mid).Some? {
        var out := BestAmountOut(chain, WSEI, b, mid).value;
        assert ChainedQuote(chain, [WSEI, b], mid) == ChainedQuote(chain, [b], out);
      }
    }
  }

  /** With WSEI on either side there is no fallback: a price always comes from a pool of the pair. */
  lemma NoFallbackThroughWsei(chain: Provider, t: Address, b: Address, baseToken: string, r: Result<PriceReport>)
    requires t == WSEI || b == WSEI
    requires Priced(chain, t, b, baseToken, r)
    ensures r.Success? ==> r.value.source.PairPool?
  {
  }
}
