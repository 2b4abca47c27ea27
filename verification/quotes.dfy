/**
 * Quote selection: among the active pools of a pair, keep the largest
 * output the quoter simulates, and derive the minimum output a swap may
 * accept at a given slippage.
 */
module Quotes {
  import opened Wrappers
  import opened Chain
  import opened Pools
  import opened Metadata

  /**
   * `Math.floor((1 - s / 100) * 10000)` for a slippage of `s` percent, with the
   * slippage given in basis points (hundredths of a percent).
   */
  function SlippageFactor(slippageBps: int): int
  {
    10000 - slippageBps
  }

  /** `amountOut.mul(factor).div(10000)`; BigNumber division truncates toward zero. */
  function AmountOutMin(amountOut: nat, factor: int): (r: int)
    ensures amountOut * factor >= 0 ==> 0 <= r && r * 10000 <= amountOut * factor < (r + 1) * 10000
    ensures amountOut * factor < 0 ==> r <= 0 && (r - 1) * 10000 < amountOut * factor <= r * 10000
  {
    var product := amountOut * factor;
    if product >= 0 then product / 10000 else -((-product) / 10000)
  }

  lemma MulMonotone(a: nat, x: int, y: int)
    requires x <= y
    ensures a * x <= a * y
  {
  }

  /** For a factor in [0, 10000] the minimum lies in [0, amountOut], and meets amountOut only at factor 10000 (or for a zero amount). */
  lemma AmountOutMinBounds(amountOut: nat, factor: int)
    requires 0 <= factor <= 10000
    ensures 0 <= AmountOutMin(amountOut, factor) <= amountOut
    ensures AmountOutMin(amountOut, factor) == amountOut <==> (factor == 10000 || amountOut == 0)
  {
    var product := amountOut * factor;
    MulMonotone(amountOut, 0, factor);
    MulMonotone(amountOut, factor, 10000);
    assert 0 <= product <= amountOut * 10000;
    if factor < 10000 && amountOut > 0 {
      MulMonotone(amountOut, factor, 9999);
      assert product <= amountOut * 10000 - amountOut;
      assert product / 10000 < amountOut;
    }
  }

  lemma TruncatedDivMonotone(p: int, q: int)
    requires p <= q
    ensures (if p >= 0 then p / 10000 else -((-p) / 10000)) <= (if q >= 0 then q / 10000 else -((-q) / 10000))
  {
  }

  /** A larger factor (a smaller slippage) never lowers the minimum output. */
  lemma {:induction false} AmountOutMinMonotone(amountOut: nat, f1: int, f2: int)
    requires f1 <= f2
    ensures AmountOutMin(amountOut, f1) <= AmountOutMin(amountOut, f2)
  {
    MulMonotone(amountOut, f1, f2);
    TruncatedDivMonotone(amountOut * f1, amountOut * f2);
  }

  /** Zero slippage keeps the full output; 0.5% of 1,000,000 leaves 995,000. */
  lemma AmountOutMinExamples()
    ensures AmountOutMin(1000000, SlippageFactor(50)) == 995000
    ensures forall a: nat :: AmountOutMin(a, SlippageFactor(0)) == a
  {
  }

  /** A pool the quote loop takes a result from: active, and its quoter call returns. */
  predicate Quotable(chain: Provider, pool: Pool, tokenIn: Address, tokenOut: Address, amountIn: nat)
  {
    pool.active && chain.quoteExactInputSingle(tokenIn, tokenOut, amountIn, pool.fee).Done?
  }

  function QuotedOut(chain: Provider, pool: Pool, tokenIn: Address, tokenOut: Address, amountIn: nat): nat
    requires Quotable(chain, pool, tokenIn, tokenOut, amountIn)
  {
    chain.quoteExactInputSingle(tokenIn, tokenOut, amountIn, pool.fee).value.amountOut
  }

  /** The largest quoted output among the quotable pools, independent of their order. */
  function MaxQuoted(chain: Provider, pools: seq<Pool>, tokenIn: Address, tokenOut: Address, amountIn: nat): (best: Option<nat>)
    ensures best.None? <==> forall p :: p in pools ==> !Quotable(chain, p, tokenIn, tokenOut, amountIn)
    ensures best.Some? ==> exists p :: p in pools && Quotable(chain, p, tokenIn, tokenOut, amountIn)
                                       && QuotedOut(chain, p, tokenIn, tokenOut, amountIn) == best.value
    ensures best.Some? ==> forall p :: p in pools && Quotable(chain, p, tokenIn, tokenOut, amountIn) ==>
                                       QuotedOut(chain, p, tokenIn, tokenOut, amountIn) <= best.value
    decreases |pools|
  {
    if pools == [] then None
    else
      var rest := MaxQuoted(chain, pools[1..], tokenIn, tokenOut, amountIn);
      assert forall p :: p in pools ==> p == pools[0] || p in pools[1..];
      if !Quotable(chain, pools[0], tokenIn, tokenOut, amountIn) then rest
      else if rest.Some? && rest.value >= QuotedOut(chain, pools[0], tokenIn, tokenOut, amountIn) then rest
      else Some(QuotedOut(chain, pools[0], tokenIn, tokenOut, amountIn))
  }

  /** The output a single-hop quote for the pair reports, if any pool quotes. */
  function BestAmountOut(chain: Provider, tokenIn: Address, tokenOut: Address, amountIn: nat): Option<nat>
  {
    MaxQuoted(chain, AllPools(chain, tokenIn, tokenOut), tokenIn, tokenOut, amountIn)
  }

  /** A value attained by a quotable pool and bounding all of them is the maximum. */
  lemma MaxQuotedUnique(chain: Provider, pools: seq<Pool>, tokenIn: Address, tokenOut: Address, amountIn: nat, p: Pool)
    requires p in pools && Quotable(chain, p, tokenIn, tokenOut, amountIn)
    requires forall q :: q in pools && Quotable(chain, q, tokenIn, tokenOut, amountIn) ==>
      QuotedOut(chain, q, tokenIn, tokenOut, amountIn) <= QuotedOut(chain, p, tokenIn, tokenOut, amountIn)
    ensures MaxQuoted(chain, pools, tokenIn, tokenOut, amountIn) == Some(QuotedOut(chain, p, tokenIn, tokenOut, amountIn))
  {
  }

  /** The maximum does not depend on the order in which the pools are listed. */
  lemma MaxQuotedPermutation(chain: Provider, s: seq<Pool>, t: seq<Pool>, tokenIn: Address, tokenOut: Address, amountIn: nat)
    requires multiset(s) == multiset(t)
    ensures MaxQuoted(chain, s, tokenIn, tokenOut, amountIn) == MaxQuoted(chain, t, tokenIn, tokenOut, amountIn)
  {
    forall p ensures p in s <==> p in t {
      assert p in s <==> p in multiset(s);
      assert p in t <==> p in multiset(t);
    }
    var m := MaxQuoted(chain, s, tokenIn, tokenOut, amountIn);
    if m.Some? {
      var p :| p in s && Quotable(chain, p, tokenIn, tokenOut, amountIn) && QuotedOut(chain, p, tokenIn, tokenOut, amountIn) == m.value;
      MaxQuotedUnique(chain, t, tokenIn, tokenOut, amountIn, p);
    }
  }

  /** The error a single-hop quote of the pair raises when no pool quotes, wrapped as "Quote failed: ...". */
  function QuoteError(chain: Provider, tokenIn: Address, tokenOut: Address): (e: string)
    ensures |e| > 14 && e[..14] == "Quote failed: "
    ensures |AllPools(chain, tokenIn, tokenOut)| == 0 <==> e[14..] != "Failed to get quote from any pool"
  {
    "Quote failed: " +
      (if |AllPools(chain, tokenIn, tokenOut)| == 0 then
         var reason := "No liquidity pool found for " + Fetched(chain, tokenIn).symbol + "/" + Fetched(chain, tokenOut).symbol;
         assert reason[0] == 'N';
         reason
       else "Failed to get quote from any pool")
  }

  /**
   * A path quoted hop by hop, each hop at its best pool and fed the previous
   * hop's output; the first hop that cannot be quoted decides the error.
   */
  function ChainedQuote(chain: Provider, path: seq<Address>, amountIn: nat): (r: Result<nat>)
    ensures r.Failure? ==> exists i :: 0 <= i < |path| - 1 && r.error == QuoteError(chain, path[i], path[i + 1])
    decreases |path|
  {
    if |path| < 2 then Success(amountIn)
    else match BestAmountOut(chain, path[0], path[1], amountIn)
      case None => Failure(QuoteError(chain, path[0], path[1]))
      case Some(out) =>
        var rest := ChainedQuote(chain, path[1..], out);
        if rest.Failure? then
          ghost var i :| 0 <= i < |path[1..]| - 1 && rest.error == QuoteError(chain, path[1..][i], path[1..][i + 1]);
          assert path[1..][i] == path[i + 1] && path[1..][i + 1] == path[i + 2];
          rest
        else rest
  }

  /** One hop of a chained quote: the rest of the path is quoted from this hop's output. */
  lemma ChainedStep(chain: Provider, path: seq<Address>, i: nat, amountIn: nat)
    requires i + 1 < |path|
    ensures ChainedQuote(chain, path[i..], amountIn) ==
      match BestAmountOut(chain, path[i], path[i + 1], amountIn)
      case None => Failure(QuoteError(chain, path[i], path[i + 1]))
      case Some(out) => ChainedQuote(chain, path[i + 1..], out)
  {
    assert path[i..][0] == path[i] && path[i..][1] == path[i + 1];
    assert path[i..][1..] == path[i + 1..];
  }

  /** Quoting a path in two legs that share token `k` gives the same result as quoting it whole. */
  lemma {:induction false} ChainedSplit(chain: Provider, path: seq<Address>, k: nat, amountIn: nat)
    requires k < |path|
    ensures ChainedQuote(chain, path, amountIn) ==
      match ChainedQuote(chain, path[..k + 1], amountIn)
      case Failure(e) => Failure(e)
      case Success(mid) => ChainedQuote(chain, path[k..], mid)
    decreases k
  {
    if k == 0 {
      assert path[0..] == path;
    } else {
      assert path[..k + 1][0] == path[0] && path[..k + 1][1] == path[1];
      assert path[..k + 1][1..] == path[1..][..k];
      assert path[1..][k - 1..] == path[k..];
      match BestAmountOut(chain, path[0], path[1], amountIn)
      case None =>
      case Some(out) =>
        ChainedSplit(chain, path[1..], k - 1, out);
    }
  }

  datatype Choice = Choice(index: nat, pool: Pool, output: QuoterOutput)

  /**
   * The quote loop: skip inactive pools and pools whose quoter call throws,
   * and replace the kept result only by a strictly larger output, so the
   * first maximum in pool order wins.
   */
  method SelectBestQuote(chain: Provider, pools: seq<Pool>, tokenIn: Address, tokenOut: Address, amountIn: nat)
    returns (best: Option<Choice>)
    ensures best.None? <==> forall k :: 0 <= k < |pools| ==> !Quotable(chain, pools[k], tokenIn, tokenOut, amountIn)
    ensures best.Some? ==>
      && best.value.index < |pools|
      && best.value.pool == pools[best.value.index]
      && best.value.pool.active
      && chain.quoteExactInputSingle(tokenIn, tokenOut, amountIn, best.value.pool.fee) == Done(best.value.output)
    ensures best.Some? ==> forall k :: 0 <= k < |pools| && Quotable(chain, pools[k], tokenIn, tokenOut, amountIn) ==>
      QuotedOut(chain, pools[k], tokenIn, tokenOut, amountIn) <= best.value.output.amountOut
    ensures best.Some? ==> forall k :: 0 <= k < best.value.index && Quotable(chain, pools[k], tokenIn, tokenOut, amountIn) ==>
      QuotedOut(chain, pools[k], tokenIn, tokenOut, amountIn) < best.value.output.amountOut
    ensures best.None? <==> MaxQuoted(chain, pools, tokenIn, tokenOut, amountIn).None?
    ensures best.Some? ==> MaxQuoted(chain, pools, tokenIn, tokenOut, amountIn) == Some(best.value.output.amountOut)
  {
    best := None;
    for i := 0 to |pools|
      invariant best.None? <==> forall k :: 0 <= k < i ==> !Quotable(chain, pools[k], tokenIn, tokenOut, amountIn)
      invariant best.Some? ==>
        && best.value.index < i
        && best.value.pool == pools[best.value.index]
        && best.value.pool.active
        && chain.quoteExactInputSingle(tokenIn, tokenOut, amountIn, best.value.pool.fee) == Done(best.value.output)
      invariant best.Some? ==> forall k :: 0 <= k < i && Quotable(chain, pools[k], tokenIn, tokenOut, amountIn) ==>
        QuotedOut(chain, pools[k], tokenIn, tokenOut, amountIn) <= best.value.output.amountOut
      invariant best.Some? ==> forall k :: 0 <= k < best.value.index && Quotable(chain, pools[k], tokenIn, tokenOut, amountIn) ==>
        QuotedOut(chain, pools[k], tokenIn, tokenOut, amountIn) < best.value.output.amountOut
    {
      var pool := pools[i];
      if !pool.active {
        continue;
      }
      var result := chain.quoteExactInputSingle(tokenIn, tokenOut, amountIn, pool.fee);
      if result.Threw? {
        continue;
      }
      if best.None? || result.value.amountOut > best.value.output.amountOut {
        best := Some(Choice(i, pool, result.value));
      }
    }
    if best.Some? {
      MaxQuotedUnique(chain, pools, tokenIn, tokenOut, amountIn, best.value.pool);
    }
  }
}
