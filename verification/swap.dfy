/**
 * The `executeSwap` controller: native SEI wrapping, route choice, token
 * approval and the slippage ladder that retries a failed swap.
 */
module Swap {
  import opened Wrappers
  import opened Text
  import opened Chain
  import opened Metadata
  import opened Pools
  import opened Quotes
  import opened PathCodec
  import opened DragonSwap
  import opened Tokens

  /**
   * The arguments of `executeSwap`. Amounts are in base units of their
   * token and slippage is in basis points; None stands for an argument that
   * is omitted or empty.
   */
  datatype SwapRequest = SwapRequest(
    tokenIn: Option<string>,
    tokenOut: Option<string>,
    path: Option<seq<string>>,
    amountIn: nat,
    amountOutMin: Option<nat>,
    slippageBps: Option<int>,
    recipient: Option<Address>,
    deadline: Option<nat>)

  datatype Receipt = Receipt(status: nat, hash: string)

  /**
   * The configured wallet and what the network answers to it: its native
   * balance, the wrap deposit, and for attempt `k` of the ladder the
   * allowance read, the approval and the swap transaction.
   */
  datatype Wallet = Wallet(
    address: Address,
    balance: Call<nat>,
    deposit: Call<string>,
    allowance: (nat, Address, Address) -> Call<nat>,
    approve: nat -> Call<string>,
    send: nat -> Call<Receipt>)

  /** A transaction the controller sends from the wallet. */
  datatype WalletCall =
    | Deposit(amount: nat)
    | Approve(token: Address, spender: Address, amount: nat)
    | Send(tx: SwapTx)

  /** An entry of the `transactions` log the success result reports. */
  datatype LogEntry = Wrap(hash: string) | Approval(hash: string) | SwapDone(hash: string)

  datatype SwapKind = NativeSwap | MultiHopSwap | DirectSwap

  /** One pass through the ladder: its slippage and, when it failed, the error. */
  datatype Attempt = Attempt(slippageBps: int, error: Option<string>)

  datatype SwapOutcome =
    | Swapped(hash: string, transactions: seq<LogEntry>, slippageUsed: int, amountOutMin: int, kind: SwapKind)
    | WrappedOnly(wrapHash: Option<string>, transactions: seq<LogEntry>)
    | SwapError(message: string)

  /** 0.1 SEI in wei, kept back for gas when wrapping. */
  const GasReserve: nat := 100_000_000_000_000_000

  /** One SEI in wei. */
  const Ether: nat := 1_000_000_000_000_000_000

  const MaxUint256: nat := 0xffff_ffff_ffff_ffff_ffff_ffff_ffff_ffff_ffff_ffff_ffff_ffff_ffff_ffff_ffff_ffff

  const ErrorPrefix := "Error executing swap: "
  const NotConfigured := "Wallet not configured for executing swaps"
  const NoRoute := "Either provide tokenIn/tokenOut or a path array"

  /** The error ABI encoding raises for a negative `uint256`. */
  const OutOfBounds := "value out-of-bounds"

  /** `slippage ? [slippage] : [1, 2]`: a given non-zero slippage alone, else 1% then 2%. */
  function Ladder(slippageBps: Option<int>): (ladder: seq<int>)
    ensures 1 <= |ladder| <= 2
    ensures |ladder| == 1 <==> slippageBps.Some? && slippageBps.value != 0
    ensures |ladder| == 1 ==> ladder[0] == slippageBps.value
    ensures |ladder| == 2 ==> ladder == [100, 200]
  {
    if slippageBps.Some? && slippageBps.value != 0 then [slippageBps.value] else [100, 200]
  }

  /** Whether an attempt's error lets the ladder go on, by substring. */
  predicate IsRetryable(message: string)
  {
    Contains(message, "failed") || Contains(message, "slippage") || Contains(message, "INSUFFICIENT_OUTPUT_AMOUNT")
  }

  /**
   * The retry test as an occurrence: a message is retried exactly when
   * "failed", "slippage" or "INSUFFICIENT_OUTPUT_AMOUNT" occurs somewhere in it.
   */
  lemma RetryableIffOccurs(message: string)
    ensures IsRetryable(message) <==>
      exists i: nat :: OccursAt(message, "failed", i) || OccursAt(message, "slippage", i)
                    || OccursAt(message, "INSUFFICIENT_OUTPUT_AMOUNT", i)
  {
    if IsRetryable(message) {
      if Contains(message, "failed") {
        ContainsFound(message, "failed");
      } else if Contains(message, "slippage") {
        ContainsFound(message, "slippage");
      } else {
        ContainsFound(message, "INSUFFICIENT_OUTPUT_AMOUNT");
      }
    }
    if exists i: nat :: OccursAt(message, "failed", i) || OccursAt(message, "slippage", i)
                     || OccursAt(message, "INSUFFICIENT_OUTPUT_AMOUNT", i) {
      var i: nat :| OccursAt(message, "failed", i) || OccursAt(message, "slippage", i)
                   || OccursAt(message, "INSUFFICIENT_OUTPUT_AMOUNT", i);
      if OccursAt(message, "failed", i) {
        ContainsAt(message, "failed", i);
      } else if OccursAt(message, "slippage", i) {
        ContainsAt(message, "slippage", i);
      } else {
        ContainsAt(message, "INSUFFICIENT_OUTPUT_AMOUNT", i);
      }
    }
  }

  /** `String(bps / 100)`: the percentage as JavaScript prints it. */
  function PercentText(bps: int): string
  {
    var m: nat := if bps < 0 then -bps else bps;
    var whole := DecimalText(m / 100);
    var cents := m % 100;
    (if bps < 0 then "-" else "") + whole +
      (if cents == 0 then ""
       else if cents % 10 == 0 then "." + [DigitChar(cents / 10)]
       else "." + [DigitChar(cents / 10), DigitChar(cents % 10)])
  }

  /** The error of a mined swap whose receipt has status 0. */
  function StatusFailure(bps: int): string
  {
    "Transaction failed with " + PercentText(bps) + "% slippage"
  }

  /** A reverted swap is always retried. */
  lemma StatusFailureRetryable(bps: int)
    ensures IsRetryable(StatusFailure(bps))
  {
    var s := StatusFailure(bps);
    assert s[12..18] == "failed";
    ContainsAt(s, "failed", 12);
  }

  /** A failed quote is always retried: its message reads "Quote failed: ...". */
  lemma QuoteErrorRetryable(chain: Provider, tokenIn: Address, tokenOut: Address)
    ensures IsRetryable(QuoteError(chain, tokenIn, tokenOut))
  {
    QuoteFailedRetryable(QuoteError(chain, tokenIn, tokenOut)[14..]);
    assert QuoteError(chain, tokenIn, tokenOut) == "Quote failed: " + QuoteError(chain, tokenIn, tokenOut)[14..];
  }

  lemma QuoteFailedRetryable(rest: string)
    ensures IsRetryable("Quote failed: " + rest)
  {
    var s := "Quote failed: " + rest;
    assert s[6..12] == "failed";
    ContainsAt(s, "failed", 6);
  }

  /** So is the failure of any hop of a chained quote. */
  lemma {:induction false} ChainedQuoteErrorRetryable(chain: Provider, path: seq<Address>, amountIn: nat)
    requires ChainedQuote(chain, path, amountIn).Failure?
    ensures IsRetryable(ChainedQuote(chain, path, amountIn).error)
    decreases |path|
  {
    match BestAmountOut(chain, path[0], path[1], amountIn)
    case None => QuoteErrorRetryable(chain, path[0], path[1]);
    case Some(out) => ChainedQuoteErrorRetryable(chain, path[1..], out);
  }

  /** Drops trailing zeros, keeping at least one character. */
  function TrimZeros(s: string): string
  {
    if |s| > 1 && s[|s| - 1] == '0' then TrimZeros(s[..|s| - 1]) else s
  }

  /** `formatEther`: whole SEI, a point, and the fraction without trailing zeros. */
  function FormatEther(wei: nat): string
  {
    DecimalText(wei / Ether) + "." + TrimZeros(PadStart(DecimalText(wei % Ether), 18, '0'))
  }

  function Insufficient(balance: nat, needed: nat): string
  {
    "Insufficient SEI balance. Have " + FormatEther(balance) + " SEI, need " + FormatEther(needed) + " SEI (including gas)"
  }

  /** A JavaScript-truthy string argument. */
  predicate Truthy(s: Option<string>)
  {
    s.Some? && s.value != ""
  }

  /** Input given as "sei" or "native", in any case, is native SEI. */
  predicate IsNative(tokenIn: Option<string>)
  {
    tokenIn.Some? && (ToLower(tokenIn.value) == "sei" || ToLower(tokenIn.value) == "native")
  }

  /** The request wraps native SEI: a wallet is configured and holds the amount plus the gas reserve. */
  predicate Wraps(wallet: Option<Wallet>, req: SwapRequest)
  {
    wallet.Some? && IsNative(req.tokenIn) && wallet.value.balance.Done?
    && wallet.value.balance.value >= req.amountIn + GasReserve
  }

  /** The input token the attempts work with: "WSEI" once native SEI has been wrapped. */
  function ActualTokenIn(req: SwapRequest): Option<string>
  {
    if IsNative(req.tokenIn) then Some("WSEI") else req.tokenIn
  }

  /** `recipient || wallet.address`. */
  function RecipientFor(req: SwapRequest, wallet: Wallet): Address
  {
    if req.recipient.Some? && req.recipient.value != "" then req.recipient.value else wallet.address
  }

  /** An explicit path with every "sei" entry, in any case, replaced by "WSEI". */
  function SeiAsWsei(path: seq<string>): (r: seq<string>)
    ensures |r| == |path|
    ensures forall i :: 0 <= i < |path| ==> ToLower(r[i]) != "sei"
    ensures forall i :: 0 <= i < |path| && ToLower(path[i]) != "sei" ==> r[i] == path[i]
  {
    assert ToLower("WSEI") == "wsei";
    seq(|path|, i requires 0 <= i < |path| => if ToLower(path[i]) == "sei" then "WSEI" else path[i])
  }

  /** `path.map(resolveTokenAddress)` over `table`: every name resolved, or the first failure. */
  function ResolveAll(table: seq<TokenConfig>, names: seq<string>): (r: Result<seq<Address>>)
    ensures r.Success? <==> forall i :: 0 <= i < |names| ==> Resolve(table, names[i]).Success?
    ensures r.Success? ==> |r.value| == |names| && forall i :: 0 <= i < |names| ==> r.value[i] == Resolve(table, names[i]).value
    ensures r.Failure? ==> exists i :: 0 <= i < |names| && Resolve(table, names[i]) == Failure(r.error)
                             && forall j :: 0 <= j < i ==> Resolve(table, names[j]).Success?
  {
    if names == [] then Success([])
    else match Resolve(table, names[0])
      case Failure(e) => Failure(e)
      case Success(a) =>
        var rest := ResolveAll(table, names[1..]);
        if rest.Failure? then
          ghost var i :| 0 <= i < |names[1..]| && Resolve(table, names[1..][i]) == Failure(rest.error)
                         && forall j :: 0 <= j < i ==> Resolve(table, names[1..][j]).Success?;
          assert Resolve(table, names[i + 1]) == Failure(rest.error);
          Failure(rest.error)
        else Success([a] + rest.value)
  }

  /** The bridged path when the pair has no pool: through USDT if either side is WSEI, else through WSEI. */
  function BridgePath(tokenIn: Address, tokenOut: Address): (path: seq<Address>)
    ensures |path| == 3 && path[0] == tokenIn && path[2] == tokenOut
    ensures path[1] == WSEI <==> tokenIn != WSEI && tokenOut != WSEI
    ensures path[1] == USDT <==> tokenIn == WSEI || tokenOut == WSEI
  {
    if tokenIn == WSEI || tokenOut == WSEI then [tokenIn, USDT, tokenOut] else [tokenIn, WSEI, tokenOut]
  }

  /** How an attempt swaps. */
  datatype Route =
    | PathRoute(tokens: seq<Address>)
    | DirectRoute(tokenIn: Address, tokenOut: Address)
    | BridgedRoute(tokens: seq<Address>)
    | AlreadyWrapped

  /**
   * The route of every attempt, in priority order: an explicit path of more
   * than one token, else the pair directly when it has a pool, else the
   * bridged path; a WSEI-to-WSEI request needs no swap.
   */
  function RouteFor(chain: Provider, table: seq<TokenConfig>, req: SwapRequest, tokenIn: Option<string>): (r: Result<Route>)
    ensures req.path.Some? && |req.path.value| > 1 ==>
      (r.Success? <==> ResolveAll(table, SeiAsWsei(req.path.value)).Success?)
      && (r.Success? ==> r == Success(PathRoute(ResolveAll(table, SeiAsWsei(req.path.value)).value)))
    ensures !(req.path.Some? && |req.path.value| > 1) && !(Truthy(tokenIn) && Truthy(req.tokenOut)) ==> r == Failure(NoRoute)
    ensures r.Success? && r.value.DirectRoute? ==> |AllPools(chain, r.value.tokenIn, r.value.tokenOut)| > 0
    ensures r.Success? && r.value.BridgedRoute? ==>
      |r.value.tokens| == 3 && r.value.tokens == BridgePath(r.value.tokens[0], r.value.tokens[2]) && |AllPools(chain, r.value.tokens[0], r.value.tokens[2])| == 0
    ensures r.Success? && !r.value.AlreadyWrapped? && !r.value.DirectRoute? ==> |r.value.tokens| >= 2
  {
    if req.path.Some? && |req.path.value| > 1 then
      match ResolveAll(table, SeiAsWsei(req.path.value))
      case Failure(e) => Failure(e)
      case Success(tokens) => Success(PathRoute(tokens))
    else if !Truthy(tokenIn) || !Truthy(req.tokenOut) then Failure(NoRoute)
    else match Resolve(table, tokenIn.value)
      case Failure(e) => Failure(e)
      case Success(a) =>
        match Resolve(table, req.tokenOut.value)
        case Failure(e) => Failure(e)
        case Success(b) =>
          if tokenIn.value == "WSEI" && ToLower(req.tokenOut.value) == "wsei" then Success(AlreadyWrapped)
          else if |AllPools(chain, a, b)| > 0 then Success(DirectRoute(a, b))
          else Success(BridgedRoute(BridgePath(a, b)))
  }

  /** The token a route starts from, the one the approval is for. */
  function RouteInput(route: Route): Address
    requires !route.AlreadyWrapped?
  {
    match route
    case DirectRoute(a, _) => a
    case PathRoute(tokens) => if |tokens| > 0 then tokens[0] else ""
    case BridgedRoute(tokens) => if |tokens| > 0 then tokens[0] else ""
  }

  /** The minimum output of a chained quote along `tokens` at `slippageBps`. */
  function ChainedMinOut(chain: Provider, tokens: seq<Address>, amountIn: nat, slippageBps: int): Result<int>
  {
    match ChainedQuote(chain, tokens, amountIn)
    case Failure(e) => Failure(e)
    case Success(out) => Success(AmountOutMin(out, SlippageFactor(slippageBps)))
  }

  /**
   * The minimum output of an attempt at `slippageBps`: the caller's own
   * minimum, else the quote's minimum along the route.
   */
  function MinOutFor(chain: Provider, req: SwapRequest, route: Route, slippageBps: int): Result<int>
    requires !route.AlreadyWrapped?
  {
    if req.amountOutMin.Some? then Success(req.amountOutMin.value)
    else match route
      case DirectRoute(a, b) =>
        (match BestAmountOut(chain, a, b, req.amountIn)
         case None => Failure(QuoteError(chain, a, b))
         case Some(out) => Success(AmountOutMin(out, SlippageFactor(slippageBps))))
      case PathRoute(tokens) => ChainedMinOut(chain, tokens, req.amountIn, slippageBps)
      case BridgedRoute(tokens) => ChainedMinOut(chain, tokens, req.amountIn, slippageBps)
  }

  /** Whether a quote fails does not depend on the slippage, and its failure is retried. */
  lemma MinOutFailure(chain: Provider, req: SwapRequest, route: Route, s1: int, s2: int)
    requires !route.AlreadyWrapped? && MinOutFor(chain, req, route, s1).Failure?
    ensures MinOutFor(chain, req, route, s2) == MinOutFor(chain, req, route, s1)
    ensures IsRetryable(MinOutFor(chain, req, route, s1).error)
  {
    match route
    case DirectRoute(a, b) => QuoteErrorRetryable(chain, a, b);
    case PathRoute(tokens) => ChainedQuoteErrorRetryable(chain, tokens, req.amountIn);
    case BridgedRoute(tokens) => ChainedQuoteErrorRetryable(chain, tokens, req.amountIn);
  }

  /** A quote that fails at one slippage fails with the same retried error at every slippage. */
  lemma QuoteFailsAtEverySlippage(chain: Provider, req: SwapRequest, route: Route, s1: int)
    requires !route.AlreadyWrapped? && MinOutFor(chain, req, route, s1).Failure?
    ensures IsRetryable(MinOutFor(chain, req, route, s1).error)
    ensures forall s :: MinOutFor(chain, req, route, s) == MinOutFor(chain, req, route, s1)
  {
    forall s ensures MinOutFor(chain, req, route, s) == MinOutFor(chain, req, route, s1) {
      MinOutFailure(chain, req, route, s1, s);
    }
    MinOutFailure(chain, req, route, s1, s1);
  }

  /**
   * The ladder only relaxes: a quoted minimum at a larger slippage (up to
   * 100%) is at most the one at a smaller slippage, and never above the
   * quoted output.
   */
  lemma LadderRelaxes(chain: Provider, req: SwapRequest, route: Route, s1: int, s2: int)
    requires !route.AlreadyWrapped? && req.amountOutMin.None?
    requires 0 <= s1 <= s2 <= 10000 && MinOutFor(chain, req, route, s1).Success?
    ensures MinOutFor(chain, req, route, s2).Success?
    ensures 0 <= MinOutFor(chain, req, route, s2).value <= MinOutFor(chain, req, route, s1).value
  {
    var out := match route
      case DirectRoute(a, b) => BestAmountOut(chain, a, b, req.amountIn).value
      case PathRoute(tokens) => ChainedQuote(chain, tokens, req.amountIn).value
      case BridgedRoute(tokens) => ChainedQuote(chain, tokens, req.amountIn).value;
    AmountOutMinMonotone(out, SlippageFactor(s2), SlippageFactor(s1));
    AmountOutMinBounds(out, SlippageFactor(s2));
    AmountOutMinBounds(out, SlippageFactor(s1));
  }

  /**
   * The reported kind: "native-swap" after a wrap, else "multi-hop" only for
   * an explicit path of more than two tokens, else "direct".
   */
  function KindOf(wrapped: bool, path: Option<seq<string>>): (k: SwapKind)
    ensures k == NativeSwap <==> wrapped
    ensures k == MultiHopSwap <==> !wrapped && path.Some? && |path.value| > 2
    ensures k == DirectSwap <==> !wrapped && (path.None? || |path.value| <= 2)
  {
    if wrapped then NativeSwap else if path.Some? && |path.value| > 2 then MultiHopSwap else DirectSwap
  }

  /** A bridged swap crosses two pools but is reported as direct. */
  lemma BridgedReportsDirect(chain: Provider, table: seq<TokenConfig>, req: SwapRequest, tokenIn: Option<string>)
    requires RouteFor(chain, table, req, tokenIn).Success? && RouteFor(chain, table, req, tokenIn).value.BridgedRoute?
    ensures |RouteFor(chain, table, req, tokenIn).value.tokens| == 3
    ensures KindOf(false, req.path) == DirectSwap
  {
  }

  /** The allowance read of attempt `k` is below the amount, so an approval goes first. */
  predicate NeedsApproval(wallet: Wallet, k: nat, token: Address, spender: Address, amountIn: nat)
  {
    wallet.allowance(k, token, spender).Done? && wallet.allowance(k, token, spender).value < amountIn
  }

  /** Attempt `k` gets as far as sending the swap. */
  predicate Submits(wallet: Wallet, k: nat, token: Address, spender: Address, amountIn: nat)
  {
    wallet.allowance(k, token, spender).Done?
    && (NeedsApproval(wallet, k, token, spender, amountIn) ==> wallet.approve(k).Done?)
  }

  /**
   * The wallet side of attempt `k`: approve the router for the input token
   * when the allowance is short, then send the prepared transaction and
   * check its receipt.
   */
  method Submit(wallet: Wallet, k: nat, tx: SwapTx, token: Address, amountIn: nat, slippageBps: int)
    returns (r: Result<string>, calls: seq<WalletCall>, log: seq<LogEntry>)
    ensures (Approve(token, tx.to, MaxUint256) in calls) <==> NeedsApproval(wallet, k, token, tx.to, amountIn)
    ensures (Send(tx) in calls) <==> Submits(wallet, k, token, tx.to, amountIn)
    ensures forall c :: c in calls ==> c == Approve(token, tx.to, MaxUint256) || c == Send(tx)
    ensures forall i :: 0 <= i < |calls| && calls[i].Send? ==> i == |calls| - 1
    ensures wallet.allowance(k, token, tx.to).Threw? ==> r == Failure(wallet.allowance(k, token, tx.to).message)
    ensures NeedsApproval(wallet, k, token, tx.to, amountIn) && wallet.approve(k).Threw? ==> r == Failure(wallet.approve(k).message)
    ensures Submits(wallet, k, token, tx.to, amountIn) && wallet.send(k).Threw? ==> r == Failure(wallet.send(k).message)
    ensures Submits(wallet, k, token, tx.to, amountIn) && wallet.send(k).Done? && wallet.send(k).value.status == 0 ==>
      r == Failure(StatusFailure(slippageBps)) && IsRetryable(r.error)
    ensures r.Success? <==>
      Submits(wallet, k, token, tx.to, amountIn) && wallet.send(k).Done? && wallet.send(k).value.status != 0
    ensures r.Success? ==> r.value == wallet.send(k).value.hash && |log| > 0 && log[|log| - 1] == SwapDone(r.value)
    ensures forall i :: 0 <= i < |log| ==>
      (log[i].Approval? && i == 0 && NeedsApproval(wallet, k, token, tx.to, amountIn) && wallet.approve(k) == Done(log[i].hash))
      || (log[i].SwapDone? && i == |log| - 1 && r == Success(log[i].hash))
    ensures NeedsApproval(wallet, k, token, tx.to, amountIn) && wallet.approve(k).Done? ==> |log| > 0 && log[0] == Approval(wallet.approve(k).value)
  {
    calls, log := [], [];
    var allowance := wallet.allowance(k, token, tx.to);
    if allowance.Threw? {
      return Failure(allowance.message), calls, log;
    }
    if allowance.value < amountIn {
      calls := [Approve(token, tx.to, MaxUint256)];
      var approval := wallet.approve(k);
      if approval.Threw? {
        return Failure(approval.message), calls, log;
      }
      log := [Approval(approval.value)];
    }
    calls := calls + [Send(tx)];
    var sent := wallet.send(k);
    if sent.Threw? {
      return Failure(sent.message), calls, log;
    }
    if sent.value.status == 0 {
      StatusFailureRetryable(slippageBps);
      return Failure(StatusFailure(slippageBps)), calls, log;
    }
    log := log + [SwapDone(sent.value.hash)];
    return Success(sent.value.hash), calls, log;
  }

  /** `route` can be prepared: a direct pair, or a path of at least two tokens. */
  predicate Shaped(route: Route)
  {
    match route
    case DirectRoute(_, _) => true
    case PathRoute(tokens) => |tokens| >= 2
    case BridgedRoute(tokens) => |tokens| >= 2
    case AlreadyWrapped => false
  }

  /** Every route an attempt swaps along can be prepared. */
  lemma RoutesAreShaped(chain: Provider, table: seq<TokenConfig>, req: SwapRequest, tokenIn: Option<string>)
    requires RouteFor(chain, table, req, tokenIn).Success? && !RouteFor(chain, table, req, tokenIn).value.AlreadyWrapped?
    ensures Shaped(RouteFor(chain, table, req, tokenIn).value)
  {
  }

  /**
   * The route choice of one attempt, reading the pair's pools through
   * `findBestPool` when no explicit path is given.
   */
  method ChooseRoute(chain: Provider, table: seq<TokenConfig>, req: SwapRequest, tokenIn: Option<string>) returns (r: Result<Route>)
    ensures r == RouteFor(chain, table, req, tokenIn)
  {
    if req.path.Some? && |req.path.value| > 1 {
      var resolved := ResolveAll(table, SeiAsWsei(req.path.value));
      if resolved.Failure? {
        return Failure(resolved.error);
      }
      return Success(PathRoute(resolved.value));
    }
    if !Truthy(tokenIn) || !Truthy(req.tokenOut) {
      return Failure(NoRoute);
    }
    var a := Resolve(table, tokenIn.value);
    if a.Failure? {
      return Failure(a.error);
    }
    var b := Resolve(table, req.tokenOut.value);
    if b.Failure? {
      return Failure(b.error);
    }
    if tokenIn.value == "WSEI" && ToLower(req.tokenOut.value) == "wsei" {
      return Success(AlreadyWrapped);
    }
    var direct := FindBestPool(chain, a.value, b.value);
    assert |direct| == |multiset(direct)| == |AllPools(chain, a.value, b.value)|;
    if |direct| > 0 {
      return Success(DirectRoute(a.value, b.value));
    }
    return Success(BridgedRoute(BridgePath(a.value, b.value)));
  }

  /**
   * `tx` is the swap an attempt prepares along `route` with minimum output
   * `minOut`: through the pair's top pool for a direct route, along the
   * packed path with every hop's top-pool fee otherwise.
   */
  ghost predicate PreparedFor(chain: Provider, router: Address, req: SwapRequest, route: Route, recipient: Address,
                              nowMillis: nat, minOut: nat, tx: SwapTx)
  {
    && tx.to == router && tx.value == 0
    && match route
       case DirectRoute(a, b) =>
         && tx.gasLimit == 300000 && tx.data.ExactInputSingle?
         && TopFee(chain, a, b, tx.data.fee)
         && tx.data == ExactInputSingle(a, b, tx.data.fee, RecipientOrZero(recipient), Deadline(req.deadline, nowMillis),
                                        req.amountIn, minOut, 0)
       case PathRoute(tokens) => MultiHopTx(chain, req, tokens, recipient, nowMillis, minOut, tx)
       case BridgedRoute(tokens) => MultiHopTx(chain, req, tokens, recipient, nowMillis, minOut, tx)
       case AlreadyWrapped => false
  }

  ghost predicate MultiHopTx(chain: Provider, req: SwapRequest, tokens: seq<Address>, recipient: Address,
                             nowMillis: nat, minOut: nat, tx: SwapTx)
  {
    && tx.gasLimit == 150000 * |tokens|
    && exists fees :: HopFees(chain, tokens, fees)
         && tx.data == ExactInput("0x" + Body(Interleave(tokens, fees)), RecipientOrZero(recipient),
                                  Deadline(req.deadline, nowMillis), req.amountIn, minOut)
  }

  /**
   * The preparing half of an attempt: the minimum output, quoted at this
   * attempt's slippage unless the caller gave one, then the router call.
   * A negative minimum (a slippage above 100%) passes the pool checks and
   * is then refused by the ABI encoder.
   */
  method PrepareAttempt(ds: DragonSwapV2, req: SwapRequest, route: Route, slippageBps: int, recipient: Address,
                        nowMillis: nat) returns (r: Result<SwapTx>, minOut: int)
    requires ds.Valid() && Shaped(route)
    modifies ds
    ensures ds.Valid()
    ensures MinOutFor(ds.chain, req, route, slippageBps).Failure? ==> r == Failure(MinOutFor(ds.chain, req, route, slippageBps).error)
    ensures r.Success? ==>
      && MinOutFor(ds.chain, req, route, slippageBps) == Success(minOut) && minOut >= 0
      && PreparedFor(ds.chain, ds.router, req, route, recipient, nowMillis, minOut, r.value)
    ensures route.DirectRoute? && MinOutFor(ds.chain, req, route, slippageBps).Success? ==>
      (r.Success? <==> MinOutFor(ds.chain, req, route, slippageBps).value >= 0 && |AllPools(ds.chain, route.tokenIn, route.tokenOut)| > 0)
    ensures !route.DirectRoute? && MinOutFor(ds.chain, req, route, slippageBps).Success? ==>
      (r.Success? <==> MinOutFor(ds.chain, req, route, slippageBps).value >= 0 && !SomeHopWithoutPool(ds.chain, route.tokens, |route.tokens| - 1))
  {
    minOut := 0;
    if req.amountOutMin.Some? {
      minOut := req.amountOutMin.value;
    } else if route.DirectRoute? {
      var q := ds.GetQuote(route.tokenIn, route.tokenOut, req.amountIn, slippageBps);
      if q.Failure? {
        return Failure(q.error), minOut;
      }
      minOut := q.value.amountOutMin;
    } else {
      var q := ds.GetMultiHopQuote(route.tokens, req.amountIn, slippageBps);
      if q.Failure? {
        return Failure(q.error), minOut;
      }
      minOut := q.value.amountOutMin;
    }
    assert MinOutFor(ds.chain, req, route, slippageBps) == Success(minOut);
    var encodable: nat := if minOut < 0 then 0 else minOut;
    if route.DirectRoute? {
      var tx := ds.PrepareSwap(route.tokenIn, route.tokenOut, req.amountIn, encodable, recipient, req.deadline, nowMillis);
      if tx.Failure? {
        return Failure(tx.error), minOut;
      }
      if minOut < 0 {
        return Failure("Failed to prepare swap: " + OutOfBounds), minOut;
      }
      return tx, minOut;
    }
    var tx, fees := ds.PrepareMultiHopSwap(route.tokens, req.amountIn, encodable, recipient, req.deadline, nowMillis);
    if tx.Failure? {
      return Failure(tx.error), minOut;
    }
    if minOut < 0 {
      return Failure(OutOfBounds), minOut;
    }
    return tx, minOut;
  }

  /** What one attempt of the ladder ends in. */
  datatype AttemptOutcome =
    | SwapSucceeded(hash: string, minOut: int, tx: SwapTx)
    | NoSwapNeeded
    | AttemptFailed(message: string)

  /**
   * The attempt along a chosen route: prepare the swap, then approve and
   * send it from the wallet. `calls` are the transactions sent and `log` the
   * entries added to the transaction log.
   */
  method SwapAlong(ds: DragonSwapV2, wallet: Wallet, k: nat, req: SwapRequest, route: Route,
                   slippageBps: int, nowMillis: nat) returns (r: AttemptOutcome, calls: seq<WalletCall>, log: seq<LogEntry>)
    requires ds.Valid() && Shaped(route)
    modifies ds
    ensures ds.Valid()
    ensures !r.NoSwapNeeded?
    ensures forall c :: c in calls ==> !c.Deposit?
    ensures MinOutFor(ds.chain, req, route, slippageBps).Failure? ==>
      r == AttemptFailed(MinOutFor(ds.chain, req, route, slippageBps).error) && calls == [] && log == []
    ensures r.SwapSucceeded? ==>
      && MinOutFor(ds.chain, req, route, slippageBps) == Success(r.minOut) && r.minOut >= 0
      && PreparedFor(ds.chain, ds.router, req, route, RecipientFor(req, wallet), nowMillis, r.minOut, r.tx)
      && wallet.send(k).Done? && wallet.send(k).value.status != 0 && wallet.send(k).value.hash == r.hash
      && |calls| > 0 && calls[|calls| - 1] == Send(r.tx)
      && |log| > 0 && log[|log| - 1] == SwapDone(r.hash)
  {
    calls, log := [], [];
    var tx, minOut := PrepareAttempt(ds, req, route, slippageBps, RecipientFor(req, wallet), nowMillis);
    if tx.Failure? {
      return AttemptFailed(tx.error), calls, log;
    }
    var sent;
    sent, calls, log := Submit(wallet, k, tx.value, RouteInput(route), req.amountIn, slippageBps);
    if sent.Failure? {
      return AttemptFailed(sent.error), calls, log;
    }
    return SwapSucceeded(sent.value, minOut, tx.value), calls, log;
  }

  /** A route choice an attempt can act on: a failure, no swap, or a route that can be prepared. */
  predicate Actionable(route: Result<Route>)
  {
    route.Success? && !route.value.AlreadyWrapped? ==> Shaped(route.value)
  }

  /**
   * One attempt of the ladder at `slippageBps` along the route choice
   * `route`: its failure is the attempt's error, no route means no swap, and
   * otherwise the attempt swaps along it.
   */
  method RunAttempt(ds: DragonSwapV2, wallet: Wallet, k: nat, req: SwapRequest, route: Result<Route>,
                    slippageBps: int, nowMillis: nat, ghost quoteError: Option<string>)
    returns (r: AttemptOutcome, calls: seq<WalletCall>, log: seq<LogEntry>)
    requires ds.Valid() && Actionable(route)
    requires quoteError.Some? ==>
      route.Success? && !route.value.AlreadyWrapped? && MinOutFor(ds.chain, req, route.value, slippageBps) == Failure(quoteError.value)
    modifies ds
    ensures ds.Valid()
    ensures forall c :: c in calls ==> !c.Deposit?
    ensures route.Failure? ==> r == AttemptFailed(route.error) && calls == [] && log == []
    ensures r.NoSwapNeeded? <==> route == Success(AlreadyWrapped)
    ensures r.NoSwapNeeded? ==> calls == [] && log == []
    ensures quoteError.Some? ==> r == AttemptFailed(quoteError.value) && calls == [] && log == []
    ensures r.SwapSucceeded? ==>
      && route.Success? && !route.value.AlreadyWrapped?
      && MinOutFor(ds.chain, req, route.value, slippageBps) == Success(r.minOut)
      && |log| > 0 && log[|log| - 1] == SwapDone(r.hash)
  {
    if route.Failure? {
      return AttemptFailed(route.error), [], [];
    }
    if route.value.AlreadyWrapped? {
      return NoSwapNeeded, [], [];
    }
    r, calls, log := SwapAlong(ds, wallet, k, req, route.value, slippageBps, nowMillis);
  }

  /** Every attempt so far followed the ladder and failed with an error that is retried. */
  predicate RetriedSoFar(ladder: seq<int>, attempts: seq<Attempt>)
  {
    && |attempts| <= |ladder|
    && forall i :: 0 <= i < |attempts| ==>
         attempts[i].slippageBps == ladder[i] && attempts[i].error.Some? && IsRetryable(attempts[i].error.value)
  }

  /** Every attempt failed with `e`. */
  predicate AllFailedWith(attempts: seq<Attempt>, e: string)
  {
    forall i :: 0 <= i < |attempts| ==> attempts[i].error == Some(e)
  }

  /**
   * The attempts of a ladder run and its outcome: the attempts follow the
   * ladder, every attempt but the last failed with an error that is retried,
   * an error outcome reports the last attempt's error, and a ladder cut short
   * by an error means that error is not retried.
   */
  predicate LadderRun(ladder: seq<int>, r: SwapOutcome, attempts: seq<Attempt>)
  {
    && 1 <= |attempts| <= |ladder|
    && (forall i :: 0 <= i < |attempts| ==> attempts[i].slippageBps == ladder[i])
    && (forall i :: 0 <= i < |attempts| - 1 ==> attempts[i].error.Some? && IsRetryable(attempts[i].error.value))
    && (r.SwapError? <==> attempts[|attempts| - 1].error.Some?)
    && (r.SwapError? ==> r.message == ErrorPrefix + attempts[|attempts| - 1].error.value)
    && (r.SwapError? && |attempts| < |ladder| ==> !IsRetryable(attempts[|attempts| - 1].error.value))
  }

  /** The log entries a wrap leaves: its deposit, when there was one. */
  function WrapLog(wrapHash: Option<string>): seq<LogEntry>
  {
    if wrapHash.Some? then [Wrap(wrapHash.value)] else []
  }

  /** An attempt that ends the ladder without an error completes a ladder run. */
  lemma StopsClean(ladder: seq<int>, prev: seq<Attempt>, r: SwapOutcome)
    requires RetriedSoFar(ladder, prev) && |prev| < |ladder| && !r.SwapError?
    ensures LadderRun(ladder, r, prev + [Attempt(ladder[|prev|], None)])
  {
    var attempts := prev + [Attempt(ladder[|prev|], None)];
    assert forall i :: 0 <= i < |prev| ==> attempts[i] == prev[i];
  }

  /** An attempt that fails with an error that is not retried completes a ladder run with that error. */
  lemma StopsWithError(ladder: seq<int>, prev: seq<Attempt>, e: string)
    requires RetriedSoFar(ladder, prev) && |prev| < |ladder| && !IsRetryable(e)
    ensures LadderRun(ladder, SwapError(ErrorPrefix + e), prev + [Attempt(ladder[|prev|], Some(e))])
  {
    var attempts := prev + [Attempt(ladder[|prev|], Some(e))];
    assert forall i :: 0 <= i < |prev| ==> attempts[i] == prev[i];
  }

  /** An attempt that fails with an error that is retried extends the retried attempts. */
  lemma Retries(ladder: seq<int>, prev: seq<Attempt>, e: string)
    requires RetriedSoFar(ladder, prev) && |prev| < |ladder| && IsRetryable(e)
    ensures RetriedSoFar(ladder, prev + [Attempt(ladder[|prev|], Some(e))])
  {
    var attempts := prev + [Attempt(ladder[|prev|], Some(e))];
    assert forall i :: 0 <= i < |prev| ==> attempts[i] == prev[i];
  }

  /** Once every rung has failed with a retried error, the run reports the last error. */
  lemma Exhausted(ladder: seq<int>, attempts: seq<Attempt>)
    requires RetriedSoFar(ladder, attempts) && 0 < |attempts| == |ladder|
    ensures LadderRun(ladder, SwapError(ErrorPrefix + attempts[|attempts| - 1].error.value), attempts)
  {
  }

  /**
   * What a swap reports: the slippage of its last attempt, the kind of swap,
   * the minimum output quoted along the route at that slippage, and the log:
   * the wrap's entry, when there was one, then the ladder's, ending with the swap.
   */
  predicate SwapReport(chain: Provider, req: SwapRequest, route: Result<Route>, wrapHash: Option<string>,
                       attempts: seq<Attempt>, r: SwapOutcome)
  {
    r.Swapped? ==>
      && |attempts| > 0
      && r.slippageUsed == attempts[|attempts| - 1].slippageBps
      && r.kind == KindOf(wrapHash.Some?, req.path)
      && route.Success? && !route.value.AlreadyWrapped?
      && MinOutFor(chain, req, route.value, r.slippageUsed) == Success(r.amountOutMin)
      && |r.transactions| > 0 && r.transactions[|r.transactions| - 1] == SwapDone(r.hash)
      && (wrapHash.Some? ==> r.transactions[0] == Wrap(wrapHash.value))
  }

  /** The swap of an attempt at `s` that quoted `minOut` and logged `log` last is reported as such. */
  lemma SwapReported(chain: Provider, req: SwapRequest, route: Route, wrapHash: Option<string>, prev: seq<Attempt>,
                     s: int, minOut: int, before: seq<LogEntry>, log: seq<LogEntry>, hash: string)
    requires !route.AlreadyWrapped? && MinOutFor(chain, req, route, s) == Success(minOut)
    requires |log| > 0 && log[|log| - 1] == SwapDone(hash)
    ensures SwapReport(chain, req, Success(route), wrapHash, prev + [Attempt(s, None)],
                       Swapped(hash, WrapLog(wrapHash) + (before + log), s, minOut, KindOf(wrapHash.Some?, req.path)))
  {
  }

  /**
   * What the ladder reports, given the route choice and, when every quote
   * along the route fails, the quote's error: no deposit among its calls, a
   * ladder run, no swap exactly when the input is already the output, the
   * swap as `SwapReport` says, and the route's or the quote's error when
   * there is one, after no transaction.
   */
  predicate LadderReport(chain: Provider, req: SwapRequest, route: Result<Route>, wrapHash: Option<string>,
                         quoteError: Option<string>, r: SwapOutcome, calls: seq<WalletCall>, attempts: seq<Attempt>)
  {
    && (forall c :: c in calls ==> !c.Deposit?)
    && LadderRun(Ladder(req.slippageBps), r, attempts)
    && (r.WrappedOnly? <==> route == Success(AlreadyWrapped))
    && (r.WrappedOnly? ==> r == WrappedOnly(wrapHash, WrapLog(wrapHash)) && |attempts| == 1)
    && SwapReport(chain, req, route, wrapHash, attempts, r)
    && (route.Failure? ==> r == SwapError(ErrorPrefix + route.error) && calls == [])
    && (quoteError.Some? ==>
          |attempts| == |Ladder(req.slippageBps)| && calls == [] && r == SwapError(ErrorPrefix + quoteError.value))
  }

  /** The first attempt needs no swap: the ladder reports the wrap alone. */
  lemma NoSwapReported(chain: Provider, req: SwapRequest, route: Result<Route>, wrapHash: Option<string>,
                       quoteError: Option<string>, log: seq<LogEntry>)
    requires route == Success(AlreadyWrapped) && quoteError.None? && log == []
    ensures LadderReport(chain, req, route, wrapHash, quoteError, WrappedOnly(wrapHash, WrapLog(wrapHash) + log), [],
                         [Attempt(Ladder(req.slippageBps)[0], None)])
  {
    StopsClean(Ladder(req.slippageBps), [], WrappedOnly(wrapHash, WrapLog(wrapHash) + log));
    assert [] + [Attempt(Ladder(req.slippageBps)[0], None)] == [Attempt(Ladder(req.slippageBps)[0], None)];
  }

  /** An attempt after retried failures swaps along the route: the ladder reports that swap. */
  lemma SwapLadderReported(chain: Provider, req: SwapRequest, route: Result<Route>, wrapHash: Option<string>,
                           quoteError: Option<string>, calls: seq<WalletCall>, prev: seq<Attempt>,
                           minOut: int, before: seq<LogEntry>, log: seq<LogEntry>, hash: string)
    requires RetriedSoFar(Ladder(req.slippageBps), prev) && |prev| < |Ladder(req.slippageBps)|
    requires route.Success? && !route.value.AlreadyWrapped? && quoteError.None?
    requires MinOutFor(chain, req, route.value, Ladder(req.slippageBps)[|prev|]) == Success(minOut)
    requires |log| > 0 && log[|log| - 1] == SwapDone(hash)
    requires forall c :: c in calls ==> !c.Deposit?
    ensures var s := Ladder(req.slippageBps)[|prev|];
      LadderReport(chain, req, route, wrapHash, quoteError,
                   Swapped(hash, WrapLog(wrapHash) + (before + log), s, minOut, KindOf(wrapHash.Some?, req.path)),
                   calls, prev + [Attempt(s, None)])
  {
    var s := Ladder(req.slippageBps)[|prev|];
    var r := Swapped(hash, WrapLog(wrapHash) + (before + log), s, minOut, KindOf(wrapHash.Some?, req.path));
    StopsClean(Ladder(req.slippageBps), prev, r);
    SwapReported(chain, req, route.value, wrapHash, prev, s, minOut, before, log, hash);
  }

  /** An attempt after retried failures fails with an error that is not retried: the ladder reports it. */
  lemma ErrorReported(chain: Provider, req: SwapRequest, route: Result<Route>, wrapHash: Option<string>,
                      quoteError: Option<string>, calls: seq<WalletCall>, prev: seq<Attempt>, e: string)
    requires RetriedSoFar(Ladder(req.slippageBps), prev) && |prev| < |Ladder(req.slippageBps)| && !IsRetryable(e)
    requires route != Success(AlreadyWrapped)
    requires route.Failure? ==> e == route.error && calls == []
    requires quoteError.Some? ==> IsRetryable(quoteError.value) && e == quoteError.value
    requires forall c :: c in calls ==> !c.Deposit?
    ensures LadderReport(chain, req, route, wrapHash, quoteError, SwapError(ErrorPrefix + e), calls,
                         prev + [Attempt(Ladder(req.slippageBps)[|prev|], Some(e))])
  {
    StopsWithError(Ladder(req.slippageBps), prev, e);
  }

  /** A retried failure at every rung: the ladder reports the last error. */
  lemma ExhaustedReported(chain: Provider, req: SwapRequest, route: Result<Route>, wrapHash: Option<string>,
                          quoteError: Option<string>, calls: seq<WalletCall>, attempts: seq<Attempt>)
    requires RetriedSoFar(Ladder(req.slippageBps), attempts) && |attempts| == |Ladder(req.slippageBps)|
    requires route != Success(AlreadyWrapped)
    requires route.Failure? ==> calls == [] && AllFailedWith(attempts, route.error)
    requires quoteError.Some? ==> calls == [] && AllFailedWith(attempts, quoteError.value)
    requires forall c :: c in calls ==> !c.Deposit?
    ensures |attempts| > 0
    ensures LadderReport(chain, req, route, wrapHash, quoteError,
                         SwapError(ErrorPrefix + attempts[|attempts| - 1].error.value), calls, attempts)
  {
    Exhausted(Ladder(req.slippageBps), attempts);
  }

  /** A failure with `e` keeps every attempt failed with `e`. */
  lemma FailsAgain(attempts: seq<Attempt>, s: int, e: string)
    requires AllFailedWith(attempts, e)
    ensures AllFailedWith(attempts + [Attempt(s, Some(e))], e)
  {
  }

  /**
   * The slippage ladder: run the attempts in ladder order, stop at the first
   * that swaps or needs no swap, retry a retryable failure, and report the
   * last error otherwise. `wrapHash` is the deposit made before the ladder.
   */
  method RunLadder(ds: DragonSwapV2, wallet: Wallet, req: SwapRequest, wrapHash: Option<string>, nowMillis: nat,
                  route: Result<Route>, ghost quoteError: Option<string>)
    returns (r: SwapOutcome, calls: seq<WalletCall>, attempts: seq<Attempt>)
    requires ds.Valid() && Actionable(route)
    requires quoteError.Some? ==> route.Success? && !route.value.AlreadyWrapped? && IsRetryable(quoteError.value)
    requires quoteError.Some? ==> forall s :: MinOutFor(ds.chain, req, route.value, s) == Failure(quoteError.value)
    modifies ds
    ensures ds.Valid()
    ensures LadderReport(ds.chain, req, route, wrapHash, quoteError, r, calls, attempts)
  {
    var ladder := Ladder(req.slippageBps);
    var swapLog: seq<LogEntry> := [];
    calls, attempts := [], [];
    var k := 0;
    while k < |ladder|
      invariant ds.Valid()
      invariant 0 <= k <= |ladder| && |attempts| == k && RetriedSoFar(ladder, attempts)
      invariant forall c :: c in calls ==> !c.Deposit?
      invariant k > 0 ==> route != Success(AlreadyWrapped)
      invariant k == 0 ==> swapLog == [] && calls == []
      invariant route.Failure? ==> calls == [] && AllFailedWith(attempts, route.error)
      invariant quoteError.Some? ==> calls == [] && AllFailedWith(attempts, quoteError.value)
    {
      var outcome, attemptCalls, log := RunAttempt(ds, wallet, k, req, route, ladder[k], nowMillis, quoteError);
      calls := calls + attemptCalls;
      var before := swapLog;
      swapLog := swapLog + log;
      match outcome
      case NoSwapNeeded =>
        NoSwapReported(ds.chain, req, route, wrapHash, quoteError, swapLog);
        attempts := attempts + [Attempt(ladder[k], None)];
        return WrappedOnly(wrapHash, WrapLog(wrapHash) + swapLog), calls, attempts;
      case SwapSucceeded(hash, minOut, _) =>
        SwapLadderReported(ds.chain, req, route, wrapHash, quoteError, calls, attempts, minOut, before, log, hash);
        r := Swapped(hash, WrapLog(wrapHash) + swapLog, ladder[k], minOut, KindOf(wrapHash.Some?, req.path));
        attempts := attempts + [Attempt(ladder[k], None)];
        return r, calls, attempts;
      case AttemptFailed(e) =>
        if !IsRetryable(e) {
          ErrorReported(ds.chain, req, route, wrapHash, quoteError, calls, attempts, e);
          attempts := attempts + [Attempt(ladder[k], Some(e))];
          return SwapError(ErrorPrefix + e), calls, attempts;
        }
        Retries(ladder, attempts, e);
        if route.Failure? {
          FailsAgain(attempts, ladder[k], e);
        }
        if quoteError.Some? {
          FailsAgain(attempts, ladder[k], e);
        }
        attempts := attempts + [Attempt(ladder[k], Some(e))];
      k := k + 1;
    }
    ExhaustedReported(ds.chain, req, route, wrapHash, quoteError, calls, attempts);
    return SwapError(ErrorPrefix + attempts[|attempts| - 1].error.value), calls, attempts;
  }

  /** Why a native input cannot be wrapped: the balance read failed, or it does not cover the amount and the gas reserve. */
  function NativeShortfall(wallet: Wallet, req: SwapRequest): (e: string)
    ensures wallet.balance.Threw? ==> e == wallet.balance.message
    ensures wallet.balance.Done? ==> StartsWith(e, "Insufficient SEI balance. Have ") && |e| >= 20 && e[|e| - 20..] == " SEI (including gas)"
  {
    match wallet.balance
    case Threw(message) => message
    case Done(balance) => Insufficient(balance, req.amountIn + GasReserve)
  }

  /**
   * The wrap step: a native input is checked against the balance and then
   * deposited into WSEI, once, before any attempt; other input is left alone.
   */
  method WrapNative(wallet: Wallet, req: SwapRequest) returns (r: Result<Option<string>>, calls: seq<WalletCall>)
    ensures !IsNative(req.tokenIn) ==> r == Success(None) && calls == []
    ensures IsNative(req.tokenIn) && !Wraps(Some(wallet), req) ==> r == Failure(NativeShortfall(wallet, req)) && calls == []
    ensures Wraps(Some(wallet), req) ==> calls == [Deposit(req.amountIn)]
    ensures Wraps(Some(wallet), req) && wallet.deposit.Threw? ==> r == Failure(wallet.deposit.message)
    ensures r.Success? && IsNative(req.tokenIn) ==> Wraps(Some(wallet), req) && r == Success(Some(wallet.deposit.value))
    ensures r.Success? <==> !IsNative(req.tokenIn) || (Wraps(Some(wallet), req) && wallet.deposit.Done?)
  {
    if !IsNative(req.tokenIn) {
      return Success(None), [];
    }
    if !Wraps(Some(wallet), req) {
      // the balance read failed, or the balance is short of the amount and the gas reserve
      return Failure(NativeShortfall(wallet, req)), [];
    }
    calls := [Deposit(req.amountIn)];
    if wallet.deposit.Threw? {
      return Failure(wallet.deposit.message), calls;
    }
    return Success(Some(wallet.deposit.value)), calls;
  }

  /** The request gets as far as the ladder: a wallet is configured, and a native input was wrapped. */
  predicate ReachesLadder(wallet: Option<Wallet>, req: SwapRequest)
  {
    wallet.Some? && (IsNative(req.tokenIn) ==> Wraps(wallet, req) && wallet.value.deposit.Done?)
  }

  /**
   * Everything after the wrap: choose the route from the request and the
   * input token (WSEI once wrapped), then run the ladder along it.
   */
  method SwapAfterWrap(ds: DragonSwapV2, table: seq<TokenConfig>, wallet: Wallet, req: SwapRequest, wrapHash: Option<string>, nowMillis: nat)
    returns (r: SwapOutcome, calls: seq<WalletCall>, attempts: seq<Attempt>, route: Result<Route>)
    requires ds.Valid()
    modifies ds
    ensures ds.Valid()
    ensures route == RouteFor(ds.chain, table, req, ActualTokenIn(req))
    ensures forall c :: c in calls ==> !c.Deposit?
    ensures LadderRun(Ladder(req.slippageBps), r, attempts)
    ensures r.WrappedOnly? <==> route == Success(AlreadyWrapped)
    ensures r.WrappedOnly? ==> r == WrappedOnly(wrapHash, WrapLog(wrapHash)) && |attempts| == 1
    ensures SwapReport(ds.chain, req, route, wrapHash, attempts, r)
    ensures route.Failure? ==>
      r == SwapError(ErrorPrefix + route.error) && calls == []
    ensures route.Success?
            && !route.value.AlreadyWrapped?
            && MinOutFor(ds.chain, req, route.value, Ladder(req.slippageBps)[0]).Failure? ==>
      && |attempts| == |Ladder(req.slippageBps)| && calls == []
      && r == SwapError(ErrorPrefix + MinOutFor(ds.chain, req, route.value, Ladder(req.slippageBps)[0]).error)
  {
    route := ChooseRoute(ds.chain, table, req, ActualTokenIn(req));
    ghost var quoteError: Option<string> := None;
    if route.Success? && !route.value.AlreadyWrapped? {
      RoutesAreShaped(ds.chain, table, req, ActualTokenIn(req));
      var first := Ladder(req.slippageBps)[0];
      if MinOutFor(ds.chain, req, route.value, first).Failure? {
        quoteError := Some(MinOutFor(ds.chain, req, route.value, first).error);
        QuoteFailsAtEverySlippage(ds.chain, req, route.value, first);
      }
    }
    r, calls, attempts := RunLadder(ds, wallet, req, wrapHash, nowMillis, route, quoteError);
    return r, calls, attempts, route;
  }

  /**
   * The `executeSwap` handler: refuse without a wallet, wrap a native input,
   * then choose the route and run the slippage ladder. Every failure is
   * reported as text prefixed with "Error executing swap: ".
   */
  method ExecuteSwap(ds: DragonSwapV2, table: seq<TokenConfig>, wallet: Option<Wallet>, req: SwapRequest, nowMillis: nat)
    returns (r: SwapOutcome, calls: seq<WalletCall>, attempts: seq<Attempt>)
    requires ds.Valid()
    modifies ds
    ensures ds.Valid()
    ensures wallet.None? ==> r == SwapError(ErrorPrefix + NotConfigured) && calls == [] && attempts == []
    ensures wallet.Some? && IsNative(req.tokenIn) && !Wraps(wallet, req) ==>
      r == SwapError(ErrorPrefix + NativeShortfall(wallet.value, req)) && calls == [] && attempts == []
    ensures (Deposit(req.amountIn) in calls) <==> Wraps(wallet, req)
    ensures Wraps(wallet, req) ==> calls[0] == Deposit(req.amountIn)
    ensures forall i :: 0 < i < |calls| ==> !calls[i].Deposit?
    ensures Wraps(wallet, req) && wallet.value.deposit.Threw? ==>
      r == SwapError(ErrorPrefix + wallet.value.deposit.message) && calls == [Deposit(req.amountIn)] && attempts == []
    ensures |attempts| > 0 <==> ReachesLadder(wallet, req)
    ensures ReachesLadder(wallet, req) ==> LadderRun(Ladder(req.slippageBps), r, attempts)
    ensures !r.SwapError? ==> |attempts| > 0 && attempts[|attempts| - 1].error.None?
    ensures r.WrappedOnly? <==> ReachesLadder(wallet, req) && RouteFor(ds.chain, table, req, ActualTokenIn(req)) == Success(AlreadyWrapped)
    ensures r.Swapped? ==>
      && r.slippageUsed == attempts[|attempts| - 1].slippageBps
      && r.kind == KindOf(Wraps(wallet, req), req.path)
      && |r.transactions| > 0 && r.transactions[|r.transactions| - 1] == SwapDone(r.hash)
      && (Wraps(wallet, req) ==> r.transactions[0] == Wrap(wallet.value.deposit.value))
    ensures r.WrappedOnly? ==>
      |attempts| == 1 && r.wrapHash == (if Wraps(wallet, req) then Some(wallet.value.deposit.value) else None)
  {
    if wallet.None? {
      return SwapError(ErrorPrefix + NotConfigured), [], [];
    }
    var wrapped;
    wrapped, calls := WrapNative(wallet.value, req);
    if wrapped.Failure? {
      return SwapError(ErrorPrefix + wrapped.error), calls, [];
    }
    var ladderCalls, route;
    r, ladderCalls, attempts, route := SwapAfterWrap(ds, table, wallet.value, req, wrapped.value, nowMillis);
    calls := calls + ladderCalls;
  }
}
