/**
 * The chain as the engine sees it: a read-only snapshot of the contracts it
 * calls. Every call either returns a value or raises an error message, which
 * is all the engine ever inspects.
 */
module Chain {

  type Address = string

  /** `ethers.constants.AddressZero`. */
  const ZeroAddress: Address := "0x0000000000000000000000000000000000000000"

  /** The outcome of one contract call. */
  datatype Call<+T> = Done(value: T) | Threw(message: string)

  /** The two fields of a pool's `slot0()` the engine keeps. */
  datatype Slot0 = Slot0(sqrtPriceX96: nat, tick: int)

  /** What the quoter's `quoteExactInputSingle` returns. */
  datatype QuoterOutput = QuoterOutput(amountOut: nat, sqrtPriceX96After: nat, gasEstimate: nat)

  /**
   * The contracts behind the provider: the factory's `getPool(tokenA, tokenB, fee)`,
   * a pool's `slot0()` and `liquidity()`, the quoter's static call
   * `quoteExactInputSingle(tokenIn, tokenOut, amountIn, fee, 0)` and a token's
   * `decimals()`, `symbol()` and `name()`.
   */
  datatype Provider = Provider(
    getPool: (Address, Address, nat) -> Call<Address>,
    slot0: Address -> Call<Slot0>,
    liquidity: Address -> Call<nat>,
    quoteExactInputSingle: (Address, Address, nat, nat) -> Call<QuoterOutput>,
    decimals: Address -> Call<nat>,
    symbol: Address -> Call<string>,
    name: Address -> Call<string>)
}
