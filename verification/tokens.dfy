/**
 * The token table of the SEI network configuration and the resolution of a
 * token argument, given as a symbol or as an address, to an address.
 */
module Tokens {
  import opened Wrappers
  import opened Text
  import opened Chain

  /** One entry of the token table, stored under its lower-case key. */
  datatype TokenConfig = TokenConfig(key: string, evm: Address, symbol: string, decimals: nat, name: string)

  const WSEI: Address := "0xE30feDd158A2e3b13e9badaeABaFc5516e95e8C7"
  const USDT: Address := "0x9151434b16b9763660705744891fA906F660EcC5"

  /** DragonSwap V2's `SwapRouter02` on SEI mainnet. */
  const SwapRouter: Address := "0x11DA6463D6Cb5a03411Dbf5ab6f6bc3997Ac7428"

  /** The configured tokens, in the table's insertion order. */
  const SeiTokens: seq<TokenConfig> := [
    TokenConfig("wsei", WSEI, "WSEI", 18, "Wrapped SEI"),
    TokenConfig("usdc", "0xe15fC38F6D8c56aF07bbCBe3BAf5708A2Bf42392", "USDC", 6, "USD Coin"),
    TokenConfig("usdt", USDT, "USDT", 6, "USDT0"),
    TokenConfig("weth", "0x160345fC359604fC6e70E3c5fAcbdE5F7A9342d8", "WETH", 18, "Bridged Wrapped Ether (Stargate)"),
    TokenConfig("seiyan", "0x5f0E07dFeE5832Faa00c63F2D33A0D79150E8598", "SEIYAN", 6, "SEIYAN"),
    TokenConfig("jly", "0xDD7d5e4Ea2125d43C16eEd8f1FFeFffa2F4b4aF6", "JLY", 18, "Jelly Token")
  ]

  /** `tokens[key]` on the table's own entries. */
  function KeyLookup(tokens: seq<TokenConfig>, key: string): (r: Option<TokenConfig>)
    ensures r.Some? ==> r.value in tokens && r.value.key == key
    ensures r.None? ==> forall t :: t in tokens ==> t.key != key
  {
    if tokens == [] then None
    else if tokens[0].key == key then Some(tokens[0])
    else KeyLookup(tokens[1..], key)
  }

  /** The first entry, in table order, whose lower-cased symbol is `lowered`. */
  function SymbolLookup(tokens: seq<TokenConfig>, lowered: string): (r: Option<TokenConfig>)
    ensures r.Some? ==> exists i :: 0 <= i < |tokens| && tokens[i] == r.value && ToLower(r.value.symbol) == lowered
                          && forall j :: 0 <= j < i ==> ToLower(tokens[j].symbol) != lowered
    ensures r.None? ==> forall t :: t in tokens ==> ToLower(t.symbol) != lowered
  {
    if tokens == [] then None
    else if ToLower(tokens[0].symbol) == lowered then Some(tokens[0])
    else
      var r := SymbolLookup(tokens[1..], lowered);
      if r.Some? then
        ghost var i :| 0 <= i < |tokens[1..]| && tokens[1..][i] == r.value && ToLower(r.value.symbol) == lowered
                       && forall j :: 0 <= j < i ==> ToLower(tokens[1..][j].symbol) != lowered;
        assert tokens[i + 1] == r.value;
        r
      else r
  }

  /** Some entry of `tokens` answers to `input` by key or by symbol, ignoring case. */
  predicate Known(tokens: seq<TokenConfig>, input: string)
  {
    exists t :: t in tokens && (t.key == ToLower(input) || ToLower(t.symbol) == ToLower(input))
  }

  /**
   * `resolveTokenAddress`: text starting with "0x" is taken as an address;
   * anything else is looked up as a key, then as a symbol, and an unknown
   * name is an error.
   */
  function Resolve(tokens: seq<TokenConfig>, input: string): (r: Result<Address>)
    ensures StartsWith(input, "0x") ==> r == Success(input)
    ensures r.Failure? <==> !StartsWith(input, "0x") && !Known(tokens, input)
    ensures r.Failure? ==> r.error == "Unknown token: " + input
    ensures r.Success? && !StartsWith(input, "0x") ==>
      exists t :: t in tokens && r.value == t.evm && (t.key == ToLower(input) || ToLower(t.symbol) == ToLower(input))
  {
    if StartsWith(input, "0x") then Success(input)
    else match KeyLookup(tokens, ToLower(input))
      case Some(t) => Success(t.evm)
      case None =>
        match SymbolLookup(tokens, ToLower(input))
        case Some(t) => Success(t.evm)
        case None => Failure("Unknown token: " + input)
  }

  /**
   * Which entry answers a name: an entry stored under the lower-cased name
   * wins over any symbol match; on a key miss, the first entry in table
   * order whose lower-cased symbol matches answers.
   */
  lemma ResolveOrder(tokens: seq<TokenConfig>, input: string)
    ensures !StartsWith(input, "0x") && (exists t :: t in tokens && t.key == ToLower(input)) ==>
      exists t :: t in tokens && t.key == ToLower(input) && Resolve(tokens, input) == Success(t.evm)
    ensures !StartsWith(input, "0x") && (forall t :: t in tokens ==> t.key != ToLower(input))
            && Resolve(tokens, input).Success? ==>
      exists i :: 0 <= i < |tokens| && Resolve(tokens, input).value == tokens[i].evm
        && ToLower(tokens[i].symbol) == ToLower(input)
        && forall j :: 0 <= j < i ==> ToLower(tokens[j].symbol) != ToLower(input)
  {
  }

  /** Every configured address starts with "0x". */
  lemma ConfiguredAddresses()
    ensures forall t :: t in SeiTokens ==> StartsWith(t.evm, "0x")
  {
    forall i | 0 <= i < |SeiTokens|
      ensures StartsWith(SeiTokens[i].evm, "0x")
    {
      HexPrefix(SeiTokens[i].evm);
    }
  }

  /** Text whose first two characters are '0' and 'x' starts with "0x". */
  lemma HexPrefix(s: string)
    requires |s| >= 2 && s[0] == '0' && s[1] == 'x'
    ensures StartsWith(s, "0x")
  {
    assert s[..2] == [s[0], s[1]];
  }

  /** A resolved address resolves to itself: resolution is idempotent. */
  lemma ResolveIdempotent(input: string)
    ensures Resolve(SeiTokens, input).Success? ==>
      Resolve(SeiTokens, Resolve(SeiTokens, input).value) == Resolve(SeiTokens, input)
  {
    if Resolve(SeiTokens, input).Success? && Resolve(SeiTokens, input).value != input {
      ConfiguredAddresses();
    }
  }

  /** Every key is its entry's lower-cased symbol. */
  lemma KeysAreLoweredSymbols()
    ensures forall t :: t in SeiTokens ==> t.key == ToLower(t.symbol)
  {
    forall i | 0 <= i < |SeiTokens|
      ensures SeiTokens[i].key == ToLower(SeiTokens[i].symbol)
    {
      assert ToLower(SeiTokens[i].symbol) == SeiTokens[i].key;
    }
  }

  /**
   * With this table the symbol scan never decides anything: a name it would
   * find is already found as a key.
   */
  lemma SymbolScanRedundant(input: string)
    ensures KeyLookup(SeiTokens, ToLower(input)).None? ==> SymbolLookup(SeiTokens, ToLower(input)).None?
  {
    KeysAreLoweredSymbols();
  }

  /** The lookups miss a name that is no key. */
  lemma LookupsMiss(key: string)
    ensures (forall t :: t in SeiTokens ==> t.key != key) ==>
      KeyLookup(SeiTokens, key).None? && SymbolLookup(SeiTokens, key).None?
  {
    KeysAreLoweredSymbols();
  }

  /** A name that does not start like an address and is no key is unknown. */
  lemma UnknownName(input: string)
    ensures |input| > 0 && LowerChar(input[0]) != '0' && (forall t :: t in SeiTokens ==> t.key != ToLower(input)) ==>
      Resolve(SeiTokens, input) == Failure("Unknown token: " + input)
  {
    if |input| > 0 && LowerChar(input[0]) != '0' {
      assert !StartsWith(input, "0x") by {
        assert input[0] != '0';
        if |input| >= 2 {
          assert input[..2][0] != '0';
        }
      }
      LookupsMiss(ToLower(input));
    }
  }

  /** "SEI", in any case, is not a configured token: native SEI has to be handled before resolving. */
  lemma NativeIsNotAToken(input: string)
    requires ToLower(input) == "sei"
    ensures Resolve(SeiTokens, input) == Failure("Unknown token: " + input)
  {
    assert ToLower(input)[0] == LowerChar(input[0]);
    UnknownName(input);
  }

  /**
   * Lower-case property names every plain JavaScript object inherits, so
   * that looking them up in the table yields a value that is not an entry.
   */
  const InheritedKeys: set<string> := {"constructor", "__proto__"}

  /**
   * `resolveTokenAddress` as written: the key lookup also sees inherited
   * properties, whose `evm` field is undefined (None here), and returns it.
   */
  function ResolveAsWritten(input: string): (r: Result<Option<Address>>)
    ensures ToLower(input) !in InheritedKeys ==>
      r == (match Resolve(SeiTokens, input) case Success(a) => Success(Some(a)) case Failure(e) => Failure(e))
  {
    if StartsWith(input, "0x") then Success(Some(input))
    else match KeyLookup(SeiTokens, ToLower(input))
      case Some(t) => Success(Some(t.evm))
      case None =>
        if ToLower(input) in InheritedKeys then Success(None)
        else match SymbolLookup(SeiTokens, ToLower(input))
          case Some(t) => Success(Some(t.evm))
          case None => Failure("Unknown token: " + input)
  }

  /**
   * An inherited property name such as "constructor" resolves to no address
   * instead of raising "Unknown token".
   */
  lemma InheritedKeyResolvesToNothing(input: string)
    requires ToLower(input) in InheritedKeys
    ensures ResolveAsWritten(input) == Success(None)
    ensures Resolve(SeiTokens, input) == Failure("Unknown token: " + input)
  {
    assert ToLower(input)[0] == LowerChar(input[0]);
    UnknownName(input);
  }
}
