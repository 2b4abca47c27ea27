/** Token metadata records and the fallbacks applied when a metadata read fails. */
module Metadata {
  import opened Chain

  datatype TokenInfo = TokenInfo(address: Address, decimals: nat, symbol: string, name: string)

  /**
   * The record `getTokenInfo` caches for an address not seen before, from the
   * outcomes of the three metadata reads. A failing `decimals()` fails the
   * joint read and yields the degraded record; a failing `symbol()` or
   * `name()` only defaults that field.
   */
  function FetchInfo(address: Address, decimals: Call<nat>, symbol: Call<string>, name: Call<string>): (info: TokenInfo)
    ensures info.address == address
    ensures decimals.Threw? ==> info.decimals == 18 && info.symbol == "UNKNOWN" && info.name == "Unknown"
    ensures decimals.Done? ==> info.decimals == decimals.value
    ensures decimals.Done? ==> info.symbol == (if symbol.Done? then symbol.value else "UNKNOWN")
    ensures decimals.Done? ==> info.name == (if name.Done? then name.value else "Unknown Token")
  {
    match decimals
    case Threw(_) => TokenInfo(address, 18, "UNKNOWN", "Unknown")
    case Done(d) =>
      var s := match symbol case Done(v) => v case Threw(_) => "UNKNOWN";
      var n := match name case Done(v) => v case Threw(_) => "Unknown Token";
      TokenInfo(address, d, s, n)
  }

  /** The record the three metadata reads of `address` produce on this chain. */
  function Fetched(chain: Provider, address: Address): TokenInfo
  {
    FetchInfo(address, chain.decimals(address), chain.symbol(address), chain.name(address))
  }

  /**
   * Every cached record is the one a fresh read would produce: the cache
   * only ever stores fetched records, and the chain is one snapshot.
   */
  ghost predicate CacheAgrees(chain: Provider, cache: map<Address, TokenInfo>)
  {
    forall a :: a in cache ==> cache[a] == Fetched(chain, a)
  }

  lemma CacheAgreesValid(chain: Provider, cache: map<Address, TokenInfo>)
    requires CacheAgrees(chain, cache)
    ensures CacheValid(cache)
  {
    forall a | a in cache ensures cache[a].address == a {
      assert cache[a] == Fetched(chain, a);
    }
  }

  /** Every cached record is stored under its own address. */
  ghost predicate CacheValid(cache: map<Address, TokenInfo>)
  {
    forall a :: a in cache ==> cache[a].address == a
  }

  /** `after` keeps every entry of `before` unchanged: the cache is append-only. */
  ghost predicate CacheExtends(before: map<Address, TokenInfo>, after: map<Address, TokenInfo>)
  {
    forall a :: a in before ==> a in after && after[a] == before[a]
  }

  lemma CacheExtendsTransitive(c0: map<Address, TokenInfo>, c1: map<Address, TokenInfo>, c2: map<Address, TokenInfo>)
    requires CacheExtends(c0, c1) && CacheExtends(c1, c2)
    ensures CacheExtends(c0, c2)
  {
    forall a | a in c0
      ensures a in c2 && c2[a] == c0[a]
    {
      assert a in c1;
    }
  }
}
