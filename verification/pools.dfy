/**
 * Pool discovery: probe the four fee tiers of the factory for a token pair,
 * read the state of every pool found and rank the pools by liquidity.
 */
module Pools {
  import opened Wrappers
  import opened Chain

  datatype Tier = Tier(name: string, fee: nat)

  /** The fee tiers, in hundredths of a basis point, in the order they are probed. */
  const FeeTiers: seq<Tier> := [Tier("LOWEST", 100), Tier("LOW", 500), Tier("MEDIUM", 3000), Tier("HIGH", 10000)]

  datatype Pool = Pool(address: Address, fee: nat, tierName: string, sqrtPriceX96: nat, tick: int, liquidity: nat, active: bool)

  /** A registry answer that means "no pool": empty or the zero address. */
  predicate Missing(address: Address)
  {
    address == "" || address == ZeroAddress
  }

  /** The factory lookup for one tier: (A, B) first, and (B, A) only when that finds nothing. */
  function LookupTier(chain: Provider, tokenA: Address, tokenB: Address, fee: nat): (r: Call<Address>)
    ensures r.Done? && !Missing(r.value) ==> r == chain.getPool(tokenA, tokenB, fee) || r == chain.getPool(tokenB, tokenA, fee)
    ensures r != chain.getPool(tokenA, tokenB, fee) ==>
      chain.getPool(tokenA, tokenB, fee).Done? && Missing(chain.getPool(tokenA, tokenB, fee).value)
    ensures r.Threw? ==> chain.getPool(tokenA, tokenB, fee).Threw? || chain.getPool(tokenB, tokenA, fee).Threw?
  {
    match chain.getPool(tokenA, tokenB, fee)
    case Threw(m) => Threw(m)
    case Done(address) => if Missing(address) then chain.getPool(tokenB, tokenA, fee) else Done(address)
  }

  /** The pool one tier contributes, if any; a tier whose lookup or state read throws contributes nothing. */
  function ProbeTier(chain: Provider, tokenA: Address, tokenB: Address, tier: Tier): Option<Pool>
  {
    match LookupTier(chain, tokenA, tokenB, tier.fee)
    case Threw(_) => None
    case Done(address) =>
      if Missing(address) then None
      else match (chain.slot0(address), chain.liquidity(address))
        case (Done(s), Done(l)) => Some(Pool(address, tier.fee, tier.name, s.sqrtPriceX96, s.tick, l, l > 0))
        case _ => None
  }

  function Found(probe: Option<Pool>): seq<Pool>
  {
    if probe.Some? then [probe.value] else []
  }

  /** The pools found over `tiers`, in probe order, before ranking. */
  function Discovered(chain: Provider, tokenA: Address, tokenB: Address, tiers: seq<Tier>): seq<Pool>
    decreases |tiers|
  {
    if tiers == [] then []
    else Discovered(chain, tokenA, tokenB, tiers[..|tiers| - 1]) + Found(ProbeTier(chain, tokenA, tokenB, tiers[|tiers| - 1]))
  }

  /** The pools a discovery of the pair finds over all fee tiers. */
  function AllPools(chain: Provider, tokenA: Address, tokenB: Address): seq<Pool>
  {
    Discovered(chain, tokenA, tokenB, FeeTiers)
  }

  predicate SortedByLiquidity(pools: seq<Pool>)
  {
    forall i, j :: 0 <= i < j < |pools| ==> pools[i].liquidity >= pools[j].liquidity
  }

  predicate DistinctFees(pools: seq<Pool>)
  {
    forall i, j :: 0 <= i < j < |pools| ==> pools[i].fee != pools[j].fee
  }

  /** What every discovered pool satisfies. */
  predicate WellFormedPool(pool: Pool)
  {
    !Missing(pool.address) && (pool.active <==> pool.liquidity > 0)
  }

  predicate IncreasingFees(tiers: seq<Tier>)
  {
    forall i, j :: 0 <= i < j < |tiers| ==> tiers[i].fee < tiers[j].fee
  }

  /** `pool` is a discovered pool of the pair and no discovered pool has more liquidity. */
  ghost predicate IsTopPool(chain: Provider, tokenA: Address, tokenB: Address, pool: Pool)
  {
    && pool in AllPools(chain, tokenA, tokenB)
    && forall q :: q in AllPools(chain, tokenA, tokenB) ==> q.liquidity <= pool.liquidity
  }

  /** `fee` is the fee of a top-liquidity pool of the pair: what `pools[0].fee` reports. */
  ghost predicate TopFee(chain: Provider, tokenA: Address, tokenB: Address, fee: nat)
  {
    exists p :: IsTopPool(chain, tokenA, tokenB, p) && p.fee == fee
  }

  lemma TopPoolFee(chain: Provider, tokenA: Address, tokenB: Address, pool: Pool)
    requires IsTopPool(chain, tokenA, tokenB, pool)
    ensures TopFee(chain, tokenA, tokenB, pool.fee)
  {
  }

  /** A top pool's fee is one of the four tier fees, so it fits the three bytes a path gives it. */
  lemma TopFeeIsTierFee(chain: Provider, tokenA: Address, tokenB: Address, fee: nat)
    requires TopFee(chain, tokenA, tokenB, fee)
    ensures fee == 100 || fee == 500 || fee == 3000 || fee == 10000
    ensures fee < 0x100_0000
  {
    var p :| IsTopPool(chain, tokenA, tokenB, p) && p.fee == fee;
    DiscoveredWellFormed(chain, tokenA, tokenB, FeeTiers);
    var t :| t in FeeTiers && t.fee == p.fee;
  }

  lemma ProbeTierSound(chain: Provider, tokenA: Address, tokenB: Address, tier: Tier)
    ensures ProbeTier(chain, tokenA, tokenB, tier).Some? ==>
      var p := ProbeTier(chain, tokenA, tokenB, tier).value;
      WellFormedPool(p) && p.fee == tier.fee && p.tierName == tier.name
    ensures ProbeTier(chain, tokenA, tokenB, tier).Some? <==>
      && LookupTier(chain, tokenA, tokenB, tier.fee).Done?
      && !Missing(LookupTier(chain, tokenA, tokenB, tier.fee).value)
      && chain.slot0(LookupTier(chain, tokenA, tokenB, tier.fee).value).Done?
      && chain.liquidity(LookupTier(chain, tokenA, tokenB, tier.fee).value).Done?
  {
  }

  /** Every discovered pool is well formed and carries the fee of one of the probed tiers. */
  lemma {:induction false} DiscoveredWellFormed(chain: Provider, tokenA: Address, tokenB: Address, tiers: seq<Tier>)
    ensures forall p :: p in Discovered(chain, tokenA, tokenB, tiers) ==>
      WellFormedPool(p) && exists t :: t in tiers && t.fee == p.fee
    ensures |Discovered(chain, tokenA, tokenB, tiers)| <= |tiers|
    decreases |tiers|
  {
    if tiers != [] {
      var init, last := tiers[..|tiers| - 1], tiers[|tiers| - 1];
      DiscoveredWellFormed(chain, tokenA, tokenB, init);
      ProbeTierSound(chain, tokenA, tokenB, last);
      forall p | p in Discovered(chain, tokenA, tokenB, tiers)
        ensures WellFormedPool(p) && exists t :: t in tiers && t.fee == p.fee
      {
        if p in Discovered(chain, tokenA, tokenB, init) {
          var t :| t in init && t.fee == p.fee;
          assert t in tiers;
        } else {
          assert p == ProbeTier(chain, tokenA, tokenB, last).value;
          assert last in tiers;
        }
      }
    }
  }

  /** Probing tiers of increasing fee finds pools of increasing fee: at most one per tier. */
  lemma {:induction false} DiscoveredFeesIncrease(chain: Provider, tokenA: Address, tokenB: Address, tiers: seq<Tier>)
    requires IncreasingFees(tiers)
    ensures forall i, j :: 0 <= i < j < |Discovered(chain, tokenA, tokenB, tiers)| ==>
      Discovered(chain, tokenA, tokenB, tiers)[i].fee < Discovered(chain, tokenA, tokenB, tiers)[j].fee
    decreases |tiers|
  {
    if tiers != [] {
      var init, last := tiers[..|tiers| - 1], tiers[|tiers| - 1];
      var before := Discovered(chain, tokenA, tokenB, init);
      var all := Discovered(chain, tokenA, tokenB, tiers);
      DiscoveredFeesIncrease(chain, tokenA, tokenB, init);
      DiscoveredWellFormed(chain, tokenA, tokenB, init);
      ProbeTierSound(chain, tokenA, tokenB, last);
      forall i, j | 0 <= i < j < |all|
        ensures all[i].fee < all[j].fee
      {
        if j >= |before| {
          assert all[i] in before;
          var t :| t in init && t.fee == all[i].fee;
          assert all[j] == ProbeTier(chain, tokenA, tokenB, last).value;
        }
      }
    }
  }

  lemma DropAt(t: seq<Pool>, k: nat)
    requires k < |t|
    ensures multiset(t) == multiset(t[..k] + t[k + 1..]) + multiset{t[k]}
  {
    assert t == t[..k] + [t[k]] + t[k + 1..];
  }

  lemma DistinctTail(s: seq<Pool>)
    requires s != [] && DistinctFees(s)
    ensures DistinctFees(s[1..])
    ensures forall q :: q in s[1..] ==> q.fee != s[0].fee
  {
    forall i, j | 0 <= i < j < |s[1..]|
      ensures s[1..][i].fee != s[1..][j].fee
    {
      assert s[1..][i] == s[i + 1] && s[1..][j] == s[j + 1];
    }
  }

  lemma DistinctInsert(rest: seq<Pool>, k: nat, x: Pool)
    requires k <= |rest| && DistinctFees(rest)
    requires forall q :: q in rest ==> q.fee != x.fee
    ensures DistinctFees(rest[..k] + [x] + rest[k..])
  {
    var t := rest[..k] + [x] + rest[k..];
    forall i, j | 0 <= i < j < |t|
      ensures t[i].fee != t[j].fee
    {
      if i == k {
        assert t[j] == rest[j - 1];
      } else if j == k {
        assert t[i] == rest[i];
      } else {
        var i' := if i < k then i else i - 1;
        var j' := if j < k then j else j - 1;
        assert t[i] == rest[i'] && t[j] == rest[j'];
      }
    }
  }

  lemma PermutationTail(s: seq<Pool>, t: seq<Pool>, k: nat)
    requires multiset(s) == multiset(t)
    requires s != [] && k < |t| && t[k] == s[0]
    ensures multiset(s[1..]) == multiset(t[..k] + t[k + 1..])
  {
    var rest := t[..k] + t[k + 1..];
    DropAt(t, k);
    DropAt(s, 0);
    assert s[..0] + s[1..] == s[1..];
    forall y
      ensures multiset(s[1..])[y] == multiset(rest)[y]
    {
      assert (multiset(s[1..]) + multiset{s[0]})[y] == (multiset(rest) + multiset{s[0]})[y];
    }
  }

  /** The pools other than the first of a fee-distinct sequence, in any order, avoid its fee. */
  lemma OthersFees(s: seq<Pool>, rest: seq<Pool>)
    requires s != [] && DistinctFees(s)
    requires multiset(s[1..]) == multiset(rest)
    ensures forall q :: q in rest ==> q.fee != s[0].fee
  {
    DistinctTail(s);
    forall q | q in rest
      ensures q.fee != s[0].fee
    {
      assert q in multiset(s[1..]);
    }
  }

  /** Putting back the element taken out at `k` restores the sequence. */
  lemma Reinsert<T>(t: seq<T>, k: nat)
    requires k < |t|
    ensures t == (t[..k] + t[k + 1..])[..k] + [t[k]] + (t[..k] + t[k + 1..])[k..]
  {
    var rest := t[..k] + t[k + 1..];
    assert rest[..k] == t[..k];
    assert rest[k..] == t[k + 1..];
  }

  /** A permutation of a sequence with pairwise distinct fees has pairwise distinct fees. */
  lemma {:induction false} DistinctFeesPermutation(s: seq<Pool>, t: seq<Pool>)
    requires multiset(s) == multiset(t)
    requires DistinctFees(s)
    ensures DistinctFees(t)
    decreases |s|
  {
    if s != [] {
      var x := s[0];
      assert x in multiset(t);
      var k :| 0 <= k < |t| && t[k] == x;
      var rest := t[..k] + t[k + 1..];
      PermutationTail(s, t, k);
      DistinctTail(s);
      DistinctFeesPermutation(s[1..], rest);
      OthersFees(s, rest);
      Reinsert(t, k);
      DistinctInsert(rest, k, x);
    }
  }

  /** Exchanges two neighbouring elements. */
  method SwapDown(a: array<Pool>, j: nat)
    requires 0 < j < a.Length
    modifies a
    ensures a[..] == old(a[..])[j - 1 := old(a[j])][j := old(a[j - 1])]
    ensures multiset(a[..]) == multiset(old(a[..]))
  {
    a[j - 1], a[j] := a[j], a[j - 1];
  }

  /** Moves `a[i]` left past every pool with less liquidity, extending the ranked prefix by one. */
  method InsertAt(a: array<Pool>, i: nat)
    requires i < a.Length
    requires SortedByLiquidity(a[..i])
    modifies a
    ensures SortedByLiquidity(a[..i + 1])
    ensures multiset(a[..]) == multiset(old(a[..]))
    ensures a[i + 1..] == old(a[i + 1..])
  {
    var j := i;
    while j > 0 && a[j - 1].liquidity < a[j].liquidity
      invariant 0 <= j <= i
      invariant multiset(a[..]) == multiset(old(a[..]))
      invariant a[i + 1..] == old(a[i + 1..])
      invariant forall p, q :: 0 <= p < q <= i && p != j && q != j ==> a[p].liquidity >= a[q].liquidity
      invariant forall q :: j < q <= i ==> a[j].liquidity >= a[q].liquidity
      invariant 0 < j < i ==> a[j - 1].liquidity >= a[j + 1].liquidity
    {
      SwapDown(a, j);
      j := j - 1;
    }
  }

  /** Insertion sort by liquidity, highest first, in place. */
  method SortByLiquidity(a: array<Pool>)
    modifies a
    ensures SortedByLiquidity(a[..])
    ensures multiset(a[..]) == multiset(old(a[..]))
  {
    var i := 0;
    while i < a.Length
      invariant 0 <= i <= a.Length
      invariant SortedByLiquidity(a[..i])
      invariant multiset(a[..]) == multiset(old(a[..]))
    {
      InsertAt(a, i);
      i := i + 1;
    }
    assert a[..i] == a[..];
  }

  /**
   * `findBestPool`: probe every fee tier, then rank the pools found by
   * liquidity. An empty result means the pair has no pool; it is not an error.
   */
  method FindBestPool(chain: Provider, tokenA: Address, tokenB: Address) returns (pools: seq<Pool>)
    ensures multiset(pools) == multiset(AllPools(chain, tokenA, tokenB))
    ensures SortedByLiquidity(pools)
    ensures forall p :: p in pools ==> WellFormedPool(p)
    ensures DistinctFees(pools)
    ensures |pools| <= |FeeTiers|
    ensures |pools| > 0 ==> IsTopPool(chain, tokenA, tokenB, pools[0])
  {
    var found: seq<Pool> := [];
    var i := 0;
    while i < |FeeTiers|
      invariant 0 <= i <= |FeeTiers|
      invariant found == Discovered(chain, tokenA, tokenB, FeeTiers[..i])
    {
      var tier := FeeTiers[i];
      var lookup := chain.getPool(tokenA, tokenB, tier.fee);
      if lookup.Done? && Missing(lookup.value) {
        lookup := chain.getPool(tokenB, tokenA, tier.fee);
      }
      if lookup.Done? && !Missing(lookup.value) {
        var slot0 := chain.slot0(lookup.value);
        var liquidity := chain.liquidity(lookup.value);
        if slot0.Done? && liquidity.Done? {
          found := found + [Pool(lookup.value, tier.fee, tier.name, slot0.value.sqrtPriceX96, slot0.value.tick,
                                 liquidity.value, liquidity.value > 0)];
        }
      }
      assert FeeTiers[..i + 1][..i] == FeeTiers[..i];
      i := i + 1;
    }
    assert FeeTiers[..i] == FeeTiers;
    var a := new Pool[|found|](k requires 0 <= k < |found| => found[k]);
    assert a[..] == found;
    SortByLiquidity(a);
    pools := a[..];
    RankingOfDiscovered(chain, tokenA, tokenB, pools);
  }

  /** A ranking of the pair's discovered pools keeps what discovery guarantees, and its head is a top pool. */
  lemma RankingOfDiscovered(chain: Provider, tokenA: Address, tokenB: Address, pools: seq<Pool>)
    requires multiset(pools) == multiset(AllPools(chain, tokenA, tokenB))
    requires SortedByLiquidity(pools)
    ensures forall p :: p in pools ==> WellFormedPool(p)
    ensures DistinctFees(pools)
    ensures |pools| <= |FeeTiers|
    ensures |pools| > 0 ==> IsTopPool(chain, tokenA, tokenB, pools[0])
  {
    DiscoveredWellFormed(chain, tokenA, tokenB, FeeTiers);
    DiscoveredFeesIncrease(chain, tokenA, tokenB, FeeTiers);
    RankingKeeps(AllPools(chain, tokenA, tokenB), pools);
  }

  /** A ranking is a permutation: it keeps well-formedness, distinct fees and the length, and leads with a maximum. */
  lemma RankingKeeps(found: seq<Pool>, pools: seq<Pool>)
    requires multiset(pools) == multiset(found) && SortedByLiquidity(pools)
    requires forall p :: p in found ==> WellFormedPool(p)
    requires DistinctFees(found)
    ensures forall p :: p in pools ==> WellFormedPool(p)
    ensures DistinctFees(pools)
    ensures |pools| == |found|
    ensures |pools| > 0 ==> pools[0] in found && forall q :: q in found ==> q.liquidity <= pools[0].liquidity
  {
    DistinctFeesPermutation(found, pools);
    forall p | p in pools
      ensures WellFormedPool(p)
    {
      assert p in multiset(found);
    }
    assert |pools| == |multiset(pools)| == |multiset(found)| == |found|;
    if |pools| > 0 {
      forall q | q in found
        ensures q.liquidity <= pools[0].liquidity
      {
        assert q in multiset(pools);
      }
      assert pools[0] in multiset(found);
    }
  }

  /**
   * What a caller that only swaps through the best pool reads off
   * `findBestPool`: whether the list is empty, and its first pool.
   */
  method TopPool(chain: Provider, tokenA: Address, tokenB: Address) returns (top: Option<Pool>)
    ensures top.None? <==> |AllPools(chain, tokenA, tokenB)| == 0
    ensures top.Some? ==> IsTopPool(chain, tokenA, tokenB, top.value) && WellFormedPool(top.value)
  {
    var pools := FindBestPool(chain, tokenA, tokenB);
    assert |pools| == |multiset(pools)| == |AllPools(chain, tokenA, tokenB)|;
    if |pools| == 0 {
      return None;
    }
    return Some(pools[0]);
  }
}
