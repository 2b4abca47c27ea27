/**
 * The packed path a multi-hop exact-input swap hands to the router:
 * "0x", then each token address without its "0x", each followed by the
 * pool fee of the next hop as three bytes (six lower-case hex digits).
 */
module PathCodec {
  import opened Wrappers
  import opened Text
  import opened Chain

  /** An element of `pathWithFees`: a token address or a fee tier. */
  datatype PathItem = Token(address: Address) | Fee(fee: nat)

  /** `s.slice(2)`. */
  function Drop2(s: string): string
  {
    if |s| <= 2 then "" else s[2..]
  }

  /** `fee.toString(16).padStart(6, '0')`. */
  function FeeText(fee: nat): string
  {
    PadStart(Hex(fee), 6, '0')
  }

  /** Every even position holds a token: the only positions where `slice` is called. */
  predicate Encodable(items: seq<PathItem>)
  {
    forall i :: 0 <= i < |items| && i % 2 == 0 ==> items[i].Token?
  }

  /**
   * What the loop appends for one item: `slice(2)` at even positions, and
   * `toString(16).padStart(6, '0')` at odd ones (a string's `toString`
   * ignores the radix, so a token there is only padded). A fee at an even
   * position never reaches this: `slice` throws first.
   */
  function Piece(item: PathItem, even: bool): string
  {
    match item
    case Token(a) => if even then Drop2(a) else PadStart(a, 6, '0')
    case Fee(f) => FeeText(f)
  }

  /** Everything after "0x" in the encoding of `items`. */
  function Body(items: seq<PathItem>): string
  {
    if items == [] then ""
    else Body(items[..|items| - 1]) + Piece(items[|items| - 1], (|items| - 1) % 2 == 0)
  }

  /** Appending one item extends the body by that item's piece. */
  lemma BodySnoc(items: seq<PathItem>, i: nat)
    requires i < |items|
    ensures Body(items[..i + 1]) == Body(items[..i]) + Piece(items[i], i % 2 == 0)
  {
    assert items[..i + 1][..i] == items[..i];
  }

  /** A prefix stays encodable when the next item is a token or sits at an odd position. */
  lemma EncodableSnoc(items: seq<PathItem>, i: nat)
    requires i < |items| && Encodable(items[..i])
    requires i % 2 == 0 ==> items[i].Token?
    ensures Encodable(items[..i + 1])
  {
    forall k | 0 <= k < i + 1 && k % 2 == 0
      ensures items[..i + 1][k].Token?
    {
      if k < i {
        assert items[..i][k] == items[k];
      }
    }
  }

  /**
   * `encodePath`: fails exactly when a fee sits at an even position, and
   * otherwise yields "0x" followed by the pieces in order.
   */
  method EncodePath(items: seq<PathItem>) returns (r: Result<string>)
    ensures r.Success? <==> Encodable(items)
    ensures r.Success? ==> r.value == "0x" + Body(items)
  {
    var encoded := "0x";
    for i := 0 to |items|
      invariant Encodable(items[..i])
      invariant encoded == "0x" + Body(items[..i])
    {
      var item := items[i];
      if i % 2 == 0 && item.Fee? {
        return Failure("pathWithFees[i].slice is not a function");
      }
      EncodableSnoc(items, i);
      var piece := Piece(item, i % 2 == 0);
      BodySnoc(items, i);
      Associate("0x", Body(items[..i]), piece);
      encoded := encoded + piece;
    }
    assert items[..|items|] == items;
    assert encoded == "0x" + Body(items);
    return Success(encoded);
  }

  /** A 20-byte address written as "0x" and 40 characters. */
  predicate WellFormedAddress(a: Address)
  {
    |a| == 42 && a[..2] == "0x"
  }

  /**
   * A path the router can take: one well-formed token, or a shorter such
   * path followed by a fee below 2^24 and a well-formed token.
   */
  predicate Canonical(items: seq<PathItem>)
    decreases |items|
  {
    if |items| == 1 then items[0].Token? && WellFormedAddress(items[0].address)
    else
      && |items| >= 3
      && items[|items| - 2].Fee? && items[|items| - 2].fee < 0x100_0000
      && items[|items| - 1].Token? && WellFormedAddress(items[|items| - 1].address)
      && Canonical(items[..|items| - 2])
  }

  /** The router's reading of a packed path body, from its last hop backwards. */
  function DecodeBody(s: string): Option<seq<PathItem>>
    decreases |s|
  {
    if |s| == 40 then Some([Token("0x" + s)])
    else if |s| < 86 then None
    else match DecodeBody(s[..|s| - 46])
      case None => None
      case Some(prefix) => Some(prefix + [Fee(HexValue(s[|s| - 46..|s| - 40])), Token("0x" + s[|s| - 40..])])
  }

  function DecodePath(encoded: string): Option<seq<PathItem>>
  {
    if |encoded| >= 2 && encoded[..2] == "0x" then DecodeBody(encoded[2..]) else None
  }

  /** A fee takes exactly three bytes iff it is below 2^24. */
  lemma FeeWidth(fee: nat)
    ensures |FeeText(fee)| == 6 <==> fee < 0x100_0000
    ensures fee < 0x100_0000 ==> HexValue(FeeText(fee)) == fee
  {
    HexLength(fee, 6);
    assert Pow(16, 6) == 0x100_0000;
    if fee < 0x100_0000 {
      HexLengthAtLeast(fee);
      LeadingZerosValue(6 - |Hex(fee)|, Hex(fee));
      HexRoundTrip(fee);
      RepeatLength('0', 6 - |Hex(fee)|);
    }
  }

  lemma {:induction false} CanonicalOdd(items: seq<PathItem>)
    requires Canonical(items)
    ensures |items| % 2 == 1
    decreases |items|
  {
    if |items| > 1 {
      CanonicalOdd(items[..|items| - 2]);
    }
  }

  /** A canonical path has tokens at every even position, so it encodes. */
  lemma {:induction false} CanonicalEncodable(items: seq<PathItem>)
    requires Canonical(items)
    ensures Encodable(items)
    decreases |items|
  {
    var n := |items|;
    if n > 1 {
      var prefix := items[..n - 2];
      CanonicalEncodable(prefix);
      CanonicalOdd(items);
      forall i | 0 <= i < n && i % 2 == 0 ensures items[i].Token? {
        if i < n - 2 {
          assert items[i] == prefix[i];
        }
      }
    }
  }

  /** Decoding a body extended by one fee and one token extends the decoded path by them. */
  lemma DecodeBodySnoc(prefix: string, fee: string, token: string, decoded: seq<PathItem>)
    requires |prefix| >= 40 && |fee| == 6 && |token| == 40
    requires DecodeBody(prefix) == Some(decoded)
    ensures DecodeBody(prefix + fee + token) == Some(decoded + [Fee(HexValue(fee)), Token("0x" + token)])
  {
    var s := prefix + fee + token;
    assert s[..|s| - 46] == prefix;
    assert s[|s| - 46..|s| - 40] == fee;
    assert s[|s| - 40..] == token;
  }

  /** The body of a path ends with the pieces of its last fee and last token. */
  lemma BodyLastHop(items: seq<PathItem>)
    requires |items| >= 3
    ensures Body(items) == Body(items[..|items| - 2]) + Piece(items[|items| - 2], (|items| - 2) % 2 == 0) + Piece(items[|items| - 1], (|items| - 1) % 2 == 0)
  {
    var n := |items|;
    var init := items[..n - 1];
    assert init[..n - 2] == items[..n - 2];
    assert init[n - 2] == items[n - 2];
    assert Body(items) == Body(init) + Piece(items[n - 1], (n - 1) % 2 == 0);
    assert Body(init) == Body(init[..n - 2]) + Piece(init[n - 2], (n - 2) % 2 == 0);
  }

  /** A full-length address loses exactly its "0x" to `slice(2)`. */
  lemma AddressBody(a: Address)
    requires WellFormedAddress(a)
    ensures |Drop2(a)| == 40 && "0x" + Drop2(a) == a
  {
    assert a == a[..2] + a[2..];
  }

  lemma Parity(n: nat)
    requires n >= 3 && n % 2 == 1
    ensures (n - 2) % 2 == 1 && (n - 1) % 2 == 0
  {
  }

  /** The body of a canonical path of several hops ends with its last fee and last token. */
  lemma CanonicalLastHop(items: seq<PathItem>)
    requires Canonical(items) && |items| >= 3
    ensures Body(items) == Body(items[..|items| - 2]) + FeeText(items[|items| - 2].fee) + Drop2(items[|items| - 1].address)
  {
    var n := |items|;
    CanonicalOdd(items);
    Parity(n);
    var fee, token := items[n - 2], items[n - 1];
    assert Piece(fee, false) == FeeText(fee.fee);
    assert Piece(token, true) == Drop2(token.address);
    BodyLastHop(items);
  }

  /** Decoding a decodable body extended by a fee and an address yields the path extended by them. */
  lemma HopRoundTrip(body: string, prefix: seq<PathItem>, f: nat, a: Address)
    requires |body| >= 40 && DecodeBody(body) == Some(prefix)
    requires f < 0x100_0000 && WellFormedAddress(a)
    ensures |body + FeeText(f) + Drop2(a)| == |body| + 46
    ensures DecodeBody(body + FeeText(f) + Drop2(a)) == Some(prefix + [Fee(f), Token(a)])
  {
    FeeWidth(f);
    AddressBody(a);
    DecodeBodySnoc(body, FeeText(f), Drop2(a), prefix);
  }

  /** One more hop adds 46 characters: a 3-byte fee and a 20-byte address. */
  lemma HopLength(n: nat)
    requires n >= 2
    ensures 40 + 46 * ((n - 2) / 2) + 6 + 40 == 40 + 46 * (n / 2)
  {
    assert n / 2 == (n - 2) / 2 + 1;
  }

  lemma SplitLastHop(items: seq<PathItem>)
    requires |items| >= 3 && items[|items| - 2].Fee? && items[|items| - 1].Token?
    ensures items == items[..|items| - 2] + [Fee(items[|items| - 2].fee), Token(items[|items| - 1].address)]
  {
  }

  lemma SingleTokenRoundTrip(items: seq<PathItem>)
    requires |items| == 1 && Canonical(items)
    ensures |Body(items)| == 40
    ensures DecodeBody(Body(items)) == Some(items)
  {
    var a := items[0].address;
    AddressBody(a);
    assert Body(items) == Body(items[..0]) + Piece(items[0], true);
    assert Body(items) == Drop2(a);
    assert items == [Token(a)];
  }

  /** A canonical path's body is 40 characters for the first token and 46 for each further hop. */
  lemma {:induction false} BodyLength(items: seq<PathItem>)
    requires Canonical(items)
    ensures |Body(items)| >= 40
    ensures |Body(items)| == 40 + 46 * (|items| / 2)
    decreases |items|
  {
    var n := |items|;
    if n == 1 {
      SingleTokenRoundTrip(items);
    } else {
      var prefix := items[..n - 2];
      CanonicalLastHop(items);
      BodyLength(prefix);
      FeeWidth(items[n - 2].fee);
      AddressBody(items[n - 1].address);
      HopLength(n);
    }
  }

  /** Decoding a canonical path's body gives the path back. */
  lemma {:induction false} BodyRoundTrip(items: seq<PathItem>)
    requires Canonical(items)
    ensures DecodeBody(Body(items)) == Some(items)
    decreases |items|
  {
    var n := |items|;
    if n == 1 {
      SingleTokenRoundTrip(items);
    } else {
      var prefix := items[..n - 2];
      CanonicalLastHop(items);
      BodyRoundTrip(prefix);
      BodyLength(prefix);
      SplitLastHop(items);
      HopRoundTrip(Body(prefix), prefix, items[n - 2].fee, items[n - 1].address);
    }
  }

  /** `DecodePath` inverts `encodePath` on canonical paths. */
  lemma EncodeDecodeRoundTrip(items: seq<PathItem>)
    requires Canonical(items)
    ensures Encodable(items)
    ensures |"0x" + Body(items)| == 42 + 46 * (|items| / 2)
    ensures DecodePath("0x" + Body(items)) == Some(items)
  {
    CanonicalEncodable(items);
    BodyLength(items);
    BodyRoundTrip(items);
    var e := "0x" + Body(items);
    assert e[..2] == "0x" && e[2..] == Body(items);
  }

  /** Two canonical paths with the same encoding are the same path. */
  lemma EncodingInjective(p: seq<PathItem>, q: seq<PathItem>)
    requires Canonical(p) && Canonical(q)
    ensures Encodable(p) && Encodable(q)
    ensures "0x" + Body(p) == "0x" + Body(q) ==> p == q
  {
    EncodeDecodeRoundTrip(p);
    EncodeDecodeRoundTrip(q);
  }

  /** `pathWithFees` for tokens `path` and hop fees `fees`: token, fee, token, ..., token. */
  function Interleave(path: seq<Address>, fees: seq<nat>): (items: seq<PathItem>)
    requires |path| == |fees| + 1
    ensures |items| == 2 * |path| - 1
    decreases |path|
  {
    if |path| == 1 then [Token(path[0])]
    else Interleave(path[..|path| - 1], fees[..|fees| - 1]) + [Fee(fees[|fees| - 1]), Token(path[|path| - 1])]
  }

  /** Building the path one hop further appends that hop's fee and its output token. */
  lemma InterleaveStep(path: seq<Address>, fees: seq<nat>, fee: nat, items: seq<PathItem>)
    requires |fees| + 1 < |path|
    requires items + [Token(path[|fees|])] == Interleave(path[..|fees| + 1], fees)
    ensures (items + [Token(path[|fees|]), Fee(fee)]) + [Token(path[|fees| + 1])] == Interleave(path[..|fees| + 2], fees + [fee])
  {
    var i := |fees|;
    var p, f := path[..i + 2], fees + [fee];
    assert Interleave(p, f) == Interleave(p[..|p| - 1], f[..|f| - 1]) + [Fee(f[|f| - 1]), Token(p[|p| - 1])];
    assert p[..|p| - 1] == path[..i + 1] && f[..|f| - 1] == fees;
    Regroup(items, Token(path[i]), Fee(fee), Token(path[i + 1]));
  }

  /** Concatenation associates. */
  lemma Associate<T>(a: seq<T>, b: seq<T>, c: seq<T>)
    ensures (a + b) + c == a + (b + c)
  {
    assert forall k :: 0 <= k < |a| + |b| + |c| ==> ((a + b) + c)[k] == (a + (b + c))[k];
  }

  /** Appending two items then one is appending one then two. */
  lemma Regroup<T>(s: seq<T>, x: T, y: T, z: T)
    ensures (s + [x, y]) + [z] == (s + [x]) + [y, z]
  {
    assert forall k :: 0 <= k < |s| + 3 ==> ((s + [x, y]) + [z])[k] == ((s + [x]) + [y, z])[k];
  }

  /** Full-length addresses and three-byte fees interleave into a canonical path. */
  lemma {:induction false} InterleaveCanonical(path: seq<Address>, fees: seq<nat>)
    requires |path| == |fees| + 1
    requires forall i :: 0 <= i < |path| ==> WellFormedAddress(path[i])
    requires forall i :: 0 <= i < |fees| ==> fees[i] < 0x100_0000
    ensures Canonical(Interleave(path, fees))
    decreases |path|
  {
    if |path| > 1 {
      var items := Interleave(path, fees);
      var prefix := Interleave(path[..|path| - 1], fees[..|fees| - 1]);
      InterleaveCanonical(path[..|path| - 1], fees[..|fees| - 1]);
      assert items[..|items| - 2] == prefix;
    }
  }

  /** Interleaving puts a token at every even position, whatever the addresses and fees. */
  lemma {:induction false} InterleaveEncodable(path: seq<Address>, fees: seq<nat>)
    requires |path| == |fees| + 1
    ensures Encodable(Interleave(path, fees))
    decreases |path|
  {
    if |path| > 1 {
      var items := Interleave(path, fees);
      var prefix := Interleave(path[..|path| - 1], fees[..|fees| - 1]);
      InterleaveEncodable(path[..|path| - 1], fees[..|fees| - 1]);
      var n := |prefix|;
      assert n % 2 == 1;
      forall i | 0 <= i < |items| && i % 2 == 0 ensures items[i].Token? {
        if i < n {
          assert items[i] == prefix[i];
        }
      }
    }
  }
}
