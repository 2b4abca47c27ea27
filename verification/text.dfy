/**
 * String helpers with the JavaScript meaning the engine relies on:
 * lower-casing, prefix and substring tests, `Array.join`, `Number.toString`
 * in base 10 and 16, and `String.padStart`.
 */
module Text {

  /** `toLowerCase` on one character, restricted to the ASCII letters. */
  function LowerChar(c: char): char
  {
    if 'A' <= c <= 'Z' then (c as int + 32) as char else c
  }

  function ToLower(s: string): (r: string)
    ensures |r| == |s|
  {
    seq(|s|, i requires 0 <= i < |s| => LowerChar(s[i]))
  }

  predicate StartsWith(s: string, prefix: string)
  {
    |prefix| <= |s| && s[..|prefix|] == prefix
  }

  /** `s.includes(part)`. */
  predicate Contains(s: string, part: string)
    decreases |s|
  {
    StartsWith(s, part) || (|s| > 0 && Contains(s[1..], part))
  }

  /** `part` occurs in `s` at index `i`. */
  predicate OccursAt(s: string, part: string, i: nat)
  {
    i + |part| <= |s| && s[i..i + |part|] == part
  }

  /** An `includes` answer of true names an index where the part occurs. */
  lemma {:induction false} ContainsFound(s: string, part: string)
    requires Contains(s, part)
    ensures exists i: nat :: OccursAt(s, part, i)
    decreases |s|
  {
    if StartsWith(s, part) {
      assert OccursAt(s, part, 0);
    } else {
      ContainsFound(s[1..], part);
      var i: nat :| OccursAt(s[1..], part, i);
      assert s[1..][i..i + |part|] == s[i + 1..i + 1 + |part|];
      assert OccursAt(s, part, i + 1);
    }
  }

  lemma {:induction false} ContainsAt(s: string, part: string, i: nat)
    requires i + |part| <= |s| && s[i..i + |part|] == part
    ensures Contains(s, part)
    decreases i
  {
    if i == 0 {
      assert s[..|part|] == part;
    } else {
      assert s[1..][i - 1..i - 1 + |part|] == s[i..i + |part|];
      ContainsAt(s[1..], part, i - 1);
    }
  }

  lemma {:induction false} ContainsInLeft(a: string, b: string, part: string)
    requires Contains(a, part)
    ensures Contains(a + b, part)
    decreases |a|
  {
    if StartsWith(a, part) {
      assert (a + b)[..|part|] == a[..|part|];
    } else {
      ContainsInLeft(a[1..], b, part);
      assert (a + b)[1..] == a[1..] + b;
    }
  }

  lemma {:induction false} ContainsInRight(a: string, b: string, part: string)
    requires Contains(b, part)
    ensures Contains(a + b, part)
    decreases |a|
  {
    if a == [] {
      assert a + b == b;
    } else {
      ContainsInRight(a[1..], b, part);
      assert (a + b)[1..] == a[1..] + b;
    }
  }

  /** `parts.join(sep)`. */
  function Join(parts: seq<string>, sep: string): string
  {
    if |parts| == 0 then ""
    else if |parts| == 1 then parts[0]
    else parts[0] + sep + Join(parts[1..], sep)
  }

  /** Joining one more part appends the separator and that part. */
  lemma {:induction false} JoinSnoc(parts: seq<string>, last: string, sep: string)
    requires |parts| >= 1
    ensures Join(parts + [last], sep) == Join(parts, sep) + sep + last
    decreases |parts|
  {
    if |parts| == 1 {
      assert (parts + [last])[1..] == [last];
    } else {
      assert (parts + [last])[1..] == parts[1..] + [last];
      JoinSnoc(parts[1..], last, sep);
    }
  }

  /** The lower-case digit for a value below 16. */
  function DigitChar(d: nat): char
    requires d < 16
  {
    if d < 10 then ('0' as int + d) as char else ('a' as int + d - 10) as char
  }

  /** The value of a lower-case hexadecimal digit (0 for any other character). */
  function DigitValue(c: char): nat
  {
    if '0' <= c <= '9' then c as int - '0' as int
    else if 'a' <= c <= 'f' then c as int - 'a' as int + 10
    else 0
  }

  /** `n.toString()`. */
  function DecimalText(n: nat): string
    decreases n
  {
    if n < 10 then [DigitChar(n)] else DecimalText(n / 10) + [DigitChar(n % 10)]
  }

  /** `n.toString(16)`: lower-case hexadecimal without leading zeros. */
  function Hex(n: nat): string
    decreases n
  {
    if n < 16 then [DigitChar(n)] else Hex(n / 16) + [DigitChar(n % 16)]
  }

  /** The number a string of hexadecimal digits denotes, most significant first. */
  function HexValue(s: string): nat
  {
    if s == [] then 0 else HexValue(s[..|s| - 1]) * 16 + DigitValue(s[|s| - 1])
  }

  function Repeat(c: char, n: nat): string
  {
    if n == 0 then "" else [c] + Repeat(c, n - 1)
  }

  /** `s.padStart(width, fill)` for a one-character fill. */
  function PadStart(s: string, width: nat, fill: char): string
  {
    if |s| >= width then s else Repeat(fill, width - |s|) + s
  }

  function Pow(base: nat, k: nat): nat
  {
    if k == 0 then 1 else base * Pow(base, k - 1)
  }

  lemma {:induction false} HexRoundTrip(n: nat)
    ensures HexValue(Hex(n)) == n
    decreases n
  {
    if n >= 16 {
      HexRoundTrip(n / 16);
      var h := Hex(n / 16) + [DigitChar(n % 16)];
      assert h[..|h| - 1] == Hex(n / 16);
    }
  }

  lemma {:induction false} RepeatLength(c: char, n: nat)
    ensures |Repeat(c, n)| == n
  {
    if n > 0 {
      RepeatLength(c, n - 1);
    }
  }

  lemma {:induction false} RepeatSnoc(c: char, n: nat)
    requires n > 0
    ensures Repeat(c, n) == Repeat(c, n - 1) + [c]
  {
    if n > 1 {
      RepeatSnoc(c, n - 1);
    }
  }

  lemma {:induction false} ZerosValue(n: nat)
    ensures HexValue(Repeat('0', n)) == 0
  {
    if n > 0 {
      RepeatSnoc('0', n);
      ZerosValue(n - 1);
      var z := Repeat('0', n);
      assert z[..|z| - 1] == Repeat('0', n - 1);
    }
  }

  /** Leading zeros do not change a hexadecimal value. */
  lemma {:induction false} LeadingZerosValue(n: nat, s: string)
    ensures HexValue(Repeat('0', n) + s) == HexValue(s)
    decreases |s|
  {
    if s == [] {
      assert Repeat('0', n) + s == Repeat('0', n);
      ZerosValue(n);
    } else {
      var z := Repeat('0', n) + s;
      LeadingZerosValue(n, s[..|s| - 1]);
      assert z[..|z| - 1] == Repeat('0', n) + s[..|s| - 1];
    }
  }

  /** `n.toString(16)` fits in `k` digits exactly when `n < 16^k`. */
  lemma {:induction false} HexLength(n: nat, k: nat)
    requires k >= 1
    ensures |Hex(n)| <= k <==> n < Pow(16, k)
    decreases n
  {
    if n < 16 {
      PowAtLeast(k);
    } else {
      if k == 1 {
        HexLengthAtLeast(n / 16);
      } else {
        HexLength(n / 16, k - 1);
      }
    }
  }

  lemma {:induction false} HexLengthAtLeast(n: nat)
    ensures |Hex(n)| >= 1
  {
  }

  lemma {:induction false} PowAtLeast(k: nat)
    requires k >= 1
    ensures Pow(16, k) >= 16
  {
    if k > 1 {
      PowAtLeast(k - 1);
    }
  }
}
