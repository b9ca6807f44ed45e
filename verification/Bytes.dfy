/**
 * Byte strings read as unsigned big-endian integers.
 */
module Bytes {
  type Byte = b: int | 0 <= b < 256

  function Power256(n: nat): (r: nat)
    ensures r > 0
  {
    if n == 0 then 1 else 256 * Power256(n - 1)
  }

  /** The unsigned big-endian integer that the bytes spell. */
  function BigEndian(s: seq<Byte>): nat {
    if s == [] then 0 else 256 * BigEndian(s[..|s| - 1]) + s[|s| - 1]
  }

  /** The n bytes, zero padded on the left, that spell v modulo the space available. */
  function LeftPadded(v: nat, n: nat): (s: seq<Byte>)
    ensures |s| == n
  {
    if n == 0 then [] else LeftPadded(v / 256, n - 1) + [v % 256]
  }

  function Zeros(n: nat): (s: seq<Byte>)
    ensures |s| == n
  {
    seq(n, i => 0)
  }

  lemma {:induction false} PaddingRoundTrip(v: nat, n: nat)
    requires v < Power256(n)
    ensures BigEndian(LeftPadded(v, n)) == v
  {
    if n > 0 {
      PaddingRoundTrip(v / 256, n - 1);
      var s := LeftPadded(v, n);
      assert s[..n - 1] == LeftPadded(v / 256, n - 1);
    }
  }

  lemma {:induction false} BelowPower(s: seq<Byte>)
    ensures BigEndian(s) < Power256(|s|)
  {
    if s != [] {
      BelowPower(s[..|s| - 1]);
    }
  }

  /** Equally long byte strings compare as the first byte in which they differ. */
  lemma {:induction false} FirstDifferenceDecides(a: seq<Byte>, b: seq<Byte>, i: nat)
    requires |a| == |b| && i < |a|
    requires a[..i] == b[..i] && a[i] < b[i]
    ensures BigEndian(a) < BigEndian(b)
    decreases |a|
  {
    var n := |a| - 1;
    var p, q := a[..n], b[..n];
    if i == n {
    } else {
      assert p[..i] == a[..i] && q[..i] == b[..i];
      FirstDifferenceDecides(p, q, i);
    }
  }

  lemma {:induction false} BigEndianInjective(a: seq<Byte>, b: seq<Byte>)
    requires |a| == |b| && BigEndian(a) == BigEndian(b)
    ensures a == b
  {
    if a != [] {
      var n := |a| - 1;
      BigEndianInjective(a[..n], b[..n]);
      assert a == a[..n] + [a[n]] && b == b[..n] + [b[n]];
    }
  }
}
