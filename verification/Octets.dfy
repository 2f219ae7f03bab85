/** Big-endian integers, as `struct` and `int.from_bytes` read and write them, and bitwise XOR. */
module Octets {
  import opened Basics

  function Pow256(n: nat): nat { if n == 0 then 1 else 256 * Pow256(n - 1) }

  /** The n low octets of v, most significant first. */
  function BigEndian(n: nat, v: nat): (r: seq<byte>)
    ensures |r| == n
  {
    if n == 0 then [] else BigEndian(n - 1, v / 256) + [v % 256]
  }

  function FromBigEndian(s: seq<byte>): nat
  {
    if s == [] then 0 else 256 * FromBigEndian(s[..|s| - 1]) + s[|s| - 1]
  }

  lemma {:induction false} BigEndianRoundTrip(n: nat, v: nat)
    requires v < Pow256(n)
    ensures FromBigEndian(BigEndian(n, v)) == v
  {
    if n > 0 {
      BigEndianRoundTrip(n - 1, v / 256);
      assert BigEndian(n, v)[..n - 1] == BigEndian(n - 1, v / 256);
    }
  }

  lemma {:induction false} FromBigEndianBound(s: seq<byte>)
    ensures FromBigEndian(s) < Pow256(|s|)
  {
    if s != [] { FromBigEndianBound(s[..|s| - 1]); }
  }

  lemma Widths()
    ensures Pow256(1) == 256 && Pow256(2) == U16 && Pow256(4) == U32
  {
    assert Pow256(3) == 0x100_0000;
  }

  function U16At(s: seq<byte>, i: nat): (v: nat)
    requires i + 2 <= |s|
    ensures v < U16
  {
    FromBigEndianBound(s[i..i + 2]);
    Widths();
    FromBigEndian(s[i..i + 2])
  }

  function U32At(s: seq<byte>, i: nat): (v: nat)
    requires i + 4 <= |s|
    ensures v < U32
  {
    FromBigEndianBound(s[i..i + 4]);
    Widths();
    FromBigEndian(s[i..i + 4])
  }

  /** Exclusive or of the n low bits. */
  function Xor(n: nat, a: nat, b: nat): (r: nat)
    ensures r < Pow2(n)
  {
    if n == 0 then 0 else 2 * Xor(n - 1, a / 2, b / 2) + (if a % 2 == b % 2 then 0 else 1)
  }

  lemma {:induction false} XorCancels(n: nat, a: nat, b: nat)
    requires a < Pow2(n)
    ensures Xor(n, Xor(n, a, b), b) == a
  {
    if n > 0 {
      XorCancels(n - 1, a / 2, b / 2);
      assert Xor(n, a, b) / 2 == Xor(n - 1, a / 2, b / 2);
    }
  }

  lemma BitWidths()
    ensures Pow2(8) == 256 && Pow2(16) == U16
  {
    assert Pow2(4) == 16 && Pow2(12) == 4096;
  }
}
