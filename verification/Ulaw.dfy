/** The mu-law encoder of the mock peer (dev/mock_asterisk.py, `_lin2ulaw`), against the decoder of
    ITU-T Recommendation G.711. */
module Ulaw {
  import opened Basics

  const BIAS := 0x84
  const CLIP := 32635

  function Clipped(sample: int): int
  {
    if sample > CLIP then CLIP else if sample < -CLIP then -CLIP else sample
  }

  /** The biased magnitude, between 132 and 32767. */
  function Biased(sample: int): (m: nat)
    ensures BIAS <= m < 0x8000
  {
    (if sample < 0 then -Clipped(sample) else Clipped(sample)) + BIAS
  }

  /** The segment m lies in: 2^(e+7) <= m < 2^(e+8). */
  predicate InSegment(m: nat, e: nat) { e <= 7 && Pow2(e + 7) <= m < Pow2(e + 8) }

  lemma Powers()
    ensures Pow2(0) == 1 && Pow2(3) == 8 && Pow2(7) == 128 && Pow2(8) == 256 && Pow2(15) == 0x8000
  {
    assert Pow2(4) == 16;
    assert Pow2(11) == 2048;
  }

  lemma {:induction false} PowMonotone(a: nat, b: nat)
    requires a <= b
    ensures Pow2(a) <= Pow2(b)
    decreases b - a
  {
    if a < b { PowMonotone(a, b - 1); }
  }

  lemma SegmentUnique(m: nat, n: nat, d: nat, e: nat)
    requires InSegment(m, d) && InSegment(n, e) && m <= n
    ensures d <= e
  {
    if e < d { PowMonotone(e + 8, d + 7); }
  }

  /** The octet for a sign, a segment and the four bits below the leading one. */
  function Octet(negative: bool, m: nat, e: nat): byte
    requires e <= 7
  {
    255 - ((if negative then 128 else 0) + 16 * e + m / Pow2(e + 3) % 16)
  }

  /** `_lin2ulaw`, looking for the segment from the top down. The octet is fully determined by the
      sign and by the segment of the biased magnitude. */
  method Lin2Ulaw(sample: int) returns (code: byte, ghost e: nat)
    ensures InSegment(Biased(sample), e) && code == Octet(sample < 0, Biased(sample), e)
  {
    var negative := sample < 0;
    var magnitude := if sample < 0 then -sample else sample;
    if magnitude > CLIP { magnitude := CLIP; }
    magnitude := magnitude + BIAS;
    Powers();
    var exponent, mask := 7, 0x4000;
    assert Pow2(14) == 0x4000 by { assert Pow2(15) == 2 * Pow2(14); }
    while exponent > 0 && magnitude / mask % 2 == 0
      invariant 0 <= exponent <= 7 && mask == Pow2(exponent + 7)
      invariant BIAS <= magnitude < Pow2(exponent + 8) && magnitude == Biased(sample)
    {
      BitClear(magnitude, mask);
      exponent := exponent - 1;
      mask := mask / 2;
    }
    if exponent > 0 { BitSet(magnitude, mask); }
    e := exponent;
    code := Octet(negative, magnitude, exponent);
  }

  lemma BitClear(m: nat, mask: nat)
    requires mask > 0 && m < 2 * mask && m / mask % 2 == 0
    ensures m < mask
  {
    var q := m / mask;
    assert m == mask * q + m % mask;
    if q >= 2 { Times(mask, 2, q); }
  }

  lemma BitSet(m: nat, mask: nat)
    requires mask > 0 && m / mask % 2 != 0
    ensures m >= mask
  {}

  // ---------- the decoder ----------

  /** G.711: the middle of the quantization interval, less the bias. */
  function Decode(code: byte): int
  {
    var u := 255 - code;
    var e, mantissa := u / 16 % 8, u % 16;
    var t := (8 * mantissa + BIAS) * Pow2(e) - BIAS;
    if u / 128 == 1 then -t else t
  }

  /** The magnitude the decoder restores from a segment and its four bits. */
  function Middle(m: nat, e: nat): int { (8 * (m / Pow2(e + 3) % 16) + BIAS) * Pow2(e) - BIAS }

  lemma Digits(s: nat, e: nat, q: nat)
    requires s < 2 && e < 8 && q < 16
    ensures var u := 128 * s + 16 * e + q;
      u < 256 && u % 16 == q && u / 16 % 8 == e && u / 128 == s
  {
    assert (128 * s + 16 * e + q) / 16 == 8 * s + e;
  }

  lemma DecodeOctet(negative: bool, m: nat, e: nat)
    requires e <= 7
    ensures Decode(Octet(negative, m, e)) == if negative then -Middle(m, e) else Middle(m, e)
  {
    var q := m / Pow2(e + 3) % 16;
    Digits(if negative then 1 else 0, e, q);
    hide Pow2;
    assert 255 - Octet(negative, m, e) == 128 * (if negative then 1 else 0) + 16 * e + q;
  }

  lemma Lead(m: nat, d: nat, q: nat)
    requires d > 0 && 16 * d <= m < 32 * d && q == m / d
    ensures 16 <= q < 32 && q % 16 == q - 16 && 0 <= m - d * q < d
  {
    assert m == d * q + m % d;
    if q < 16 { Times(d, q, 15); }
    if q >= 32 { Times(d, 32, q); }
  }

  lemma Spread(q: nat, p: nat, d: nat)
    requires q >= 16 && d == 8 * p
    ensures (8 * (q - 16) + BIAS) * p == d * q + 4 * p
  {
    assert 8 * (q - 16) + BIAS == 8 * q + 4;
    assert (8 * q + 4) * p == 8 * p * q + 4 * p;
  }

  lemma PowerSteps(e: nat)
    ensures Pow2(e + 2) == 4 * Pow2(e) && Pow2(e + 3) == 8 * Pow2(e)
    ensures Pow2(e + 7) == 16 * Pow2(e + 3) && Pow2(e + 8) == 32 * Pow2(e + 3)
  {
    assert Pow2(e + 1) == 2 * Pow2(e);
    assert Pow2(e + 4) == 2 * Pow2(e + 3);
    assert Pow2(e + 5) == 2 * Pow2(e + 4);
    assert Pow2(e + 6) == 2 * Pow2(e + 5);
    assert Pow2(e + 7) == 2 * Pow2(e + 6);
  }

  /** In a segment, the four bits and the leading one are the quotient by the interval length. */
  lemma MiddleIs(m: nat, e: nat)
    requires InSegment(m, e)
    ensures Middle(m, e) + BIAS == Pow2(e + 3) * (m / Pow2(e + 3)) + Pow2(e + 2)
    ensures 16 <= m / Pow2(e + 3) < 32
    ensures 0 <= m - Pow2(e + 3) * (m / Pow2(e + 3)) < Pow2(e + 3)
  {
    PowerSteps(e);
    hide Pow2;
    var d := Pow2(e + 3);
    Lead(m, d, m / d);
    Spread(m / d, Pow2(e), d);
  }

  lemma MiddleIsNear(m: nat, e: nat)
    requires InSegment(m, e)
    ensures -(Pow2(e + 2) as int) <= Middle(m, e) - (m - BIAS) <= Pow2(e + 2)
  {
    MiddleIs(m, e);
    PowerSteps(e);
    hide Pow2, Middle;
  }

  lemma MiddleMonotone(m: nat, n: nat, d: nat, e: nat)
    requires InSegment(m, d) && InSegment(n, e) && m <= n
    ensures 0 <= Middle(m, d) <= Middle(n, e) || (m < BIAS)
  {
    SegmentUnique(m, n, d, e);
    MiddleIs(m, d);
    MiddleIs(n, e);
    Powers();
    PowMonotone(3, d + 3);
    PowMonotone(2, d + 2);
    assert Pow2(2) == 4;
    var s, t := Pow2(d + 3), Pow2(e + 3);
    assert s * (m / s) >= s * 16 by { assert m / s >= 16; Times(s, 16, m / s); }
    if d == e {
      Floors(m, n, s);
      Times(s, m / s, n / s);
    } else {
      assert s * (m / s) <= s * 31 by { Times(s, m / s, 31); }
      assert t * (n / t) >= t * 16 by { Times(t, 16, n / t); }
      PowMonotone(d + 4, e + 3);
      assert Pow2(d + 4) == 2 * s && s == 2 * Pow2(d + 2);
    }
  }

  lemma Times(s: nat, a: nat, b: nat)
    requires a <= b
    ensures s * a <= s * b
  {}

  lemma QuotientsOrdered(s: nat, q: nat, r: nat, a: nat, b: nat)
    requires a < s && b < s && s * q + a <= s * r + b
    ensures q <= r
  {
    if r < q { Times(s, r + 1, q); }
  }

  lemma Floors(m: nat, n: nat, s: nat)
    requires s > 0 && m <= n
    ensures m / s <= n / s
  {
    QuotientsOrdered(s, m / s, n / s, m % s, n % s);
  }

  /** MAIN RESULT: for every integer sample, what G.711 decodes is within half a quantization
      interval of the clipped sample. */
  lemma DecodeIsNear(sample: int, e: nat)
    requires InSegment(Biased(sample), e)
    ensures -(Pow2(e + 2) as int) <= Decode(Octet(sample < 0, Biased(sample), e)) - Clipped(sample) <= Pow2(e + 2)
  {
    DecodeOctet(sample < 0, Biased(sample), e);
    MiddleIsNear(Biased(sample), e);
  }

  /** MAIN RESULT: the encoding is monotone: a larger sample never decodes to a smaller one. */
  lemma EncodingIsMonotone(a: int, b: int, d: nat, e: nat)
    requires a <= b && InSegment(Biased(a), d) && InSegment(Biased(b), e)
    ensures Decode(Octet(a < 0, Biased(a), d)) <= Decode(Octet(b < 0, Biased(b), e))
  {
    DecodeOctet(a < 0, Biased(a), d);
    DecodeOctet(b < 0, Biased(b), e);
    if a < 0 && b < 0 {
      MiddleMonotone(Biased(b), Biased(a), e, d);
    } else {
      MiddleMonotone(Biased(a), Biased(a), d, d);
      MiddleMonotone(Biased(b), Biased(b), e, e);
      if a >= 0 { MiddleMonotone(Biased(a), Biased(b), d, e); }
    }
  }
}
