/**
  VP8 over RTP (RFC 7741): recognising the start of a keyframe behind the payload descriptor, and
  cutting the placeholder keyframe into packets
  (custom_components/intratone/audio_bridge.py, `_is_vp8_keyframe`, `_VP8_PLACEHOLDER_PACKETS`).
*/
module Vp8 {
  import opened Basics

  /** Does the payload begin a keyframe? The descriptor has S = 1 and PID = 0, and the first octet
      of the VP8 frame tag behind it is even. */
  predicate IsKeyframe(payload: seq<byte>)
  {
    && |payload| >= 4
    && payload[0] / 16 % 2 == 1 && payload[0] % 8 == 0
    && FrameOffset(payload) < |payload|
    && payload[FrameOffset(payload)] % 2 == 0
  }

  /** Where the descriptor ends: one octet, or with X the extension octet and what it announces. */
  function FrameOffset(payload: seq<byte>): nat
    requires |payload| >= 4
  {
    if payload[0] / 128 == 0 then 1
    else
      var ext := payload[1];
      2 + (if ext / 128 == 0 then 0 else if payload[2] / 128 == 0 then 1 else 2)
        + (if ext / 64 % 2 == 1 then 1 else 0)
        + (if ext / 32 % 2 == 1 || ext / 16 % 2 == 1 then 1 else 0)
  }

  /** `_is_vp8_keyframe`, step by step with its moving offset. */
  method DetectKeyframe(payload: seq<byte>) returns (key: bool)
    ensures key <==> IsKeyframe(payload)
  {
    if |payload| < 4 { return false; }
    var desc := payload[0];
    if desc / 16 % 2 == 0 || desc % 8 != 0 { return false; }
    var offset := 1;
    if desc / 128 % 2 == 1 {
      if offset >= |payload| { return false; }
      var ext := payload[offset];
      offset := offset + 1;
      if ext / 128 % 2 == 1 {
        if offset >= |payload| { return false; }
        offset := offset + (if payload[offset] / 128 % 2 == 1 then 2 else 1);
      }
      if ext / 64 % 2 == 1 { offset := offset + 1; }
      if ext / 32 % 2 == 1 || ext / 16 % 2 == 1 { offset := offset + 1; }
    }
    if offset >= |payload| { return false; }
    return payload[offset] % 2 == 0;
  }

  // ---------- the payload descriptor of section 4.2 of RFC 7741 ----------

  type bit = b: int | 0 <= b < 2

  datatype PictureId = NoId | ShortId(id: nat) | LongId(high: nat, low: byte)

  /** `tk` is the TID/Y/KEYIDX octet, present when T or K is set. */
  datatype Extension = Extension(picture: PictureId, tl0: Option<byte>, t: bit, k: bit, tidKeyIdx: byte, reserved: nat)

  datatype Descriptor = Descriptor(r1: bit, n: bit, s: bit, r2: bit, pid: nat, ext: Option<Extension>)

  predicate ValidExt(e: Extension)
  {
    && e.reserved < 16
    && (e.picture.ShortId? ==> e.picture.id < 128)
    && (e.picture.LongId? ==> e.picture.high < 128)
  }

  predicate Valid(d: Descriptor) { d.pid < 8 && (d.ext.Some? ==> ValidExt(d.ext.value)) }

  function EncodePicture(p: PictureId): seq<byte>
    requires (p.ShortId? ==> p.id < 128) && (p.LongId? ==> p.high < 128)
  {
    match p
    case NoId => []
    case ShortId(id) => [id]
    case LongId(high, low) => [128 + high, low]
  }

  function ExtOctet(e: Extension): byte
    requires ValidExt(e)
  {
    (if e.picture.NoId? then 0 else 128) + (if e.tl0.Some? then 64 else 0) + 32 * e.t + 16 * e.k + e.reserved
  }

  function EncodeExt(e: Extension): seq<byte>
    requires ValidExt(e)
  {
    [ExtOctet(e)] + EncodePicture(e.picture) + (if e.tl0.Some? then [e.tl0.value] else [])
      + (if e.t == 1 || e.k == 1 then [e.tidKeyIdx] else [])
  }

  function DescOctet(d: Descriptor): byte
    requires Valid(d)
  {
    (if d.ext.Some? then 128 else 0) + 64 * d.r1 + 32 * d.n + 16 * d.s + 8 * d.r2 + d.pid
  }

  function Encode(d: Descriptor): seq<byte>
    requires Valid(d)
  {
    [DescOctet(d)] + (if d.ext.Some? then EncodeExt(d.ext.value) else [])
  }

  lemma DescBits(d: Descriptor)
    requires Valid(d)
    ensures var b := DescOctet(d);
      (b / 128 == 1 <==> d.ext.Some?) && b / 16 % 2 == d.s && b % 8 == d.pid
  {
    var h := if d.ext.Some? then 1 else 0;
    var b := DescOctet(d);
    assert b == 128 * h + (64 * d.r1 + 32 * d.n + 16 * d.s + 8 * d.r2 + d.pid);
    var high := 4 * h + 2 * d.r1 + d.n;
    assert b == 16 * (2 * high + d.s) + (8 * d.r2 + d.pid);
    assert b == 8 * (2 * (2 * high + d.s) + d.r2) + d.pid;
  }

  lemma ExtBits(e: Extension)
    requires ValidExt(e)
    ensures var b := ExtOctet(e);
      && (b / 128 == 0 <==> e.picture.NoId?) && (b / 64 % 2 == 1 <==> e.tl0.Some?)
      && b / 32 % 2 == e.t && b / 16 % 2 == e.k
  {}

  lemma OffsetOfEncoding(d: Descriptor, frame: seq<byte>)
    requires Valid(d) && frame != [] && |Encode(d) + frame| >= 4
    ensures FrameOffset(Encode(d) + frame) == |Encode(d)|
  {
    DescBits(d);
    if d.ext.Some? {
      var e := d.ext.value;
      ExtBits(e);
      var p := Encode(d) + frame;
      assert p[1] == ExtOctet(e);
      if e.picture.ShortId? { assert p[2] == e.picture.id; }
      if e.picture.LongId? { assert p[2] == 128 + e.picture.high; }
    }
  }

  /** MAIN RESULT: a payload made of any descriptor and any frame is taken for a keyframe start
      exactly when S = 1, PID = 0, the frame tag's low bit is 0 and there are four octets in all. */
  lemma KeyframeIffEncoded(d: Descriptor, frame: seq<byte>)
    requires Valid(d) && frame != []
    ensures IsKeyframe(Encode(d) + frame) <==>
      |Encode(d) + frame| >= 4 && d.s == 1 && d.pid == 0 && frame[0] % 2 == 0
  {
    DescBits(d);
    var p := Encode(d) + frame;
    if |p| >= 4 {
      OffsetOfEncoding(d, frame);
      assert p[|Encode(d)|] == frame[0];
    }
  }

  // ---------- and nothing else is taken for a keyframe ----------

  /** Reads the descriptor back from a payload long enough to hold it and one octet more. */
  function Decode(p: seq<byte>): Descriptor
    requires |p| >= 4
  {
    Descriptor(p[0] / 64 % 2, p[0] / 32 % 2, p[0] / 16 % 2, p[0] / 8 % 2, p[0] % 8,
               if p[0] / 128 == 0 then None else Some(DecodeExt(p)))
  }

  function DecodeExt(p: seq<byte>): Extension
    requires |p| >= 4
  {
    var e := p[1];
    var picture := if e / 128 == 0 then NoId
                   else if p[2] / 128 == 0 then ShortId(p[2]) else LongId(p[2] - 128, p[3]);
    var i := 2 + |EncodePicture(picture)|;
    var tl0 := if e / 64 % 2 == 1 && i < |p| then Some(p[i]) else None;
    var j := i + (if e / 64 % 2 == 1 then 1 else 0);
    Extension(picture, tl0, e / 32 % 2, e / 16 % 2, if j < |p| then p[j] else 0, e % 16)
  }

  lemma Bits(b: byte)
    ensures b == 128 * (b / 128) + 64 * (b / 64 % 2) + 32 * (b / 32 % 2) + 16 * (b / 16 % 2) + b % 16
    ensures b % 16 == 8 * (b / 8 % 2) + b % 8 && b / 128 <= 1
  {
    assert b / 64 == 2 * (b / 128) + b / 64 % 2;
    assert b / 32 == 2 * (b / 64) + b / 32 % 2;
    assert b / 16 == 2 * (b / 32) + b / 16 % 2;
  }

  /** The picture id of a decoded extension is where it was read. */
  lemma PictureBack(p: seq<byte>)
    requires |p| >= 4 && p[0] / 128 == 1 && FrameOffset(p) < |p|
    ensures ValidExt(DecodeExt(p))
    ensures var q := EncodePicture(DecodeExt(p).picture); 2 + |q| <= FrameOffset(p) && q == p[2..2 + |q|]
  {
    if p[1] / 128 == 0 {
      assert p[2..2] == [];
    } else if p[2] / 128 == 0 {
      assert p[2..3] == [p[2]];
    } else {
      assert p[2..4] == [p[2], p[3]];
    }
  }

  lemma OctetBack(p: seq<byte>)
    requires |p| >= 4 && p[0] / 128 == 1 && FrameOffset(p) < |p| && ValidExt(DecodeExt(p))
    ensures ExtOctet(DecodeExt(p)) == p[1]
  {
    Bits(p[1]);
    PictureBack(p);
    hide EncodePicture;
  }

  /** The optional octets behind the picture id. */
  lemma OptionalsBack(p: seq<byte>)
    requires |p| >= 4 && p[0] / 128 == 1 && FrameOffset(p) < |p|
    ensures var e := DecodeExt(p); var i := 2 + |EncodePicture(e.picture)|;
      var j := i + (if e.tl0.Some? then 1 else 0);
      && i <= j <= FrameOffset(p)
      && (if e.tl0.Some? then [e.tl0.value] else []) == p[i..j]
      && (if e.t == 1 || e.k == 1 then [e.tidKeyIdx] else []) == p[j..FrameOffset(p)]
  {
    PictureBack(p);
    var e := DecodeExt(p);
    var n := if p[1] / 128 == 0 then 0 else if p[2] / 128 == 0 then 1 else 2;
    assert |EncodePicture(e.picture)| == n;
    hide EncodePicture, ValidExt;
  }

  lemma DecodeExtEncodes(p: seq<byte>)
    requires |p| >= 4 && p[0] / 128 == 1 && FrameOffset(p) < |p|
    ensures ValidExt(DecodeExt(p)) && EncodeExt(DecodeExt(p)) == p[1..FrameOffset(p)]
  {
    PictureBack(p);
    OctetBack(p);
    OptionalsBack(p);
    hide ExtOctet, EncodePicture, DecodeExt, FrameOffset, ValidExt;
    var e := DecodeExt(p);
    var i := 2 + |EncodePicture(e.picture)|;
    var j := i + (if e.tl0.Some? then 1 else 0);
    FourPieces(p, i, j, FrameOffset(p));
  }

  lemma FourPieces(p: seq<byte>, i: nat, j: nat, k: nat)
    requires 2 <= i <= j <= k <= |p|
    ensures p[1..k] == [p[1]] + p[2..i] + p[i..j] + p[j..k]
  {
    assert p[1..i] == [p[1]] + p[2..i];
    assert p[1..j] == p[1..i] + p[i..j];
    assert p[1..k] == p[1..j] + p[j..k];
  }

  lemma DecodeEncodes(p: seq<byte>)
    requires |p| >= 4 && FrameOffset(p) < |p|
    ensures Valid(Decode(p)) && Encode(Decode(p)) == p[..FrameOffset(p)]
  {
    DescBack(p);
    hide DescOctet, DecodeExt, EncodeExt;
    if p[0] / 128 == 1 {
      DecodeExtEncodes(p);
      assert p[..FrameOffset(p)] == [p[0]] + p[1..FrameOffset(p)];
    } else {
      assert p[..1] == [p[0]];
    }
  }

  lemma DescBack(p: seq<byte>)
    requires |p| >= 4
    ensures Decode(p).pid < 8 && (Decode(p).ext.Some? <==> p[0] / 128 == 1)
    ensures (Decode(p).ext.Some? ==> ValidExt(Decode(p).ext.value)) ==> DescOctet(Decode(p)) == p[0]
  {
    Bits(p[0]);
    hide DecodeExt, ValidExt;
  }

  /** MAIN RESULT, the other way: every payload taken for a keyframe start is an encoding of some
      descriptor with S = 1 and PID = 0 followed by a frame whose tag's low bit is 0. */
  lemma KeyframeOnlyEncoded(p: seq<byte>)
    requires IsKeyframe(p)
    ensures var d, frame := Decode(p), p[FrameOffset(p)..];
      Valid(d) && p == Encode(d) + frame && frame != [] && d.s == 1 && d.pid == 0 && frame[0] % 2 == 0
  {
    DecodeEncodes(p);
  }
}
