/** The placeholder frame cut into VP8 payloads (custom_components/intratone/audio_bridge.py,
    `_VP8_PLACEHOLDER_PACKETS`). */
module Vp8Placeholder {
  import opened Basics
  import opened Vp8

  const MAX_PAYLOAD := 1200

  /** `_VP8_PLACEHOLDER_PACKETS`: the frame in slices, S set in the first descriptor only. */
  function Packetize(frame: seq<byte>): (r: seq<seq<byte>>)
    ensures |r| == (|frame| + MAX_PAYLOAD - 1) / MAX_PAYLOAD
  {
    seq((|frame| + MAX_PAYLOAD - 1) / MAX_PAYLOAD,
        i requires 0 <= i < (|frame| + MAX_PAYLOAD - 1) / MAX_PAYLOAD => Slice(frame, i))
  }

  function Slice(frame: seq<byte>, i: nat): seq<byte>
    requires i < (|frame| + MAX_PAYLOAD - 1) / MAX_PAYLOAD
  {
    var from_ := i * MAX_PAYLOAD;
    var to := if from_ + MAX_PAYLOAD < |frame| then from_ + MAX_PAYLOAD else |frame|;
    [if i == 0 then 0x10 else 0x00] + frame[from_..to]
  }

  /** What a depacketizer does: drop each one-octet descriptor and join the rest. */
  function Reassemble(packets: seq<seq<byte>>): seq<byte>
    requires forall i :: 0 <= i < |packets| ==> packets[i] != []
  {
    if packets == [] then [] else Reassemble(packets[..|packets| - 1]) + packets[|packets| - 1][1..]
  }

  lemma {:induction false} ReassemblePrefix(frame: seq<byte>, n: nat)
    requires n <= |Packetize(frame)|
    ensures Reassemble(Packetize(frame)[..n]) ==
      frame[..if n * MAX_PAYLOAD < |frame| then n * MAX_PAYLOAD else |frame|]
  {
    if n > 0 {
      ReassemblePrefix(frame, n - 1);
      var ps := Packetize(frame);
      assert ps[..n][..n - 1] == ps[..n - 1];
      assert ps[..n][n - 1] == Slice(frame, n - 1);
    }
  }

  /** MAIN RESULT: the packets reassemble to the frame, each is non-empty and at most 1201 octets,
      and only the first starts a partition, so only it can be taken for a keyframe start. */
  lemma PacketsReassemble(frame: seq<byte>)
    ensures Reassemble(Packetize(frame)) == frame
    ensures forall i :: 0 <= i < |Packetize(frame)| ==>
      && 2 <= |Packetize(frame)[i]| <= MAX_PAYLOAD + 1
      && (IsKeyframe(Packetize(frame)[i]) <==> i == 0 && |Packetize(frame)[0]| >= 4 && frame[0] % 2 == 0)
  {
    var ps := Packetize(frame);
    ReassemblePrefix(frame, |ps|);
    assert ps[..|ps|] == ps;
    forall i | 0 <= i < |ps|
      ensures 2 <= |ps[i]| <= MAX_PAYLOAD + 1
      ensures IsKeyframe(ps[i]) <==> i == 0 && |ps[0]| >= 4 && frame[0] % 2 == 0
    {
      assert ps[i] == Slice(frame, i);
    }
  }
}
