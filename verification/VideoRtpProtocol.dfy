/** `_VideoRtpProtocol` as the object it is, each method proved against `VideoSplice`. */
module VideoRtpProtocol {
  import opened Basics
  import opened Octets
  import opened Vp8
  import opened VideoSplice
  import Stun

  class VideoRtp {
    var up: bool
    var keyframeReceived: bool
    var firstKeyframe: bool
    var rtpSeen: bool
    var outSeq: nat
    var lastOutTs: int
    var tsOffset: Option<int>
    var lastRealAt: int
    var framesSent: nat
    var forwarded: nat
    var stunRequests: nat
    var nonRtp: nat
    var inputs: seq<seq<byte>>
    var sent: seq<Sent>

    function View(): Video
      reads this
    {
      Video(up, keyframeReceived, firstKeyframe, rtpSeen, outSeq, lastOutTs, tsOffset, lastRealAt,
            framesSent, forwarded, stunRequests, nonRtp, inputs, sent)
    }

    constructor ()
      ensures View() == INITIAL
    {
      up, keyframeReceived, firstKeyframe, rtpSeen := true, false, false, false;
      outSeq, lastOutTs, tsOffset, lastRealAt := 0, 0, None, 0;
      framesSent, forwarded, stunRequests, nonRtp := 0, 0, 0, 0;
      inputs, sent := [], [];
    }

    /** `_send_to_ffmpeg` */
    method SendToFfmpeg(kind: Kind, header01: seq<byte>, ts: int, rest: seq<byte>)
      modifies this
      ensures View() == Send(old(View()), kind, header01, ts, rest)
    {
      if !up { return; }
      sent := sent + [Sent(kind, ts, Wire(header01, outSeq, ts, rest))];
      outSeq := outSeq + 1;
      lastOutTs := Max(lastOutTs, ts);
    }

    /** `_placeholder_tick`, with its loop over the parts of the frame. */
    method PlaceholderTick(packets: seq<seq<byte>>, now: int)
      modifies this
      ensures View() == Tick(old(View()), packets, now)
    {
      if !up { return; }
      if tsOffset.Some? && now - lastRealAt >= RESUME_TICKS { tsOffset := None; }
      ghost var w := View();
      if tsOffset.None? {
        var ts := NextClockTs(View(), now);
        for i := 0 to |packets|
          invariant SendFrame(View(), packets, i, ts) == SendFrame(w, packets, 0, ts)
        {
          SendToFfmpeg(Filler(i), FillerHeader(i, |packets|), ts, packets[i]);
        }
        framesSent := framesSent + 1;
      }
    }

    method DatagramReceived(data: seq<byte>, now: int)
      modifies this
      ensures View() == Datagram(old(View()), data, now)
    {
      hide Rtp, IsKeyframe, U32At, U16At;
      if !up { return; }
      var src := |inputs|;
      inputs := inputs + [data];
      if Stun.IsBindingRequest(data) {
        stunRequests := stunRequests + 1;
        return;
      }
      if |data| < RTP_HEADER_SIZE || data[0] / 64 != 2 {
        nonRtp := nonRtp + 1;
        return;
      }
      rtpSeen := true;
      var key := DetectKeyframe(data[RTP_HEADER_SIZE..]);
      if !keyframeReceived && key {
        keyframeReceived, firstKeyframe := true, true;
      }
      ForwardRtp(data, src, key, now);
    }

    /** The end of `datagram_received`: the gate, the takeover and the re-stamping. */
    method ForwardRtp(data: seq<byte>, src: nat, key: bool, now: int)
      requires up && |data| >= RTP_HEADER_SIZE && (key <==> KeyStart(data))
      modifies this
      ensures View() == Rtp(old(View()), data, src, now)
    {
      if !keyframeReceived { return; }
      if tsOffset.None? {
        if !key { return; }
        tsOffset := Some(NextClockTs(View(), now) - RtpTs(data));
      }
      lastRealAt := now;
      SendToFfmpeg(Real(src), data[..2], RtpTs(data) + tsOffset.value, data[RTP_HEADER_SIZE..]);
      forwarded := forwarded + 1;
    }

    /** `close` and `connection_lost` */
    method Close()
      modifies this
      ensures View() == old(View()).(up := false)
    {
      up := false;
    }
  }
}
