/**
  Splicing the placeholder and the gateway's VP8 into one RTP stream for ffmpeg, and the PLI loop
  that opens and closes the forwarding gate (custom_components/intratone/audio_bridge.py,
  `_VideoRtpProtocol` and `AudioBridge._pli_loop`). Time is counted in ticks of the 90 kHz video
  clock since the endpoint was created; nothing below needs the clock to be monotone.
*/
module VideoSplice {
  import opened Basics
  import opened Octets
  import opened Vp8
  import Stun

  const LOOPBACK_SSRC := 0x1D7A_7000
  const RESUME_TICKS := 180_000
  const RTP_HEADER_SIZE := 12
  const VP8_PAYLOAD_TYPE := 96
  const PLI_MAX_SENDS := 10

  /** What a datagram sent to ffmpeg is: one part of a placeholder frame, or the forwarded
      datagram with the given position among those received. */
  datatype Kind = Filler(part: nat) | Real(src: nat)

  datatype Sent = Sent(kind: Kind, ts: int, wire: seq<byte>)

  /** `inputs` and `sent` record what the two sockets have carried so far. */
  datatype Video = Video(
    up: bool,
    keyframeReceived: bool,
    firstKeyframe: bool,
    rtpSeen: bool,
    outSeq: nat,
    lastOutTs: int,
    tsOffset: Option<int>,
    lastRealAt: int,
    framesSent: nat,
    forwarded: nat,
    stunRequests: nat,
    nonRtp: nat,
    inputs: seq<seq<byte>>,
    sent: seq<Sent>)

  const INITIAL := Video(true, false, false, false, 0, 0, None, 0, 0, 0, 0, 0, [], [])

  predicate IsRtp(data: seq<byte>)
  {
    |data| >= RTP_HEADER_SIZE && data[0] / 64 == 2 && !Stun.IsBindingRequest(data)
  }

  function RtpTs(data: seq<byte>): nat
    requires |data| >= RTP_HEADER_SIZE
  {
    U32At(data, 4)
  }

  predicate KeyStart(data: seq<byte>) { |data| >= RTP_HEADER_SIZE && IsKeyframe(data[RTP_HEADER_SIZE..]) }

  function Max(a: int, b: int): int { if a < b then b else a }

  function NextClockTs(v: Video, now: int): int { Max(now, v.lastOutTs + 1) }

  /** The datagram with our sequence number, timestamp and SSRC between two given ends. */
  function Wire(header01: seq<byte>, n: nat, ts: int, rest: seq<byte>): seq<byte>
  {
    header01 + BigEndian(2, n % U16) + BigEndian(4, ts % U32) + BigEndian(4, LOOPBACK_SSRC) + rest
  }

  function Send(v: Video, kind: Kind, header01: seq<byte>, ts: int, rest: seq<byte>): Video
  {
    if !v.up then v
    else v.(outSeq := v.outSeq + 1,
            lastOutTs := Max(v.lastOutTs, ts),
            sent := v.sent + [Sent(kind, ts, Wire(header01, v.outSeq, ts, rest))])
  }

  function FillerHeader(part: nat, parts: nat): seq<byte>
  {
    [0x80, (if part + 1 == parts then 0x80 else 0) + VP8_PAYLOAD_TYPE]
  }

  /** The rest of one placeholder frame, from part i on, all with one timestamp. */
  function SendFrame(v: Video, packets: seq<seq<byte>>, i: nat, ts: int): Video
    requires i <= |packets|
    decreases |packets| - i
  {
    if i == |packets| then v
    else SendFrame(Send(v, Filler(i), FillerHeader(i, |packets|), ts, packets[i]), packets, i + 1, ts)
  }

  function Resumed(v: Video, now: int): Video
  {
    if v.tsOffset.Some? && now - v.lastRealAt >= RESUME_TICKS then v.(tsOffset := None) else v
  }

  /** `_placeholder_tick` */
  function Tick(v: Video, packets: seq<seq<byte>>, now: int): Video
  {
    if !v.up then v
    else
      var w := Resumed(v, now);
      if w.tsOffset.Some? then w
      else
        var x := SendFrame(w, packets, 0, NextClockTs(w, now));
        x.(framesSent := x.framesSent + 1)
  }

  function SeeKeyframe(v: Video, key: bool): Video
  {
    if !v.keyframeReceived && key then v.(keyframeReceived := true, firstKeyframe := true) else v
  }

  function Forward(v: Video, data: seq<byte>, src: nat, offset: int, now: int): Video
    requires |data| >= RTP_HEADER_SIZE
  {
    var w := v.(tsOffset := Some(offset), lastRealAt := now);
    var x := Send(w, Real(src), data[..2], RtpTs(data) + offset, data[RTP_HEADER_SIZE..]);
    x.(forwarded := x.forwarded + 1)
  }

  /** `_VideoRtpProtocol.datagram_received` */
  function Datagram(v: Video, data: seq<byte>, now: int): Video
  {
    if !v.up then v
    else
      var src := |v.inputs|;
      var u := v.(inputs := v.inputs + [data]);
      if Stun.IsBindingRequest(data) then u.(stunRequests := u.stunRequests + 1)
      else if !IsRtp(data) then u.(nonRtp := u.nonRtp + 1)
      else Rtp(SeeKeyframe(u.(rtpSeen := true), KeyStart(data)), data, src, now)
  }

  /** The gate: behind it, only a keyframe start takes over from the placeholder. */
  function Rtp(v: Video, data: seq<byte>, src: nat, now: int): Video
    requires |data| >= RTP_HEADER_SIZE
  {
    if !v.keyframeReceived then v
    else if v.tsOffset.Some? then Forward(v, data, src, v.tsOffset.value, now)
    else if !KeyStart(data) then v
    else Forward(v, data, src, NextClockTs(v, now) - RtpTs(data), now)
  }

  // ---------- the PLI loop beside it ----------

  /** `Burst(i)`: waiting after the i-th PLI of the initial burst. `Sleeping` and `WaitKey` are
      the two waits of the periodic refresh. */
  datatype PliPc = WaitRtp | Burst(i: nat) | Sleeping | WaitKey | Over

  datatype Call = Call(v: Video, pli: PliPc, plis: nat, failures: nat)

  const START := Call(INITIAL, WaitRtp, 0, 0)

  /** The head of the burst loop, with i PLIs sent. */
  function BurstTop(c: Call, i: nat): Call
  {
    if c.v.keyframeReceived then c.(pli := Sleeping) else c.(plis := c.plis + 1, pli := Burst(i + 1))
  }

  /** The PLI loop runs to its next wait; every wait may end at any time (event or timeout), except
      the first, which has no timeout. `failures` counts the calls of `on_video_failure`. */
  function PliStep(c: Call): Call
  {
    match c.pli
    case WaitRtp => if c.v.rtpSeen then BurstTop(c, 0) else c
    case Burst(i) =>
      if i < PLI_MAX_SENDS then BurstTop(c, i)
      else if c.v.keyframeReceived then c.(pli := Sleeping)
      else c.(failures := c.failures + 1, pli := Over)
    case Sleeping => c.(v := c.v.(keyframeReceived := false), plis := c.plis + 1, pli := WaitKey)
    case WaitKey => c.(v := c.v.(keyframeReceived := true), pli := Sleeping)
    case Over => c
  }

  datatype Event = TickAt(now: int) | Receive(data: seq<byte>, now: int) | PliWakes | PliCancelled | Down

  function Step(c: Call, packets: seq<seq<byte>>, e: Event): Call
  {
    match e
    case TickAt(now) => c.(v := Tick(c.v, packets, now))
    case Receive(data, now) => c.(v := Datagram(c.v, data, now))
    case PliWakes => PliStep(c)
    case PliCancelled => c.(pli := Over)
    case Down => c.(v := c.v.(up := false))
  }

  function Run(c: Call, packets: seq<seq<byte>>, es: seq<Event>): Call
    decreases |es|
  {
    if es == [] then c else Run(Step(c, packets, es[0]), packets, es[1..])
  }
}
