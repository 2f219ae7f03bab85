/** What ffmpeg and the gateway can rely on, over every run of the video endpoint. */
module VideoTheorems {
  import opened Basics
  import opened Octets
  import opened Vp8
  import opened VideoSplice
  import opened VideoRuns

  ghost predicate Reached(packets: seq<seq<byte>>, es: seq<Event>, c: Call)
  {
    packets != [] && Run(START, packets, es) == c
  }

  lemma ReachedKeeps(packets: seq<seq<byte>>, es: seq<Event>, c: Call)
    requires Reached(packets, es, c)
    ensures CallInv(c, packets)
  {
    StartKeeps(packets);
    hide CallInv;
    RunKeeps(START, packets, es);
  }

  lemma WireFields(header01: seq<byte>, n: nat, ts: int, rest: seq<byte>)
    requires |header01| == 2
    ensures var w := Wire(header01, n, ts, rest);
      && |w| == RTP_HEADER_SIZE + |rest| && w[..2] == header01 && w[RTP_HEADER_SIZE..] == rest
      && U16At(w, 2) == n % U16 && U32At(w, 4) == ts % U32 && U32At(w, 8) == LOOPBACK_SSRC
  {
    WireLayout(header01, n, ts, rest);
    hide Wire, BigEndian, FromBigEndian, Pow256;
    Widths();
    BigEndianRoundTrip(2, n % U16);
    BigEndianRoundTrip(4, ts % U32);
    BigEndianRoundTrip(4, LOOPBACK_SSRC);
  }

  lemma WireLayout(header01: seq<byte>, n: nat, ts: int, rest: seq<byte>)
    requires |header01| == 2
    ensures var w := Wire(header01, n, ts, rest);
      && |w| == RTP_HEADER_SIZE + |rest| && w[..2] == header01 && w[RTP_HEADER_SIZE..] == rest
      && w[2..4] == BigEndian(2, n % U16) && w[4..8] == BigEndian(4, ts % U32)
      && w[8..12] == BigEndian(4, LOOPBACK_SSRC)
  {
    hide BigEndian;
  }

  /** MAIN RESULT: what ffmpeg gets is one RTP stream. The i-th packet carries sequence number
      i mod 2^16 and one SSRC; a placeholder packet is version 2 with payload type 96, marked if its
      slice ends the frame, and carries that slice; a real one carries the two leading octets and
      everything behind the fixed header of the datagram it forwards. */
  lemma OneStream(packets: seq<seq<byte>>, es: seq<Event>, c: Call, i: nat)
    requires Reached(packets, es, c) && i < |c.v.sent|
    ensures var e := c.v.sent[i];
      && |e.wire| >= RTP_HEADER_SIZE
      && U16At(e.wire, 2) == i % U16 && U32At(e.wire, 4) == e.ts % U32 && U32At(e.wire, 8) == LOOPBACK_SSRC
      && (e.kind.Filler? ==>
            && e.kind.part < |packets| && e.wire[RTP_HEADER_SIZE..] == packets[e.kind.part]
            && e.wire[0] == 0x80
            && e.wire[1] == (if e.kind.part == |packets| - 1 then 0x80 else 0) + 96)
      && (e.kind.Real? ==>
            && e.kind.src < |c.v.inputs| && IsRtp(c.v.inputs[e.kind.src])
            && e.wire[..2] == c.v.inputs[e.kind.src][..2]
            && e.wire[RTP_HEADER_SIZE..] == c.v.inputs[e.kind.src][RTP_HEADER_SIZE..])
  {
    ReachedKeeps(packets, es, c);
    var e := c.v.sent[i];
    assert Stamped(c.v.sent, c.v.inputs, packets, i);
    hide CallInv;
    match e.kind {
      case Filler(k) =>
        WireFields(FillerHeader(k, |packets|), i, e.ts, packets[k]);
        assert e.wire[0] == e.wire[..2][0] && e.wire[1] == e.wire[..2][1];
      case Real(j) => WireFields(c.v.inputs[j][..2], i, e.ts, c.v.inputs[j][RTP_HEADER_SIZE..]);
    }
  }

  /** Real output is a subsequence of the input. */
  lemma RealIsSubsequence(packets: seq<seq<byte>>, es: seq<Event>, c: Call, a: nat, b: nat)
    requires Reached(packets, es, c) && a < b < |c.v.sent| && c.v.sent[a].kind.Real? && c.v.sent[b].kind.Real?
    ensures c.v.sent[a].kind.src < c.v.sent[b].kind.src
  {
    ReachedKeeps(packets, es, c);
  }

  /** MAIN RESULT: whatever the clock does, each placeholder frame and each takeover by real video
      is stamped later than everything sent before it. */
  lemma OpeningsAreLater(packets: seq<seq<byte>>, es: seq<Event>, c: Call, a: nat, b: nat)
    requires Reached(packets, es, c) && a < b < |c.v.sent| && Opens(c.v.sent, b)
    ensures c.v.sent[a].ts < c.v.sent[b].ts
  {
    ReachedKeeps(packets, es, c);
  }

  /** Entries i to j all forward datagrams of the gateway. */
  predicate RealSegment(v: Video, i: nat, j: nat)
    requires i <= j < |v.sent|
  {
    forall k :: i <= k <= j ==> v.sent[k].kind.Real?
  }

  predicate Forwards(v: Video, i: nat)
    requires i < |v.sent|
  {
    v.sent[i].kind.Real? && v.sent[i].kind.src < |v.inputs| && IsRtp(v.inputs[v.sent[i].kind.src])
  }

  lemma SegmentEntry(packets: seq<seq<byte>>, v: Video, i: nat)
    requires LogOk(v.sent, v.inputs, packets) && i < |v.sent| && v.sent[i].kind.Real?
    ensures Forwards(v, i)
    ensures i > 0 && v.sent[i - 1].kind.Real? ==>
      && Forwards(v, i - 1)
      && v.sent[i].ts - v.sent[i - 1].ts
         == RtpTs(v.inputs[v.sent[i].kind.src]) - RtpTs(v.inputs[v.sent[i - 1].kind.src])
  {
    assert Stamped(v.sent, v.inputs, packets, i);
    if i > 0 {
      assert Stamped(v.sent, v.inputs, packets, i - 1);
      assert Follows(v.sent, v.inputs, packets, i);
    }
    hide LogOk, IsRtp, RtpTs, Wire, KeyStart;
  }

  lemma {:induction false} SegmentShifts(packets: seq<seq<byte>>, v: Video, i: nat, j: nat)
    requires LogOk(v.sent, v.inputs, packets) && i <= j < |v.sent| && RealSegment(v, i, j)
    ensures var x, y := v.sent[i].kind.src, v.sent[j].kind.src;
      && x < |v.inputs| && IsRtp(v.inputs[x]) && y < |v.inputs| && IsRtp(v.inputs[y])
      && v.sent[j].ts - v.sent[i].ts == RtpTs(v.inputs[y]) - RtpTs(v.inputs[x])
    decreases j - i
  {
    hide LogOk, RtpTs;
    SegmentEntry(packets, v, j);
    if i < j { SegmentShifts(packets, v, i, j - 1); }
  }

  lemma WireDifference(a: int, b: int)
    ensures (b % U32 - a % U32) % U32 == (b - a) % U32
  {
    var q := (b / U32 - a / U32);
    assert b - a == (b % U32 - a % U32) + q * U32;
  }

  /** MAIN RESULT: between any two packets of one real segment the stamps, and with them the
      timestamp fields on the wire, are as far apart as in the datagrams they forward. */
  lemma SegmentsKeepSpacing(packets: seq<seq<byte>>, es: seq<Event>, c: Call, i: nat, j: nat)
    requires Reached(packets, es, c) && i <= j < |c.v.sent| && RealSegment(c.v, i, j)
    ensures var d, e := c.v.sent[i], c.v.sent[j];
      && d.kind.src < |c.v.inputs| && IsRtp(c.v.inputs[d.kind.src])
      && e.kind.src < |c.v.inputs| && IsRtp(c.v.inputs[e.kind.src])
      && e.ts - d.ts == RtpTs(c.v.inputs[e.kind.src]) - RtpTs(c.v.inputs[d.kind.src])
      && |d.wire| >= RTP_HEADER_SIZE && |e.wire| >= RTP_HEADER_SIZE
      && (U32At(e.wire, 4) - U32At(d.wire, 4)) % U32 == (e.ts - d.ts) % U32
  {
    hide LogOk, RealSegment;
    ReachedKeeps(packets, es, c);
    hide Reached, CallInv, IsRtp, RtpTs, U32At, U16At;
    SegmentShifts(packets, c.v, i, j);
    OneStream(packets, es, c, i);
    OneStream(packets, es, c, j);
    WireDifference(c.v.sent[i].ts, c.v.sent[j].ts);
  }

  /** The source's stamps never decrease from one forwarded packet to the next. */
  ghost predicate SourceMonotone(v: Video)
  {
    forall i :: 0 < i < |v.sent| && RealPair(v, i) ==>
      RtpTs(v.inputs[v.sent[i - 1].kind.src]) <= RtpTs(v.inputs[v.sent[i].kind.src])
  }

  predicate RealPair(v: Video, i: nat)
    requires 0 < i < |v.sent|
  {
    && v.sent[i - 1].kind.Real? && v.sent[i].kind.Real?
    && v.sent[i - 1].kind.src < |v.inputs| && v.sent[i].kind.src < |v.inputs|
    && IsRtp(v.inputs[v.sent[i - 1].kind.src]) && IsRtp(v.inputs[v.sent[i].kind.src])
  }

  lemma StampsStep(packets: seq<seq<byte>>, v: Video, i: nat)
    requires LogOk(v.sent, v.inputs, packets) && SourceMonotone(v) && 0 < i < |v.sent|
    ensures v.sent[i - 1].ts <= v.sent[i].ts
  {
    assert Stamped(v.sent, v.inputs, packets, i) && Stamped(v.sent, v.inputs, packets, i - 1);
    assert Follows(v.sent, v.inputs, packets, i);
    if Opens(v.sent, i) {
    } else if v.sent[i].kind.Real? {
      assert RealPair(v, i);
    }
  }

  lemma {:induction false} StampsUpTo(packets: seq<seq<byte>>, v: Video, a: nat, b: nat)
    requires LogOk(v.sent, v.inputs, packets) && SourceMonotone(v) && a <= b < |v.sent|
    ensures v.sent[a].ts <= v.sent[b].ts
    decreases b - a
  {
    if a < b {
      StampsStep(packets, v, b);
      StampsUpTo(packets, v, a, b - 1);
    }
  }

  /** MAIN RESULT: if the source's stamps never decrease within a segment, the whole spliced
      stream never goes back in time. */
  lemma StreamIsMonotone(packets: seq<seq<byte>>, es: seq<Event>, c: Call, a: nat, b: nat)
    requires Reached(packets, es, c) && SourceMonotone(c.v) && a <= b < |c.v.sent|
    ensures c.v.sent[a].ts <= c.v.sent[b].ts
  {
    ReachedKeeps(packets, es, c);
    StampsUpTo(packets, c.v, a, b);
  }

  /** MAIN RESULT: the decoder never meets a real packet without a reference frame, even when the
      PLI loop closes the gate or forces it open: the first real packet, and the first after any
      placeholder packet, starts a keyframe. */
  lemma RealResumesOnKeyframe(packets: seq<seq<byte>>, es: seq<Event>, c: Call, i: nat)
    requires Reached(packets, es, c) && i < |c.v.sent| && c.v.sent[i].kind.Real?
    requires i == 0 || c.v.sent[i - 1].kind.Filler?
    ensures c.v.sent[i].kind.src < |c.v.inputs| && KeyStart(c.v.inputs[c.v.sent[i].kind.src])
  {
    ReachedKeeps(packets, es, c);
    assert Stamped(c.v.sent, c.v.inputs, packets, i);
    assert Follows(c.v.sent, c.v.inputs, packets, i);
  }

  /** MAIN RESULT: placeholder frames are whole: part k is followed at once by part k + 1. */
  lemma FramesAreWhole(packets: seq<seq<byte>>, es: seq<Event>, c: Call, i: nat)
    requires Reached(packets, es, c) && i < |c.v.sent| && c.v.sent[i].kind.Filler?
    requires c.v.sent[i].kind.part + 1 < |packets|
    ensures i + 1 < |c.v.sent| && c.v.sent[i + 1].kind == Filler(c.v.sent[i].kind.part + 1)
    ensures c.v.sent[i + 1].ts == c.v.sent[i].ts
  {
    ReachedKeeps(packets, es, c);
    if i + 1 < |c.v.sent| {
      assert Stamped(c.v.sent, c.v.inputs, packets, i + 1) && Stamped(c.v.sent, c.v.inputs, packets, i);
      assert Follows(c.v.sent, c.v.inputs, packets, i + 1);
    }
  }

  /** MAIN RESULT: while the transport is up, no datagram that starts a keyframe is ever dropped. */
  lemma KeyframeNeverDropped(c: Call, packets: seq<seq<byte>>, data: seq<byte>, now: int)
    requires c.v.up && IsRtp(data) && KeyStart(data)
    ensures var t := Step(c, packets, Receive(data, now));
      && |t.v.sent| == |c.v.sent| + 1 && t.v.sent[..|c.v.sent|] == c.v.sent
      && t.v.sent[|c.v.sent|].kind == Real(|c.v.inputs|) && t.v.inputs == c.v.inputs + [data]
      && t.v.keyframeReceived
  {
    hide Wire, KeyStart, RtpTs;
  }

  // ---------- the video downgrade ----------

  ghost predicate KeysNoticed(v: Video)
  {
    !v.firstKeyframe ==> forall j :: 0 <= j < |v.inputs| && IsRtp(v.inputs[j]) ==> !KeyStart(v.inputs[j])
  }

  lemma StepNotices(c: Call, packets: seq<seq<byte>>, e: Event)
    requires CallInv(c, packets) && KeysNoticed(c.v)
    ensures KeysNoticed(Step(c, packets, e).v)
  {
    hide KeyStart, LogOk, Source, Wire, RtpTs;
    if e.TickAt? { FrameCounters(Resumed(c.v, e.now), packets, 0, NextClockTs(Resumed(c.v, e.now), e.now)); }
  }

  lemma {:induction false} RunNotices(c: Call, packets: seq<seq<byte>>, es: seq<Event>)
    requires CallInv(c, packets) && KeysNoticed(c.v)
    ensures KeysNoticed(Run(c, packets, es).v)
    decreases |es|
  {
    hide CallInv, KeysNoticed, Step;
    if es != [] {
      StepKeeps(c, packets, es[0]);
      StepNotices(c, packets, es[0]);
      RunNotices(Step(c, packets, es[0]), packets, es[1..]);
    }
  }

  /** MAIN RESULT: giving up on video is justified. `on_video_failure` is called at most once in a
      run, and only when exactly ten PLIs have gone out, no keyframe was ever received and no real
      packet was ever forwarded. */
  lemma FailureIsJustified(packets: seq<seq<byte>>, es: seq<Event>, c: Call, e: Event)
    requires Reached(packets, es, c)
    ensures c.failures <= 1
    ensures Step(c, packets, e).failures > c.failures ==>
      && c.failures == 0 && c.plis == PLI_MAX_SENDS && c.v.forwarded == 0
      && (forall j :: 0 <= j < |c.v.inputs| && IsRtp(c.v.inputs[j]) ==> !KeyStart(c.v.inputs[j]))
      && (forall i :: 0 <= i < |c.v.sent| ==> c.v.sent[i].kind.Filler?)
  {
    ReachedKeeps(packets, es, c);
    StartKeeps(packets);
    RunNotices(START, packets, es);
    hide LogOk, Tick, Datagram;
  }
}
