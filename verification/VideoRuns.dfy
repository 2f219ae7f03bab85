/** What every run of the video endpoint and the PLI loop keeps. */
module VideoRuns {
  import opened Basics
  import opened Octets
  import opened Vp8
  import opened VideoSplice
  import Stun

  // ---------- the log of what ffmpeg was sent ----------

  /** Entry i is completely determined: filler part k, or received datagram j re-stamped. */
  predicate Stamped(sent: seq<Sent>, inputs: seq<seq<byte>>, packets: seq<seq<byte>>, i: nat)
    requires i < |sent|
  {
    match sent[i].kind
    case Filler(k) =>
      k < |packets| && sent[i].wire == Wire(FillerHeader(k, |packets|), i, sent[i].ts, packets[k])
    case Real(j) =>
      j < |inputs| && IsRtp(inputs[j])
      && sent[i].wire == Wire(inputs[j][..2], i, sent[i].ts, inputs[j][RTP_HEADER_SIZE..])
  }

  /** Entry i opens a placeholder frame or takes over from one. */
  predicate Opens(sent: seq<Sent>, i: nat)
    requires i < |sent|
  {
    match sent[i].kind
    case Filler(k) => k == 0
    case Real(_) => i == 0 || sent[i - 1].kind.Filler?
  }

  /** What may follow what: frames are whole and uninterrupted, real datagrams keep their order and
      their spacing in time, and the first real one after anything else starts a keyframe. */
  predicate Follows(sent: seq<Sent>, inputs: seq<seq<byte>>, packets: seq<seq<byte>>, i: nat)
    requires i < |sent| && Stamped(sent, inputs, packets, i) && (i > 0 ==> Stamped(sent, inputs, packets, i - 1))
  {
    match sent[i].kind
    case Filler(k) =>
      if k > 0 then i > 0 && sent[i - 1].kind == Filler(k - 1) && sent[i - 1].ts == sent[i].ts
      else i == 0 || sent[i - 1].kind.Real? || sent[i - 1].kind == Filler(|packets| - 1)
    case Real(j) =>
      if i > 0 && sent[i - 1].kind.Real? then
        var j0 := sent[i - 1].kind.src;
        sent[i].ts - sent[i - 1].ts == RtpTs(inputs[j]) - RtpTs(inputs[j0])
      else
        (i > 0 ==> sent[i - 1].kind == Filler(|packets| - 1)) && KeyStart(inputs[j])
  }

  ghost predicate LogOk(sent: seq<Sent>, inputs: seq<seq<byte>>, packets: seq<seq<byte>>)
  {
    && (forall i :: 0 <= i < |sent| ==> Stamped(sent, inputs, packets, i))
    && (forall i :: 0 <= i < |sent| ==> Follows(sent, inputs, packets, i))
    && (forall a, b :: 0 <= a < b < |sent| && Opens(sent, b) ==> sent[a].ts < sent[b].ts)
    && (forall a, b :: 0 <= a < b < |sent| && sent[a].kind.Real? && sent[b].kind.Real?
          ==> sent[a].kind.src < sent[b].kind.src)
  }

  lemma LogAppend(sent: seq<Sent>, inputs: seq<seq<byte>>, packets: seq<seq<byte>>, e: Sent)
    requires LogOk(sent, inputs, packets)
    requires Stamped(sent + [e], inputs, packets, |sent|)
    requires |sent| > 0 ==> Stamped(sent + [e], inputs, packets, |sent| - 1)
    requires Follows(sent + [e], inputs, packets, |sent|)
    requires Opens(sent + [e], |sent|) ==> forall a :: 0 <= a < |sent| ==> sent[a].ts < e.ts
    requires e.kind.Real? ==> forall a :: 0 <= a < |sent| && sent[a].kind.Real? ==> sent[a].kind.src < e.kind.src
    ensures LogOk(sent + [e], inputs, packets)
  {
    var t := sent + [e];
    forall i | 0 <= i < |t| ensures Stamped(t, inputs, packets, i) {
      if i < |sent| { assert Stamped(sent, inputs, packets, i); }
    }
    forall i | 0 <= i < |t| ensures Follows(t, inputs, packets, i) {
      if i < |sent| { assert Follows(sent, inputs, packets, i); }
    }
    forall a, b | 0 <= a < b < |t| && Opens(t, b) ensures t[a].ts < t[b].ts {
      if b < |sent| { assert Opens(sent, b); }
    }
  }

  lemma LogMoreInput(sent: seq<Sent>, inputs: seq<seq<byte>>, packets: seq<seq<byte>>, data: seq<byte>)
    requires LogOk(sent, inputs, packets)
    ensures LogOk(sent, inputs + [data], packets)
  {
    hide Wire, KeyStart, RtpTs;
    var more := inputs + [data];
    assert forall j :: 0 <= j < |inputs| ==> more[j] == inputs[j];
    forall i | 0 <= i < |sent| ensures Stamped(sent, more, packets, i) {
      assert Stamped(sent, inputs, packets, i);
    }
    forall i | 0 <= i < |sent| ensures Follows(sent, more, packets, i) {
      assert Follows(sent, inputs, packets, i) && Stamped(sent, inputs, packets, i);
      if i > 0 { assert Stamped(sent, inputs, packets, i - 1); }
    }
  }

  // ---------- the invariant of the endpoint ----------

  function Last(v: Video): Sent
    requires v.sent != []
  {
    v.sent[|v.sent| - 1]
  }

  /** The offset says which source ffmpeg is on, and maps the last real stamp to what was sent. */
  predicate Source(v: Video, packets: seq<seq<byte>>)
    requires packets != []
  {
    if v.tsOffset.Some? then
      && v.sent != [] && Last(v).kind.Real? && Last(v).kind.src < |v.inputs|
      && IsRtp(v.inputs[Last(v).kind.src])
      && Last(v).ts == RtpTs(v.inputs[Last(v).kind.src]) + v.tsOffset.value
    else v.sent == [] || Last(v).kind == Filler(|packets| - 1)
  }

  ghost predicate Counters(v: Video)
  {
    && v.outSeq == |v.sent|
    && (forall i :: 0 <= i < |v.sent| ==> v.sent[i].ts <= v.lastOutTs)
    && (v.keyframeReceived ==> v.firstKeyframe)
    && (!v.firstKeyframe ==> v.forwarded == 0 && forall i :: 0 <= i < |v.sent| ==> v.sent[i].kind.Filler?)
  }

  ghost predicate VideoInv(v: Video, packets: seq<seq<byte>>)
  {
    && packets != []
    && LogOk(v.sent, v.inputs, packets) && Source(v, packets) && Counters(v)
  }

  /** In the middle of a placeholder frame: k parts of it are out. */
  ghost predicate InFrame(v: Video, packets: seq<seq<byte>>, k: nat, ts: int)
  {
    && v.up && v.tsOffset.None? && k <= |packets| && packets != []
    && LogOk(v.sent, v.inputs, packets) && Counters(v)
    && (if k == 0 then Source(v, packets) && v.lastOutTs < ts
        else v.sent != [] && Last(v).kind == Filler(k - 1) && Last(v).ts == ts)
  }

  lemma FramePart(v: Video, packets: seq<seq<byte>>, k: nat, ts: int)
    requires InFrame(v, packets, k, ts) && k < |packets|
    ensures InFrame(Send(v, Filler(k), FillerHeader(k, |packets|), ts, packets[k]), packets, k + 1, ts)
  {
    var e := Sent(Filler(k), ts, Wire(FillerHeader(k, |packets|), v.outSeq, ts, packets[k]));
    if v.sent != [] { assert Stamped(v.sent, v.inputs, packets, |v.sent| - 1); }
    LogAppend(v.sent, v.inputs, packets, e);
  }

  lemma {:induction false} FrameRest(v: Video, packets: seq<seq<byte>>, k: nat, ts: int)
    requires InFrame(v, packets, k, ts)
    ensures InFrame(SendFrame(v, packets, k, ts), packets, |packets|, ts)
    decreases |packets| - k
  {
    if k < |packets| {
      FramePart(v, packets, k, ts);
      FrameRest(Send(v, Filler(k), FillerHeader(k, |packets|), ts, packets[k]), packets, k + 1, ts);
    }
  }

  // ---------- one event at a time ----------

  lemma TickKeeps(v: Video, packets: seq<seq<byte>>, now: int)
    requires VideoInv(v, packets)
    ensures VideoInv(Tick(v, packets, now), packets)
    ensures v.forwarded == Tick(v, packets, now).forwarded
  {
    hide VideoInv, InFrame, LogOk, SendFrame, NextClockTs;
    if v.up && Resumed(v, now).tsOffset.None? {
      var w := Resumed(v, now);
      var ts := NextClockTs(w, now);
      if v.tsOffset.None? { PlaceholderGoesOn(v, packets, now); } else { PlaceholderTakesOver(v, packets, now); }
      FrameCounters(w, packets, 0, ts);
      FrameIsDone(SendFrame(w, packets, 0, ts), packets, ts);
    }
  }

  lemma FrameIsDone(v: Video, packets: seq<seq<byte>>, ts: int)
    requires InFrame(v, packets, |packets|, ts)
    ensures VideoInv(v.(framesSent := v.framesSent + 1), packets)
  {
    hide LogOk;
  }

  lemma PlaceholderGoesOn(v: Video, packets: seq<seq<byte>>, now: int)
    requires VideoInv(v, packets) && v.tsOffset.None? && v.up
    ensures var ts := NextClockTs(v, now); InFrame(SendFrame(v, packets, 0, ts), packets, |packets|, ts)
  {
    var ts := NextClockTs(v, now);
    assert InFrame(v, packets, 0, ts);
    hide InFrame, LogOk;
    FrameRest(v, packets, 0, ts);
  }

  lemma PlaceholderTakesOver(v: Video, packets: seq<seq<byte>>, now: int)
    requires VideoInv(v, packets) && v.up && v.tsOffset.Some?
    ensures var w := v.(tsOffset := None); var ts := NextClockTs(w, now);
      InFrame(SendFrame(w, packets, 0, ts), packets, |packets|, ts)
  {
    var w := v.(tsOffset := None);
    var ts := NextClockTs(w, now);
    FirstPart(v, packets, now);
    hide InFrame, LogOk;
    FrameRest(Send(w, Filler(0), FillerHeader(0, |packets|), ts, packets[0]), packets, 1, ts);
  }

  /** The placeholder taking over from a stalled real stream. */
  lemma FirstPart(v: Video, packets: seq<seq<byte>>, now: int)
    requires VideoInv(v, packets) && v.up && v.tsOffset.Some?
    ensures var w := v.(tsOffset := None);
      InFrame(Send(w, Filler(0), FillerHeader(0, |packets|), NextClockTs(w, now), packets[0]), packets, 1, NextClockTs(w, now))
  {
    var w := v.(tsOffset := None);
    var ts := NextClockTs(w, now);
    var e := Sent(Filler(0), ts, Wire(FillerHeader(0, |packets|), v.outSeq, ts, packets[0]));
    assert Stamped(v.sent, v.inputs, packets, |v.sent| - 1);
    LogAppend(v.sent, v.inputs, packets, e);
  }

  lemma {:induction false} FrameCounters(v: Video, packets: seq<seq<byte>>, k: nat, ts: int)
    requires k <= |packets|
    ensures var x := SendFrame(v, packets, k, ts);
      x.forwarded == v.forwarded && x.tsOffset == v.tsOffset && x.inputs == v.inputs && x.up == v.up
      && x.firstKeyframe == v.firstKeyframe && x.keyframeReceived == v.keyframeReceived && x.rtpSeen == v.rtpSeen
    decreases |packets| - k
  {
    if k < |packets| {
      FrameCounters(Send(v, Filler(k), FillerHeader(k, |packets|), ts, packets[k]), packets, k + 1, ts);
    }
  }

  /** A real datagram goes out: continuing the real stream, or taking over on a keyframe. */
  lemma ForwardKeeps(v: Video, packets: seq<seq<byte>>, src: nat, offset: int, now: int)
    requires VideoInv(v, packets) && v.up && v.firstKeyframe && src + 1 == |v.inputs| && IsRtp(v.inputs[src])
    requires forall i :: 0 <= i < |v.sent| && v.sent[i].kind.Real? ==> v.sent[i].kind.src < src
    requires v.tsOffset.Some? ==> offset == v.tsOffset.value
    requires v.tsOffset.None? ==> KeyStart(v.inputs[src]) && RtpTs(v.inputs[src]) + offset > v.lastOutTs
    ensures VideoInv(Forward(v, v.inputs[src], src, offset, now), packets)
  {
    var data := v.inputs[src];
    var ts := RtpTs(data) + offset;
    var e := Sent(Real(src), ts, Wire(data[..2], v.outSeq, ts, data[RTP_HEADER_SIZE..]));
    RealEntry(v, packets, src, offset, e);
    hide LogOk, Wire, KeyStart, RtpTs;
    assert Forward(v, data, src, offset, now).sent == v.sent + [e];
  }

  lemma RealEntry(v: Video, packets: seq<seq<byte>>, src: nat, offset: int, e: Sent)
    requires VideoInv(v, packets) && src + 1 == |v.inputs| && IsRtp(v.inputs[src])
    requires forall i :: 0 <= i < |v.sent| && v.sent[i].kind.Real? ==> v.sent[i].kind.src < src
    requires v.tsOffset.Some? ==> offset == v.tsOffset.value
    requires v.tsOffset.None? ==> KeyStart(v.inputs[src]) && e.ts > v.lastOutTs
    requires var data := v.inputs[src];
      e == Sent(Real(src), RtpTs(data) + offset, Wire(data[..2], v.outSeq, RtpTs(data) + offset, data[RTP_HEADER_SIZE..]))
    ensures LogOk(v.sent + [e], v.inputs, packets)
  {
    hide Wire, KeyStart, RtpTs;
    if v.sent != [] { assert Stamped(v.sent, v.inputs, packets, |v.sent| - 1); }
    LogAppend(v.sent, v.inputs, packets, e);
  }

  lemma RtpKeeps(v: Video, packets: seq<seq<byte>>, src: nat, now: int)
    requires VideoInv(v, packets) && v.up && src + 1 == |v.inputs| && IsRtp(v.inputs[src])
    requires forall i :: 0 <= i < |v.sent| && v.sent[i].kind.Real? ==> v.sent[i].kind.src < src
    ensures VideoInv(Rtp(v, v.inputs[src], src, now), packets)
  {
    var data := v.inputs[src];
    hide LogOk, Forward, Source, RtpTs, KeyStart;
    if v.keyframeReceived {
      if v.tsOffset.Some? {
        ForwardKeeps(v, packets, src, v.tsOffset.value, now);
      } else if KeyStart(data) {
        ForwardKeeps(v, packets, src, NextClockTs(v, now) - RtpTs(data), now);
      }
    }
  }

  lemma DatagramKeeps(v: Video, packets: seq<seq<byte>>, data: seq<byte>, now: int)
    requires VideoInv(v, packets)
    ensures VideoInv(Datagram(v, data, now), packets)
  {
    hide LogOk, Rtp, KeyStart;
    if v.up {
      InputKeeps(v, packets, data);
      if IsRtp(data) {
        RtpKeeps(SeeKeyframe(v.(inputs := v.inputs + [data], rtpSeen := true), KeyStart(data)), packets, |v.inputs|, now);
      }
    }
  }

  lemma InputKeeps(v: Video, packets: seq<seq<byte>>, data: seq<byte>)
    requires VideoInv(v, packets)
    ensures VideoInv(v.(inputs := v.inputs + [data]), packets)
    ensures forall i :: 0 <= i < |v.sent| && v.sent[i].kind.Real? ==> v.sent[i].kind.src < |v.inputs|
  {
    LogMoreInput(v.sent, v.inputs, packets, data);
    forall i | 0 <= i < |v.sent| && v.sent[i].kind.Real? ensures v.sent[i].kind.src < |v.inputs| {
      assert Stamped(v.sent, v.inputs, packets, i);
    }
  }

  // ---------- the whole call ----------

  /** The burst only goes on while no keyframe was ever seen; the refresh only after one was. */
  ghost predicate PliInv(c: Call)
  {
    match c.pli
    case WaitRtp => c.plis == 0 && c.failures == 0
    case Burst(i) => 1 <= i <= PLI_MAX_SENDS && c.plis == i && c.failures == 0
    case Sleeping => c.v.firstKeyframe && c.failures == 0
    case WaitKey => c.v.firstKeyframe && c.failures == 0
    case Over => c.failures <= 1
  }

  /** In the burst the gate is shut exactly as long as no keyframe was seen. */
  predicate Shut(c: Call)
  {
    c.pli.WaitRtp? || c.pli.Burst? ==> (c.v.firstKeyframe ==> c.v.keyframeReceived)
  }

  ghost predicate CallInv(c: Call, packets: seq<seq<byte>>)
  {
    VideoInv(c.v, packets) && PliInv(c) && Shut(c)
  }

  lemma PliKeeps(c: Call, packets: seq<seq<byte>>)
    requires CallInv(c, packets)
    ensures CallInv(PliStep(c), packets)
  {
    hide LogOk;
  }

  lemma VideoFlags(c: Call, packets: seq<seq<byte>>, e: Event)
    requires e.TickAt? || e.Receive?
    ensures var t := Step(c, packets, e);
      && (c.v.firstKeyframe ==> t.v.firstKeyframe) && (c.v.keyframeReceived ==> t.v.keyframeReceived)
      && (t.v.firstKeyframe && !c.v.firstKeyframe ==> t.v.keyframeReceived)
  {
    if e.TickAt? { FrameCounters(Resumed(c.v, e.now), packets, 0, NextClockTs(Resumed(c.v, e.now), e.now)); }
  }

  lemma StepKeeps(c: Call, packets: seq<seq<byte>>, e: Event)
    requires CallInv(c, packets)
    ensures CallInv(Step(c, packets, e), packets)
  {
    hide LogOk, Tick, Datagram;
    match e {
      case TickAt(now) => TickKeeps(c.v, packets, now); VideoFlags(c, packets, e);
      case Receive(data, now) => DatagramKeeps(c.v, packets, data, now); VideoFlags(c, packets, e);
      case PliWakes => PliKeeps(c, packets);
      case _ =>
    }
  }

  lemma {:induction false} RunKeeps(c: Call, packets: seq<seq<byte>>, es: seq<Event>)
    requires CallInv(c, packets)
    ensures CallInv(Run(c, packets, es), packets)
    decreases |es|
  {
    hide CallInv, Step;
    if es != [] {
      StepKeeps(c, packets, es[0]);
      RunKeeps(Step(c, packets, es[0]), packets, es[1..]);
    }
  }

  lemma StartKeeps(packets: seq<seq<byte>>)
    requires packets != []
    ensures CallInv(START, packets)
  {}
}
