/** What every datagram, every tick of the placeholder timer and every wait of the PLI loop does, told
    by what was received and sent. */
module VideoLaws {
  import opened Basics
  import opened Octets
  import opened Vp8
  import opened VideoSplice
  import opened VideoRuns
  import opened VideoTheorems
  import Stun

  // ---------- what was noticed ----------

  /** Some datagram of RTP was received; one that starts a keyframe was. */
  predicate SawRtp(inputs: seq<seq<byte>>) { exists j :: 0 <= j < |inputs| && IsRtp(inputs[j]) }

  predicate StartsKey(data: seq<byte>) { IsRtp(data) && KeyStart(data) }

  predicate SawKey(inputs: seq<seq<byte>>) { exists j :: 0 <= j < |inputs| && StartsKey(inputs[j]) }

  lemma SawMore(inputs: seq<seq<byte>>, data: seq<byte>)
    ensures SawRtp(inputs + [data]) <==> SawRtp(inputs) || IsRtp(data)
    ensures SawKey(inputs + [data]) <==> SawKey(inputs) || StartsKey(data)
  {
    hide IsRtp, StartsKey;
    var more := inputs + [data];
    assert more[|inputs|] == data;
    if SawRtp(inputs) {
      var j :| 0 <= j < |inputs| && IsRtp(inputs[j]);
      assert IsRtp(more[j]);
    }
    if SawKey(inputs) {
      var j :| 0 <= j < |inputs| && StartsKey(inputs[j]);
      assert StartsKey(more[j]);
    }
  }

  /** The latest stamp sent, or 0. */
  function Latest(sent: seq<Sent>): int
  {
    if sent == [] then 0 else Max(Latest(sent[..|sent| - 1]), sent[|sent| - 1].ts)
  }

  lemma LatestMore(sent: seq<Sent>, e: Sent)
    ensures Latest(sent + [e]) == Max(Latest(sent), e.ts)
  {
    assert (sent + [e])[..|sent|] == sent;
  }

  lemma {:induction false} LatestBounds(sent: seq<Sent>)
    ensures forall i :: 0 <= i < |sent| ==> sent[i].ts <= Latest(sent)
    ensures Latest(sent) == 0 || exists i :: 0 <= i < |sent| && sent[i].ts == Latest(sent)
    decreases |sent|
  {
    if sent != [] {
      var front := sent[..|sent| - 1];
      LatestBounds(front);
      if Latest(sent) != sent[|sent| - 1].ts && Latest(front) != 0 {
        var i :| 0 <= i < |front| && front[i].ts == Latest(front);
        assert sent[i].ts == Latest(sent);
      }
    }
  }

  predicate Noticed(v: Video)
  {
    && (v.rtpSeen <==> SawRtp(v.inputs)) && (v.firstKeyframe <==> SawKey(v.inputs)) && v.lastOutTs == Latest(v.sent)
  }

  lemma SendNotices(v: Video, kind: Kind, header01: seq<byte>, ts: int, rest: seq<byte>)
    ensures Noticed(v) ==> Noticed(Send(v, kind, header01, ts, rest))
  {
    LatestMore(v.sent, Sent(kind, ts, Wire(header01, v.outSeq, ts, rest)));
    hide SawRtp, SawKey, Wire, Latest;
  }

  lemma {:induction false} FrameNotices(v: Video, packets: seq<seq<byte>>, k: nat, ts: int)
    requires k <= |packets| && Noticed(v)
    ensures Noticed(SendFrame(v, packets, k, ts))
    decreases |packets| - k
  {
    hide Noticed, Send;
    if k < |packets| {
      SendNotices(v, Filler(k), FillerHeader(k, |packets|), ts, packets[k]);
      FrameNotices(Send(v, Filler(k), FillerHeader(k, |packets|), ts, packets[k]), packets, k + 1, ts);
    }
  }

  lemma TickNotices(v: Video, packets: seq<seq<byte>>, now: int)
    requires Noticed(v)
    ensures Noticed(Tick(v, packets, now))
  {
    hide SawRtp, SawKey, Latest, SendFrame, NextClockTs;
    FrameNotices(Resumed(v, now), packets, 0, NextClockTs(Resumed(v, now), now));
  }

  lemma ForwardNotices(v: Video, data: seq<byte>, src: nat, offset: int, now: int)
    requires |data| >= RTP_HEADER_SIZE && Noticed(v)
    ensures Noticed(Forward(v, data, src, offset, now))
  {
    var w := v.(tsOffset := Some(offset), lastRealAt := now);
    OthersNotice(v, Some(offset), now, v.forwarded);
    hide Noticed, Send, RtpTs;
    SendNotices(w, Real(src), data[..2], RtpTs(data) + offset, data[RTP_HEADER_SIZE..]);
    var x := Send(w, Real(src), data[..2], RtpTs(data) + offset, data[RTP_HEADER_SIZE..]);
    OthersNotice(x, x.tsOffset, x.lastRealAt, x.forwarded + 1);
  }

  lemma OthersNotice(v: Video, offset: Option<int>, at: int, forwarded: nat)
    ensures Noticed(v) ==> Noticed(v.(tsOffset := offset, lastRealAt := at, forwarded := forwarded))
  {
    hide SawRtp, SawKey, Latest;
  }

  lemma DatagramNotices(v: Video, data: seq<byte>, now: int)
    requires Noticed(v) && (v.keyframeReceived ==> v.firstKeyframe)
    ensures Noticed(Datagram(v, data, now))
  {
    SawMore(v.inputs, data);
    hide SawRtp, SawKey, Latest, Forward, KeyStart, RtpTs;
    if v.up && IsRtp(data) {
      var u := v.(inputs := v.inputs + [data], rtpSeen := true);
      var w := SeeKeyframe(u, KeyStart(data));
      assert Noticed(w);
      hide Noticed;
      RtpNotices(w, data, |v.inputs|, now);
      hide Rtp;
    }
  }

  lemma RtpNotices(v: Video, data: seq<byte>, src: nat, now: int)
    requires |data| >= RTP_HEADER_SIZE && Noticed(v)
    ensures Noticed(Rtp(v, data, src, now))
  {
    hide Noticed, Forward, KeyStart, RtpTs;
    ForwardNotices(v, data, src, if v.tsOffset.Some? then v.tsOffset.value else NextClockTs(v, now) - RtpTs(data), now);
  }

  lemma StepNoticed(c: Call, packets: seq<seq<byte>>, e: Event)
    requires CallInv(c, packets) && Noticed(c.v)
    ensures Noticed(Step(c, packets, e).v)
  {
    assert c.v.keyframeReceived ==> c.v.firstKeyframe;
    hide CallInv, Tick, Datagram, SawRtp, SawKey, Latest;
    match e {
      case TickAt(now) => TickNotices(c.v, packets, now);
      case Receive(data, now) => DatagramNotices(c.v, data, now);
      case _ =>
    }
  }

  lemma {:induction false} RunNoticed(c: Call, packets: seq<seq<byte>>, es: seq<Event>)
    requires CallInv(c, packets) && Noticed(c.v)
    ensures Noticed(Run(c, packets, es).v)
    decreases |es|
  {
    hide CallInv, Noticed, Step;
    if es != [] {
      StepKeeps(c, packets, es[0]);
      StepNoticed(c, packets, es[0]);
      RunNoticed(Step(c, packets, es[0]), packets, es[1..]);
    }
  }

  lemma ReachedNoticed(packets: seq<seq<byte>>, es: seq<Event>, c: Call)
    requires Reached(packets, es, c)
    ensures CallInv(c, packets) && Noticed(c.v)
  {
    StartKeeps(packets);
    assert Noticed(START.v);
    hide CallInv, Noticed;
    RunKeeps(START, packets, es);
    RunNoticed(START, packets, es);
  }

  // ---------- datagrams ----------

  /** ffmpeg is on the gateway's video: the last packet it got was a real one. */
  predicate OnReal(v: Video) { v.sent != [] && v.sent[|v.sent| - 1].kind.Real? }

  /** A datagram goes on to ffmpeg if it starts a keyframe, or the gate is open and ffmpeg is on the
      gateway's video. */
  predicate Passes(v: Video, data: seq<byte>)
  {
    v.up && IsRtp(data) && (KeyStart(data) || (v.keyframeReceived && OnReal(v)))
  }

  /** Exactly one packet was sent, the forwarded datagram with this position among those received. */
  predicate SentReal(v: Video, w: Video, src: nat)
  {
    |w.sent| == |v.sent| + 1 && w.sent[..|v.sent|] == v.sent && w.sent[|v.sent|].kind == Real(src)
  }

  lemma SourceIsLast(v: Video, packets: seq<seq<byte>>)
    requires VideoInv(v, packets)
    ensures v.tsOffset.Some? <==> OnReal(v)
  {
    hide LogOk, Counters, RtpTs;
  }

  lemma ForwardSends(v: Video, data: seq<byte>, src: nat, offset: int, now: int)
    requires |data| >= RTP_HEADER_SIZE && v.up
    ensures SentReal(v, Forward(v, data, src, offset, now), src)
  {
    hide Wire, RtpTs;
  }

  /** MAIN RESULT: in every reached state a datagram is forwarded, as one packet of its own, exactly if
      the transport is up and it is RTP that starts a keyframe, or the gate is open and the last packet
      ffmpeg got was a real one. Any other datagram sends ffmpeg nothing. */
  lemma ForwardedExactly(packets: seq<seq<byte>>, es: seq<Event>, c: Call, data: seq<byte>, now: int)
    requires Reached(packets, es, c)
    ensures var t := Step(c, packets, Receive(data, now)).v;
      && t.inputs == (if c.v.up then c.v.inputs + [data] else c.v.inputs)
      && (if Passes(c.v, data) then SentReal(c.v, t, |c.v.inputs|) else t.sent == c.v.sent)
  {
    ReachedKeeps(packets, es, c);
    SourceIsLast(c.v, packets);
    hide Reached, CallInv, Forward, KeyStart, RtpTs, OnReal, SentReal, NextClockTs;
    if c.v.up && IsRtp(data) {
      var w := SeeKeyframe(c.v.(inputs := c.v.inputs + [data], rtpSeen := true), KeyStart(data));
      RtpSends(c.v, w, data, now);
      hide Rtp;
    }
  }

  lemma RtpSends(v: Video, w: Video, data: seq<byte>, now: int)
    requires v.up && IsRtp(data) && (v.tsOffset.Some? <==> OnReal(v))
    requires w == SeeKeyframe(v.(inputs := v.inputs + [data], rtpSeen := true), KeyStart(data))
    ensures var t := Rtp(w, data, |v.inputs|, now);
      && t.inputs == w.inputs
      && (if Passes(v, data) then SentReal(v, t, |v.inputs|) else t.sent == v.sent)
  {
    hide Forward, KeyStart, RtpTs, OnReal, NextClockTs;
    ForwardSends(w, data, |v.inputs|, if w.tsOffset.Some? then w.tsOffset.value else NextClockTs(w, now) - RtpTs(data), now);
    ForwardInputs(w, data, |v.inputs|, if w.tsOffset.Some? then w.tsOffset.value else NextClockTs(w, now) - RtpTs(data), now);
  }

  lemma ForwardInputs(v: Video, data: seq<byte>, src: nat, offset: int, now: int)
    requires |data| >= RTP_HEADER_SIZE
    ensures Forward(v, data, src, offset, now).inputs == v.inputs
  {}

  // ---------- stamps ----------

  /** MAIN RESULT: what opens a placeholder frame or takes over from one is stamped with the clock, or
      one past the latest stamp if the clock is not past it. */
  lemma TakeoverIsStamped(packets: seq<seq<byte>>, es: seq<Event>, c: Call, data: seq<byte>, now: int)
    requires Reached(packets, es, c) && c.v.up && StartsKey(data) && !OnReal(c.v)
    ensures var t := Step(c, packets, Receive(data, now)).v;
      && |t.sent| == |c.v.sent| + 1 && t.sent[|c.v.sent|].ts == Max(now, Latest(c.v.sent) + 1)
  {
    ReachedNoticed(packets, es, c);
    SourceIsLast(c.v, packets);
    hide Reached, CallInv, KeyStart, RtpTs, OnReal, Wire, Latest;
  }

  // ---------- the placeholder timer ----------

  /** When the latest real packet was forwarded, if any was: by the event that sent it. */
  function RealAt(c: Call, packets: seq<seq<byte>>, es: seq<Event>, at: int): int
    decreases |es|
  {
    if es == [] then at
    else
      RealAt(Step(c, packets, es[0]), packets, es[1..],
             if es[0].Receive? && Passes(c.v, es[0].data) then es[0].now else at)
  }

  lemma StepRealAt(c: Call, packets: seq<seq<byte>>, e: Event, at: int)
    requires CallInv(c, packets) && c.v.lastRealAt == at
    ensures Step(c, packets, e).v.lastRealAt == (if e.Receive? && Passes(c.v, e.data) then e.now else at)
  {
    SourceIsLast(c.v, packets);
    hide CallInv, OnReal, KeyStart, RtpTs, NextClockTs, Wire;
    if e.TickAt? {
      FrameTime(Resumed(c.v, e.now), packets, 0, NextClockTs(Resumed(c.v, e.now), e.now));
      hide SendFrame;
    }
  }

  lemma {:induction false} FrameTime(v: Video, packets: seq<seq<byte>>, k: nat, ts: int)
    requires k <= |packets|
    ensures SendFrame(v, packets, k, ts).lastRealAt == v.lastRealAt
    decreases |packets| - k
  {
    if k < |packets| { FrameTime(Send(v, Filler(k), FillerHeader(k, |packets|), ts, packets[k]), packets, k + 1, ts); }
  }

  lemma {:induction false} RunRealAt(c: Call, packets: seq<seq<byte>>, es: seq<Event>, at: int)
    requires CallInv(c, packets) && c.v.lastRealAt == at
    ensures Run(c, packets, es).v.lastRealAt == RealAt(c, packets, es, at)
    decreases |es|
  {
    hide CallInv, Step, Passes;
    if es != [] {
      StepKeeps(c, packets, es[0]);
      StepRealAt(c, packets, es[0], at);
      RunRealAt(Step(c, packets, es[0]), packets, es[1..], if es[0].Receive? && Passes(c.v, es[0].data) then es[0].now else at);
    }
  }

  /** From base on, the log holds the first k parts of a placeholder frame, all with stamp ts. */
  predicate Filled(sent: seq<Sent>, base: seq<Sent>, k: nat, ts: int)
  {
    && |sent| == |base| + k && sent[..|base|] == base
    && forall j :: 0 <= j < k ==> sent[|base| + j].kind == Filler(j) && sent[|base| + j].ts == ts
  }

  lemma FilledMore(sent: seq<Sent>, base: seq<Sent>, k: nat, e: Sent)
    requires Filled(sent, base, k, e.ts) && e.kind == Filler(k)
    ensures Filled(sent + [e], base, k + 1, e.ts)
  {
    assert (sent + [e])[..|base|] == sent[..|base|];
  }

  lemma {:induction false} FrameSends(v: Video, base: seq<Sent>, packets: seq<seq<byte>>, k: nat, ts: int)
    requires k <= |packets| && v.up && Filled(v.sent, base, k, ts)
    ensures Filled(SendFrame(v, packets, k, ts).sent, base, |packets|, ts)
    decreases |packets| - k
  {
    hide Filled, Wire;
    if k < |packets| {
      FilledMore(v.sent, base, k, Sent(Filler(k), ts, Wire(FillerHeader(k, |packets|), v.outSeq, ts, packets[k])));
      FrameSends(Send(v, Filler(k), FillerHeader(k, |packets|), ts, packets[k]), base, packets, k + 1, ts);
    }
  }

  /** MAIN RESULT: a tick of the placeholder timer sends nothing exactly if the transport is down, or
      ffmpeg is on the gateway's video and the latest real packet is less than two seconds old.
      Otherwise it sends one whole frame, stamped with the clock or just past the latest stamp. */
  lemma PlaceholderFillsExactly(packets: seq<seq<byte>>, es: seq<Event>, c: Call, now: int)
    requires Reached(packets, es, c)
    ensures var t := Step(c, packets, TickAt(now)).v;
      if !c.v.up || (OnReal(c.v) && now - RealAt(START, packets, es, 0) < 2 * 90_000) then t.sent == c.v.sent
      else Filled(t.sent, c.v.sent, |packets|, Max(now, Latest(c.v.sent) + 1))
  {
    ReachedNoticed(packets, es, c);
    SourceIsLast(c.v, packets);
    StartKeeps(packets);
    RunRealAt(START, packets, es, 0);
    assert c.v.lastOutTs == Latest(c.v.sent);
    hide Reached, CallInv, OnReal, Latest, RealAt, Run, Noticed, Tick, Filled;
    TickSends(c.v, packets, now);
  }

  lemma TickSends(v: Video, packets: seq<seq<byte>>, now: int)
    requires v.tsOffset.Some? <==> OnReal(v)
    ensures var t := Tick(v, packets, now);
      if !v.up || (OnReal(v) && now - v.lastRealAt < 2 * 90_000) then t.sent == v.sent
      else Filled(t.sent, v.sent, |packets|, Max(now, v.lastOutTs + 1))
  {
    hide OnReal, SendFrame;
    if v.up {
      var w := Resumed(v, now);
      assert Filled(w.sent, v.sent, 0, NextClockTs(w, now));
      hide Filled;
      FrameSends(w, v.sent, packets, 0, NextClockTs(w, now));
    }
  }

  // ---------- counters ----------

  predicate IsStun(data: seq<byte>) { Stun.IsBindingRequest(data) }

  /** How many datagrams are of a kind: requests of STUN, or neither those nor RTP. */
  function CountStun(inputs: seq<seq<byte>>): nat
  {
    if inputs == [] then 0 else CountStun(inputs[..|inputs| - 1]) + (if IsStun(inputs[|inputs| - 1]) then 1 else 0)
  }

  function CountOther(inputs: seq<seq<byte>>): nat
  {
    if inputs == [] then 0
    else
      var d := inputs[|inputs| - 1];
      CountOther(inputs[..|inputs| - 1]) + (if !IsStun(d) && !IsRtp(d) then 1 else 0)
  }

  /** How many packets were forwarded, and how many placeholder frames begun. */
  function CountReal(sent: seq<Sent>): nat
  {
    if sent == [] then 0 else CountReal(sent[..|sent| - 1]) + (if sent[|sent| - 1].kind.Real? then 1 else 0)
  }

  function CountFrames(sent: seq<Sent>): nat
  {
    if sent == [] then 0 else CountFrames(sent[..|sent| - 1]) + (if sent[|sent| - 1].kind == Filler(0) then 1 else 0)
  }

  predicate Counted(v: Video)
  {
    && v.stunRequests == CountStun(v.inputs) && v.nonRtp == CountOther(v.inputs)
    && v.forwarded == CountReal(v.sent) && v.framesSent == CountFrames(v.sent)
  }

  lemma CountInput(inputs: seq<seq<byte>>, d: seq<byte>)
    ensures CountStun(inputs + [d]) == CountStun(inputs) + (if IsStun(d) then 1 else 0)
    ensures CountOther(inputs + [d]) == CountOther(inputs) + (if !IsStun(d) && !IsRtp(d) then 1 else 0)
  {
    assert (inputs + [d])[..|inputs|] == inputs;
    hide IsStun, IsRtp;
  }

  lemma CountSent(sent: seq<Sent>, e: Sent)
    ensures CountReal(sent + [e]) == CountReal(sent) + (if e.kind.Real? then 1 else 0)
    ensures CountFrames(sent + [e]) == CountFrames(sent) + (if e.kind == Filler(0) then 1 else 0)
  {
    assert (sent + [e])[..|sent|] == sent;
  }

  lemma {:induction false} FrameCounts(v: Video, packets: seq<seq<byte>>, k: nat, ts: int)
    requires k <= |packets| && v.up
    ensures var w := SendFrame(v, packets, k, ts);
      && w == v.(outSeq := w.outSeq, lastOutTs := w.lastOutTs, sent := w.sent)
      && CountReal(w.sent) == CountReal(v.sent) && CountFrames(w.sent) == CountFrames(v.sent) + (if k == 0 && packets != [] then 1 else 0)
    decreases |packets| - k
  {
    if k < |packets| {
      var e := Sent(Filler(k), ts, Wire(FillerHeader(k, |packets|), v.outSeq, ts, packets[k]));
      CountSent(v.sent, e);
      hide Wire, CountReal, CountFrames;
      FrameCounts(Send(v, Filler(k), FillerHeader(k, |packets|), ts, packets[k]), packets, k + 1, ts);
    }
  }

  lemma TickCounts(v: Video, packets: seq<seq<byte>>, now: int)
    requires Counted(v) && packets != []
    ensures Counted(Tick(v, packets, now))
  {
    hide CountStun, CountOther, CountReal, CountFrames, SendFrame, NextClockTs;
    if v.up { FrameCounts(Resumed(v, now), packets, 0, NextClockTs(Resumed(v, now), now)); }
  }

  lemma ForwardCounts(v: Video, data: seq<byte>, src: nat, offset: int, now: int)
    requires |data| >= RTP_HEADER_SIZE && v.up && Counted(v)
    ensures Counted(Forward(v, data, src, offset, now))
  {
    CountSent(v.sent, Sent(Real(src), RtpTs(data) + offset, Wire(data[..2], v.outSeq, RtpTs(data) + offset, data[RTP_HEADER_SIZE..])));
    hide CountStun, CountOther, CountReal, CountFrames, Wire, RtpTs;
  }

  lemma RtpCounts(v: Video, data: seq<byte>, src: nat, now: int)
    requires |data| >= RTP_HEADER_SIZE && v.up && Counted(v)
    ensures Counted(Rtp(v, data, src, now))
  {
    hide Counted, Forward, KeyStart, RtpTs, NextClockTs;
    ForwardCounts(v, data, src, if v.tsOffset.Some? then v.tsOffset.value else NextClockTs(v, now) - RtpTs(data), now);
  }

  lemma DatagramCounts(v: Video, data: seq<byte>, now: int)
    requires Counted(v)
    ensures Counted(Datagram(v, data, now))
  {
    CountInput(v.inputs, data);
    hide CountStun, CountOther, CountReal, CountFrames, KeyStart, Rtp, Stun.IsBindingRequest;
    if v.up && IsRtp(data) {
      var w := SeeKeyframe(v.(inputs := v.inputs + [data], rtpSeen := true), KeyStart(data));
      assert Counted(w);
      hide Counted;
      RtpCounts(w, data, |v.inputs|, now);
    }
  }

  lemma StepCounts(c: Call, packets: seq<seq<byte>>, e: Event)
    requires Counted(c.v) && packets != []
    ensures Counted(Step(c, packets, e).v)
  {
    hide Tick, Datagram, CountStun, CountOther, CountReal, CountFrames;
    match e {
      case TickAt(now) => TickCounts(c.v, packets, now);
      case Receive(data, now) => DatagramCounts(c.v, data, now);
      case _ =>
    }
  }

  lemma {:induction false} RunCounts(c: Call, packets: seq<seq<byte>>, es: seq<Event>)
    requires Counted(c.v) && packets != []
    ensures Counted(Run(c, packets, es).v)
    decreases |es|
  {
    hide Counted, Step;
    if es != [] {
      StepCounts(c, packets, es[0]);
      RunCounts(Step(c, packets, es[0]), packets, es[1..]);
    }
  }

  /** MAIN RESULT: the four counters of the endpoint are what they are called: STUN requests received,
      other datagrams that are not RTP, packets forwarded, and placeholder frames sent. */
  lemma CountersAreRight(packets: seq<seq<byte>>, es: seq<Event>, c: Call)
    requires Reached(packets, es, c)
    ensures c.v.stunRequests == CountStun(c.v.inputs) && c.v.nonRtp == CountOther(c.v.inputs)
    ensures c.v.forwarded == CountReal(c.v.sent) && c.v.framesSent == CountFrames(c.v.sent)
  {
    assert Counted(START.v);
    RunCounts(START, packets, es);
  }

  // ---------- the PLI loop ----------

  /** MAIN RESULT: `on_video_failure` is called exactly when the wait after the tenth PLI of the burst
      is over and no datagram that starts a keyframe was ever received; nothing else calls it. */
  lemma FailureExactly(packets: seq<seq<byte>>, es: seq<Event>, c: Call, e: Event)
    requires Reached(packets, es, c)
    ensures var gaveUp := e.PliWakes? && c.pli == Burst(10) && !SawKey(c.v.inputs);
      Step(c, packets, e).failures == c.failures + (if gaveUp then 1 else 0)
  {
    ReachedNoticed(packets, es, c);
    hide Reached, VideoInv, Tick, Datagram, SawKey, SawRtp, Latest;
    assert c.v.keyframeReceived ==> c.v.firstKeyframe by { ReachedCounters(packets, es, c); }
  }

  lemma ReachedCounters(packets: seq<seq<byte>>, es: seq<Event>, c: Call)
    requires Reached(packets, es, c)
    ensures c.v.keyframeReceived ==> c.v.firstKeyframe
  {
    ReachedKeeps(packets, es, c);
    hide Reached, LogOk;
  }

  /** A PLI is due: the first of the burst once RTP has come, up to nine more as long as no keyframe
      has, and one for each refresh after that. */
  predicate PliDue(c: Call)
  {
    match c.pli
    case WaitRtp => SawRtp(c.v.inputs) && !SawKey(c.v.inputs)
    case Burst(i) => i < 10 && !SawKey(c.v.inputs)
    case Sleeping => true
    case _ => false
  }

  /** MAIN RESULT: the PLI loop sends a PLI exactly when one is due, and the burst counts those sent.
      A keyframe ends the burst, and the refresh shuts the gate until its wait is over. */
  lemma PliSentExactly(packets: seq<seq<byte>>, es: seq<Event>, c: Call, e: Event)
    requires Reached(packets, es, c)
    ensures var t := Step(c, packets, e);
      && t.plis == c.plis + (if e.PliWakes? && PliDue(c) then 1 else 0)
      && (c.pli.Burst? ==> c.plis == c.pli.i)
      && (e.PliWakes? && PliDue(c) ==> t.pli == if c.pli.Sleeping? then WaitKey else Burst(c.plis + 1))
      && (e.PliWakes? && SawKey(c.v.inputs) && (c.pli.WaitRtp? || c.pli.Burst? || c.pli.WaitKey?) ==> t.pli == Sleeping)
      && (!e.PliWakes? && !e.PliCancelled? ==> t.pli == c.pli)
  {
    ReachedNoticed(packets, es, c);
    ReachedCounters(packets, es, c);
    hide Reached, VideoInv, Tick, Datagram, Latest;
    if SawKey(c.v.inputs) { KeyIsRtp(c.v.inputs); }
    hide SawKey, SawRtp;
  }

  lemma KeyIsRtp(inputs: seq<seq<byte>>)
    requires SawKey(inputs)
    ensures SawRtp(inputs)
  {
    hide IsRtp, KeyStart;
  }

  // ---------- the gate ----------

  /** A keyframe started since the latest refresh began. */
  function KeySince(c: Call, packets: seq<seq<byte>>, es: seq<Event>, k: bool): bool
    decreases |es|
  {
    if es == [] then k
    else
      var e := es[0];
      KeySince(Step(c, packets, e), packets, es[1..],
               if e.Receive? && c.v.up && StartsKey(e.data) then true else if e.PliWakes? && c.pli.Sleeping? then false else k)
  }

  /** Asleep, the loop leaves the gate open; else only a keyframe opens it. */
  predicate Gated(c: Call, k: bool)
  {
    match c.pli
    case Sleeping => c.v.keyframeReceived
    case Over => k ==> c.v.keyframeReceived
    case _ => c.v.keyframeReceived <==> k
  }

  lemma StepGated(c: Call, packets: seq<seq<byte>>, e: Event, k: bool)
    requires Gated(c, k)
    ensures Gated(Step(c, packets, e),
                  if e.Receive? && c.v.up && StartsKey(e.data) then true else if e.PliWakes? && c.pli.Sleeping? then false else k)
  {
    hide KeyStart, RtpTs, Wire, NextClockTs;
    if e.TickAt? {
      FrameCounters(Resumed(c.v, e.now), packets, 0, NextClockTs(Resumed(c.v, e.now), e.now));
      hide SendFrame;
    }
  }

  lemma {:induction false} RunGated(c: Call, packets: seq<seq<byte>>, es: seq<Event>, k: bool)
    requires Gated(c, k)
    ensures Gated(Run(c, packets, es), KeySince(c, packets, es, k))
    decreases |es|
  {
    hide Gated, Step, StartsKey;
    if es != [] {
      var e := es[0];
      StepGated(c, packets, e, k);
      RunGated(Step(c, packets, e), packets, es[1..],
               if e.Receive? && c.v.up && StartsKey(e.data) then true else if e.PliWakes? && c.pli.Sleeping? then false else k);
    }
  }

  /** MAIN RESULT: between refreshes the gate is open, whether the gateway answered the last one or
      not. In the burst and while a refresh waits it is open exactly if a keyframe has started since
      the start of the call or of that refresh. */
  lemma GateLaw(packets: seq<seq<byte>>, es: seq<Event>, c: Call)
    requires Reached(packets, es, c)
    ensures c.pli.Sleeping? ==> c.v.keyframeReceived
    ensures !c.pli.Sleeping? && !c.pli.Over? ==> (c.v.keyframeReceived <==> KeySince(START, packets, es, false))
  {
    RunGated(START, packets, es, false);
  }
}
