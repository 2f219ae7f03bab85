/**
  Receiving audio RTP (custom_components/intratone/audio_bridge.py, `_RtpProtocol`): the header of
  section 5.1 of RFC 3550 is skipped whatever its length, the payload goes to ffmpeg, and the
  statistics count every packet once.
*/
module AudioReceive {
  import opened Basics
  import opened Octets
  import Stun

  const HEADER_SIZE := 12
  const GAP_LIMIT := 1000

  /** `payloads` records what the `on_ulaw` callback was given. */
  datatype Rx = Rx(
    bytesTotal: nat, stun: nat, nonRtp: nat, received: nat, seqGaps: nat,
    ptCount: map<nat, nat>, ssrcCount: map<nat, nat>, lastSeq: map<nat, nat>,
    payloads: seq<seq<byte>>)

  const INITIAL := Rx(0, 0, 0, 0, 0, map[], map[], map[], [])

  /** Where the payload starts: fixed header, CSRC list, and the extension if X is set. */
  function PayloadOffset(data: seq<byte>): Option<nat>
    requires |data| >= HEADER_SIZE
  {
    var fixed := HEADER_SIZE + data[0] % 16 * 4;
    if data[0] / 16 % 2 == 0 then Some(fixed)
    else if |data| < fixed + 4 then None
    else Some(fixed + 4 + U16At(data, fixed + 2) * 4)
  }

  predicate IsAudio(data: seq<byte>)
  {
    && |data| >= HEADER_SIZE && data[0] / 64 == 2 && !Stun.IsBindingRequest(data)
    && PayloadOffset(data).Some? && PayloadOffset(data).value < |data|
  }

  function Bump(m: map<nat, nat>, k: nat): map<nat, nat> { m[k := (if k in m then m[k] else 0) + 1] }

  function NewGap(last: map<nat, nat>, ssrc: nat, n: nat): nat
  {
    if ssrc !in last then 0
    else
      var delta := (n - (last[ssrc] + 1)) % U16;
      if 0 < delta < GAP_LIMIT then 1 else 0
  }

  function Count(rx: Rx, data: seq<byte>): Rx
    requires IsAudio(data)
  {
    var ssrc := U32At(data, 8);
    var n := U16At(data, 2);
    rx.(received := rx.received + 1,
        ptCount := Bump(rx.ptCount, data[1] % 128),
        ssrcCount := Bump(rx.ssrcCount, ssrc),
        seqGaps := rx.seqGaps + NewGap(rx.lastSeq, ssrc, n),
        lastSeq := rx.lastSeq[ssrc := n],
        payloads := rx.payloads + [data[PayloadOffset(data).value..]])
  }

  /** `datagram_received` */
  function Receive(rx: Rx, data: seq<byte>): Rx
  {
    var r := rx.(bytesTotal := rx.bytesTotal + |data|);
    if Stun.IsBindingRequest(data) then r.(stun := r.stun + 1)
    else if |data| < HEADER_SIZE || data[0] / 64 != 2 then r.(nonRtp := r.nonRtp + 1)
    else if IsAudio(data) then Count(r, data)
    else r
  }

  function ReceiveAll(rx: Rx, ds: seq<seq<byte>>): Rx
    decreases |ds|
  {
    if ds == [] then rx else Receive(ReceiveAll(rx, ds[..|ds| - 1]), ds[|ds| - 1])
  }

  // ---------- the packets of section 5.1 of RFC 3550 ----------

  datatype Ext = Ext(profile: nat, content: seq<byte>)

  /** `index` is the sequence number before it is reduced modulo 2^16. */
  datatype Packet = Packet(marker: nat, pt: nat, index: nat, ts: nat, ssrc: nat,
                           csrcs: seq<nat>, ext: Option<Ext>, payload: seq<byte>)

  predicate Valid(p: Packet)
  {
    && p.marker < 2 && p.pt < 128 && p.ts < U32 && p.ssrc < U32
    && |p.csrcs| < 16 && (forall i :: 0 <= i < |p.csrcs| ==> p.csrcs[i] < U32)
    && (p.ext.Some? ==> p.ext.value.profile < U16 && |p.ext.value.content| % 4 == 0
                        && |p.ext.value.content| / 4 < U16)
    && p.payload != []
  }

  function EncodeCsrcs(cs: seq<nat>): (r: seq<byte>)
    ensures |r| == 4 * |cs|
  {
    if cs == [] then [] else EncodeCsrcs(cs[..|cs| - 1]) + BigEndian(4, cs[|cs| - 1])
  }

  function EncodeExt(e: Option<Ext>): seq<byte>
  {
    if e.None? then []
    else BigEndian(2, e.value.profile) + BigEndian(2, |e.value.content| / 4) + e.value.content
  }

  function FixedHeader(p: Packet): (r: seq<byte>)
    requires Valid(p)
    ensures |r| == HEADER_SIZE
  {
    [128 + (if p.ext.Some? then 16 else 0) + |p.csrcs|] + [p.marker * 128 + p.pt]
      + BigEndian(2, p.index % U16) + BigEndian(4, p.ts) + BigEndian(4, p.ssrc)
  }

  function Encode(p: Packet): seq<byte>
    requires Valid(p)
  {
    FixedHeader(p) + EncodeCsrcs(p.csrcs) + EncodeExt(p.ext) + p.payload
  }

  lemma HeaderFields(p: Packet)
    requires Valid(p)
    ensures var d := Encode(p);
      && |d| >= HEADER_SIZE && d[0] / 64 == 2 && d[0] % 16 == |p.csrcs| && (d[0] / 16 % 2 == 1 <==> p.ext.Some?)
      && d[1] % 128 == p.pt && U16At(d, 2) == p.index % U16 && U32At(d, 8) == p.ssrc
  {
    Widths();
    var d := Encode(p);
    assert d[2..4] == BigEndian(2, p.index % U16);
    assert d[8..12] == BigEndian(4, p.ssrc);
    BigEndianRoundTrip(2, p.index % U16);
    BigEndianRoundTrip(4, p.ssrc);
  }

  lemma OffsetOfEncoding(p: Packet)
    requires Valid(p)
    ensures var d := Encode(p);
      |d| >= HEADER_SIZE && PayloadOffset(d) == Some(|d| - |p.payload|)
  {
    HeaderFields(p);
    Widths();
    var d := Encode(p);
    if p.ext.Some? {
      var words := |p.ext.value.content| / 4;
      var at := HEADER_SIZE + 4 * |p.csrcs| + 2;
      assert d[at..at + 2] == BigEndian(2, words);
      BigEndianRoundTrip(2, words);
    }
  }

  /** MAIN RESULT: of every version-2 packet without padding, with any CSRC list, extension and
      non-empty payload, exactly the payload is forwarded, and it is counted under its payload
      type and SSRC. */
  lemma PayloadIsForwarded(rx: Rx, p: Packet)
    requires Valid(p)
    ensures IsAudio(Encode(p))
    ensures var r := Receive(rx, Encode(p));
      && r.payloads == rx.payloads + [p.payload]
      && r.received == rx.received + 1 && r.stun == rx.stun && r.nonRtp == rx.nonRtp
      && r.ptCount == Bump(rx.ptCount, p.pt) && r.ssrcCount == Bump(rx.ssrcCount, p.ssrc)
      && r.lastSeq == rx.lastSeq[p.ssrc := p.index % U16]
      && r.seqGaps == rx.seqGaps + NewGap(rx.lastSeq, p.ssrc, p.index % U16)
  {
    HeaderFields(p);
    OffsetOfEncoding(p);
    var d := Encode(p);
    if Stun.IsBindingRequest(d) { Stun.RequestIsNotRtp(d); }
    assert d[|d| - |p.payload|..] == p.payload;
    hide Encode, PayloadOffset, U16At, U32At, NewGap;
  }

  // ---------- every datagram is counted once ----------

  function SumTo(m: map<nat, nat>, n: nat): nat
  {
    if n == 0 then 0 else SumTo(m, n - 1) + (if n - 1 in m then m[n - 1] else 0)
  }

  lemma {:induction false} SumBump(m: map<nat, nat>, k: nat, n: nat)
    ensures SumTo(Bump(m, k), n) == SumTo(m, n) + (if k < n then 1 else 0)
  {
    if n > 0 { SumBump(m, k, n - 1); }
  }

  ghost predicate Balanced(rx: Rx)
  {
    SumTo(rx.ptCount, 128) == rx.received && SumTo(rx.ssrcCount, U32) == rx.received
    && |rx.payloads| == rx.received
  }

  lemma ReceiveBalances(rx: Rx, data: seq<byte>)
    requires Balanced(rx)
    ensures Balanced(Receive(rx, data))
  {
    if IsAudio(data) {
      SumBump(rx.ptCount, data[1] % 128, 128);
      SumBump(rx.ssrcCount, U32At(data, 8), U32);
      hide SumTo;
    }
  }

  /** MAIN RESULT: after any datagrams whatever, the packets received are the sum of the counts by
      payload type, the sum of the counts by SSRC, and the number of payloads forwarded. */
  lemma {:induction false} CountsBalance(ds: seq<seq<byte>>)
    ensures Balanced(ReceiveAll(INITIAL, ds))
    decreases |ds|
  {
    if ds == [] {
      EmptySum(128);
      EmptySum(U32);
      hide SumTo;
    } else {
      CountsBalance(ds[..|ds| - 1]);
      ReceiveBalances(ReceiveAll(INITIAL, ds[..|ds| - 1]), ds[|ds| - 1]);
    }
  }

  lemma {:induction false} EmptySum(n: nat)
    ensures SumTo(map[], n) == 0
  {
    if n > 0 { EmptySum(n - 1); }
  }

  /** A datagram is exactly one of: a STUN request, not RTP, audio, or dropped as truncated. */
  lemma OneClassEach(rx: Rx, data: seq<byte>)
    ensures var r := Receive(rx, data);
      && r.bytesTotal == rx.bytesTotal + |data|
      && rx.stun + rx.nonRtp + rx.received <= r.stun + r.nonRtp + r.received
                                           <= rx.stun + rx.nonRtp + rx.received + 1
      && (r.stun > rx.stun <==> Stun.IsBindingRequest(data))
      && (r.received > rx.received <==> IsAudio(data))
      && (r.nonRtp > rx.nonRtp <==> !Stun.IsBindingRequest(data) && (|data| < HEADER_SIZE || data[0] / 64 != 2))
      && (r.stun + r.nonRtp + r.received == rx.stun + rx.nonRtp + rx.received ==> r.payloads == rx.payloads)
  {
    if Stun.IsBindingRequest(data) { Stun.RequestIsNotRtp(data); }
  }

  // ---------- sequence gaps are loss runs ----------

  /** The unwrapped index of the latest packet of a stream. */
  function LastIndex(ps: seq<Packet>, ssrc: nat): Option<nat>
  {
    if ps == [] then None
    else if ps[|ps| - 1].ssrc == ssrc then Some(ps[|ps| - 1].index)
    else LastIndex(ps[..|ps| - 1], ssrc)
  }

  /** How many packets were lost just before the last of ps, in its own stream. */
  function LostBefore(ps: seq<Packet>): int
    requires ps != []
  {
    var last := LastIndex(ps[..|ps| - 1], ps[|ps| - 1].ssrc);
    if last.None? then 0 else ps[|ps| - 1].index - last.value - 1
  }

  /** Each stream arrives in order, without duplicates, and never loses 2^16 packets in a row. */
  predicate InOrder(ps: seq<Packet>)
  {
    ps == [] || (InOrder(ps[..|ps| - 1]) && Valid(ps[|ps| - 1]) && 0 <= LostBefore(ps) < U16)
  }

  /** How many runs of 1 to 999 consecutive packets were lost, over all streams. */
  function LossRuns(ps: seq<Packet>): nat
  {
    if ps == [] then 0
    else LossRuns(ps[..|ps| - 1]) + (if 1 <= LostBefore(ps) <= GAP_LIMIT - 1 then 1 else 0)
  }

  function ReceivePackets(ps: seq<Packet>): Rx
    requires InOrder(ps)
    decreases |ps|
  {
    if ps == [] then INITIAL else Receive(ReceivePackets(ps[..|ps| - 1]), Encode(ps[|ps| - 1]))
  }

  ghost predicate Tracks(rx: Rx, ps: seq<Packet>)
  {
    forall s: nat ::
      && (s in rx.lastSeq <==> LastIndex(ps, s).Some?)
      && (s in rx.lastSeq ==> rx.lastSeq[s] == LastIndex(ps, s).value % U16)
  }

  lemma DeltaIsLoss(index: nat, last: nat)
    requires 0 <= index - last - 1 < U16
    ensures (index % U16 - (last % U16 + 1)) % U16 == index - last - 1
  {
    var lost := index - last - 1;
    assert index == U16 * (index / U16) + index % U16;
    assert last == U16 * (last / U16) + last % U16;
    var k := index / U16 - last / U16;
    assert index % U16 - (last % U16 + 1) == lost - U16 * k;
    assert k == 0 || k == 1;
  }

  lemma GapStep(rx: Rx, ps: seq<Packet>)
    requires ps != [] && InOrder(ps) && Tracks(rx, ps[..|ps| - 1])
    ensures var p := ps[|ps| - 1];
      NewGap(rx.lastSeq, p.ssrc, p.index % U16) == if 1 <= LostBefore(ps) <= GAP_LIMIT - 1 then 1 else 0
  {
    var p := ps[|ps| - 1];
    if p.ssrc in rx.lastSeq { DeltaIsLoss(p.index, LastIndex(ps[..|ps| - 1], p.ssrc).value); }
  }

  lemma TrackStep(rx: Rx, t: Rx, ps: seq<Packet>)
    requires ps != [] && Tracks(rx, ps[..|ps| - 1])
    requires t.lastSeq == rx.lastSeq[ps[|ps| - 1].ssrc := ps[|ps| - 1].index % U16]
    ensures Tracks(t, ps)
  {}

  /** MAIN RESULT: for streams that arrive in order, however they interleave and wrap around,
      `seq_gaps` is the number of loss runs of 1 to 999 packets. */
  lemma {:induction false} GapsAreLossRuns(ps: seq<Packet>)
    requires InOrder(ps)
    ensures ReceivePackets(ps).seqGaps == LossRuns(ps)
    ensures Tracks(ReceivePackets(ps), ps)
    decreases |ps|
  {
    if ps != [] {
      var rx := ReceivePackets(ps[..|ps| - 1]);
      GapsAreLossRuns(ps[..|ps| - 1]);
      PayloadIsForwarded(rx, ps[|ps| - 1]);
      GapStep(rx, ps);
      hide Receive, Encode, NewGap, Bump, Tracks;
      TrackStep(rx, ReceivePackets(ps), ps);
    }
  }

  // ---------- the object ----------

  /** `_RtpProtocol`: the statistics it keeps, and the payloads it passed on. */
  class RtpProtocol {
    var bytesTotal: nat
    var stun: nat
    var nonRtp: nat
    var received: nat
    var seqGaps: nat
    var ptCount: map<nat, nat>
    var ssrcCount: map<nat, nat>
    var lastSeq: map<nat, nat>
    var payloads: seq<seq<byte>>

    function View(): Rx
      reads this
    {
      Rx(bytesTotal, stun, nonRtp, received, seqGaps, ptCount, ssrcCount, lastSeq, payloads)
    }

    constructor ()
      ensures View() == INITIAL
    {
      bytesTotal, stun, nonRtp, received, seqGaps := 0, 0, 0, 0, 0;
      ptCount, ssrcCount, lastSeq, payloads := map[], map[], map[], [];
    }

    method DatagramReceived(data: seq<byte>)
      modifies this
      ensures View() == Receive(old(View()), data)
    {
      bytesTotal := bytesTotal + |data|;
      if Stun.IsBindingRequest(data) {
        stun := stun + 1;
        return;
      }
      if |data| < HEADER_SIZE {
        nonRtp := nonRtp + 1;
        return;
      }
      if data[0] / 64 % 4 != 2 {
        nonRtp := nonRtp + 1;
        return;
      }
      var headerLen := HEADER_SIZE + data[0] % 16 * 4;
      if data[0] / 16 % 2 == 1 {
        if |data| < headerLen + 4 { return; }
        headerLen := headerLen + 4 + U16At(data, headerLen + 2) * 4;
      }
      if |data| <= headerLen { return; }
      assert IsAudio(data) && PayloadOffset(data) == Some(headerLen);
      CountPacket(data, headerLen);
    }

    /** The statistics and the callback, for a datagram whose payload starts at `headerLen`. */
    method CountPacket(data: seq<byte>, headerLen: nat)
      requires IsAudio(data) && PayloadOffset(data) == Some(headerLen)
      modifies this
      ensures View() == Count(old(View()), data)
    {
      assert |data| >= HEADER_SIZE && headerLen <= |data|;
      hide NewGap, IsAudio, PayloadOffset;
      var pt := data[1] % 128;
      var ssrc := U32At(data, 8);
      received := received + 1;
      ptCount := Counted(ptCount, pt);
      ssrcCount := Counted(ssrcCount, ssrc);
      CountGap(ssrc, U16At(data, 2));
      payloads := payloads + [data[headerLen..]];
    }

    /** One more for a key, which starts at zero. */
    static method Counted(m: map<nat, nat>, k: nat) returns (r: map<nat, nat>)
      ensures r == Bump(m, k)
    {
      r := m;
      if k !in r { r := r[k := 0]; }
      r := r[k := r[k] + 1];
    }

    /** Sequence-gap detection, per SSRC. */
    method CountGap(ssrc: nat, n: nat)
      requires n < U16
      modifies this`seqGaps, this`lastSeq
      ensures seqGaps == old(seqGaps) + NewGap(old(lastSeq), ssrc, n) && lastSeq == old(lastSeq)[ssrc := n]
    {
      if ssrc in lastSeq {
        var expected := (lastSeq[ssrc] + 1) % U16;
        SameDelta(n, lastSeq[ssrc] + 1);
        if n != expected {
          var delta := (n - expected) % U16;
          if 0 < delta < GAP_LIMIT { seqGaps := seqGaps + 1; }
        }
      }
      lastSeq := lastSeq[ssrc := n];
    }
  }

  /** Masking the expected number first does not change the masked difference. */
  lemma SameDelta(n: nat, next: nat)
    ensures (n - next % U16) % U16 == (n - next) % U16
    ensures n % U16 == next % U16 ==> (n - next) % U16 == 0
  {
    var q := next / U16;
    assert n - next == (n - next % U16) - U16 * q;
    assert n - next % U16 == n % U16 - next % U16 + U16 * (n / U16);
  }
}
