/** A reader of session descriptions (RFC 4566) that knows nothing of how we write them, and what it
    finds in ours. */
module SipOffers {
  import opened Basics
  import opened SipFraming
  import opened SipMessages
  import opened SipRoundTrip
  import opened SipReader
  import SipHeaders

  /** The lines of a body, each without its line end. */
  function BodyLines(s: string): seq<string>
    decreases |s|
  {
    var n := LineEnd(s, 0);
    if n.None? then [] else [s[..n.value]] + BodyLines(s[n.value + 2..])
  }

  /** What follows the prefix in each line that has it, in order. */
  function Following(lines: seq<string>, prefix: string): seq<string>
  {
    if lines == [] then []
    else (if prefix <= lines[0] then [lines[0][|prefix|..]] else []) + Following(lines[1..], prefix)
  }

  function DigitsAt(s: string, i: nat): (n: nat)
    requires i <= |s|
    ensures i <= n <= |s| && forall k :: i <= k < n ==> IsDigit(s[k])
    decreases |s| - i
  {
    if i < |s| && IsDigit(s[i]) then DigitsAt(s, i + 1) else i
  }

  /** A media description: its port, and its transport and formats. */
  datatype Media = Media(port: nat, rest: string)

  function ReadMedia(v: string): Media
  {
    var n := DigitsAt(v, 0);
    Media(Number(v[..n]), v[n..])
  }

  /** All media of a kind that a body describes. */
  function MediaOf(body: string, kind: string): seq<Media>
  {
    var vs := Following(BodyLines(body), "m=" + kind + " ");
    seq(|vs|, i requires 0 <= i < |vs| => ReadMedia(vs[i]))
  }

  // ---------- our bodies are read back ----------

  lemma {:induction false} LinesCutBack(ls: seq<string>)
    requires forall i :: 0 <= i < |ls| ==> Clean(ls[i])
    ensures BodyLines(Lines(ls)) == ls
    decreases |ls|
  {
    if ls != [] {
      var l, rest := ls[0], Lines(ls[1..]);
      LineEndIs(l, rest, 0);
      var s := Lines(ls);
      assert s == l + CRLF + rest;
      assert s[..|l|] == l && s[|l| + 2..] == rest;
      LinesCutBack(ls[1..]);
      assert [l] + ls[1..] == ls;
    } else {
      assert Lines(ls) == "";
    }
  }

  lemma {:induction false} FollowingAppend(a: seq<string>, b: seq<string>, prefix: string)
    ensures Following(a + b, prefix) == Following(a, prefix) + Following(b, prefix)
    decreases |a|
  {
    if a == [] {
      assert a + b == b;
    } else {
      assert (a + b)[1..] == a[1..] + b;
      FollowingAppend(a[1..], b, prefix);
    }
  }

  predicate Silent(ls: seq<string>, prefix: string) { forall i :: 0 <= i < |ls| ==> !(prefix <= ls[i]) }

  lemma {:induction false} SilentFollows(ls: seq<string>, prefix: string)
    requires Silent(ls, prefix)
    ensures Following(ls, prefix) == []
    decreases |ls|
  {
    if ls != [] { SilentFollows(ls[1..], prefix); }
  }

  lemma OneFollows(prefix: string, v: string)
    ensures Following([prefix + v], prefix) == [v]
  {
    assert prefix <= prefix + v && (prefix + v)[|prefix|..] == v;
  }

  lemma {:induction false} DigitsAre(d: string, rest: string, i: nat)
    requires i <= |d| && (forall k :: 0 <= k < |d| ==> IsDigit(d[k])) && (rest != "" ==> !IsDigit(rest[0]))
    ensures DigitsAt(d + rest, i) == |d|
    decreases |d| - i
  {
    if i < |d| {
      assert (d + rest)[i] == d[i];
      DigitsAre(d, rest, i + 1);
    } else if rest != "" {
      assert (d + rest)[i] == rest[0];
    }
  }

  lemma MediaReadsBack(n: nat, rest: string)
    requires rest != "" && !IsDigit(rest[0])
    ensures ReadMedia(Dec(n) + rest) == Media(n, rest)
  {
    DecRoundTrip(n);
    hide Dec, Number;
    DigitsAre(Dec(n), rest, 0);
    assert (Dec(n) + rest)[..|Dec(n)|] == Dec(n) && (Dec(n) + rest)[|Dec(n)|..] == rest;
  }

  // ---------- the parts of our session descriptions ----------

  const AUDIO := "m=audio "
  const VIDEO := "m=video "

  function Head(p: Party): seq<string> { SdpLines(p, Sdp(0, None))[..5] }

  function Middle(): seq<string>
  {
    ["a=rtpmap:0 PCMU/8000", "a=rtpmap:8 PCMA/8000", "a=rtpmap:101 telephone-event/8000", "a=fmtp:101 0-15",
     "a=ptime:20", "a=sendrecv"]
  }

  function Tail(s: Sdp): seq<string>
  {
    if s.videoPort.Some? then [VIDEO + (Dec(s.videoPort.value) + " RTP/AVP 96"), "a=rtpmap:96 VP8/90000", "a=sendrecv"] else []
  }

  lemma SdpParts(p: Party, s: Sdp)
    ensures SdpLines(p, s) == Head(p) + [AUDIO + (Dec(s.audioPort) + " RTP/AVP 0 8 101")] + Middle() + Tail(s)
  {
    assert "m=audio " + Dec(s.audioPort) + " RTP/AVP 0 8 101" == AUDIO + (Dec(s.audioPort) + " RTP/AVP 0 8 101");
    if s.videoPort.Some? {
      assert "m=video " + Dec(s.videoPort.value) + " RTP/AVP 96" == VIDEO + (Dec(s.videoPort.value) + " RTP/AVP 96");
    }
    hide Dec, BeforeAt;
  }

  lemma HeadIsSilent(p: Party)
    ensures Silent(Head(p), AUDIO) && Silent(Head(p), VIDEO) && Silent(Middle(), AUDIO) && Silent(Middle(), VIDEO)
  {
    hide Dec, BeforeAt;
    forall i | 0 <= i < |Head(p)| ensures Head(p)[i][0] != 'm' {}
    forall i | 0 <= i < |Middle()| ensures Middle()[i][0] != 'm' {}
  }

  lemma AudioOf(p: Party, s: Sdp)
    ensures Following(SdpLines(p, s), AUDIO) == [Dec(s.audioPort) + " RTP/AVP 0 8 101"]
  {
    var line := AUDIO + (Dec(s.audioPort) + " RTP/AVP 0 8 101");
    SdpParts(p, s);
    HeadIsSilent(p);
    OneFollows(AUDIO, Dec(s.audioPort) + " RTP/AVP 0 8 101");
    TailFollows(s);
    hide SdpLines, Head, Middle, Tail, Dec;
    SilentFollows(Head(p), AUDIO);
    SilentFollows(Middle(), AUDIO);
    FollowingAppend(Head(p), [line], AUDIO);
    FollowingAppend(Head(p) + [line], Middle(), AUDIO);
    FollowingAppend(Head(p) + [line] + Middle(), Tail(s), AUDIO);
  }

  lemma TailFollows(s: Sdp)
    ensures Following(Tail(s), AUDIO) == []
    ensures Following(Tail(s), VIDEO) == if s.videoPort.Some? then [Dec(s.videoPort.value) + " RTP/AVP 96"] else []
  {
    hide Dec;
    if s.videoPort.Some? {
      var v := Dec(s.videoPort.value) + " RTP/AVP 96";
      var others := ["a=rtpmap:96 VP8/90000", "a=sendrecv"];
      assert Tail(s) == [VIDEO + v] + others;
      assert (VIDEO + v)[2] == 'v' && AUDIO[2] == 'a';
      assert Silent([VIDEO + v], AUDIO);
      assert others[0][0] == 'a' && others[1][0] == 'a';
      assert Silent(others, AUDIO) && Silent(others, VIDEO);
      hide Tail;
      OneFollows(VIDEO, v);
      SilentFollows([VIDEO + v], AUDIO);
      SilentFollows(others, AUDIO);
      SilentFollows(others, VIDEO);
      FollowingAppend([VIDEO + v], others, AUDIO);
      FollowingAppend([VIDEO + v], others, VIDEO);
    }
  }

  lemma VideoOf(p: Party, s: Sdp)
    ensures Following(SdpLines(p, s), VIDEO) == if s.videoPort.Some? then [Dec(s.videoPort.value) + " RTP/AVP 96"] else []
  {
    var line := AUDIO + (Dec(s.audioPort) + " RTP/AVP 0 8 101");
    SdpParts(p, s);
    HeadIsSilent(p);
    TailFollows(s);
    assert line[2] == 'a' && VIDEO[2] == 'v';
    assert Silent([line], VIDEO);
    hide SdpLines, Head, Middle, Tail, Dec;
    SilentFollows(Head(p), VIDEO);
    SilentFollows(Middle(), VIDEO);
    SilentFollows([line], VIDEO);
    FollowingAppend(Head(p), [line], VIDEO);
    FollowingAppend(Head(p) + [line], Middle(), VIDEO);
    FollowingAppend(Head(p) + [line] + Middle(), Tail(s), VIDEO);
  }

  lemma {:induction false} CleanBefore(s: string)
    requires Clean(s)
    ensures Clean(BeforeAt(s))
    decreases |s|
  {
    if s != "" && s[0] != '@' { CleanBefore(s[1..]); }
  }

  lemma SdpIsClean(p: Party, s: Sdp)
    requires CleanParty(p)
    ensures forall i :: 0 <= i < |SdpLines(p, s)| ==> Clean(SdpLines(p, s)[i])
  {
    HeadIsClean(p);
    SdpParts(p, s);
    MiddleIsClean();
    TailIsClean(s);
    CleanDec(s.audioPort);
    CleanTwo(Dec(s.audioPort), " RTP/AVP 0 8 101");
    CleanTwo(AUDIO, Dec(s.audioPort) + " RTP/AVP 0 8 101");
    hide Head, Middle, Tail, Dec, SdpLines, Clean;
  }

  lemma MiddleIsClean()
    ensures forall i :: 0 <= i < |Middle()| ==> Clean(Middle()[i])
  {}

  lemma TailIsClean(s: Sdp)
    ensures forall i :: 0 <= i < |Tail(s)| ==> Clean(Tail(s)[i])
  {
    if s.videoPort.Some? {
      CleanDec(s.videoPort.value);
      CleanTwo(Dec(s.videoPort.value), " RTP/AVP 96");
      CleanTwo(VIDEO, Dec(s.videoPort.value) + " RTP/AVP 96");
      hide Dec;
    }
  }

  lemma HeadIsClean(p: Party)
    requires CleanParty(p)
    ensures forall i :: 0 <= i < |Head(p)| ==> Clean(Head(p)[i])
  {
    var id := BeforeAt(p.callId);
    CleanBefore(p.callId);
    hide BeforeAt, Dec;
    assert Clean("o=" + p.username + " " + id + " " + id + " IN IP4 " + p.host);
    assert Clean("c=IN IP4 " + p.host);
    assert Clean("v=0") && Clean("s=Intratone Call") && Clean("t=0 0");
  }

  /** MAIN RESULT: an independent reader of any session description of ours finds exactly one audio
      description, with the audio port and the three formats, and one of video with the video port and
      VP8 exactly if video is offered. */
  lemma OfferReadsBack(p: Party, s: Sdp)
    requires CleanParty(p)
    ensures MediaOf(Lines(SdpLines(p, s)), "audio") == [Media(s.audioPort, " RTP/AVP 0 8 101")]
    ensures MediaOf(Lines(SdpLines(p, s)), "video") == if s.videoPort.Some? then [Media(s.videoPort.value, " RTP/AVP 96")] else []
  {
    SdpIsClean(p, s);
    AudioOf(p, s);
    VideoOf(p, s);
    hide SdpLines, Following, Dec, ReadMedia, Clean, CleanParty, BodyLines, MediaOf;
    LinesCutBack(SdpLines(p, s));
    assert "m=" + "audio" + " " == AUDIO && "m=" + "video" + " " == VIDEO;
    MediaReadsBack(s.audioPort, " RTP/AVP 0 8 101");
    OneMedia(Lines(SdpLines(p, s)), "audio", Dec(s.audioPort) + " RTP/AVP 0 8 101");
    if s.videoPort.Some? {
      MediaReadsBack(s.videoPort.value, " RTP/AVP 96");
      OneMedia(Lines(SdpLines(p, s)), "video", Dec(s.videoPort.value) + " RTP/AVP 96");
    } else {
      NoMedia(Lines(SdpLines(p, s)), "video");
    }
  }

  lemma OneMedia(body: string, kind: string, v: string)
    requires Following(BodyLines(body), "m=" + kind + " ") == [v]
    ensures MediaOf(body, kind) == [ReadMedia(v)]
  {
    hide Following, BodyLines, ReadMedia;
  }

  lemma NoMedia(body: string, kind: string)
    requires Following(BodyLines(body), "m=" + kind + " ") == []
    ensures MediaOf(body, kind) == []
  {
    hide Following, BodyLines, ReadMedia;
  }

  /** So does one that reads the octets of a whole INVITE, re-INVITE or answer to one. */
  lemma OctetsShowTheOffer(p: Party, o: Out)
    requires CleanParty(p) && CleanOut(o) && (o.Invite? || o.ReInvite? || o.OkSdp?)
    ensures var r := ReadMessage(Wire(p, o));
      && r.Some? && MediaOf(r.value.body, "audio") == [Media(o.sdp.audioPort, " RTP/AVP 0 8 101")]
      && MediaOf(r.value.body, "video") == if o.sdp.videoPort.Some? then [Media(o.sdp.videoPort.value, " RTP/AVP 96")] else []
  {
    OfferReadsBack(p, o.sdp);
    if o.OkSdp? { SipHeaders.ResponsesEchoTheRequest(p, o); } else { SipHeaders.RequestsCarryTheirHeaders(p, o); }
    hide MediaOf, ReadMessage, Wire, CleanParty, CleanOut, SdpLines, Lines, SipHeaders.FoundUnder, SipHeaders.FirstLine, Dec;
  }

  /** And the body of a MESSAGE is its text. */
  lemma OctetsShowTheText(p: Party, o: Out)
    requires CleanParty(p) && CleanOut(o) && o.Message?
    ensures var r := ReadMessage(Wire(p, o)); r.Some? && r.value.body == o.text
  {
    SipHeaders.RequestsCarryTheirHeaders(p, o);
    hide ReadMessage, Wire, CleanParty, CleanOut, SipHeaders.FoundUnder, SipHeaders.FirstLine, Dec;
  }
}
