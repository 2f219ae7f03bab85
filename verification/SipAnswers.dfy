/** What the client does with each thing it receives or is asked for: exactly which acts it adds to the
    transcript, decided by what the transcript already shows. */
module SipAnswers {
  import opened Basics
  import opened SipMessages
  import opened SipDialog
  import opened SipTranscript
  import SipRoutes
  import SipTheorems
  import SipReader
  import SipHeaders
  import SipRoundTrip

  // ---------- what the transcript shows of the call ----------

  /** The media that the latest INVITE or re-INVITE offered. */
  function Offer(tr: seq<Act>): Sdp
  {
    if tr == [] then Sdp(0, None)
    else
      var a := tr[|tr| - 1];
      if a.Sent? && (a.what.Invite? || a.what.ReInvite?) then a.what.sdp else Offer(tr[..|tr| - 1])
  }

  /** A re-INVITE is out, and nothing was acknowledged since. */
  predicate Pending(tr: seq<Act>)
  {
    tr != [] && var a := tr[|tr| - 1];
      if a.Sent? && a.what.ReInvite? then true
      else if a.Sent? && a.what.Ack? then false
      else Pending(tr[..|tr| - 1])
  }

  lemma More(tr: seq<Act>, a: Act)
    ensures Offer(tr + [a]) == if a.Sent? && (a.what.Invite? || a.what.ReInvite?) then a.what.sdp else Offer(tr)
    ensures Pending(tr + [a]) <==> (a.Sent? && a.what.ReInvite?) || (!(a.Sent? && a.what.Ack?) && Pending(tr))
  {
    assert (tr + [a])[..|tr|] == tr;
  }

  /** The call keeps what the transcript shows. */
  predicate Shows(c: Client)
  {
    c.call.Some? ==>
      var call := c.call.value;
      && Offer(c.trace) == Sdp(call.audioPort, call.videoPort)
      && (call.reinviting <==> Pending(c.trace))
      && (call.reinviting ==> call.videoPort.None? && call.state == Confirmed)
  }

  /** One act is added, and the call is now as given. */
  predicate Adds(c: Client, a: Act, call: Option<Call>, d: Client) { d.trace == c.trace + [a] && d.call == call }

  predicate AddsTwo(c: Client, a: Act, b: Act, call: Option<Call>, d: Client)
  {
    d.trace == c.trace + [a, b] && d.call == call
  }

  /** The live call, and that this client has a transport for it, stay what they are. */
  predicate Unmoved(c: Client, d: Client) { d.trace == c.trace && d.call == c.call }

  // ---------- each handler ----------

  /** A header of the message carries a challenge. */
  predicate Challenges(m: Msg)
    requires m.Response?
  {
    (m.proxyAuth.Some? && m.proxyAuth.value != "") || (m.wwwAuth.Some? && m.wwwAuth.value != "")
  }

  function Who(c: Client): Party
    requires c.call.Some?
  {
    c.call.value.party
  }

  function End(c: Client): Act
    requires c.call.Some?
  {
    Terminated(c.call.value.party.callId)
  }

  lemma ChallengeAdds(c: Client, m: Msg, authorization: Option<string>, token: string)
    requires c.call.Some? && m.Response?
    ensures var d := HandleAuthChallenge(c, m, authorization, token); var call := c.call.value;
      var ack := Sent(Who(c), AckFor(call, m, call.party.target));
      if Challenges(m) && authorization.Some? then
        var header := if m.proxyAuth.Some? then "Proxy-Authorization" else "Authorization";
        AddsTwo(c, ack,
                Sent(Who(c), Invite(token, call.cseq + 1, Sdp(call.audioPort, call.videoPort),
                                    Some(Credentials(header, authorization.value)))),
                Some(call.(cseq := call.cseq + 1, branch := token, state := Authenticating)), d)
      else AddsTwo(c, ack, End(c), None, d)
  {
    hide AckFor;
    var d := HandleAuthChallenge(c, m, authorization, token);
    var acked := c.trace + [Sent(Who(c), AckFor(c.call.value, m, c.call.value.party.target))];
    assert |d.trace| == |acked| + 1 && d.trace == acked + [d.trace[|acked|]];
    assert d.trace == c.trace + [acked[|c.trace|], d.trace[|acked|]];
  }

  /** The video endpoint of the answer counts only if video was offered. */
  function Agreed(call: Call, m: Msg): Option<Endpoint>
    requires m.Response?
  {
    if call.videoPort.Some? && call.videoPort.value != 0 then m.video else None
  }

  lemma OkAdds(c: Client, m: Msg)
    requires c.call.Some? && m.Response?
    ensures var d := HandleOk(c, m); var call := InDialog(c.call.value, m);
      var ack := Sent(Who(c), AckFor(call, m, call.remoteTarget.value));
      if m.rtp.Some? then
        var video := Agreed(call, m);
        AddsTwo(c, ack, Established(call.party.callId, m.rtp.value, call.audioPort, video, if video.Some? then call.videoPort else None),
                Some(call.(state := Confirmed)), d)
      else AddsTwo(c, ack, End(c), None, d)
  {
    hide AckFor, SipRoutes.ContactUri, SipRoutes.Reverse, SipRoutes.RecordRoutes;
    var d := HandleOk(c, m);
    var call := InDialog(c.call.value, m);
    var acked := c.trace + [Sent(Who(c), AckFor(call, m, call.remoteTarget.value))];
    assert |d.trace| == |acked| + 1 && d.trace == acked + [d.trace[|acked|]];
    assert d.trace == c.trace + [acked[|c.trace|], d.trace[|acked|]];
  }

  // ---------- the call keeps what the transcript shows ----------

  lemma ShowsSame(c: Client, d: Client)
    requires Shows(c) && Unmoved(c, d)
    ensures Shows(d)
  {}

  lemma ShowsGone(c: Client, d: Client)
    requires d.call.None?
    ensures Shows(d)
  {}

  lemma ShowsAdd(c: Client, a: Act, call: Call, d: Client)
    requires c.call.Some? && Shows(c) && Adds(c, a, Some(call), d)
    requires a.Sent?
    requires a.what.Ack? ==> call == c.call.value.(reinviting := false)
    requires a.what.ReInvite? ==>
      call.reinviting && call.videoPort.None? && call.state == Confirmed && a.what.sdp == Sdp(call.audioPort, None)
    requires !a.what.Ack? && !a.what.ReInvite? && !a.what.Invite? ==> call == c.call.value.(cseq := call.cseq)
    requires !a.what.Invite?
    ensures Shows(d)
  {
    More(c.trace, a);
    hide Offer, Pending;
  }

  lemma ShowsChallenge(c: Client, m: Msg, authorization: Option<string>, token: string)
    requires c.call.Some? && m.Response? && Shows(c) && c.call.value.state == Inviting
    ensures Shows(HandleAuthChallenge(c, m, authorization, token))
  {
    ChallengeAdds(c, m, authorization, token);
    var d := HandleAuthChallenge(c, m, authorization, token);
    hide HandleAuthChallenge, AckFor, Challenges;
    if d.call.Some? { TwoMore(c, d); }
  }

  lemma TwoMore(c: Client, d: Client)
    requires |d.trace| == |c.trace| + 2 && c.trace <= d.trace
    ensures var a, b := d.trace[|c.trace|], d.trace[|c.trace| + 1];
      && Offer(d.trace) == Offer(c.trace + [a] + [b]) && Pending(d.trace) == Pending(c.trace + [a] + [b])
      && Offer(c.trace + [a] + [b]) == (if b.Sent? && (b.what.Invite? || b.what.ReInvite?) then b.what.sdp else Offer(c.trace + [a]))
      && Offer(c.trace + [a]) == (if a.Sent? && (a.what.Invite? || a.what.ReInvite?) then a.what.sdp else Offer(c.trace))
      && (a.Sent? && a.what.Ack? ==> !Pending(c.trace + [a]))
      && (!(b.Sent? && b.what.ReInvite?) && !Pending(c.trace + [a]) ==> !Pending(c.trace + [a] + [b]))
  {
    var a, b := d.trace[|c.trace|], d.trace[|c.trace| + 1];
    assert d.trace == c.trace + [a] + [b];
    More(c.trace, a);
    More(c.trace + [a], b);
    hide Offer, Pending;
  }

  lemma ShowsOk(c: Client, m: Msg)
    requires c.call.Some? && m.Response? && Shows(c) && c.call.value.state != Confirmed
    ensures Shows(HandleOk(c, m))
  {
    OkAdds(c, m);
    var d := HandleOk(c, m);
    hide HandleOk, AckFor, SipRoutes.ContactUri, SipRoutes.Reverse, SipRoutes.RecordRoutes;
    if d.call.Some? { TwoMore(c, d); }
  }

  lemma ShowsResponse(c: Client, m: Msg, authorization: Option<string>, token: string)
    requires c.call.Some? && m.Response? && Shows(c)
    ensures Shows(HandleResponse(c, m, authorization, token))
  {
    var call := c.call.value;
    hide Shows, AckFor, OfInvite, OfOther, HandleOk, HandleAuthChallenge, Uri;
    if m.code >= 200 {
      if (m.code == 401 || m.code == 407) && call.state == Inviting {
        ShowsChallenge(c, m, authorization, token);
      } else if m.code < 300 && call.state != Confirmed {
        ShowsOk(c, m);
      } else {
        ShowsAcked(c, m);
      }
    }
  }

  lemma ShowsAcked(c: Client, m: Msg)
    requires c.call.Some? && m.Response? && Shows(c)
    ensures Shows(Write(With(c, c.call.value.(reinviting := false)), AckFor(c.call.value, m, Uri(c.call.value))))
    ensures Shows(Terminate(Write(c, AckFor(c.call.value, m, c.call.value.party.target))))
  {
    var call := c.call.value.(reinviting := false);
    var o := AckFor(c.call.value, m, Uri(c.call.value));
    hide Uri;
    ShowsAdd(c, Sent(Who(c), o), call, Write(With(c, call), o));
  }

  lemma ShowsRequest(c: Client, m: Msg)
    requires c.call.Some? && m.Request? && Shows(c)
    ensures Shows(HandleRequest(c, m))
  {
    var d := HandleRequest(c, m);
    if d.call.Some? && d != c {
      assert d.trace == c.trace + [d.trace[|c.trace|]];
      ShowsAdd(c, d.trace[|c.trace|], c.call.value, d);
    }
  }

  lemma ShowsAsked(c: Client, e: Event)
    requires Shows(c) && (e.SendMessage? || e.AudioOnly? || e.HangUp?)
    ensures Shows(Next(c, e))
  {
    var d := Next(c, e);
    hide Uri, ToHeader, Shows;
    if d.call.Some? && d != c {
      assert d.trace == c.trace + [d.trace[|c.trace|]];
      ShowsAdd(c, d.trace[|c.trace|], d.call.value, d);
    } else if d.call.None? {
      ShowsGone(c, d);
    }
  }

  lemma ShowsDial(c: Client, e: Event)
    requires Shows(c) && e.Dial? && c.trace == []
    ensures Shows(Next(c, e))
  {
    if c.connected && c.call.None? {
      More(c.trace, Sent(e.party, Invite(e.token, INITIAL_CSEQ, Sdp(e.audioPort, e.videoPort), None)));
    }
  }

  lemma ShowsNext(c: Client, e: Event)
    requires Shows(c) && (e.Dial? ==> c.trace == [])
    ensures Shows(Next(c, e))
  {
    hide Shows;
    match e {
      case ConnectionMade => ShowsSame(c, Next(c, e));
      case ConnectionLost => ShowsGone(c, Next(c, e));
      case Dial(_, _, _, _) => ShowsDial(c, e);
      case Receive(m, authorization, token) =>
        if ForCall(c, m) {
          if m.Response? { ShowsResponse(c, m, authorization, token); } else { ShowsRequest(c, m); }
        }
      case _ => ShowsAsked(c, e);
    }
  }

  /** In every run the call offers what its latest INVITE or re-INVITE offered, and waits for the answer
      to a re-INVITE exactly as long as one is out and nothing was acknowledged since. */
  lemma {:induction false} EveryRunShows(es: seq<Event>, c: Client)
    requires Reached(es, c)
    ensures Shows(c)
    decreases |es|
  {
    if es != [] {
      var front, e := es[..|es| - 1], es[|es| - 1];
      var b := ReachedLast(es, c);
      EveryRunShows(front, b);
      if e.Dial? {
        forall i | 0 <= i < |front| ensures !front[i].Dial? { assert front[i] == es[i]; }
        NothingBeforeDial(front, b);
      }
      hide Reached, Shows, Next;
      ShowsNext(b, e);
    }
  }

  // ---------- the phases that an observer sees ----------

  predicate Live(c: Client) { c.trace != [] && !c.trace[|c.trace| - 1].Terminated? }

  predicate Talks(c: Client) { See(c.trace).phase == Talking }

  lemma PhasesAre(es: seq<Event>, c: Client)
    requires Reached(es, c)
    ensures c.call.Some? <==> Live(c)
    ensures c.call.Some? ==> c.connected && (c.call.value.state == Confirmed <==> Talks(c)) && See(c.trace).party == c.call.value.party
    ensures Shows(c)
  {
    SipTheorems.LiveIffNotTerminated(es, c);
    EveryRunIsRegular(es, c);
    EveryRunShows(es, c);
    hide Reached, See, Regular, Shows;
    if c.call.Some? { GoodFacts(c); }
  }

  /** A message is for the call: its Call-ID is, or it has none. */
  predicate Addressed(c: Client, m: Msg) { m.callId == "" || m.callId == See(c.trace).party.callId }

  lemma AddressedIsForCall(es: seq<Event>, c: Client, m: Msg)
    requires Reached(es, c) && Live(c)
    ensures ForCall(c, m) <==> Addressed(c, m)
  {
    PhasesAre(es, c);
    hide Reached, See, Shows;
  }

  /** Nothing is written, and nothing changes, for a message to another call or after the end. */
  lemma OthersAreIgnored(es: seq<Event>, c: Client, m: Msg, authorization: Option<string>, token: string)
    requires Reached(es, c) && (!Live(c) || !Addressed(c, m))
    ensures Next(c, Receive(m, authorization, token)) == c
  {
    PhasesAre(es, c);
    if Live(c) { AddressedIsForCall(es, c, m); }
    hide Reached, See, Shows, HandleResponse, HandleRequest;
  }

  // ---------- responses ----------

  /** MAIN RESULT: a call that has not been challenged yet answers a 401 or 407 by an ACK and then, if the
      message carries a challenge that the Digest code can answer, by the same INVITE again: next CSeq,
      a new branch, the same offer, and the answer under Proxy-Authorization exactly if the message has
      a Proxy-Authenticate header. The call goes on with that INVITE. Otherwise the call ends. */
  lemma ChallengeIsAnswered(es: seq<Event>, c: Client, m: Msg, authorization: Option<string>, token: string)
    requires Reached(es, c) && c.call.Some? && c.call.value.state == Inviting
    requires m.Response? && (m.code == 401 || m.code == 407) && Addressed(c, m)
    ensures var d := Next(c, Receive(m, authorization, token)); var n := |c.trace|; var who := See(c.trace).party;
      && |d.trace| == n + 2 && d.trace[..n] == c.trace && d.trace[n].Sent? && d.trace[n].what.Ack?
      && (if Challenges(m) && authorization.Some? then
            && d.trace[n + 1] == Sent(who, Invite(token, d.trace[n].what.cseq + 1, Offer(c.trace),
                                                  Some(Credentials(if m.proxyAuth.Some? then "Proxy-Authorization" else "Authorization",
                                                                   authorization.value))))
            && d.call == Some(c.call.value.(cseq := d.trace[n].what.cseq + 1, branch := token, state := Authenticating))
          else d.trace[n + 1] == Terminated(who.callId) && d.call.None?)
  {
    hide Reached, See, HandleAuthChallenge, Challenges, Offer, Pending, Uri, AckFor;
    PhasesAre(es, c);
    AddressedIsForCall(es, c, m);
    ChallengeIsHandled(c, m, authorization, token);
    ChallengeAdds(c, m, authorization, token);
    AckIsOf(c.call.value, m);
    hide Next, Addressed;
  }

  lemma ChallengeIsHandled(c: Client, m: Msg, authorization: Option<string>, token: string)
    requires ForCall(c, m) && m.Response? && (m.code == 401 || m.code == 407) && c.call.value.state == Inviting
    ensures Next(c, Receive(m, authorization, token)) == HandleAuthChallenge(c, m, authorization, token)
  {
    hide HandleAuthChallenge;
  }

  lemma AckIsOf(call: Call, m: Msg)
    requires m.Response?
    ensures var o := AckFor(call, m, call.party.target); o.Ack? && o.cseq == call.cseq
  {}

  /** MAIN RESULT: a 2xx before the call is established is acknowledged and, if its SDP can be read,
      reported at once with the endpoints of the answer: the video endpoint exactly if video was
      offered and the answer has one. If it cannot be read the call ends. */
  lemma AcceptanceIsReported(es: seq<Event>, c: Client, m: Msg, authorization: Option<string>, token: string)
    requires Reached(es, c) && c.call.Some? && !Talks(c)
    requires m.Response? && 200 <= m.code < 300 && Addressed(c, m)
    ensures var d := Next(c, Receive(m, authorization, token)); var n := |c.trace|; var who := See(c.trace).party;
      var offer := Offer(c.trace);
      var video := if offer.videoPort.Some? && offer.videoPort.value != 0 then m.video else None;
      && |d.trace| == n + 2 && d.trace[..n] == c.trace && d.trace[n].Sent? && d.trace[n].what.Ack?
      && (if m.rtp.Some? then
            && d.call.Some? && d.call.value.state == Confirmed
            && d.trace[n + 1] == Established(who.callId, m.rtp.value, offer.audioPort, video,
                                             if video.Some? then offer.videoPort else None)
          else d.trace[n + 1] == Terminated(who.callId) && d.call.None?)
  {
    PhasesAre(es, c);
    AddressedIsForCall(es, c, m);
    OkAdds(c, m);
    hide Reached, See, HandleOk, Offer, Pending, Uri, SipRoutes.ContactUri, SipRoutes.Reverse, SipRoutes.RecordRoutes;
  }

  /** MAIN RESULT: any other final answer, unless it is for another method. While a re-INVITE is pending,
      or for a 2xx, it is acknowledged and the call goes on, with nothing pending. Every other one is
      acknowledged and ends the call, also a second challenge. */
  lemma RefusalEndsTheCall(es: seq<Event>, c: Client, m: Msg, authorization: Option<string>, token: string)
    requires Reached(es, c) && c.call.Some? && Addressed(c, m) && m.Response?
    requires if m.code < 300 then 200 <= m.code && Talks(c) && OfInvite(m.cseq)
             else !OfOther(m.cseq) && ((m.code == 401 || m.code == 407) ==> c.call.value.state != Inviting)
    ensures var d := Next(c, Receive(m, authorization, token)); var n := |c.trace|;
      && |d.trace| > n && d.trace[..n] == c.trace && d.trace[n].Sent? && d.trace[n].what.Ack?
      && (if m.code < 300 || Pending(c.trace) then |d.trace| == n + 1 && d.call == Some(c.call.value.(reinviting := false))
          else |d.trace| == n + 2 && d.trace[n + 1] == Terminated(See(c.trace).party.callId) && d.call.None?)
  {
    PhasesAre(es, c);
    AddressedIsForCall(es, c, m);
    hide Reached, See, HandleOk, HandleAuthChallenge, Offer, Pending, Uri, Upper;
  }

  /** Final answers to other methods change nothing in any state, nor does a 2xx that is not to an INVITE
      once the call is established. A challenge to a first INVITE is taken as one, and a first 2xx
      accepted, without a look at the method. */
  lemma OtherAnswersAreIgnored(es: seq<Event>, c: Client, m: Msg, authorization: Option<string>, token: string)
    requires Reached(es, c) && c.call.Some? && m.Response?
    requires if m.code < 300 then 200 <= m.code && Talks(c) && !OfInvite(m.cseq)
             else OfOther(m.cseq) && ((m.code == 401 || m.code == 407) ==> c.call.value.state != Inviting)
    ensures Next(c, Receive(m, authorization, token)) == c
  {
    PhasesAre(es, c);
    hide Reached, See, HandleOk, HandleAuthChallenge, Offer, Pending, Uri, Upper;
  }

  /** A provisional answer changes nothing. */
  lemma ProvisionalIsIgnored(c: Client, m: Msg, authorization: Option<string>, token: string)
    requires m.Response? && m.code < 200
    ensures Next(c, Receive(m, authorization, token)) == c
  {
    hide HandleOk, HandleAuthChallenge, Uri, Upper;
  }

  // ---------- requests of the server ----------

  /** A 200 OK to this very request. */
  predicate Answers(o: Out, m: Msg)
    requires m.Request?
  {
    && (o.Ok? || o.OkSdp?) && o.vias == m.vias && o.from_ == m.from_ && o.to == m.toHeader
    && o.callId == m.callId && o.cseqHeader == m.cseqHeader
  }

  /** MAIN RESULT: each BYE, INVITE and MESSAGE of the server is answered by one 200 OK to that very
      request, the INVITE with what the latest INVITE of ours offered. A BYE ends the call, the others
      leave it as it is; any other request does nothing. */
  lemma RequestIsAnswered(es: seq<Event>, c: Client, m: Msg, authorization: Option<string>, token: string)
    requires Reached(es, c) && c.call.Some? && m.Request? && Addressed(c, m)
    ensures var d := Next(c, Receive(m, authorization, token)); var n := |c.trace|; var who := See(c.trace).party;
      if m.verb.OtherVerb? then d == c
      else
        && |d.trace| > n && d.trace[..n] == c.trace && d.trace[n].Sent? && d.trace[n].who == who
        && Answers(d.trace[n].what, m) && (d.trace[n].what.OkSdp? <==> m.verb.InviteVerb?)
        && (m.verb.InviteVerb? ==> d.trace[n].what.sdp == Offer(c.trace))
        && (if m.verb.ByeVerb? then d.trace[n + 1..] == [Terminated(who.callId)] && d.call.None?
            else |d.trace| == n + 1 && d.call == c.call)
  {
    PhasesAre(es, c);
    AddressedIsForCall(es, c, m);
    hide Reached, See, Offer, Pending;
  }

  /** MAIN RESULT: and the octets of that answer, read by the independent reader, show the Via values
      of the request in their order, its From, To, Call-ID and CSeq, and the size of the body. */
  lemma AnswerOctetsEcho(p: Party, o: Out, m: Msg)
    requires m.Request? && Answers(o, m) && SipRoundTrip.CleanParty(p) && SipRoundTrip.CleanOut(o)
    ensures var r := SipReader.ReadMessage(Wire(p, o));
      && r.Some? && SipHeaders.FirstLine(r, "SIP/2.0 200 OK")
      && SipHeaders.FoundUnder(r, "Via", m.vias) && SipHeaders.FoundUnder(r, "From", [m.from_])
      && SipHeaders.FoundUnder(r, "To", [m.toHeader]) && SipHeaders.FoundUnder(r, "Call-ID", [m.callId])
      && SipHeaders.FoundUnder(r, "CSeq", [m.cseqHeader]) && SipHeaders.FoundUnder(r, "Content-Length", [Dec(|r.value.body|)])
  {
    SipHeaders.ResponsesEchoTheRequest(p, o);
    hide SipHeaders.FoundUnder, SipHeaders.FirstLine, SipRoundTrip.CleanParty, SipRoundTrip.CleanOut, SipReader.ReadMessage;
  }

  // ---------- what the owner asks for ----------

  predicate IsOf(c: Client, id: string) { See(c.trace).party.callId == id }

  /** The To that in-dialog requests carry was in the 2xx. */
  predicate KnowsPeer(c: Client) { c.call.Some? && c.call.value.remoteTo.Some? && c.call.value.remoteTo.value != "" }

  /** MAIN RESULT: a MESSAGE goes out exactly if the call is established, is the one asked for and the
      2xx had a To; then it is the only act, carries the text asked for and the next CSeq, and nothing
      else of the call changes. */
  lemma MessageIsSentExactly(es: seq<Event>, c: Client, id: string, text: string, token: string)
    requires Reached(es, c)
    ensures var d := Next(c, SendMessage(id, text, token)); var n := |c.trace|;
      if Live(c) && Talks(c) && IsOf(c, id) && KnowsPeer(c) then
        && |d.trace| == n + 1 && d.trace[..n] == c.trace && d.trace[n].Sent? && d.trace[n].who == See(c.trace).party
        && d.trace[n].what.Message? && d.trace[n].what.text == text && d.trace[n].what.branch == token
        && d.trace[n].what.cseq == See(c.trace).last + 1 && d.call == Some(c.call.value.(cseq := See(c.trace).last + 1))
      else d == c
  {
    PhasesAre(es, c);
    LastIs(es, c);
    hide Reached, See, Offer, Pending, Shows, Uri;
  }

  lemma LastIs(es: seq<Event>, c: Client)
    requires Reached(es, c)
    ensures c.call.Some? ==> See(c.trace).last == c.call.value.cseq && See(c.trace).branch == c.call.value.branch
  {
    EveryRunIsRegular(es, c);
    hide Reached, See, Regular;
    if c.call.Some? { GoodFacts(c); }
  }

  /** MAIN RESULT: the audio-only re-INVITE goes out exactly if the call is established, is the one asked
      for and still offers video; then it is the only act, offers the same audio port alone, and the
      call waits for its answer. */
  lemma DowngradeIsSentExactly(es: seq<Event>, c: Client, id: string, token: string)
    requires Reached(es, c)
    ensures var d := Next(c, AudioOnly(id, token)); var n := |c.trace|; var offer := Offer(c.trace);
      if Live(c) && Talks(c) && IsOf(c, id) && offer.videoPort.Some? then
        && |d.trace| == n + 1 && d.trace[..n] == c.trace && d.trace[n].Sent? && d.trace[n].what.ReInvite?
        && d.trace[n].what.sdp == Sdp(offer.audioPort, None) && d.trace[n].what.branch == token
        && d.trace[n].what.cseq == See(c.trace).last + 1
        && d.call == Some(c.call.value.(videoPort := None, reinviting := true, branch := token, cseq := See(c.trace).last + 1))
      else d == c
  {
    PhasesAre(es, c);
    LastIs(es, c);
    hide Reached, See, Offer, Pending, Uri, ToHeader;
  }

  /** MAIN RESULT: hanging up the live call writes a BYE if it is established and a CANCEL of its INVITE
      if it is not, then reports its end; with any other id it does nothing. */
  lemma HangUpEndsTheCall(es: seq<Event>, c: Client, id: string, token: string)
    requires Reached(es, c)
    ensures var d := Next(c, HangUp(id, token)); var n := |c.trace|;
      if Live(c) && IsOf(c, id) then
        && |d.trace| == n + 2 && d.trace[..n] == c.trace && d.trace[n].Sent? && d.trace[n + 1] == Terminated(id) && d.call.None?
        && (if Talks(c) then d.trace[n].what.Bye? && d.trace[n].what.cseq == See(c.trace).last + 1 && d.trace[n].what.branch == token
            else d.trace[n].what == Cancel(See(c.trace).branch, See(c.trace).last))
      else d == c
  {
    PhasesAre(es, c);
    LastIs(es, c);
    hide Reached, See, Offer, Pending, Shows, Uri, ToHeader;
  }

  /** MAIN RESULT: `call` writes the first INVITE exactly if there is a transport and no call, with the
      party and ports asked for; a lost connection ends a live call and writes nothing. */
  lemma DialAndLoss(c: Client, p: Party, audioPort: nat, videoPort: Option<nat>, token: string)
    ensures var d := Next(c, Dial(p, audioPort, videoPort, token));
      if c.connected && c.call.None? then
        && d.trace == c.trace + [Sent(p, Invite(token, 50, Sdp(audioPort, videoPort), None))]
        && d.call.Some? && d.call.value.state == Inviting && d.call.value.party == p
      else d == c
    ensures var d := Next(c, ConnectionLost);
      !d.connected && d.call.None? && d.trace == c.trace + (if c.call.Some? then [Terminated(c.call.value.party.callId)] else [])
  {}

  // ---------- the transport ----------

  /** The transport is being closed exactly when the call has ended. */
  predicate Closes(c: Client) { c.closing <==> c.trace != [] && c.trace[|c.trace| - 1].Terminated? }

  lemma ResponseCloses(c: Client, m: Msg, authorization: Option<string>, token: string)
    requires c.call.Some? && c.connected && Live(c) && Closes(c) && m.Response?
    ensures Closes(HandleResponse(c, m, authorization, token))
  {
    hide AckFor, OfInvite, OfOther, Uri, Challenge, SipRoutes.ContactUri, SipRoutes.Reverse, SipRoutes.RecordRoutes;
  }

  lemma NextCloses(c: Client, e: Event)
    requires Closes(c) && (c.call.Some? ==> c.connected && Live(c))
    ensures Closes(Next(c, e)) || (c.trace != [] && e.Dial?)
  {
    hide Uri, ToHeader, HandleResponse;
    match e {
      case Receive(m, authorization, token) =>
        if ForCall(c, m) && m.Response? { ResponseCloses(c, m, authorization, token); }
      case _ =>
    }
  }

  /** MAIN RESULT: in every run the client closes its transport exactly when the call has ended. */
  lemma {:induction false} EndClosesTheTransport(es: seq<Event>, c: Client)
    requires Reached(es, c)
    ensures Closes(c)
    decreases |es|
  {
    if es != [] {
      var front, e := es[..|es| - 1], es[|es| - 1];
      var b := ReachedLast(es, c);
      EndClosesTheTransport(front, b);
      PhasesAre(front, b);
      if e.Dial? {
        forall i | 0 <= i < |front| ensures !front[i].Dial? { assert front[i] == es[i]; }
        NothingBeforeDial(front, b);
      }
      hide Reached, Closes, Next, Shows, See;
      NextCloses(b, e);
    }
  }
}
