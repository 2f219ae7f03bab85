/** An independent description of what a SIP client may do in one call, read off the transcript
    alone: with the rules of RFC 3261 for branches, CSeq numbers and credentials, and with those that
    this client follows for ACK and CANCEL instead. Every run of the client keeps to the latter. */
module SipTranscript {
  import opened Basics
  import opened SipMessages
  import opened SipDialog

  /** Leaving: the BYE or CANCEL is out. */
  datatype Phase = Quiet | Calling | Talking | Leaving | Over

  /** What in-dialog requests must carry (section 12.2.1.1 of RFC 3261). */
  datatype Dialog = Dialog(uri: string, to: string, routes: seq<string>)

  /** What an observer remembers of a transcript. `last` is the CSeq of the latest numbered request
      and `since` how many MESSAGEs followed the latest INVITE, whose CSeq is `invite`, whose branch
      is `branch` and which had credentials or not. `branches` are those that requests have carried,
      and `acked` those of the ACKs of its 2xx. */
  datatype Seen = Seen(phase: Phase, party: Party, last: nat, since: nat, invite: nat, branch: string,
                       credentials: bool, branches: set<string>, acked: set<string>, invites: nat, reinvites: nat, dialog: Dialog, previous: Option<Out>)

  function DialogOf(p: Party, ack: Out): Dialog
    requires ack.Ack?
  {
    Dialog(ack.uri, if ack.to == "" then Bracketed(p.target) else ack.to, ack.routes)
  }

  predicate InProgress(s: Seen) { s.phase == Calling || s.phase == Talking }

  /** What may be written next, but for branches, and the CSeq numbers that ACK and CANCEL repeat. */
  predicate PermittedOut(s: Seen, o: Out)
  {
    match o
    case Invite(_, cseq, _, auth) =>
      cseq == s.last + 1 && s.invites < 2 && (auth.Some? <==> s.invites == 1)
      && (s.phase == Quiet || s.phase == Calling) && (s.phase == Quiet <==> s.invites == 0)
    case ReInvite(uri, _, cseq, routes, to, sdp) =>
      s.phase == Talking && cseq == s.last + 1 && s.reinvites == 0 && Dialog(uri, to, routes) == s.dialog
      && sdp.videoPort.None?
    case Ack(uri, _, _, routes, _, code) =>
      InProgress(s) && code >= 200
      && (s.phase == Talking ==> routes == s.dialog.routes && (uri == s.dialog.uri || uri == s.party.target))
    case Cancel(branch, _) => s.phase == Calling && branch == s.branch
    case Message(uri, _, cseq, routes, to, _) =>
      s.phase == Talking && cseq == s.last + 1 && Dialog(uri, to, routes) == s.dialog
    case Bye(uri, _, cseq, routes, to) =>
      s.phase == Talking && cseq == s.last + 1 && Dialog(uri, to, routes) == s.dialog
    case Ok(_, _, _, _, _) => InProgress(s)
    case OkSdp(_, _, _, _, _, sdp) => InProgress(s) && (s.reinvites > 0 ==> sdp.videoPort.None?)
  }

  predicate Permitted(s: Seen, a: Act)
  {
    match a
    case Sent(p, o) => (s.phase != Quiet ==> p == s.party) && PermittedOut(s, o)
    case Established(id, _, _, _, _) =>
      s.phase == Calling && s.previous.Some? && AcksOk(s.previous.value) && id == s.party.callId
    case Terminated(id) => (InProgress(s) || s.phase == Leaving) && id == s.party.callId
  }

  /** The ACK of a 2xx. */
  predicate AcksOk(o: Out) { o.Ack? && o.code < 300 }

  predicate AnOkAck(a: Act) { a.Sent? && AcksOk(a.what) }

  /** What RFC 3261 demands of branches, repeated CSeq numbers and credentials. Every request draws a
      branch of its own, the ACK of a 2xx too, which is only repeated for the same INVITE; CANCEL and
      the ACK of any other answer take that of their INVITE (sections 8.1.1.7, 9.1 and 17.1.1.3).
      CANCEL and ACK repeat its CSeq, and the ACK of a 2xx its credentials, of which our ACKs have
      none (section 13.2.2.4). */
  predicate LawfulOut(s: Seen, o: Out)
  {
    match o
    case Invite(branch, _, _, _) => branch !in s.branches
    case ReInvite(_, branch, _, _, _, _) => branch !in s.branches
    case Message(_, branch, _, _, _, _) => branch !in s.branches
    case Bye(_, branch, _, _, _) => branch !in s.branches
    case Cancel(branch, cseq) => branch == s.branch && cseq == s.invite
    case Ack(_, branch, cseq, _, _, _) =>
      && cseq == s.invite
      && (if AcksOk(o) then (branch !in s.branches || branch in s.acked) && !s.credentials else branch == s.branch)
    case _ => true
  }

  predicate Lawful(s: Seen, a: Act) { Permitted(s, a) && (a.Sent? ==> LawfulOut(s, a.what)) }

  /** This client numbers ACK and CANCEL like its latest request of any kind, and gives every ACK the
      branch of the latest INVITE. */
  predicate AllowedOut(s: Seen, o: Out)
  {
    PermittedOut(s, o) && (o.Ack? ==> o.branch == s.branch) && (o.Ack? || o.Cancel? ==> o.cseq == s.last)
  }

  predicate Allowed(s: Seen, a: Act) { Permitted(s, a) && (a.Sent? ==> AllowedOut(s, a.what)) }

  function AdvanceOut(s: Seen, p: Party, o: Out): Seen
  {
    var t := s.(previous := Some(o));
    match o
    case Invite(branch, cseq, _, auth) =>
      t.(phase := Calling, party := p, last := cseq, since := 0, invite := cseq, branch := branch, credentials := auth.Some?,
         branches := s.branches + {branch}, acked := {}, invites := s.invites + 1)
    case ReInvite(_, branch, cseq, _, _, _) =>
      t.(last := cseq, since := 0, invite := cseq, branch := branch, credentials := false,
         branches := s.branches + {branch}, acked := {}, reinvites := s.reinvites + 1)
    case Message(_, branch, cseq, _, _, _) => t.(last := cseq, since := s.since + 1, branches := s.branches + {branch})
    case Bye(_, branch, cseq, _, _) => t.(phase := Leaving, last := cseq, branches := s.branches + {branch})
    case Cancel(_, _) => t.(phase := Leaving)
    case Ack(_, branch, _, _, _, _) =>
      t.(branches := s.branches + {branch}, acked := if AcksOk(o) then s.acked + {branch} else s.acked)
    case _ => t
  }

  function Advance(s: Seen, a: Act): Seen
  {
    match a
    case Sent(p, o) => AdvanceOut(s, p, o)
    case Established(_, _, _, _, _) =>
      s.(phase := Talking, previous := None,
         dialog := if s.previous.Some? && s.previous.value.Ack? then DialogOf(s.party, s.previous.value) else s.dialog)
    case Terminated(_) => s.(phase := Over, previous := None)
  }

  const NOBODY := Party("", "", 0, "", "", "", "")
  const START := Seen(Quiet, NOBODY, INITIAL_CSEQ - 1, 0, 0, "", false, {}, {}, 0, 0, Dialog("", "", []), None)

  function See(tr: seq<Act>): Seen
  {
    if tr == [] then START else Advance(See(tr[..|tr| - 1]), tr[|tr| - 1])
  }

  /** Every act is one that RFC 3261 allows where it happened, as far as the rules above go. */
  predicate Legal(tr: seq<Act>)
  {
    tr == [] || (Legal(tr[..|tr| - 1]) && Lawful(See(tr[..|tr| - 1]), tr[|tr| - 1]))
  }

  /** The same, but for the ACKs of a 2xx. */
  predicate LegalButForOks(tr: seq<Act>)
  {
    tr == []
    || (LegalButForOks(tr[..|tr| - 1]) && (AnOkAck(tr[|tr| - 1]) || Lawful(See(tr[..|tr| - 1]), tr[|tr| - 1])))
  }

  /** The same, with the branches and numbers that this client gives ACK and CANCEL. */
  predicate Regular(tr: seq<Act>)
  {
    tr == [] || (Regular(tr[..|tr| - 1]) && Allowed(See(tr[..|tr| - 1]), tr[|tr| - 1]))
  }

  // ---------- the client against the observer ----------

  /** How the fields of a live call agree with what an observer saw. */
  predicate Agrees(call: Call, s: Seen)
  {
    && InProgress(s) && s.party == call.party && s.last == call.cseq && s.branch == call.branch
    && (call.state == Confirmed <==> s.phase == Talking)
    && (call.state == Inviting ==> s.invites == 1) && s.invites >= 1
    && (s.phase == Calling ==> s.reinvites == 0 && s.since == 0)
    && s.reinvites <= 1 && (s.reinvites == 1 ==> call.videoPort.None?)
    && (s.phase == Talking ==> s.dialog == Dialog(Uri(call), ToHeader(call), call.routes))
  }

  predicate Good(c: Client)
  {
    && Regular(c.trace)
    && (c.call.Some? ==> c.connected && Agrees(c.call.value, See(c.trace)))
    && (c.call.None? ==> if c.trace == [] then true else See(c.trace).phase == Over)
  }

  lemma Push(tr: seq<Act>, a: Act)
    ensures See(tr + [a]) == Advance(See(tr), a)
    ensures Regular(tr + [a]) <==> Regular(tr) && Allowed(See(tr), a)
  {
    assert (tr + [a])[..|tr|] == tr;
  }

  lemma WriteKeeps(c: Client, call: Call, o: Out)
    requires c.call.Some? && c.connected && Regular(c.trace) && c.call.value.party == See(c.trace).party
    requires c.call.value.party == call.party
    requires AllowedOut(See(c.trace), o) && Agrees(call, AdvanceOut(See(c.trace), call.party, o))
    ensures Good(Write(With(c, call), o))
    ensures See(Write(With(c, call), o).trace) == AdvanceOut(See(c.trace), call.party, o)
  {
    Push(c.trace, Sent(call.party, o));
    hide Regular, See, Agrees, PermittedOut, AdvanceOut;
  }

  lemma TerminateKeeps(c: Client)
    requires Good(c) && c.call.Some?
    ensures Good(Terminate(c)) && Good(Lose(c))
  {
    Push(c.trace, Terminated(c.call.value.party.callId));
    hide Regular, See;
  }

  lemma ChallengeKeeps(c: Client, m: Msg, authorization: Option<string>, token: string)
    requires Good(c) && c.call.Some? && m.Response? && c.call.value.state == Inviting && m.code >= 200
    ensures Good(HandleAuthChallenge(c, m, authorization, token))
  {
    hide Regular, See, Good;
    var call := c.call.value;
    AckKeeps(c, call, m, call.party.target);
    var acked := Write(c, AckFor(call, m, call.party.target));
    if Challenge(m).None? || authorization.None? {
      TerminateKeeps(acked);
    } else {
      var again := call.(cseq := call.cseq + 1, branch := token, state := Authenticating);
      var header := if m.proxyAuth.Some? then "Proxy-Authorization" else "Authorization";
      var o := Invite(token, again.cseq, SdpOf(again), Some(Credentials(header, authorization.value)));
      GoodFacts(c);
      GoodFacts(acked);
      WriteKeeps(acked, again, o);
    }
  }

  lemma GoodFacts(c: Client)
    requires Good(c) && c.call.Some?
    ensures c.connected && Regular(c.trace) && Agrees(c.call.value, See(c.trace))
  {}

  /** An ACK for a call whose state the handler may have updated. */
  lemma AckKeeps(c: Client, call: Call, m: Msg, uri: string)
    requires Good(c) && c.call.Some? && m.Response? && m.code >= 200
    requires call.(reinviting := c.call.value.reinviting) == c.call.value
    requires uri == call.party.target || uri == Uri(call)
    ensures Good(Write(With(c, call), AckFor(call, m, uri)))
    ensures See(Write(With(c, call), AckFor(call, m, uri)).trace)
         == AdvanceOut(See(c.trace), call.party, AckFor(call, m, uri))
  {
    GoodFacts(c);
    hide Regular, See, Good;
    WriteKeeps(c, call, AckFor(call, m, uri));
  }

  lemma OkKeeps(c: Client, m: Msg)
    requires Good(c) && c.call.Some? && m.Response? && c.call.value.state != Confirmed && 200 <= m.code < 300
    ensures Good(HandleOk(c, m))
  {
    GoodFacts(c);
    hide Regular, See, Good;
    var call := InDialog(c.call.value, m);
    var uri := call.remoteTarget.value;
    var ack := AckFor(call, m, uri);
    OkAckAllowed(c, m);
    WriteKeeps(c, call, ack);
    var acked := Write(With(c, call), ack);
    if m.rtp.None? {
      TerminateKeeps(acked);
    } else {
      EstablishedKeeps(c, m, acked);
    }
  }

  lemma EstablishedKeeps(c: Client, m: Msg, acked: Client)
    requires Good(c) && c.call.Some? && m.Response? && c.call.value.state != Confirmed && 200 <= m.code < 300 && m.rtp.Some?
    requires var call := InDialog(c.call.value, m);
      var ack := AckFor(call, m, call.remoteTarget.value);
      && acked == Write(With(c, call), ack) && Good(acked)
      && See(acked.trace) == AdvanceOut(See(c.trace), call.party, ack)
    ensures Good(HandleOk(c, m))
  {
    GoodFacts(c);
    GoodFacts(acked);
    EstablishedAgrees(c, m, See(c.trace));
    hide Regular, See, Good, Agrees;
    var done := HandleOk(c, m);
    assert |done.trace| == |acked.trace| + 1 && done.trace[..|acked.trace|] == acked.trace;
    var a := done.trace[|acked.trace|];
    assert done.trace == acked.trace + [a];
    Push(acked.trace, a);
    EstablishedIsAllowed(c, m, See(c.trace));
    GoodIntro(done);
  }

  /** The report of the first 2xx follows its ACK. */
  lemma EstablishedIsAllowed(c: Client, m: Msg, s: Seen)
    requires c.call.Some? && m.Response? && c.call.value.state != Confirmed && Agrees(c.call.value, s)
    requires 200 <= m.code < 300 && m.rtp.Some?
    ensures var call := InDialog(c.call.value, m);
      var ack := AckFor(call, m, call.remoteTarget.value);
      var acked := Write(With(c, call), ack);
      var done := HandleOk(c, m);
      var t := AdvanceOut(s, call.party, ack);
      && |done.trace| > |acked.trace| && done.call.Some? && done.connected == c.connected
      && Allowed(t, done.trace[|acked.trace|])
      && Advance(t, done.trace[|acked.trace|]) == t.(phase := Talking, previous := None, dialog := DialogOf(t.party, ack))
      && done.call.value == call.(state := Confirmed)
  {}

  lemma GoodIntro(c: Client)
    requires c.call.Some? && Regular(c.trace) && c.connected && Agrees(c.call.value, See(c.trace))
    ensures Good(c)
  {}

  lemma OkAckAllowed(c: Client, m: Msg)
    requires c.call.Some? && m.Response? && c.call.value.state != Confirmed && Agrees(c.call.value, See(c.trace))
    requires m.code >= 200
    ensures var call := InDialog(c.call.value, m);
      var ack := AckFor(call, m, call.remoteTarget.value);
      AllowedOut(See(c.trace), ack) && Agrees(call, AdvanceOut(See(c.trace), call.party, ack))
  {
    hide See;
  }

  /** The dialog the client keeps is the one its first 2xx ACK showed. */
  lemma EstablishedAgrees(c: Client, m: Msg, s: Seen)
    requires c.call.Some? && m.Response? && c.call.value.state != Confirmed && Agrees(c.call.value, s)
    ensures var call := InDialog(c.call.value, m);
      var ack := AckFor(call, m, call.remoteTarget.value);
      var t := AdvanceOut(s, call.party, ack);
      Agrees(call.(state := Confirmed), t.(phase := Talking, previous := None, dialog := DialogOf(t.party, ack)))
  {}

  lemma ResponseKeeps(c: Client, m: Msg, authorization: Option<string>, token: string)
    requires Good(c) && c.call.Some? && m.Response?
    ensures Good(HandleResponse(c, m, authorization, token))
  {
    hide Good, OfInvite, OfOther, HandleOk, HandleAuthChallenge, Uri;
    var call := c.call.value;
    if m.code >= 200 {
      if (m.code == 401 || m.code == 407) && call.state == Inviting {
        ChallengeKeeps(c, m, authorization, token);
      } else if m.code < 300 && call.state != Confirmed {
        OkKeeps(c, m);
      } else {
        AckedKeeps(c, m);
      }
    }
  }

  /** The ACKs that answer a retransmitted 2xx, a refused re-INVITE or a refused call. */
  lemma AckedKeeps(c: Client, m: Msg)
    requires Good(c) && c.call.Some? && m.Response? && m.code >= 200
    ensures var call := c.call.value;
      && Good(Write(With(c, call.(reinviting := false)), AckFor(call, m, Uri(call))))
      && Good(Terminate(Write(c, AckFor(call, m, call.party.target))))
  {
    hide Good;
    var call := c.call.value;
    assert Uri(call.(reinviting := false)) == Uri(call);
    assert AckFor(call.(reinviting := false), m, Uri(call)) == AckFor(call, m, Uri(call));
    AckKeeps(c, call.(reinviting := false), m, Uri(call));
    AckKeeps(c, call, m, call.party.target);
    assert With(c, call) == c;
    hide AckFor, Uri;
    TerminateKeeps(Write(c, AckFor(call, m, call.party.target)));
  }

  lemma AnswerAllowed(call: Call, m: Msg, s: Seen)
    requires Agrees(call, s) && m.Request?
    ensures var ok := Ok(m.vias, m.from_, m.toHeader, m.callId, m.cseqHeader);
      AllowedOut(s, ok) && Agrees(call, AdvanceOut(s, call.party, ok))
    ensures var ok := OkSdp(m.vias, m.from_, m.toHeader, m.callId, m.cseqHeader, SdpOf(call));
      AllowedOut(s, ok) && Agrees(call, AdvanceOut(s, call.party, ok))
    ensures s.party == call.party
  {}

  lemma RequestKeeps(c: Client, m: Msg)
    requires Good(c) && c.call.Some? && m.Request?
    ensures Good(HandleRequest(c, m))
  {
    GoodFacts(c);
    hide Good, Regular, See, Agrees, AllowedOut, AdvanceOut;
    var call := c.call.value;
    AnswerAllowed(call, m, See(c.trace));
    assert With(c, call) == c;
    match m.verb {
      case ByeVerb =>
        var o := Ok(m.vias, m.from_, m.toHeader, m.callId, m.cseqHeader);
        WriteKeeps(c, call, o);
        TerminateKeeps(Write(c, o));
      case InviteVerb =>
        WriteKeeps(c, call, OkSdp(m.vias, m.from_, m.toHeader, m.callId, m.cseqHeader, SdpOf(call)));
      case MessageVerb => WriteKeeps(c, call, Ok(m.vias, m.from_, m.toHeader, m.callId, m.cseqHeader));
      case OtherVerb =>
    }
  }

  lemma MessageKeeps(c: Client, id: string, text: string, token: string)
    requires Good(c)
    ensures Good(SendInDialogMessage(c, id, text, token))
  {
    hide Good, Uri, Write;
    if IsCall(c, id) && c.call.value.state == Confirmed
      && !(c.call.value.remoteTo.None? || c.call.value.remoteTo.value == "") {
      MessageSentKeeps(c, text, token);
    }
  }

  lemma MessageSentKeeps(c: Client, text: string, token: string)
    requires Good(c) && c.call.Some? && c.call.value.state == Confirmed
    requires c.call.value.remoteTo.Some? && c.call.value.remoteTo.value != ""
    ensures var call := c.call.value.(cseq := c.call.value.cseq + 1);
      Good(Write(With(c, call), Message(Uri(call), token, call.cseq, call.routes, call.remoteTo.value, text)))
  {
    GoodFacts(c);
    hide Good, Regular, See, Agrees, AllowedOut, AdvanceOut, Uri, Write;
    var call := c.call.value.(cseq := c.call.value.cseq + 1);
    MessageAllowed(c.call.value, See(c.trace), text, token);
    WriteKeeps(c, call, Message(Uri(call), token, call.cseq, call.routes, call.remoteTo.value, text));
  }

  lemma MessageAllowed(before: Call, s: Seen, text: string, token: string)
    requires Agrees(before, s) && before.state == Confirmed && before.remoteTo.Some? && before.remoteTo.value != ""
    ensures var call := before.(cseq := before.cseq + 1);
      var o := Message(Uri(call), token, call.cseq, call.routes, call.remoteTo.value, text);
      s.party == call.party && AllowedOut(s, o) && Agrees(call, AdvanceOut(s, call.party, o))
  {}

  lemma AudioOnlyAllowed(before: Call, s: Seen, token: string)
    requires Agrees(before, s) && before.state == Confirmed && before.videoPort.Some?
    ensures var call := before.(videoPort := None, reinviting := true, cseq := before.cseq + 1, branch := token);
      var o := ReInvite(Uri(call), token, call.cseq, call.routes, ToHeader(call), SdpOf(call));
      s.party == call.party && AllowedOut(s, o) && Agrees(call, AdvanceOut(s, call.party, o))
  {}

  lemma AudioOnlyKeeps(c: Client, id: string, token: string)
    requires Good(c)
    ensures Good(SendReinviteAudioOnly(c, id, token))
  {
    hide Good, Regular, See, Agrees, AllowedOut, AdvanceOut, Write, Uri, ToHeader;
    if IsCall(c, id) && c.call.value.state == Confirmed {
      GoodFacts(c);
      if !(c.call.value.videoPort.None? || c.call.value.reinviting) {
        var call := c.call.value.(videoPort := None, reinviting := true, cseq := c.call.value.cseq + 1, branch := token);
        AudioOnlyAllowed(c.call.value, See(c.trace), token);
        WriteKeeps(c, call, ReInvite(Uri(call), token, call.cseq, call.routes, ToHeader(call), SdpOf(call)));
      }
    }
  }

  lemma ByeAllowed(before: Call, s: Seen, token: string)
    requires Agrees(before, s) && before.state == Confirmed
    ensures var call := before.(cseq := before.cseq + 1);
      AllowedOut(s, Bye(Uri(call), token, call.cseq, call.routes, ToHeader(call))) && s.party == call.party && InProgress(s)
  {}

  lemma CancelAllowed(call: Call, s: Seen)
    requires Agrees(call, s) && call.state != Confirmed
    ensures AllowedOut(s, Cancel(call.branch, call.cseq)) && s.party == call.party && InProgress(s)
  {}

  lemma HangKeeps(c: Client, id: string, token: string)
    requires Good(c)
    ensures Good(Hang(c, id, token))
  {
    hide Good, Regular, See, AllowedOut, Agrees, InProgress;
    if IsCall(c, id) {
      GoodFacts(c);
      var s := See(c.trace);
      if c.call.value.state == Confirmed {
        var call := c.call.value.(cseq := c.call.value.cseq + 1);
        ByeAllowed(c.call.value, s, token);
        LeaveKeeps(c, call, Bye(Uri(call), token, call.cseq, call.routes, ToHeader(call)));
      } else {
        assert With(c, c.call.value) == c;
        CancelAllowed(c.call.value, s);
        LeaveKeeps(c, c.call.value, Cancel(c.call.value.branch, c.call.value.cseq));
      }
    }
  }

  lemma LeaveKeeps(c: Client, call: Call, o: Out)
    requires c.call.Some? && Regular(c.trace) && c.call.value.party == See(c.trace).party == call.party
    requires InProgress(See(c.trace)) && AllowedOut(See(c.trace), o) && (o.Bye? || o.Cancel?)
    ensures Good(Terminate(Write(With(c, call), o)))
  {
    var w := Write(With(c, call), o);
    Push(c.trace, Sent(call.party, o));
    Push(w.trace, Terminated(call.party.callId));
    assert Terminate(w).trace == w.trace + [Terminated(call.party.callId)];
    hide Regular, See, AllowedOut;
  }

  lemma DialKeeps(c: Client, p: Party, audioPort: nat, videoPort: Option<nat>, token: string)
    requires Good(c) && c.trace == []
    ensures Good(StartCall(c, p, audioPort, videoPort, token))
  {
    if c.connected && c.call.None? {
      var call := Call(p, Inviting, INITIAL_CSEQ, token, audioPort, videoPort, None, None, [], false);
      var o := Invite(token, call.cseq, SdpOf(call), None);
      FirstInvite(call, o);
      assert See([]) == START && Regular([]);
      Push([], Sent(p, o));
      hide Regular, See, Agrees, Allowed, Advance;
      var d := StartCall(c, p, audioPort, videoPort, token);
      assert d.trace == [] + [Sent(p, o)];
      GoodIntro(d);
    }
  }

  lemma FirstInvite(call: Call, o: Out)
    requires call.state == Inviting && call.cseq == INITIAL_CSEQ && o == Invite(call.branch, call.cseq, SdpOf(call), None)
    ensures Allowed(START, Sent(call.party, o)) && Agrees(call, Advance(START, Sent(call.party, o)))
  {}

  lemma NextKeeps(c: Client, e: Event)
    requires Good(c) && (e.Dial? ==> c.trace == [])
    ensures Good(Next(c, e))
  {
    match e {
      case ConnectionMade =>
      case ConnectionLost => if c.call.Some? { TerminateKeeps(c); }
      case Dial(p, audioPort, videoPort, token) => DialKeeps(c, p, audioPort, videoPort, token);
      case Receive(m, authorization, token) =>
        if ForCall(c, m) {
          if m.Response? { ResponseKeeps(c, m, authorization, token); } else { RequestKeeps(c, m); }
        }
      case SendMessage(id, text, token) => MessageKeeps(c, id, text, token);
      case AudioOnly(id, token) => AudioOnlyKeeps(c, id, token);
      case HangUp(id, token) => HangKeeps(c, id, token);
    }
  }

  lemma {:induction false} NothingBeforeDial(es: seq<Event>, c: Client)
    requires Reached(es, c) && forall i :: 0 <= i < |es| ==> !es[i].Dial?
    ensures c.trace == [] && c.call == None
    decreases |es|
  {
    if es != [] {
      var b := ReachedLast(es, c);
      hide Reached;
      NothingBeforeDial(es[..|es| - 1], b);
      assert !es[|es| - 1].Dial?;
    }
  }

  /** MAIN RESULT: whatever the server sends and the owner asks for, in any order, the transcript of
      a client is regular, and the fields of a live call are what an observer of the transcript
      would write down. */
  lemma {:induction false} EveryRunIsRegular(es: seq<Event>, c: Client)
    requires Reached(es, c)
    ensures Good(c)
    decreases |es|
  {
    if es != [] {
      var front, e := es[..|es| - 1], es[|es| - 1];
      var b := ReachedLast(es, c);
      EveryRunIsRegular(front, b);
      if e.Dial? {
        forall i | 0 <= i < |front| ensures !front[i].Dial? { assert front[i] == es[i]; }
        NothingBeforeDial(front, b);
      }
      hide Good, Next, Reached;
      NextKeeps(b, e);
    }
  }
}
