/** The SIP dialog (custom_components/intratone/sip_client.py, class `IntratoneSipClient`): what
    every handler does to the call, what it writes and which callbacks it fires. */
module SipDialog {
  import opened Basics
  import opened SipMessages
  import SipRoutes

  const INITIAL_CSEQ := 50

  datatype Endpoint = Endpoint(ip: string, port: nat)

  /** A live call. A terminated one is no longer referenced. */
  datatype CallState = Inviting | Authenticating | Confirmed

  datatype Call = Call(party: Party, state: CallState, cseq: nat, branch: string, audioPort: nat,
                       videoPort: Option<nat>, remoteTo: Option<string>, remoteTarget: Option<string>,
                       routes: seq<string>, reinviting: bool)

  /** What the outside sees, in order: a write on the transport, or a callback. */
  datatype Act =
    | Sent(who: Party, what: Out)
    | Established(id: string, rtp: Endpoint, audioPort: nat, video: Option<Endpoint>, videoPort: Option<nat>)
    | Terminated(id: string)

  datatype Client = Client(connected: bool, closing: bool, call: Option<Call>, trace: seq<Act>)

  datatype Verb = ByeVerb | InviteVerb | MessageVerb | OtherVerb

  /** A parsed message, by the parts the handlers look at. `cseq` holds the words of the CSeq header;
      `rtp` and `video` what the SDP answer yields; absent strings are empty. */
  datatype Msg =
    | Response(callId: string, code: nat, cseq: seq<string>, to: Option<string>, contact: string,
               recordRoutes: seq<string>, proxyAuth: Option<string>, wwwAuth: Option<string>,
               rtp: Option<Endpoint>, video: Option<Endpoint>)
    | Request(callId: string, verb: Verb, vias: seq<string>, from_: string, toHeader: string, cseqHeader: string)

  /** Tokens (branches) are drawn by the event. `authorization` is what the Digest code makes of
      the challenge, None for a ValueError. */
  datatype Event =
    | ConnectionMade
    | ConnectionLost
    | Dial(party: Party, audioPort: nat, videoPort: Option<nat>, token: string)
    | Receive(msg: Msg, authorization: Option<string>, token: string)
    | SendMessage(id: string, text: string, token: string)
    | AudioOnly(id: string, token: string)
    | HangUp(id: string, token: string)

  // ---------- what goes on the wire ----------

  function Bracketed(uri: string): string { "<" + uri + ">" }

  function Uri(c: Call): string
  {
    if c.remoteTarget.Some? && c.remoteTarget.value != "" then c.remoteTarget.value else c.party.target
  }

  function ToHeader(c: Call): string
  {
    if c.remoteTo.Some? && c.remoteTo.value != "" then c.remoteTo.value else Bracketed(c.party.target)
  }

  function SdpOf(c: Call): Sdp { Sdp(c.audioPort, c.videoPort) }

  function AckFor(c: Call, m: Msg, uri: string): Out
    requires m.Response?
  {
    Ack(uri, c.branch, c.cseq, c.routes, if m.to.Some? then m.to.value else Bracketed(c.party.target), m.code)
  }

  function Write(c: Client, o: Out): Client
    requires c.call.Some?
  {
    c.(trace := c.trace + [Sent(c.call.value.party, o)])
  }

  function With(c: Client, call: Call): Client { c.(call := Some(call)) }

  /** `_terminate` */
  function Terminate(c: Client): Client
    requires c.call.Some?
  {
    Client(c.connected, c.closing || c.connected, None, c.trace + [Terminated(c.call.value.party.callId)])
  }

  // ---------- responses ----------

  predicate WellFormed(cseq: seq<string>) { |cseq| == 2 }

  predicate OfInvite(cseq: seq<string>) { WellFormed(cseq) && Upper(cseq[1]) == "INVITE" }

  predicate OfOther(cseq: seq<string>) { WellFormed(cseq) && Upper(cseq[1]) != "INVITE" }

  function Challenge(m: Msg): Option<string>
    requires m.Response?
  {
    if m.proxyAuth.Some? && m.proxyAuth.value != "" then m.proxyAuth
    else if m.wwwAuth.Some? && m.wwwAuth.value != "" then m.wwwAuth else None
  }

  /** `_handle_auth_challenge` */
  function HandleAuthChallenge(c: Client, m: Msg, authorization: Option<string>, token: string): Client
    requires c.call.Some? && m.Response?
  {
    var call := c.call.value;
    var acked := Write(c, AckFor(call, m, call.party.target));
    if Challenge(m).None? || authorization.None? then Terminate(acked)
    else
      var again := call.(cseq := call.cseq + 1, branch := token, state := Authenticating);
      var header := if m.proxyAuth.Some? then "Proxy-Authorization" else "Authorization";
      Write(With(acked, again), Invite(token, again.cseq, SdpOf(again), Some(Credentials(header, authorization.value))))
  }

  /** The dialog a 2xx establishes. */
  function InDialog(call: Call, m: Msg): Call
    requires m.Response?
  {
    var uri := SipRoutes.ContactUri(m.contact);
    call.(remoteTo := m.to, remoteTarget := Some(if uri != "" then uri else call.party.target),
          routes := SipRoutes.Reverse(SipRoutes.RecordRoutes(m.recordRoutes)))
  }

  /** `_handle_ok` */
  function HandleOk(c: Client, m: Msg): Client
    requires c.call.Some? && m.Response?
  {
    var call := InDialog(c.call.value, m);
    var acked := Write(With(c, call), AckFor(call, m, call.remoteTarget.value));
    if m.rtp.None? then Terminate(acked)
    else
      var video := if call.videoPort.Some? && call.videoPort.value != 0 then m.video else None;
      With(acked, call.(state := Confirmed)).(trace := acked.trace
        + [Established(call.party.callId, m.rtp.value, call.audioPort, video,
                       if video.Some? then call.videoPort else None)])
  }

  /** `_handle_response` */
  function HandleResponse(c: Client, m: Msg, authorization: Option<string>, token: string): Client
    requires c.call.Some? && m.Response?
  {
    var call := c.call.value;
    if m.code < 200 then c
    else if (m.code == 401 || m.code == 407) && call.state == Inviting then
      HandleAuthChallenge(c, m, authorization, token)
    else if m.code < 300 then
      if call.state != Confirmed then HandleOk(c, m)
      else if OfInvite(m.cseq) then Write(With(c, call.(reinviting := false)), AckFor(call, m, Uri(call)))
      else c
    else if OfOther(m.cseq) then c
    else if call.state == Confirmed && call.reinviting then
      Write(With(c, call.(reinviting := false)), AckFor(call, m, Uri(call)))
    else Terminate(Write(c, AckFor(call, m, call.party.target)))
  }

  // ---------- requests of the server ----------

  function HandleRequest(c: Client, m: Msg): Client
    requires c.call.Some? && m.Request?
  {
    match m.verb
    case ByeVerb => Terminate(Write(c, Ok(m.vias, m.from_, m.toHeader, m.callId, m.cseqHeader)))
    case InviteVerb =>
      Write(c, OkSdp(m.vias, m.from_, m.toHeader, m.callId, m.cseqHeader, SdpOf(c.call.value)))
    case MessageVerb => Write(c, Ok(m.vias, m.from_, m.toHeader, m.callId, m.cseqHeader))
    case OtherVerb => c
  }

  predicate ForCall(c: Client, m: Msg) { c.call.Some? && (m.callId == "" || m.callId == c.call.value.party.callId) }

  /** `_dispatch` */
  function Dispatch(c: Client, m: Msg, authorization: Option<string>, token: string): Client
  {
    if !ForCall(c, m) then c
    else if m.Response? then HandleResponse(c, m, authorization, token)
    else HandleRequest(c, m)
  }

  // ---------- what the owner of the client asks for ----------

  predicate IsCall(c: Client, id: string) { c.call.Some? && c.call.value.party.callId == id }

  /** `_send_in_dialog_message` */
  function SendInDialogMessage(c: Client, id: string, text: string, token: string): Client
  {
    if !IsCall(c, id) || c.call.value.state != Confirmed then c
    else if c.call.value.remoteTo.None? || c.call.value.remoteTo.value == "" then c
    else
      var call := c.call.value.(cseq := c.call.value.cseq + 1);
      Write(With(c, call), Message(Uri(call), token, call.cseq, call.routes, call.remoteTo.value, text))
  }

  /** `send_reinvite_audio_only` */
  function SendReinviteAudioOnly(c: Client, id: string, token: string): Client
  {
    if !IsCall(c, id) || c.call.value.state != Confirmed then c
    else if c.call.value.videoPort.None? || c.call.value.reinviting then c
    else
      var call := c.call.value.(videoPort := None, reinviting := true, cseq := c.call.value.cseq + 1, branch := token);
      Write(With(c, call), ReInvite(Uri(call), token, call.cseq, call.routes, ToHeader(call), SdpOf(call)))
  }

  /** `hang_up` */
  function Hang(c: Client, id: string, token: string): Client
  {
    if !IsCall(c, id) then c
    else if c.call.value.state == Confirmed then
      var call := c.call.value.(cseq := c.call.value.cseq + 1);
      Terminate(Write(With(c, call), Bye(Uri(call), token, call.cseq, call.routes, ToHeader(call))))
    else Terminate(Write(c, Cancel(c.call.value.branch, c.call.value.cseq)))
  }

  /** `call`; it raises, and changes nothing, without a transport or during a call. */
  function StartCall(c: Client, p: Party, audioPort: nat, videoPort: Option<nat>, token: string): Client
  {
    if !c.connected || c.call.Some? then c
    else
      var call := Call(p, Inviting, INITIAL_CSEQ, token, audioPort, videoPort, None, None, [], false);
      Write(With(c, call), Invite(token, call.cseq, SdpOf(call), None))
  }

  /** `connection_lost` */
  function Lose(c: Client): Client { (if c.call.Some? then Terminate(c) else c).(connected := false) }

  function Next(c: Client, e: Event): Client
  {
    match e
    case ConnectionMade => c.(connected := true)
    case ConnectionLost => Lose(c)
    case Dial(p, audioPort, videoPort, token) => StartCall(c, p, audioPort, videoPort, token)
    case Receive(m, authorization, token) => Dispatch(c, m, authorization, token)
    case SendMessage(id, text, token) => SendInDialogMessage(c, id, text, token)
    case AudioOnly(id, token) => SendReinviteAudioOnly(c, id, token)
    case HangUp(id, token) => Hang(c, id, token)
  }

  const NEW := Client(false, false, None, [])

  /** A run: the states the client goes through, one more than the events. */
  ghost predicate Run(cs: seq<Client>, es: seq<Event>)
  {
    && |cs| == |es| + 1 && cs[0] == NEW
    && forall i {:trigger es[i]} :: 0 <= i < |es| ==> cs[i + 1] == Next(cs[i], es[i])
  }

  /** One instance per call: `call` is used at most once. */
  ghost predicate OneCall(es: seq<Event>)
  {
    forall i, j :: 0 <= i < j < |es| && es[i].Dial? ==> !es[j].Dial?
  }

  /** The events, among them at most one `call`, lead a new client to the state c. */
  ghost predicate Reached(es: seq<Event>, c: Client) { OneCall(es) && exists cs :: Run(cs, es) && cs[|es|] == c }

  lemma ReachedStart()
    ensures Reached([], NEW)
  {
    assert Run([NEW], []);
  }

  lemma ReachedMore(es: seq<Event>, c: Client, e: Event)
    requires Reached(es, c) && OneCall(es + [e])
    ensures Reached(es + [e], Next(c, e))
  {
    var cs :| Run(cs, es) && cs[|es|] == c;
    var more := es + [e];
    hide Next, OneCall;
    forall i | 0 <= i < |more| ensures (cs + [Next(c, e)])[i + 1] == Next((cs + [Next(c, e)])[i], more[i]) {
      if i < |es| { assert more[i] == es[i]; }
    }
    assert Run(cs + [Next(c, e)], more);
  }

  lemma ReachedLast(es: seq<Event>, c: Client) returns (b: Client)
    requires Reached(es, c) && es != []
    ensures Reached(es[..|es| - 1], b) && c == Next(b, es[|es| - 1])
  {
    var cs :| Run(cs, es) && cs[|es|] == c;
    var front := es[..|es| - 1];
    assert OneCall(front);
    hide Next, OneCall;
    forall i | 0 <= i < |front| ensures cs[..|es|][i + 1] == Next(cs[..|es|][i], front[i]) { assert front[i] == es[i]; }
    assert Run(cs[..|es|], front);
    b := cs[|es| - 1];
  }
}
