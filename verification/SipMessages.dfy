/** Every message the client writes (custom_components/intratone/sip_client.py, the `_build_*`
    serialisers), as the octets on the wire. */
module SipMessages {
  import opened Basics

  const CRLF := "\r\n"
  const USER_AGENT := "AndroidPhone/2.6.0 (belle-sip/5.4.100)"
  const SESSION_EXPIRES := "1800;refresher=uas"
  const ALLOWED := "INVITE, ACK, CANCEL, BYE, MESSAGE"

  function Digit(d: nat): char
    requires d < 10
  {
    ['0', '1', '2', '3', '4', '5', '6', '7', '8', '9'][d]
  }

  /** A number in decimal, as an f-string prints it. */
  function Dec(n: nat): string
  {
    if n < 10 then [Digit(n)] else Dec(n / 10) + [Digit(n % 10)]
  }

  /** What stays the same through one call. */
  datatype Party = Party(username: string, host: string, port: nat, fromTag: string, callId: string,
                         instance: string, target: string)

  /** The media an SDP of ours offers. */
  datatype Sdp = Sdp(audioPort: nat, videoPort: Option<nat>)

  datatype Credentials = Credentials(header: string, value: string)

  /** One message, by the fields that vary. */
  datatype Out =
    | Invite(branch: string, cseq: nat, sdp: Sdp, auth: Option<Credentials>)
    | ReInvite(uri: string, branch: string, cseq: nat, routes: seq<string>, to: string, sdp: Sdp)
    // `code` is the answer it acknowledges, which the octets do not show
    | Ack(uri: string, branch: string, cseq: nat, routes: seq<string>, to: string, code: nat)
    | Cancel(branch: string, cseq: nat)
    | Message(uri: string, branch: string, cseq: nat, routes: seq<string>, to: string, text: string)
    | Bye(uri: string, branch: string, cseq: nat, routes: seq<string>, to: string)
    | Ok(vias: seq<string>, from_: string, to: string, callId: string, cseqHeader: string)
    | OkSdp(vias: seq<string>, from_: string, to: string, callId: string, cseqHeader: string, sdp: Sdp)

  /** A header line: a fixed beginning and what follows it. */
  datatype Field = Field(name: string, value: string)

  function Repeated(name: string, values: seq<string>): (fs: seq<Field>)
    ensures |fs| == |values| && forall i :: 0 <= i < |fs| ==> fs[i] == Field(name, values[i])
  {
    seq(|values|, i requires 0 <= i < |values| => Field(name, values[i]))
  }

  function Via(p: Party, branch: string): Field
  {
    Field("Via: ", "SIP/2.0/TCP " + p.host + ":" + Dec(p.port) + ";branch=" + branch + ";rport")
  }

  function From(p: Party): Field
  {
    Field("From: ", "<sip:" + p.username + "@" + p.host + ">;tag=" + p.fromTag)
  }

  function Contact(p: Party): Field
  {
    Field("Contact: ", "<sip:" + p.username + "@" + p.host + ":" + Dec(p.port) + ";transport=tcp>;+sip.instance=" + p.instance)
  }

  function CSeq(cseq: nat, method_: string): Field { Field("CSeq: ", Dec(cseq) + method_) }

  function Start(method_: string, uri: string): Field { Field(method_, uri + " SIP/2.0") }

  /** What every request starts with, after the request line. */
  function Opening(p: Party, branch: string): seq<Field> { [Via(p, branch), Field("Max-Forwards: ", "70")] }

  function Identity(p: Party, to: string, cseq: nat, method_: string): seq<Field>
  {
    [From(p), Field("To: ", to), Field("Call-ID: ", p.callId), CSeq(cseq, method_)]
  }

  /** What an INVITE says of us and of its session timer. */
  function Session(p: Party): seq<Field>
  {
    [Contact(p), Field("User-Agent: ", USER_AGENT), Field("Allow: ", ALLOWED), Field("Supported: ", "timer"),
     Field("Session-Expires: ", SESSION_EXPIRES), Field("Min-SE: ", "90"), Field("Content-Type: ", "application/sdp")]
  }

  function Agent(): seq<Field> { [Field("User-Agent: ", USER_AGENT)] }

  function Echo(o: Out): seq<Field>
    requires o.Ok? || o.OkSdp?
  {
    [Field("SIP/2.0 200 OK", "")] + Repeated("Via: ", o.vias)
      + [Field("From: ", o.from_), Field("To: ", o.to), Field("Call-ID: ", o.callId), Field("CSeq: ", o.cseqHeader)]
  }

  /** The header lines before Content-Length, which always comes last. */
  function Fields(p: Party, o: Out): seq<Field>
  {
    match o
    case Invite(branch, cseq, _, auth) =>
      [Start("INVITE ", p.target)] + Opening(p, branch) + Identity(p, "<" + p.target + ">", cseq, " INVITE")
        + Session(p) + (if auth.Some? then [Field(auth.value.header + ": ", auth.value.value)] else [])
    case ReInvite(uri, branch, cseq, routes, to, _) =>
      [Start("INVITE ", uri)] + Opening(p, branch) + Repeated("Route: ", routes)
        + Identity(p, to, cseq, " INVITE") + Session(p)
    case Ack(uri, branch, cseq, routes, to, _) =>
      [Start("ACK ", uri)] + Opening(p, branch) + Repeated("Route: ", routes)
        + Identity(p, to, cseq, " ACK") + Agent()
    case Cancel(branch, cseq) =>
      [Start("CANCEL ", p.target)] + Opening(p, branch) + Identity(p, "<" + p.target + ">", cseq, " CANCEL") + Agent()
    case Message(uri, branch, cseq, routes, to, _) =>
      [Start("MESSAGE ", uri)] + Opening(p, branch) + Repeated("Route: ", routes)
        + Identity(p, to, cseq, " MESSAGE") + Agent() + [Field("Content-Type: ", "text/plain;charset=UTF-8")]
    case Bye(uri, branch, cseq, routes, to) =>
      [Start("BYE ", uri)] + Opening(p, branch) + Repeated("Route: ", routes)
        + Identity(p, to, cseq, " BYE") + Agent()
    case Ok(_, _, _, _, _) => Echo(o) + Agent()
    case OkSdp(_, _, _, _, _, _) =>
      Echo(o) + [Contact(p), Field("User-Agent: ", USER_AGENT), Field("Supported: ", "timer"),
                 Field("Session-Expires: ", SESSION_EXPIRES), Field("Content-Type: ", "application/sdp")]
  }

  // ---------- bodies ----------

  function BeforeAt(s: string): string
  {
    if s == "" || s[0] == '@' then "" else [s[0]] + BeforeAt(s[1..])
  }

  function SdpLines(p: Party, s: Sdp): seq<string>
  {
    var id := BeforeAt(p.callId);
    ["v=0",
     "o=" + p.username + " " + id + " " + id + " IN IP4 " + p.host,
     "s=Intratone Call",
     "c=IN IP4 " + p.host,
     "t=0 0",
     "m=audio " + Dec(s.audioPort) + " RTP/AVP 0 8 101",
     "a=rtpmap:0 PCMU/8000",
     "a=rtpmap:8 PCMA/8000",
     "a=rtpmap:101 telephone-event/8000",
     "a=fmtp:101 0-15",
     "a=ptime:20",
     "a=sendrecv"]
    + (if s.videoPort.Some? then
         ["m=video " + Dec(s.videoPort.value) + " RTP/AVP 96", "a=rtpmap:96 VP8/90000", "a=sendrecv"]
       else [])
  }

  /** Each line with its line end. */
  function Lines(ls: seq<string>): string
  {
    if ls == [] then "" else ls[0] + CRLF + Lines(ls[1..])
  }

  function Body(p: Party, o: Out): string
  {
    match o
    case Invite(_, _, sdp, _) => Lines(SdpLines(p, sdp))
    case ReInvite(_, _, _, _, _, sdp) => Lines(SdpLines(p, sdp))
    case OkSdp(_, _, _, _, _, sdp) => Lines(SdpLines(p, sdp))
    case Message(_, _, _, _, _, text) => text
    case _ => ""
  }

  function LinesOf(fs: seq<Field>): (ls: seq<string>)
    ensures |ls| == |fs|
  {
    seq(|fs|, i requires 0 <= i < |fs| => fs[i].name + fs[i].value)
  }

  /** The octets of a message: its header lines, Content-Length, a blank line and the body. */
  function Wire(p: Party, o: Out): string
  {
    Lines(LinesOf(Fields(p, o)) + ["Content-Length: " + Dec(|Body(p, o)|)]) + CRLF + Body(p, o)
  }

  predicate VideoLine(l: string) { "m=video" <= l }

  /** An SDP of ours has an m=video line exactly when a video port is offered. */
  lemma VideoLineIffOffered(p: Party, s: Sdp)
    ensures (exists i :: 0 <= i < |SdpLines(p, s)| && VideoLine(SdpLines(p, s)[i])) <==> s.videoPort.Some?
  {
    var ls := SdpLines(p, s);
    if s.videoPort.Some? {
      assert VideoLine(ls[12]);
    } else {
      forall i | 0 <= i < |ls| ensures !VideoLine(ls[i]) {
        assert ls[i][0] != 'm' || ls[i][2] == 'a';
      }
    }
  }
}
