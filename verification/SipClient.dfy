/** The SIP client in the form the program gives it: one object per connection and one per call,
    updated field by field. Each method is proved to do what the dialog's functions say. */
module SipClient {
  import opened Basics
  import opened SipMessages
  import opened SipDialog
  import SipRoutes

  /** `_PendingCall`. A state of None stands for TERMINATED. */
  class PendingCall {
    const party: Party
    const audioPort: nat
    var state: Option<CallState>
    var cseq: nat
    var viaBranch: string
    var videoPort: Option<nat>
    var remoteTo: Option<string>
    var remoteTarget: Option<string>
    var routeSet: seq<string>
    var reinviting: bool

    constructor (party: Party, audioPort: nat, videoPort: Option<nat>, token: string)
      ensures state == Some(Inviting)
      ensures Snapshot() == Call(party, Inviting, INITIAL_CSEQ, token, audioPort, videoPort, None, None, [], false)
    {
      this.party, this.audioPort, this.videoPort := party, audioPort, videoPort;
      state, cseq, viaBranch := Some(Inviting), INITIAL_CSEQ, token;
      remoteTo, remoteTarget, routeSet, reinviting := None, None, [], false;
    }

    function Snapshot(): Call
      reads this
      requires state.Some?
    {
      Call(party, state.value, cseq, viaBranch, audioPort, videoPort, remoteTo, remoteTarget, routeSet, reinviting)
    }
  }

  /** `IntratoneSipClient`; `trace` records writes on the transport and callbacks. */
  class IntratoneSipClient {
    var connected: bool
    var closing: bool
    var call: PendingCall?
    var trace: seq<Act>

    /** A call that is still referenced has a transport and is not terminated. */
    ghost predicate Valid()
      reads this, call
    {
      call != null ==> connected && call.state.Some?
    }

    ghost function View(): Client
      reads this, call
      requires Valid()
    {
      Client(connected, closing, if call == null then None else Some(call.Snapshot()), trace)
    }

    constructor ()
      ensures Valid() && View() == NEW
    {
      connected, closing, call, trace := false, false, null, [];
    }

    method ConnectionMade()
      requires Valid()
      modifies this`connected
      ensures Valid() && View() == Next(old(View()), Event.ConnectionMade)
    {
      connected := true;
    }

    method ConnectionLost()
      requires Valid()
      modifies this, call
      ensures Valid() && View() == Next(old(View()), Event.ConnectionLost)
    {
      if call != null { TerminateCall(); }
      connected := false;
    }

    /** `_send` */
    method Send(o: Out)
      requires Valid() && call != null
      modifies this`trace
      ensures Valid() && View() == Write(old(View()), o)
    {
      trace := trace + [Sent(call.party, o)];
    }

    /** `_terminate` */
    method TerminateCall()
      requires Valid() && call != null
      modifies this, call
      ensures Valid() && call == null && View() == Terminate(old(View()))
    {
      var ended := call;
      ended.state := None;
      call := null;
      trace := trace + [Terminated(ended.party.callId)];
      if connected && !closing { closing := true; }
    }

    /** `call` */
    method StartCall(party: Party, audioPort: nat, videoPort: Option<nat>, token: string) returns (ok: bool)
      requires Valid()
      modifies this
      ensures ok == (old(connected) && old(call) == null)
      ensures Valid() && View() == Next(old(View()), Dial(party, audioPort, videoPort, token))
    {
      if !connected || call != null { return false; }
      var fresh_ := new PendingCall(party, audioPort, videoPort, token);
      call := fresh_;
      Send(Invite(fresh_.viaBranch, fresh_.cseq, Sdp(audioPort, fresh_.videoPort), None));
      return true;
    }

    /** `_send_in_dialog_message` */
    method SendInDialogMessage(id: string, text: string, token: string) returns (ok: bool)
      requires Valid()
      modifies this, call
      ensures ok == (old(trace) != trace)
      ensures Valid() && View() == Next(old(View()), SendMessage(id, text, token))
    {
      if call == null || call.party.callId != id { return false; }
      if call.state.value != Confirmed { return false; }
      if call.remoteTo.None? || call.remoteTo.value == "" { return false; }
      call.cseq := call.cseq + 1;
      Send(Message(Uri(call.Snapshot()), token, call.cseq, call.routeSet, call.remoteTo.value, text));
      return true;
    }

    /** `send_reinvite_audio_only` */
    method SendReinviteAudioOnly(id: string, token: string) returns (ok: bool)
      requires Valid()
      modifies this, call
      ensures ok == (old(trace) != trace)
      ensures Valid() && View() == Next(old(View()), AudioOnly(id, token))
    {
      if call == null || call.party.callId != id { return false; }
      if call.state.value != Confirmed { return false; }
      if call.videoPort.None? { return false; }
      if call.reinviting { return false; }
      call.videoPort := None;
      call.reinviting := true;
      call.cseq := call.cseq + 1;
      call.viaBranch := token;
      var c := call.Snapshot();
      Send(ReInvite(Uri(c), call.viaBranch, call.cseq, call.routeSet, ToHeader(c), SdpOf(c)));
      return true;
    }

    /** `hang_up` */
    method Hangup(id: string, token: string)
      requires Valid()
      modifies this, call
      ensures Valid() && View() == Next(old(View()), HangUp(id, token))
    {
      if call == null || call.party.callId != id { return; }
      if call.state.value == Confirmed {
        call.cseq := call.cseq + 1;
        var c := call.Snapshot();
        Send(Bye(Uri(c), token, call.cseq, call.routeSet, ToHeader(c)));
      } else {
        Send(Cancel(call.viaBranch, call.cseq));
      }
      TerminateCall();
    }

    /** `_handle_auth_challenge` */
    method HandleChallenge(m: Msg, authorization: Option<string>, token: string)
      requires Valid() && call != null && m.Response?
      modifies this, call
      ensures Valid() && View() == HandleAuthChallenge(old(View()), m, authorization, token)
    {
      Send(AckFor(call.Snapshot(), m, call.party.target));
      var challenge := Challenge(m);
      if challenge.None? {
        TerminateCall();
        return;
      }
      if authorization.None? {
        TerminateCall();
        return;
      }
      call.cseq := call.cseq + 1;
      call.viaBranch := token;
      call.state := Some(Authenticating);
      var headerName := if m.proxyAuth.Some? then "Proxy-Authorization" else "Authorization";
      Send(Invite(call.viaBranch, call.cseq, SdpOf(call.Snapshot()), Some(Credentials(headerName, authorization.value))));
    }

    /** `_handle_ok` */
    method HandleAccepted(m: Msg)
      requires Valid() && call != null && m.Response?
      modifies this, call
      ensures Valid() && View() == HandleOk(old(View()), m)
    {
      call.remoteTo := m.to;
      var uri := SipRoutes.ContactUri(m.contact);
      call.remoteTarget := Some(if uri != "" then uri else call.party.target);
      var rr := SipRoutes.RecordRoutes(m.recordRoutes);
      call.routeSet := SipRoutes.Reverse(rr);
      Send(AckFor(call.Snapshot(), m, call.remoteTarget.value));
      if m.rtp.None? {
        TerminateCall();
        return;
      }
      var video := if call.videoPort.Some? && call.videoPort.value != 0 then m.video else None;
      call.state := Some(Confirmed);
      trace := trace + [Established(call.party.callId, m.rtp.value, call.audioPort, video,
                                    if video.Some? then call.videoPort else None)];
    }

    /** `_handle_response` */
    method HandleAnswer(m: Msg, authorization: Option<string>, token: string)
      requires Valid() && call != null && m.Response?
      modifies this, call
      ensures Valid() && View() == HandleResponse(old(View()), m, authorization, token)
    {
      if m.code < 200 { return; }
      if (m.code == 401 || m.code == 407) && call.state.value == Inviting {
        HandleChallenge(m, authorization, token);
        return;
      }
      if m.code < 300 {
        if call.state.value == Inviting || call.state.value == Authenticating {
          HandleAccepted(m);
        } else if OfInvite(m.cseq) {
          AckAgain(m);
        }
        return;
      }
      if OfOther(m.cseq) { return; }
      if call.state.value == Confirmed && call.reinviting {
        AckAgain(m);
        return;
      }
      Send(AckFor(call.Snapshot(), m, call.party.target));
      TerminateCall();
    }

    /** The ACK inside the dialog that ends a re-INVITE, or repeats a lost ACK. */
    method AckAgain(m: Msg)
      requires Valid() && call != null && m.Response?
      modifies this, call
      ensures var c := old(View()).call.value;
        Valid() && View() == Write(With(old(View()), c.(reinviting := false)), AckFor(c, m, Uri(c)))
    {
      call.reinviting := false;
      var c := call.Snapshot();
      Send(AckFor(c, m, Uri(c)));
    }

    /** `_dispatch` with `_handle_bye`, `_handle_reinvite` and `_handle_server_message` */
    method DispatchMessage(m: Msg, authorization: Option<string>, token: string)
      requires Valid()
      modifies this, call
      ensures Valid() && View() == Next(old(View()), Receive(m, authorization, token))
    {
      if call == null || (m.callId != "" && m.callId != call.party.callId) { return; }
      if m.Response? {
        HandleAnswer(m, authorization, token);
        return;
      }
      match m.verb {
        case ByeVerb =>
          Send(Ok(m.vias, m.from_, m.toHeader, m.callId, m.cseqHeader));
          TerminateCall();
        case InviteVerb =>
          Send(OkSdp(m.vias, m.from_, m.toHeader, m.callId, m.cseqHeader, SdpOf(call.Snapshot())));
        case MessageVerb => Send(Ok(m.vias, m.from_, m.toHeader, m.callId, m.cseqHeader));
        case OtherVerb =>
      }
    }
  }
}
