# Intratone call pipeline: a Dafny model

Home Assistant answers an Intratone doorbell through a chain of cooperating state machines: a push
parks an invite, a tap opens one SIP call over TCP, the call's answer starts an audio bridge around
ffmpeg, and the bridge splices the visitor's VP8 into one RTP stream. They share processes, sockets
and timers across suspension points. This project models that chain and the octet-level codecs
under it, and proves what holds over every run.

`dafny verify dfyconfig.toml` checks everything.

## How the program is modelled

Coroutines of one event loop interleave only at an `await`. Each long-lived coroutine is therefore
a transition system whose step goes from one `await` to the next, and a theorem quantifies over
every list of events. Objects that are updated in place are also given as classes, for the stretches
of their coroutines listed under Model; each method is proved to have exactly the effect of the
transition or function it models.

| file | what it holds |
|---|---|
| `BridgeState`, `BridgeShapes`, `BridgeOwnership`, `BridgeOwnershipRuns`, `BridgeRelease`, `BridgeHistory`, `BridgeTheorems`, `BridgeLimits` | `AudioBridge`: start, stop and prewarm racing each other, with every ffmpeg, socket and task as a resource |
| `BridgeAdoption`, `BridgeOutcomes`, `BridgeStops`, `BridgeProgress` | which ffmpeg `start()` runs on, how it ends and why, what a finished `stop()` has ended, and that everything finishes |
| `AudioBridge` | the main stretches of that object as methods of a class |
| `VideoSplice`, `VideoRuns`, `VideoTheorems`, `VideoLaws`, `VideoRtpProtocol` | placeholder and real video spliced into one RTP stream, with the PLI loop; what every datagram, tick and wait does |
| `SipFraming`, `SipMessages`, `SipRoundTrip`, `SipReader`, `SipHeaders`, `SipSessions`, `SipOffers`, `SipRoutes` | SIP over TCP: framing, every message the client writes and an independent reader of its headers and of its session description, route lists |
| `SipDialog`, `SipTranscript`, `SipTheorems`, `SipAnswers`, `SipCredentials`, `SipClient` | the dialog, independent descriptions of a transcript that RFC 3261 allows and of one this client writes, what it answers to everything it receives, the challenged INVITE end to end, and the client object |
| `CallFlow`, `CallFrames`, `CallTimers`, `CallAttendance`, `CallTeardowns`, `CallRings`, `CallLaws`, `LazyInvite` | call manager and coordinator, and what holds in every interleaving: timers, who closes the bridge and when, rings, invites, what each event of a call does |
| `CallOrder`, `CallTheorems` | what holds when handlers do not overlap |
| `CallLeaks` | where every media socket is, in every interleaving, and which events leak one |
| `CallLimits` | runs that show what the hypotheses are for |
| `CallManager` | the call manager and the coordinator as two objects that call each other |
| `PortBinding`, `Digest`, `DigestServer`, `AudioReceive`, `Stun`, `Vp8`, `Vp8Placeholder`, `Ulaw`, `Octets`, `Basics` | codecs and binders |

## Hypotheses

The code does not guard against the following, so the theorems that need them say so.

- Bridge runs (`PoliteRun`): `start()` enters a bridge with no `stop()` that has yet to close it, and
  is not cancelled while it waits on a prewarm over which a newer one is already parked.
  `CancelOrphansTheNewerPrewarm` gives the exact condition under which such a cancellation loses an
  ffmpeg. The call manager keeps to both in orderly runs (`StartFindsAStoppedBridge`,
  `PrewarmFindsNoStart`).
- A failing ffmpeg spawn leaves the sockets it was handed open, although the docstring at
  custom_components/intratone/audio_bridge.py:993-995 says otherwise. `RaisedMeansReleased` gives the
  exact condition inside the bridge. `LeaksAreAccounted` names the other events that leave a socket
  open with nothing to refer to it; in orderly runs there are none (`LeaksAreFailedSpawns`).
- The placeholder asset is not empty (`packets != []` in the video runs).
- One `call()` per SIP client (`OneCall`), as its class comment says.
- An ACK of a 2xx repeats the branch of its INVITE and carries no credentials, against sections
  8.1.1.7 and 13.2.2.4 of RFC 3261, so the transcript of an answered call is never one that the RFC
  allows. `EveryRunIsLegal` gives the exact condition, for whole transcripts and for all but those
  ACKs. The other deviation is the CSeq of an ACK after a MESSAGE (`AckAfterMessageDiffers`).
- Orderly runs (`CallOrder.Orderly`), for stream URLs and sockets only: no event lands during a TCP
  connect, no push while an abort or the teardown after the grace window is suspended, no
  `async_stop` (`Apart`), and the 60 s grace timer of the active call does not outrun its bridge
  startup or an abort, which wait for seconds (`InTime`). `CallIsReplaced`, `CallIsForgotten` and
  `StreamOfAnotherCall` are runs that show what goes wrong without the first, `UrlOutlivesBridge` one
  that breaks only the second. Timers, publications, lazy invites, parked invites, leaks and who
  closes the bridge need none of this.
- A bridge that is up for a call that is not active always has a `stop()` on its way that will close
  it, unless one of four interleavings came before (`CallAttendance.Overtakes`): a second connect
  replaces the call (`CallIsReplaced`), the end of the active call cancels a teardown that still waits
  for a prewarm (`TeardownIsCut`), or an abort (`CallIsForgotten`) or `async_stop` ends that had
  closed an earlier bridge only. A teardown that is cancelled later, while it waits for ffmpeg, has
  closed everything, and only its `on_call_ended` is lost (`EndedIsLost`).

## Model

| member | source | states |
|---|---|---|
| BridgeOwnershipRuns.EveryFfmpegHasOneOwner | custom_components/intratone/audio_bridge.py:881-978 | at every step of every run an ffmpeg that is starting or alive is owned by exactly one of prewarm task, awaiting consumer, cleanup task, stop, unwinding or running bridge; no process ever has two owners |
| BridgeTheorems.RaisedMeansReleased | custom_components/intratone/audio_bridge.py:1014-1269 | after `start()` raised and all has finished, by the events alone: every socket handed in is open if the awaited ffmpeg spawn failed and nothing cancelled `start()`; otherwise the audio socket is closed, a video or RTCP socket is open if and only if it came without a video peer and the first `stop()` came in the push wait, nothing refers to an endpoint, process or task, and the push event is kept if and only if there were two cancellations and no `stop()` |
| BridgeTheorems.UrlMeansNoStopBegan | custom_components/intratone/audio_bridge.py:1039-1101 | whatever the interleaving, `start()` returns the URL only if no `stop()` began since its entry |
| BridgeTheorems.UrlMeansHeld | custom_components/intratone/audio_bridge.py:1224-1269 | when the URL is returned every live resource of the pipeline is held in an attribute |
| BridgeTheorems.UrlThenStopReleases | custom_components/intratone/audio_bridge.py:1400-1500 | one later `stop()` releases the process, the transports, the sockets and the tasks; a video or RTCP socket stays open if and only if it was handed in without a video peer |
| BridgeTheorems.NoSocketIsYanked | custom_components/intratone/audio_bridge.py:1502-1538 | a raw socket is never closed under an endpoint that still uses it |
| BridgeTheorems.GenerationCountsStops | custom_components/intratone/audio_bridge.py:1400-1407 | the generation counter grows by one for each `stop()` that begins and by nothing else |
| BridgeLimits.SpawnFailureKeepsSockets | custom_components/intratone/audio_bridge.py:1088-1090 | a run in which a failed spawn leaves the handed-in sockets open |
| BridgeLimits.CancelledTwiceKeepsEvent | custom_components/intratone/audio_bridge.py:1014-1026 | a run in which a second cancellation, inside the handler of the first, keeps the push event referenced |
| BridgeLimits.UnusedVideoSocketsStayOpen | custom_components/intratone/audio_bridge.py:1242-1244 | a run in which video sockets handed in without a video peer stay open |
| BridgeTheorems.CancelOrphansTheNewerPrewarm | custom_components/intratone/audio_bridge.py:915-937 | a cancellation of `start()` leaves a live ffmpeg without an owner if and only if `start()` waits on a prewarm while a newer live one is parked |
| BridgeTheorems.PrewarmDuringConsumeIsLost | custom_components/intratone/audio_bridge.py:881-937 | in every reached state where `start()` waits on a prewarm, `prewarm()` and then a cancellation lose the new ffmpeg if and only if the prewarm was accepted |
| BridgeLimits.PrewarmIsLost | custom_components/intratone/audio_bridge.py:925-931 | a run in which re-attachment overwrites a newer prewarm, whose ffmpeg then has no owner |
| BridgeAdoption.ProcessSuitsTheCall | custom_components/intratone/audio_bridge.py:1039-1097 | from the audio wait to the URL, if no `stop()` began, the process of the bridge is an ffmpeg with the negotiated inputs |
| BridgeAdoption.PrewarmIsAdoptedExactly | custom_components/intratone/audio_bridge.py:1061-1101 | in every reached state where `start()` waits on a prewarm that is there: it is adopted, and nothing killed or spawned, if and only if it is alive, has the negotiated inputs and no `stop()` began; any other live one is killed; a dead or failed one is replaced by a spawn of the negotiated kind |
| BridgeAdoption.WrongKindIsNeverAdopted | custom_components/intratone/audio_bridge.py:1074-1084 | a live prewarm with other inputs never becomes the process of the bridge, in any continuation, and never runs again |
| BridgeAdoption.EntryTakesThePrewarm | custom_components/intratone/audio_bridge.py:1039-1061 | `start()` waits on a parked prewarm, or spawns one ffmpeg of the negotiated kind at once |
| BridgeShapes.PrewarmShape | custom_components/intratone/audio_bridge.py:881-914 | `prewarm()` parks one new ffmpeg with the inputs asked for, unless one is parked or running, and does nothing else |
| BridgeOutcomes.OutcomeIsDecided | custom_components/intratone/audio_bridge.py:1014-1269 | over every run `start()` ends as the events decide: the URL if and only if it found a running bridge, or there was no cancellation, no failed spawn or endpoint and no `stop()` that began while it was in flight; otherwise it raises for the first of these in a fixed order |
| BridgeOutcomes.StopIsNoticed | custom_components/intratone/audio_bridge.py:1120-1269 | once it has its ffmpeg `start()` goes from endpoint to endpoint, to the push wait and to the URL as long as no `stop()` began, and gives up at its next resumption after one, unless an RTCP endpoint comes first |
| BridgeOutcomes.SpawnIsAdoptedUnlessStopped | custom_components/intratone/audio_bridge.py:1085-1101 | an ffmpeg whose spawn `start()` awaited becomes the process, or is killed at once if a `stop()` began |
| BridgeOutcomes.UrlMeansLoops | custom_components/intratone/audio_bridge.py:1174-1269 | with the URL and no `stop()`, the statistics task is held, and the PLI loop with its RTCP endpoint if and only if video was negotiated with an RTCP socket whose endpoint could be made |
| BridgeStops.StopIsThorough | custom_components/intratone/audio_bridge.py:1400-1500 | whatever happens meanwhile, when a `stop()` is done the prewarm parked at its begin is gone; with none parked the pending cleanup is done; with neither the ffmpeg that ran is gone |
| BridgeStops.CleanupIsThorough | custom_components/intratone/audio_bridge.py:939-957 | when the task of `cancel_prewarm()` is done the ffmpeg that was parked is gone |
| BridgeStops.OnlyTheKilledAreAwaited | custom_components/intratone/audio_bridge.py:959-978 | what a task or `start()` waits to see dead was sent SIGKILL before |
| BridgeProgress.NothingIsStuck | custom_components/intratone/audio_bridge.py:881-1553 | in every reached state, while `start()` is in flight or a `stop()` or cleanup is not done, some step is possible by which one of them goes on or an ffmpeg comes up or dies |
| BridgeProgress.RestIsNear | custom_components/intratone/audio_bridge.py:881-1553 | from any state there are only so many such steps, in whatever order, so whatever was begun finishes if it is left alone |
| BridgeProgress.CancelWhileInFlight | custom_components/intratone/audio_bridge.py:1014-1026 | `start()` can be cancelled if and only if it is in flight, and `stop()` can always begin |
| BridgeOutcomes.LoopsStart | custom_components/intratone/audio_bridge.py:1174-1269 | with no `stop()`, the step behind the RTCP endpoint starts the PLI loop and the last one the statistics |
| AudioBridgeObject.AudioBridge.Prewarm | custom_components/intratone/audio_bridge.py:881-897 | starts a prewarm unless one is pending or the bridge runs |
| AudioBridgeObject.AudioBridge.CancelPrewarm | custom_components/intratone/audio_bridge.py:939-952 | hands an unadopted prewarm to a cleanup task |
| AudioBridgeObject.AudioBridge.Start | custom_components/intratone/audio_bridge.py:1039-1060 | the stretch of `start()` to its first await, including the early return that does not take the sockets |
| AudioBridgeObject.AudioBridge.AdoptOrSpawn | custom_components/intratone/audio_bridge.py:1061-1097 | a consumed prewarm is adopted, discarded or replaced by a spawn on demand, as `PrewarmIsAdoptedExactly` says |
| AudioBridgeObject.AudioBridge.CheckAfterVideo | custom_components/intratone/audio_bridge.py:1174-1209 | after the video endpoint: wrap RTCP, or close its socket, then the generation checkpoint |
| AudioBridgeObject.AudioBridge.UnwindPartialStart | custom_components/intratone/audio_bridge.py:1502-1553 | transports are swept before raw sockets are closed, then ffmpeg is killed |
| AudioBridgeObject.AudioBridge.HandleCancel | custom_components/intratone/audio_bridge.py:1014-1026 | the cancellation handler of `start()` |
| AudioBridgeObject.AudioBridge.Stop | custom_components/intratone/audio_bridge.py:1400-1407 | the generation is bumped and the prewarm taken before anything is awaited |
| AudioBridgeObject.AudioBridge.StopEverything | custom_components/intratone/audio_bridge.py:1408-1474 | every attribute is taken, nulled and closed in one stretch |
| VideoTheorems.OneStream | custom_components/intratone/audio_bridge.py:495-549 | the i-th packet to ffmpeg carries sequence number i mod 2^16 and one SSRC; a placeholder packet is version 2, payload type 96, marked on the last part, with its part behind the header; everything else of a real packet but seq, timestamp and SSRC is the forwarded datagram, octet for octet |
| VideoTheorems.OpeningsAreLater | custom_components/intratone/audio_bridge.py:495-527 | each placeholder frame and each takeover has a timestamp above all before it, whatever the clock does |
| VideoTheorems.SegmentsKeepSpacing | custom_components/intratone/audio_bridge.py:652-672 | between any two packets of one real segment the stamps, and modulo 2^32 the timestamp fields on the wire, differ as those of the datagrams they forward do |
| VideoTheorems.StreamIsMonotone | custom_components/intratone/audio_bridge.py:495-549 | if source stamps never decrease inside segments, the whole output never does |
| VideoTheorems.RealIsSubsequence | custom_components/intratone/audio_bridge.py:551-672 | real output keeps the order of the input |
| VideoTheorems.RealResumesOnKeyframe | custom_components/intratone/audio_bridge.py:624-672 | the first real packet, and the first after any placeholder, starts a keyframe, also when the PLI loop closes or forces the gate |
| VideoTheorems.FramesAreWhole | custom_components/intratone/audio_bridge.py:495-522 | placeholder frames are never interleaved with real packets |
| VideoTheorems.KeyframeNeverDropped | custom_components/intratone/audio_bridge.py:624-672 | a keyframe start received on an open transport is always forwarded |
| VideoTheorems.FailureIsJustified | custom_components/intratone/audio_bridge.py:1284-1356 | `on_video_failure` fires at most once, and then ten PLIs are out, no keyframe was ever received and nothing real forwarded |
| VideoLaws.FailureExactly | custom_components/intratone/audio_bridge.py:1333-1356 | in every reached state `on_video_failure` is called if and only if the wait after the tenth PLI of the burst is over and no datagram received starts a keyframe |
| VideoLaws.PliSentExactly | custom_components/intratone/audio_bridge.py:1284-1400 | a PLI is sent if and only if one is due: the first once RTP has come, up to nine more while no keyframe has, then one per refresh; a keyframe ends the burst |
| VideoLaws.GateLaw | custom_components/intratone/audio_bridge.py:1358-1395 | between refreshes the gate is open, answered or not; in the burst and during a refresh it is open if and only if a keyframe has started since |
| VideoLaws.ForwardedExactly | custom_components/intratone/audio_bridge.py:551-672 | in every reached state a datagram is forwarded, as exactly one packet of its own, if and only if the transport is up and it is RTP that starts a keyframe, or the gate is open and the last packet sent was a real one; any other sends nothing |
| VideoLaws.TakeoverIsStamped | custom_components/intratone/audio_bridge.py:524-527 | the takeover is stamped with the clock, or one past the latest stamp if the clock is not past it |
| VideoLaws.PlaceholderFillsExactly | custom_components/intratone/audio_bridge.py:495-522 | a tick sends nothing if and only if the transport is down, or the last packet is a real one less than two seconds old; otherwise one whole frame, stamped with the clock or just past the latest stamp |
| VideoLaws.CountersAreRight | custom_components/intratone/audio_bridge.py:551-672 | the counters are the numbers of STUN requests, other datagrams that are not RTP, forwarded packets and placeholder frames |
| VideoRtpProtocol.VideoRtp.PlaceholderTick | custom_components/intratone/audio_bridge.py:495-522 | the timer method, with its loop over the packets of a frame, has exactly the effect of `Tick` |
| VideoRtpProtocol.VideoRtp.DatagramReceived | custom_components/intratone/audio_bridge.py:551-672 | the receive method has exactly the effect of `Datagram`, of which `ForwardedExactly` says what reaches ffmpeg |
| VideoRtpProtocol.VideoRtp.SendToFfmpeg | custom_components/intratone/audio_bridge.py:529-549 | one send advances the sequence number, the latest stamp and the log, and does nothing when closed |
| Vp8.DetectKeyframe | custom_components/intratone/audio_bridge.py:134-161 | the method that walks the descriptor never reads out of range and computes `IsKeyframe` |
| Vp8.KeyframeIffEncoded | custom_components/intratone/audio_bridge.py:134-161 | for any descriptor of section 4.2 of RFC 7741 and any frame: a keyframe start if and only if S=1, PID=0, frame tag bit 0 and at least 4 octets |
| Vp8.KeyframeOnlyEncoded | custom_components/intratone/audio_bridge.py:134-161 | conversely, every payload accepted is such an encoding |
| Vp8Placeholder.PacketsReassemble | custom_components/intratone/audio_bridge.py:75-79 | the placeholder packets reassemble to the frame, with S on the first only |
| AudioReceive.PayloadIsForwarded | custom_components/intratone/audio_bridge.py:217-331 | of every version-2 packet without padding, with any CSRC list and extension, exactly the payload is forwarded and it is counted under its type and SSRC |
| AudioReceive.CountsBalance | custom_components/intratone/audio_bridge.py:217-331 | packets received equal the sum of counts by payload type, by SSRC, and the payloads forwarded |
| AudioReceive.OneClassEach | custom_components/intratone/audio_bridge.py:217-331 | every datagram falls in exactly one class |
| AudioReceive.GapsAreLossRuns | custom_components/intratone/audio_bridge.py:217-331 | for in-order streams, interleaved and wrapping, `seq_gaps` is the number of loss runs of 1 to 999 |
| AudioReceive.RtpProtocol.DatagramReceived | custom_components/intratone/audio_bridge.py:217-331 | the receive method has exactly the effect of `Receive` |
| Stun.ResponseReadsBack | custom_components/intratone/stun.py:40-73 | an independent reader of the reply recovers the sender's address and the transaction id (section 15.2 of RFC 5389) |
| Stun.RequestIsNotRtp | custom_components/intratone/stun.py:32-37 | no datagram is both a Binding Request and RTP version 2 |
| Stun.RequestsAreRecognised | custom_components/intratone/stun.py:32-37 | the datagrams recognised are exactly the Binding Requests of section 6 of RFC 5389 with the cookie, whatever their length field, transaction id and attributes |
| Ulaw.Lin2Ulaw | dev/mock_asterisk.py:46-61 | the loop finds the segment of the biased magnitude and the octet is determined by sign, segment and mantissa |
| Ulaw.DecodeIsNear | dev/mock_asterisk.py:46-61 | for every integer sample the G.711 decode is within 2^(exponent+2) of the clipped sample |
| Ulaw.EncodingIsMonotone | dev/mock_asterisk.py:46-61 | a larger sample never decodes to a smaller value |
| SipFraming.FramesAppend | custom_components/intratone/sip_client.py:267-316 | framing what one read left together with the next read equals framing both at once |
| SipFraming.ChunkingDoesNotMatter | custom_components/intratone/sip_client.py:267-275 | two ways of cutting a stream into reads dispatch the same messages, in order, and leave the same buffer |
| SipFraming.NothingLost | custom_components/intratone/sip_client.py:289-300 | messages popped and remainder are the stream, octet for octet |
| SipFraming.MessagesHaveFour | custom_components/intratone/sip_client.py:289-300 | each pop removes at least four octets |
| SipFraming.Receiver.ExtractOneMessage | custom_components/intratone/sip_client.py:277-316 | the loop pops up to the first parseable message, or reports an incomplete buffer |
| SipFraming.Receiver.DataReceived | custom_components/intratone/sip_client.py:267-275 | one read dispatches exactly the parseable complete messages and keeps the rest |
| SipMessages.VideoLineIffOffered | custom_components/intratone/sip_client.py:820-848 | an SDP has an m=video line exactly when a video port is offered |
| SipHeaders.RequestsCarryTheirHeaders | custom_components/intratone/sip_client.py:753-955 | an independent reader of the octets of any request finds its request line and body and exactly the headers section 8.1.1 of RFC 3261 demands: one Via with its branch, Max-Forwards, From, To, Call-ID, a CSeq with its number and the method of its request line, Content-Length, and its routes in order |
| SipHeaders.ResponsesEchoTheRequest | custom_components/intratone/sip_client.py:957-975 | the same reader finds in every response all Via values in order, From, To, Call-ID and CSeq of the request, and the size of the body |
| SipSessions.InvitesShowTheirSession | custom_components/intratone/sip_client.py:753-848 | the same reader finds in every INVITE and re-INVITE exactly one Contact, which is our address, one of each session-timer header (RFC 4028), what we allow, and that the body is a session description |
| SipSessions.AnswersShowTheirSession | custom_components/intratone/sip_client.py:696-723 | the same of the 200 OK to a session refresh |
| SipSessions.MessagesAreText | custom_components/intratone/sip_client.py:890-932 | the body of a MESSAGE is announced as plain text |
| SipOffers.OfferReadsBack | custom_components/intratone/sip_client.py:820-848 | an independent reader of any session description of ours finds one audio description with the audio port and the three formats, and one of VP8 with the video port if and only if video is offered |
| SipOffers.OctetsShowTheOffer | custom_components/intratone/sip_client.py:753-848 | so does one that reads the octets of a whole INVITE, re-INVITE or answer |
| SipRoundTrip.DecRoundTrip | custom_components/intratone/sip_client.py:777-779 | decimal printing and reading of Content-Length are inverse |
| SipRoundTrip.FramedLength | custom_components/intratone/sip_client.py:289-300 | header lines without CR or LF that are not Content-Length, then Content-Length and any body, frame to exactly that header and body, whatever follows |
| SipRoundTrip.BuildersAndFramerAgree | custom_components/intratone/sip_client.py:753-975 | framing the concatenation of any list of messages of all builders gives back that list; bodies are arbitrary |
| SipRoutes.SplitRouteValues | custom_components/intratone/sip_client.py:148-163 | the loop computes the split at commas of bracket depth 0 |
| SipRoutes.JoinSplit | custom_components/intratone/sip_client.py:148-163 | joining the parts gives the line back, for every line |
| SipRoutes.SplitUndoesJoin | custom_components/intratone/sip_client.py:148-163 | splitting undoes joining if and only if no entry holds an open comma and all but the last close their brackets |
| SipRoutes.SplitDistributes | custom_components/intratone/sip_client.py:148-163 | two comma-joined lines split like the lines if and only if the first closes its brackets |
| SipRoutes.OneLineOrMany | custom_components/intratone/sip_client.py:131-145 | if all lines but the last close their brackets, routes on separate lines and comma-joined on one line give the same list |
| SipRoutes.ContactUriOf | custom_components/intratone/sip_client.py:983-993 | the URI between angle brackets is found whatever surrounds it |
| SipTranscript.EveryRunIsRegular | custom_components/intratone/sip_client.py:318-743 | over every run the transcript keeps to this client's own rules, written for an observer: ACKs have the branch of the latest INVITE, ACK and CANCEL the number of the latest request of any kind; and a live call has a transport and the CSeq, branch and dialog that observer would compute |
| SipTheorems.EveryRunIsLegal | custom_components/intratone/sip_client.py:318-932 | over every run: but for the ACKs of a 2xx, every act is one that sections 8.1.1.7, 9.1, 12.2.1.1 and 17.1.1.3 of RFC 3261 allow, in branches, CSeq numbers and dialog data, if and only if every request draws a new branch and no other ACK or CANCEL has a MESSAGE between the latest INVITE and it; with the ACKs of a 2xx, which sections 8.1.1.7 and 13.2.2.4 give a branch of their own and the credentials of the INVITE, if and only if moreover there is none |
| SipTheorems.UnansweredIsLegal | custom_components/intratone/sip_client.py:850-932 | the transcript of a call that no 2xx answers is one RFC 3261 allows, in that sense, if and only if no two requests draw the same branch |
| SipTheorems.NumbersHaveNoGap | custom_components/intratone/sip_client.py:353-517 | INVITE, MESSAGE and BYE carry CSeq 50, 51, 52, ... with no gap; at most two initial INVITEs and one re-INVITE |
| SipTheorems.AcksFollowTheLatestInvite | custom_components/intratone/sip_client.py:850-932 | every ACK and CANCEL carries the branch of the latest INVITE, and its CSeq if and only if no MESSAGE came in between |
| SipTheorems.CSeqMatchesBeforeConfirmed | custom_components/intratone/sip_client.py:850-932 | before the call is confirmed ACK and CANCEL carry their INVITE's CSeq |
| SipTheorems.AckAfterMessageDiffers | custom_components/intratone/sip_client.py:882-882 | a run in which a re-ACK after a MESSAGE has another CSeq than the INVITE |
| SipTheorems.FinalInviteAnswersAreAcked | custom_components/intratone/sip_client.py:521-651 | each final answer to an INVITE is acknowledged exactly once, with its own To, to the target sections 13.2.2.4 and 17.1.1.3 of RFC 3261 give; routes are the reversed Record-Route list. A refusal in a confirmed call with no re-INVITE pending is the code's own rule: the original target with the dialog's routes |
| SipTheorems.MessageAnswersChangeNothing | custom_components/intratone/sip_client.py:562-572 | no answer to a MESSAGE writes an ACK or changes any state |
| SipTheorems.CallbacksAreOrdered | custom_components/intratone/sip_client.py:683-743 | established fires at most once; nothing at all follows terminated |
| SipTheorems.LiveIffNotTerminated | custom_components/intratone/sip_client.py:736-743 | a call is live exactly from its first INVITE to its terminated callback, and always has a transport |
| SipTheorems.DialogRequestsShareTheDialog | custom_components/intratone/sip_client.py:781-955 | MESSAGE, BYE and re-INVITE come only after the first 2xx was acknowledged and share the Request-URI, To and routes that ACK showed |
| SipTheorems.DowngradeIsFinal | custom_components/intratone/sip_client.py:413-459 | from the audio-only re-INVITE on no SDP offers video, not even in answers to session refreshes |
| SipAnswers.ChallengeIsAnswered | custom_components/intratone/sip_client.py:599-632 | a call that was not challenged before answers a 401 or 407 by an ACK and, if there is a challenge and an answer to it, by the same offer in an INVITE with the next CSeq, a new branch and the answer, under Proxy-Authorization if and only if the message has Proxy-Authenticate, and stays live; otherwise it ends |
| SipCredentials.ServerAcceptsTheInvite | custom_components/intratone/sip_client.py:599-632 | end to end: the server that sent the challenge reads the octets of that INVITE, finds one header of credentials and accepts it for its challenge, the password and the method |
| SipAnswers.AcceptanceIsReported | custom_components/intratone/sip_client.py:634-694 | a 2xx before the call is established is acknowledged and, if its SDP can be read, reported with the endpoints of the answer, video if and only if it was offered and answered; otherwise the call ends |
| SipAnswers.RefusalEndsTheCall | custom_components/intratone/sip_client.py:537-597 | a refusal ends the call after its ACK unless a re-INVITE is pending, which it and any 2xx only settle |
| SipAnswers.OtherAnswersAreIgnored | custom_components/intratone/sip_client.py:537-572 | a refusal of another method changes nothing in any state, nor does a later 2xx that is not to an INVITE |
| SipAnswers.EndClosesTheTransport | custom_components/intratone/sip_client.py:736-743 | in every run the transport is closed if and only if the call has ended |
| SipAnswers.RequestIsAnswered | custom_components/intratone/sip_client.py:696-734 | each BYE, INVITE and MESSAGE of the server gets one 200 OK to that very request, the INVITE with the latest offer; a BYE ends the call, nothing else changes it |
| SipAnswers.AnswerOctetsEcho | custom_components/intratone/sip_client.py:957-975 | the octets of that answer show the Via values, From, To, Call-ID and CSeq of the request |
| SipAnswers.OthersAreIgnored | custom_components/intratone/sip_client.py:318-328 | after the end, or with the Call-ID of another call, no message does anything |
| SipAnswers.MessageIsSentExactly | custom_components/intratone/sip_client.py:477-503 | a MESSAGE with the text asked for goes out if and only if the call is established, is the one asked for and its 2xx had a To |
| SipAnswers.DowngradeIsSentExactly | custom_components/intratone/sip_client.py:413-459 | the re-INVITE for audio alone goes out if and only if the call is established, is the one asked for and its latest offer has video |
| SipAnswers.HangUpEndsTheCall | custom_components/intratone/sip_client.py:505-517 | hanging up the live call writes a BYE if it is established and else a CANCEL of its INVITE, and ends it; with another id nothing |
| SipAnswers.DialAndLoss | custom_components/intratone/sip_client.py:353-386 | `call` writes the first INVITE with the ports asked for if and only if there is a transport and no call; a lost connection ends the call |
| SipClient.IntratoneSipClient.StartCall | custom_components/intratone/sip_client.py:353-386 | raises without a transport or during a call, else writes the first INVITE |
| SipClient.IntratoneSipClient.SendInDialogMessage | custom_components/intratone/sip_client.py:477-503 | writes one MESSAGE in a confirmed dialog, else nothing, and reports which |
| SipClient.IntratoneSipClient.SendReinviteAudioOnly | custom_components/intratone/sip_client.py:413-459 | drops the video port and writes one re-INVITE, else nothing, and reports which |
| SipClient.IntratoneSipClient.Hangup | custom_components/intratone/sip_client.py:505-517 | BYE in a confirmed call, CANCEL before, then termination |
| SipClient.IntratoneSipClient.HandleChallenge | custom_components/intratone/sip_client.py:599-632 | the method has exactly the effect that `ChallengeIsAnswered` describes: ACK, then an authenticated INVITE or termination |
| SipClient.IntratoneSipClient.HandleAccepted | custom_components/intratone/sip_client.py:634-694 | dialog data are captured before the ACK; an unreadable SDP terminates |
| SipClient.IntratoneSipClient.HandleAnswer | custom_components/intratone/sip_client.py:521-597 | the routing of responses by state, code and CSeq method |
| SipClient.IntratoneSipClient.DispatchMessage | custom_components/intratone/sip_client.py:318-349 | dispatch by Call-ID and method |
| SipClient.IntratoneSipClient.TerminateCall | custom_components/intratone/sip_client.py:736-743 | the call is dropped, reported once, and the transport closed |
| Digest.PartsReadBack | custom_components/intratone/digest_auth.py:32-48 | any list of parameters, quoted or plain, reads back as those parameters |
| Digest.BuildAuthorization | custom_components/intratone/digest_auth.py:61-115 | an answer exists if and only if the algorithm is MD5 and qop is absent or offers auth; its text is the joined parameter list |
| Digest.AnswerReadsBack | custom_components/intratone/digest_auth.py:37-115 | parsing the answer returns realm, nonce and opaque of the challenge, and the server finds user, URI and the response of RFC 7616 |
| DigestServer.ServerAccepts | custom_components/intratone/digest_auth.py:61-115 | a server that sent the challenge reads the answer, finds its realm, nonce, opaque and a qop it offered, recomputes the response from what it read and the password, and accepts |
| DigestServer.ChallengeReadsBack | custom_components/intratone/digest_auth.py:37-58 | a challenge with any parameters in any order is read as the realm, nonce, qop and opaque among them, with MD5 if no algorithm is given; refused if and only if realm or nonce is missing |
| PortBinding.Host.BindRtpSocket | custom_components/intratone/call_manager.py:77-95 | the lowest free even port; all other sockets it opened are closed; failure only if none is free |
| PortBinding.Host.BindRtpPair | custom_components/intratone/call_manager.py:98-124 | the lowest even port free with its successor; all other sockets it opened are closed; failure only if there is no such pair |
| CallTimers.NothingIsPublishedTooLate | custom_components/intratone/call_manager.py:541-579 | in every interleaving `on_call_active` never follows `on_call_ended` of the call, nor the end of `async_stop` |
| CallTimers.TimersKeepToTheirCall | custom_components/intratone/call_manager.py:325-336 | in every interleaving the steps of a timer of call a hang up and clear only a and only while a is active, end only a and only when it is not, and publish nothing |
| CallTimers.PublishedOnlyWhileActive | custom_components/intratone/call_manager.py:546-575 | in every interleaving a URL is published only for the call that is active at that step, and only while the manager has started |
| CallTimers.TimersLeaveOtherCallsAlone | custom_components/intratone/call_manager.py:481-489 | when a timer of call a wakes up all other dialogs stay, and the active call stays unless it is a |
| CallLaws.TapBindsExactly | custom_components/intratone/call_manager.py:221-268 | in every run a tap that connects binds one new audio socket and, if and only if video is enabled, two new ones for video, and starts one connect; any other tap binds nothing |
| CallLaws.FailedConnectLeavesNothing | custom_components/intratone/call_manager.py:277-302 | a connect that fails closes exactly the pending sockets and re-arms the invite |
| CallLaws.ConnectPlacesTheCall | custom_components/intratone/call_manager.py:303-323 | a connect that succeeds places one tracked call with its timer; a prewarm is asked for if and only if video was bound and no bridge runs |
| CallLaws.EstablishedSchedules | custom_components/intratone/call_manager.py:429-439 | the first report that a live call is established schedules its startup if and only if it is the active call |
| CallLaws.StartupTakesItsSockets | custom_components/intratone/call_manager.py:491-532 | in every run a startup whose answer has video enters `bridge.start()` with all pending sockets, all open; if the answer rejected video it holds the open audio socket alone and the video sockets are closed; no other socket is touched |
| CallLaws.StartupWithoutSocketHangsUp | custom_components/intratone/call_manager.py:497-511 | a startup without an audio socket closes the video sockets and hangs up |
| CallLaws.StartupPublishes | custom_components/intratone/call_manager.py:550-575 | a `start()` that made its bridge and was neither cancelled nor overtaken has it up with its sockets, and publishes the URL if and only if the manager runs and the call is still active; else it stops the bridge again |
| CallLaws.OvertakenStartupUnwinds | custom_components/intratone/call_manager.py:533-544 | a `start()` that was cancelled or overtaken by a `stop()` closes its sockets and ends quietly |
| CallLaws.FailedStartupHangsUp | custom_components/intratone/call_manager.py:545-549 | a `start()` that fails hangs its call up if the client can |
| CallLaws.DialogEndsExactly | custom_components/intratone/call_manager.py:454-479 | the end of the active call starts its grace timer, cancels the others, closes exactly the pending sockets and cleans up an unused prewarm; bridge, URL and coordinator stay |
| CallLaws.MaxHangsUp | custom_components/intratone/call_manager.py:325-336 | the max-duration timer hangs up if and only if its call is active and the client can |
| CallLaws.GraceBeginsTheTeardown | custom_components/intratone/call_manager.py:481-489 | the grace timer of the active call makes it inactive and begins to stop the bridge; its end is reported at once if and only if there is nothing to wait for |
| CallLaws.CancelledTasksEnd | custom_components/intratone/call_manager.py:440-489 | a startup cancelled before it ran does nothing; a startup or teardown cancelled inside `stop()` ends there, reports nothing and puts a prewarm it had taken back |
| CallLaws.PushHangsUp | custom_components/intratone/call_manager.py:402-421 | a push during a startup cancels the timers and that startup, hangs up and closes exactly the pending sockets |
| CallLaws.AbortEndsTheCall | custom_components/intratone/call_manager.py:422-424 | an abort is over as soon as its `stop()` has nothing to wait for; then no call is active, the end is reported and the URL gone |
| CallLaws.StopLeavesNothing | custom_components/intratone/call_manager.py:189-204 | when `async_stop` is done no call is active, no client, no pending socket open and no timer of the manager runs |
| CallAttendance.AttendanceIsLostExactly | custom_components/intratone/call_manager.py:384-579 | in every interleaving a step leaves the bridge up for a call that is not active, with no `stop()` of any task that has yet to close it, if and only if a second connect replaces the call whose bridge is up, the end of the active call cancels the only teardown that had yet to close the bridge of an earlier one, or an abort or `async_stop` ends that had closed an earlier bridge while a new one came up |
| CallAttendance.StaleBridgeIsStopped | custom_components/intratone/call_manager.py:546-558 | in every interleaving without those four, a bridge that is up for a call that is not active has a stop that will still close it: of its startup, a teardown, an abort or `async_stop` |
| CallTeardowns.BridgeFallsExactly | custom_components/intratone/audio_bridge.py:1400-1474 | in every state, an event other than the end of a startup takes the bridge down and closes its sockets if and only if the `stop()` of some task begins with no prewarm and no cleanup pending, or has just seen the last of them go; a `stop()` that waits for ffmpeg never touches what came up since |
| CallTeardowns.BridgeStays | custom_components/intratone/audio_bridge.py:1400-1474 | along any stretch of a run in which no such event and no end of a startup happens, the bridge stays as it is |
| CallTeardowns.EndedUnlessCut | custom_components/intratone/call_manager.py:474-489 | in every interleaving a teardown ends by reporting `on_call_ended` if and only if nothing cancelled it while it was suspended |
| CallLimits.CallIsReplaced | custom_components/intratone/call_manager.py:270-303 | a run in which two connects overlap and leave a bridge that nothing will close |
| CallLimits.TeardownIsCut | custom_components/intratone/call_manager.py:474-479 | a run in which the end of the third call cancels the teardown of the second while it waits for a prewarm, so that nothing will close the second call's bridge |
| CallLimits.CallIsForgotten | custom_components/intratone/call_manager.py:384-424 | a run with two pushes in a row, in which the slower abort makes the next call inactive while its bridge is up |
| CallLimits.EndedIsLost | custom_components/intratone/call_manager.py:474-489 | a run in which a teardown is cancelled while it waits for ffmpeg: the bridge is closed, and `on_call_ended` never comes |
| LazyInvite.OneCallPerRing | custom_components/intratone/coordinator.py:257-314 | in every interleaving, for each ring at most one `start_call` is in flight or has succeeded; `/answer` is sent once for the one that succeeds, right after it, else never |
| LazyInvite.FailedConnectsRearm | custom_components/intratone/coordinator.py:284-299 | unless a connect is in flight or succeeded, the next tap on the ring starts a connect again |
| CallOrder.OrderlyRunsStay | custom_components/intratone/call_manager.py:221-579 | in every orderly run the manager is idle, dialing, in a call, aborting or tearing down, each with the fields that stage allows |
| CallTheorems.UrlBelongsToTheTrackedCall | custom_components/intratone/coordinator.py:335-358 | whenever a stream URL is set the coordinator's SIP id is its call, and that call is active or its teardown is stopping the bridge; the pipeline was started by that very call and is up, unless that call's own `stop()` has just closed it and waits for ffmpeg |
| CallLeaks.CompletionsClear | custom_components/intratone/coordinator.py:179-250 | along an orderly run a new ring, a cancel and a grace expiry end with no stream URL, and with a socket open if and only if an ffmpeg spawn failed while its startup held it |
| CallLeaks.SocketsAreConserved | custom_components/intratone/call_manager.py:206-302 | along an orderly run every open socket is in exactly one of pending field, startup and bridge, unless an ffmpeg spawn failed while its startup held it; that one, and every closed one, is in none |
| CallLeaks.LeaksAreAccounted | custom_components/intratone/call_manager.py:221-579 | in every interleaving no socket is in two places and what is held is open; a socket is open with nothing to refer to it if and only if an earlier event left it so: a startup whose ffmpeg spawn failed held it, a startup brought it to a running bridge, a second tap overwrote it in the pending fields, or a startup overwrote it in a bridge whose ffmpeg had died |
| CallLeaks.LeaksAreFailedSpawns | custom_components/intratone/call_manager.py:545-549 | along an orderly run a socket has leaked if and only if some call's ffmpeg spawn failed while its startup held it |
| CallLeaks.AllClosedUnlessSpawnFailed | custom_components/intratone/call_manager.py:206-302 | along an orderly run, with no call left, all media sockets are closed if and only if no call's ffmpeg spawn failed |
| CallLimits.FailedSpawnLeaks | custom_components/intratone/call_manager.py:545-549 | an orderly run that leaks a socket |
| CallLimits.SecondTapLeaks | custom_components/intratone/call_manager.py:251-253 | a run in which a second tap overwrites the pending socket of the first, which stays open |
| CallLimits.StreamOfAnotherCall | custom_components/intratone/call_manager.py:522-575 | a run in which the third call publishes the pipeline of the second, and its own socket leaks |
| CallTheorems.StartFindsAStoppedBridge | custom_components/intratone/call_manager.py:522-532 | in orderly runs `bridge.start()` is only called on a stopped bridge, with no other start and no stop of any task in flight |
| CallTheorems.PrewarmFindsNoStart | custom_components/intratone/call_manager.py:303-310 | in orderly runs the prewarm at the end of a connect meets no start and no running bridge |
| CallRings.RingDuringTeardownIsForgotten | custom_components/intratone/call_manager.py:486-489 | the invite of a ring that arrives during a teardown is gone at the end of that teardown if and only if the coordinator still tracks its call |
| CallRings.ParkedUntilItLeaves | custom_components/intratone/coordinator.py:179-358 | over every run a parked invite is still parked if and only if no cancel, no later ring and no end of the tracked call's teardown came since |
| CallLimits.RingIsForgotten | custom_components/intratone/call_manager.py:486-489 | a run, with every hypothesis but that on pushes kept, in which a ring during the last call's teardown loses its invite |
| CallLimits.UrlOutlivesBridge | custom_components/intratone/call_manager.py:384-489 | a run in which only the grace timer is late: the abort of a video call waits for a startup that puts its prewarm back, the teardown takes that prewarm and waits for it, and once it is gone closes the bridge behind the URL of the next call |
| CallManagerObject.Coordinator.SetStreamUrl | custom_components/intratone/coordinator.py:335-358 | only the tracked call's URL is set; clearing it clears the tracker and the invite |
| CallManagerObject.CallManager.ClosePendingSockets | custom_components/intratone/call_manager.py:206-219 | closes exactly the pending sockets and nulls the fields |
| CallManagerObject.CallManager.EnsureCallStarted | custom_components/intratone/coordinator.py:265-283 | a tap up to the TCP connect, guards included |
| CallManagerObject.CallManager.StartCallResumes | custom_components/intratone/call_manager.py:277-323 | the three ends of a connect, and what the tap does with each |
| CallManagerObject.CallManager.HandleCallTerminated | custom_components/intratone/call_manager.py:454-479 | timers, pending sockets and the client are dropped and the grace task starts, for the active call only |
| CallManagerObject.CallManager.SpawnBridge | custom_components/intratone/call_manager.py:491-532 | the method has exactly the effect that `StartupTakesItsSockets` and `StartupWithoutSocketHangsUp` describe |
| CallManagerObject.CallManager.SpawnBridgeResumes | custom_components/intratone/call_manager.py:533-575 | publish, stop the stale bridge, or hang up; a cancelled startup closes its sockets, a failed ffmpeg spawn leaves them open and unreferenced |
| CallManagerObject.CallManager.TeardownBridgeAfterGrace | custom_components/intratone/call_manager.py:481-489 | acts only if its call is still the active one; then everything is closed before the first await of `stop()` unless a prewarm or its cleanup is pending |
| CallManagerObject.CallManager.TeardownBridgeResumes | custom_components/intratone/call_manager.py:486-489 | the teardown behind an await of `stop()`: cancelled, waiting again, or done and reported |
| CallManagerObject.CallManager.StopBridge | custom_components/intratone/audio_bridge.py:1400-1474 | `stop()` up to its first await: it takes the prewarm, else the cleanup, else closes everything |
| CallManagerObject.CallManager.StopGoesOn | custom_components/intratone/audio_bridge.py:1408-1500 | `stop()` from one await to the next |
| CallManagerObject.CallManager.AutoTerminate | custom_components/intratone/call_manager.py:325-336 | hangs up only if its call is still the active one |
| CallManagerObject.CallManager.AbortActiveCall | custom_components/intratone/call_manager.py:384-424 | an abort up to its first await, which is the startup it cancelled or what `stop()` waits for, and to its end if there is neither |
| CallManagerObject.CallManager.AbortResumes | custom_components/intratone/call_manager.py:422-424 | `stop()` inside an abort goes on, and at its end the call is ended and the push handler continues |
| CallManagerObject.CallManager.AsyncStopResumes | custom_components/intratone/call_manager.py:189-204 | `stop()` inside `async_stop` goes on, and at its end what is left is cleared and closed |

## Left out

- Stretches without a method form: in `AudioBridgeObject.AudioBridge` the cancellation of `start()` and what the interrupted await leaves, the failure of an endpoint, and the ends of `stop()`, its timeout and a cleanup task exist as transitions only.
- Coroutines: `AudioBridge`, `CallManager` and `_pli_loop` are proved as step machines on values; the classes `AudioBridgeObject.AudioBridge` and `CallManagerObject.CallManager` give their stretches between awaits imperatively, with the program counters of suspended tasks as fields. The classes do not capture how the event loop resumes a task, and the PLI loop and the silence loop have no class form.
- `create_subprocess_exec` cancelled by the operating system: assumed to reap what it had begun to create.
- Cancelling a `stop()` that is in progress: the bridge's theorems leave it out. In the call flow it puts back the prewarm it waited on, and what it closed stays closed; an ffmpeg that only the cancelled `stop()` or cleanup still knew is not followed.
- LeaksAreAccounted: a `start()` that enters while another `start()` or an unfinished `stop()` is in flight is modelled by its own end only, not by the bridge attributes the two would share, and a `start()` that a `stop()` overtook closes its sockets when it unwinds rather than in the `stop()`.
- AttendanceIsLostExactly: the same holds here; and no run is given for the fourth interleaving, the end of an `async_stop`.
- A second `async_start` after `async_stop`: setup calls it once.
- Cancelling a tap while its TCP connect is suspended: no event of the model does that.
- `_bind_rtp_socket` and `_bind_rtp_pair` failing inside `start_call`: the call flow assumes they succeed.
- `_sip_transport` of the call manager: it is set and cleared together with `_sip_client`.
- `hang_up` of `CallManager`: it has no production caller.
- ffmpeg's arguments, its stderr, go2rtc probes, real sockets: resources with an open or closed state.
- The media SSRC a PLI names, the statistics logged, packet sizes and redaction.
- `SipMessage.parse_sip`, `get_rtp_info`, MD5 and the video endpoint regex: arbitrary functions or event data.
- The line regexes that find Via and Record-Route headers: the model starts from the header values.
- Unicode white space and digits in Python's `\s` and `\d`, non-ASCII case folding, and Python's limit on the digits of an integer.
- Branches, tags and Call-IDs are drawn by the events, so two requests may draw the same branch; `EveryRunIsLegal` says what that costs.
- EveryRunIsLegal: RFC 3261 is represented by the sections its row names; transactions, timers and header syntax are not, nor is the retransmission of anything.
- Pushes that are not a ring or a matching cancel (`unregister`, a cancel for another ring): they touch no call and are no events.
- Time is counted in ticks of the 90 kHz clock; rounding of floating-point seconds is not modelled.
- `rest_api.py`, `fcm_listener.py`, `store.py`, `config_flow.py`, `repairs.py`, `app_credentials.py`, `diagnostics.py` and the Home Assistant entities: single-branch plumbing.
- The rest of `dev/mock_asterisk.py`: a development aid.
