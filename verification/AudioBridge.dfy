/** The audio bridge in the form the program gives it: an object whose attributes every task of it
    nulls and reassigns. A method runs one task from one `await` to the next, and is proved to do
    what the transition of the same stretch does. */
module AudioBridgeObject {
  import opened Basics
  import opened BridgeState

  /** A media socket with the protocol and transport attributes that may refer to it. */
  class Channel {
    var sock: Sock
    var ready: bool
    var attached: bool
    var proto: bool
    var transport: bool

    function Value(): Media
      reads this
    {
      Media(sock, ready, attached, proto, transport)
    }

    constructor ()
      ensures Value() == NoMedia
    {
      sock, ready, attached, proto, transport := Absent, false, false, false, false;
    }

    method Reset(m: Media)
      modifies this
      ensures Value() == m
    {
      sock, ready, attached, proto, transport := m.sock, m.ready, m.attached, m.proto, m.transport;
    }

    /** Closing a transport closes the socket it wraps. */
    method CloseTransport()
      modifies this`sock
      ensures sock == if old(sock) == Wrapped then Closed else old(sock)
    {
      if sock == Wrapped { sock := Closed; }
    }

    /** Close and null the protocol, then the transport. */
    method Sweep()
      modifies this
      ensures Value() == SweepMedia(old(Value()))
    {
      if proto {
        if attached { CloseTransport(); }
        attached := false;
      }
      proto := false;
      if transport { CloseTransport(); }
      transport := false;
    }

    /** `sock.close()` on a handed-in socket. */
    method CloseHandedIn()
      modifies this
      ensures Value() == BridgeState.CloseRaw(old(Value()))
    {
      if sock != Absent { sock := Closed; }
    }

    method WrapSocket()
      modifies this
      ensures Value() == BridgeState.Wrap(old(Value()))
    {
      if sock == Raw { sock := Wrapped; }
      proto := true;
    }
  }

  class AudioBridge {
    var generation: nat
    var snapshot: nat
    var videoEnabled: bool
    var procs: seq<Proc>
    var prewarmTask: Option<nat>
    var cleanupTask: Option<nat>
    var process: Option<nat>
    var pushReady: Option<nat>
    var pliTask: bool
    var pliLive: bool
    var statsTask: bool
    var statsLive: bool
    const rtp: Channel
    const videoRtp: Channel
    const videoRtcp: Channel
    // where start() and the stop and cleanup tasks are suspended
    var startPc: StartPc
    var tasks: seq<TaskPc>
    var yanked: bool

    ghost predicate Valid()
    {
      rtp != videoRtp && rtp != videoRtcp && videoRtp != videoRtcp
    }

    ghost function View(): Bridge
      reads this, rtp, videoRtp, videoRtcp
    {
      Bridge(generation, snapshot, videoEnabled, procs, prewarmTask, cleanupTask, process, pushReady,
             pliTask, pliLive, statsTask, statsLive, rtp.Value(), videoRtp.Value(), videoRtcp.Value(),
             startPc, tasks, yanked)
    }

    constructor ()
      ensures Valid() && View() == Fresh(0)
    {
      generation, snapshot, videoEnabled, procs := 0, 0, false, [];
      prewarmTask, cleanupTask, process, pushReady := None, None, None, None;
      pliTask, pliLive, statsTask, statsLive := false, false, false, false;
      rtp := new Channel();
      videoRtp := new Channel();
      videoRtcp := new Channel();
      startPc, tasks, yanked := Idle, [], false;
    }

    method CheckRunning() returns (b: bool)
      ensures b == IsRunning(View()) && (b ==> process.Some? && process.value < |procs|)
    {
      b := process.Some? && process.value < |procs| && procs[process.value].status in {Running, Doomed};
    }

    method SetStatus(p: nat, st: Status)
      modifies this`procs
      ensures View() == WithStatus(old(View()), p, st)
    {
      if p < |procs| { procs := procs[p := procs[p].(status := st)]; }
    }

    // ---------- prewarm ----------

    /** `prewarm` */
    method Prewarm(video: bool)
      modifies this
      ensures View() == BeginPrewarm(old(View()), video)
    {
      hide IsRunning;
      var running := CheckRunning();
      if running || prewarmTask.Some? { return; }
      prewarmTask := Some(|procs|);
      procs := procs + [Proc(video, Spawning)];
    }

    /** `cancel_prewarm` */
    method CancelPrewarm()
      modifies this
      ensures View() == BeginCleanup(old(View()))
    {
      var task := prewarmTask;
      prewarmTask := None;
      if task.None? { return; }
      cleanupTask := Some(|tasks|);
      tasks := tasks + [CleanWait(task.value)];
    }

    // ---------- unwinding ----------

    method CancelPli()
      modifies this`pliTask, this`pliLive
      ensures View() == old(View()).(pli := false, pliLive := old(pliLive) && !old(pliTask))
    {
      if pliTask { pliLive := false; }
      pliTask := false;
    }

    /** Close and null the three pairs of protocol and transport. */
    method SweepChannels()
      requires Valid()
      modifies rtp, videoRtp, videoRtcp
      ensures rtp.Value() == SweepMedia(old(rtp.Value()))
      ensures videoRtp.Value() == SweepMedia(old(videoRtp.Value()))
      ensures videoRtcp.Value() == SweepMedia(old(videoRtcp.Value()))
    {
      hide SweepMedia;
      rtp.Sweep();
      videoRtp.Sweep();
      videoRtcp.Sweep();
    }

    /** `sock.close()` on the handed-in sockets the flags name. */
    method CloseHandedIn(a: bool, v: bool, r: bool)
      requires Valid()
      modifies rtp, videoRtp, videoRtcp
      ensures rtp.Value() == if a then BridgeState.CloseRaw(old(rtp.Value())) else old(rtp.Value())
      ensures videoRtp.Value() == if v then BridgeState.CloseRaw(old(videoRtp.Value())) else old(videoRtp.Value())
      ensures videoRtcp.Value() == if r then BridgeState.CloseRaw(old(videoRtcp.Value())) else old(videoRtcp.Value())
    {
      hide BridgeState.CloseRaw;
      if a { rtp.CloseHandedIn(); }
      if v { videoRtp.CloseHandedIn(); }
      if r { videoRtcp.CloseHandedIn(); }
    }

    method NoteYanked(a: bool, v: bool, r: bool)
      modifies this`yanked
      ensures yanked == (old(yanked) || (a && rtp.sock == Wrapped) || (v && videoRtp.sock == Wrapped)
                         || (r && videoRtcp.sock == Wrapped))
    {
      yanked := yanked || (a && rtp.sock == Wrapped) || (v && videoRtp.sock == Wrapped) || (r && videoRtcp.sock == Wrapped);
    }

    /** The part of `_unwind_partial_start` before its await; the flags say which handed-in sockets
        it is given. */
    method SweepPartialStart(a: bool, v: bool, r: bool)
      requires Valid()
      modifies this, rtp, videoRtp, videoRtcp
      ensures View() == UnwindSweep(old(View()), a, v, r)
    {
      hide SweepMedia, BridgeState.CloseRaw;
      CancelPli();
      SweepChannels();
      ghost var s := old(View());
      assert View() == s.(pli := false, pliLive := s.pliLive && !s.pli, audio := SweepMedia(s.audio),
                          video := SweepMedia(s.video), rtcp := SweepMedia(s.rtcp));
      NoteYanked(a, v, r);
      CloseHandedIn(a, v, r);
    }

    /** `process.kill()`, then the wait for the process. */
    method KillAndWait(p: nat, pc: StartPc)
      requires p < |procs|
      modifies this
      ensures View() == WithStatus(old(View()).(process := None), p, Doomed).(start := pc)
    {
      process := None;
      procs := procs[p := procs[p].(status := Doomed)];
      startPc := pc;
    }

    method Finish(outcome: Outcome)
      modifies this
      ensures View() == old(View()).(process := None, pushEvent := None, start := Finished(outcome))
    {
      process := None;
      pushReady := None;
      startPc := Finished(outcome);
    }

    /** `_kill_ffmpeg_now`, up to its wait for the process if there is one to reap; and what
        follows it in the unwinding if there is none. */
    method KillFfmpegNow(inHandler: bool, outcome: Outcome)
      modifies this
      ensures View() == KillNow(old(View()), inHandler, outcome)
    {
      hide SameCall, IsRunning, WithStatus;
      var running := CheckRunning();
      if running {
        KillAndWait(process.value, if inHandler then CleaningUp(process.value) else Unwinding(process.value, outcome));
      } else {
        Finish(outcome);
      }
    }

    /** `_unwind_partial_start` */
    method UnwindPartialStart(a: bool, v: bool, r: bool, outcome: Outcome)
      requires Valid()
      modifies this, rtp, videoRtp, videoRtcp
      ensures View() == Unwind(old(View()), a, v, r, outcome)
    {
      hide UnwindSweep, KillNow;
      SweepPartialStart(a, v, r);
      KillFfmpegNow(false, outcome);
    }

    /** The `except CancelledError` handler of `start()`. */
    method HandleCancel()
      requires Valid()
      modifies this, rtp, videoRtp, videoRtcp
      ensures View() == CancelHandler(old(View()))
    {
      hide UnwindSweep, KillNow;
      SweepPartialStart(true, true, true);
      KillFfmpegNow(true, Cancelled);
    }

    // ---------- start() ----------

    /** `start()` to its first suspension. */
    method Start(videoSocket: bool, videoRemote: bool, rtcpSocket: bool)
      requires Valid()
      modifies this, rtp, videoRtp, videoRtcp
      ensures View() == StartEntry(old(View()), videoSocket, videoRemote, rtcpSocket)
    {
      hide OnDemand, IsRunning, View, Channel.Value;
      var running := CheckRunning();
      TakeSockets(videoSocket, rtcpSocket);
      if running {
        ReturnUrl();
        return;
      }
      BeginStart(videoSocket && videoRemote);
    }

    method ReturnUrl()
      modifies this`startPc
      ensures View() == old(View()).(start := Finished(Url))
    {
      startPc := Finished(Url);
    }

    method TakeSockets(videoSocket: bool, rtcpSocket: bool)
      requires Valid()
      modifies rtp, videoRtp, videoRtcp
      ensures View() == old(View()).(audio := RawMedia, video := if videoSocket then RawMedia else NoMedia,
                                     rtcp := if rtcpSocket then RawMedia else NoMedia)
    {
      rtp.Reset(RawMedia);
      videoRtp.Reset(if videoSocket then RawMedia else NoMedia);
      videoRtcp.Reset(if rtcpSocket then RawMedia else NoMedia);
    }

    method NoteVideo(video: bool)
      modifies this`snapshot, this`videoEnabled
      ensures View() == old(View()).(snapshot := old(generation), videoEnabled := video)
    {
      snapshot := generation;
      videoEnabled := video;
    }

    /** `_do_start` on a bridge that is not running, to its first suspension. */
    method BeginStart(video: bool)
      modifies this
      ensures var v := old(View());
        var s := v.(snapshot := v.generation, videoEnabled := video);
        View() == if s.prewarm.Some? then s.(prewarm := None, start := AwaitPrewarm(s.prewarm.value)) else OnDemand(s)
    {
      hide OnDemand;
      NoteVideo(video);
      var task := prewarmTask;
      prewarmTask := None;
      if task.Some? {
        startPc := AwaitPrewarm(task.value);
      } else {
        SpawnOnDemand();
      }
    }

    method SpawnOnDemand()
      modifies this
      ensures View() == OnDemand(old(View()))
    {
      var p := |procs|;
      procs := procs + [Proc(videoEnabled, Spawning)];
      pushReady := Some(p);
      startPc := AwaitSpawn(p);
    }

    /** After the prewarm was consumed: adopt it, discard it, or spawn on demand. */
    method AdoptOrSpawn(p: nat)
      requires Valid()
      modifies this, rtp, videoRtp, videoRtcp
      ensures View() == Consumed(old(View()), p)
    {
      hide OnDemand, AfterSpawn, WithStatus;
      if !(p < |procs| && procs[p].status in {Running, Doomed}) {
        SpawnOnDemand();
      } else if procs[p].video == videoEnabled {
        process := Some(p);
        pushReady := Some(p);
        CheckAfterSpawn();
      } else {
        SetStatus(p, Doomed);
        startPc := AwaitDiscard(p);
      }
    }

    /** The checkpoint after the ffmpeg spawn. */
    method CheckAfterSpawn()
      requires Valid()
      modifies this, rtp, videoRtp, videoRtcp
      ensures View() == AfterSpawn(old(View()))
    {
      hide Unwind, BridgeState.Wrap;
      if generation != snapshot {
        UnwindPartialStart(true, true, true, Stopped);
      } else {
        rtp.WrapSocket();
        startPc := AwaitAudio;
      }
    }

    /** `self._rtp_transport, _ = await create_datagram_endpoint(...)` returns. */
    method AudioConnected()
      requires Valid()
      modifies this, rtp, videoRtp, videoRtcp
      ensures var s := old(View()); View() == AfterAudio(s.(audio := s.audio.(transport := true)))
    {
      hide AfterAudio;
      rtp.transport := true;
      CheckAfterAudio();
    }

    /** The same for the video endpoint. */
    method VideoConnected()
      requires Valid()
      modifies this, rtp, videoRtp, videoRtcp
      ensures var s := old(View()); View() == AfterVideo(s.(video := s.video.(transport := true)))
    {
      hide AfterVideo;
      videoRtp.transport := true;
      CheckAfterVideo();
    }

    /** The checkpoint after the audio endpoint. */
    method CheckAfterAudio()
      requires Valid()
      modifies this, rtp, videoRtp, videoRtcp
      ensures View() == AfterAudio(old(View()))
    {
      hide Unwind, BridgeState.Wrap;
      if generation != snapshot {
        UnwindPartialStart(false, true, true, Stopped);
      } else if videoEnabled {
        videoRtp.WrapSocket();
        startPc := AwaitVideo;
      } else {
        startPc := AwaitPush;
      }
    }

    /** After the video endpoint: the RTCP endpoint, or its socket closed, and the checkpoint. */
    method CheckAfterVideo()
      requires Valid()
      modifies this, rtp, videoRtp, videoRtcp
      ensures View() == AfterVideo(old(View()))
    {
      hide VideoCheckpoint, BridgeState.Wrap, BridgeState.CloseRaw;
      if videoRtp.proto && videoRtcp.sock != Absent {
        videoRtcp.WrapSocket();
        startPc := AwaitRtcp;
        return;
      }
      videoRtcp.CloseHandedIn();
      CheckVideo();
    }

    /** The checkpoint after the video endpoints. */
    method CheckVideo()
      requires Valid()
      modifies this, rtp, videoRtp, videoRtcp
      ensures View() == VideoCheckpoint(old(View()))
    {
      hide Unwind;
      if generation != snapshot {
        UnwindPartialStart(false, false, false, Stopped);
      } else {
        startPc := AwaitPush;
      }
    }

    /** The checkpoint after the wait for the push. */
    method CheckAfterPush()
      requires Valid()
      modifies this, rtp, videoRtp, videoRtcp
      ensures View() == AfterPush(old(View()))
    {
      hide Unwind;
      if generation != snapshot {
        UnwindPartialStart(false, false, false, Stopped);
      } else {
        statsTask, statsLive := true, true;
        startPc := Finished(Url);
      }
    }

    // ---------- stop() ----------

    /** `stop()` to its first suspension. */
    method Stop()
      requires Valid()
      modifies this, rtp, videoRtp, videoRtcp
      ensures View() == BeginStop(old(View()))
    {
      hide StopAfterDiscard;
      var k := |tasks|;
      generation := generation + 1;
      tasks := tasks + [StopDone];
      var task := prewarmTask;
      prewarmTask := None;
      if task.Some? {
        tasks := tasks[k := StopPrewarm(task.value)];
        return;
      }
      StopAfterAbortingPrewarm(k);
    }

    /** The end of `_abort_prewarm` inside `stop()`. */
    method StopAfterAbortingPrewarm(k: nat)
      requires Valid() && k < |tasks|
      modifies this, rtp, videoRtp, videoRtcp
      ensures View() == StopAfterDiscard(old(View()), k)
    {
      hide StopSweep;
      var cleanup := cleanupTask;
      cleanupTask := None;
      if cleanup.Some? && cleanup.value < |tasks| && !tasks[cleanup.value].CleanDone? {
        tasks := tasks[k := StopCleanup(cleanup.value)];
        return;
      }
      StopEverything(k);
    }

    method ForgetAttributes()
      modifies this
      ensures View() == old(View()).(pli := false, pliLive := old(pliLive) && !old(pliTask),
                                     stats := false, statsLive := old(statsLive) && !old(statsTask),
                                     pushEvent := None, process := None)
    {
      process := None;
      pushReady := None;
      if statsTask { statsLive := false; }
      statsTask := false;
      CancelPli();
    }

    /** `stop()` after the prewarm: take every attribute, null it, close it, signal ffmpeg. */
    method StopEverything(k: nat)
      requires Valid() && k < |tasks|
      modifies this, rtp, videoRtp, videoRtcp
      ensures View() == StopSweep(old(View()), k)
    {
      hide SweepMedia;
      var p := process;
      var running := p.Some? && p.value < |procs| && procs[p.value].status in {Status.Running, Doomed};
      SweepChannels();
      ForgetAttributes();
      tasks := tasks[k := if running then StopTerm(p.value) else StopDone];
    }
  }
}
