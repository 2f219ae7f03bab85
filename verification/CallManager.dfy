/** The call manager and the coordinator in the form the program gives them: two objects, updated
    field by field, that call each other. A method runs one task from one `await` to the next, and
    is proved to do what the transition of the same stretch does. */
module CallManagerObject {
  import opened Basics
  import opened CallFlow

  /** `IntratoneCoordinator` */
  class Coordinator {
    var data: bool
    var url: Option<nat>
    var sipId: Option<nat>
    var invites: seq<Invite>
    var pending: Option<nat>
    var deeds: seq<Deed>

    constructor ()
      ensures !data && url == None && sipId == None && invites == [] && pending == None && deeds == []
    {
      data, url, sipId, invites, pending, deeds := false, None, None, [], None, [];
    }

    /** `set_stream_url` */
    method SetStreamUrl(call: nat, newUrl: Option<nat>)
      modifies this`sipId, this`pending, this`url
      ensures var ours := old(data) && old(sipId) == Some(call);
        && sipId == (if ours && newUrl.None? then None else old(sipId))
        && pending == (if ours && newUrl.None? then None else old(pending))
        && url == (if ours then newUrl else old(url))
    {
      if !data || sipId != Some(call) { return; }
      if newUrl.None? {
        sipId := None;
        pending := None;
      }
      if url == newUrl { return; }
      url := newUrl;
    }

    /** A call was placed for invite p. */
    method TrackSip(call: nat, p: nat)
      modifies this`sipId, this`deeds
      ensures sipId == Some(call) && deeds == old(deeds) + [Placed(p)]
    {
      sipId := Some(call);
      deeds := deeds + [Placed(p)];
    }

    /** The rest of `async_handle_push` for a ring. */
    method ParkInvite(creds: bool)
      modifies this
      ensures data && url == None && sipId == old(sipId) && deeds == old(deeds)
      ensures creds ==> invites == old(invites) + [Invite(false, false)] && pending == Some(|old(invites)|)
      ensures !creds ==> invites == old(invites) && pending == None
    {
      if creds {
        pending := Some(|invites|);
        invites := invites + [Invite(false, false)];
      } else {
        pending := None;
      }
      data, url := true, None;
    }
  }

  /** `CallManager`, with the bridge and the host's sockets it owns. */
  class CallManager {
    const coordinator: Coordinator
    var started: bool
    var calls: seq<Call>
    var sipClient: Option<nat>
    var activeCallId: Option<nat>
    var maxDurationTask: Option<nat>
    var graceTask: Option<nat>
    var spawnBridgeTask: Option<nat>
    var pendingRtp: Option<nat>
    var pendingVideo: set<nat>
    var aborts: seq<AbortPc>
    var stops: seq<StopPc>
    var connects: seq<ConnectPc>
    var generation: nat
    var up: Option<Up>
    var prewarm: bool
    var cleaning: bool
    var open: set<nat>
    var created: nat
    var notes: seq<Note>

    ghost function View(): World
      reads this, coordinator
    {
      World(started, calls, sipClient, activeCallId, maxDurationTask, graceTask, spawnBridgeTask, pendingRtp, pendingVideo,
            aborts, stops, connects, generation, up, prewarm, cleaning, open, created,
            coordinator.data, coordinator.url, coordinator.sipId, coordinator.invites, coordinator.pending,
            coordinator.deeds, notes)
    }

    constructor ()
      ensures View() == START
    {
      coordinator := new Coordinator();
      started, calls, sipClient, activeCallId := true, [], None, None;
      maxDurationTask, graceTask, spawnBridgeTask := None, None, None;
      pendingRtp, pendingVideo, aborts, stops, connects := None, {}, [], [], [];
      generation, up, prewarm, cleaning := 0, None, false, false;
      open, created, notes := {}, 0, [];
    }

    // ---------- small steps ----------

    method SetCall(c: nat, r: Call)
      modifies this`calls
      ensures View() == WithCall(old(View()), c, r)
    {
      if c < |calls| { calls := calls[c := r]; }
    }

    /** `_close_pending_sockets` */
    method ClosePendingSockets()
      modifies this`open, this`pendingRtp, this`pendingVideo
      ensures View() == ClosePending(old(View()))
    {
      if pendingRtp.Some? {
        open := open - {pendingRtp.value};
        pendingRtp := None;
      }
      open := open - pendingVideo;
      pendingVideo := {};
      assert View().open == ClosePending(old(View())).open;
    }

    method CancelMaxTask()
      modifies this`calls, this`maxDurationTask
      ensures View() == CancelMax(old(View())) && |calls| == |old(calls)|
    {
      var t := maxDurationTask;
      maxDurationTask := None;
      if t.Some? && t.value < |calls| { SetCall(t.value, calls[t.value].(max := false)); }
    }

    method CancelGraceTask()
      modifies this`calls, this`graceTask
      ensures View() == CancelGrace(old(View())) && |calls| == |old(calls)|
    {
      var t := graceTask;
      graceTask := None;
      if t.Some? && t.value < |calls| { SetCall(t.value, calls[t.value].(grace := CancelledGrace(calls[t.value].grace))); }
    }

    /** `_handle_call_terminated` */
    method HandleCallTerminated(c: nat)
      modifies this
      ensures View() == HandleTerminated(old(View()), c) && aborts == old(aborts)
    {
      hide CancelMax, CancelGrace, ClosePending, CancelPrewarm;
      if activeCallId != Some(c) || c >= |calls| { return; }
      CancelMaxTask();
      CancelUnusedPrewarm();
      ClosePendingSockets();
      sipClient := None;
      CancelGraceTask();
      StartGraceTask(c);
    }

    /** `bridge.cancel_prewarm()` */
    method CancelUnusedPrewarm()
      modifies this`prewarm, this`cleaning
      ensures View() == CancelPrewarm(old(View()))
    {
      if prewarm { prewarm, cleaning := false, true; }
    }

    method StartGraceTask(c: nat)
      modifies this`calls, this`graceTask
      ensures View() == if c < |old(calls)| then
          WithCall(old(View()), c, old(calls)[c].(grace := Sleeping)).(graceTask := Some(c)) else old(View())
    {
      if c >= |calls| { return; }
      SetCall(c, calls[c].(grace := Sleeping));
      graceTask := Some(c);
    }

    /** The SIP client of a live call ends its dialog and reports it. */
    method DialogEnds(c: nat)
      modifies this
      ensures View() == EndDialog(old(View()), c) && aborts == old(aborts)
    {
      hide HandleTerminated;
      if c < |calls| && calls[c].live {
        SetCall(c, calls[c].(live := false));
        HandleCallTerminated(c);
      }
    }

    /** `self._sip_client.hang_up(c)` */
    method HangUp(c: nat)
      modifies this
      ensures View() == Hang(old(View()), c) && aborts == old(aborts)
    {
      hide EndDialog;
      if sipClient == Some(c) && c < |calls| && calls[c].live {
        notes := notes + [HungUp(c)];
        DialogEnds(c);
      }
    }

    // ---------- bridge.stop() ----------

    /** `bridge.is_running` */
    method BridgeRuns(alive: Ffmpeg) returns (runs: bool)
      ensures runs == Running(View(), alive)
    {
      runs := alive.running && (up.Some? || Starting(calls).Some?);
    }

    /** What the bridge's attributes hold. */
    method BridgeSocks() returns (socks: set<nat>)
      ensures socks == UpSocks(View())
    {
      socks := {};
      if up.Some? { socks := up.value.socks; }
    }

    method TaskIsDone(t: nat) returns (done: bool)
      ensures done == SpawnDone(View(), t)
    {
      done := t >= |calls| || calls[t].spawn in {NoSpawn, Gone};
    }

    /** The stretch of `bridge.stop()` in which it closes everything; it then waits for ffmpeg, or is
        done. */
    method CloseBridge(alive: Ffmpeg) returns (at: Option<Await>)
      modifies this`open, this`up
      ensures View() == Sweep(old(View()), alive).w && at == Sweep(old(View()), alive).at
    {
      var runs := BridgeRuns(alive);
      at := if runs then Some(OnExit) else None;
      if up.Some? {
        open := open - up.value.socks;
        up := None;
      } else {
        assert open - {} == open;
      }
    }

    method AwaitPrewarmCleanup(alive: Ffmpeg) returns (at: Option<Await>)
      modifies this`open, this`up, this`cleaning
      ensures View() == AwaitCleanup(old(View()), alive).w && at == AwaitCleanup(old(View()), alive).at
    {
      hide Sweep;
      if cleaning {
        cleaning := false;
        return Some(OnCleanup);
      }
      at := CloseBridge(alive);
    }

    /** `bridge.stop()` up to its first await, if there is one. */
    method StopBridge(alive: Ffmpeg) returns (at: Option<Await>)
      modifies this`generation, this`open, this`up, this`cleaning, this`prewarm
      ensures View() == BeginStop(old(View()), alive).w && at == BeginStop(old(View()), alive).at
    {
      hide AwaitCleanup;
      generation := generation + 1;
      if prewarm {
        prewarm := false;
        return Some(OnPrewarm);
      }
      at := AwaitPrewarmCleanup(alive);
    }

    /** `bridge.stop()` from one await to the next. */
    method StopGoesOn(from_: Await, alive: Ffmpeg) returns (at: Option<Await>)
      modifies this`open, this`up, this`cleaning
      ensures View() == GoOn(old(View()), from_, alive).w && at == GoOn(old(View()), from_, alive).at
    {
      hide AwaitCleanup, Sweep;
      match from_ {
        case OnPrewarm =>
          if alive.parked { return Some(OnDiscard); }
          at := AwaitPrewarmCleanup(alive);
        case OnDiscard => at := AwaitPrewarmCleanup(alive);
        case OnCleanup => at := CloseBridge(alive);
        case OnExit => at := None;
      }
    }

    /** A cancelled `bridge.stop()` puts the prewarm it was waiting on back. */
    method StopIsCancelled(from_: Await)
      modifies this`prewarm
      ensures View() == Dropped(old(View()), from_)
    {
      if from_ == OnPrewarm { prewarm := true; }
    }

    method EndSpawnTask(c: nat)
      modifies this`calls
      ensures View() == EndSpawn(old(View()), c)
    {
      if c < |calls| { calls := calls[c := calls[c].(spawn := Gone)]; }
    }

    // ---------- starting a call ----------

    /** `async_ensure_call_started` and `start_call` up to the TCP connect. */
    method EnsureCallStarted(video: bool)
      modifies this, coordinator
      ensures View() == TapBegins(old(View()), video)
    {
      var p := coordinator.pending;
      if p.None? || p.value >= |coordinator.invites| || coordinator.invites[p.value].started { return; }
      if !started || activeCallId.Some? {
        coordinator.sipId := None;
        return;
      }
      DialFor(p.value, video);
    }

    method DialFor(p: nat, video: bool)
      requires p < |coordinator.invites|
      modifies this`pendingRtp, this`pendingVideo, this`open, this`created, this`connects, coordinator`invites
      ensures var w := old(View()); var n := w.created; var pair: set<nat> := if video then {n + 1, n + 2} else {};
        View() == w.(invites := w.invites[p := w.invites[p].(started := true)], pendAudio := Some(n),
                     pendVideo := if video then pair else w.pendVideo,
                     open := w.open + {n} + pair, created := n + 3, connects := w.connects + [Connecting(p, video)])
    {
      coordinator.invites := coordinator.invites[p := coordinator.invites[p].(started := true)];
      BindSockets(video);
      connects := connects + [Connecting(p, video)];
    }

    method BindSockets(video: bool)
      modifies this`pendingRtp, this`pendingVideo, this`open, this`created
      ensures var n := old(created); var pair: set<nat> := if video then {n + 1, n + 2} else {};
        && pendingRtp == Some(n) && pendingVideo == (if video then pair else old(pendingVideo))
        && open == old(open) + {n} + pair && created == n + 3
    {
      pendingRtp := Some(created);
      open := open + {created};
      if video {
        pendingVideo := {created + 1, created + 2};
        open := open + pendingVideo;
      }
      created := created + 3;
    }

    /** The rest of `start_call` and of its caller. */
    method StartCallResumes(k: nat, how: Connect, alive: Ffmpeg)
      modifies this, coordinator
      ensures View() == ConnectEnds(old(View()), k, how, alive)
    {
      hide ClosePending, CallFlow.Answer, CallFlow.Rearm, CallFlow.CallPlaced, Running;
      if k >= |connects| || connects[k] == ConnectOver { return; }
      var pc := connects[k];
      var runs := BridgeRuns(alive);
      connects := connects[k := ConnectOver];
      match how {
        case Connected =>
          CallPlaced(pc.invite, pc.video && !runs);
          AnswerOnce(pc.invite);
        case Refused => ConnectRefused(pc.invite);
        case Raises => CallRaised(pc.invite);
      }
    }

    method ConnectRefused(p: nat)
      modifies this`open, this`pendingRtp, this`pendingVideo, coordinator`sipId, coordinator`invites
      ensures View() == CallFlow.Rearm(ClosePending(old(View())).(sipId := None), p)
    {
      hide ClosePending, CallFlow.Rearm;
      ClosePendingSockets();
      coordinator.sipId := None;
      RearmInvite(p);
    }

    method CallRaised(p: nat)
      modifies this`open, this`pendingRtp, this`pendingVideo, this`sipClient, coordinator`invites
      ensures View() == CallFlow.Rearm(ClosePending(old(View())).(sip := None), p)
    {
      hide ClosePending, CallFlow.Rearm;
      ClosePendingSockets();
      sipClient := None;
      RearmInvite(p);
    }

    method CallPlaced(p: nat, prewarms: bool)
      modifies this`calls, this`sipClient, this`activeCallId, this`maxDurationTask, this`prewarm
      modifies coordinator`sipId, coordinator`deeds
      ensures View() == CallFlow.CallPlaced(old(View()), p, prewarms)
    {
      var c := |calls|;
      TrackCall(prewarms);
      coordinator.TrackSip(c, p);
    }

    method TrackCall(prewarms: bool)
      modifies this`calls, this`sipClient, this`activeCallId, this`maxDurationTask, this`prewarm
      ensures calls == old(calls) + [Call(true, false, NoSpawn, NoGrace, true)] && prewarm == (old(prewarm) || prewarms)
      ensures sipClient == activeCallId == maxDurationTask == Some(|old(calls)|)
    {
      var c := |calls|;
      calls := calls + [Call(true, false, NoSpawn, NoGrace, true)];
      sipClient, activeCallId, maxDurationTask := Some(c), Some(c), Some(c);
      prewarm := prewarm || prewarms;
    }

    method AnswerOnce(p: nat)
      modifies coordinator`invites, coordinator`deeds
      ensures View() == CallFlow.Answer(old(View()), p)
    {
      if p >= |coordinator.invites| || coordinator.invites[p].answered { return; }
      coordinator.invites := coordinator.invites[p := coordinator.invites[p].(answered := true)];
      coordinator.deeds := coordinator.deeds + [Answered(p)];
    }

    method RearmInvite(p: nat)
      modifies coordinator`invites
      ensures View() == CallFlow.Rearm(old(View()), p)
    {
      if p < |coordinator.invites| {
        coordinator.invites := coordinator.invites[p := coordinator.invites[p].(started := false)];
      }
    }

    // ---------- callbacks of the SIP client ----------

    /** `_handle_call_established`, for a client that reports it for the first time. */
    method HandleCallEstablished(c: nat)
      modifies this`calls, this`spawnBridgeTask
      ensures View() == HandleEstablished(old(View()), c)
    {
      if c >= |calls| || !calls[c].live || calls[c].told { return; }
      var r := calls[c].(told := true);
      if activeCallId != Some(c) {
        SetCall(c, r);
        return;
      }
      SetCall(c, r.(spawn := Scheduled(false)));
      spawnBridgeTask := Some(c);
    }

    // ---------- the bridge comes up ----------

    /** `_spawn_bridge` up to its wait in `bridge.start()`. */
    method SpawnBridge(c: nat, video: bool, alive: Ffmpeg)
      modifies this, coordinator
      ensures View() == SpawnBegins(old(View()), c, video, alive)
    {
      hide Hang, EndSpawn, CallFlow.Publish, Running, Runner, Taken, Used;
      if c >= |calls| || !calls[c].spawn.Scheduled? { return; }
      if calls[c].spawn.cancelled {
        EndSpawnTask(c);
        return;
      }
      if pendingRtp.None? {
        NoAudioSocket(c);
        return;
      }
      var runs := BridgeRuns(alive);
      if runs {
        RunningMeans(View(), alive);
        var pipeline := RunningCall();
        var used := TakePending(video);
        PublishOrStop(c, pipeline, alive);
      } else {
        EnterStart(c, video);
      }
    }

    /** Whose pipeline the running bridge serves. */
    method RunningCall() returns (c: nat)
      requires up.Some? || Starting(calls).Some?
      ensures c == Runner(View())
    {
      c := if up.Some? then up.value.call else Starting(calls).value;
    }

    /** `bridge.start()` is entered: it takes the sockets, and the prewarm if there is one. */
    method EnterStart(c: nat, video: bool)
      requires pendingRtp.Some? && c < |calls|
      modifies this
      ensures var w := old(View());
        View() == WithCall(Taken(w, video).(prewarm := false), c,
                           w.calls[c].(spawn := InStart(Used(w, video), w.generation, w.prewarm, false)))
    {
      var prewarmed := prewarm;
      var used := TakePending(video);
      prewarm := false;
      SetCall(c, calls[c].(spawn := InStart(used, generation, prewarmed, false)));
    }

    method NoAudioSocket(c: nat)
      modifies this
      ensures var w := old(View());
        View() == EndSpawn(Hang(CloseSocks(w, w.pendVideo).(pendVideo := {}), c), c)
    {
      hide Hang, EndSpawn;
      open := open - pendingVideo;
      pendingVideo := {};
      HangUp(c);
      EndSpawnTask(c);
    }

    /** Take the pending sockets; the video pair is closed if the answer has no video. */
    method TakePending(video: bool) returns (used: set<nat>)
      requires pendingRtp.Some?
      modifies this`open, this`pendingRtp, this`pendingVideo
      ensures used == Used(old(View()), video) && View() == Taken(old(View()), video)
    {
      ghost var w := View();
      used := {pendingRtp.value};
      if video {
        used := used + pendingVideo;
      } else {
        open := open - (pendingVideo - used);
      }
      pendingRtp := None;
      pendingVideo := {};
      assert View().open == CloseSocks(w, PendingSocks(w) - used).open;
    }

    /** The end of `_spawn_bridge`: publish the URL, or stop the stale bridge. */
    method PublishOrStop(c: nat, pipeline: nat, alive: Ffmpeg)
      modifies this, coordinator
      ensures View() == CallFlow.Publish(old(View()), c, pipeline, alive)
    {
      hide EndSpawn, BeginStop, StaleAt;
      if !started || activeCallId != Some(c) {
        var at := StopBridge(alive);
        StaleStop(c, at);
        return;
      }
      OnCallActive(c, pipeline);
      EndSpawnTask(c);
    }

    /** The stop of a stale bridge is suspended, or done. */
    method StaleStop(c: nat, at: Option<Await>)
      modifies this`calls
      ensures View() == StaleAt(Stop(old(View()), at), c)
    {
      hide EndSpawn;
      if at.None? || c >= |calls| {
        EndSpawnTask(c);
      } else {
        SetCall(c, calls[c].(spawn := Stale(at.value, false)));
      }
    }

    /** `_spawn_bridge` goes on inside the stop of its stale bridge. */
    method StaleStopResumes(c: nat, alive: Ffmpeg)
      modifies this
      ensures View() == StaleEnds(old(View()), c, alive)
    {
      hide EndSpawn, GoOn, StaleAt, Dropped;
      if c >= |calls| || !calls[c].spawn.Stale? { return; }
      var s := calls[c].spawn;
      if s.cancelled {
        StopIsCancelled(s.at);
        EndSpawnTask(c);
      } else {
        var at := StopGoesOn(s.at, alive);
        StaleStop(c, at);
      }
    }

    /** `on_call_active` */
    method OnCallActive(c: nat, pipeline: nat)
      modifies this`notes, coordinator`sipId, coordinator`pending, coordinator`url
      ensures View() == SetUrl(Noted(old(View()), Active(c)), c, Some(pipeline))
    {
      notes := notes + [Active(c)];
      coordinator.SetStreamUrl(c, Some(pipeline));
    }

    /** `on_call_ended` */
    method OnCallEnded(c: nat)
      modifies this`notes, coordinator`sipId, coordinator`pending, coordinator`url
      ensures View() == CallEnded(old(View()), c)
    {
      notes := notes + [Ended(c)];
      coordinator.SetStreamUrl(c, None);
    }

    /** `bridge.start()` returns or raises inside `_spawn_bridge`. */
    method SpawnBridgeResumes(c: nat, end: StartEnd, over: set<nat>, alive: Ffmpeg)
      modifies this, coordinator
      ensures View() == SpawnEnds(old(View()), c, end, over, alive)
    {
      hide Hang, EndSpawn, CallFlow.Publish, CallFlow.Unwound;
      if c >= |calls| || !calls[c].spawn.InStart? { return; }
      var s := calls[c].spawn;
      if s.cancelled {
        StartCancelled(c, s, end, over);
        return;
      }
      match end {
        case InPrewarm =>
        case SpawnFails =>
          HangUp(c);
          EndSpawnTask(c);
        case WrapFails =>
          UnwindStart(s.socks, over);
          HangUp(c);
          EndSpawnTask(c);
        case Passes =>
          if generation != s.snapshot {
            UnwindStart(s.socks, over);
            EndSpawnTask(c);
          } else {
            var held := BridgeSocks();
            up := Some(Up(c, s.socks + (held - over)));
            PublishOrStop(c, c, alive);
          }
      }
    }

    method StartCancelled(c: nat, s: Spawn, end: StartEnd, over: set<nat>)
      requires s.InStart?
      modifies this
      ensures var w := old(View());
        View() == EndSpawn(CallFlow.Unwound(w, s.socks, over).(prewarm := w.prewarm || (end.InPrewarm? && s.prewarmed)), c)
    {
      hide EndSpawn;
      var parked := prewarm || (end.InPrewarm? && s.prewarmed);
      UnwindStart(s.socks, over);
      prewarm := parked;
      EndSpawnTask(c);
    }

    /** What unwinding `start()` leaves of its sockets and of an earlier pipeline. */
    method UnwindStart(socks: set<nat>, over: set<nat>)
      modifies this`open, this`up
      ensures View() == CallFlow.Unwound(old(View()), socks, over)
    {
      var held := BridgeSocks();
      open := open - (socks + (held - over));
      up := None;
    }

    // ---------- timers ----------

    /** `_teardown_bridge_after_grace` wakes up. */
    method TeardownBridgeAfterGrace(c: nat, alive: Ffmpeg)
      modifies this, coordinator
      ensures View() == GraceWakes(old(View()), c, alive)
    {
      hide BeginStop, TearingAt;
      if c >= |calls| || calls[c].grace != Sleeping { return; }
      if activeCallId != Some(c) {
        SetCall(c, calls[c].(grace := Over));
        return;
      }
      notes := notes + [Cleared(c)];
      activeCallId := None;
      var at := StopBridge(alive);
      TeardownStop(c, at);
    }

    /** `_teardown_bridge`: the stop is suspended, or done. */
    method TeardownStop(c: nat, at: Option<Await>)
      modifies this, coordinator
      ensures View() == TearingAt(Stop(old(View()), at), c)
    {
      hide CallEnded;
      if c >= |calls| { return; }
      if at.None? {
        SetCall(c, calls[c].(grace := Over));
        OnCallEnded(c);
      } else {
        SetCall(c, calls[c].(grace := Tearing(at.value, false)));
      }
    }

    /** `_teardown_bridge` goes on inside `bridge.stop()`. */
    method TeardownBridgeResumes(c: nat, alive: Ffmpeg)
      modifies this, coordinator
      ensures View() == GraceEnds(old(View()), c, alive)
    {
      hide GoOn, TearingAt, Dropped;
      if c >= |calls| || !calls[c].grace.Tearing? { return; }
      var g := calls[c].grace;
      if g.cancelled {
        StopIsCancelled(g.at);
        SetCall(c, calls[c].(grace := Over));
      } else {
        var at := StopGoesOn(g.at, alive);
        TeardownStop(c, at);
      }
    }

    /** `_auto_terminate_after` wakes up. */
    method AutoTerminate(c: nat)
      modifies this
      ensures View() == MaxWakes(old(View()), c)
    {
      hide Hang;
      if c >= |calls| || !calls[c].max { return; }
      SetCall(c, calls[c].(max := false));
      if activeCallId != Some(c) { return; }
      HangUp(c);
    }

    // ---------- abort and stop ----------

    /** The part of `abort_active_call` before it waits. */
    method ReleaseCall(c: nat)
      modifies this
      ensures View() == Aborted(old(View()), c) && aborts == old(aborts)
    {
      hide CancelMax, CancelGrace, ClosePending, Hang;
      CancelMaxTask();
      CancelGraceTask();
      HangUp(c);
      sipClient := None;
      ClosePendingSockets();
    }

    /** `abort_active_call` up to its first suspension. */
    method AbortActiveCall(next: Then, alive: Ffmpeg)
      requires activeCallId.Some?
      modifies this, coordinator
      ensures View() == AbortBegins(old(View()), next, alive)
    {
      hide Aborted, CancelTask, BeginStop, AbortAt;
      var c := activeCallId.value;
      ReleaseCall(c);
      AbortGoesToStop(c, next, alive);
    }

    method AbortGoesToStop(c: nat, next: Then, alive: Ffmpeg)
      modifies this, coordinator
      ensures View() == AbortWaits(old(View()), c, next, alive)
    {
      hide AbortWaits, CancelTask, BeginStop, AbortAt, AwaitsSpawn;
      WaitShape(View(), c, next, alive);
      var k := |aborts|;
      var t := CancelSpawnBridgeTask();
      if t.Some? {
        NoteAbort(AbortAwaitsSpawn(c, t.value, next));
      } else {
        NoteAbort(AbortOver);
        StopForAbort(k, c, next, alive);
      }
    }

    /** An abort waits for the startup it cancelled, or enters `bridge.stop()`. */
    lemma WaitShape(v: World, c: nat, next: Then, alive: Ffmpeg)
      ensures AwaitsSpawn(v) ==>
        && v.spawnTask.Some? && v.spawnTask.value < |v.calls|
        && AbortWaits(v, c, next, alive)
             == CancelTask(v.(spawnTask := None), v.spawnTask.value)
                  .(aborts := v.aborts + [AbortAwaitsSpawn(c, v.spawnTask.value, next)])
      ensures !AwaitsSpawn(v) ==>
        var u := v.(spawnTask := None, aborts := v.aborts + [AbortOver]);
        |v.aborts| < |BeginStop(u, alive).w.aborts|
        && AbortWaits(v, c, next, alive) == AbortAt(BeginStop(u, alive), |v.aborts|, c, next)
    {
      hide CancelSpawn, AbortAt, Running;
    }

    method NoteAbort(pc: AbortPc)
      modifies this`aborts
      ensures View() == old(View()).(aborts := old(aborts) + [pc])
    {
      aborts := aborts + [pc];
    }

    /** An abort enters `bridge.stop()`. */
    method StopForAbort(k: nat, c: nat, next: Then, alive: Ffmpeg)
      requires k < |aborts|
      modifies this, coordinator
      ensures k < |BeginStop(old(View()), alive).w.aborts|
      ensures View() == AbortAt(BeginStop(old(View()), alive), k, c, next)
    {
      hide BeginStop, AbortAt;
      var at := StopBridge(alive);
      AbortStop(k, c, next, at);
    }

    /** `bridge.stop()` inside an abort is suspended, or done. */
    method AbortStop(k: nat, c: nat, next: Then, at: Option<Await>)
      requires k < |aborts|
      modifies this, coordinator
      ensures View() == AbortAt(Stop(old(View()), at), k, c, next)
    {
      hide CallEnded, CallFlow.Continue;
      if at.Some? {
        aborts := aborts[k := AbortAwaitsStop(c, at.value, next)];
      } else {
        activeCallId := None;
        aborts := aborts[k := AbortOver];
        OnCallEnded(c);
        ContinueHandler(next);
      }
    }

    /** `_cancel_spawn_bridge_task` up to its wait, if there is a task to wait for. */
    method CancelSpawnBridgeTask() returns (t: Option<nat>)
      modifies this`calls, this`spawnBridgeTask
      ensures var w := old(View()); var u := w.(spawnTask := None);
        if AwaitsSpawn(w) then t == w.spawnTask && View() == CancelTask(u, t.value) else t == None && View() == u
    {
      t := spawnBridgeTask;
      spawnBridgeTask := None;
      if t.None? || t.value >= |calls| || calls[t.value].spawn in {NoSpawn, Gone} { return None; }
      SetCall(t.value, calls[t.value].(spawn := CancelSpawn(calls[t.value].spawn)));
    }

    /** `abort_active_call` when the startup it cancelled is gone. */
    method AbortSpawnDone(k: nat, alive: Ffmpeg)
      modifies this, coordinator
      ensures View() == AbortGoesOn(old(View()), k, alive)
    {
      hide BeginStop, AbortAt, SpawnDone;
      if k >= |aborts| || !aborts[k].AbortAwaitsSpawn? { return; }
      var done := TaskIsDone(aborts[k].task);
      if !done { return; }
      StopForAbort(k, aborts[k].call, aborts[k].next, alive);
    }

    /** `abort_active_call` goes on inside `bridge.stop()`, and with it the push handler that called it. */
    method AbortResumes(k: nat, alive: Ffmpeg)
      modifies this, coordinator
      ensures View() == AbortEnds(old(View()), k, alive)
    {
      hide GoOn, AbortAt;
      if k >= |aborts| || !aborts[k].AbortAwaitsStop? { return; }
      var pc := aborts[k];
      var at := StopGoesOn(pc.at, alive);
      AbortStop(k, pc.call, pc.next, at);
    }

    method ContinueHandler(next: Then)
      modifies coordinator
      ensures View() == CallFlow.Continue(old(View()), next)
    {
      match next {
        case NewRing(creds) => coordinator.ParkInvite(creds);
        case CancelRing => coordinator.pending := None;
      }
    }

    /** `async_handle_push` for a ring or a cancel, up to its first suspension. */
    method HandlePush(next: Then, alive: Ffmpeg)
      modifies this, coordinator
      ensures View() == Next(old(View()), if next.NewRing? then Push(next.creds, alive) else CancelPush(alive))
    {
      hide AbortBegins;
      if activeCallId.Some? {
        AbortActiveCall(next, alive);
      } else {
        ContinueHandler(next);
      }
    }

    /** `async_stop` up to its first suspension. */
    method AsyncStop(alive: Ffmpeg)
      modifies this
      ensures View() == StopBeginning(old(View()), alive)
    {
      hide CancelSpawn, BeginStop, StopAt;
      var k := |stops|;
      var t := CancelSpawnBridgeTask();
      if t.Some? {
        stops := stops + [StopAwaitsSpawn(t.value)];
      } else {
        stops := stops + [StopOver];
        StopForGood(k, alive);
      }
    }

    /** `async_stop` enters `bridge.stop()`. */
    method StopForGood(k: nat, alive: Ffmpeg)
      requires k < |stops|
      modifies this
      ensures k < |BeginStop(old(View()), alive).w.stops|
      ensures View() == StopAt(BeginStop(old(View()), alive), k)
    {
      hide BeginStop, StopAt;
      var at := StopBridge(alive);
      FinishStop(k, at);
    }

    /** `bridge.stop()` inside `async_stop` is suspended, or done: then everything else is dropped. */
    method FinishStop(k: nat, at: Option<Await>)
      requires k < |stops|
      modifies this
      ensures View() == StopAt(Stop(old(View()), at), k)
    {
      hide CancelMax, CancelGrace, ClosePending;
      if at.Some? {
        stops := stops[k := StopAwaitsBridge(at.value)];
      } else {
        StopIsOver(k);
      }
    }

    method StopIsOver(k: nat)
      requires k < |stops|
      modifies this
      ensures var v := old(View()).(sip := None, active := None, stops := old(stops)[k := StopOver]);
        View() == Noted(ClosePending(CancelGrace(CancelMax(v))).(started := false), StopCompleted)
    {
      hide CancelMax, CancelGrace, ClosePending;
      ForgetCall(k);
      DropRest();
      MarkStopped();
    }

    method ForgetCall(k: nat)
      requires k < |stops|
      modifies this`sipClient, this`activeCallId, this`stops
      ensures View() == old(View()).(sip := None, active := None, stops := old(stops)[k := StopOver])
    {
      sipClient, activeCallId := None, None;
      stops := stops[k := StopOver];
    }

    method MarkStopped()
      modifies this`started, this`notes
      ensures View() == Noted(old(View()).(started := false), StopCompleted)
    {
      started := false;
      notes := notes + [StopCompleted];
    }

    method DropRest()
      modifies this
      ensures View() == ClosePending(CancelGrace(CancelMax(old(View()))))
    {
      hide CancelMax, CancelGrace, ClosePending;
      CancelMaxTask();
      CancelGraceTask();
      ClosePendingSockets();
    }

    /** `async_stop` when the startup it cancelled is gone. */
    method AsyncStopSpawnDone(k: nat, alive: Ffmpeg)
      modifies this
      ensures View() == CallFlow.StopGoesOn(old(View()), k, alive)
    {
      hide BeginStop, StopAt, SpawnDone;
      if k >= |stops| || !stops[k].StopAwaitsSpawn? { return; }
      var done := TaskIsDone(stops[k].task);
      if !done { return; }
      StopForGood(k, alive);
    }

    /** `async_stop` goes on inside `bridge.stop()`. */
    method AsyncStopResumes(k: nat, alive: Ffmpeg)
      modifies this
      ensures View() == StopEnds(old(View()), k, alive)
    {
      hide GoOn, StopAt;
      if k >= |stops| || !stops[k].StopAwaitsBridge? { return; }
      var at := StopGoesOn(stops[k].at, alive);
      FinishStop(k, at);
    }
  }
}
