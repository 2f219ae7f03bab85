/** What has happened to one `start()`, told by the events alone, and what that says of the state it
    ends in. */
module BridgeHistory {
  import opened Basics
  import opened BridgeState
  import opened BridgeOwnership
  import opened BridgeRelease

  /** The arguments of `start()`: a video socket, a video peer, an RTCP socket. */
  datatype Handed = Handed(video: bool, peer: bool, rtcp: bool)

  /** `spawnFailed`: the ffmpeg spawn that `start()` was waiting for failed. `firstStop`: the first
      `stop()` that began after `start()` was entered; true if it came in the push wait. */
  datatype Past = Past(handed: Option<Handed>, cancels: nat, spawnFailed: bool, firstStop: Option<bool>)

  const NOTHING := Past(None, 0, false, None)

  /** What one event in state s adds. */
  function Recall(s: Bridge, e: Event, h: Past): Past
  {
    match e
    case StartCall(v, vr, r) => h.(handed := Some(Handed(v, vr, r)))
    case StartCancel => h.(cancels := h.cancels + 1)
    case SpawnFails(p) => if s.start == AwaitSpawn(p) then h.(spawnFailed := true) else h
    case StopBegin => if s.start.Idle? || h.firstStop.Some? then h else h.(firstStop := Some(s.start.AwaitPush?))
    case _ => h
  }

  function History(s: Bridge, es: seq<Event>, h: Past): Past
    decreases |es|
  {
    if es == [] || Step(s, es[0]).None? then h else History(Step(s, es[0]).value, es[1..], Recall(s, es[0], h))
  }

  // ---------- what the past says of the state ----------

  predicate VideoGone(s: Bridge) { Released(s.video) && Released(s.rtcp) }

  /** After an unwinding for a stop: only a stop in the push wait leaves sockets that were never
      wrapped as they were. */
  predicate StoppedVideo(s: Bridge, h: Past)
  {
    if !s.videoEnabled && h.firstStop == Some(true) then Untouched(s.video) && Untouched(s.rtcp) else VideoGone(s)
  }

  predicate Undisturbed(h: Past) { h.cancels == 0 && !h.spawnFailed }

  predicate PcTold(s: Bridge, h: Past)
  {
    match s.start
    case Idle => h == NOTHING
    case CleaningUp(_) => h.cancels == 1 && VideoGone(s)
    case AwaitSpawn(p) =>
      h.cancels == 0 && h.firstStop != Some(true) && (h.spawnFailed <==> StatusOf(s, p) == Failed)
    case AwaitPush => Undisturbed(h) && (h.firstStop.Some? ==> h.firstStop.value)
    case Unwinding(_, o) => EndTold(s, h, o) && (o == Stopped || o == WrapFailed)
    case Finished(o) => EndTold(s, h, o)
    case _ => Undisturbed(h) && h.firstStop != Some(true)
  }

  predicate EndTold(s: Bridge, h: Past, o: Outcome)
  {
    match o
    case Cancelled => h.cancels == 1 && VideoGone(s)
    case CancelledTwice => h.cancels == 2 && VideoGone(s)
    case SpawnFailed => h.cancels == 0 && h.spawnFailed
    case Url => Undisturbed(h) && h.firstStop != Some(true)
    case Stopped => Undisturbed(h) && h.firstStop.Some? && StoppedVideo(s, h)
    case WrapFailed => Undisturbed(h) && h.firstStop != Some(true) && VideoGone(s)
  }

  /** The sockets are there exactly if they were handed in. */
  predicate SocketsTold(s: Bridge, h: Past)
  {
    && (s.start.Idle? <==> h.handed.None?)
    && (h.handed.Some? ==>
          && s.videoEnabled == (h.handed.value.video && h.handed.value.peer)
          && (s.video.sock != Absent <==> h.handed.value.video)
          && (s.rtcp.sock != Absent <==> h.handed.value.rtcp))
  }

  predicate Wrapping(pc: StartPc) { pc.AwaitAudio? || pc.AwaitVideo? || pc.AwaitRtcp? || pc.AwaitPush? }

  /** Each stop() that began is counted. */
  predicate GenerationTold(s: Bridge, h: Past)
  {
    s.snapshot <= s.generation && (!s.start.Idle? ==> (h.firstStop.None? <==> s.generation == s.snapshot))
  }

  predicate CleanedUp(pc: StartPc) { pc.CleaningUp? || pc == Finished(CancelledTwice) }

  /** What a stop() that began has not swept yet, it still will. */
  ghost predicate SweepsTold(s: Bridge, h: Past)
  {
    && (Wrapping(s.start) && s.process.Some? && s.snapshot < s.generation ==> Sweeping(s))
    && (CleanedUp(s.start) && h.firstStop.None? ==> s.pushEvent.Some?)
    && (CleanedUp(s.start) && h.firstStop.Some? && s.pushEvent.Some? ==> Sweeping(s))
  }

  ghost predicate Told(s: Bridge, h: Past) { Settled(s, h) && SweepsTold(s, h) }

  predicate Settled(s: Bridge, h: Past) { PcTold(s, h) && SocketsTold(s, h) && GenerationTold(s, h) }

  // ---------- events beside start() ----------

  lemma ToldSame(s: Bridge, t: Bridge, h: Past)
    requires Told(s, h) && t == s.(procs := t.procs, prewarm := t.prewarm, pliLive := t.pliLive)
    requires s.start.AwaitSpawn? ==> (StatusOf(t, s.start.p) == Failed <==> StatusOf(s, s.start.p) == Failed)
    ensures Told(t, h)
  {}

  /** Tasks move on, and what was waiting to sweep still is. */
  lemma ToldTasks(s: Bridge, t: Bridge, h: Past)
    requires Told(s, h) && t == s.(procs := t.procs, tasks := t.tasks, prewarm := t.prewarm, cleanup := t.cleanup)
    requires Sweeping(s) ==> Sweeping(t)
    requires s.start.AwaitSpawn? ==> (StatusOf(t, s.start.p) == Failed <==> StatusOf(s, s.start.p) == Failed)
    ensures Told(t, h)
  {
    hide Sweeping;
  }

  // ---------- stop() ----------

  lemma SweptVideo(m: Media)
    ensures Released(m) ==> Released(SweepMedia(m))
    ensures Untouched(m) ==> SweepMedia(m) == m
    ensures SweepMedia(m).sock == Absent <==> m.sock == Absent
  {}

  lemma SweepTold(s: Bridge, k: nat, h: Past)
    requires Settled(s, h) && k < |s.tasks| && (s.start.Idle? || s.snapshot < s.generation)
    ensures Told(StopSweep(s, k), h)
  {
    SweptVideo(s.video);
    SweptVideo(s.rtcp);
    hide SweepMedia, Sweeping, Released, Untouched;
  }

  lemma SettledSame(s: Bridge, t: Bridge, h: Past)
    requires Settled(s, h) && t.start == s.start && t.videoEnabled == s.videoEnabled && t.video == s.video && t.rtcp == s.rtcp
    requires t.generation == s.generation && t.snapshot == s.snapshot
    requires s.start.AwaitSpawn? ==> (StatusOf(t, s.start.p) == Failed <==> StatusOf(s, s.start.p) == Failed)
    ensures Settled(t, h)
  {}

  /** A task that will sweep settles what a stop() owes. */
  lemma SweepOwed(t: Bridge, k: nat, h: Past)
    requires Settled(t, h) && k < |t.tasks| && PreSweep(t.tasks[k]) && (CleanedUp(t.start) ==> h.firstStop.Some?)
    ensures Told(t, h)
  {
    assert Sweeping(t);
    hide Settled;
  }

  lemma AfterDiscardTold(s: Bridge, k: nat, h: Past)
    requires Settled(s, h) && k < |s.tasks| && (s.start.Idle? || s.snapshot < s.generation)
    requires CleanedUp(s.start) ==> h.firstStop.Some?
    ensures Told(StopAfterDiscard(s, k), h)
  {
    hide Settled, Told, StopSweep, PreSweep;
    var s1 := s.(cleanup := None);
    SettledSame(s, s1, h);
    if s.cleanup.Some? && CleanupPending(s, s.cleanup.value) {
      var t := StopAfterDiscard(s, k);
      SettledSame(s, t, h);
      PreSweeps(s.cleanup.value);
      SweepOwed(t, k, h);
    } else {
      SweepTold(s1, k, h);
    }
  }

  lemma PreSweeps(n: nat)
    ensures PreSweep(StopCleanup(n)) && PreSweep(StopPrewarm(n)) && PreSweep(StopDiscard(n))
  {}

  /** The first stop() is noted, and everything said of the start() so far still holds. */
  lemma StopNoted(s: Bridge, tasks: seq<TaskPc>, prewarm: Option<nat>, h: Past)
    requires Settled(s, h)
    ensures Settled(s.(generation := s.generation + 1, tasks := tasks, prewarm := prewarm), Recall(s, StopBegin, h))
  {}

  lemma FirstStopNoted(s: Bridge, h: Past)
    requires Settled(s, h)
    ensures CleanedUp(s.start) ==> Recall(s, StopBegin, h).firstStop.Some?
    ensures s.snapshot <= s.generation
  {}

  lemma BeginStopTold(s: Bridge, h: Past)
    requires Told(s, h)
    ensures Told(BeginStop(s), Recall(s, StopBegin, h))
  {
    assert Settled(s, h);
    hide *;
    FirstStopNoted(s, h);
    if s.prewarm.Some? { StopWithPrewarm(s, h); } else { StopWithoutPrewarm(s, h); }
  }

  lemma StopWithPrewarm(s: Bridge, h: Past)
    requires Settled(s, h) && s.prewarm.Some? && (CleanedUp(s.start) ==> Recall(s, StopBegin, h).firstStop.Some?)
    ensures Told(BeginStop(s), Recall(s, StopBegin, h))
  {
    hide Told, Settled, Recall, CleanedUp, PreSweep, StopAfterDiscard;
    StopNoted(s, s.tasks + [StopPrewarm(s.prewarm.value)], None, h);
    PreSweeps(s.prewarm.value);
    SweepOwed(BeginStop(s), |s.tasks|, Recall(s, StopBegin, h));
  }

  lemma StopWithoutPrewarm(s: Bridge, h: Past)
    requires Settled(s, h) && s.prewarm.None? && (CleanedUp(s.start) ==> Recall(s, StopBegin, h).firstStop.Some?)
    requires s.snapshot <= s.generation
    ensures Told(BeginStop(s), Recall(s, StopBegin, h))
  {
    hide Told, Settled, Recall, CleanedUp, PreSweep, StopAfterDiscard;
    StopNoted(s, s.tasks + [StopDone], s.prewarm, h);
    AfterDiscardTold(s.(generation := s.generation + 1, tasks := s.tasks + [StopDone]), |s.tasks|, Recall(s, StopBegin, h));
  }

  lemma ResumeStopTold(s: Bridge, k: nat, h: Past)
    requires Told(s, h) && Stops(s) && ResumeStop(s, k).Some?
    ensures Told(ResumeStop(s, k).value, h)
  {
    assert Settled(s, h);
    if PreSweep(s.tasks[k]) {
      StopBegan(s, k, h);
      assert CleanedUp(s.start) ==> h.firstStop.Some?;
      hide Told, Settled, Stops, StopAfterDiscard, StopSweep, CleanedUp;
      match s.tasks[k] {
        case StopPrewarm(p) => if Alive(s, p) { KillTold(s, k, p, h); } else { AfterDiscardTold(s, k, h); }
        case StopDiscard(p) => AfterDiscardTold(s, k, h);
        case StopCleanup(_) => SweepTold(s, k, h);
      }
    } else {
      hide Told, Settled, Stops;
      TaskTold(s, ResumeStop(s, k).value, k, h);
    }
  }

  lemma KillTold(s: Bridge, k: nat, p: nat, h: Past)
    requires Settled(s, h) && Alive(s, p) && k < |s.tasks| && (CleanedUp(s.start) ==> h.firstStop.Some?)
    ensures Told(WithStatus(s, p, Doomed).(tasks := s.tasks[k := StopDiscard(p)]), h)
  {
    var t := WithStatus(s, p, Doomed).(tasks := s.tasks[k := StopDiscard(p)]);
    SettledSame(s, t, h);
    PreSweeps(p);
    hide Settled, Told, WithStatus;
    SweepOwed(t, k, h);
  }

  /** A stop() that has not swept yet began after `start()` was entered. */
  lemma StopBegan(s: Bridge, k: nat, h: Past)
    requires Settled(s, h) && Stops(s) && k < |s.tasks| && PreSweep(s.tasks[k])
    ensures s.start.Idle? || (s.snapshot < s.generation && h.firstStop.Some?)
  {
    hide PcTold, SocketsTold;
  }

  lemma TaskTold(s: Bridge, t: Bridge, k: nat, h: Past)
    requires Told(s, h) && k < |s.tasks| && |t.tasks| == |s.tasks| && !PreSweep(s.tasks[k])
    requires forall j :: 0 <= j < |s.tasks| && j != k ==> t.tasks[j] == s.tasks[j]
    requires t == s.(procs := t.procs, tasks := t.tasks)
    requires s.start.AwaitSpawn? ==> (StatusOf(t, s.start.p) == Failed <==> StatusOf(s, s.start.p) == Failed)
    ensures Told(t, h)
  {
    if Sweeping(s) {
      var j :| 0 <= j < |s.tasks| && PreSweep(s.tasks[j]);
      assert PreSweep(t.tasks[j]);
    }
    ToldTasks(s, t, h);
    hide Told;
  }

  // ---------- start() ----------

  lemma StartTold(s: Bridge, v: bool, vr: bool, r: bool, h: Past)
    requires Told(s, h) && Rel(s) && s.start.Idle? && s.process.None? && AllSwept(s)
    ensures Told(StartEntry(s, v, vr, r), Recall(s, StartCall(v, vr, r), h))
  {}

  /** Unwinding for a stop() or a failed wrap: raw video sockets are closed if they were handed to it. */
  lemma UnwoundTold(s: Bridge, a: bool, v: bool, r: bool, o: Outcome, h: Past)
    requires Undisturbed(h) && GenerationTold(s, h) && SocketsTold(s, h) && !s.start.Idle?
    requires o == Stopped || o == WrapFailed
    requires o == Stopped ==> h.firstStop.Some?
    requires o == WrapFailed ==> h.firstStop != Some(true)
    requires if o == Stopped && !s.videoEnabled && h.firstStop == Some(true)
      then !v && !r && Untouched(s.video) && Untouched(s.rtcp) else Closable(s.video, v) && Closable(s.rtcp, r)
    ensures Told(Unwind(s, a, v, r, o), h)
  {
    if o == Stopped && !s.videoEnabled && h.firstStop == Some(true) {
      SweptVideo(s.video);
      SweptVideo(s.rtcp);
    } else {
      MediaReleased(s.video, v);
      MediaReleased(s.rtcp, r);
    }
    KeepsAbsence(s.video, v);
    KeepsAbsence(s.rtcp, r);
    var u := UnwindSweep(s, a, v, r);
    assert u.video == Swept(s.video, v) && u.rtcp == Swept(s.rtcp, r);
    hide UnwindSweep, SweepMedia, Swept;
    KilledTold(u, o, h);
  }

  lemma KeepsAbsence(m: Media, handed: bool)
    ensures Swept(m, handed).sock == Absent <==> m.sock == Absent
  {}

  lemma EndSame(s: Bridge, t: Bridge, h: Past, o: Outcome)
    requires EndTold(s, h, o) && t.videoEnabled == s.videoEnabled && t.video == s.video && t.rtcp == s.rtcp
    ensures EndTold(t, h, o)
  {}

  lemma EndSettled(s: Bridge, t: Bridge, h: Past, o: Outcome)
    requires GenerationTold(s, h) && SocketsTold(s, h) && !s.start.Idle? && EndTold(t, h, o)
    requires o == Stopped || o == WrapFailed
    requires SameCall(s, t, 0) && t.videoEnabled == s.videoEnabled && t.video == s.video && t.rtcp == s.rtcp
    requires t.start == Finished(o) || (t.start.Unwinding? && t.start.outcome == o)
    ensures Told(t, h)
  {
    hide EndTold;
  }

  lemma OnlyStatus(s: Bridge, p: nat, st: Status)
    ensures WithStatus(s, p, st) == s.(procs := WithStatus(s, p, st).procs)
  {}

  lemma KillLeaves(u: Bridge, o: Outcome)
    ensures var t := KillNow(u, false, o);
      && SameCall(u, t, 0) && t.videoEnabled == u.videoEnabled && t.video == u.video && t.rtcp == u.rtcp
      && (t.start == Finished(o) || (t.start.Unwinding? && t.start.outcome == o))
  {
    hide Alive, WithStatus;
    if IsRunning(u) { OnlyStatus(u.(process := None), u.process.value, Doomed); }
  }

  lemma KilledTold(u: Bridge, o: Outcome, h: Past)
    requires GenerationTold(u, h) && SocketsTold(u, h) && !u.start.Idle? && EndTold(u, h, o)
    requires o == Stopped || o == WrapFailed
    ensures Told(KillNow(u, false, o), h)
  {
    hide *;
    KillLeaves(u, o);
    EndSame(u, KillNow(u, false, o), h, o);
    EndSettled(u, KillNow(u, false, o), h, o);
  }

  /** `start()` goes on with the same sockets, past a checkpoint or with nothing for a stop() to sweep. */
  lemma OnTold(s: Bridge, t: Bridge, h: Past)
    requires GenerationTold(s, h) && SocketsTold(s, h) && !s.start.Idle?
    requires SameCall(s, t, 0) && t.videoEnabled == s.videoEnabled
    requires (t.video.sock == Absent <==> s.video.sock == Absent) && (t.rtcp.sock == Absent <==> s.rtcp.sock == Absent)
    requires PcTold(t, h) && !CleanedUp(t.start)
    requires s.generation == s.snapshot || !Wrapping(t.start)
    ensures Told(t, h)
  {
    hide PcTold;
  }

  lemma OnDemandTold(s: Bridge, h: Past)
    requires GenerationTold(s, h) && SocketsTold(s, h) && !s.start.Idle? && Undisturbed(h) && h.firstStop != Some(true)
    ensures Told(OnDemand(s), h)
  {
    OnTold(s, OnDemand(s), h);
    hide Told;
  }

  lemma AfterSpawnTold(s: Bridge, h: Past)
    requires GenerationTold(s, h) && SocketsTold(s, h) && !s.start.Idle? && Undisturbed(h) && h.firstStop != Some(true)
    requires Untouched(s.video) && Untouched(s.rtcp)
    ensures Told(AfterSpawn(s), h)
  {
    if s.generation != s.snapshot { UnwoundTold(s, true, true, true, Stopped, h); }
    else { OnTold(s, AfterSpawn(s), h); }
    hide Told, Unwind;
  }

  lemma AfterAudioTold(s: Bridge, h: Past)
    requires GenerationTold(s, h) && SocketsTold(s, h) && !s.start.Idle? && Undisturbed(h) && h.firstStop != Some(true)
    requires Untouched(s.video) && Untouched(s.rtcp)
    ensures Told(AfterAudio(s), h)
  {
    if s.generation != s.snapshot { UnwoundTold(s, false, true, true, Stopped, h); }
    else { OnTold(s, AfterAudio(s), h); }
    hide Told, Unwind;
  }

  lemma VideoCheckpointTold(s: Bridge, h: Past)
    requires GenerationTold(s, h) && SocketsTold(s, h) && !s.start.Idle? && Undisturbed(h) && h.firstStop != Some(true)
    requires Kept(s.video) && Kept(s.rtcp)
    ensures Told(VideoCheckpoint(s), h)
  {
    if s.generation != s.snapshot { UnwoundTold(s, false, false, false, Stopped, h); }
    else { OnTold(s, VideoCheckpoint(s), h); }
    hide Told, Unwind;
  }

  lemma AfterPushTold(s: Bridge, h: Past)
    requires GenerationTold(s, h) && SocketsTold(s, h) && !s.start.Idle? && Undisturbed(h) && (h.firstStop.Some? ==> h.firstStop.value)
    requires VideoKept(s)
    ensures Told(AfterPush(s), h)
  {
    if s.generation != s.snapshot {
      UnwoundTold(s, false, false, false, Stopped, h);
    } else {
      OnTold(s, AfterPush(s), h);
    }
    hide Told, Unwind;
  }

  lemma VideoMadeTold(s: Bridge, h: Past)
    requires Told(s, h) && Endpoints(s) && s.start.AwaitVideo? && ResumeStart(s).Some?
    ensures Told(ResumeStart(s).value, h)
  {
    var u := s.(video := s.video.(transport := true));
    if u.video.proto && u.rtcp.sock != Absent {
      RtcpBegins(u, h);
    } else {
      VideoCheckpointTold(u.(rtcp := CloseRaw(u.rtcp)), h);
    }
    hide Told, VideoCheckpoint;
  }

  lemma RtcpBegins(u: Bridge, h: Past)
    requires Settled(u, h) && SweepsTold(u, h) && u.start.AwaitVideo? && u.rtcp.sock != Absent
    ensures Told(u.(rtcp := Wrap(u.rtcp), start := AwaitRtcp), h)
  {}

  lemma EarlyTold(s: Bridge, h: Past)
    requires Told(s, h) && Endpoints(s) && ResumeStart(s).Some?
    requires s.start.AwaitPrewarm? || s.start.AwaitDiscard? || s.start.AwaitSpawn?
    ensures Told(ResumeStart(s).value, h)
  {
    assert Settled(s, h);
    hide Told, Settled, Wrapping;
    match s.start {
      case AwaitPrewarm(p) => ConsumedTold(s, p, h);
      case AwaitDiscard(_) => OnDemandTold(s, h);
      case AwaitSpawn(p) =>
        if StatusOf(s, p) == Failed { OnTold(s, ResumeStart(s).value, h); }
        else { AfterSpawnTold(s.(process := Some(p)), h); }
    }
  }

  lemma ConsumedTold(s: Bridge, p: nat, h: Past)
    requires Settled(s, h) && FreshSockets(s) && s.start == AwaitPrewarm(p)
    ensures Told(Consumed(s, p), h)
  {
    hide Told, OnDemand, AfterSpawn;
    if !Alive(s, p) { OnDemandTold(s, h); }
    else if s.procs[p].video == s.videoEnabled { AfterSpawnTold(s.(process := Some(p), pushEvent := Some(p)), h); }
    else { OnTold(s, Consumed(s, p), h); }
  }

  lemma ReapedTold(s: Bridge, h: Past)
    requires Told(s, h) && (s.start.Unwinding? || s.start.CleaningUp?) && ResumeStart(s).Some?
    ensures Told(ResumeStart(s).value, h)
  {}

  lemma ResumeTold(s: Bridge, h: Past)
    requires Told(s, h) && Endpoints(s) && ResumeStart(s).Some?
    ensures Told(ResumeStart(s).value, h)
  {
    assert Settled(s, h);
    hide Told, AfterAudio, VideoCheckpoint, AfterPush;
    match s.start {
      case AwaitAudio => AfterAudioTold(s.(audio := s.audio.(transport := true)), h);
      case AwaitVideo => VideoMadeTold(s, h);
      case AwaitRtcp =>
        VideoCheckpointTold(s.(rtcp := s.rtcp.(transport := true), pli := true, pliLive := true), h);
      case AwaitPush => AfterPushTold(s, h);
      case Unwinding(_, _) => ReapedTold(s, h);
      case CleaningUp(_) => ReapedTold(s, h);
      case _ => EarlyTold(s, h);
    }
  }

  // ---------- cancellation and failing wraps ----------

  lemma InterruptedTold(s: Bridge, h: Past)
    requires Endpoints(s) && SocketsTold(s, h) && !s.start.Idle? && !s.start.Finished?
    ensures var u := Interrupted(s);
      && Closable(u.video, true) && Closable(u.rtcp, true)
      && (u.video.sock == Absent <==> s.video.sock == Absent) && (u.rtcp.sock == Absent <==> s.rtcp.sock == Absent)
      && u.videoEnabled == s.videoEnabled && u.generation == s.generation && u.snapshot == s.snapshot
      && u.tasks == s.tasks && u.process == s.process && u.pushEvent == s.pushEvent && u.start == s.start
  {
    hide WithStatus;
    if s.start.AwaitSpawn? { OnlyStatus(s, s.start.p, Doomed); }
  }

  lemma HandlerLeaves(u: Bridge)
    ensures var t := CancelHandler(u);
      && t.videoEnabled == u.videoEnabled && t.tasks == u.tasks && SameCall(u, t, 0)
      && t.video == Swept(u.video, true) && t.rtcp == Swept(u.rtcp, true)
      && (t.start == Finished(Cancelled)
          || (t.start.CleaningUp? && u.process.Some? && t.pushEvent == u.pushEvent))
  {
    hide Alive, WithStatus, SweepMedia;
    var w := UnwindSweep(u, true, true, true);
    if IsRunning(w) { OnlyStatus(w.(process := None), w.process.value, Doomed); }
  }

  lemma CancelsBefore(s: Bridge, h: Past)
    requires PcTold(s, h) && CancelStart(s).Some? && !s.start.CleaningUp?
    ensures h.cancels == 0
  {
    hide CancelHandler, Interrupted, VideoGone, StoppedVideo;
  }

  /** The process is held only where a stop() that began still has it to sweep, or the push event is set. */
  lemma OwesTheEvent(s: Bridge, h: Past)
    requires Told(s, h) && Stops(s) && s.process.Some? && ProcessPlaced(s) && !s.start.Finished?
    ensures !s.start.Idle? && h.firstStop.None? ==> s.pushEvent.Some?
    ensures !s.start.Idle? && h.firstStop.Some? ==> Sweeping(s)
  {
    hide PcTold, SocketsTold, Sweeping;
  }

  lemma CancelTold(s: Bridge, h: Past)
    requires Told(s, h) && Rel(s) && ProcessPlaced(s) && CancelStart(s).Some?
    ensures Told(CancelStart(s).value, Recall(s, StartCancel, h))
  {
    if s.start.CleaningUp? {
      CancelAgainTold(s, h);
    } else {
      CancelsBefore(s, h);
      FirstCancelTold(s, h);
    }
  }

  lemma CancelAgainTold(s: Bridge, h: Past)
    requires Told(s, h) && s.start.CleaningUp?
    ensures Told(s.(start := Finished(CancelledTwice)), h.(cancels := h.cancels + 1))
  {}

  lemma FirstCancelTold(s: Bridge, h: Past)
    requires Told(s, h) && Rel(s) && ProcessPlaced(s) && CancelStart(s).Some? && !s.start.CleaningUp? && h.cancels == 0
    ensures Told(CancelStart(s).value, h.(cancels := 1))
  {
    assert GenerationTold(s, h) && SocketsTold(s, h) && Stops(s);
    InterruptedTold(s, h);
    var u := Interrupted(s);
    if s.process.Some? { OwesTheEvent(s, h); }
    hide Endpoints, Interrupted, CancelHandler, Told, Stops, Rel;
    HandlerLeaves(u);
    MediaReleased(u.video, true);
    MediaReleased(u.rtcp, true);
    KeepsAbsence(u.video, true);
    KeepsAbsence(u.rtcp, true);
    hide Swept, Closable;
    HandlerTold(s, CancelHandler(u), h.(cancels := 1));
  }

  lemma HandlerTold(s: Bridge, t: Bridge, h: Past)
    requires GenerationTold(s, h) && SocketsTold(s, h) && SameCall(s, t, 0) && !s.start.Idle? && h.cancels == 1
    requires t.videoEnabled == s.videoEnabled && VideoGone(t) && t.tasks == s.tasks
    requires (t.video.sock == Absent <==> s.video.sock == Absent) && (t.rtcp.sock == Absent <==> s.rtcp.sock == Absent)
    requires t.start == Finished(Cancelled) || (t.start.CleaningUp? && t.pushEvent == s.pushEvent
                && (h.firstStop.None? ==> s.pushEvent.Some?) && (h.firstStop.Some? ==> Sweeping(s)))
    ensures Told(t, h)
  {
    hide VideoGone;
  }

  lemma FailTold(s: Bridge, h: Past)
    requires Told(s, h) && Endpoints(s) && FailWrap(s).Some?
    ensures Told(FailWrap(s).value, h)
  {
    assert Settled(s, h);
    hide Told, Unwind, VideoCheckpoint;
    match s.start {
      case AwaitAudio => UnwoundTold(s.(audio := s.audio.(sock := Raw)), true, true, true, WrapFailed, h);
      case AwaitVideo => UnwoundTold(s.(video := s.video.(sock := Raw)), false, true, true, WrapFailed, h);
      case AwaitRtcp => VideoCheckpointTold(s.(rtcp := s.rtcp.(sock := Closed, proto := false)), h);
    }
  }

  lemma ConnectionTold(s: Bridge, c: Chan, h: Past)
    requires Told(s, h) && MakeConnection(s, c).Some?
    ensures Told(MakeConnection(s, c).value, h)
  {}

  // ---------- processes and the tasks beside start() ----------

  lemma StatusTold(s: Bridge, p: nat, st: Status, h: Past)
    requires Told(s, h) && p < |s.procs|
    requires s.start == AwaitSpawn(p) ==> (st == Failed <==> s.procs[p].status == Failed)
    ensures Told(WithStatus(s, p, st), h)
  {
    ToldSame(s, WithStatus(s, p, st), h);
    hide Told;
  }

  lemma SpawnFailsTold(s: Bridge, p: nat, h: Past)
    requires Told(s, h) && p < |s.procs|
    ensures Told(WithStatus(s, p, Failed), Recall(s, SpawnFails(p), h))
  {
    if s.start == AwaitSpawn(p) { OwnSpawnFails(s, p, h); } else { StatusTold(s, p, Failed, h); }
  }

  lemma OwnSpawnFails(s: Bridge, p: nat, h: Past)
    requires Told(s, h) && s.start == AwaitSpawn(p) && p < |s.procs|
    ensures Told(WithStatus(s, p, Failed), h.(spawnFailed := true))
  {}

  lemma PrewarmTold(s: Bridge, video: bool, h: Past)
    requires Told(s, h) && (s.start.AwaitSpawn? ==> s.start.p < |s.procs|)
    ensures Told(BeginPrewarm(s, video), h)
  {
    ToldSame(s, BeginPrewarm(s, video), h);
    hide Told;
  }

  lemma CleanupTold(s: Bridge, h: Past)
    requires Told(s, h)
    ensures Told(BeginCleanup(s), h)
  {
    hide Told;
    CleanupSweeps(s);
    CleanupSpawns(s);
    hide Sweeping, StatusOf;
    ToldTasks(s, BeginCleanup(s), h);
  }

  lemma CleanupSpawns(s: Bridge)
    ensures s.start.AwaitSpawn? ==> (StatusOf(BeginCleanup(s), s.start.p) == Failed <==> StatusOf(s, s.start.p) == Failed)
  {}

  lemma CleanTold(s: Bridge, k: nat, h: Past)
    requires Told(s, h) && ResumeCleanup(s, k).Some?
    ensures Told(ResumeCleanup(s, k).value, h)
  {
    hide Told;
    CleanMoves(s, k);
    if s.start.AwaitSpawn? { CleanFailsNothing(s, k); }
    hide ResumeCleanup, StatusOf;
    TaskTold(s, ResumeCleanup(s, k).value, k, h);
  }

  lemma TimeoutTold(s: Bridge, k: nat, h: Past)
    requires Told(s, h) && TimeoutStop(s, k).Some?
    ensures Told(TimeoutStop(s, k).value, h)
  {
    hide Told;
    TaskTold(s, TimeoutStop(s, k).value, k, h);
  }

  // ---------- every step ----------

  lemma SpawnIsKnown(s: Bridge)
    requires OwnInv(s)
    ensures s.start.AwaitSpawn? ==> s.start.p < |s.procs|
  {
    assert StartLocals(CoreOf(s));
  }

  lemma ProcessTold(s: Bridge, e: Event, h: Past)
    requires Told(s, h) && (e.SpawnUp? || e.SpawnFails? || e.Exits? || e.PliEnds?) && Step(s, e).Some?
    ensures Told(Step(s, e).value, Recall(s, e, h))
  {
    hide Told;
    match e {
      case SpawnUp(p) => StatusTold(s, p, Running, h);
      case SpawnFails(p) => SpawnFailsTold(s, p, h);
      case Exits(p) => StatusTold(s, p, Dead, h);
      case PliEnds => ToldSame(s, s.(pliLive := false), h);
    }
  }

  lemma ToldStep(s: Bridge, e: Event, h: Past)
    requires OwnInv(s) && Rel(s) && Polite(s, e) && Told(s, h) && Step(s, e).Some?
    ensures Told(Step(s, e).value, Recall(s, e, h))
  {
    ProcessIsPlaced(s);
    SpawnIsKnown(s);
    assert Endpoints(s) && Stops(s);
    hide OwnInv, Rel, Endpoints, Stops, Told, StartEntry, ResumeStart, CancelStart, FailWrap, BeginStop, ResumeStop,
      TimeoutStop, ResumeCleanup, BeginPrewarm, BeginCleanup, MakeConnection, WithStatus, ProcessPlaced;
    match e {
      case Prewarm(video) => PrewarmTold(s, video, h);
      case CancelPrewarm => CleanupTold(s, h);
      case StartCall(v, vr, r) => StartTold(s, v, vr, r, h);
      case StartResume => ResumeTold(s, h);
      case StartCancel => CancelTold(s, h);
      case WrapFails => FailTold(s, h);
      case ConnectionMade(c) => ConnectionTold(s, c, h);
      case StopBegin => BeginStopTold(s, h);
      case StopResume(k) => ResumeStopTold(s, k, h);
      case StopTimeout(k) => TimeoutTold(s, k, h);
      case CleanResume(k) => CleanTold(s, k, h);
      case _ => ProcessTold(s, e, h);
    }
  }
}
