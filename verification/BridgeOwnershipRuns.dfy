/** The ownership invariant along every run of the bridge. */
module BridgeOwnershipRuns {
  import opened Basics
  import opened BridgeState
  import opened BridgeOwnership

  lemma OwnKillNow(s: Bridge, inHandler: bool, outcome: Outcome)
    requires CoreInv(Freed(CoreOf(s))) && outcome != Url
    ensures OwnInv(KillNow(s, inHandler, outcome))
  {
    var c := Freed(CoreOf(s));
    if IsRunning(s) {
      var p := s.process.value;
      CoreKillNow(c, if inHandler then CleaningUp(p) else Unwinding(p, outcome));
    } else {
      CoreDropProcess(c, Finished(outcome));
    }
  }

  lemma OwnUnwind(s: Bridge, a: bool, v: bool, r: bool, outcome: Outcome)
    requires CoreInv(Freed(CoreOf(s))) && outcome != Url
    ensures OwnInv(Unwind(s, a, v, r, outcome))
  {
    hide CoreInv;
    OwnKillNow(UnwindSweep(s, a, v, r), false, outcome);
  }

  lemma OwnCancelHandler(s: Bridge)
    requires CoreInv(Freed(CoreOf(s)))
    ensures OwnInv(CancelHandler(s))
  {
    hide CoreInv;
    OwnKillNow(UnwindSweep(s, true, true, true), true, Cancelled);
  }

  /** A checkpoint: unwind if some stop() has begun, else go on to a point that holds nothing. */
  lemma OwnCheckpoint(s: Bridge, a: bool, v: bool, r: bool, t: Bridge, next: StartPc)
    requires CoreInv(Freed(CoreOf(s))) && next in {AwaitAudio, AwaitVideo, AwaitRtcp, AwaitPush, Finished(Url)}
    requires t == Unwind(s, a, v, r, Stopped) || CoreOf(t) == CoreOf(s).(start := next)
    ensures OwnInv(t)
  {
    hide CoreInv;
    if t == Unwind(s, a, v, r, Stopped) { OwnUnwind(s, a, v, r, Stopped); }
    else { CoreSetStart(CoreOf(s), next); }
  }

  lemma OwnAdopt(s: Bridge, p: nat, event: Option<nat>)
    requires OwnInv(s) && s.start in {AwaitPrewarm(p), AwaitSpawn(p)} && s.procs[p].status in {Running, Dead}
    ensures OwnInv(AfterSpawn(s.(process := Some(p), pushEvent := event)))
  {
    var u := s.(process := Some(p), pushEvent := event);
    CoreAdopt(CoreOf(s), p);
    OwnCheckpoint(u, true, true, true, AfterSpawn(u), AwaitAudio);
  }

  lemma OwnConsumed(s: Bridge, p: nat)
    requires OwnInv(s) && s.start == AwaitPrewarm(p) && StatusOf(s, p) != Spawning
    ensures OwnInv(Consumed(s, p))
  {
    if !Alive(s, p) {
      CoreForget(CoreOf(s));
      CoreOnDemand(CoreOf(s), s.videoEnabled);
    } else if s.procs[p].video == s.videoEnabled {
      OwnAdopt(s, p, Some(p));
    } else {
      CoreStartKill(CoreOf(s), p);
    }
  }

  lemma OwnAfterVideo(s: Bridge)
    requires CoreInv(Freed(CoreOf(s)))
    ensures OwnInv(AfterVideo(s))
  {
    hide CoreInv;
    if s.video.proto && s.rtcp.sock != Absent {
      OwnCheckpoint(s, false, false, false, AfterVideo(s), AwaitRtcp);
    } else {
      var x := s.(rtcp := CloseRaw(s.rtcp));
      OwnCheckpoint(x, false, false, false, AfterVideo(s), AwaitPush);
    }
  }

  lemma OwnSpawned(s: Bridge, p: nat)
    requires OwnInv(s) && s.start == AwaitSpawn(p) && ResumeStart(s).Some?
    ensures OwnInv(ResumeStart(s).value)
  {
    if StatusOf(s, p) == Failed {
      CoreForget(CoreOf(s));
      CoreSetStart(CoreOf(s), Finished(SpawnFailed));
    } else {
      OwnAdopt(s, p, s.pushEvent);
    }
  }

  lemma OwnReaped(s: Bridge)
    requires OwnInv(s) && (s.start.Unwinding? || s.start.CleaningUp?) && ResumeStart(s).Some?
    ensures OwnInv(ResumeStart(s).value)
  {
    CoreForget(CoreOf(s));
    CoreSetStart(CoreOf(s), ResumeStart(s).value.start);
  }

  lemma OwnEndpointMade(s: Bridge)
    requires OwnInv(s) && s.start in {AwaitAudio, AwaitVideo, AwaitRtcp, AwaitPush} && ResumeStart(s).Some?
    ensures OwnInv(ResumeStart(s).value)
  {
    CoreForget(CoreOf(s));
    var t := ResumeStart(s).value;
    match s.start {
      case AwaitAudio =>
        OwnCheckpoint(s.(audio := s.audio.(transport := true)), false, true, true, t,
                      if s.videoEnabled then AwaitVideo else AwaitPush);
      case AwaitVideo => OwnAfterVideo(s.(video := s.video.(transport := true)));
      case AwaitRtcp =>
        OwnCheckpoint(s.(rtcp := s.rtcp.(transport := true), pli := true, pliLive := true),
                      false, false, false, t, AwaitPush);
      case AwaitPush => OwnCheckpoint(s, false, false, false, t, Finished(Url));
    }
  }

  lemma OwnDiscarded(s: Bridge, p: nat)
    requires OwnInv(s) && s.start == AwaitDiscard(p) && StatusOf(s, p) == Dead
    ensures OwnInv(OnDemand(s))
  {
    CoreForget(CoreOf(s));
    CoreOnDemand(CoreOf(s), s.videoEnabled);
  }

  lemma OwnResume(s: Bridge)
    requires OwnInv(s) && ResumeStart(s).Some?
    ensures OwnInv(ResumeStart(s).value)
  {
    hide CoreInv;
    match s.start {
      case AwaitPrewarm(p) => OwnConsumed(s, p);
      case AwaitDiscard(p) => OwnDiscarded(s, p);
      case AwaitSpawn(p) => OwnSpawned(s, p);
      case Unwinding(_, _) => OwnReaped(s);
      case CleaningUp(_) => OwnReaped(s);
      case _ => OwnEndpointMade(s);
    }
  }

  lemma OwnCancelSpawn(s: Bridge, p: nat)
    requires OwnInv(s) && s.start == AwaitSpawn(p)
    ensures OwnInv(CancelStart(s).value)
  {
    hide CancelHandler;
    if StatusOf(s, p) in {Spawning, Running} {
      CoreStartKill(CoreOf(s), p);
      OwnCancelHandler(WithStatus(s, p, Doomed));
    } else {
      CoreForget(CoreOf(s));
      OwnCancelHandler(s);
    }
  }

  lemma OwnCancelPrewarm(s: Bridge, p: nat)
    requires OwnInv(s) && s.start == AwaitPrewarm(p) && s.prewarm.None?
    ensures OwnInv(CancelStart(s).value)
  {
    CoreReattach(CoreOf(s));
    OwnCancelHandler(s.(prewarm := Some(p)));
  }

  lemma OwnCancelLater(s: Bridge)
    requires OwnInv(s) && CancelStart(s).Some? && !s.start.AwaitPrewarm? && !s.start.AwaitSpawn?
    ensures OwnInv(CancelStart(s).value)
  {
    hide CancelHandler;
    CoreForget(CoreOf(s));
    if s.start.CleaningUp? { CoreSetStart(CoreOf(s), Finished(CancelledTwice)); }
    else { OwnCancelHandler(Interrupted(s)); }
  }

  lemma OwnCancel(s: Bridge)
    requires OwnInv(s) && CancelStart(s).Some? && (s.start.AwaitPrewarm? ==> s.prewarm.None?)
    ensures OwnInv(CancelStart(s).value)
  {
    hide CoreInv;
    if s.start.AwaitPrewarm? { OwnCancelPrewarm(s, s.start.p); }
    else if s.start.AwaitSpawn? { OwnCancelSpawn(s, s.start.p); }
    else { OwnCancelLater(s); }
  }

  lemma OwnFailWrap(s: Bridge)
    requires OwnInv(s) && FailWrap(s).Some?
    ensures OwnInv(FailWrap(s).value)
  {
    CoreForget(CoreOf(s));
    match s.start {
      case AwaitAudio => OwnUnwind(s.(audio := s.audio.(sock := Raw)), true, true, true, WrapFailed);
      case AwaitVideo => OwnUnwind(s.(video := s.video.(sock := Raw)), false, true, true, WrapFailed);
      case AwaitRtcp =>
        OwnCheckpoint(s.(rtcp := s.rtcp.(sock := Closed, proto := false)),
                      false, false, false, FailWrap(s).value, AwaitPush);
    }
  }

  lemma OwnStartEntry(s: Bridge, v: bool, vr: bool, r: bool)
    requires OwnInv(s) && s.start.Idle?
    ensures OwnInv(StartEntry(s, v, vr, r))
  {
    CoreForget(CoreOf(s));
    if s.prewarm.Some? { OwnStartConsumes(s, v, vr, r); } else { OwnStartSpawns(s, v, vr, r); }
  }

  lemma OwnStartConsumes(s: Bridge, v: bool, vr: bool, r: bool)
    requires CoreInv(Freed(CoreOf(s))) && s.process.None? && s.prewarm.Some?
    ensures OwnInv(StartEntry(s, v, vr, r))
  {
    CoreConsume(CoreOf(s));
  }

  lemma OwnStartSpawns(s: Bridge, v: bool, vr: bool, r: bool)
    requires CoreInv(Freed(CoreOf(s))) && s.process.None? && s.prewarm.None?
    ensures OwnInv(StartEntry(s, v, vr, r))
  {
    CoreOnDemand(CoreOf(s), v && vr);
  }

  // ---------- stop() and the cleanup task ----------

  lemma OwnStopSweep(s: Bridge, k: nat)
    requires OwnInv(s) && k < |s.tasks| && TaskHolds(s.tasks[k]).None?
    ensures OwnInv(StopSweep(s, k))
  {
    CoreSweep(CoreOf(s), k);
  }

  lemma OwnStopAfterDiscard(s: Bridge, k: nat)
    requires OwnInv(s) && k < |s.tasks|
    requires TaskHolds(s.tasks[k]).Some? ==> !Live(CoreOf(s), TaskHolds(s.tasks[k]).value)
    ensures OwnInv(StopAfterDiscard(s, k))
  {
    var s1 := s.(cleanup := None);
    if s.cleanup.Some? && CleanupPending(s, s.cleanup.value) {
      CoreTaskIdle(CoreOf(s), k, StopCleanup(s.cleanup.value));
    } else {
      CoreTaskIdle(CoreOf(s), k, StopDone);
      OwnStopSweep(s1.(tasks := s.tasks[k := StopDone]), k);
      assert s.tasks[k := StopDone][k := StopSweep(s1, k).tasks[k]] == StopSweep(s1, k).tasks;
    }
  }

  lemma OwnBeginStop(s: Bridge)
    requires OwnInv(s)
    ensures OwnInv(BeginStop(s))
  {
    hide CoreInv;
    CoreNewTask(CoreOf(s));
    if s.prewarm.None? { OwnStopBegun(s); }
  }

  lemma OwnStopBegun(s: Bridge)
    requires CoreInv(CoreOf(s).(tasks := s.tasks + [StopDone])) && s.prewarm.None?
    ensures OwnInv(BeginStop(s))
  {
    hide CoreInv, StopAfterDiscard, StopSweep;
    var s1 := s.(generation := s.generation + 1, tasks := s.tasks + [StopDone]);
    assert OwnInv(s1);
    OwnStopAfterDiscard(s1, |s.tasks|);
    assert BeginStop(s) == StopAfterDiscard(s1, |s.tasks|);
  }

  lemma OwnStopKills(s: Bridge, k: nat, p: nat)
    requires OwnInv(s) && k < |s.tasks| && s.tasks[k] == StopPrewarm(p) && Alive(s, p)
    ensures OwnInv(WithStatus(s, p, Doomed).(tasks := s.tasks[k := StopDiscard(p)]))
  {
    CoreTaskKill(CoreOf(s), k, p, StopDiscard(p));
  }

  lemma OwnResumeStop(s: Bridge, k: nat)
    requires OwnInv(s) && ResumeStop(s, k).Some?
    ensures OwnInv(ResumeStop(s, k).value)
  {
    hide StopAfterDiscard, StopSweep;
    var c := CoreOf(s);
    match s.tasks[k] {
      case StopPrewarm(p) => if Alive(s, p) { OwnStopKills(s, k, p); } else { OwnStopAfterDiscard(s, k); }
      case StopDiscard(p) => OwnStopAfterDiscard(s, k);
      case StopCleanup(_) => OwnStopSweep(s, k);
      case StopTerm(p) => CoreTaskIdle(c, k, StopDone);
      case StopKill(p) => CoreTaskIdle(c, k, StopDone);
    }
  }

  lemma OwnResumeCleanup(s: Bridge, k: nat)
    requires OwnInv(s) && ResumeCleanup(s, k).Some?
    ensures OwnInv(ResumeCleanup(s, k).value)
  {
    var p := s.tasks[k].p;
    if s.tasks[k].CleanWait? && Alive(s, p) { CoreTaskKill(CoreOf(s), k, p, CleanDiscard(p)); }
    else { CoreTaskIdle(CoreOf(s), k, CleanDone); }
  }

  // ---------- every step, every run ----------

  lemma OwnPrewarm(s: Bridge, video: bool)
    requires OwnInv(s)
    ensures OwnInv(BeginPrewarm(s, video))
  {
    if !(IsRunning(s) || s.prewarm.Some?) { CorePrewarm(CoreOf(s), video); }
  }

  lemma OwnCleanupBegins(s: Bridge)
    requires OwnInv(s)
    ensures OwnInv(BeginCleanup(s))
  {
    CoreNewTask(CoreOf(s));
  }

  lemma OwnTimeout(s: Bridge, k: nat)
    requires OwnInv(s) && TimeoutStop(s, k).Some?
    ensures OwnInv(TimeoutStop(s, k).value)
  {
    CoreTaskKill(CoreOf(s), k, s.tasks[k].p, StopKill(s.tasks[k].p));
  }

  lemma OwnStatus(s: Bridge, p: nat, st: Status)
    requires OwnInv(s) && p < |s.procs|
    requires (s.procs[p].status == Spawning && st in {Running, Failed}) || (Alive(s, p) && st == Dead)
    ensures OwnInv(WithStatus(s, p, st))
  {
    CoreStatus(CoreOf(s), p, st);
  }

  lemma OwnConnection(s: Bridge, c: Chan)
    requires OwnInv(s) && MakeConnection(s, c).Some?
    ensures OwnInv(MakeConnection(s, c).value)
  {
    OwnUntouched(s, MakeConnection(s, c).value);
  }

  lemma OwnUntouched(s: Bridge, t: Bridge)
    requires OwnInv(s) && CoreOf(t) == CoreOf(s)
    ensures OwnInv(t)
  {}

  lemma OwnStep(s: Bridge, e: Event)
    requires OwnInv(s) && Polite(s, e) && Step(s, e).Some?
    ensures OwnInv(Step(s, e).value)
  {
    hide OwnInv, StartEntry, ResumeStart, CancelStart, FailWrap, BeginStop, ResumeStop, TimeoutStop, ResumeCleanup;
    match e {
      case Prewarm(video) => OwnPrewarm(s, video);
      case CancelPrewarm => OwnCleanupBegins(s);
      case StartCall(v, vr, r) => OwnStartEntry(s, v, vr, r);
      case StartResume => OwnResume(s);
      case StartCancel => OwnCancel(s);
      case WrapFails => OwnFailWrap(s);
      case StopBegin => OwnBeginStop(s);
      case StopResume(k) => OwnResumeStop(s, k);
      case StopTimeout(k) => OwnTimeout(s, k);
      case CleanResume(k) => OwnResumeCleanup(s, k);
      case SpawnUp(p) => OwnStatus(s, p, Running);
      case SpawnFails(p) => OwnStatus(s, p, Failed);
      case Exits(p) => OwnStatus(s, p, Dead);
      case ConnectionMade(c) => OwnConnection(s, c);
      case PliEnds => OwnUntouched(s, Step(s, e).value);
    }
  }

  lemma {:induction false} OwnRun(s: Bridge, es: seq<Event>)
    requires OwnInv(s) && PoliteRun(s, es) && Run(s, es).Some?
    ensures OwnInv(Run(s, es).value)
    decreases |es|
  {
    if es != [] {
      OwnStep(s, es[0]);
      OwnRun(Step(s, es[0]).value, es[1..]);
    }
  }

  /** MAIN RESULT. In every state of every polite run, an ffmpeg that is being spawned or is running
      has exactly one owner, and no process ever has two. */
  lemma EveryFfmpegHasOneOwner(g: nat, es: seq<Event>, p: nat)
    requires PoliteRun(Fresh(g), es) && Run(Fresh(g), es).Some?
    ensures var c := CoreOf(Run(Fresh(g), es).value);
      && OwnerCount(c, p) <= 1
      && (Live(c, p) ==> OwnerCount(c, p) == 1)
  {
    OwnRun(Fresh(g), es);
  }
}
