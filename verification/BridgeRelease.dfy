/**
  What one `start()` created is released, whatever the interleaving with `stop()` and however it
  was cancelled; and what it returns alive is held where one later `stop()` finds it.
*/
module BridgeRelease {
  import opened Basics
  import opened BridgeState
  import opened BridgeOwnership
  import opened BridgeOwnershipRuns

  // ---------- the state of one media channel ----------

  predicate Untouched(m: Media) { m == RawMedia || m == NoMedia }

  /** The endpoint is under construction, or a stop() already closed it. */
  predicate Making(m: Media) { m.sock in {Wrapped, Closed} && !m.transport }

  /** The endpoint exists, and if open its transport is held in an attribute. */
  predicate Kept(m: Media) { m.sock != Raw && (m.sock == Wrapped ==> m.transport) }

  predicate AudioKept(s: Bridge) { s.audio.sock != Absent && Kept(s.audio) }

  predicate Released(m: Media) { m.sock in {Absent, Closed} && !m.proto && !m.transport }

  predicate NoTasks(s: Bridge) { !s.pli && !s.pliLive && !s.stats && !s.statsLive }

  predicate VideoKept(s: Bridge)
  {
    if s.videoEnabled then Kept(s.video) && Kept(s.rtcp) else Untouched(s.video) && Untouched(s.rtcp)
  }

  /** Released, or a video socket that was handed in with no video peer to wrap it for. */
  predicate VideoReleased(s: Bridge, m: Media, o: Outcome)
  {
    Released(m) || (!s.videoEnabled && o == Stopped && Untouched(m))
  }

  predicate AllReleased(s: Bridge, o: Outcome)
  {
    && s.process.None? && NoTasks(s)
    && Released(s.audio) && s.audio.sock == Closed && VideoReleased(s, s.video, o) && VideoReleased(s, s.rtcp, o)
  }

  // ---------- the invariant, one clause for each suspension point ----------

  predicate Endpoints(s: Bridge)
  {
    match s.start
    case Idle => s.audio == NoMedia && s.video == NoMedia && s.rtcp == NoMedia && NoTasks(s) && s.pushEvent.None?
    case AwaitAudio =>
      Making(s.audio) && Untouched(s.video) && Untouched(s.rtcp) && NoTasks(s)
      && (s.videoEnabled ==> s.video == RawMedia)
    case AwaitVideo =>
      AudioKept(s) && Making(s.video) && Untouched(s.rtcp) && NoTasks(s) && s.videoEnabled
    case AwaitRtcp =>
      AudioKept(s) && Kept(s.video) && Making(s.rtcp) && NoTasks(s) && s.videoEnabled
    case AwaitPush =>
      AudioKept(s) && VideoKept(s) && !s.stats && !s.statsLive && (s.pliLive ==> s.pli)
    case Unwinding(_, o) => o != SpawnFailed && o != Url && o != CancelledTwice && AllReleased(s, o)
    case CleaningUp(_) => AllReleased(s, Cancelled)
    case Finished(o) =>
      if o == Url then AudioKept(s) && VideoKept(s) && (s.pliLive ==> s.pli) && (s.statsLive ==> s.stats)
      else if o == SpawnFailed then FreshSockets(s)
      else AllReleased(s, o) && (o != CancelledTwice ==> s.pushEvent.None?)
    case _ => FreshSockets(s)
  }

  predicate FreshSockets(s: Bridge)
  {
    s.audio == RawMedia && Untouched(s.video) && Untouched(s.rtcp) && NoTasks(s)
    && (s.videoEnabled ==> s.video == RawMedia)
  }

  /** As long as no stop() has begun, what start() has built so far is up. */
  predicate Up(s: Bridge)
  {
    match s.start
    case AwaitSpawn(_) => s.pushEvent.Some?
    case AwaitAudio => s.pushEvent.Some? && s.process.Some? && s.audio.sock == Wrapped
    case AwaitVideo =>
      s.pushEvent.Some? && s.process.Some? && s.audio.sock == Wrapped && s.video.sock == Wrapped && s.video.proto
    case AwaitRtcp => s.pushEvent.Some? && s.process.Some? && s.audio.sock == Wrapped && s.video.sock == Wrapped
    case AwaitPush => AllUp(s)
    case Finished(o) => o == Url ==> AllUp(s)
    case _ => true
  }

  predicate AllUp(s: Bridge)
  {
    s.pushEvent.Some? && s.process.Some? && s.audio.sock == Wrapped && (s.videoEnabled ==> s.video.sock == Wrapped)
  }

  ghost predicate Sweeping(s: Bridge) { exists k :: 0 <= k < |s.tasks| && PreSweep(s.tasks[k]) }

  ghost predicate Stops(s: Bridge)
  {
    && s.snapshot <= s.generation
    && (!s.start.Idle? && s.generation == s.snapshot ==> AllSwept(s) && Up(s))
    && (s.start == Finished(Url) && s.snapshot < s.generation ==>
          Sweeping(s) || (AllReleased(s, Stopped) && s.pushEvent.None?))
  }

  ghost predicate Rel(s: Bridge) { Endpoints(s) && Stops(s) && !s.yanked }

  // ---------- unwinding ----------

  /** What unwinding closes: raw sockets it was handed, open endpoints through their transport. */
  predicate Closable(m: Media, handed: bool)
  {
    (m.sock == Raw ==> handed) && (m.sock == Wrapped ==> m.transport)
  }

  predicate TasksHeld(s: Bridge) { (s.pliLive ==> s.pli) && !s.stats && !s.statsLive }

  predicate Older(s: Bridge) { s.snapshot <= s.generation }

  ghost predicate Calm(s: Bridge) { Older(s) && (s.generation == s.snapshot ==> AllSwept(s)) }

  function Swept(m: Media, handed: bool): Media { if handed then CloseRaw(SweepMedia(m)) else SweepMedia(m) }

  lemma MediaReleased(m: Media, handed: bool)
    requires Closable(m, handed)
    ensures Released(Swept(m, handed)) && SweepMedia(m).sock != Wrapped
    ensures m.sock != Absent ==> Swept(m, handed).sock == Closed
  {}

  lemma MediaUnused(m: Media)
    requires Untouched(m)
    ensures Swept(m, false) == m
  {}

  lemma RelUnwound(s: Bridge, a: bool, v: bool, r: bool, inHandler: bool, o: Outcome)
    requires Calm(s) && !s.yanked && TasksHeld(s) && Closable(s.audio, a) && s.audio.sock != Absent
    requires Closable(s.video, v) || (!s.videoEnabled && o == Stopped && !v && Untouched(s.video))
    requires Closable(s.rtcp, r) || (!s.videoEnabled && o == Stopped && !r && Untouched(s.rtcp))
    requires o in {Stopped, WrapFailed, Cancelled} && (inHandler ==> o == Cancelled)
    ensures Rel(KillNow(UnwindSweep(s, a, v, r), inHandler, o))
  {
    MediaReleased(s.audio, a);
    if Closable(s.video, v) { MediaReleased(s.video, v); } else { MediaUnused(s.video); }
    if Closable(s.rtcp, r) { MediaReleased(s.rtcp, r); } else { MediaUnused(s.rtcp); }
    var u := UnwindSweep(s, a, v, r);
    assert u.audio == Swept(s.audio, a) && u.video == Swept(s.video, v) && u.rtcp == Swept(s.rtcp, r);
    assert AllReleased(u.(process := None), o) && !u.yanked;
    RelKilled(u, inHandler, o);
  }

  lemma RelKilled(u: Bridge, inHandler: bool, o: Outcome)
    requires Calm(u) && !u.yanked && AllReleased(u.(process := None), o)
    requires o in {Stopped, WrapFailed, Cancelled} && (inHandler ==> o == Cancelled)
    ensures Rel(KillNow(u, inHandler, o))
  {}

  // ---------- start() ----------

  lemma RelEarly(s: Bridge)
    requires Rel(s) && s.process.None? && ResumeStart(s).Some?
    requires s.start.AwaitPrewarm? || s.start.AwaitDiscard? || s.start.AwaitSpawn?
    ensures Rel(ResumeStart(s).value)
  {
    hide SweepMedia, UnwindSweep, KillNow;
    var p := s.start.p;
    var u := s.(process := Some(p), pushEvent := if s.start.AwaitPrewarm? then Some(p) else s.pushEvent);
    RelUnwound(u, true, true, true, false, Stopped);
  }

  lemma RelMaking(s: Bridge)
    requires Rel(s) && ResumeStart(s).Some? && (s.start.AwaitAudio? || s.start.AwaitPush?)
    ensures Rel(ResumeStart(s).value)
  {
    if s.start.AwaitAudio? {
      RelUnwound(s.(audio := s.audio.(transport := true)), false, true, true, false, Stopped);
    } else {
      RelUnwound(s, false, false, false, false, Stopped);
    }
  }

  lemma RelVideo(s: Bridge)
    requires Rel(s) && ResumeStart(s).Some? && s.start.AwaitVideo?
    ensures Rel(ResumeStart(s).value)
  {
    var u := s.(video := s.video.(transport := true), rtcp := CloseRaw(s.rtcp));
    RelUnwound(u, false, false, false, false, Stopped);
  }

  lemma RelRtcp(s: Bridge)
    requires Rel(s) && ResumeStart(s).Some? && s.start.AwaitRtcp?
    ensures Rel(ResumeStart(s).value)
  {
    var u := s.(rtcp := s.rtcp.(transport := true), pli := true, pliLive := true);
    RelUnwound(u, false, false, false, false, Stopped);
  }

  lemma RelReaped(s: Bridge)
    requires Rel(s) && ResumeStart(s).Some? && (s.start.Unwinding? || s.start.CleaningUp?)
    ensures Rel(ResumeStart(s).value)
  {}

  lemma RelCancel(s: Bridge)
    requires Rel(s) && CancelStart(s).Some?
    ensures Rel(CancelStart(s).value)
  {
    hide UnwindSweep, KillNow, SweepMedia;
    if !s.start.CleaningUp? { RelUnwound(Interrupted(s), true, true, true, true, Cancelled); }
  }

  lemma RelFailWrap(s: Bridge)
    requires Rel(s) && FailWrap(s).Some?
    ensures Rel(FailWrap(s).value)
  {
    match s.start {
      case AwaitAudio => RelUnwound(s.(audio := s.audio.(sock := Raw)), true, true, true, false, WrapFailed);
      case AwaitVideo => RelUnwound(s.(video := s.video.(sock := Raw)), false, true, true, false, WrapFailed);
      case AwaitRtcp =>
        RelUnwound(s.(rtcp := s.rtcp.(sock := Closed, proto := false)), false, false, false, false, Stopped);
    }
  }

  lemma RelStart(s: Bridge, v: bool, vr: bool, r: bool)
    requires Rel(s) && s.process.None? && s.start.Idle? && AllSwept(s)
    ensures Rel(StartEntry(s, v, vr, r))
  {}

  // ---------- stop() ----------

  /** Where `_process` may be set. */
  predicate ProcessPlaced(s: Bridge)
  {
    s.start == Finished(Url) || s.process.None? || s.start in {AwaitAudio, AwaitVideo, AwaitRtcp, AwaitPush}
  }

  /** A stop() has begun on this state, and has not swept it yet. */
  predicate Stopping(s: Bridge)
  {
    Endpoints(s) && !s.yanked && ProcessPlaced(s) && Older(s) && (s.start.Idle? || s.snapshot < s.generation)
  }

  /** A sweep leaves a suspended start() in a state its next checkpoint can unwind, and releases
      all that a finished start() had returned. */
  lemma RelSweep(s: Bridge, k: nat)
    requires Stopping(s) && k < |s.tasks|
    ensures Rel(StopSweep(s, k))
  {}

  lemma EndpointsSame(s: Bridge, t: Bridge)
    requires Endpoints(s)
    requires t.start == s.start && t.audio == s.audio && t.video == s.video && t.rtcp == s.rtcp
    requires t.process == s.process && t.pushEvent == s.pushEvent && t.videoEnabled == s.videoEnabled
    requires t.pli == s.pli && t.stats == s.stats && (t.pliLive ==> s.pliLive) && t.statsLive == s.statsLive
    ensures Endpoints(t)
  {}

  lemma RelAfterDiscard(s: Bridge, k: nat)
    requires Stopping(s) && k < |s.tasks|
    ensures Rel(StopAfterDiscard(s, k))
  {
    hide Endpoints, StopSweep;
    var s1 := s.(cleanup := None);
    EndpointsSame(s, s1);
    if s.cleanup.Some? && CleanupPending(s, s.cleanup.value) {
      EndpointsSame(s, StopAfterDiscard(s, k));
      assert PreSweep(StopAfterDiscard(s, k).tasks[k]);
    } else {
      RelSweep(s1, k);
    }
  }

  lemma RelBeginStop(s: Bridge)
    requires Rel(s) && ProcessPlaced(s)
    ensures Rel(BeginStop(s))
  {
    hide Endpoints, StopAfterDiscard;
    var k := |s.tasks|;
    if s.prewarm.Some? {
      EndpointsSame(s, BeginStop(s));
      assert PreSweep(BeginStop(s).tasks[k]);
    } else {
      var s1 := s.(generation := s.generation + 1, tasks := s.tasks + [StopDone]);
      EndpointsSame(s, s1);
      RelAfterDiscard(s1, k);
    }
  }

  /** A task that is neither finished nor a cleanup belongs to a stop() begun after the snapshot. */
  lemma RelTask(s: Bridge, t: Bridge, k: nat)
    requires Rel(s) && k < |s.tasks| && |t.tasks| == |s.tasks| && !PreSweep(s.tasks[k])
    requires forall j :: 0 <= j < |s.tasks| && j != k ==> t.tasks[j] == s.tasks[j]
    requires t.tasks[k].StopDone? || t.tasks[k].StopKill? || IsCleanup(t.tasks[k])
    requires t.tasks[k].StopKill? ==> s.tasks[k].StopTerm?
    requires t == s.(procs := t.procs, tasks := t.tasks)
    ensures Rel(t)
  {
    EndpointsSame(s, t);
    hide Endpoints;
    if Sweeping(s) {
      var j :| 0 <= j < |s.tasks| && PreSweep(s.tasks[j]);
      assert PreSweep(t.tasks[j]);
    }
  }

  lemma RelResumeStop(s: Bridge, k: nat)
    requires Rel(s) && ProcessPlaced(s) && ResumeStop(s, k).Some?
    ensures Rel(ResumeStop(s, k).value)
  {
    hide Endpoints, StopAfterDiscard, StopSweep;
    match s.tasks[k] {
      case StopPrewarm(p) =>
        if Alive(s, p) { RelStopDiscards(s, k); } else { RelAfterDiscard(s, k); }
      case StopDiscard(p) => RelAfterDiscard(s, k);
      case StopCleanup(_) => RelSweep(s, k);
      case _ => RelStopDone(s, k);
    }
  }

  lemma RelStopDiscards(s: Bridge, k: nat)
    requires Rel(s) && k < |s.tasks| && s.tasks[k].StopPrewarm? && Alive(s, s.tasks[k].p)
    requires ResumeStop(s, k).Some?
    ensures Rel(ResumeStop(s, k).value)
  {
    hide Endpoints, StopAfterDiscard, StopSweep;
    EndpointsSame(s, ResumeStop(s, k).value);
    assert PreSweep(ResumeStop(s, k).value.tasks[k]);
  }

  lemma RelStopDone(s: Bridge, k: nat)
    requires Rel(s) && k < |s.tasks| && (s.tasks[k].StopTerm? || s.tasks[k].StopKill?) && ResumeStop(s, k).Some?
    ensures Rel(ResumeStop(s, k).value)
  {
    hide Rel, StopAfterDiscard, StopSweep;
    RelTask(s, ResumeStop(s, k).value, k);
  }

  lemma RelNewCleanup(s: Bridge)
    requires Rel(s)
    ensures Rel(BeginCleanup(s))
  {
    var t := BeginCleanup(s);
    EndpointsSame(s, t);
    CleanupSweeps(s);
    hide Endpoints, Sweeping;
  }

  lemma CleanupSweeps(s: Bridge)
    ensures Sweeping(s) ==> Sweeping(BeginCleanup(s))
  {
    if Sweeping(s) {
      var j :| 0 <= j < |s.tasks| && PreSweep(s.tasks[j]);
      assert PreSweep(BeginCleanup(s).tasks[j]);
    }
  }

  // ---------- every step, every run ----------

  /** Events that touch neither the tasks nor what start() has built. */
  lemma RelOutside(s: Bridge, t: Bridge)
    requires Rel(s) && t == s.(procs := t.procs, prewarm := t.prewarm, pliLive := t.pliLive)
    requires t.pliLive ==> s.pliLive
    ensures Rel(t)
  {
    EndpointsSame(s, t);
  }

  lemma RelConnection(s: Bridge, c: Chan)
    requires Rel(s) && MakeConnection(s, c).Some?
    ensures Rel(MakeConnection(s, c).value)
  {}

  lemma ProcessIsPlaced(s: Bridge)
    requires OwnInv(s)
    ensures ProcessPlaced(s)
    ensures s.start.Idle? || s.start.AwaitPrewarm? || s.start.AwaitDiscard? || s.start.AwaitSpawn? ==> s.process.None?
  {
    assert StartLocals(CoreOf(s));
  }

  lemma RelStep(s: Bridge, e: Event)
    requires OwnInv(s) && Rel(s) && Polite(s, e) && Step(s, e).Some?
    ensures Rel(Step(s, e).value)
  {
    ProcessIsPlaced(s);
    hide OwnInv, Rel, StartEntry, ResumeStart, CancelStart, FailWrap, BeginStop, ResumeStop, TimeoutStop, ResumeCleanup,
      BeginPrewarm, BeginCleanup, MakeConnection, WithStatus, ProcessPlaced;
    match e {
      case Prewarm(video) => RelPrewarm(s, video);
      case CancelPrewarm => RelNewCleanup(s);
      case StartCall(v, vr, r) => RelStart(s, v, vr, r);
      case StartResume => RelResume(s);
      case StartCancel => RelCancel(s);
      case WrapFails => RelFailWrap(s);
      case ConnectionMade(c) => RelConnection(s, c);
      case StopBegin => RelBeginStop(s);
      case StopResume(k) => RelResumeStop(s, k);
      case StopTimeout(k) => RelTimeout(s, k);
      case CleanResume(k) => RelCleanup(s, k);
      case _ => RelProcess(s, e);
    }
  }

  lemma RelPrewarm(s: Bridge, video: bool)
    requires Rel(s)
    ensures Rel(BeginPrewarm(s, video))
  {
    hide Rel;
    RelOutside(s, BeginPrewarm(s, video));
  }

  /** A process comes up, fails or exits, or the PLI loop ends. */
  lemma RelProcess(s: Bridge, e: Event)
    requires Rel(s) && (e.SpawnUp? || e.SpawnFails? || e.Exits? || e.PliEnds?) && Step(s, e).Some?
    ensures Rel(Step(s, e).value)
  {
    hide Rel;
    match e {
      case SpawnUp(p) => RelStatus(s, p, Running);
      case SpawnFails(p) => RelStatus(s, p, Failed);
      case Exits(p) => RelStatus(s, p, Dead);
      case PliEnds => RelOutside(s, s.(pliLive := false));
    }
    hide WithStatus;
  }

  lemma RelStatus(s: Bridge, p: nat, st: Status)
    requires Rel(s)
    ensures Rel(WithStatus(s, p, st))
  {
    hide Rel;
    RelOutside(s, WithStatus(s, p, st));
  }

  lemma RelTimeout(s: Bridge, k: nat)
    requires Rel(s) && TimeoutStop(s, k).Some?
    ensures Rel(TimeoutStop(s, k).value)
  {
    RelTask(s, TimeoutStop(s, k).value, k);
  }

  lemma CleanMoves(s: Bridge, k: nat)
    requires ResumeCleanup(s, k).Some?
    ensures var t := ResumeCleanup(s, k).value;
      && k < |s.tasks| && !PreSweep(s.tasks[k]) && t == s.(procs := t.procs, tasks := s.tasks[k := t.tasks[k]])
      && |t.tasks| == |s.tasks| && IsCleanup(t.tasks[k])
  {
    hide StatusOf;
  }

  lemma CleanFailsNothing(s: Bridge, k: nat)
    requires ResumeCleanup(s, k).Some? && s.start.AwaitSpawn?
    ensures StatusOf(ResumeCleanup(s, k).value, s.start.p) == Failed <==> StatusOf(s, s.start.p) == Failed
  {
    match s.tasks[k] {
      case CleanWait(p) => if Alive(s, p) { DoomFailsNothing(s, p, s.start.p); }
      case _ =>
    }
    hide WithStatus, Alive;
  }

  lemma DoomFailsNothing(s: Bridge, p: nat, q: nat)
    requires Alive(s, p)
    ensures StatusOf(WithStatus(s, p, Doomed), q) == Failed <==> StatusOf(s, q) == Failed
  {}

  lemma RelCleanup(s: Bridge, k: nat)
    requires Rel(s) && ResumeCleanup(s, k).Some?
    ensures Rel(ResumeCleanup(s, k).value)
  {
    hide Rel;
    CleanMoves(s, k);
    hide ResumeCleanup;
    RelTask(s, ResumeCleanup(s, k).value, k);
  }

  lemma RelResume(s: Bridge)
    requires Rel(s) && ResumeStart(s).Some?
    requires s.start.AwaitPrewarm? || s.start.AwaitDiscard? || s.start.AwaitSpawn? ==> s.process.None?
    ensures Rel(ResumeStart(s).value)
  {
    hide Rel;
    match s.start {
      case AwaitAudio => RelMaking(s);
      case AwaitPush => RelMaking(s);
      case AwaitVideo => RelVideo(s);
      case AwaitRtcp => RelRtcp(s);
      case Unwinding(_, _) => RelReaped(s);
      case CleaningUp(_) => RelReaped(s);
      case _ => RelEarly(s);
    }
  }
}
