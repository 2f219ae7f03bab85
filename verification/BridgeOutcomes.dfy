/** How `start()` ends, decided by the events alone, and how far it is on the way there. */
module BridgeOutcomes {
  import opened Basics
  import opened BridgeState
  import opened BridgeShapes
  import opened BridgeOwnership
  import opened BridgeRelease
  import opened BridgeHistory
  import opened BridgeTheorems

  /** What came in the way of a `start()`. `stopped`: a `stop()` began while it was in flight;
      `spawnFailed`: the spawn it waited for; `wrapFailed`: its audio or video endpoint;
      `rtcpFailed`: its RTCP endpoint. */
  datatype Fate = Fate(running: bool, cancels: nat, spawnFailed: bool, wrapFailed: bool, stopped: bool, rtcpFailed: bool)

  const UNTOLD := Fate(false, 0, false, false, false, false)

  predicate InFlight(pc: StartPc) { !pc.Idle? && !pc.Finished? }

  function Tell(s: Bridge, e: Event, f: Fate): Fate
  {
    match e
    case StartCall(_, _, _) => f.(running := IsRunning(s))
    case StartCancel => f.(cancels := f.cancels + 1)
    case SpawnFails(p) => if s.start == AwaitSpawn(p) then f.(spawnFailed := true) else f
    case WrapFails => if s.start.AwaitRtcp? then f.(rtcpFailed := true) else f.(wrapFailed := true)
    case StopBegin => if InFlight(s.start) then f.(stopped := true) else f
    case _ => f
  }

  function FateOf(s: Bridge, es: seq<Event>, f: Fate): Fate
    decreases |es|
  {
    if es == [] || Step(s, es[0]).None? then f else FateOf(Step(s, es[0]).value, es[1..], Tell(s, es[0], f))
  }

  /** How a `start()` with this fate ends. */
  function Verdict(f: Fate): Outcome
  {
    if f.running then Url
    else if f.cancels >= 2 then CancelledTwice
    else if f.cancels == 1 then Cancelled
    else if f.wrapFailed then WrapFailed
    else if f.spawnFailed then SpawnFailed
    else if f.stopped then Stopped
    else Url
  }

  /** Nothing but a stop() has come in the way. */
  predicate GoingOn(f: Fate) { !f.running && f.cancels == 0 && !f.wrapFailed }

  predicate Fated(s: Bridge, f: Fate)
  {
    match s.start
    case Idle => f == UNTOLD
    case Finished(o) => o == Verdict(f)
    case Unwinding(_, o) => GoingOn(f.(wrapFailed := false)) && !f.spawnFailed && o == Verdict(f) && o != Url
    case CleaningUp(_) => !f.running && f.cancels == 1
    case _ =>
      && GoingOn(f) && s.snapshot <= s.generation && (f.stopped <==> s.snapshot < s.generation)
      && (f.spawnFailed <==> s.start.AwaitSpawn? && StatusOf(s, s.start.p) == Failed)
  }

  lemma CheckedFated(s: Bridge, t: Bridge, pc: StartPc, f: Fate)
    requires Checked(s, t, pc) && Fated(s, f) && InFlight(s.start) && !s.start.Unwinding? && !s.start.CleaningUp?
    requires !f.spawnFailed && !pc.Idle? && !pc.Unwinding? && !pc.CleaningUp? && !pc.AwaitSpawn? && (pc.Finished? ==> pc == Finished(Url))
    ensures Fated(t, f)
  {
    hide Evolves;
  }

  lemma AdoptedFated(s: Bridge, t: Bridge, p: nat, f: Fate)
    requires Adopted(s, t, p) && Fated(s, f) && (s.start.AwaitPrewarm? || s.start.AwaitSpawn?) && !f.spawnFailed
    ensures Fated(t, f)
  {
    hide Evolves;
  }

  lemma SpawnFated(s: Bridge, t: Bridge, f: Fate)
    requires SpawnsAnew(s, t, s.videoEnabled) && SameFrame(s, t)
    requires Fated(s, f) && (s.start.AwaitPrewarm? || s.start.AwaitDiscard?)
    ensures Fated(t, f)
  {}

  lemma ResumeFated(s: Bridge, f: Fate)
    requires Fated(s, f) && ResumeStart(s).Some?
    ensures Fated(ResumeStart(s).value, f)
  {
    ResumeInFlight(s);
    var t := ResumeStart(s).value;
    hide ResumeStart, Checked, Adopted, SpawnsAnew, SameFrame, RtcpNext;
    match s.start {
      case AwaitPrewarm(p) => PrewarmedFated(s, f);
      case AwaitDiscard(_) => ResumeDiscarded(s); SpawnFated(s, t, f);
      case AwaitSpawn(p) => SpawnedFated(s, f);
      case AwaitVideo =>
        if RtcpNext(s) { RtcpFated(s, f); } else { ResumeCheckpoint(s); CheckedFated(s, t, AwaitPush, f); }
      case Unwinding(_, _) => ReapedFated(s, f);
      case CleaningUp(_) => ReapedFated(s, f);
      case _ => ResumeCheckpoint(s); CheckedFated(s, t, NextPc(s), f);
    }
  }

  lemma PrewarmedFated(s: Bridge, f: Fate)
    requires Fated(s, f) && s.start.AwaitPrewarm? && ResumeStart(s).Some?
    ensures Fated(ResumeStart(s).value, f)
  {
    ResumePrewarmed(s);
    var t, p := ResumeStart(s).value, s.start.p;
    hide ResumeStart, Adopted, SpawnsAnew, SameFrame;
    if !Alive(s, p) { SpawnFated(s, t, f); }
    else if s.procs[p].video == s.videoEnabled { AdoptedFated(s, t, p, f); }
  }

  lemma SpawnedFated(s: Bridge, f: Fate)
    requires Fated(s, f) && s.start.AwaitSpawn? && ResumeStart(s).Some?
    ensures Fated(ResumeStart(s).value, f)
  {
    ResumeSpawned(s);
    hide ResumeStart, Adopted;
    if StatusOf(s, s.start.p) != Failed { AdoptedFated(s, ResumeStart(s).value, s.start.p, f); }
  }

  lemma RtcpFated(s: Bridge, f: Fate)
    requires Fated(s, f) && s.start.AwaitVideo? && RtcpNext(s) && ResumeStart(s).Some?
    ensures Fated(ResumeStart(s).value, f)
  {
    ResumeWrapsRtcp(s);
    hide ResumeStart;
  }

  lemma ReapedFated(s: Bridge, f: Fate)
    requires Fated(s, f) && (s.start.Unwinding? || s.start.CleaningUp?) && ResumeStart(s).Some?
    ensures Fated(ResumeStart(s).value, f)
  {
    ResumeReaped(s);
    hide ResumeStart;
  }

  lemma CancelFated(s: Bridge, f: Fate)
    requires Fated(s, f) && CancelStart(s).Some?
    ensures Fated(CancelStart(s).value, Tell(s, StartCancel, f))
  {
    CancelInFlight(s);
    CancelShape(s);
    var t := CancelStart(s).value;
    hide CancelStart, Evolves, SameFrame, InFlight;
    if s.start.CleaningUp? { CancelsTwice(s, t, f); } else { CancelsOnce(s, t, f); }
  }

  lemma CancelsTwice(s: Bridge, t: Bridge, f: Fate)
    requires Fated(s, f) && s.start.CleaningUp? && t.start == Finished(CancelledTwice)
    ensures Fated(t, Tell(s, StartCancel, f))
  {}

  lemma CancelsOnce(s: Bridge, t: Bridge, f: Fate)
    requires Fated(s, f) && InFlight(s.start) && !s.start.CleaningUp? && (t.start == Finished(Cancelled) || t.start.CleaningUp?)
    ensures Fated(t, Tell(s, StartCancel, f))
  {}

  lemma CancelInFlight(s: Bridge)
    requires CancelStart(s).Some?
    ensures InFlight(s.start)
  {
    hide CancelHandler, Interrupted;
  }

  lemma FailFated(s: Bridge, f: Fate)
    requires Fated(s, f) && FailWrap(s).Some?
    ensures Fated(FailWrap(s).value, Tell(s, WrapFails, f))
  {
    FailShape(s);
    FailsWrapping(s);
    hide FailWrap, Checked, Undone, Fated;
    if s.start.AwaitRtcp? { RtcpFails(s, FailWrap(s).value, f); } else { EndpointFails(s, FailWrap(s).value, f); }
  }

  lemma RtcpFails(s: Bridge, t: Bridge, f: Fate)
    requires Fated(s, f) && s.start.AwaitRtcp? && Checked(s, t, AwaitPush)
    ensures Fated(t, Tell(s, WrapFails, f))
  {
    hide Evolves;
  }

  lemma EndpointFails(s: Bridge, t: Bridge, f: Fate)
    requires Fated(s, f) && (s.start.AwaitAudio? || s.start.AwaitVideo?) && Undone(s, t, WrapFailed)
    ensures Fated(t, Tell(s, WrapFails, f))
  {
    hide Evolves, SameFrame;
  }

  lemma FailsWrapping(s: Bridge)
    requires FailWrap(s).Some?
    ensures s.start.AwaitAudio? || s.start.AwaitVideo? || s.start.AwaitRtcp?
  {
    hide VideoCheckpoint, Unwind;
  }

  lemma EntryFated(s: Bridge, v: bool, vr: bool, r: bool, f: Fate)
    requires Fated(s, f) && s.start.Idle?
    ensures Fated(StartEntry(s, v, vr, r), Tell(s, StartCall(v, vr, r), f))
  {
    EntryShape(s, v, vr, r);
    hide StartEntry, IsRunning;
  }

  /** Processes and other tasks do not touch what `start()` is at. */
  lemma OutsideFated(s: Bridge, t: Bridge, f: Fate)
    requires Fated(s, f) && SameStart(s, t) && t.generation == s.generation && Evolves(s, t)
    requires s.start.AwaitSpawn? ==> (StatusOf(t, s.start.p) == Failed <==> StatusOf(s, s.start.p) == Failed)
    ensures Fated(t, f)
  {
    hide Evolves;
  }

  lemma KilledNotFailed(s: Bridge, t: Bridge, p: nat, q: nat)
    requires t == s.(procs := t.procs) && t == WithStatus(s, p, Doomed) && Alive(s, p)
    ensures StatusOf(t, q) == Failed <==> StatusOf(s, q) == Failed
  {}

  lemma SpawnFate(s: Bridge, t: Bridge, p: nat, f: Fate)
    requires Fated(s, f) && p < |s.procs| && s.procs[p].status == Spawning && t == WithStatus(s, p, Failed)
    ensures Fated(t, Tell(s, SpawnFails(p), f))
  {}

  lemma StopFated(s: Bridge, f: Fate)
    requires Fated(s, f)
    ensures Fated(BeginStop(s), Tell(s, StopBegin, f))
  {
    BeginStopShape(s);
    hide BeginStop, MustWait, SameTasks, StatusOf;
    assert BeginStop(s).procs == s.procs;
    SameStatus(s, BeginStop(s));
  }

  lemma SameStatus(s: Bridge, t: Bridge)
    requires t.procs == s.procs
    ensures forall p :: StatusOf(t, p) == StatusOf(s, p)
  {}

  /** A task kills only what is alive, so no spawn fails by that. */
  lemma TaskFailsNone(s: Bridge, e: Event, p: nat)
    requires Step(s, e).Some? && (e.StopResume? || e.StopTimeout? || e.CleanResume?)
    ensures StatusOf(Step(s, e).value, p) == Failed <==> StatusOf(s, p) == Failed
  {
    match e {
      case StopResume(k) => StopFailsNone(s, k, p);
      case StopTimeout(k) => TimeoutFailsNone(s, k, p);
      case CleanResume(k) => CleanFailsNone(s, k, p);
    }
    hide ResumeStop, TimeoutStop, ResumeCleanup, StatusOf;
  }

  lemma DoomFailsNone(s: Bridge, p: nat, q: nat)
    requires Alive(s, p)
    ensures StatusOf(WithStatus(s, p, Doomed), q) == Failed <==> StatusOf(s, q) == Failed
  {}

  lemma StopFailsNone(s: Bridge, k: nat, q: nat)
    requires ResumeStop(s, k).Some?
    ensures StatusOf(ResumeStop(s, k).value, q) == Failed <==> StatusOf(s, q) == Failed
  {
    hide StopAfterDiscard, StopSweep, WithStatus, Alive, MustWait, SameTasks, SameStart;
    var t := ResumeStop(s, k).value;
    match s.tasks[k] {
      case StopPrewarm(p) =>
        if Alive(s, p) { DoomFailsNone(s, p, q); assert t.procs == WithStatus(s, p, Doomed).procs; }
        else { AfterDiscardShape(s, k); SameStatus(s, t); }
      case StopDiscard(_) => AfterDiscardShape(s, k); SameStatus(s, t);
      case StopCleanup(_) => SweepShape(s, k); SameStatus(s, t);
      case _ => SameStatus(s, t);
    }
  }

  lemma TimeoutFailsNone(s: Bridge, k: nat, q: nat)
    requires TimeoutStop(s, k).Some?
    ensures StatusOf(TimeoutStop(s, k).value, q) == Failed <==> StatusOf(s, q) == Failed
  {
    DoomFailsNone(s, s.tasks[k].p, q);
    hide WithStatus, Alive;
    assert TimeoutStop(s, k).value.procs == WithStatus(s, s.tasks[k].p, Doomed).procs;
  }

  lemma CleanFailsNone(s: Bridge, k: nat, q: nat)
    requires ResumeCleanup(s, k).Some?
    ensures StatusOf(ResumeCleanup(s, k).value, q) == Failed <==> StatusOf(s, q) == Failed
  {
    hide WithStatus, Alive;
    var t := ResumeCleanup(s, k).value;
    match s.tasks[k] {
      case CleanWait(p) =>
        if Alive(s, p) { DoomFailsNone(s, p, q); assert t.procs == WithStatus(s, p, Doomed).procs; } else { SameStatus(s, t); }
      case _ => SameStatus(s, t);
    }
  }

  lemma TaskFated(s: Bridge, e: Event, f: Fate)
    requires Fated(s, f) && Step(s, e).Some? && (e.StopResume? || e.StopTimeout? || e.CleanResume?)
    ensures Fated(Step(s, e).value, Tell(s, e, f))
  {
    var t := Step(s, e).value;
    StepEvolves(s, e);
    if s.start.AwaitSpawn? { TaskFailsNone(s, e, s.start.p); }
    TaskFrame(s, e);
    hide Step, Fated, Evolves, StatusOf;
    OutsideFated(s, t, f);
  }

  lemma TaskFrame(s: Bridge, e: Event)
    requires Step(s, e).Some? && (e.StopResume? || e.StopTimeout? || e.CleanResume?)
    ensures SameStart(s, Step(s, e).value) && Step(s, e).value.generation == s.generation
  {
    hide ResumeStop, TimeoutStop, ResumeCleanup, Evolves, SameTasks, LetsGo, PreSweep, Alive;
    match e {
      case StopResume(k) => ResumeStopMoves(s, k);
      case StopTimeout(k) => TimeoutMoves(s, k);
      case CleanResume(k) => ResumeCleanupMoves(s, k);
    }
  }

  lemma BesideFated(s: Bridge, e: Event, f: Fate)
    requires Fated(s, f) && Step(s, e).Some? && Beside(e) && !e.SpawnFails?
    ensures Fated(Step(s, e).value, Tell(s, e, f))
  {
    var t := Step(s, e).value;
    StepEvolves(s, e);
    BesideShape(s, e);
    if s.start.AwaitSpawn? { BesideFailsNone(s, e, s.start.p, f); }
    hide Step, Fated, Evolves, StatusOf;
    OutsideFated(s, t, f);
  }

  lemma BesideFailsNone(s: Bridge, e: Event, q: nat, f: Fate)
    requires Step(s, e).Some? && Beside(e) && !e.SpawnFails? && s.start == AwaitSpawn(q) && Fated(s, f)
    ensures StatusOf(Step(s, e).value, q) == Failed <==> StatusOf(s, q) == Failed
  {
    hide Fated;
    match e {
      case Prewarm(video) => PrewarmShape(s, video); hide BeginPrewarm;
      case CancelPrewarm => BeginCleanupShape(s); hide BeginCleanup;
      case ConnectionMade(c) => ConnectionShape(s, c); hide MakeConnection;
      case _ =>
    }
  }

  lemma StepFated(s: Bridge, e: Event, f: Fate)
    requires Fated(s, f) && Step(s, e).Some?
    ensures Fated(Step(s, e).value, Tell(s, e, f))
  {
    hide Fated, Tell, StartEntry, ResumeStart, CancelStart, FailWrap, BeginStop, ResumeStop, TimeoutStop, ResumeCleanup,
      BeginPrewarm, BeginCleanup, MakeConnection, WithStatus;
    match e {
      case StartCall(v, vr, r) => EntryFated(s, v, vr, r, f);
      case StartResume => ResumeFated(s, f); assert Tell(s, e, f) == f by { ResumeTellsNothing(s, f); }
      case StartCancel => CancelFated(s, f);
      case WrapFails => FailFated(s, f);
      case StopBegin => StopFated(s, f);
      case StopResume(_) => TaskFated(s, e, f);
      case StopTimeout(_) => TaskFated(s, e, f);
      case CleanResume(_) => TaskFated(s, e, f);
      case SpawnFails(p) => SpawnFate(s, Step(s, e).value, p, f);
      case _ => BesideFated(s, e, f);
    }
  }

  lemma ResumeTellsNothing(s: Bridge, f: Fate)
    ensures Tell(s, StartResume, f) == f
  {}

  lemma {:induction false} RunFated(s: Bridge, es: seq<Event>, f: Fate)
    requires Fated(s, f) && Run(s, es).Some?
    ensures Fated(Run(s, es).value, FateOf(s, es, f))
    decreases |es|
  {
    hide Fated, Step, Tell;
    if es != [] {
      StepFated(s, es[0], f);
      RunFated(Step(s, es[0]).value, es[1..], Tell(s, es[0], f));
    }
  }

  /** MAIN RESULT: how `start()` ends is decided by what came in its way, over every run. It returns
      the URL exactly if it found a running bridge or nothing came: no cancellation, no failed spawn
      or endpoint, no `stop()` that began while it was in flight. Otherwise it raises: cancelled (once
      or twice), else for the endpoint, else for the spawn, else because it was stopped. */
  lemma OutcomeIsDecided(g: nat, es: seq<Event>, s: Bridge, o: Outcome)
    requires Run(Fresh(g), es) == Some(s) && s.start == Finished(o)
    ensures o == Verdict(FateOf(Fresh(g), es, UNTOLD))
  {
    RunFated(Fresh(g), es, UNTOLD);
  }

  // ---------- how far start() is ----------

  /** The await after which a start() that was not stopped is at pc. */
  predicate GoesTo(s: Bridge, pc: StartPc)
  {
    match s.start
    case AwaitAudio => pc == if s.videoEnabled then AwaitVideo else AwaitPush
    case AwaitVideo => pc == if RtcpNext(s) then AwaitRtcp else AwaitPush
    case AwaitRtcp => pc == AwaitPush
    case AwaitPush => pc == Finished(Url)
    case _ => false
  }

  predicate GivesUp(t: Bridge) { t.start == Finished(Stopped) || (t.start.Unwinding? && t.start.outcome == Stopped) }

  /** MAIN RESULT: once it has its ffmpeg, `start()` goes from endpoint to endpoint, to the push wait
      and to the URL, as long as no `stop()` began. The first checkpoint after one gives up: that is
      where it waits now, unless an RTCP endpoint comes first. */
  lemma StopIsNoticed(g: nat, es: seq<Event>, s: Bridge)
    requires Run(Fresh(g), es) == Some(s) && ResumeStart(s).Some?
    requires s.start.AwaitAudio? || s.start.AwaitVideo? || s.start.AwaitRtcp? || s.start.AwaitPush?
    ensures var t := ResumeStart(s).value; var stopped := FateOf(Fresh(g), es, UNTOLD).stopped;
      if stopped && !(s.start.AwaitVideo? && RtcpNext(s)) then GivesUp(t) && t.process.None?
      else GoesTo(s, t.start) && t.process == s.process && t.procs == s.procs
  {
    RunFated(Fresh(g), es, UNTOLD);
    hide Run, FateOf, ResumeStart, Evolves, RtcpNext;
    if s.start.AwaitVideo? && RtcpNext(s) { ResumeWrapsRtcp(s); } else { ResumeCheckpoint(s); }
  }

  /** The same for the wait on a spawn: the ffmpeg that is up is adopted, or killed at once. */
  lemma SpawnIsAdoptedUnlessStopped(g: nat, es: seq<Event>, s: Bridge, p: nat)
    requires Run(Fresh(g), es) == Some(s) && s.start == AwaitSpawn(p) && ResumeStart(s).Some? && StatusOf(s, p) != Failed
    ensures var t := ResumeStart(s).value;
      if FateOf(Fresh(g), es, UNTOLD).stopped then GivesUp(t) && t.process.None? && (p < |t.procs| ==> t.procs[p].status != Running)
      else t.start == AwaitAudio && t.process == Some(p) && t.procs == s.procs
  {
    RunFated(Fresh(g), es, UNTOLD);
    ResumeSpawned(s);
    hide Run, FateOf, ResumeStart;
    if p < |s.procs| { NotRunningLater(s, ResumeStart(s).value, p); }
  }

  lemma NotRunningLater(s: Bridge, t: Bridge, p: nat)
    requires p < |s.procs|
    ensures Evolves(s, t) ==> p < |t.procs|
  {}

  // ---------- what runs beside ffmpeg ----------

  /** The RTCP endpoint and the PLI loop behind it are made exactly for video that has an RTCP socket,
      unless that endpoint could not be made. */
  predicate Requested(s: Bridge, f: Fate) { s.videoEnabled && s.rtcp.sock != Absent && !f.rtcpFailed }

  predicate Early(pc: StartPc)
  {
    pc.AwaitPrewarm? || pc.AwaitDiscard? || pc.AwaitSpawn? || pc.AwaitAudio? || pc.AwaitVideo?
  }

  predicate LoopsTold(s: Bridge, f: Fate)
  {
    && (Early(s.start) ==> !f.rtcpFailed && !s.pli && (s.rtcp == RawMedia || s.rtcp == NoMedia))
    && (s.start.AwaitVideo? ==> s.videoEnabled)
    && (s.start.AwaitRtcp? ==> s.videoEnabled && !f.rtcpFailed && !s.pli && s.rtcp.sock == Wrapped)
    && (s.start.AwaitPush? || s.start == Finished(Url) ==>
          (s.pli <==> Requested(s, f)) && (s.pli ==> s.rtcp.sock == Wrapped))
    && (s.start == Finished(Url) ==> s.stats)
  }

  /** As long as no stop() began. */
  predicate Loops(s: Bridge, f: Fate)
  {
    && (s.start.Idle? ==> !s.pli && s.process.None? && f == UNTOLD)
    && (!s.start.Idle? && s.generation == s.snapshot ==> LoopsTold(s, f))
  }

  lemma LoopsLost(s: Bridge, f: Fate)
    requires !s.start.Idle? && s.snapshot < s.generation
    ensures Loops(s, f)
  {}

  lemma LoopsOver(s: Bridge, f: Fate)
    requires s.start.Unwinding? || s.start.CleaningUp? || (s.start.Finished? && s.start.outcome != Url)
    ensures Loops(s, f)
  {}

  lemma EntryLoops(s: Bridge, v: bool, vr: bool, r: bool, f: Fate)
    requires Loops(s, f) && s.start.Idle?
    ensures Loops(StartEntry(s, v, vr, r), Tell(s, StartCall(v, vr, r), f))
  {
    assert !IsRunning(s) && !s.pli && f == UNTOLD;
    hide IsRunning, Loops;
    if s.prewarm.Some? { EntryWaits(s, v, vr, r); } else { EntrySpawns(s, v, vr, r); }
    hide StartEntry;
    FreshLoops(StartEntry(s, v, vr, r), Tell(s, StartCall(v, vr, r), f));
  }

  predicate Begun(t: Bridge)
  {
    && (t.start.AwaitPrewarm? || t.start.AwaitDiscard? || t.start.AwaitSpawn?) && !t.pli
    && (t.rtcp == RawMedia || t.rtcp == NoMedia)
  }

  lemma FreshLoops(t: Bridge, f: Fate)
    requires Begun(t) && !f.rtcpFailed
    ensures Loops(t, f)
  {}

  lemma EntryWaits(s: Bridge, v: bool, vr: bool, r: bool)
    requires !IsRunning(s) && s.prewarm.Some? && !s.pli
    ensures Begun(StartEntry(s, v, vr, r))
  {
    hide IsRunning, OnDemand;
  }

  lemma EntrySpawns(s: Bridge, v: bool, vr: bool, r: bool)
    requires !IsRunning(s) && s.prewarm.None? && !s.pli
    ensures Begun(StartEntry(s, v, vr, r))
  {
    hide IsRunning;
  }

  lemma ResumeLoops(s: Bridge, f: Fate)
    requires Rel(s) && Loops(s, f) && ResumeStart(s).Some?
    requires s.start.Unwinding? ==> s.start.outcome != Url
    ensures Loops(ResumeStart(s).value, f)
  {
    ResumeInFlight(s);
    assert s.snapshot <= s.generation;
    hide ResumeStart, Rel, Loops;
    if s.snapshot < s.generation {
      ResumeShape(s);
      NotIdle(s);
      hide Goes;
      LoopsLost(ResumeStart(s).value, f);
    } else {
      match s.start {
        case AwaitAudio => AudioLoops(s, f);
        case AwaitVideo => VideoLoops(s, f);
        case AwaitRtcp => RtcpLoops(s, f);
        case AwaitPush => PushLoops(s, f);
        case Unwinding(_, _) => ResumeReaped(s); LoopsOver(ResumeStart(s).value, f);
        case CleaningUp(_) => ResumeReaped(s); LoopsOver(ResumeStart(s).value, f);
        case _ => SpawningLoops(s, f);
      }
    }
  }

  lemma NotIdle(s: Bridge)
    requires ResumeStart(s).Some?
    ensures !ResumeStart(s).value.start.Idle? && ResumeStart(s).value.snapshot == s.snapshot
    ensures ResumeStart(s).value.generation == s.generation
  {
    ResumeShape(s);
    hide ResumeStart;
  }

  lemma SpawningLoops(s: Bridge, f: Fate)
    requires Loops(s, f) && s.generation == s.snapshot && ResumeStart(s).Some?
    requires s.start.AwaitPrewarm? || s.start.AwaitDiscard? || s.start.AwaitSpawn?
    ensures Loops(ResumeStart(s).value, f)
  {
    assert !s.start.Idle? && Early(s.start);
    hide Wrap, Unwind, Alive, WithStatus, AfterSpawn, OnDemand;
    match s.start {
      case AwaitPrewarm(p) =>
        OnDemandLoops(s, f);
        AfterSpawnLoops(s.(process := Some(p), pushEvent := Some(p)), f);
        DiscardLoops(s, p, f);
      case AwaitDiscard(_) => OnDemandLoops(s, f);
      case AwaitSpawn(p) => AfterSpawnLoops(s.(process := Some(p)), f); LoopsOver(s.(start := Finished(SpawnFailed)), f);
    }
    hide Loops;
  }

  lemma OnDemandLoops(s: Bridge, f: Fate)
    requires Begun(s) && !f.rtcpFailed
    ensures Loops(OnDemand(s), f)
  {
    hide Loops;
    FreshLoops(OnDemand(s), f);
  }

  lemma AfterSpawnLoops(s: Bridge, f: Fate)
    requires Begun(s) && !f.rtcpFailed && s.generation == s.snapshot
    ensures Loops(AfterSpawn(s), f)
  {
    hide Unwind, Wrap;
  }

  lemma DiscardLoops(s: Bridge, p: nat, f: Fate)
    requires Begun(s) && !f.rtcpFailed
    ensures Loops(WithStatus(s, p, Doomed).(start := AwaitDiscard(p)), f)
  {
    hide Loops;
    FreshLoops(WithStatus(s, p, Doomed).(start := AwaitDiscard(p)), f);
  }

  lemma AudioLoops(s: Bridge, f: Fate)
    requires Loops(s, f) && s.generation == s.snapshot && ResumeStart(s).Some? && s.start.AwaitAudio?
    ensures Loops(ResumeStart(s).value, f)
  {
    hide Wrap, Unwind;
  }

  lemma VideoLoops(s: Bridge, f: Fate)
    requires Rel(s) && Loops(s, f) && s.generation == s.snapshot && ResumeStart(s).Some? && s.start.AwaitVideo?
    ensures Loops(ResumeStart(s).value, f)
  {
    assert s.video.proto by { assert Stops(s); }
    hide Unwind, Rel;
  }

  lemma RtcpLoops(s: Bridge, f: Fate)
    requires Loops(s, f) && s.generation == s.snapshot && ResumeStart(s).Some? && s.start.AwaitRtcp?
    ensures Loops(ResumeStart(s).value, f)
  {
    hide Unwind;
  }

  lemma PushLoops(s: Bridge, f: Fate)
    requires Loops(s, f) && s.generation == s.snapshot && ResumeStart(s).Some? && s.start.AwaitPush?
    ensures Loops(ResumeStart(s).value, f)
  {
    hide Unwind;
  }

  lemma FailLoops(s: Bridge, f: Fate)
    requires Rel(s) && Loops(s, f) && FailWrap(s).Some?
    ensures Loops(FailWrap(s).value, Tell(s, WrapFails, f))
  {
    FailShape(s);
    FailsWrapping(s);
    assert s.snapshot <= s.generation;
    if s.start.AwaitRtcp? && s.generation == s.snapshot {
      RtcpFailsLoops(s, f);
      hide FailWrap;
    } else {
      hide FailWrap, Evolves, Rel;
    }
  }

  lemma RtcpFailsLoops(s: Bridge, f: Fate)
    requires Loops(s, f) && FailWrap(s).Some? && s.start.AwaitRtcp? && s.generation == s.snapshot
    ensures Loops(FailWrap(s).value, Tell(s, WrapFails, f))
  {
    hide Unwind;
  }

  lemma CancelLoops(s: Bridge, f: Fate)
    requires CancelStart(s).Some?
    ensures Loops(CancelStart(s).value, f)
  {
    CancelInFlight(s);
    CancelShape(s);
    hide CancelStart, Evolves, Loops;
    LoopsOver(CancelStart(s).value, f);
  }

  /** Neither the loops nor where start() is change. */
  predicate SameLoops(s: Bridge, t: Bridge)
  {
    && SameStart(s, t) && t.generation == s.generation && t.rtcp == s.rtcp && t.pli == s.pli && t.stats == s.stats
    && t.process == s.process
  }

  lemma KeepsLoops(s: Bridge, t: Bridge, f: Fate, g: Fate)
    requires Loops(s, f) && g.rtcpFailed == f.rtcpFailed && (s.start.Idle? ==> g == f)
    requires SameLoops(s, t) || (SameLoops(s, t.(rtcp := s.rtcp)) && s.start.AwaitRtcp? && t.rtcp == Connected(s.rtcp))
    ensures Loops(t, g)
  {}

  /** A sweep, or any step of a stop(), with its generation counted. */
  lemma TaskLoops(s: Bridge, t: Bridge, f: Fate)
    requires Loops(s, f) && SameStart(s, t)
    requires s.start.Idle? ==> !t.pli && t.process.None?
    requires !s.start.Idle? ==> s.snapshot < t.generation
    ensures Loops(t, f)
  {}

  /** What a stop() or cleanup task does to the loops: nothing, or it cancels them in its sweep. */
  predicate MayCancel(s: Bridge, t: Bridge, sweeps: bool)
  {
    SameLoops(s, t) || (sweeps && SameStart(s, t) && t.generation == s.generation && (t.pli ==> s.pli) && (t.process == s.process || t.process.None?))
  }

  lemma SweepCancels(s: Bridge, k: nat)
    requires k < |s.tasks|
    ensures MayCancel(s, StopSweep(s, k), true) && MayCancel(s, StopAfterDiscard(s, k), true)
  {
    hide SweepMedia, IsRunning;
  }

  lemma ResumeStopCancels(s: Bridge, k: nat)
    requires ResumeStop(s, k).Some?
    ensures k < |s.tasks| && MayCancel(s, ResumeStop(s, k).value, PreSweep(s.tasks[k]))
  {
    SweepCancels(s, k);
    hide StopSweep, StopAfterDiscard;
  }

  lemma ResumeStopLoops(s: Bridge, k: nat, f: Fate)
    requires Rel(s) && Loops(s, f) && ResumeStop(s, k).Some?
    ensures Loops(ResumeStop(s, k).value, f)
  {
    ResumeStopCancels(s, k);
    assert s.snapshot <= s.generation;
    var t := ResumeStop(s, k).value;
    if SameLoops(s, t) {
      hide Rel, ResumeStop, Loops;
      KeepsLoops(s, t, f, f);
    } else {
      if !s.start.Idle? { assert !AllSwept(s); }
      hide Endpoints, Sweeping, Up, AllReleased, ResumeStop;
      TaskLoops(s, t, f);
    }
  }

  lemma BeginStopLoops(s: Bridge, f: Fate)
    requires Rel(s) && Loops(s, f)
    ensures Loops(BeginStop(s), Tell(s, StopBegin, f))
  {
    assert s.snapshot <= s.generation;
    BeginStopCancels(s);
    hide Rel, BeginStop;
    TaskLoops(s, BeginStop(s), f);
    ToldStop(s, BeginStop(s), f);
  }

  lemma ToldStop(s: Bridge, t: Bridge, f: Fate)
    requires Loops(t, f) && t.start == s.start
    ensures Loops(t, Tell(s, StopBegin, f))
  {}

  lemma BeginStopCancels(s: Bridge)
    ensures var t := BeginStop(s);
      && SameStart(s, t) && t.generation == s.generation + 1 && (t.pli ==> s.pli) && (t.process == s.process || t.process.None?)
  {
    if s.prewarm.None? {
      SweepCancels(s.(generation := s.generation + 1, tasks := s.tasks + [StopDone]), |s.tasks|);
      hide StopAfterDiscard;
    }
  }

  lemma OtherTaskLoops(s: Bridge, e: Event, f: Fate)
    requires Loops(s, f) && Step(s, e).Some? && (e.StopTimeout? || e.CleanResume? || e.Exits? || e.SpawnUp? || e.SpawnFails?)
    ensures Loops(Step(s, e).value, Tell(s, e, f))
  {
    OthersCancelNothing(s, e);
    hide Step, Loops;
    KeepsLoops(s, Step(s, e).value, f, Tell(s, e, f));
  }

  lemma OthersCancelNothing(s: Bridge, e: Event)
    requires Step(s, e).Some? && (e.StopTimeout? || e.CleanResume? || e.Exits? || e.SpawnUp? || e.SpawnFails?)
    ensures SameLoops(s, Step(s, e).value)
  {
    hide TimeoutStop, ResumeCleanup, WithStatus, Evolves;
    match e {
      case StopTimeout(k) => TimeoutOnly(s, k);
      case CleanResume(k) => CleanOnly(s, k);
      case _ => ProcessEvolves(s, e); hide Step;
    }
  }

  lemma TimeoutOnly(s: Bridge, k: nat)
    requires TimeoutStop(s, k).Some?
    ensures var t := TimeoutStop(s, k).value; t == s.(procs := t.procs, tasks := t.tasks)
  {}

  lemma CleanOnly(s: Bridge, k: nat)
    requires ResumeCleanup(s, k).Some?
    ensures var t := ResumeCleanup(s, k).value; t == s.(procs := t.procs, tasks := t.tasks)
  {
    CleanMoves(s, k);
    hide ResumeCleanup;
  }

  lemma ParkLoops(s: Bridge, e: Event, f: Fate)
    requires Loops(s, f) && Step(s, e).Some? && (e.Prewarm? || e.CancelPrewarm? || e.PliEnds? || e.ConnectionMade?)
    ensures Loops(Step(s, e).value, Tell(s, e, f))
  {
    ParkKeeps(s, e);
    hide Step, Loops;
    KeepsLoops(s, Step(s, e).value, f, f);
  }

  lemma ParkKeeps(s: Bridge, e: Event)
    requires Step(s, e).Some? && (e.Prewarm? || e.CancelPrewarm? || e.PliEnds? || e.ConnectionMade?)
    ensures var t := Step(s, e).value;
      SameLoops(s, t) || (SameLoops(s, t.(rtcp := s.rtcp)) && s.start.AwaitRtcp? && t.rtcp == Connected(s.rtcp))
  {
    hide BeginPrewarm, BeginCleanup, MakeConnection;
    match e {
      case Prewarm(video) => PrewarmShape(s, video);
      case CancelPrewarm => BeginCleanupShape(s);
      case ConnectionMade(c) => ConnectionKeeps(s, c);
      case PliEnds =>
    }
  }

  lemma ConnectionKeeps(s: Bridge, c: Chan)
    requires MakeConnection(s, c).Some?
    ensures var t := MakeConnection(s, c).value;
      SameLoops(s, t) || (SameLoops(s, t.(rtcp := s.rtcp)) && s.start.AwaitRtcp? && t.rtcp == Connected(s.rtcp))
  {
    match c {
      case Audio =>
      case Video =>
      case Rtcp =>
    }
  }

  lemma StepLoops(s: Bridge, e: Event, f: Fate)
    requires Rel(s) && Fated(s, f) && Loops(s, f) && Step(s, e).Some?
    ensures Loops(Step(s, e).value, Tell(s, e, f))
  {
    assert s.start.Unwinding? ==> s.start.outcome != Url;
    hide Fated, Rel, Loops, Tell, StartEntry, ResumeStart, CancelStart, FailWrap, BeginStop, ResumeStop, TimeoutStop,
      ResumeCleanup, BeginPrewarm, BeginCleanup, MakeConnection, WithStatus;
    match e {
      case StartCall(v, vr, r) => EntryLoops(s, v, vr, r, f);
      case StartResume => ResumeLoops(s, f); ResumeTellsNothing(s, f);
      case StartCancel => CancelLoops(s, Tell(s, e, f));
      case WrapFails => FailLoops(s, f);
      case StopBegin => BeginStopLoops(s, f);
      case StopResume(k) => ResumeStopLoops(s, k, f); StopTellsNothing(s, k, f);
      case Prewarm(_) => ParkLoops(s, e, f);
      case CancelPrewarm => ParkLoops(s, e, f);
      case PliEnds => ParkLoops(s, e, f);
      case ConnectionMade(_) => ParkLoops(s, e, f);
      case _ => OtherTaskLoops(s, e, f);
    }
  }

  lemma StopTellsNothing(s: Bridge, k: nat, f: Fate)
    ensures Tell(s, StopResume(k), f) == f
  {}

  lemma {:induction false} RunLoops(s: Bridge, es: seq<Event>, f: Fate)
    requires OwnInv(s) && Rel(s) && Fated(s, f) && Loops(s, f) && PoliteRun(s, es) && Run(s, es).Some?
    ensures Loops(Run(s, es).value, FateOf(s, es, f))
    decreases |es|
  {
    hide OwnInv, Rel, Loops, Fated, Step, Polite, Tell;
    if es != [] {
      BridgeOwnershipRuns.OwnStep(s, es[0]);
      RelStep(s, es[0]);
      StepFated(s, es[0], f);
      StepLoops(s, es[0], f);
      RunLoops(Step(s, es[0]).value, es[1..], Tell(s, es[0], f));
    }
  }

  /** MAIN RESULT: when `start()` returned the URL and nobody has called `stop()` since, the statistics
      task is held, and the PLI loop with its RTCP endpoint exactly if video was negotiated, an RTCP
      socket came with it and its endpoint could be made. */
  lemma UrlMeansLoops(g: nat, es: seq<Event>, s: Bridge)
    requires Reached(g, es, s) && s.start == Finished(Url) && PastOf(g, es).firstStop.None?
    ensures PastOf(g, es).handed.Some? && s.stats
    ensures var h := PastOf(g, es).handed.value;
      s.pli <==> h.video && h.peer && h.rtcp && !FateOf(Fresh(g), es, UNTOLD).rtcpFailed
    ensures s.pli ==> s.rtcp.sock == Wrapped
  {
    ReachedKeeps(g, es, s);
    FreshKeeps(g);
    hide OwnInv, Rel, PcTold, SweepsTold, FateOf, PastOf;
    RunLoops(Fresh(g), es, UNTOLD);
  }

  /** The step that makes the RTCP endpoint starts the PLI loop, and the one that returns the URL the
      statistics, if no `stop()` began. */
  lemma LoopsStart(s: Bridge)
    requires s.generation == s.snapshot && ResumeStart(s).Some?
    ensures var t := ResumeStart(s).value;
      && (s.start.AwaitRtcp? ==> t.pli && t.pliLive)
      && (s.start.AwaitPush? ==> t.stats && t.statsLive && t.pliLive == s.pliLive)
  {
    if s.start.AwaitRtcp? || s.start.AwaitPush? {
      hide Unwind, OnDemand, AfterSpawn, AfterAudio, AfterVideo, Consumed;
    }
  }
}
