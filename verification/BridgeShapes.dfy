/** What the steps of the bridge leave as it is, and how every ffmpeg gets on: its inputs never change,
    and one that was killed or is gone never comes back. */
module BridgeShapes {
  import opened Basics
  import opened BridgeState

  predicate Later(a: Proc, b: Proc)
  {
    && b.video == a.video
    && (a.status in {Dead, Failed} ==> b.status == a.status)
    && (a.status == Doomed ==> b.status in {Doomed, Dead})
    && (a.status == Running ==> b.status in {Running, Doomed, Dead})
  }

  predicate Evolves(s: Bridge, t: Bridge)
  {
    |s.procs| <= |t.procs| && forall p :: 0 <= p < |s.procs| ==> Later(s.procs[p], t.procs[p])
  }

  /** The fields that no step of `start()` touches. */
  predicate SameFrame(s: Bridge, t: Bridge)
  {
    && t.tasks == s.tasks && t.cleanup == s.cleanup && t.generation == s.generation
    && t.snapshot == s.snapshot && t.videoEnabled == s.videoEnabled
  }

  lemma StatusEvolves(s: Bridge, p: nat, st: Status)
    requires p < |s.procs| ==> Later(s.procs[p], s.procs[p].(status := st))
    ensures Evolves(s, WithStatus(s, p, st))
  {}

  lemma SameEvolves(s: Bridge, t: Bridge)
    requires t.procs == s.procs
    ensures Evolves(s, t)
  {}

  lemma EvolvesOn(s: Bridge, t: Bridge, u: Bridge)
    requires t.procs == s.procs && Evolves(t, u)
    ensures Evolves(s, u)
  {}

  // ---------- the stretches of start() ----------

  /** `start()` gives up with outcome o, or is reaping its ffmpeg before it does. */
  predicate Undone(s: Bridge, t: Bridge, o: Outcome)
  {
    && Evolves(s, t) && SameFrame(s, t) && t.prewarm == s.prewarm && t.process.None?
    && (t.start == Finished(o) || (t.start.Unwinding? && t.start.outcome == o && s.process == Some(t.start.p)))
    && (s.process.Some? && s.process.value < |s.procs| ==> t.procs[s.process.value].status != Running)
  }

  lemma SweepFrame(s: Bridge, a: bool, v: bool, r: bool)
    ensures var t := UnwindSweep(s, a, v, r);
      && t.procs == s.procs && t.process == s.process && SameFrame(s, t) && t.prewarm == s.prewarm && t.start == s.start
  {
    hide SweepMedia, CloseRaw;
  }

  lemma KillShape(s: Bridge, inHandler: bool, o: Outcome)
    ensures var t := KillNow(s, inHandler, o);
      && Evolves(s, t) && SameFrame(s, t) && t.prewarm == s.prewarm && t.process.None?
      && (s.process.Some? && s.process.value < |s.procs| ==> t.procs[s.process.value].status != Running)
      && (if IsRunning(s) then t.start == if inHandler then CleaningUp(s.process.value) else Unwinding(s.process.value, o)
          else t.start == Finished(o))
  {
    if IsRunning(s) { StatusEvolves(s.(process := None), s.process.value, Doomed); }
  }

  lemma UnwindShape(s: Bridge, a: bool, v: bool, r: bool, o: Outcome)
    ensures Undone(s, Unwind(s, a, v, r, o), o)
  {
    SweepFrame(s, a, v, r);
    KillShape(UnwindSweep(s, a, v, r), false, o);
    hide UnwindSweep, KillNow;
  }

  /** A new ffmpeg with the inputs of the call is being spawned, and `start()` waits for it. */
  predicate SpawnsAnew(s: Bridge, t: Bridge, video: bool)
  {
    && t.procs == s.procs + [Proc(video, Spawning)] && t.start == AwaitSpawn(|s.procs|)
    && t.process == s.process && t.prewarm == s.prewarm
  }

  lemma OnDemandShape(s: Bridge)
    ensures var t := OnDemand(s); SpawnsAnew(s, t, s.videoEnabled) && SameFrame(s, t) && Evolves(s, t)
  {}

  /** A checkpoint: give up if some `stop()` has begun, else go on to pc. */
  predicate Checked(s: Bridge, t: Bridge, pc: StartPc)
  {
    if s.generation != s.snapshot then Undone(s, t, Stopped)
    else SameFrame(s, t) && t.procs == s.procs && t.process == s.process && t.prewarm == s.prewarm && t.start == pc
  }

  lemma AfterSpawnShape(s: Bridge)
    ensures Checked(s, AfterSpawn(s), AwaitAudio)
  {
    UnwindShape(s, true, true, true, Stopped);
    hide Unwind, Evolves, Wrap;
  }

  lemma AfterAudioShape(s: Bridge)
    ensures Checked(s, AfterAudio(s), if s.videoEnabled then AwaitVideo else AwaitPush)
  {
    UnwindShape(s, false, true, true, Stopped);
    hide Unwind, Evolves, Wrap;
  }

  lemma VideoCheckpointShape(s: Bridge)
    ensures Checked(s, VideoCheckpoint(s), AwaitPush)
  {
    UnwindShape(s, false, false, false, Stopped);
    hide Unwind, Evolves;
  }

  /** The RTCP socket, if there is one, is wrapped before the checkpoint. */
  predicate RtcpNext(s: Bridge) { s.video.proto && s.rtcp.sock != Absent }

  lemma AfterVideoShape(s: Bridge)
    ensures var t := AfterVideo(s);
      if RtcpNext(s) then
        SameFrame(s, t) && t.procs == s.procs && t.process == s.process && t.prewarm == s.prewarm && t.start == AwaitRtcp
      else Checked(s, t, AwaitPush)
  {
    VideoCheckpointShape(s.(rtcp := CloseRaw(s.rtcp)));
    hide VideoCheckpoint, Evolves, Wrap, CloseRaw;
    EvolvesFrom(s, s.(rtcp := CloseRaw(s.rtcp)), VideoCheckpoint(s.(rtcp := CloseRaw(s.rtcp))));
  }

  lemma EvolvesFrom(s: Bridge, x: Bridge, t: Bridge)
    requires x.procs == s.procs
    ensures Evolves(x, t) ==> Evolves(s, t)
  {}

  lemma AfterPushShape(s: Bridge)
    ensures Checked(s, AfterPush(s), Finished(Url))
  {
    UnwindShape(s, false, false, false, Stopped);
    hide Unwind, Evolves;
  }

  /** A checkpoint passed from a state with the same processes and frame. */
  lemma CheckedFrom(s: Bridge, x: Bridge, t: Bridge, pc: StartPc)
    requires Checked(x, t, pc) && x.procs == s.procs && SameFrame(s, x) && x.prewarm == s.prewarm && x.process == s.process
    ensures Checked(s, t, pc)
  {
    EvolvesFrom(s, x, t);
    hide Evolves;
  }

  // ---------- start() goes on ----------

  /** Where an undisturbed `start()` is next, once what it awaits is there. */
  function NextPc(s: Bridge): StartPc
  {
    match s.start
    case AwaitAudio => if s.videoEnabled then AwaitVideo else AwaitPush
    case AwaitPush => Finished(Url)
    case _ => AwaitPush
  }

  predicate AtCheckpoint(s: Bridge)
  {
    s.start.AwaitAudio? || s.start.AwaitRtcp? || s.start.AwaitPush? || (s.start.AwaitVideo? && !RtcpNext(s))
  }

  lemma ResumeCheckpoint(s: Bridge)
    requires AtCheckpoint(s) && ResumeStart(s).Some?
    ensures Checked(s, ResumeStart(s).value, NextPc(s))
  {
    var t := ResumeStart(s).value;
    hide AfterAudio, AfterVideo, VideoCheckpoint, AfterPush, Evolves;
    match s.start {
      case AwaitAudio =>
        var x := s.(audio := s.audio.(transport := true));
        AfterAudioShape(x);
        CheckedFrom(s, x, t, NextPc(s));
      case AwaitVideo =>
        var x := s.(video := s.video.(transport := true));
        AfterVideoShape(x);
        CheckedFrom(s, x, t, AwaitPush);
      case AwaitRtcp =>
        var x := s.(rtcp := s.rtcp.(transport := true), pli := true, pliLive := true);
        VideoCheckpointShape(x);
        CheckedFrom(s, x, t, AwaitPush);
      case AwaitPush => AfterPushShape(s);
    }
  }

  lemma ResumeWrapsRtcp(s: Bridge)
    requires s.start.AwaitVideo? && RtcpNext(s) && ResumeStart(s).Some?
    ensures var t := ResumeStart(s).value;
      SameFrame(s, t) && t.procs == s.procs && t.process == s.process && t.prewarm == s.prewarm && t.start == AwaitRtcp
  {
    AfterVideoShape(s.(video := s.video.(transport := true)));
    hide AfterVideo, Evolves, Checked;
  }

  /** An ffmpeg is there: adopt it. */
  predicate Adopted(s: Bridge, t: Bridge, p: nat)
  {
    if s.generation != s.snapshot then
      && Evolves(s, t) && SameFrame(s, t) && t.prewarm == s.prewarm && t.process.None?
      && (t.start == Finished(Stopped) || t.start == Unwinding(p, Stopped))
      && (p < |s.procs| ==> t.procs[p].status != Running)
    else SameFrame(s, t) && t.procs == s.procs && t.prewarm == s.prewarm && t.process == Some(p) && t.start == AwaitAudio
  }

  lemma AdoptShape(s: Bridge, p: nat, event: Option<nat>)
    ensures Adopted(s, AfterSpawn(s.(process := Some(p), pushEvent := event)), p)
  {
    var x := s.(process := Some(p), pushEvent := event);
    AfterSpawnShape(x);
    EvolvesFrom(s, x, AfterSpawn(x));
    hide AfterSpawn, Evolves;
  }

  lemma ResumeSpawned(s: Bridge)
    requires s.start.AwaitSpawn? && ResumeStart(s).Some?
    ensures var t := ResumeStart(s).value;
      if StatusOf(s, s.start.p) == Failed then t == s.(start := Finished(SpawnFailed)) else Adopted(s, t, s.start.p)
  {
    AdoptShape(s, s.start.p, s.pushEvent);
    hide AfterSpawn, Adopted;
  }

  lemma ResumePrewarmed(s: Bridge)
    requires s.start.AwaitPrewarm? && ResumeStart(s).Some?
    ensures var t := ResumeStart(s).value; var p := s.start.p;
      if !Alive(s, p) then SpawnsAnew(s, t, s.videoEnabled) && SameFrame(s, t)
      else if s.procs[p].video == s.videoEnabled then Adopted(s, t, p)
      else t == WithStatus(s, p, Doomed).(start := AwaitDiscard(p))
  {
    AdoptShape(s, s.start.p, Some(s.start.p));
    OnDemandShape(s);
    hide AfterSpawn, Adopted, OnDemand, Evolves, WithStatus;
  }

  lemma ResumeDiscarded(s: Bridge)
    requires s.start.AwaitDiscard? && ResumeStart(s).Some?
    ensures var t := ResumeStart(s).value; SpawnsAnew(s, t, s.videoEnabled) && SameFrame(s, t)
  {
    OnDemandShape(s);
    hide OnDemand, Evolves;
  }

  lemma ResumeReaped(s: Bridge)
    requires (s.start.Unwinding? || s.start.CleaningUp?) && ResumeStart(s).Some?
    ensures var t := ResumeStart(s).value;
      && SameFrame(s, t) && t.procs == s.procs && t.process == s.process && t.prewarm == s.prewarm
      && t.start == Finished(if s.start.Unwinding? then s.start.outcome else Cancelled)
  {}

  /** What all of those have in common. */
  predicate Goes(s: Bridge, t: Bridge)
  {
    && Evolves(s, t) && SameFrame(s, t) && t.prewarm == s.prewarm
    && !t.start.AwaitPrewarm? && (t.start.AwaitSpawn? ==> t.start.p == |s.procs|)
    && (t.process.Some? ==> t.process == s.process || s.start in {AwaitPrewarm(t.process.value), AwaitSpawn(t.process.value)})
  }

  lemma CheckedGoes(s: Bridge, t: Bridge, pc: StartPc)
    requires Checked(s, t, pc) && !pc.AwaitPrewarm? && !pc.AwaitSpawn?
    ensures Goes(s, t)
  {
    if t.procs == s.procs { SameEvolves(s, t); }
    hide Evolves;
  }

  lemma AdoptedGoes(s: Bridge, t: Bridge, p: nat)
    requires Adopted(s, t, p) && s.start in {AwaitPrewarm(p), AwaitSpawn(p)}
    ensures Goes(s, t)
  {
    if t.procs == s.procs { SameEvolves(s, t); }
    hide Evolves;
  }

  lemma SpawnGoes(s: Bridge, t: Bridge)
    requires SpawnsAnew(s, t, s.videoEnabled) && SameFrame(s, t)
    ensures Goes(s, t)
  {
    SpawnEvolves(s, t, s.videoEnabled);
    hide Evolves;
  }

  lemma SpawnEvolves(s: Bridge, t: Bridge, video: bool)
    requires t.procs == s.procs + [Proc(video, Spawning)]
    ensures Evolves(s, t)
  {}

  lemma ResumePrewarmedGoes(s: Bridge)
    requires s.start.AwaitPrewarm? && ResumeStart(s).Some?
    ensures Goes(s, ResumeStart(s).value)
  {
    ResumePrewarmed(s);
    hide ResumeStart, SpawnsAnew, Adopted, Evolves;
    var t, p := ResumeStart(s).value, s.start.p;
    if !Alive(s, p) {
      SpawnGoes(s, t);
    } else if s.procs[p].video == s.videoEnabled {
      AdoptedGoes(s, t, p);
    } else {
      StatusEvolves(s, p, Doomed);
      EvolvesFrom(s, s, t);
      hide Alive;
    }
  }

  lemma ResumeSpawnedGoes(s: Bridge)
    requires s.start.AwaitSpawn? && ResumeStart(s).Some?
    ensures Goes(s, ResumeStart(s).value)
  {
    ResumeSpawned(s);
    hide ResumeStart, Adopted, Evolves;
    if StatusOf(s, s.start.p) == Failed { SameEvolves(s, ResumeStart(s).value); }
    else { AdoptedGoes(s, ResumeStart(s).value, s.start.p); }
  }

  lemma ResumeShape(s: Bridge)
    requires ResumeStart(s).Some?
    ensures Goes(s, ResumeStart(s).value)
  {
    ResumeInFlight(s);
    hide ResumeStart, Evolves, SameFrame, SpawnsAnew, Checked, Adopted, Goes, RtcpNext, NextPc;
    var t := ResumeStart(s).value;
    match s.start {
      case AwaitPrewarm(p) => ResumePrewarmedGoes(s);
      case AwaitDiscard(_) => ResumeDiscarded(s); SpawnGoes(s, t);
      case AwaitSpawn(_) => ResumeSpawnedGoes(s);
      case AwaitVideo => ResumeVideoGoes(s);
      case Unwinding(_, _) => ResumeReapedGoes(s);
      case CleaningUp(_) => ResumeReapedGoes(s);
      case _ => ResumeCheckpointGoes(s);
    }
  }

  lemma ResumeVideoGoes(s: Bridge)
    requires s.start.AwaitVideo? && ResumeStart(s).Some?
    ensures Goes(s, ResumeStart(s).value)
  {
    if RtcpNext(s) {
      ResumeWrapsRtcp(s);
      hide ResumeStart;
      SameEvolves(s, ResumeStart(s).value);
      hide Evolves;
    } else {
      ResumeCheckpointGoes(s);
    }
  }

  lemma ResumeReapedGoes(s: Bridge)
    requires (s.start.Unwinding? || s.start.CleaningUp?) && ResumeStart(s).Some?
    ensures Goes(s, ResumeStart(s).value)
  {
    ResumeReaped(s);
    hide ResumeStart;
    SameEvolves(s, ResumeStart(s).value);
    hide Evolves;
  }

  lemma ResumeCheckpointGoes(s: Bridge)
    requires AtCheckpoint(s) && ResumeStart(s).Some?
    ensures Goes(s, ResumeStart(s).value)
  {
    ResumeCheckpoint(s);
    hide ResumeStart, Checked, Goes;
    CheckedGoes(s, ResumeStart(s).value, NextPc(s));
  }

  lemma ResumeInFlight(s: Bridge)
    requires ResumeStart(s).Some?
    ensures !s.start.Idle? && !s.start.Finished?
  {
    hide AfterSpawn, AfterAudio, AfterVideo, AfterPush, VideoCheckpoint, OnDemand, Consumed;
  }

  // ---------- start() is cancelled, or an endpoint cannot be made ----------

  lemma InterruptedShape(s: Bridge)
    ensures var t := Interrupted(s);
      && Evolves(s, t) && SameFrame(s, t) && t.process == s.process && t.start == s.start
      && t.prewarm == if s.start.AwaitPrewarm? then Some(s.start.p) else s.prewarm
  {
    hide DropHalfBuilt, Evolves, SameFrame, WithStatus, StatusOf;
    match s.start {
      case AwaitSpawn(_) => InterruptedSpawn(s); hide Interrupted;
      case _ => InterruptedOther(s); hide Interrupted;
    }
  }

  lemma InterruptedOther(s: Bridge)
    requires !s.start.AwaitSpawn?
    ensures var t := Interrupted(s);
      && Evolves(s, t) && SameFrame(s, t) && t.process == s.process && t.start == s.start
      && t.prewarm == if s.start.AwaitPrewarm? then Some(s.start.p) else s.prewarm
  {
    InterruptedFields(s);
    hide Interrupted;
    SameEvolves(s, Interrupted(s));
    hide Evolves;
  }

  lemma InterruptedFields(s: Bridge)
    requires !s.start.AwaitSpawn?
    ensures var t := Interrupted(s);
      t == s.(audio := t.audio, video := t.video, rtcp := t.rtcp, prewarm := if s.start.AwaitPrewarm? then Some(s.start.p) else s.prewarm)
  {
    hide DropHalfBuilt, WithStatus, StatusOf;
    match s.start {
      case AwaitPrewarm(p) =>
      case AwaitAudio =>
      case AwaitVideo =>
      case AwaitRtcp =>
      case _ =>
    }
  }

  lemma InterruptedSpawn(s: Bridge)
    requires s.start.AwaitSpawn?
    ensures var t := Interrupted(s);
      && Evolves(s, t) && SameFrame(s, t) && t.process == s.process && t.start == s.start && t.prewarm == s.prewarm
  {
    hide Evolves;
    var p := s.start.p;
    if StatusOf(s, p) in {Spawning, Running} {
      StatusEvolves(s, p, Doomed);
    } else {
      SameEvolves(s, s);
    }
  }

  lemma EvolvesThrough(s: Bridge, t: Bridge, u: Bridge)
    requires Evolves(s, t) && Evolves(t, u)
    ensures Evolves(s, u)
  {}

  lemma CancelShape(s: Bridge)
    requires CancelStart(s).Some?
    ensures var t := CancelStart(s).value;
      && Evolves(s, t) && SameFrame(s, t)
      && (if s.start.CleaningUp? then t == s.(start := Finished(CancelledTwice))
          else t.process.None? && t.prewarm == (if s.start.AwaitPrewarm? then Some(s.start.p) else s.prewarm)
               && (t.start == Finished(Cancelled) || (t.start.CleaningUp? && s.process == Some(t.start.p))))
  {
    if !s.start.CleaningUp? {
      var x := Interrupted(s);
      var y := UnwindSweep(x, true, true, true);
      InterruptedShape(s);
      SweepFrame(x, true, true, true);
      KillShape(y, true, Cancelled);
      hide Interrupted, UnwindSweep, KillNow;
      EvolvesFrom(x, y, KillNow(y, true, Cancelled));
      EvolvesThrough(s, x, KillNow(y, true, Cancelled));
      hide Evolves;
    } else {
      SameEvolves(s, CancelStart(s).value);
    }
  }

  lemma FailShape(s: Bridge)
    requires FailWrap(s).Some?
    ensures var t := FailWrap(s).value;
      if s.start.AwaitRtcp? then Checked(s, t, AwaitPush) else Undone(s, t, WrapFailed)
  {
    var t := FailWrap(s).value;
    hide Unwind, VideoCheckpoint, Evolves;
    match s.start {
      case AwaitAudio =>
        var x := s.(audio := s.audio.(sock := Raw));
        UnwindShape(x, true, true, true, WrapFailed);
        EvolvesFrom(s, x, t);
      case AwaitVideo =>
        var x := s.(video := s.video.(sock := Raw));
        UnwindShape(x, false, true, true, WrapFailed);
        EvolvesFrom(s, x, t);
      case AwaitRtcp =>
        var x := s.(rtcp := s.rtcp.(sock := Closed, proto := false));
        VideoCheckpointShape(x);
        CheckedFrom(s, x, t, AwaitPush);
    }
  }

  /** `start()` enters a bridge that is not running. */
  predicate Enters(s: Bridge, t: Bridge, video: bool)
  {
    && t.snapshot == s.generation && t.videoEnabled == video
    && (if s.prewarm.Some? then t.start == AwaitPrewarm(s.prewarm.value) && t.prewarm.None? && t.procs == s.procs
        else t.procs == s.procs + [Proc(video, Spawning)] && t.start == AwaitSpawn(|s.procs|) && t.prewarm == s.prewarm)
  }

  lemma EntryShape(s: Bridge, v: bool, vr: bool, r: bool)
    ensures var t := StartEntry(s, v, vr, r);
      && t.tasks == s.tasks && t.cleanup == s.cleanup && t.generation == s.generation && t.process == s.process
      && (if IsRunning(s) then t.start == Finished(Url) && t.procs == s.procs && t.prewarm == s.prewarm
          else Enters(s, t, v && vr))
  {
    hide IsRunning;
    if IsRunning(s) {
    } else if s.prewarm.Some? {
      EntryConsumes(s, v, vr, r);
      hide StartEntry, Enters;
    } else {
      EntrySpawns(s, v, vr, r);
      hide StartEntry, Enters;
    }
  }

  lemma EntryConsumes(s: Bridge, v: bool, vr: bool, r: bool)
    requires !IsRunning(s) && s.prewarm.Some?
    ensures var t := StartEntry(s, v, vr, r);
      && t.tasks == s.tasks && t.cleanup == s.cleanup && t.generation == s.generation && t.process == s.process
      && Enters(s, t, v && vr)
  {
    hide IsRunning, OnDemand;
  }

  lemma EntrySpawns(s: Bridge, v: bool, vr: bool, r: bool)
    requires !IsRunning(s) && s.prewarm.None?
    ensures var t := StartEntry(s, v, vr, r);
      && t.tasks == s.tasks && t.cleanup == s.cleanup && t.generation == s.generation && t.process == s.process
      && Enters(s, t, v && vr)
  {
    hide IsRunning;
  }

  lemma EntryEvolves(s: Bridge, v: bool, vr: bool, r: bool)
    ensures Evolves(s, StartEntry(s, v, vr, r))
  {
    EntryShape(s, v, vr, r);
    var t := StartEntry(s, v, vr, r);
    hide StartEntry, Evolves, IsRunning;
    if t.procs == s.procs { SameEvolves(s, t); } else { SpawnEvolves(s, t, v && vr); }
  }

  // ---------- stop() and cleanup tasks ----------

  /** `start()` and its ffmpeg are left alone. */
  predicate SameStart(s: Bridge, t: Bridge)
  {
    t.start == s.start && t.snapshot == s.snapshot && t.videoEnabled == s.videoEnabled
  }

  /** The tasks but k are left alone. */
  predicate SameTasks(s: Bridge, t: Bridge, k: nat)
  {
    && |t.tasks| >= |s.tasks| && k < |t.tasks|
    && forall j :: 0 <= j < |s.tasks| && j != k ==> t.tasks[j] == s.tasks[j]
  }

  /** A stop() takes what runs, and waits for it to end. */
  function Reaping(s: Bridge): TaskPc { if IsRunning(s) then StopTerm(s.process.value) else StopDone }

  /** Task k of stop() reaches the stretch in which it closes everything, or first waits for the
      cleanup of an earlier prewarm. */
  predicate Sweeps(s: Bridge, t: Bridge, k: nat)
  {
    && t.procs == s.procs && SameStart(s, t) && SameTasks(s, t, k) && t.generation == s.generation && t.prewarm == s.prewarm
    && t.process.None? && t.tasks[k] == Reaping(s)
  }

  predicate WaitsForCleanup(s: Bridge, t: Bridge, k: nat)
  {
    && t.procs == s.procs && SameStart(s, t) && SameTasks(s, t, k) && t.generation == s.generation && t.prewarm == s.prewarm
    && t.process == s.process && s.cleanup.Some? && t.tasks[k] == StopCleanup(s.cleanup.value)
  }

  lemma SweepShape(s: Bridge, k: nat)
    requires k < |s.tasks|
    ensures Sweeps(s, StopSweep(s, k), k) && |StopSweep(s, k).tasks| == |s.tasks|
  {
    hide SweepMedia;
  }

  predicate MustWait(s: Bridge) { s.cleanup.Some? && CleanupPending(s, s.cleanup.value) }

  lemma AfterDiscardShape(s: Bridge, k: nat)
    requires k < |s.tasks|
    ensures var t := StopAfterDiscard(s, k);
      && |t.tasks| == |s.tasks| && (if MustWait(s) then WaitsForCleanup(s, t, k) else Sweeps(s, t, k))
  {
    if !MustWait(s) {
      SweepShape(s.(cleanup := None), k);
      hide StopSweep;
    }
  }

  predicate TakesPrewarm(s: Bridge, t: Bridge, k: nat)
  {
    && t.procs == s.procs && SameStart(s, t) && SameTasks(s, t, k) && t.prewarm.None?
    && t.process == s.process && s.prewarm.Some? && t.tasks[k] == StopPrewarm(s.prewarm.value)
  }

  lemma BeginStopShape(s: Bridge)
    ensures var t := BeginStop(s); var k := |s.tasks|;
      && |t.tasks| == k + 1 && t.generation == s.generation + 1
      && (s.prewarm.Some? ==> TakesPrewarm(s, t, k))
      && (s.prewarm.None? ==> var s1 := s.(generation := s.generation + 1, tasks := s.tasks + [StopDone]);
            if MustWait(s1) then WaitsForCleanup(s1, t, k) else Sweeps(s1, t, k))
  {
    if s.prewarm.None? { StopSweeps(s); }
    hide StopAfterDiscard, MustWait, WaitsForCleanup, Sweeps;
  }

  lemma StopSweeps(s: Bridge)
    requires s.prewarm.None?
    ensures var t := BeginStop(s); var k := |s.tasks|; var s1 := s.(generation := s.generation + 1, tasks := s.tasks + [StopDone]);
      |t.tasks| == k + 1 && t.generation == s1.generation && if MustWait(s1) then WaitsForCleanup(s1, t, k) else Sweeps(s1, t, k)
  {
    var s1 := s.(generation := s.generation + 1, tasks := s.tasks + [StopDone]);
    BeginStopIs(s);
    hide BeginStop, StopAfterDiscard, MustWait, WaitsForCleanup, Sweeps;
    AfterDiscardShape(s1, |s.tasks|);
    SameGeneration(s1, BeginStop(s), |s.tasks|);
  }

  lemma BeginStopIs(s: Bridge)
    requires s.prewarm.None?
    ensures BeginStop(s)
         == StopAfterDiscard(s.(generation := s.generation + 1, tasks := s.tasks + [StopDone]), |s.tasks|)
  {
    hide StopAfterDiscard;
  }

  lemma SameGeneration(s: Bridge, t: Bridge, k: nat)
    requires k < |t.tasks|
    ensures WaitsForCleanup(s, t, k) || Sweeps(s, t, k) ==> t.generation == s.generation
  {
    hide IsRunning, SameTasks;
  }

  predicate CleanupKnown(s: Bridge) { s.cleanup.Some? ==> s.cleanup.value < |s.tasks| }

  // ---------- a stop() or a cleanup task goes on ----------

  /** Task k moves on to pc; it may kill p, and it takes the process when it sweeps. */
  predicate Moves(s: Bridge, t: Bridge, k: nat)
  {
    && Evolves(s, t) && SameStart(s, t) && SameTasks(s, t, k) && |t.tasks| == |s.tasks|
    && t.generation == s.generation && t.prewarm == s.prewarm
    && (t.process == s.process || (t.process.None? && k < |s.tasks| && PreSweep(s.tasks[k])))
  }

  predicate Gone(s: Bridge, p: nat) { p < |s.procs| && s.procs[p].status in {Dead, Failed} }

  /** A task lets go of its ffmpeg only when that has died or was never there. */
  predicate LetsGo(s: Bridge, t: Bridge, k: nat)
    requires k < |s.tasks| && k < |t.tasks|
  {
    match s.tasks[k]
    case StopPrewarm(p) => t.tasks[k] == StopDiscard(p) || p >= |s.procs| || Gone(s, p)
    case StopDiscard(p) => p >= |s.procs| || Gone(s, p)
    case StopTerm(p) => t.tasks[k] == StopKill(p) || p >= |s.procs| || Gone(s, p)
    case StopKill(p) => p >= |s.procs| || Gone(s, p)
    case StopCleanup(c) => !CleanupPending(s, c)
    case CleanWait(p) => t.tasks[k] == CleanDiscard(p) || p >= |s.procs| || Gone(s, p)
    case CleanDiscard(p) => p >= |s.procs| || Gone(s, p)
    case _ => t.tasks[k] == s.tasks[k]
  }

  lemma StopGoesOnMoves(s: Bridge, t: Bridge, k: nat)
    requires k < |s.tasks| && PreSweep(s.tasks[k]) && |t.tasks| == |s.tasks|
    requires WaitsForCleanup(s, t, k) || Sweeps(s, t, k)
    ensures Moves(s, t, k)
  {
    SameEvolves(s, t);
    hide Evolves;
  }

  lemma KilledByTask(s: Bridge, k: nat, p: nat, pc: TaskPc)
    requires k < |s.tasks| && Alive(s, p)
    ensures Moves(s, WithStatus(s, p, Doomed).(tasks := s.tasks[k := pc]), k)
  {
    StatusEvolves(s, p, Doomed);
    EvolvesFrom(s, s, WithStatus(s, p, Doomed).(tasks := s.tasks[k := pc]));
  }

  lemma DoneMoves(s: Bridge, k: nat, pc: TaskPc)
    requires k < |s.tasks|
    ensures Moves(s, s.(tasks := s.tasks[k := pc]), k)
  {
    SameEvolves(s, s.(tasks := s.tasks[k := pc]));
    hide Evolves;
  }

  lemma ResumeStopMoves(s: Bridge, k: nat)
    requires ResumeStop(s, k).Some?
    ensures k < |s.tasks| && Moves(s, ResumeStop(s, k).value, k)
  {
    hide Moves, StopAfterDiscard, StopSweep, WaitsForCleanup, Sweeps, WithStatus, MustWait;
    var t := ResumeStop(s, k).value;
    match s.tasks[k] {
      case StopPrewarm(p) =>
        if Alive(s, p) { KilledByTask(s, k, p, StopDiscard(p)); }
        else { AfterDiscardShape(s, k); StopGoesOnMoves(s, t, k); }
      case StopDiscard(_) => AfterDiscardShape(s, k); StopGoesOnMoves(s, t, k);
      case StopCleanup(_) => SweepShape(s, k); StopGoesOnMoves(s, t, k);
      case StopTerm(_) => DoneMoves(s, k, StopDone);
      case StopKill(_) => DoneMoves(s, k, StopDone);
    }
  }

  lemma ResumeStopLetsGo(s: Bridge, k: nat)
    requires ResumeStop(s, k).Some?
    ensures k < |s.tasks| && k < |ResumeStop(s, k).value.tasks| && LetsGo(s, ResumeStop(s, k).value, k)
  {
    ResumeStopMoves(s, k);
    hide Moves, StopAfterDiscard, StopSweep, CleanupPending;
  }

  lemma TimeoutMoves(s: Bridge, k: nat)
    requires TimeoutStop(s, k).Some?
    ensures var t := TimeoutStop(s, k).value;
      && k < |s.tasks| && Moves(s, t, k) && s.tasks[k].StopTerm? && Alive(s, s.tasks[k].p)
      && t.tasks[k] == StopKill(s.tasks[k].p) && t.procs[s.tasks[k].p].status == Doomed
  {
    KilledByTask(s, k, s.tasks[k].p, StopKill(s.tasks[k].p));
    hide Moves;
  }

  lemma ResumeCleanupMoves(s: Bridge, k: nat)
    requires ResumeCleanup(s, k).Some?
    ensures var t := ResumeCleanup(s, k).value; k < |s.tasks| && k < |t.tasks| && Moves(s, t, k) && LetsGo(s, t, k)
  {
    hide Moves, WithStatus;
    match s.tasks[k] {
      case CleanWait(p) =>
        if Alive(s, p) { KilledByTask(s, k, p, CleanDiscard(p)); } else { DoneMoves(s, k, CleanDone); }
      case CleanDiscard(_) => DoneMoves(s, k, CleanDone);
    }
  }

  /** `cancel_prewarm()` hands the parked ffmpeg to a new task. */
  lemma BeginCleanupShape(s: Bridge)
    ensures var t := BeginCleanup(s);
      if s.prewarm.None? then t == s
      else t == s.(prewarm := None, cleanup := Some(|s.tasks|), tasks := s.tasks + [CleanWait(s.prewarm.value)])
  {}

  // ---------- processes come and go ----------

  lemma ProcessEvolves(s: Bridge, e: Event)
    requires Step(s, e).Some? && (e.SpawnUp? || e.SpawnFails? || e.Exits?)
    ensures var t := Step(s, e).value; Evolves(s, t) && t == s.(procs := t.procs)
  {
    match e {
      case SpawnUp(p) => StatusEvolves(s, p, Running);
      case SpawnFails(p) => StatusEvolves(s, p, Failed);
      case Exits(p) => StatusEvolves(s, p, Dead);
    }
    hide Evolves;
  }

  lemma ConnectionShape(s: Bridge, c: Chan)
    requires MakeConnection(s, c).Some?
    ensures var t := MakeConnection(s, c).value; t == s.(audio := t.audio, video := t.video, rtcp := t.rtcp)
  {
    match c {
      case Audio =>
      case Video =>
      case Rtcp =>
    }
  }

  /** Events that neither start() nor a task takes part in. */
  predicate Beside(e: Event)
  {
    e.Prewarm? || e.CancelPrewarm? || e.ConnectionMade? || e.SpawnUp? || e.SpawnFails? || e.Exits? || e.PliEnds?
  }

  lemma BesideShape(s: Bridge, e: Event)
    requires Step(s, e).Some? && Beside(e)
    ensures var t := Step(s, e).value;
      && SameStart(s, t) && t.generation == s.generation && t.process == s.process
      && t.prewarm in {s.prewarm, None, Some(|s.procs|)}
  {
    hide BeginPrewarm, BeginCleanup, MakeConnection, WithStatus, Evolves;
    match e {
      case Prewarm(video) => PrewarmShape(s, video);
      case CancelPrewarm => BeginCleanupShape(s);
      case ConnectionMade(c) => ConnectionShape(s, c);
      case PliEnds =>
      case _ => ProcessEvolves(s, e); hide Step;
    }
  }

  /** `prewarm()` parks a new ffmpeg with the inputs asked for, unless one is parked or running. */
  lemma PrewarmShape(s: Bridge, video: bool)
    ensures var t := BeginPrewarm(s, video);
      if IsRunning(s) || s.prewarm.Some? then t == s
      else t == s.(prewarm := Some(|s.procs|), procs := s.procs + [Proc(video, Spawning)])
  {}

  lemma StepEvolves(s: Bridge, e: Event)
    requires Step(s, e).Some?
    ensures Evolves(s, Step(s, e).value)
  {
    hide Evolves, StartEntry, ResumeStart, CancelStart, FailWrap, BeginStop, ResumeStop, TimeoutStop, ResumeCleanup,
      BeginPrewarm, BeginCleanup, WithStatus, Undone, Checked;
    match e {
      case Prewarm(video) => PrewarmEvolves(s, video);
      case CancelPrewarm => BeginCleanupShape(s); SameEvolves(s, BeginCleanup(s));
      case StartCall(v, vr, r) => EntryEvolves(s, v, vr, r);
      case StartResume => ResumeShape(s);
      case StartCancel => CancelShape(s);
      case WrapFails => FailEvolves(s);
      case StopBegin => StopEvolves(s);
      case StopResume(k) => ResumeStopMoves(s, k);
      case StopTimeout(k) => TimeoutMoves(s, k);
      case CleanResume(k) => ResumeCleanupMoves(s, k);
      case ConnectionMade(_) => SameEvolves(s, Step(s, e).value);
      case PliEnds => SameEvolves(s, Step(s, e).value);
      case _ => ProcessEvolves(s, e);
    }
  }

  lemma PrewarmEvolves(s: Bridge, video: bool)
    ensures Evolves(s, BeginPrewarm(s, video))
  {}

  lemma FailEvolves(s: Bridge)
    requires FailWrap(s).Some?
    ensures Evolves(s, FailWrap(s).value)
  {
    FailShape(s);
    hide FailWrap;
    if s.start.AwaitRtcp? && s.generation == s.snapshot { SameEvolves(s, FailWrap(s).value); }
  }

  lemma StopEvolves(s: Bridge)
    ensures Evolves(s, BeginStop(s))
  {
    BeginStopShape(s);
    hide BeginStop, MustWait, SameTasks;
    SameEvolves(s, BeginStop(s));
  }
}
