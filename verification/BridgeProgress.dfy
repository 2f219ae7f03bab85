/** Left alone, the bridge comes to rest: every `start()`, `stop()` and cleanup that is suspended can
    go on or waits for an ffmpeg that will change, and only so many steps remain. */
module BridgeProgress {
  import opened Basics
  import opened BridgeState
  import opened BridgeShapes
  import opened BridgeOwnership
  import opened BridgeRelease
  import opened BridgeTheorems
  import BridgeOutcomes
  import BridgeStops

  /** The events by which what was begun goes on; the others are what somebody asks for. */
  predicate GoesOn(e: Event)
  {
    e.StartResume? || e.WrapFails? || e.ConnectionMade? || e.StopResume? || e.StopTimeout? || e.CleanResume?
    || e.SpawnUp? || e.SpawnFails? || e.Exits?
  }

  // ---------- how much is left to do ----------

  function ProcWork(p: Proc): nat
  {
    match p.status
    case Spawning => 3
    case Running => 2
    case Doomed => 1
    case _ => 0
  }

  function ProcsWork(procs: seq<Proc>): nat
  {
    if procs == [] then 0 else ProcsWork(procs[..|procs| - 1]) + ProcWork(procs[|procs| - 1])
  }

  function TaskWork(pc: TaskPc): nat
  {
    match pc
    case StopPrewarm(_) => 5
    case StopDiscard(_) => 4
    case StopCleanup(_) => 3
    case StopTerm(_) => 2
    case StopKill(_) => 1
    case CleanWait(_) => 2
    case CleanDiscard(_) => 1
    case _ => 0
  }

  function TasksWork(tasks: seq<TaskPc>): nat
  {
    if tasks == [] then 0 else TasksWork(tasks[..|tasks| - 1]) + TaskWork(tasks[|tasks| - 1])
  }

  function Unready(m: Media): nat { if m.ready then 0 else 1 }

  function StartWork(s: Bridge): nat
  {
    match s.start
    case AwaitPrewarm(_) => 20
    case AwaitDiscard(_) => 19
    case AwaitSpawn(_) => 15
    case AwaitAudio => 12 + Unready(s.audio)
    case AwaitVideo => 9 + Unready(s.video)
    case AwaitRtcp => 6 + Unready(s.rtcp)
    case AwaitPush => 4
    case Unwinding(_, _) => 1
    case CleaningUp(_) => 1
    case _ => 0
  }

  function Work(s: Bridge): nat { StartWork(s) + TasksWork(s.tasks) + ProcsWork(s.procs) }

  lemma {:induction false} ProcsLess(a: seq<Proc>, b: seq<Proc>)
    requires |a| == |b| && forall p :: 0 <= p < |a| ==> Later(a[p], b[p])
    ensures ProcsWork(b) <= ProcsWork(a)
    decreases |a|
  {
    if a != [] { ProcsLess(a[..|a| - 1], b[..|b| - 1]); }
  }

  lemma ProcsMore(a: seq<Proc>, p: Proc)
    ensures ProcsWork(a + [p]) == ProcsWork(a) + ProcWork(p)
  {
    assert (a + [p])[..|a|] == a;
  }

  lemma {:induction false} ProcsUpdate(a: seq<Proc>, p: nat, q: Proc)
    requires p < |a|
    ensures ProcsWork(a[p := q]) + ProcWork(a[p]) == ProcsWork(a) + ProcWork(q)
    decreases |a|
  {
    var n := |a| - 1;
    if p < n {
      assert a[p := q][..n] == a[..n][p := q];
      ProcsUpdate(a[..n], p, q);
    } else {
      assert a[p := q][..n] == a[..n];
    }
  }

  lemma {:induction false} TasksUpdate(a: seq<TaskPc>, k: nat, pc: TaskPc)
    requires k < |a|
    ensures TasksWork(a[k := pc]) + TaskWork(a[k]) == TasksWork(a) + TaskWork(pc)
    decreases |a|
  {
    var n := |a| - 1;
    if k < n {
      assert a[k := pc][..n] == a[..n][k := pc];
      TasksUpdate(a[..n], k, pc);
    } else {
      assert a[k := pc][..n] == a[..n];
    }
  }

  /** The same ffmpegs, none with more to do. */
  lemma SameProcsLess(s: Bridge, t: Bridge)
    requires Evolves(s, t) && |t.procs| == |s.procs|
    ensures ProcsWork(t.procs) <= ProcsWork(s.procs)
  {
    ProcsLess(s.procs, t.procs);
  }

  // ---------- start() ----------

  lemma UndoneLess(s: Bridge, t: Bridge, o: Outcome)
    requires Undone(s, t, o) && |t.procs| == |s.procs| && StartWork(s) > 1
    ensures Work(t) < Work(s)
  {
    SameProcsLess(s, t);
    hide Evolves, ProcsWork, TasksWork;
  }

  lemma CheckedLess(s: Bridge, t: Bridge, pc: StartPc)
    requires Checked(s, t, pc) && |t.procs| == |s.procs| && StartWork(s) > 1 && StartWork(t) < StartWork(s)
    ensures Work(t) < Work(s)
  {
    if s.generation != s.snapshot { UndoneLess(s, t, Stopped); }
    hide Undone, ProcsWork, TasksWork;
  }

  lemma AdoptedLess(s: Bridge, t: Bridge, p: nat)
    requires Adopted(s, t, p) && |t.procs| == |s.procs| && StartWork(s) >= 15
    ensures Work(t) < Work(s)
  {
    if s.generation != s.snapshot { SameProcsLess(s, t); }
    hide Evolves, ProcsWork, TasksWork;
  }

  lemma SpawnLess(s: Bridge, t: Bridge)
    requires SpawnsAnew(s, t, s.videoEnabled) && SameFrame(s, t) && StartWork(s) >= 19
    ensures Work(t) < Work(s)
  {
    ProcsMore(s.procs, Proc(s.videoEnabled, Spawning));
    hide ProcsWork, TasksWork;
  }

  /** Unless it spawns, a step of start() adds no ffmpeg. */
  lemma KillSameProcs(s: Bridge, a: bool, v: bool, r: bool, inHandler: bool, o: Outcome)
    ensures |KillNow(UnwindSweep(s, a, v, r), inHandler, o).procs| == |s.procs|
  {
    SweepFrame(s, a, v, r);
    var x := UnwindSweep(s, a, v, r);
    if x.process.Some? { SameNumber(x.(process := None), x.process.value); }
    hide UnwindSweep, WithStatus, IsRunning;
  }

  lemma SameNumber(s: Bridge, p: nat)
    ensures |WithStatus(s, p, Doomed).procs| == |s.procs|
  {}

  lemma CheckpointSameProcs(s: Bridge)
    requires AtCheckpoint(s) && ResumeStart(s).Some?
    ensures |ResumeStart(s).value.procs| == |s.procs|
  {
    hide AfterAudio, AfterVideo, VideoCheckpoint, AfterPush;
    match s.start {
      case AwaitAudio => AudioSameProcs(s.(audio := s.audio.(transport := true)));
      case AwaitVideo => VideoSameProcs(s.(video := s.video.(transport := true)));
      case AwaitRtcp => CheckSameProcs(s.(rtcp := s.rtcp.(transport := true), pli := true, pliLive := true));
      case AwaitPush => PushSameProcs(s);
    }
  }

  lemma AudioSameProcs(s: Bridge)
    ensures |AfterAudio(s).procs| == |s.procs|
  {
    KillSameProcs(s, false, true, true, false, Stopped);
    hide KillNow, UnwindSweep, Wrap;
  }

  lemma CheckSameProcs(s: Bridge)
    ensures |VideoCheckpoint(s).procs| == |s.procs|
  {
    KillSameProcs(s, false, false, false, false, Stopped);
    hide KillNow, UnwindSweep;
  }

  lemma VideoSameProcs(s: Bridge)
    ensures |AfterVideo(s).procs| == |s.procs|
  {
    CheckSameProcs(s.(rtcp := CloseRaw(s.rtcp)));
    hide VideoCheckpoint, Wrap, CloseRaw;
  }

  lemma PushSameProcs(s: Bridge)
    ensures |AfterPush(s).procs| == |s.procs|
  {
    KillSameProcs(s, false, false, false, false, Stopped);
    hide KillNow, UnwindSweep;
  }

  lemma AdoptSameProcs(s: Bridge, p: nat, event: Option<nat>)
    ensures |AfterSpawn(s.(process := Some(p), pushEvent := event)).procs| == |s.procs|
  {
    KillSameProcs(s.(process := Some(p), pushEvent := event), true, true, true, false, Stopped);
    hide KillNow, UnwindSweep, Wrap;
  }

  /** What a step of start() that was not stopped finds next has less to do. */
  lemma CheckpointLess(s: Bridge)
    requires AtCheckpoint(s) && ResumeStart(s).Some?
    ensures Work(ResumeStart(s).value) < Work(s)
  {
    ResumeCheckpoint(s);
    CheckpointSameProcs(s);
    hide ResumeStart, Work, Undone;
    var t := ResumeStart(s).value;
    if s.generation == s.snapshot { assert StartWork(t) < StartWork(s); CheckedLess(s, t, NextPc(s)); }
    else { UndoneLess(s, t, Stopped); }
  }

  lemma PrewarmedLess(s: Bridge)
    requires s.start.AwaitPrewarm? && ResumeStart(s).Some?
    ensures Work(ResumeStart(s).value) < Work(s)
  {
    ResumePrewarmed(s);
    AdoptSameProcs(s, s.start.p, Some(s.start.p));
    var t, p := ResumeStart(s).value, s.start.p;
    hide Adopted, SpawnsAnew, SameFrame, Evolves, AfterSpawn, OnDemand, WithStatus, ProcsWork, TasksWork;
    if !Alive(s, p) { SpawnLess(s, t); }
    else if s.procs[p].video == s.videoEnabled { AdoptedLess(s, t, p); }
    else { hide ResumeStart; DoomedLess(s, p); }
  }

  lemma DoomedLess(s: Bridge, p: nat)
    requires Alive(s, p)
    ensures var u := WithStatus(s, p, Doomed); ProcsWork(u.procs) <= ProcsWork(s.procs) && u == s.(procs := u.procs)
  {
    ProcsUpdate(s.procs, p, s.procs[p].(status := Doomed));
    hide ProcsWork;
  }

  lemma SpawnedLess(s: Bridge)
    requires s.start.AwaitSpawn? && ResumeStart(s).Some?
    ensures Work(ResumeStart(s).value) < Work(s)
  {
    ResumeSpawned(s);
    AdoptSameProcs(s, s.start.p, s.pushEvent);
    var t, p := ResumeStart(s).value, s.start.p;
    hide Adopted, AfterSpawn, ProcsWork, TasksWork;
    if StatusOf(s, p) != Failed { AdoptedLess(s, t, p); }
  }

  lemma ResumeLess(s: Bridge)
    requires ResumeStart(s).Some?
    ensures Work(ResumeStart(s).value) < Work(s)
  {
    ResumeInFlight(s);
    var t := ResumeStart(s).value;
    hide ResumeStart, Work, RtcpNext, SpawnsAnew, SameFrame;
    match s.start {
      case AwaitPrewarm(_) => PrewarmedLess(s);
      case AwaitDiscard(_) => ResumeDiscarded(s); SpawnLess(s, t);
      case AwaitSpawn(_) => SpawnedLess(s);
      case AwaitVideo => if RtcpNext(s) { RtcpLess(s); } else { CheckpointLess(s); }
      case Unwinding(_, _) => ReapedLess(s);
      case CleaningUp(_) => ReapedLess(s);
      case _ => CheckpointLess(s);
    }
  }

  lemma RtcpLess(s: Bridge)
    requires s.start.AwaitVideo? && RtcpNext(s) && ResumeStart(s).Some?
    ensures Work(ResumeStart(s).value) < Work(s)
  {
    ResumeWrapsRtcp(s);
    hide ResumeStart, ProcsWork, TasksWork;
  }

  lemma ReapedLess(s: Bridge)
    requires (s.start.Unwinding? || s.start.CleaningUp?) && ResumeStart(s).Some?
    ensures Work(ResumeStart(s).value) < Work(s)
  {
    ResumeReaped(s);
    hide ResumeStart, ProcsWork, TasksWork;
  }

  lemma FailSameProcs(s: Bridge)
    requires FailWrap(s).Some?
    ensures |FailWrap(s).value.procs| == |s.procs|
  {
    hide KillNow, UnwindSweep;
    match s.start {
      case AwaitAudio => KillSameProcs(s.(audio := s.audio.(sock := Raw)), true, true, true, false, WrapFailed);
      case AwaitVideo => KillSameProcs(s.(video := s.video.(sock := Raw)), false, true, true, false, WrapFailed);
      case AwaitRtcp =>
        KillSameProcs(s.(rtcp := s.rtcp.(sock := Closed, proto := false)), false, false, false, false, Stopped);
    }
  }

  lemma FailLess(s: Bridge)
    requires FailWrap(s).Some?
    ensures Work(FailWrap(s).value) < Work(s)
  {
    FailShape(s);
    FailSameProcs(s);
    BridgeOutcomes.FailsWrapping(s);
    var t := FailWrap(s).value;
    hide FailWrap, Work, Undone;
    if s.start.AwaitRtcp? && s.generation == s.snapshot {
      assert StartWork(t) < StartWork(s);
      CheckedLess(s, t, AwaitPush);
    } else if s.start.AwaitRtcp? {
      UndoneLess(s, t, Stopped);
    } else {
      UndoneLess(s, t, WrapFailed);
    }
  }

  lemma ConnectionLess(s: Bridge, c: Chan)
    requires MakeConnection(s, c).Some?
    ensures Work(MakeConnection(s, c).value) < Work(s)
  {
    hide ProcsWork, TasksWork;
    match c {
      case Audio =>
      case Video =>
      case Rtcp =>
    }
  }

  // ---------- tasks and processes ----------

  /** Task k moves on to something that has less to do, and start() stays where it is. */
  lemma MovesLess(s: Bridge, t: Bridge, k: nat)
    requires k < |s.tasks| && Moves(s, t, k) && |t.procs| == |s.procs| && TaskWork(t.tasks[k]) < TaskWork(s.tasks[k])
    requires StartWork(t) == StartWork(s)
    ensures Work(t) < Work(s)
  {
    SameProcsLess(s, t);
    assert t.tasks == s.tasks[k := t.tasks[k]];
    TasksUpdate(s.tasks, k, t.tasks[k]);
    hide Evolves, ProcsWork, TasksWork, StartWork, TaskWork;
  }

  lemma SweepReady(s: Bridge, k: nat)
    requires k < |s.tasks|
    ensures var t := StopSweep(s, k);
      && t.start == s.start && t.procs == s.procs && |t.tasks| == |s.tasks|
      && t.audio.ready == s.audio.ready && t.video.ready == s.video.ready && t.rtcp.ready == s.rtcp.ready
      && TaskWork(t.tasks[k]) <= 2
  {
    hide IsRunning;
  }

  lemma SweepWork(s: Bridge, k: nat)
    requires k < |s.tasks|
    ensures var t := StopSweep(s, k);
      && t.procs == s.procs && StartWork(t) == StartWork(s) && |t.tasks| == |s.tasks| && TaskWork(t.tasks[k]) <= 2
    ensures var t := StopAfterDiscard(s, k);
      && t.procs == s.procs && StartWork(t) == StartWork(s) && |t.tasks| == |s.tasks| && TaskWork(t.tasks[k]) <= 3
  {
    SweepOnly(s, k);
    SweepOnly(s.(cleanup := None), k);
    hide StopSweep, CleanupPending, StartWork;
    TasksOnly(s.(cleanup := None), s.tasks[k := StopCleanup(if s.cleanup.Some? then s.cleanup.value else 0)]);
    CleanupOnly(s);
  }

  lemma SweepOnly(s: Bridge, k: nat)
    requires k < |s.tasks|
    ensures var t := StopSweep(s, k);
      && t.procs == s.procs && StartWork(t) == StartWork(s) && |t.tasks| == |s.tasks| && TaskWork(t.tasks[k]) <= 2
  {
    SweepReady(s, k);
    hide StopSweep;
  }

  lemma CleanupOnly(s: Bridge)
    ensures StartWork(s.(cleanup := None)) == StartWork(s)
  {}

  lemma KilledWork(s: Bridge, p: nat)
    ensures var t := WithStatus(s, p, Doomed); |t.procs| == |s.procs| && StartWork(t) == StartWork(s)
  {}

  lemma ResumeStopWork(s: Bridge, k: nat)
    requires ResumeStop(s, k).Some?
    ensures var t := ResumeStop(s, k).value;
      && k < |s.tasks| && k < |t.tasks| && |t.procs| == |s.procs| && StartWork(t) == StartWork(s)
      && TaskWork(t.tasks[k]) < TaskWork(s.tasks[k])
  {
    SweepWork(s, k);
    hide StopSweep, StopAfterDiscard, WithStatus, Alive, StartWork;
    match s.tasks[k] {
      case StopPrewarm(p) =>
        KilledWork(s, p);
        TasksOnly(WithStatus(s, p, Doomed), s.tasks[k := StopDiscard(p)]);
      case StopTerm(_) => TasksOnly(s, s.tasks[k := StopDone]);
      case StopKill(_) => TasksOnly(s, s.tasks[k := StopDone]);
      case _ =>
    }
  }

  lemma TasksOnly(s: Bridge, tasks: seq<TaskPc>)
    ensures StartWork(s.(tasks := tasks)) == StartWork(s)
  {}

  lemma CleanWork(s: Bridge, k: nat)
    requires ResumeCleanup(s, k).Some?
    ensures var t := ResumeCleanup(s, k).value;
      && k < |s.tasks| && k < |t.tasks| && |t.procs| == |s.procs| && StartWork(t) == StartWork(s)
      && TaskWork(t.tasks[k]) < TaskWork(s.tasks[k])
  {
    hide WithStatus, Alive, StartWork;
    match s.tasks[k] {
      case CleanWait(p) =>
        KilledWork(s, p);
        TasksOnly(WithStatus(s, p, Doomed), s.tasks[k := CleanDiscard(p)]);
        TasksOnly(s, s.tasks[k := CleanDone]);
      case CleanDiscard(_) => TasksOnly(s, s.tasks[k := CleanDone]);
    }
  }

  lemma TimeoutWork(s: Bridge, k: nat)
    requires TimeoutStop(s, k).Some?
    ensures var t := TimeoutStop(s, k).value; |t.procs| == |s.procs| && StartWork(t) == StartWork(s)
  {
    KilledWork(s, s.tasks[k].p);
    hide WithStatus, Alive, StartWork;
    TasksOnly(WithStatus(s, s.tasks[k].p, Doomed), s.tasks[k := StopKill(s.tasks[k].p)]);
  }

  lemma StatusLess(s: Bridge, p: nat, st: Status)
    requires p < |s.procs| && ProcWork(s.procs[p].(status := st)) < ProcWork(s.procs[p])
    ensures Work(WithStatus(s, p, st)) < Work(s)
  {
    ProcsUpdate(s.procs, p, s.procs[p].(status := st));
    hide ProcsWork, TasksWork, ProcWork;
  }

  /** Every step by which something goes on leaves less to do. */
  lemma StepLess(s: Bridge, e: Event)
    requires GoesOn(e) && Step(s, e).Some?
    ensures Work(Step(s, e).value) < Work(s)
  {
    hide Work, Moves, ResumeStart, FailWrap, MakeConnection, ResumeStop, TimeoutStop, ResumeCleanup, WithStatus, StartWork, LetsGo;
    match e {
      case StartResume => ResumeLess(s);
      case WrapFails => FailLess(s);
      case ConnectionMade(c) => ConnectionLess(s, c);
      case StopResume(k) => ResumeStopMoves(s, k); ResumeStopWork(s, k); MovesLess(s, ResumeStop(s, k).value, k);
      case StopTimeout(k) => TimeoutMoves(s, k); TimeoutWork(s, k); MovesLess(s, TimeoutStop(s, k).value, k);
      case CleanResume(k) => ResumeCleanupMoves(s, k); CleanWork(s, k); MovesLess(s, ResumeCleanup(s, k).value, k);
      case SpawnUp(p) => StatusLess(s, p, Running);
      case SpawnFails(p) => StatusLess(s, p, Failed);
      case Exits(p) => StatusLess(s, p, Dead);
    }
  }

  /** MAIN RESULT: left alone, the bridge comes to rest: from any state there are only so many steps by
      which what was begun goes on, whatever their order. */
  lemma {:induction false} RestIsNear(s: Bridge, es: seq<Event>)
    requires Run(s, es).Some? && forall i :: 0 <= i < |es| ==> GoesOn(es[i])
    ensures |es| + Work(Run(s, es).value) <= Work(s)
    decreases |es|
  {
    hide Work, Step;
    if es != [] {
      assert GoesOn(es[0]);
      hide GoesOn;
      StepLess(s, es[0]);
      RestIsNear(Step(s, es[0]).value, es[1..]);
    }
  }

  // ---------- nothing is stuck before that ----------

  /** Some step by which something goes on is possible. */
  ghost predicate CanGoOn(s: Bridge) { exists e :: GoesOn(e) && Step(s, e).Some? }

  lemma Can(s: Bridge, e: Event)
    requires GoesOn(e) && Step(s, e).Some?
    ensures CanGoOn(s)
  {}

  lemma SpawningCan(s: Bridge, p: nat)
    requires p < |s.procs| && s.procs[p].status == Spawning
    ensures CanGoOn(s)
  {
    Can(s, SpawnUp(p));
  }

  lemma AliveCan(s: Bridge, p: nat)
    requires Alive(s, p)
    ensures CanGoOn(s)
  {
    Can(s, Exits(p));
  }

  lemma StartCan(s: Bridge)
    requires StartLocals(CoreOf(s)) && BridgeOutcomes.InFlight(s.start)
    ensures CanGoOn(s)
  {
    hide CanGoOn, AfterAudio, AfterVideo, AfterSpawn, VideoCheckpoint, AfterPush, Consumed, OnDemand;
    match s.start {
      case AwaitPrewarm(p) => if StatusOf(s, p) == Spawning { SpawningCan(s, p); } else { Can(s, StartResume); }
      case AwaitSpawn(p) => if StatusOf(s, p) == Spawning { SpawningCan(s, p); } else { Can(s, StartResume); }
      case AwaitDiscard(p) => KilledCan(s, p, StartResume);
      case Unwinding(p, _) => KilledCan(s, p, StartResume);
      case CleaningUp(p) => KilledCan(s, p, StartResume);
      case AwaitAudio => if s.audio.ready { Can(s, StartResume); } else { Can(s, ConnectionMade(Audio)); }
      case AwaitVideo => if s.video.ready { Can(s, StartResume); } else { Can(s, ConnectionMade(Video)); }
      case AwaitRtcp => if s.rtcp.ready { Can(s, StartResume); } else { Can(s, ConnectionMade(Rtcp)); }
      case AwaitPush => Can(s, StartResume);
    }
  }

  /** What was killed dies, and then the wait is over. */
  lemma KilledCan(s: Bridge, p: nat, e: Event)
    requires Killed(CoreOf(s), p) && (StatusOf(s, p) == Dead ==> GoesOn(e) && Step(s, e).Some?)
    ensures CanGoOn(s)
  {
    hide CanGoOn, Step, GoesOn;
    if StatusOf(s, p) == Dead { Can(s, e); } else { AliveCan(s, p); }
  }

  lemma CleanupCan(s: Bridge, k: nat)
    requires k < |s.tasks| && TaskLocals(CoreOf(s), s.tasks[k]) && (s.tasks[k].CleanWait? || s.tasks[k].CleanDiscard?)
    ensures CanGoOn(s)
  {
    hide CanGoOn, WithStatus;
    match s.tasks[k] {
      case CleanWait(p) => if StatusOf(s, p) == Spawning { SpawningCan(s, p); } else { Can(s, CleanResume(k)); }
      case CleanDiscard(p) => KilledCan(s, p, CleanResume(k));
    }
  }

  lemma StopCan(s: Bridge, k: nat)
    requires k < |s.tasks| && TaskLocals(CoreOf(s), s.tasks[k])
    requires s.tasks[k].StopPrewarm? || s.tasks[k].StopDiscard? || s.tasks[k].StopTerm? || s.tasks[k].StopKill?
    ensures CanGoOn(s)
  {
    hide CanGoOn, WithStatus, StopAfterDiscard, StopSweep;
    match s.tasks[k] {
      case StopPrewarm(p) => if StatusOf(s, p) == Spawning { SpawningCan(s, p); } else { Can(s, StopResume(k)); }
      case StopDiscard(p) => KilledCan(s, p, StopResume(k));
      case StopKill(p) => KilledCan(s, p, StopResume(k));
      case StopTerm(p) => if StatusOf(s, p) == Dead { Can(s, StopResume(k)); } else { AliveCan(s, p); }
    }
  }

  /** A stop() waits for a cleanup task, not for another stop(). */
  predicate CleanupsAwaited(s: Bridge)
  {
    forall k :: 0 <= k < |s.tasks| && s.tasks[k].StopCleanup? ==> s.tasks[k].c < |s.tasks| && IsCleanup(s.tasks[s.tasks[k].c])
  }

  predicate CleanupIsOne(s: Bridge) { s.cleanup.Some? ==> s.cleanup.value < |s.tasks| && IsCleanup(s.tasks[s.cleanup.value]) }

  predicate Awaited(s: Bridge) { CleanupIsOne(s) && CleanupsAwaited(s) }

  lemma AwaitedSame(s: Bridge, t: Bridge)
    requires Awaited(s) && t.tasks == s.tasks && (t.cleanup == s.cleanup || t.cleanup.None?)
    ensures Awaited(t)
  {}

  /** One task is new or moves on, and what is a cleanup stays one. */
  lemma AwaitedMove(s: Bridge, t: Bridge, k: nat)
    requires Awaited(s) && SameTasks(s, t, k) && (t.cleanup == s.cleanup || t.cleanup.None?)
    requires k < |s.tasks| && IsCleanup(s.tasks[k]) ==> IsCleanup(t.tasks[k])
    requires t.tasks[k].StopCleanup? ==> s.cleanup == Some(t.tasks[k].c) || (k < |s.tasks| && t.tasks[k] == s.tasks[k])
    requires |t.tasks| == |s.tasks| || (k == |s.tasks| && |t.tasks| == k + 1)
    ensures Awaited(t)
  {
    forall j | 0 <= j < |t.tasks| && t.tasks[j].StopCleanup? ensures t.tasks[j].c < |t.tasks| && IsCleanup(t.tasks[t.tasks[j].c]) {
      if j < |s.tasks| && j != k { assert s.tasks[j] == t.tasks[j]; }
    }
  }

  lemma StopAwaits(s: Bridge)
    requires Awaited(s)
    ensures Awaited(BeginStop(s))
  {
    BeginStopShape(s);
    BridgeStops.StopCleanupField(s);
    hide BeginStop, MustWait, Awaited, IsRunning;
    AwaitedMove(s, BeginStop(s), |s.tasks|);
  }

  lemma StopMovesOn(s: Bridge, k: nat)
    requires ResumeStop(s, k).Some?
    ensures var t := ResumeStop(s, k).value;
      && k < |s.tasks| && !IsCleanup(s.tasks[k]) && SameTasks(s, t, k) && |t.tasks| == |s.tasks|
      && (t.tasks[k].StopCleanup? ==> s.cleanup == Some(t.tasks[k].c))
  {
    hide StopAfterDiscard, StopSweep, MustWait, IsRunning, Alive, SameStart;
    match s.tasks[k] {
      case StopPrewarm(p) => AfterDiscardShape(s, k); hide WithStatus; assert WithStatus(s, p, Doomed).tasks == s.tasks by { KeepsTasks(s, p); }
      case StopDiscard(_) => AfterDiscardShape(s, k);
      case StopCleanup(_) => SweepShape(s, k);
      case _ =>
    }
  }

  lemma KeepsTasks(s: Bridge, p: nat)
    ensures WithStatus(s, p, Doomed).tasks == s.tasks
  {}

  lemma ResumeStopAwaits(s: Bridge, k: nat)
    requires Awaited(s) && ResumeStop(s, k).Some?
    ensures Awaited(ResumeStop(s, k).value)
  {
    StopMovesOn(s, k);
    BridgeStops.ResumeCleanupField(s, k);
    hide ResumeStop, Awaited;
    AwaitedMove(s, ResumeStop(s, k).value, k);
  }

  lemma OthersAwait(s: Bridge, e: Event)
    requires Awaited(s) && Step(s, e).Some? && (e.StopTimeout? || e.CleanResume? || e.CancelPrewarm?)
    ensures Awaited(Step(s, e).value)
  {
    var t := Step(s, e).value;
    match e {
      case StopTimeout(k) =>
        TimeoutMoves(s, k);
        BridgeStops.TimeoutCleanupField(s, k);
        hide Step, TimeoutStop, Awaited, Evolves;
        AwaitedMove(s, t, k);
      case CleanResume(k) =>
        CleanMoves(s, k);
        hide Step, ResumeCleanup, Awaited;
        AwaitedMove(s, t, k);
      case CancelPrewarm => BeginCleanupShape(s); hide Step, BeginCleanup; CleanupAwaits(s);
    }
  }

  lemma CleanupAwaits(s: Bridge)
    requires Awaited(s)
    ensures Awaited(BeginCleanup(s))
  {
    var t := BeginCleanup(s);
    if s.prewarm.Some? {
      forall j | 0 <= j < |t.tasks| && t.tasks[j].StopCleanup? ensures t.tasks[j].c < |s.tasks| && IsCleanup(s.tasks[t.tasks[j].c]) {
        assert j < |s.tasks| && s.tasks[j] == t.tasks[j];
      }
      assert forall i :: 0 <= i < |s.tasks| ==> t.tasks[i] == s.tasks[i];
    }
  }

  lemma StepAwaits(s: Bridge, e: Event)
    requires Awaited(s) && Step(s, e).Some?
    ensures Awaited(Step(s, e).value)
  {
    hide Awaited, StartEntry, ResumeStart, CancelStart, FailWrap, BeginStop, ResumeStop, TimeoutStop, ResumeCleanup,
      BeginPrewarm, BeginCleanup, MakeConnection, WithStatus;
    match e {
      case StopBegin => StopAwaits(s);
      case StopResume(k) => ResumeStopAwaits(s, k);
      case StopTimeout(_) => OthersAwait(s, e);
      case CleanResume(_) => OthersAwait(s, e);
      case CancelPrewarm => OthersAwait(s, e);
      case _ =>
        BridgeStops.OtherEvents(s, e);
        BridgeStops.CleanupStays(s, e);
        hide Step;
        AwaitedSame(s, Step(s, e).value);
    }
  }

  lemma {:induction false} RunAwaits(s: Bridge, es: seq<Event>)
    requires Awaited(s) && Run(s, es).Some?
    ensures Awaited(Run(s, es).value)
    decreases |es|
  {
    hide Step, Awaited;
    if es != [] {
      StepAwaits(s, es[0]);
      RunAwaits(Step(s, es[0]).value, es[1..]);
    }
  }

  lemma TaskCan(s: Bridge, k: nat)
    requires Locals(CoreOf(s)) && Awaited(s) && k < |s.tasks| && !s.tasks[k].StopDone? && !s.tasks[k].CleanDone?
    ensures CanGoOn(s)
  {
    assert TaskLocals(CoreOf(s), CoreOf(s).tasks[k]);
    hide CanGoOn, TaskLocals, Locals, ResumeStop;
    match s.tasks[k] {
      case CleanWait(_) => CleanupCan(s, k);
      case CleanDiscard(_) => CleanupCan(s, k);
      case StopCleanup(c) => StopWaits(s, k, c);
      case _ => StopCan(s, k);
    }
  }

  lemma StopWaits(s: Bridge, k: nat, c: nat)
    requires Locals(CoreOf(s)) && Awaited(s) && k < |s.tasks| && s.tasks[k] == StopCleanup(c)
    ensures CanGoOn(s)
  {
    assert TaskLocals(CoreOf(s), CoreOf(s).tasks[c]);
    hide CanGoOn, TaskLocals, Locals, StopSweep;
    if s.tasks[c].CleanDone? { Can(s, StopResume(k)); } else { CleanupCan(s, c); }
  }

  /** MAIN RESULT: nothing is ever stuck. In every reached state, as long as `start()` is in flight or
      some `stop()` or cleanup is not done, some step is possible by which one of them goes on, or an
      ffmpeg comes up or dies. With `RestIsNear`, each of them finishes if it is left alone. */
  lemma NothingIsStuck(g: nat, es: seq<Event>, s: Bridge)
    requires Reached(g, es, s)
    requires BridgeOutcomes.InFlight(s.start) || exists k :: 0 <= k < |s.tasks| && !s.tasks[k].StopDone? && !s.tasks[k].CleanDone?
    ensures CanGoOn(s)
  {
    ReachedKeeps(g, es, s);
    assert Awaited(Fresh(g));
    hide Awaited, CanGoOn, Rel, BridgeHistory.Told, StartLocals;
    RunAwaits(Fresh(g), es);
    if BridgeOutcomes.InFlight(s.start) {
      StartCan(s);
    } else {
      var k :| 0 <= k < |s.tasks| && !s.tasks[k].StopDone? && !s.tasks[k].CleanDone?;
      TaskCan(s, k);
    }
  }

  /** `start()` can be cancelled exactly as long as it is in flight, and `stop()` can always begin. */
  lemma CancelWhileInFlight(s: Bridge)
    ensures CancelStart(s).Some? <==> BridgeOutcomes.InFlight(s.start)
    ensures Step(s, StopBegin).Some?
  {
    hide CancelHandler, Interrupted, BeginStop;
  }
}
