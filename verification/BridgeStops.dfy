/** A `stop()`, and the cleanup of a prewarm, are done only when the ffmpegs they took are gone. */
module BridgeStops {
  import opened Basics
  import opened BridgeState
  import opened BridgeShapes
  import opened BridgeOwnership
  import opened BridgeRelease
  import opened BridgeTheorems

  /** Task k answers for ffmpeg p, or p is gone. */
  predicate Reaps(s: Bridge, k: nat, p: nat)
  {
    k < |s.tasks| && p < |s.procs| && (Gone(s, p) || TaskHolds(s.tasks[k]) == Some(p))
  }

  /** Task k waits for task c, or c is done. */
  predicate WaitsFor(s: Bridge, k: nat, c: nat)
  {
    k < |s.tasks| && c < |s.tasks| && (s.tasks[c].CleanDone? || s.tasks[k] == StopCleanup(c))
  }

  lemma GoneStays(s: Bridge, t: Bridge, p: nat)
    requires Gone(s, p) && Evolves(s, t)
    ensures Gone(t, p)
  {}

  /** The tasks other than the one that moves keep what they have; that one lets go in time. */
  predicate TasksMove(s: Bridge, t: Bridge, k: nat)
  {
    SameTasks(s, t, k) && (k < |s.tasks| ==> LetsGo(s, t, k))
  }

  lemma ReapsOn(s: Bridge, t: Bridge, j: nat, k: nat, p: nat)
    requires Reaps(s, j, p) && Evolves(s, t) && TasksMove(s, t, k)
    ensures Reaps(t, j, p)
  {
    if Gone(s, p) { GoneStays(s, t, p); }
    hide Evolves, Later;
    assert p < |t.procs| by { EvolvesLonger(s, t); }
  }

  lemma EvolvesLonger(s: Bridge, t: Bridge)
    requires Evolves(s, t)
    ensures |s.procs| <= |t.procs|
  {}

  lemma WaitsOn(s: Bridge, t: Bridge, j: nat, k: nat, c: nat)
    requires WaitsFor(s, j, c) && TasksMove(s, t, k)
    ensures WaitsFor(t, j, c)
  {}

  lemma SameTasksMove(s: Bridge, t: Bridge)
    requires t.tasks == s.tasks
    ensures forall j, p :: Reaps(s, j, p) && Evolves(s, t) ==> Reaps(t, j, p)
    ensures forall j, c :: WaitsFor(s, j, c) ==> WaitsFor(t, j, c)
  {
    forall j: nat, p: nat | Reaps(s, j, p) && Evolves(s, t) ensures Reaps(t, j, p) {
      if Gone(s, p) { GoneStays(s, t, p); }
      EvolvesLonger(s, t);
    }
  }

  /** The task that an event moves or starts. */
  function Mover(s: Bridge, e: Event): nat
  {
    match e
    case StopResume(k) => k
    case StopTimeout(k) => k
    case CleanResume(k) => k
    case _ => |s.tasks|
  }

  predicate StartsOrMoves(e: Event)
  {
    e.StopBegin? || e.StopResume? || e.StopTimeout? || e.CleanResume? || e.CancelPrewarm?
  }

  lemma TaskEvents(s: Bridge, e: Event)
    requires StartsOrMoves(e) && Step(s, e).Some? && Step(s, e).value != s
    ensures TasksMove(s, Step(s, e).value, Mover(s, e))
  {
    hide BeginStop, ResumeStop, TimeoutStop, ResumeCleanup, BeginCleanup, Evolves, MustWait, CleanupPending, Alive, PreSweep,
      SameStart;
    match e {
      case StopBegin => BeginStopShape(s);
      case StopResume(k) => ResumeStopMoves(s, k); ResumeStopLetsGo(s, k);
      case StopTimeout(k) => TimeoutMoves(s, k);
      case CleanResume(k) => ResumeCleanupMoves(s, k);
      case CancelPrewarm => BeginCleanupShape(s);
    }
  }

  lemma OtherEvents(s: Bridge, e: Event)
    requires !StartsOrMoves(e) && Step(s, e).Some?
    ensures Step(s, e).value.tasks == s.tasks
  {
    hide StartEntry, ResumeStart, CancelStart, FailWrap, BeginPrewarm, MakeConnection, WithStatus, Evolves, Undone, Checked;
    match e {
      case StartCall(v, vr, r) => EntryShape(s, v, vr, r);
      case StartResume => ResumeShape(s);
      case StartCancel => CancelShape(s);
      case WrapFails => FailTasks(s);
      case Prewarm(video) => PrewarmShape(s, video);
      case ConnectionMade(c) => ConnectionShape(s, c);
      case PliEnds =>
      case _ => ProcessEvolves(s, e); hide Step;
    }
  }

  lemma FailTasks(s: Bridge)
    requires FailWrap(s).Some?
    ensures FailWrap(s).value.tasks == s.tasks
  {
    FailShape(s);
    hide FailWrap, Evolves;
  }

  lemma StepReaps(s: Bridge, e: Event, k: nat, p: nat)
    requires Reaps(s, k, p) && Step(s, e).Some?
    ensures Reaps(Step(s, e).value, k, p)
  {
    StepEvolves(s, e);
    var t := Step(s, e).value;
    if StartsOrMoves(e) {
      if t != s {
        TaskEvents(s, e);
        hide Step, Evolves, TasksMove, Reaps;
        ReapsOn(s, t, k, Mover(s, e), p);
      }
    } else {
      OtherEvents(s, e);
      hide Step, Evolves, Reaps;
      SameTasksMove(s, t);
    }
  }

  lemma StepWaits(s: Bridge, e: Event, k: nat, c: nat)
    requires WaitsFor(s, k, c) && Step(s, e).Some?
    ensures WaitsFor(Step(s, e).value, k, c)
  {
    var t := Step(s, e).value;
    if StartsOrMoves(e) {
      if t != s {
        TaskEvents(s, e);
        hide Step, TasksMove, WaitsFor;
        WaitsOn(s, t, k, Mover(s, e), c);
      }
    } else {
      OtherEvents(s, e);
      hide Step, WaitsFor;
      SameTasksMove(s, t);
    }
  }

  lemma {:induction false} RunReaps(s: Bridge, es: seq<Event>, k: nat, p: nat)
    requires Reaps(s, k, p) && Run(s, es).Some?
    ensures Reaps(Run(s, es).value, k, p)
    decreases |es|
  {
    hide Step, Reaps;
    if es != [] {
      StepReaps(s, es[0], k, p);
      RunReaps(Step(s, es[0]).value, es[1..], k, p);
    }
  }

  lemma {:induction false} RunWaits(s: Bridge, es: seq<Event>, k: nat, c: nat)
    requires WaitsFor(s, k, c) && Run(s, es).Some?
    ensures WaitsFor(Run(s, es).value, k, c)
    decreases |es|
  {
    hide Step, WaitsFor;
    if es != [] {
      StepWaits(s, es[0], k, c);
      RunWaits(Step(s, es[0]).value, es[1..], k, c);
    }
  }

  // ---------- a stop() that is done ----------

  lemma {:induction false} CleanupIsKnown(s: Bridge, es: seq<Event>)
    requires CleanupKnown(s) && Run(s, es).Some?
    ensures CleanupKnown(Run(s, es).value)
    decreases |es|
  {
    hide Step, CleanupKnown;
    if es != [] {
      StepKnows(s, es[0]);
      CleanupIsKnown(Step(s, es[0]).value, es[1..]);
    }
  }

  lemma StepKnows(s: Bridge, e: Event)
    requires CleanupKnown(s) && Step(s, e).Some?
    ensures CleanupKnown(Step(s, e).value)
  {
    var t := Step(s, e).value;
    CleanupStays(s, e);
    if StartsOrMoves(e) {
      if t != s { TaskEvents(s, e); hide Step, LetsGo; }
    } else {
      OtherEvents(s, e);
      hide Step;
    }
  }

  lemma CleanupStays(s: Bridge, e: Event)
    requires Step(s, e).Some?
    ensures var t := Step(s, e).value;
      t.cleanup == s.cleanup || t.cleanup.None? || (e.CancelPrewarm? && t.cleanup == Some(|s.tasks|) && |t.tasks| == |s.tasks| + 1)
  {
    hide StartEntry, ResumeStart, CancelStart, FailWrap, BeginPrewarm, MakeConnection, WithStatus, Evolves, BeginStop, ResumeStop,
      TimeoutStop, ResumeCleanup, BeginCleanup;
    match e {
      case StartCall(v, vr, r) => EntryShape(s, v, vr, r);
      case StartResume => ResumeShape(s);
      case StartCancel => CancelShape(s);
      case WrapFails => FailCleanup(s);
      case Prewarm(video) => PrewarmShape(s, video);
      case CancelPrewarm => BeginCleanupShape(s);
      case ConnectionMade(c) => ConnectionShape(s, c);
      case StopBegin => StopCleanupField(s);
      case StopResume(k) => ResumeCleanupField(s, k);
      case StopTimeout(k) => TimeoutCleanupField(s, k);
      case CleanResume(k) => CleanMoves(s, k);
      case PliEnds =>
      case _ => ProcessEvolves(s, e); hide Step;
    }
  }

  lemma FailCleanup(s: Bridge)
    requires FailWrap(s).Some?
    ensures FailWrap(s).value.cleanup == s.cleanup
  {
    FailShape(s);
    hide FailWrap, Evolves;
  }

  lemma StopCleanupField(s: Bridge)
    ensures BeginStop(s).cleanup == s.cleanup || BeginStop(s).cleanup.None?
  {
    if s.prewarm.None? { SweepCleanupField(s.(generation := s.generation + 1, tasks := s.tasks + [StopDone]), |s.tasks|); }
    hide StopAfterDiscard;
  }

  lemma ResumeCleanupField(s: Bridge, k: nat)
    requires ResumeStop(s, k).Some?
    ensures ResumeStop(s, k).value.cleanup == s.cleanup || ResumeStop(s, k).value.cleanup.None?
  {
    hide StopSweep, StopAfterDiscard, Alive, WithStatus, CleanupPending, StatusOf;
    SweepCleanupField(s, k);
    match s.tasks[k] {
      case StopPrewarm(p) => KeepsCleanupField(s, p);
      case _ =>
    }
  }

  lemma KeepsCleanupField(s: Bridge, p: nat)
    ensures WithStatus(s, p, Doomed).cleanup == s.cleanup
  {}

  lemma SweepCleanupField(s: Bridge, k: nat)
    requires k < |s.tasks|
    ensures StopSweep(s, k).cleanup == s.cleanup && StopAfterDiscard(s, k).cleanup.None?
  {
    hide SweepMedia, CleanupPending, IsRunning;
  }

  lemma TimeoutCleanupField(s: Bridge, k: nat)
    requires TimeoutStop(s, k).Some?
    ensures TimeoutStop(s, k).value.cleanup == s.cleanup
  {}

  /** MAIN RESULT: whatever else happens, when a `stop()` that began in s is done, the prewarm parked
      in s is gone; if none was parked, the cleanup that was pending in s is done; and if there was
      none of both, the ffmpeg that ran in s is gone. */
  lemma StopIsThorough(g: nat, before: seq<Event>, s: Bridge, es: seq<Event>, t: Bridge)
    requires Reached(g, before, s) && Run(BeginStop(s), es) == Some(t)
    requires |s.tasks| < |t.tasks| && t.tasks[|s.tasks|].StopDone?
    ensures s.prewarm.Some? ==> Gone(t, s.prewarm.value)
    ensures s.prewarm.None? && MustWait(s) ==> s.cleanup.value < |t.tasks| && t.tasks[s.cleanup.value].CleanDone?
    ensures s.prewarm.None? && !MustWait(s) && IsRunning(s) ==> Gone(t, s.process.value)
  {
    var u, k := BeginStop(s), |s.tasks|;
    ReachedKeeps(g, before, s);
    assert Locals(CoreOf(s));
    CleanupIsKnown(Fresh(g), before);
    BeginStopShape(s);
    StopTakes(s);
    hide Reached, OwnInv, Rel, BridgeHistory.Told, BeginStop, Run, Locals;
    if s.prewarm.Some? { RunReaps(u, es, k, s.prewarm.value); }
    else if MustWait(s) { RunWaits(u, es, k, s.cleanup.value); }
    else if IsRunning(s) { RunReaps(u, es, k, s.process.value); }
  }

  lemma StopTakes(s: Bridge)
    requires Locals(CoreOf(s)) && CleanupKnown(s)
    ensures var u := BeginStop(s); var k := |s.tasks|;
      && (s.prewarm.Some? ==> Reaps(u, k, s.prewarm.value))
      && (s.prewarm.None? && MustWait(s) ==> WaitsFor(u, k, s.cleanup.value))
      && (s.prewarm.None? && !MustWait(s) && IsRunning(s) ==> Reaps(u, k, s.process.value))
  {
    BeginStopShape(s);
    hide BeginStop, Locals;
    assert s.prewarm.Some? ==> s.prewarm.value < |s.procs| by { ParkedIsKnown(s); }
  }

  lemma ParkedIsKnown(s: Bridge)
    requires Locals(CoreOf(s))
    ensures s.prewarm.Some? ==> s.prewarm.value < |s.procs|
  {}

  /** `cancel_prewarm()`: a `stop()` waits for its task, and when that is done the ffmpeg is gone. */
  lemma CleanupIsThorough(g: nat, before: seq<Event>, s: Bridge, es: seq<Event>, t: Bridge)
    requires Reached(g, before, s) && s.prewarm.Some? && Run(BeginCleanup(s), es) == Some(t)
    requires |s.tasks| < |t.tasks| && t.tasks[|s.tasks|].CleanDone?
    ensures BeginCleanup(s).prewarm.None? && MustWait(BeginCleanup(s)) && Gone(t, s.prewarm.value)
  {
    ReachedKeeps(g, before, s);
    ParkedIsKnown(s);
    BeginCleanupShape(s);
    hide Reached, OwnInv, Rel, BridgeHistory.Told, BeginCleanup, Run;
    RunReaps(BeginCleanup(s), es, |s.tasks|, s.prewarm.value);
  }

  /** What a suspended task or `start()` waits to see dead was sent SIGKILL before. */
  lemma OnlyTheKilledAreAwaited(g: nat, es: seq<Event>, s: Bridge, k: nat, p: nat)
    requires Reached(g, es, s)
    ensures k < |s.tasks| && s.tasks[k] in {StopDiscard(p), StopKill(p), CleanDiscard(p)} ==> Killed(CoreOf(s), p)
    ensures s.start == AwaitDiscard(p) || s.start == CleaningUp(p) || (s.start.Unwinding? && s.start.p == p) ==> Killed(CoreOf(s), p)
  {
    ReachedKeeps(g, es, s);
    assert Locals(CoreOf(s));
    hide Reached, Rel, BridgeHistory.Told, Owned;
    if k < |s.tasks| { assert TaskLocals(CoreOf(s), CoreOf(s).tasks[k]); }
  }
}
