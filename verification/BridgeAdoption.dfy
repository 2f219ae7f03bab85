/** Which ffmpeg `start()` runs on: the prewarmed one exactly if it is alive and of the negotiated kind,
    else a new one of that kind. */
module BridgeAdoption {
  import opened Basics
  import opened BridgeState
  import opened BridgeOwnership
  import opened BridgeRelease
  import opened BridgeHistory
  import opened BridgeTheorems
  import opened BridgeShapes

  // ---------- the running ffmpeg suits the call ----------

  predicate OnItsWay(pc: StartPc) { Wrapping(pc) || pc == Finished(Url) }

  predicate OfKind(s: Bridge, p: nat) { p < |s.procs| && s.procs[p].video == s.videoEnabled }

  /** A spawn on demand is of the negotiated kind, and so is the process of an undisturbed start(). */
  predicate Suits(s: Bridge)
  {
    && (s.start.Idle? ==> s.process.None?) && (s.start.Unwinding? ==> s.start.outcome != Url)
    && (s.start.AwaitSpawn? ==> OfKind(s, s.start.p))
    && (OnItsWay(s.start) && s.generation == s.snapshot ==> s.process.Some? && OfKind(s, s.process.value))
  }

  lemma StillSuits(s: Bridge, t: Bridge)
    requires Suits(s) && Evolves(s, t) && SameStart(s, t) && t.generation >= s.generation
    requires t.process == s.process || (t.process.None? && (s.start.Idle? || s.snapshot < t.generation))
    requires s.snapshot <= s.generation
    ensures Suits(t)
  {}

  lemma EntrySuits(s: Bridge, v: bool, vr: bool, r: bool)
    requires Suits(s) && s.start.Idle?
    ensures Suits(StartEntry(s, v, vr, r))
  {
    EntryShape(s, v, vr, r);
    hide StartEntry, Evolves;
  }

  lemma CheckedSuits(s: Bridge, t: Bridge, pc: StartPc)
    requires Suits(s) && Checked(s, t, pc) && Wrapping(s.start) && OnItsWay(pc)
    ensures Suits(t)
  {
    hide Evolves;
  }

  lemma AdoptedSuits(s: Bridge, t: Bridge, p: nat)
    requires Adopted(s, t, p) && OfKind(s, p)
    ensures Suits(t)
  {
    hide Evolves;
  }

  lemma SpawnSuits(s: Bridge, t: Bridge)
    requires SpawnsAnew(s, t, s.videoEnabled) && SameFrame(s, t)
    ensures Suits(t)
  {}

  lemma ResumeSuits(s: Bridge)
    requires Suits(s) && ResumeStart(s).Some?
    ensures Suits(ResumeStart(s).value)
  {
    ResumeInFlight(s);
    var t := ResumeStart(s).value;
    hide ResumeStart, Suits, Evolves, Checked, Adopted, SpawnsAnew, SameFrame;
    match s.start {
      case AwaitPrewarm(p) => PrewarmedSuits(s);
      case AwaitDiscard(_) => ResumeDiscarded(s); SpawnSuits(s, t);
      case AwaitSpawn(p) => SpawnedSuits(s);
      case AwaitVideo =>
        if RtcpNext(s) { RtcpSuits(s); } else { ResumeCheckpoint(s); CheckedSuits(s, t, AwaitPush); }
      case Unwinding(_, _) => ReapedSuits(s);
      case CleaningUp(_) => ReapedSuits(s);
      case _ => ResumeCheckpoint(s); CheckedSuits(s, t, NextPc(s));
    }
  }

  lemma PrewarmedSuits(s: Bridge)
    requires Suits(s) && s.start.AwaitPrewarm? && ResumeStart(s).Some?
    ensures Suits(ResumeStart(s).value)
  {
    ResumePrewarmed(s);
    var t, p := ResumeStart(s).value, s.start.p;
    hide ResumeStart, Suits, Adopted, SpawnsAnew, SameFrame;
    if !Alive(s, p) { SpawnSuits(s, t); }
    else if s.procs[p].video == s.videoEnabled { AdoptedSuits(s, t, p); }
    else { DiscardSuits(t); }
  }

  lemma DiscardSuits(t: Bridge)
    requires t.start.AwaitDiscard?
    ensures Suits(t)
  {}

  lemma SpawnedSuits(s: Bridge)
    requires Suits(s) && s.start.AwaitSpawn? && ResumeStart(s).Some?
    ensures Suits(ResumeStart(s).value)
  {
    ResumeSpawned(s);
    hide ResumeStart, Adopted;
    if StatusOf(s, s.start.p) != Failed { AdoptedSuits(s, ResumeStart(s).value, s.start.p); }
  }

  lemma RtcpSuits(s: Bridge)
    requires Suits(s) && s.start.AwaitVideo? && RtcpNext(s) && ResumeStart(s).Some?
    ensures Suits(ResumeStart(s).value)
  {
    ResumeWrapsRtcp(s);
    hide ResumeStart;
  }

  lemma ReapedSuits(s: Bridge)
    requires Suits(s) && (s.start.Unwinding? || s.start.CleaningUp?) && ResumeStart(s).Some?
    ensures Suits(ResumeStart(s).value)
  {
    ResumeReaped(s);
    hide ResumeStart;
  }

  lemma FailSuits(s: Bridge)
    requires Suits(s) && FailWrap(s).Some?
    ensures Suits(FailWrap(s).value)
  {
    FailShape(s);
    FailsWrapping(s);
    hide FailWrap, Suits;
    if s.start.AwaitRtcp? {
      hide Checked;
      CheckedSuits(s, FailWrap(s).value, AwaitPush);
    } else {
      UndoneSuits(s, FailWrap(s).value, WrapFailed);
    }
  }

  lemma FailsWrapping(s: Bridge)
    requires FailWrap(s).Some?
    ensures s.start.AwaitAudio? || s.start.AwaitVideo? || s.start.AwaitRtcp?
  {
    hide VideoCheckpoint, Unwind;
  }

  lemma UndoneSuits(s: Bridge, t: Bridge, o: Outcome)
    requires Undone(s, t, o) && o != Url
    ensures Suits(t)
  {
    hide Evolves;
  }

  lemma CancelSuits(s: Bridge)
    requires CancelStart(s).Some?
    ensures Suits(CancelStart(s).value)
  {
    CancelShape(s);
    hide CancelStart, Evolves;
  }

  /** A stop() or cleanup task moves on: it takes the process only from a start() it has overtaken. */
  lemma MovesSuits(s: Bridge, t: Bridge, k: nat)
    requires Suits(s) && Rel(s) && k < |s.tasks| && Moves(s, t, k)
    ensures Suits(t)
  {
    assert s.snapshot <= s.generation;
    if PreSweep(s.tasks[k]) && !s.start.Idle? { assert !AllSwept(s); }
    hide Endpoints, Up, AllReleased, Sweeping, Evolves;
    StillSuits(s, t);
  }

  lemma StopBeginSuits(s: Bridge)
    requires Suits(s) && Rel(s)
    ensures Suits(BeginStop(s))
  {
    BeginStopShape(s);
    assert s.snapshot <= s.generation;
    hide Rel, BeginStop, MustWait, SameTasks, Evolves;
    SameEvolves(s, BeginStop(s));
    StillSuits(s, BeginStop(s));
  }

  lemma StepSuits(s: Bridge, e: Event)
    requires OwnInv(s) && Rel(s) && Suits(s) && Step(s, e).Some?
    ensures Suits(Step(s, e).value)
  {
    hide Rel, ResumeStart, CancelStart, FailWrap, BeginStop, ResumeStop, TimeoutStop, ResumeCleanup, BeginCleanup,
      BeginPrewarm, StartEntry, Suits, Moves, OwnInv;
    match e {
      case StartCall(v, vr, r) => EntrySuits(s, v, vr, r);
      case StartResume => ResumeSuits(s);
      case StartCancel => CancelSuits(s);
      case WrapFails => FailSuits(s);
      case StopBegin => StopBeginSuits(s);
      case StopResume(k) => ResumeStopMoves(s, k); MovesSuits(s, ResumeStop(s, k).value, k);
      case StopTimeout(k) => TimeoutMoves(s, k); MovesSuits(s, TimeoutStop(s, k).value, k);
      case CleanResume(k) => ResumeCleanupMoves(s, k); MovesSuits(s, ResumeCleanup(s, k).value, k);
      case _ => BesideSuits(s, e);
    }
  }

  lemma BesideSuits(s: Bridge, e: Event)
    requires Suits(s) && Rel(s) && Step(s, e).Some?
    requires Beside(e)
    ensures Suits(Step(s, e).value)
  {
    StepEvolves(s, e);
    assert s.snapshot <= s.generation;
    BesideShape(s, e);
    hide Rel, Step, Evolves, Suits;
    StillSuits(s, Step(s, e).value);
  }

  lemma {:induction false} RunSuits(s: Bridge, es: seq<Event>)
    requires OwnInv(s) && Rel(s) && Suits(s) && PoliteRun(s, es) && Run(s, es).Some?
    ensures Suits(Run(s, es).value)
    decreases |es|
  {
    hide OwnInv, Rel, Suits, Step, Polite;
    if es != [] {
      BridgeOwnershipRuns.OwnStep(s, es[0]);
      RelStep(s, es[0]);
      StepSuits(s, es[0]);
      RunSuits(Step(s, es[0]).value, es[1..]);
    }
  }

  lemma ReachedSuits(g: nat, es: seq<Event>, s: Bridge)
    requires Reached(g, es, s)
    ensures Suits(s)
  {
    FreshKeeps(g);
    assert Suits(Fresh(g));
    hide OwnInv, Rel, Told, Suits;
    RunSuits(Fresh(g), es);
  }

  /** The arguments of `start()` ask for the gateway's video. */
  predicate WantsVideo(h: Past) { h.handed.Some? && h.handed.value.video && h.handed.value.peer }

  /** MAIN RESULT: from the moment an undisturbed `start()` has an ffmpeg to the URL it returns, the
      process of the bridge is an ffmpeg with the inputs that were negotiated. */
  lemma ProcessSuitsTheCall(g: nat, es: seq<Event>, s: Bridge)
    requires Reached(g, es, s) && OnItsWay(s.start) && PastOf(g, es).firstStop.None?
    ensures s.process.Some? && s.process.value < |s.procs|
    ensures s.procs[s.process.value].video == WantsVideo(PastOf(g, es))
  {
    ReachedKeeps(g, es, s);
    ReachedSuits(g, es, s);
    hide Reached, OwnInv, Rel, PastOf, SweepsTold, PcTold;
  }

  // ---------- what start() does with a prewarm ----------

  /** The prewarm that `start()` waits on is alive, of the negotiated kind, and no `stop()` came. */
  predicate Adoptable(s: Bridge, h: Past, p: nat)
  {
    p < |s.procs| && s.procs[p] == Proc(WantsVideo(h), Running) && h.firstStop.None?
  }

  /** MAIN RESULT: when the prewarm that `start()` waits on is there, `start()` adopts it exactly if
      it is alive, has the negotiated inputs and no `stop()` came; then nothing is killed or spawned.
      Any other live one it kills. One that has died or failed is replaced by a new spawn. */
  lemma PrewarmIsAdoptedExactly(g: nat, es: seq<Event>, s: Bridge, p: nat)
    requires Reached(g, es, s) && s.start == AwaitPrewarm(p) && ResumeStart(s).Some?
    ensures p < |s.procs|
    ensures var t := ResumeStart(s).value; var h := PastOf(g, es);
      && (t.process == Some(p) <==> Adoptable(s, h, p)) && (Adoptable(s, h, p) ==> t.procs == s.procs)
      && (s.procs[p].status == Running && !Adoptable(s, h, p) ==>
            t.procs == s.procs[p := s.procs[p].(status := Doomed)] && t.process.None?)
      && (s.procs[p].status != Running ==> SpawnsAnew(s, t, WantsVideo(h)))
  {
    ReachedKeeps(g, es, s);
    assert StartLocals(CoreOf(s));
    ResumePrewarmed(s);
    hide Reached, OwnInv, Rel, PastOf, SweepsTold, PcTold, ResumeStart, Evolves;
  }

  /** `start()` enters: it waits on a parked prewarm, or spawns at once. */
  lemma EntryTakesThePrewarm(g: nat, es: seq<Event>, s: Bridge, v: bool, vr: bool, r: bool)
    requires Reached(g, es, s) && s.start.Idle?
    ensures var t := StartEntry(s, v, vr, r);
      && t.process.None?
      && (if s.prewarm.Some? then t.start == AwaitPrewarm(s.prewarm.value) && t.prewarm.None? && t.procs == s.procs
          else SpawnsAnew(s, t, v && vr))
  {
    ReachedKeeps(g, es, s);
    assert StartLocals(CoreOf(s));
    EntryShape(s, v, vr, r);
    hide Reached, OwnInv, Rel, Told, StartEntry;
  }

  // ---------- a prewarm of the wrong kind ----------

  /** p was sent SIGKILL, and nothing that could lead to the process attribute refers to it. */
  predicate Rejected(s: Bridge, p: nat)
  {
    && p < |s.procs| && s.procs[p].status in {Doomed, Dead}
    && s.process != Some(p) && s.prewarm != Some(p) && s.start != AwaitPrewarm(p) && s.start != AwaitSpawn(p)
  }

  lemma RejectedOn(s: Bridge, t: Bridge, p: nat)
    requires Rejected(s, p) && Evolves(s, t)
    requires t.process != Some(p) && t.prewarm != Some(p) && t.start != AwaitPrewarm(p) && t.start != AwaitSpawn(p)
    ensures Rejected(t, p)
  {}

  lemma RejectedStays(s: Bridge, e: Event, p: nat)
    requires Rejected(s, p) && Step(s, e).Some?
    ensures Rejected(Step(s, e).value, p)
  {
    StepEvolves(s, e);
    hide Evolves;
    NotReferred(s, e, p);
    hide Step;
    RejectedOn(s, Step(s, e).value, p);
  }

  predicate Refers(t: Bridge, p: nat)
  {
    t.process == Some(p) || t.prewarm == Some(p) || t.start == AwaitPrewarm(p) || t.start == AwaitSpawn(p)
  }

  lemma NotReferred(s: Bridge, e: Event, p: nat)
    requires Rejected(s, p) && Step(s, e).Some?
    ensures !Refers(Step(s, e).value, p)
  {
    hide Evolves, Refers, Rejected, StartEntry, ResumeStart, CancelStart, FailWrap, BeginStop, ResumeStop, TimeoutStop,
      ResumeCleanup, BeginPrewarm, BeginCleanup, MakeConnection, WithStatus;
    match e {
      case StopBegin => TaskRefers(s, e, p);
      case StopResume(_) => TaskRefers(s, e, p);
      case StopTimeout(_) => TaskRefers(s, e, p);
      case CleanResume(_) => TaskRefers(s, e, p);
      case StartCall(_, _, _) => EntryRefers(s, e, p);
      case StartResume => ResumeRefers(s, p);
      case StartCancel => CancelRefers(s, p);
      case WrapFails => FailRefers(s, p);
      case _ => BesideRefers(s, e, p);
    }
  }

  lemma TaskRefers(s: Bridge, e: Event, p: nat)
    requires Rejected(s, p) && Step(s, e).Some? && (e.StopBegin? || e.StopResume? || e.StopTimeout? || e.CleanResume?)
    ensures !Refers(Step(s, e).value, p)
  {
    hide BeginStop, ResumeStop, TimeoutStop, ResumeCleanup, Evolves, SameTasks, MustWait, IsRunning, Alive, PreSweep, LetsGo;
    match e {
      case StopBegin => BeginStopShape(s);
      case StopResume(k) => ResumeStopMoves(s, k);
      case StopTimeout(k) => TimeoutMoves(s, k);
      case CleanResume(k) => ResumeCleanupMoves(s, k);
    }
  }

  lemma EntryRefers(s: Bridge, e: Event, p: nat)
    requires Rejected(s, p) && Step(s, e).Some? && e.StartCall?
    ensures !Refers(Step(s, e).value, p)
  {
    var t := StartEntry(s, e.videoSocket, e.videoRemote, e.rtcpSocket);
    EntryShape(s, e.videoSocket, e.videoRemote, e.rtcpSocket);
    hide StartEntry, IsRunning, Refers;
    EntryRefersOnly(s, t, p);
  }

  lemma EntryRefersOnly(s: Bridge, t: Bridge, p: nat)
    requires Rejected(s, p) && t.process == s.process
    requires (t.start == Finished(Url) && t.prewarm == s.prewarm) || Enters(s, t, t.videoEnabled)
    ensures !Refers(t, p)
  {}

  lemma ResumeRefers(s: Bridge, p: nat)
    requires Rejected(s, p) && ResumeStart(s).Some?
    ensures Step(s, StartResume) == ResumeStart(s) && !Refers(ResumeStart(s).value, p)
  {
    ResumeShape(s);
    hide ResumeStart, Evolves;
  }

  lemma CancelRefers(s: Bridge, p: nat)
    requires Rejected(s, p) && CancelStart(s).Some?
    ensures Step(s, StartCancel) == CancelStart(s) && !Refers(CancelStart(s).value, p)
  {
    CancelShape(s);
    hide CancelStart, Evolves;
  }

  lemma FailRefers(s: Bridge, p: nat)
    requires Rejected(s, p) && FailWrap(s).Some?
    ensures Step(s, WrapFails) == FailWrap(s) && !Refers(FailWrap(s).value, p)
  {
    FailShape(s);
    hide FailWrap, Evolves;
  }

  lemma BesideRefers(s: Bridge, e: Event, p: nat)
    requires Rejected(s, p) && Step(s, e).Some?
    requires Beside(e)
    ensures !Refers(Step(s, e).value, p)
  {
    BesideShape(s, e);
    hide Step;
  }

  lemma {:induction false} RejectedForGood(s: Bridge, es: seq<Event>, p: nat)
    requires Rejected(s, p) && Run(s, es).Some?
    ensures Rejected(Run(s, es).value, p)
    decreases |es|
  {
    hide Step, Rejected;
    if es != [] {
      RejectedStays(s, es[0], p);
      RejectedForGood(Step(s, es[0]).value, es[1..], p);
    }
  }

  /** MAIN RESULT: a live prewarm whose inputs are not those negotiated never becomes the process of
      the bridge, whatever happens after `start()` has looked at it, and never runs again. */
  lemma WrongKindIsNeverAdopted(g: nat, es: seq<Event>, s: Bridge, p: nat, more: seq<Event>)
    requires Reached(g, es, s) && s.start == AwaitPrewarm(p) && p < |s.procs|
    requires s.procs[p] == Proc(!WantsVideo(PastOf(g, es)), Running)
    requires Run(ResumeStart(s).value, more).Some?
    ensures var t := Run(ResumeStart(s).value, more).value;
      t.process != Some(p) && p < |t.procs| && t.procs[p].status in {Doomed, Dead}
  {
    PrewarmIsAdoptedExactly(g, es, s, p);
    ReachedKeeps(g, es, s);
    assert OwnerCount(CoreOf(s), p) <= 1;
    hide Reached, OwnInv, Rel, Told, PastOf, Run;
    RejectedForGood(ResumeStart(s).value, more, p);
  }
}
