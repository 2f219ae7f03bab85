/** Runs that show where the bridge's promises stop, one for each hypothesis or exception. */
module BridgeLimits {
  import opened Basics
  import opened BridgeState
  import opened BridgeOwnership
  import opened BridgeTheorems

  ghost predicate Reachable(g: nat, s: Bridge) { exists es :: Reached(g, es, s) }

  lemma {:induction false} RunAppend(s: Bridge, es: seq<Event>, e: Event)
    requires Run(s, es).Some?
    ensures Run(s, es + [e]) == Step(Run(s, es).value, e)
    ensures PoliteRun(s, es) && Polite(Run(s, es).value, e) ==> PoliteRun(s, es + [e])
    decreases |es|
  {
    hide Step, Polite;
    if es != [] {
      assert (es + [e])[1..] == es[1..] + [e];
      RunAppend(Step(s, es[0]).value, es[1..], e);
    }
  }

  lemma Next(g: nat, s: Bridge, e: Event, t: Bridge)
    requires Reachable(g, s) && Polite(s, e) && Step(s, e) == Some(t)
    ensures Reachable(g, t)
  {
    hide Step, Polite;
    var es :| Reached(g, es, s);
    RunAppend(Fresh(g), es, e);
    assert Reached(g, es + [e], t);
  }

  lemma First(g: nat)
    ensures Reachable(g, Fresh(g))
  {
    assert Reached(g, [], Fresh(g));
  }

  /** A reachable state in which start(), asked for audio and its own choice of video, has spawned
      its ffmpeg on demand and is wrapping the audio socket. */
  function Wrapping(g: nat, v: bool, vr: bool, r: bool): Bridge
  {
    Fresh(g).(snapshot := g, videoEnabled := v && vr, procs := [Proc(v && vr, Running)],
              process := Some(0), pushEvent := Some(0),
              audio := Media(Wrapped, false, false, true, false),
              video := if v then RawMedia else NoMedia,
              rtcp := if r then RawMedia else NoMedia,
              start := AwaitAudio)
  }

  lemma WrappingIsReachable(g: nat, v: bool, vr: bool, r: bool)
    ensures Reachable(g, Wrapping(g, v, vr, r))
  {
    First(g);
    var s1 := StartEntry(Fresh(g), v, vr, r);
    var s2 := WithStatus(s1, 0, Running);
    Next(g, Fresh(g), StartCall(v, vr, r), s1);
    Next(g, s1, SpawnUp(0), s2);
    assert s2.procs == [Proc(v && vr, Running)];
    assert AfterSpawn(s2.(process := Some(0))) == Wrapping(g, v, vr, r);
    Next(g, s2, StartResume, Wrapping(g, v, vr, r));
  }

  /** A failing ffmpeg spawn leaves the sockets it was handed open. */
  lemma SpawnFailureKeepsSockets(g: nat)
    ensures exists s :: Reachable(g, s) && Quiet(s) && s.audio.sock == Raw && s.video.sock == Raw
  {
    First(g);
    var s1 := StartEntry(Fresh(g), true, true, true);
    var s2 := WithStatus(s1, 0, Failed);
    var s3 := s2.(start := Finished(SpawnFailed));
    Next(g, Fresh(g), StartCall(true, true, true), s1);
    Next(g, s1, SpawnFails(0), s2);
    Next(g, s2, StartResume, s3);
    assert Reachable(g, s3) && Quiet(s3);
  }

  /** A second cancellation, inside the handler of the first, leaves the push event referenced. */
  lemma CancelledTwiceKeepsEvent(g: nat)
    ensures exists s :: Reachable(g, s) && Quiet(s) && s.start == Finished(CancelledTwice) && s.pushEvent.Some?
  {
    WrappingIsReachable(g, true, true, true);
    var s1 := CancelHandler(Interrupted(Wrapping(g, true, true, true)));
    var s2 := s1.(start := Finished(CancelledTwice));
    Next(g, Wrapping(g, true, true, true), StartCancel, s1);
    Next(g, s1, StartCancel, s2);
    assert Reachable(g, s2) && Quiet(s2);
  }

  /** Video sockets handed in with no video peer stay open when stop() lands in the push wait. */
  lemma UnusedVideoSocketsStayOpen(g: nat)
    ensures exists s :: Reachable(g, s) && Quiet(s) && s.start == Finished(Stopped) && s.video.sock == Raw
  {
    var s0 := Wrapping(g, true, false, true);
    WrappingIsReachable(g, true, false, true);
    var s1 := s0.(audio := Connected(s0.audio));
    var s2 := s1.(audio := s1.audio.(transport := true), start := AwaitPush);
    Next(g, s0, ConnectionMade(Audio), s1);
    Next(g, s1, StartResume, s2);
    StopInPushWait(g, s2);
  }

  lemma StopInPushWait(g: nat, s: Bridge)
    requires Reachable(g, s) && s.start.AwaitPush? && s.process == Some(0) && s.procs == [Proc(false, Running)]
    requires s.tasks == [] && s.prewarm.None? && s.cleanup.None? && s.video == RawMedia && s.generation == s.snapshot
    ensures exists t :: Reachable(g, t) && Quiet(t) && t.start == Finished(Stopped) && t.video.sock == Raw
  {
    var s1 := WithStatus(s, 0, Dead);
    Next(g, s, Exits(0), s1);
    hide WithStatus, Step, Quiet, Reachable;
    StopAfterExit(g, s1);
  }

  lemma StopAfterExit(g: nat, s: Bridge)
    requires Reachable(g, s) && s.start.AwaitPush? && s.process == Some(0) && s.procs == [Proc(false, Dead)]
    requires s.tasks == [] && s.prewarm.None? && s.cleanup.None? && s.video == RawMedia && s.generation == s.snapshot
    ensures exists t :: Reachable(g, t) && Quiet(t) && t.start == Finished(Stopped) && t.video.sock == Raw
  {
    var s1 := BeginStop(s);
    Next(g, s, StopBegin, s1);
    assert s1.video == RawMedia && s1.start.AwaitPush? && s1.tasks == [StopDone] && s1.process.None?;
    hide BeginStop, Reachable;
    Unwinds(g, s1);
  }

  lemma Unwinds(g: nat, s: Bridge)
    requires Reachable(g, s) && s.start.AwaitPush? && s.generation != s.snapshot && s.process.None?
    requires s.video == RawMedia && s.tasks == [StopDone]
    ensures exists t :: Reachable(g, t) && Quiet(t) && t.start == Finished(Stopped) && t.video.sock == Raw
  {
    var t := Unwind(s, false, false, false, Stopped);
    Next(g, s, StartResume, t);
    assert Reachable(g, t) && Quiet(t);
  }

  /** prewarm() while start() is suspended on an earlier prewarm is accepted, and cancelling start()
      then re-attaches the earlier task over the new one, whose ffmpeg is left without an owner. */
  lemma PrewarmIsLost(g: nat)
    ensures exists s :: Reachable(g, s) && CancelStart(s).Some? && Orphan(CoreOf(CancelStart(s).value), 1)
  {
    First(g);
    var s1 := BeginPrewarm(Fresh(g), true);
    var s2 := StartEntry(s1, true, true, true);
    var s3 := BeginPrewarm(s2, true);
    Next(g, Fresh(g), Prewarm(true), s1);
    Next(g, s1, StartCall(true, true, true), s2);
    assert s2.procs == [Proc(true, Spawning)] && s2.start == AwaitPrewarm(0) && s2.prewarm.None?;
    assert s2.tasks == [] && s2.process.None?;
    Next(g, s2, Prewarm(true), s3);
    LostByReattach(s2);
  }

  lemma LostByReattach(s: Bridge)
    requires s.procs == [Proc(true, Spawning)] && s.start == AwaitPrewarm(0) && s.prewarm.None?
    requires s.tasks == [] && s.process.None?
    ensures var t := CancelStart(BeginPrewarm(s, true)); t.Some? && Orphan(CoreOf(t.value), 1)
  {
    var c := CoreOf(CancelStart(BeginPrewarm(s, true)).value);
    assert c == Core([Proc(true, Spawning), Proc(true, Spawning)], Some(0), None, Finished(Cancelled), []);
    assert TaskOwners([], 1) == 0;
  }
}
