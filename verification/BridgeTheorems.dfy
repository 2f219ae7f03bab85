/** What holds of the bridge over every interleaving, and the interleavings its promises exclude. */
module BridgeTheorems {
  import opened Basics
  import opened BridgeState
  import opened BridgeOwnership
  import opened BridgeOwnershipRuns
  import opened BridgeRelease
  import opened BridgeHistory

  lemma {:induction false} RunKeeps(s: Bridge, es: seq<Event>, h: Past)
    requires OwnInv(s) && Rel(s) && Told(s, h) && PoliteRun(s, es) && Run(s, es).Some?
    ensures OwnInv(Run(s, es).value) && Rel(Run(s, es).value) && Told(Run(s, es).value, History(s, es, h))
    decreases |es|
  {
    hide OwnInv, Rel, Told, Recall, Step, Polite;
    if es != [] {
      OwnStep(s, es[0]);
      RelStep(s, es[0]);
      ToldStep(s, es[0], h);
      RunKeeps(Step(s, es[0]).value, es[1..], Recall(s, es[0], h));
    }
  }

  ghost predicate Reached(g: nat, es: seq<Event>, s: Bridge)
  {
    PoliteRun(Fresh(g), es) && Run(Fresh(g), es) == Some(s)
  }

  /** What happened to `start()` along the run. */
  function PastOf(g: nat, es: seq<Event>): Past { History(Fresh(g), es, NOTHING) }

  lemma ReachedKeeps(g: nat, es: seq<Event>, s: Bridge)
    requires Reached(g, es, s)
    ensures OwnInv(s) && Rel(s) && Told(s, PastOf(g, es))
  {
    FreshKeeps(g);
    hide OwnInv, Rel, Told;
    RunKeeps(Fresh(g), es, NOTHING);
  }

  lemma FreshKeeps(g: nat)
    ensures OwnInv(Fresh(g)) && Rel(Fresh(g)) && Told(Fresh(g), NOTHING)
  {}

  /** `start()`, every `stop()` and every cleanup task have finished. */
  predicate Quiet(s: Bridge)
  {
    s.start.Finished? && forall k :: 0 <= k < |s.tasks| ==> s.tasks[k].StopDone? || s.tasks[k].CleanDone?
  }

  lemma {:induction false} QuietTasksOwnNothing(tasks: seq<TaskPc>, p: nat)
    requires forall k :: 0 <= k < |tasks| ==> tasks[k].StopDone? || tasks[k].CleanDone?
    ensures TaskOwners(tasks, p) == 0
  {
    if tasks != [] { QuietTasksOwnNothing(tasks[..|tasks| - 1], p); }
  }

  lemma QuietOwner(s: Bridge, p: nat)
    requires OwnInv(s) && Quiet(s) && Live(CoreOf(s), p)
    ensures s.process == Some(p) || s.prewarm == Some(p)
  {
    QuietTasksOwnNothing(s.tasks, p);
    assert OwnerCount(CoreOf(s), p) == 1;
  }

  lemma OnlyParkedLives(g: nat, es: seq<Event>, s: Bridge)
    requires Reached(g, es, s) && Quiet(s) && s.process.None?
    ensures forall p: nat :: Live(CoreOf(s), p) ==> s.prewarm == Some(p)
  {
    ReachedKeeps(g, es, s);
    forall p: nat | Live(CoreOf(s), p) ensures s.prewarm == Some(p) { QuietOwner(s, p); }
  }

  /** The ffmpeg spawn that `start()` waited for failed, and it was not cancelled. */
  predicate SpawnRaised(h: Past) { h.spawnFailed && h.cancels == 0 }

  /** The sockets for video have no peer, and the first stop() came in the push wait. */
  predicate LeftOpen(h: Past)
    requires h.handed.Some?
  {
    !(h.handed.value.video && h.handed.value.peer) && h.firstStop == Some(true) && h.cancels == 0
  }

  /** An endpoint of the socket that was handed in, if any: never wrapped and open, or released. */
  predicate Ends(m: Media, handed: bool, open: bool)
  {
    if handed && open then m == RawMedia else Released(m) && (m.sock == Closed <==> handed)
  }

  /** MAIN RESULT: `start()` raised, and everything has finished. If the ffmpeg spawn itself failed
      and nothing cancelled `start()`, every socket it was handed is still open. Otherwise the audio
      socket is closed, no attribute refers to an endpoint or a process, no PLI or stats task runs,
      and a video or RTCP socket is open exactly if it came without a video peer and the first
      stop() came in the push wait. The push event is kept exactly if `start()` was cancelled twice
      and never stopped. The only ffmpeg that can still live is one parked for a later call. */
  lemma RaisedMeansReleased(g: nat, es: seq<Event>, s: Bridge, o: Outcome)
    requires Reached(g, es, s) && Quiet(s) && s.start == Finished(o) && o != Url
    ensures PastOf(g, es).handed.Some? && s.process.None?
    ensures var h := PastOf(g, es); var open := SpawnRaised(h) || LeftOpen(h);
      && (o == SpawnFailed <==> SpawnRaised(h))
      && Ends(s.audio, true, SpawnRaised(h)) && Ends(s.video, h.handed.value.video, open)
      && Ends(s.rtcp, h.handed.value.rtcp, open)
      && NoTasks(s) && (!SpawnRaised(h) ==> (s.pushEvent.Some? <==> h.cancels == 2 && h.firstStop.None?))
    ensures forall p: nat :: Live(CoreOf(s), p) ==> s.prewarm == Some(p)
  {
    ReachedKeeps(g, es, s);
    assert s.process.None? by { assert StartLocals(CoreOf(s)); }
    OnlyParkedLives(g, es, s);
    hide OwnInv, PastOf, Reached, Quiet, Live;
    RaisedTold(s, PastOf(g, es), o);
  }

  lemma RaisedTold(s: Bridge, h: Past, o: Outcome)
    requires Rel(s) && Told(s, h) && s.start == Finished(o) && o != Url && !Sweeping(s)
    ensures h.handed.Some?
    ensures var open := SpawnRaised(h) || LeftOpen(h);
      && (o == SpawnFailed <==> SpawnRaised(h))
      && Ends(s.audio, true, SpawnRaised(h)) && Ends(s.video, h.handed.value.video, open)
      && Ends(s.rtcp, h.handed.value.rtcp, open)
      && NoTasks(s) && (!SpawnRaised(h) ==> (s.pushEvent.Some? <==> h.cancels == 2 && h.firstStop.None?))
  {
  }

  /** MAIN RESULT: `start()` returned the URL and nobody has called `stop()` since. The pipeline is
      up, and everything live in it is held in an attribute. */
  lemma UrlMeansHeld(g: nat, es: seq<Event>, s: Bridge)
    requires Reached(g, es, s) && s.start == Finished(Url) && s.generation == s.snapshot
    ensures s.process.Some? && s.audio.sock == Wrapped && s.audio.transport
    ensures s.videoEnabled ==> s.video.sock == Wrapped && s.video.transport && Kept(s.rtcp)
    ensures (s.pliLive ==> s.pli) && (s.statsLive ==> s.stats)
  {
    ReachedKeeps(g, es, s);
  }

  /** MAIN RESULT: after the URL, any number of calls of `stop()` (one is enough) release it all,
      but for video and RTCP sockets that came without a video peer. */
  lemma UrlThenStopReleases(g: nat, es: seq<Event>, s: Bridge)
    requires Reached(g, es, s) && Quiet(s) && s.start == Finished(Url) && s.generation > s.snapshot
    ensures PastOf(g, es).handed.Some?
    ensures s.audio.sock == Closed && Released(s.audio) && s.process.None? && NoTasks(s) && s.pushEvent.None?
    ensures var h := PastOf(g, es).handed.value;
      Ends(s.video, h.video, !(h.video && h.peer)) && Ends(s.rtcp, h.rtcp, !(h.video && h.peer))
    ensures forall p: nat :: Live(CoreOf(s), p) ==> s.prewarm == Some(p)
  {
    ReachedKeeps(g, es, s);
    OnlyParkedLives(g, es, s);
  }

  /** A raw socket is never closed under an endpoint that still uses it. */
  lemma NoSocketIsYanked(g: nat, es: seq<Event>, s: Bridge)
    requires Reached(g, es, s)
    ensures !s.yanked
  {
    ReachedKeeps(g, es, s);
  }

  // ---------- cancelling start() while it waits on a prewarm ----------

  predicate Orphan(c: Core, q: nat) { Live(c, q) && OwnerCount(c, q) == 0 }

  /** MAIN RESULT: a cancellation of `start()` leaves a live ffmpeg without an owner exactly when
      `start()` waits on a prewarm while a newer one, still live, is parked: the older one is put
      back over it. */
  lemma CancelOrphansTheNewerPrewarm(g: nat, es: seq<Event>, s: Bridge)
    requires Reached(g, es, s) && CancelStart(s).Some?
    ensures (exists q :: Orphan(CoreOf(CancelStart(s).value), q))
       <==> s.start.AwaitPrewarm? && s.prewarm.Some? && Live(CoreOf(s), s.prewarm.value)
  {
    ReachedKeeps(g, es, s);
    hide Rel, Told, Reached, CancelStart;
    if s.start.AwaitPrewarm? && s.prewarm.Some? {
      var c := CoreOf(CancelStart(s).value);
      CancelReattaches(s);
      forall q: nat ensures Orphan(c, q) <==> q == s.prewarm.value && Live(CoreOf(s), q) {
        Reattached(CoreOf(s), q);
      }
      assert Live(CoreOf(s), s.prewarm.value) ==> Orphan(c, s.prewarm.value);
    } else {
      OwnCancel(s);
      assert forall q: nat :: !Orphan(CoreOf(CancelStart(s).value), q);
    }
  }

  function Overwritten(c: Core): Core
    requires c.start.AwaitPrewarm?
  {
    c.(prewarm := Some(c.start.p), start := Finished(Cancelled))
  }

  lemma CancelReattaches(s: Bridge)
    requires OwnInv(s) && s.start.AwaitPrewarm?
    ensures CancelStart(s).Some? && CoreOf(CancelStart(s).value) == Overwritten(CoreOf(s))
  {
    assert StartLocals(CoreOf(s));
    hide OwnInv, SweepMedia;
  }

  lemma Reattached(c: Core, q: nat)
    requires CoreInv(c) && c.start.AwaitPrewarm? && c.prewarm.Some?
    ensures Orphan(Overwritten(c), q) <==> q == c.prewarm.value && Live(c, q)
  {
    assert OwnerCount(c, q) <= 1 && (Live(c, q) ==> OwnerCount(c, q) == 1);
  }

  /** So every prewarm() that is accepted while `start()` waits on an earlier one is lost if
      `start()` is cancelled there. */
  lemma PrewarmDuringConsumeIsLost(g: nat, es: seq<Event>, s: Bridge, video: bool)
    requires Reached(g, es, s) && s.start.AwaitPrewarm?
    ensures BeginPrewarm(s, video) != s <==> s.prewarm.None?
    ensures var t := CancelStart(BeginPrewarm(s, video));
      t.Some? && (Orphan(CoreOf(t.value), |s.procs|) <==> BeginPrewarm(s, video) != s)
  {
    ReachedKeeps(g, es, s);
    assert StartLocals(CoreOf(s));
    var u := BeginPrewarm(s, video);
    OwnPrewarm(s, video);
    hide OwnInv, Rel, Told, Reached, CancelStart;
    CancelReattaches(u);
    if s.prewarm.None? { Reattached(CoreOf(u), |s.procs|); }
  }

  // ---------- the generation counter counts the calls of stop() ----------

  function StopsIn(es: seq<Event>): nat
    decreases |es|
  {
    if es == [] then 0 else (if es[0].StopBegin? then 1 else 0) + StopsIn(es[1..])
  }

  lemma StepSameCall(s: Bridge, e: Event)
    requires Step(s, e).Some? && !s.start.Idle?
    ensures SameCall(s, Step(s, e).value, if e.StopBegin? then 1 else 0)
  {
    hide ResumeStart, CancelStart, FailWrap, BeginStop, ResumeStop, StartEntry, TimeoutStop,
      BeginPrewarm, BeginCleanup, ResumeCleanup, MakeConnection;
  }

  lemma {:induction false} GenerationCountsStops(s: Bridge, es: seq<Event>)
    requires Run(s, es).Some? && !s.start.Idle?
    ensures SameCall(s, Run(s, es).value, StopsIn(es))
    decreases |es|
  {
    if es != [] {
      StepSameCall(s, es[0]);
      hide Step;
      GenerationCountsStops(Step(s, es[0]).value, es[1..]);
    }
  }

  /** MAIN RESULT: a step makes `start()` return the URL only if no `stop()` began since its entry. */
  lemma UrlMeansNoStopBegan(s: Bridge, v: bool, vr: bool, r: bool, es: seq<Event>, t: Bridge)
    requires OwnInv(s) && s.start.Idle? && PoliteRun(StartEntry(s, v, vr, r), es)
    requires Run(StartEntry(s, v, vr, r), es) == Some(t)
    requires ResumeStart(t).Some? && ResumeStart(t).value.start == Finished(Url)
    ensures StopsIn(es) == 0
  {
    var u := StartEntry(s, v, vr, r);
    EntrySnapshot(s, v, vr, r);
    OwnStartEntry(s, v, vr, r);
    OwnRun(u, es);
    UrlOnlyAtSnapshot(t);
    hide OwnInv, StartEntry, ResumeStart;
    GenerationCountsStops(u, es);
  }

  lemma EntrySnapshot(s: Bridge, v: bool, vr: bool, r: bool)
    requires OwnInv(s) && s.start.Idle?
    ensures SameCall(StartEntry(s, v, vr, r), StartEntry(s, v, vr, r), 0)
    ensures StartEntry(s, v, vr, r).generation == StartEntry(s, v, vr, r).snapshot
  {
    assert StartLocals(CoreOf(s));
  }

  lemma UrlOnlyAtSnapshot(t: Bridge)
    requires OwnInv(t) && ResumeStart(t).Some? && ResumeStart(t).value.start == Finished(Url)
    ensures t.generation == t.snapshot
  {
    assert StartLocals(CoreOf(t));
    if t.start.AwaitPush? {
      hide OwnInv;
    } else {
      NotAtPush(t);
    }
  }

  lemma NotAtPush(t: Bridge)
    requires StartLocals(CoreOf(t)) && ResumeStart(t).Some? && !t.start.AwaitPush?
    ensures ResumeStart(t).value.start != Finished(Url)
  {
    hide OnDemand, AfterSpawn, AfterAudio, AfterVideo, VideoCheckpoint, Consumed;
  }
}
