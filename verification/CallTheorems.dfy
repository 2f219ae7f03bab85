/** What the invariant of orderly runs says about stream URLs, and about what the bridge finds when it
    is started. */
module CallTheorems {
  import opened Basics
  import opened CallFlow
  import opened CallFrames
  import opened CallRings
  import opened CallOrder

  // ---------- the published URL ----------

  /** A stop() of call x's own bridge, in its teardown or its abort, has closed everything and waits
      for ffmpeg to exit. */
  predicate ClosedOwn(w: World, x: nat)
  {
    || (x < |w.calls| && w.calls[x].grace == Tearing(OnExit, false))
    || exists k :: 0 <= k < |w.aborts| && w.aborts[k].AbortAwaitsStop? && w.aborts[k].call == x && w.aborts[k].at == OnExit
  }

  lemma UrlAt(w: World, s: Stage, x: nat)
    requires At(w, s) && w.url == Some(x)
    ensures w.sipId == Some(x) && x < |w.calls| && (w.up.Some? ==> w.up.value.call == x)
    ensures w.up.Some? || ClosedOwn(w, x)
    ensures w.active == Some(x) || (w.active.None? && w.calls[x].grace.Tearing?)
  {
    if s.Aborting? { assert w.aborts[s.k].call == x; }
  }

  lemma ActiveAt(w: World, s: Stage)
    requires At(w, s) && w.active.Some?
    ensures w.sipId == w.active
  {}

  /** MAIN RESULT: whenever a stream URL is published, the coordinator tracks the call it belongs
      to, and that call is the active one, or its teardown after the grace window is stopping the
      bridge at this moment. The pipeline behind the URL was started by that very call, and is up
      unless that call's own stop() has just closed it and waits for ffmpeg to exit. */
  lemma UrlBelongsToTheTrackedCall(es: seq<Event>, w: World, x: nat)
    requires OrderlyReached(es, w)
    ensures
      && (w.url == Some(x) ==>
            && w.sipId == Some(x) && x < |w.calls| && (w.up.Some? ==> w.up.value.call == x)
            && (w.up.Some? || ClosedOwn(w, x))
            && (w.active == Some(x) || (w.active.None? && w.calls[x].grace.Tearing?)))
      && (w.active.Some? ==> w.sipId == w.active)
  {
    var s := OrderlyRunsStay(es, w);
    hide OrderlyReached, At, ClosedOwn;
    if w.url == Some(x) { UrlAt(w, s, x); }
    if w.active.Some? { ActiveAt(w, s); }
  }

  /** The end of a new ring, a cancel or a grace teardown. */
  predicate Completes(w: World, e: Event) { PushDone(w, e).Some? || TeardownEnds(w, e) }

  lemma CompletesIdle(w: World, s: Stage, e: Event)
    requires At(w, s) && Orderly(w, e) && Completes(w, e) && !s.Dialing?
    ensures At(Next(w, e), Idle)
  {
    hide At, Next;
    match s {
      case Idle => IdleCompletes(w, e);
      case InCall(c) => InCallCompletes(w, c, e);
      case Aborting(c, k) => AbortingCompletes(w, c, k, e);
      case Ending(c) => EndingCompletes(w, c, e);
    }
  }

  lemma IdleCompletes(w: World, e: Event)
    requires At(w, Idle) && Completes(w, e)
    ensures At(Next(w, e), Idle)
  {
    IdleFacts(w);
    IdleTears(w);
    hide RingArrives, At;
    RingIdle(w, if e.Push? then NewRing(e.creds) else CancelRing);
  }

  lemma IdleTears(w: World)
    requires At(w, Idle)
    ensures forall b :: 0 <= b < |w.calls| ==> !w.calls[b].grace.Tearing?
  {}

  lemma InCallCompletes(w: World, c: nat, e: Event)
    requires At(w, InCall(c)) && Orderly(w, e) && Completes(w, e)
    ensures At(Next(w, e), Idle)
  {
    InCallFacts(w, c);
    NoneTears(w, c);
    hide At, Apart, AbortBegins, GraceWakes, ReturnsAtOnce, SpawnDone, AwaitsSpawn, NoAborts, Quiet;
    if e.GraceFires? {
      var s := GraceInCall(w, c, e.call, e.alive);
    } else if e.Push? || e.CancelPush? {
      var s := AbortBeginsInCall(w, c, if e.Push? then NewRing(e.creds) else CancelRing, e.alive);
    } else {
      NothingInCall(w, c, e);
    }
  }

  lemma NothingInCall(w: World, c: nat, e: Event)
    requires NoAborts(w) && Completes(w, e) && !e.GraceFires?
    requires c < |w.calls| && !w.calls[c].grace.Tearing?
    requires forall b :: 0 <= b < |w.calls| && b != c ==> !w.calls[b].grace.Tearing?
    ensures e.Push? || e.CancelPush?
  {}

  lemma NoneTears(w: World, c: nat)
    requires OthersQuiet(w.calls, c)
    ensures forall b :: 0 <= b < |w.calls| && b != c ==> !w.calls[b].grace.Tearing?
  {
    assert forall b :: 0 <= b < |w.calls| && b != c ==> Quiet(w.calls[b]);
  }

  lemma AbortingCompletes(w: World, c: nat, k: nat, e: Event)
    requires At(w, Aborting(c, k)) && Orderly(w, e) && Completes(w, e)
    ensures At(Next(w, e), Idle)
  {
    AbortingFacts(w, c, k);
    NoneTears(w, c);
    AbortOfTask(w, c, k);
    hide At, AbortEnds, AbortGoesOn, ReturnsAtOnce, Returns, SpawnDone, Apart;
    match e {
      case AbortResumes(j, alive) => var s := AbortGoesOnAt(w, c, k, j, alive);
      case AbortStopped(j, alive) => var s := AbortEndsAt(w, c, k, j, alive);
      case Push(_, _) => NoPush(w, e);
      case CancelPush(_) => NoPush(w, e);
      case _ =>
    }
  }

  lemma AbortOfTask(w: World, c: nat, k: nat)
    requires At(w, Aborting(c, k))
    ensures w.aborts[k].AbortAwaitsSpawn? ==> w.aborts[k].task == c
  {}

  lemma NoPush(w: World, e: Event)
    requires Orderly(w, e) && (AbortPending(w) || TeardownPending(w))
    ensures !e.Push? && !e.CancelPush?
  {
    hide AbortPending, TeardownPending, ConnectPending;
  }

  lemma EndingCompletes(w: World, c: nat, e: Event)
    requires At(w, Ending(c)) && Orderly(w, e) && Completes(w, e)
    ensures At(Next(w, e), Idle)
  {
    EndingFacts(w, c);
    NoneTears(w, c);
    hide At, GraceEnds, Returns, ReturnsAtOnce, Apart;
    match e {
      case GraceStopped(b, alive) => var s := GraceEndsAt(w, c, b, alive);
      case Push(_, _) => NoPush(w, e);
      case CancelPush(_) => NoPush(w, e);
      case _ =>
    }
  }

  lemma DialingFacts(w: World, k: nat)
    requires At(w, Dialing(k))
    ensures ConnectPending(w) && w.active.None? && NoAborts(w)
  {
    assert w.connects[k].Connecting?;
  }

  lemma DialingEnds(w: World, e: Event)
    requires ConnectPending(w) && Orderly(w, e)
    ensures !Completes(w, e)
  {
    hide ConnectPending;
  }

  /** What follows a push or a teardown that is done: no URL, no call, no bridge. */
  lemma CompletionsRest(es: seq<Event>, w: World, e: Event)
    requires OrderlyReached(es, w) && Orderly(w, e) && Completes(w, e)
    ensures At(Next(w, e), Idle)
  {
    var s := OrderlyRunsStay(es, w);
    hide OrderlyReached, At, Next;
    if s.Dialing? {
      DialingFacts(w, s.k);
      DialingEnds(w, e);
    } else {
      hide Orderly, Completes;
      CompletesIdle(w, s, e);
    }
  }

  // ---------- what start() finds ----------

  /** No stop() of the bridge is suspended. */
  predicate NothingStops(w: World)
  {
    && NoAborts(w) && (forall k :: 0 <= k < |w.stops| ==> w.stops[k] == StopOver)
    && forall b :: 0 <= b < |w.calls| ==> !w.calls[b].grace.Tearing? && !w.calls[b].spawn.Stale?
  }

  predicate NothingStarts(w: World) { forall b :: 0 <= b < |w.calls| ==> !w.calls[b].spawn.InStart? }

  lemma StoppedAt(w: World, s: Stage, c: nat)
    requires At(w, s) && c < |w.calls| && w.calls[c].spawn == Scheduled(false)
    ensures w.up.None? && NothingStops(w) && NothingStarts(w)
  {}

  /** What the bridge's own theorems ask of its owner holds: `start()` is only ever called when the
      bridge is stopped, no other `start()` and no `stop()` is in flight. */
  lemma StartFindsAStoppedBridge(es: seq<Event>, w: World, c: nat)
    requires OrderlyReached(es, w) && c < |w.calls| && w.calls[c].spawn == Scheduled(false)
    ensures w.up.None? && NothingStops(w) && NothingStarts(w)
  {
    var s := OrderlyRunsStay(es, w);
    hide OrderlyReached, At;
    StoppedAt(w, s, c);
  }

  lemma DialingStartsNothing(w: World, s: Stage)
    requires At(w, s) && ConnectPending(w)
    ensures w.up.None? && NothingStarts(w)
  {}

  /** A prewarm, which the manager requests when a connect completes, finds the bridge stopped and
      no `start()` in flight that it could meet. */
  lemma PrewarmFindsNoStart(es: seq<Event>, w: World, k: nat)
    requires OrderlyReached(es, w) && k < |w.connects| && w.connects[k].Connecting?
    ensures w.up.None? && NothingStarts(w)
  {
    var s := OrderlyRunsStay(es, w);
    assert ConnectPending(w);
    hide OrderlyReached, At;
    DialingStartsNothing(w, s);
  }
}
