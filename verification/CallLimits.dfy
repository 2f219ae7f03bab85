/** Runs of the call manager that show where its promises stop, one for each hypothesis or exception. */
module CallLimits {
  import opened Basics
  import opened CallFlow
  import opened CallFrames
  import opened CallOrder
  import opened CallTheorems
  import CallAttendance
  import CallLeaks
  import CallRings

  // ---------- runs, event by event ----------

  /** Which hypotheses on overlap the events keep to. */
  datatype Care = Careless | KeptApart | Strict

  predicate Allowed(care: Care, w: World, e: Event) { (care.Careless? || Apart(w, e)) && (care.Strict? ==> InTime(w, e)) }

  ghost predicate Goes(care: Care, ws: seq<World>, es: seq<Event>)
  {
    Run(ws, es) && forall i {:trigger es[i]} :: 0 <= i < |es| ==> Allowed(care, ws[i], es[i])
  }

  ghost predicate Leads(care: Care, es: seq<Event>, w: World) { exists ws :: Goes(care, ws, es) && ws[|es|] == w }

  ghost predicate Reachable(care: Care, w: World) { exists es :: Leads(care, es, w) }

  lemma Onward(care: Care, w: World, e: Event, v: World)
    requires Reachable(care, w) && Allowed(care, w, e) && Next(w, e) == v
    ensures Reachable(care, v)
  {
    hide Next, Allowed;
    var es :| Leads(care, es, w);
    var ws :| Goes(care, ws, es) && ws[|es|] == w;
    var more := es + [e];
    forall i | 0 <= i < |more|
      ensures (ws + [v])[i + 1] == Next((ws + [v])[i], more[i]) && Allowed(care, (ws + [v])[i], more[i])
    {
      if i < |es| { assert more[i] == es[i]; }
    }
    assert Run(ws + [v], more);
    assert Goes(care, ws + [v], more) && (ws + [v])[|more|] == v;
    assert Leads(care, more, v);
  }

  lemma Onset(care: Care)
    ensures Reachable(care, START)
  {
    assert Run([START], []);
    assert Goes(care, [START], []);
    assert Leads(care, [], START);
  }

  const NONE := Ffmpeg(false, false)
  const RUNS := Ffmpeg(false, true)

  /** Calls as they come up in the runs. */
  const PLACED := Call(true, false, NoSpawn, NoGrace, true)

  // ---------- one call, from the ring to the stream ----------

  const RUNG := START.(data := true, invites := [Invite(false, false)], invite := Some(0))

  const TAPPED := RUNG.(invites := [Invite(true, false)], pendAudio := Some(0), open := {0}, created := 3,
                        connects := [Connecting(0, false)])

  const CALLING := TAPPED.(connects := [ConnectOver], calls := [PLACED], sip := Some(0), active := Some(0),
                           maxTask := Some(0), sipId := Some(0), invites := [Invite(true, true)],
                           deeds := [Deed.Placed(0), Answered(0)])

  const TALKING := CALLING.(calls := [Call(true, true, Scheduled(false), NoGrace, true)], spawnTask := Some(0))

  const STARTING := TALKING.(calls := [Call(true, true, InStart({0}, 0, false, false), NoGrace, true)], pendAudio := None)

  const STREAMING := STARTING.(calls := [Call(true, true, Gone, NoGrace, true)], up := Some(Up(0, {0})), url := Some(0),
                               notes := [Active(0)])

  lemma Placing()
    ensures Next(START, Push(true, NONE)) == RUNG && Next(RUNG, Tap(false)) == TAPPED
    ensures Next(TAPPED, ConnectDone(0, Connected, NONE)) == CALLING
  {}

  lemma Talks()
    ensures Next(CALLING, Established(0)) == TALKING
  {
    assert TALKING.calls == CALLING.calls[0 := Call(true, true, Scheduled(false), NoGrace, true)];
  }

  lemma Starts()
    ensures Next(TALKING, SpawnRuns(0, false, NONE)) == STARTING
  {
    assert PendingSocks(TALKING) == {0} && {0} + {} == {0} && TALKING.open - ({0} - {0}) == {0};
    assert STARTING.calls == TALKING.calls[0 := Call(true, true, InStart({0}, 0, false, false), NoGrace, true)];
  }

  lemma Streams()
    ensures Next(STARTING, SpawnResumes(0, Passes, {}, NONE)) == STREAMING
  {
    assert {0} + ({} - {}) == {0};
    assert STREAMING.calls == STARTING.calls[0 := Call(true, true, Gone, NoGrace, true)];
  }

  lemma CallingIsReachable(care: Care)
    ensures Reachable(care, CALLING)
  {
    Onset(care);
    Placing();
    hide Next, Reachable;
    Onward(care, START, Push(true, NONE), RUNG);
    Onward(care, RUNG, Tap(false), TAPPED);
    Onward(care, TAPPED, ConnectDone(0, Connected, NONE), CALLING);
  }

  lemma StartingIsReachable(care: Care)
    ensures Reachable(care, STARTING)
  {
    CallingIsReachable(care);
    Talks();
    Starts();
    hide Next, Reachable;
    Onward(care, CALLING, Established(0), TALKING);
    Onward(care, TALKING, SpawnRuns(0, false, NONE), STARTING);
  }

  lemma StreamingIsReachable(care: Care)
    ensures Reachable(care, STREAMING)
  {
    StartingIsReachable(care);
    Streams();
    hide Next, Reachable;
    Onward(care, STARTING, SpawnResumes(0, Passes, {}, NONE), STREAMING);
  }

  lemma SpawnFailure()
    ensures CallLeaks.Leaked(Next(STARTING, SpawnResumes(0, SpawnFails, {}, NONE)), 0)
  {
    var e := SpawnResumes(0, SpawnFails, {}, NONE);
    CallLeaks.NextKeeps(STARTING, e, 0);
    assert CallLeaks.Hands(STARTING.calls, 0) == 1;
    assert 0 in CallLeaks.NewLeaks(STARTING, e);
    hide Next;
  }

  /** A failed ffmpeg spawn leaves a socket open that nothing refers to, even when every hypothesis is
      kept. */
  lemma FailedSpawnLeaks()
    ensures exists w :: Reachable(Strict, w) && CallLeaks.Leaked(w, 0)
  {
    StartingIsReachable(Strict);
    SpawnFailure();
    var w := Next(STARTING, SpawnResumes(0, SpawnFails, {}, NONE));
    hide Next, Reachable;
    Onward(Strict, STARTING, SpawnResumes(0, SpawnFails, {}, NONE), w);
  }

  // ---------- a teardown ----------

  const ENDED := STREAMING.(calls := [Call(false, true, Gone, Sleeping, false)], sip := None, maxTask := None, graceTask := Some(0))

  /** The bridge is closed, and `stop()` waits for ffmpeg. */
  const TEARING := ENDED.(calls := [Call(false, true, Gone, Tearing(OnExit, false), false)], active := None, generation := 1,
                          up := None, open := {}, notes := [Active(0), Cleared(0)])

  /** The dialog of the streaming call is down, and its max-duration timer then cancelled. */
  const DROPPED := STREAMING.(calls := [Call(false, true, Gone, NoGrace, true)])

  const UNTIMED := DROPPED.(calls := [Call(false, true, Gone, NoGrace, false)], maxTask := None)

  lemma TimerDropped()
    ensures CancelMax(DROPPED) == UNTIMED && CancelPrewarm(UNTIMED) == UNTIMED && ClosePending(UNTIMED) == UNTIMED
    ensures CancelGrace(UNTIMED.(sip := None)) == UNTIMED.(sip := None)
  {
    assert PendingSocks(UNTIMED) == {} && UNTIMED.open - {} == UNTIMED.open;
  }

  lemma CallEnds()
    ensures Next(STREAMING, SipEnds(0)) == ENDED
  {
    TimerDropped();
    hide CancelMax, ClosePending, CancelGrace, CancelPrewarm;
    assert HandleTerminated(DROPPED, 0) == ENDED;
    assert STREAMING.calls[0 := Call(false, true, Gone, NoGrace, true)] == DROPPED.calls;
    assert WithCall(STREAMING, 0, STREAMING.calls[0].(live := false)) == DROPPED;
    hide HandleTerminated;
  }

  lemma GraceIsOver()
    ensures Next(ENDED, GraceFires(0, RUNS)) == TEARING
  {
    assert UpSocks(ENDED) == {0} && {0} - {0} == {};
  }

  lemma TearingIsReachable(care: Care)
    ensures Reachable(care, TEARING)
  {
    StreamingIsReachable(care);
    CallEnds();
    GraceIsOver();
    hide Next, Reachable;
    Onward(care, STREAMING, SipEnds(0), ENDED);
    Onward(care, ENDED, GraceFires(0, RUNS), TEARING);
  }

  /** The invite parked by a ring is gone after the end of the teardown of call 0. */
  predicate Forgets(w: World)
  {
    Next(w, Push(true, NONE)).invite.Some? && Next(Next(w, Push(true, NONE)), GraceStopped(0, NONE)).invite.None?
  }

  /** After a plain call, a ring during the teardown is forgotten. */
  lemma RingIsForgotten()
    ensures exists w :: Reachable(Strict, w) && Forgets(w)
  {
    TearingIsReachable(Strict);
    CallRings.RingDuringTeardownIsForgotten(TEARING, 0, NONE, NONE);
    hide Next, Reachable;
    assert Forgets(TEARING);
  }

  // ---------- a teardown that is cut while it waits for ffmpeg ----------

  const RUNGAGAIN := TEARING.(url := None, invites := [Invite(true, true), Invite(false, false)], invite := Some(1))

  const DIALING := RUNGAGAIN.(invites := [Invite(true, true), Invite(true, false)], pendAudio := Some(3), open := {3},
                              created := 6, connects := [ConnectOver, Connecting(1, false)])

  const NEXTCALL := DIALING.(
    connects := [ConnectOver, ConnectOver], sip := Some(1), active := Some(1), maxTask := Some(1), sipId := Some(1),
    calls := [Call(false, true, Gone, Tearing(OnExit, false), false), PLACED],
    invites := [Invite(true, true), Invite(true, true)],
    deeds := [Deed.Placed(0), Answered(0), Deed.Placed(1), Answered(1)])

  /** The next call ends: the teardown of the first is told to stop. */
  const CUT := NEXTCALL.(
    sip := None, maxTask := None, graceTask := Some(1), pendAudio := None, open := {},
    calls := [Call(false, true, Gone, Tearing(OnExit, true), false), Call(false, false, NoSpawn, Sleeping, false)])

  const LOST := CUT.(calls := [Call(false, true, Gone, Over, false), Call(false, false, NoSpawn, Sleeping, false)])

  lemma NextCall()
    ensures Next(TEARING, Push(true, NONE)) == RUNGAGAIN && Next(RUNGAGAIN, Tap(false)) == DIALING
    ensures Next(DIALING, ConnectDone(1, Connected, NONE)) == NEXTCALL
  {}

  const HUNGUP := NEXTCALL.(calls := [Call(false, true, Gone, Tearing(OnExit, false), false), Call(false, false, NoSpawn, NoGrace, true)])

  const HUNGUPUNTIMED := HUNGUP.(
    maxTask := None, calls := [Call(false, true, Gone, Tearing(OnExit, false), false), Call(false, false, NoSpawn, NoGrace, false)])

  lemma NextTimerDropped()
    ensures CancelMax(HUNGUP) == HUNGUPUNTIMED && CancelPrewarm(HUNGUPUNTIMED) == HUNGUPUNTIMED
    ensures ClosePending(HUNGUPUNTIMED) == HUNGUPUNTIMED.(pendAudio := None, open := {})
  {
    assert PendingSocks(HUNGUPUNTIMED) == {3} && {3} - {3} == {};
  }

  lemma NextEnds()
    ensures Next(NEXTCALL, SipEnds(1)) == CUT
  {
    NextTimerDropped();
    hide CancelMax, ClosePending, CancelPrewarm;
    assert HandleTerminated(HUNGUP, 1) == CUT;
    assert WithCall(NEXTCALL, 1, NEXTCALL.calls[1].(live := false)) == HUNGUP;
    hide HandleTerminated;
  }

  lemma CutIsLost()
    ensures Next(CUT, GraceStopped(0, NONE)) == LOST
  {}

  /** Call 0 is over, and its end has never been reported. */
  predicate NeverEnded(w: World)
  {
    |w.calls| > 0 && w.calls[0].grace == Over && Cleared(0) in w.notes && Ended(0) !in w.notes
  }

  /** The end of the next call cuts a teardown that waits for ffmpeg: the bridge is closed already, but
      `on_call_ended` is never called for the first call. */
  lemma EndedIsLost()
    ensures exists w :: Reachable(Careless, w) && NeverEnded(w)
  {
    TearingIsReachable(Careless);
    NextCall();
    NextEnds();
    CutIsLost();
    hide Next, Reachable;
    Onward(Careless, TEARING, Push(true, NONE), RUNGAGAIN);
    Onward(Careless, RUNGAGAIN, Tap(false), DIALING);
    Onward(Careless, DIALING, ConnectDone(1, Connected, NONE), NEXTCALL);
    Onward(Careless, NEXTCALL, SipEnds(1), CUT);
    Onward(Careless, CUT, GraceStopped(0, NONE), LOST);
    assert LOST.notes[1] == Cleared(0);
    assert NeverEnded(LOST);
  }

  // ---------- a grace timer that outruns an abort ----------

  /** A video call, whose startup waits on the prewarmed ffmpeg. */
  const VTAPPED := RUNG.(invites := [Invite(true, false)], pendAudio := Some(0), pendVideo := {1, 2}, open := {0, 1, 2},
                         created := 3, connects := [Connecting(0, true)])

  const VCALLING := VTAPPED.(connects := [ConnectOver], calls := [PLACED], sip := Some(0), active := Some(0), prewarm := true,
                             maxTask := Some(0), sipId := Some(0), invites := [Invite(true, true)],
                             deeds := [Deed.Placed(0), Answered(0)])

  const VTALKING := VCALLING.(calls := [Call(true, true, Scheduled(false), NoGrace, true)], spawnTask := Some(0))

  const VSTARTING := VTALKING.(calls := [Call(true, true, InStart({0, 1, 2}, 0, true, false), NoGrace, true)],
                               pendAudio := None, pendVideo := {}, prewarm := false)

  /** A ring aborts the call: it is hung up, and the abort waits for the startup. */
  const VABORTED := VSTARTING.(calls := [Call(false, true, InStart({0, 1, 2}, 0, true, true), Sleeping, false)], sip := None,
                               maxTask := None, graceTask := Some(0), spawnTask := None,
                               aborts := [AbortAwaitsSpawn(0, 0, NewRing(true))], notes := [HungUp(0)])

  /** The cancelled startup has put the prewarm back. */
  const VGONE := VABORTED.(calls := [Call(false, true, Gone, Sleeping, false)], open := {}, prewarm := true)

  /** The grace timer fires before the abort goes on, and its stop() takes the prewarm. */
  const VLATE := VGONE.(calls := [Call(false, true, Gone, Tearing(OnPrewarm, false), false)], active := None,
                        generation := 1, prewarm := false, notes := [HungUp(0), Cleared(0)])

  /** The abort ends, and its ring is parked. */
  const VRUNG := VLATE.(generation := 2, aborts := [AbortOver], sipId := None, invite := Some(1),
                        invites := [Invite(true, true), Invite(false, false)], notes := [HungUp(0), Cleared(0), Ended(0)])

  const VTAPPED2 := VRUNG.(invites := [Invite(true, true), Invite(true, false)], pendAudio := Some(3), pendVideo := {4, 5},
                           open := {3, 4, 5}, created := 6, connects := [ConnectOver, Connecting(1, true)])

  const VTORN := Call(false, true, Gone, Tearing(OnPrewarm, false), false)

  const VCALLING2 := VTAPPED2.(connects := [ConnectOver, ConnectOver], calls := [VTORN, PLACED], sip := Some(1),
                               active := Some(1), prewarm := true, maxTask := Some(1), sipId := Some(1),
                               invites := [Invite(true, true), Invite(true, true)],
                               deeds := [Deed.Placed(0), Answered(0), Deed.Placed(1), Answered(1)])

  const VTALKING2 := VCALLING2.(calls := [VTORN, Call(true, true, Scheduled(false), NoGrace, true)], spawnTask := Some(1))

  const VSTARTING2 := VTALKING2.(calls := [VTORN, Call(true, true, InStart({3, 4, 5}, 2, true, false), NoGrace, true)],
                                 pendAudio := None, pendVideo := {}, prewarm := false)

  const VSTREAMING2 := VSTARTING2.(calls := [VTORN, Call(true, true, Gone, NoGrace, true)], up := Some(Up(1, {3, 4, 5})),
                                   url := Some(1), notes := [HungUp(0), Cleared(0), Ended(0), Active(1)])

  lemma VideoCall()
    ensures Next(RUNG, Tap(true)) == VTAPPED && Next(VTAPPED, ConnectDone(0, Connected, NONE)) == VCALLING
    ensures Next(VCALLING, Established(0)) == VTALKING
  {
    assert {} + {0} + {1, 2} == {0, 1, 2};
    assert VTALKING.calls == VCALLING.calls[0 := Call(true, true, Scheduled(false), NoGrace, true)];
  }

  lemma VideoStarts()
    ensures Next(VTALKING, SpawnRuns(0, true, NONE)) == VSTARTING
  {
    assert PendingSocks(VTALKING) == {0, 1, 2} && {0} + {1, 2} == {0, 1, 2};
    assert VTALKING.open - ({0, 1, 2} - {0, 1, 2}) == {0, 1, 2};
  }

  const VUNTIMED := VSTARTING.(calls := [Call(true, true, InStart({0, 1, 2}, 0, true, false), NoGrace, false)], maxTask := None)

  const VHUNGUP := VUNTIMED.(calls := [Call(false, true, InStart({0, 1, 2}, 0, true, false), Sleeping, false)], sip := None,
                             graceTask := Some(0), notes := [HungUp(0)])

  lemma VideoTidies()
    ensures CancelGrace(CancelMax(VSTARTING)) == VUNTIMED
  {}

  lemma VideoHangs()
    ensures Hang(VUNTIMED, 0) == VHUNGUP && ClosePending(VHUNGUP) == VHUNGUP
  {
    var x := Noted(VUNTIMED, HungUp(0)).(calls := [Call(false, true, InStart({0, 1, 2}, 0, true, false), NoGrace, false)]);
    assert WithCall(Noted(VUNTIMED, HungUp(0)), 0, VUNTIMED.calls[0].(live := false)) == x;
    assert CancelMax(x) == x && CancelPrewarm(x) == x && PendingSocks(x) == {} && x.open - {} == x.open;
    assert PendingSocks(VHUNGUP) == {} && VHUNGUP.open - {} == VHUNGUP.open;
    hide CancelMax, CancelPrewarm;
    assert HandleTerminated(x, 0) == VHUNGUP;
    hide HandleTerminated;
  }

  lemma VideoAborts()
    ensures Next(VSTARTING, Push(true, NONE)) == VABORTED
  {
    VideoTidies();
    VideoHangs();
    hide CancelMax, CancelGrace, Hang, ClosePending;
    assert Aborted(VSTARTING, 0) == VHUNGUP;
    hide Aborted;
  }

  lemma VideoUnwinds()
    ensures Next(VABORTED, SpawnResumes(0, InPrewarm, {}, NONE)) == VGONE
  {
    assert {0, 1, 2} + ({} - {}) == {0, 1, 2} && VABORTED.open - {0, 1, 2} == {};
  }

  lemma VideoLate()
    ensures Next(VGONE, GraceFires(0, NONE)) == VLATE
  {}

  lemma VideoRings()
    ensures Next(VLATE, AbortResumes(0, NONE)) == VRUNG
  {
    LateStops();
    hide BeginStop;
  }

  /** The stop() of the abort finds nothing to wait for. */
  lemma LateStops()
    ensures BeginStop(VLATE, NONE) == Stop(VLATE.(generation := 2), None)
  {
    var u := VLATE.(generation := 2);
    assert TakeDown(u) == u by { assert u.open - {} == u.open; }
  }

  lemma VideoCall2()
    ensures Next(VRUNG, Tap(true)) == VTAPPED2 && Next(VTAPPED2, ConnectDone(1, Connected, NONE)) == VCALLING2
  {
    assert {} + {3} + {4, 5} == {3, 4, 5};
  }

  lemma VideoTalks2()
    ensures Next(VCALLING2, Established(1)) == VTALKING2
  {
    assert VTALKING2.calls == VCALLING2.calls[1 := Call(true, true, Scheduled(false), NoGrace, true)];
  }

  lemma VideoStarts2()
    ensures Next(VTALKING2, SpawnRuns(1, true, NONE)) == VSTARTING2
  {
    assert PendingSocks(VTALKING2) == {3, 4, 5} && {3} + {4, 5} == {3, 4, 5};
    assert VTALKING2.open - ({3, 4, 5} - {3, 4, 5}) == {3, 4, 5};
  }

  lemma VideoStreams2()
    ensures Next(VSTARTING2, SpawnResumes(1, Passes, {}, NONE)) == VSTREAMING2
  {
    assert {3, 4, 5} + ({} - {}) == {3, 4, 5};
  }

  lemma VideoStreamingIsReachable(care: Care)
    requires !care.Strict?
    ensures Reachable(care, VSTREAMING2)
  {
    Onset(care);
    Placing();
    VideoCall();
    VideoStarts();
    VideoAborts();
    hide Next, Reachable;
    Onward(care, START, Push(true, NONE), RUNG);
    Onward(care, RUNG, Tap(true), VTAPPED);
    Onward(care, VTAPPED, ConnectDone(0, Connected, NONE), VCALLING);
    Onward(care, VCALLING, Established(0), VTALKING);
    Onward(care, VTALKING, SpawnRuns(0, true, NONE), VSTARTING);
    Onward(care, VSTARTING, Push(true, NONE), VABORTED);
    VideoStreamingGoesOn(care);
  }

  lemma VideoStreamingGoesOn(care: Care)
    requires !care.Strict? && Reachable(care, VABORTED)
    ensures Reachable(care, VSTREAMING2)
  {
    VideoUnwinds();
    VideoLate();
    VideoRings();
    VideoCall2();
    VideoTalks2();
    VideoStarts2();
    VideoStreams2();
    hide Next, Reachable;
    Onward(care, VABORTED, SpawnResumes(0, InPrewarm, {}, NONE), VGONE);
    Onward(care, VGONE, GraceFires(0, NONE), VLATE);
    Onward(care, VLATE, AbortResumes(0, NONE), VRUNG);
    Onward(care, VRUNG, Tap(true), VTAPPED2);
    Onward(care, VTAPPED2, ConnectDone(1, Connected, NONE), VCALLING2);
    Onward(care, VCALLING2, Established(1), VTALKING2);
    Onward(care, VTALKING2, SpawnRuns(1, true, NONE), VSTARTING2);
    Onward(care, VSTARTING2, SpawnResumes(1, Passes, {}, NONE), VSTREAMING2);
  }

  /** A URL is up for the active call, whose bridge is down without a stop() of its own. */
  predicate Outlives(w: World) { w.url == Some(1) && w.active == Some(1) && w.up.None? && !ClosedOwn(w, 1) }

  lemma VideoSwept()
    ensures Outlives(Next(VSTREAMING2, GraceStopped(0, NONE)))
  {}

  /** When only the grace timer is out of time, a stream URL can outlive its bridge: the teardown of
      the aborted call, once the prewarm it waited for is gone, closes the bridge of the next one. */
  lemma UrlOutlivesBridge()
    ensures exists w :: Reachable(KeptApart, w) && Outlives(w)
  {
    VideoStreamingIsReachable(KeptApart);
    VideoSwept();
    var w := Next(VSTREAMING2, GraceStopped(0, NONE));
    hide Next, Reachable, Outlives;
    Onward(KeptApart, VSTREAMING2, GraceStopped(0, NONE), w);
  }

  // ---------- a teardown that is cut before it closed the bridge ----------

  const VENDED2 := VSTREAMING2.(
    calls := [Call(false, true, Gone, Tearing(OnPrewarm, true), false), Call(false, true, Gone, Sleeping, false)],
    sip := None, maxTask := None, graceTask := Some(1))

  const VDROPPED2 := VENDED2.(
    calls := [Call(false, true, Gone, Over, false), Call(false, true, Gone, Sleeping, false)], prewarm := true)

  /** The second call's own stop() takes the prewarm that was put back, and waits for it. */
  const VTEARING2 := VDROPPED2.(
    calls := [Call(false, true, Gone, Over, false), Call(false, true, Gone, Tearing(OnPrewarm, false), false)],
    active := None, generation := 3, prewarm := false,
    notes := [HungUp(0), Cleared(0), Ended(0), Active(1), Cleared(1)])

  const VRUNG3 := VTEARING2.(url := None, invite := Some(2),
                             invites := [Invite(true, true), Invite(true, true), Invite(false, false)])

  const VTAPPED3 := VRUNG3.(invites := [Invite(true, true), Invite(true, true), Invite(true, false)], pendAudio := Some(6),
                            open := {3, 4, 5, 6}, created := 9, connects := [ConnectOver, ConnectOver, Connecting(2, false)])

  const VCALLING3 := VTAPPED3.(
    connects := [ConnectOver, ConnectOver, ConnectOver], sip := Some(2), active := Some(2), maxTask := Some(2), sipId := Some(2),
    calls := [Call(false, true, Gone, Over, false), Call(false, true, Gone, Tearing(OnPrewarm, false), false), PLACED],
    invites := [Invite(true, true), Invite(true, true), Invite(true, true)],
    deeds := [Deed.Placed(0), Answered(0), Deed.Placed(1), Answered(1), Deed.Placed(2), Answered(2)])

  const VUNTIMED2 := VSTREAMING2.(calls := [VTORN, Call(false, true, Gone, NoGrace, false)], maxTask := None)

  lemma SecondTimerDropped()
    ensures CancelMax(VSTREAMING2.(calls := [VTORN, Call(false, true, Gone, NoGrace, true)])) == VUNTIMED2
    ensures CancelPrewarm(VUNTIMED2) == VUNTIMED2 && ClosePending(VUNTIMED2) == VUNTIMED2
  {
    assert PendingSocks(VUNTIMED2) == {} && VUNTIMED2.open - {} == VUNTIMED2.open;
  }

  lemma SecondEnds()
    ensures Next(VSTREAMING2, SipEnds(1)) == VENDED2
  {
    SecondTimerDropped();
    hide CancelMax, ClosePending, CancelPrewarm;
    var x := VSTREAMING2.(calls := [VTORN, Call(false, true, Gone, NoGrace, true)]);
    assert HandleTerminated(x, 1) == VENDED2;
    assert WithCall(VSTREAMING2, 1, VSTREAMING2.calls[1].(live := false)) == x;
    hide HandleTerminated;
  }

  lemma SecondDrops()
    ensures Next(VENDED2, GraceStopped(0, NONE)) == VDROPPED2
  {}

  lemma SecondTears()
    ensures Next(VDROPPED2, GraceFires(1, NONE)) == VTEARING2
  {}

  lemma ThirdRing()
    ensures Next(VTEARING2, Push(true, NONE)) == VRUNG3 && Next(VRUNG3, Tap(false)) == VTAPPED3
  {
    assert {3, 4, 5} + {6} + {} == {3, 4, 5, 6};
  }

  lemma ThirdCall()
    ensures Next(VTAPPED3, ConnectDone(2, Connected, NONE)) == VCALLING3
  {}

  lemma ThirdEnds()
    ensures CallAttendance.Unattended(CallAttendance.WatchOf(Next(VCALLING3, SipEnds(2))))
  {
    hide EndDialog, CallAttendance.WatchOf, CallAttendance.Unattended, CallAttendance.Terminated;
    CallAttendance.EndDialogWatch(VCALLING3, 2);
    OnlyTheSecondTears();
  }

  lemma OnlyTheSecondTears()
    ensures CallAttendance.Unattended(CallAttendance.Terminated(VCALLING3, 2))
  {}

  /** The third call ends while the teardown of the second still waits for a prewarm, and cuts it: the
      bridge of the second call stays up, and nothing will close it. */
  lemma TeardownIsCut()
    ensures exists w :: Reachable(Careless, w) && CallAttendance.Unattended(CallAttendance.WatchOf(w))
  {
    VideoStreamingIsReachable(Careless);
    SecondEnds();
    SecondDrops();
    SecondTears();
    ThirdRing();
    ThirdCall();
    ThirdEnds();
    hide Next, Reachable, CallAttendance.Unattended, CallAttendance.WatchOf;
    Onward(Careless, VSTREAMING2, SipEnds(1), VENDED2);
    Onward(Careless, VENDED2, GraceStopped(0, NONE), VDROPPED2);
    Onward(Careless, VDROPPED2, GraceFires(1, NONE), VTEARING2);
    Onward(Careless, VTEARING2, Push(true, NONE), VRUNG3);
    Onward(Careless, VRUNG3, Tap(false), VTAPPED3);
    Onward(Careless, VTAPPED3, ConnectDone(2, Connected, NONE), VCALLING3);
    Onward(Careless, VCALLING3, SipEnds(2), Next(VCALLING3, SipEnds(2)));
  }

  // ---------- two taps at once ----------

  const TWORINGS := TAPPED.(invites := [Invite(true, false), Invite(false, false)], invite := Some(1))

  const TWOTAPS := TWORINGS.(invites := [Invite(true, false), Invite(true, false)], pendAudio := Some(3), open := {0, 3},
                             created := 6, connects := [Connecting(0, false), Connecting(1, false)])

  const ONEPLACED := TWOTAPS.(
    connects := [ConnectOver, Connecting(1, false)], calls := [PLACED], sip := Some(0),
    active := Some(0), maxTask := Some(0), sipId := Some(0), invites := [Invite(true, true), Invite(true, false)],
    deeds := [Deed.Placed(0), Answered(0)])

  const ONETALKING := ONEPLACED.(calls := [Call(true, true, Scheduled(false), NoGrace, true)], spawnTask := Some(0))

  const ONESTARTING := ONETALKING.(calls := [Call(true, true, InStart({3}, 0, false, false), NoGrace, true)], pendAudio := None)

  const ONESTREAMING := ONESTARTING.(calls := [Call(true, true, Gone, NoGrace, true)], up := Some(Up(0, {3})),
                                     url := Some(0), notes := [Active(0)])

  lemma TwoTaps()
    ensures Next(TAPPED, Push(true, NONE)) == TWORINGS && Next(TWORINGS, Tap(false)) == TWOTAPS
    ensures Next(TWOTAPS, ConnectDone(0, Connected, NONE)) == ONEPLACED
  {
    assert {0} + {3} + {} == {0, 3};
  }

  lemma OneStarts()
    ensures Next(ONEPLACED, Established(0)) == ONETALKING && Next(ONETALKING, SpawnRuns(0, false, NONE)) == ONESTARTING
  {
    assert PendingSocks(ONETALKING) == {3} && {3} + {} == {3} && ONETALKING.open - ({3} - {3}) == {0, 3};
  }

  lemma OneStreams()
    ensures Next(ONESTARTING, SpawnResumes(0, Passes, {}, NONE)) == ONESTREAMING
  {
    assert {3} + ({} - {}) == {3};
  }

  lemma OneStreamingIsReachable()
    ensures Reachable(Careless, ONESTREAMING)
  {
    Onset(Careless);
    Placing();
    TwoTaps();
    OneStarts();
    OneStreams();
    hide Next, Reachable;
    Onward(Careless, START, Push(true, NONE), RUNG);
    Onward(Careless, RUNG, Tap(false), TAPPED);
    Onward(Careless, TAPPED, Push(true, NONE), TWORINGS);
    Onward(Careless, TWORINGS, Tap(false), TWOTAPS);
    Onward(Careless, TWOTAPS, ConnectDone(0, Connected, NONE), ONEPLACED);
    Onward(Careless, ONEPLACED, Established(0), ONETALKING);
    Onward(Careless, ONETALKING, SpawnRuns(0, false, NONE), ONESTARTING);
    Onward(Careless, ONESTARTING, SpawnResumes(0, Passes, {}, NONE), ONESTREAMING);
  }

  lemma FirstSocketLost()
    ensures CallLeaks.Leaked(ONESTREAMING, 0)
  {
    assert CallLeaks.Hands(ONESTREAMING.calls, 0) == 0;
  }

  /** The pending socket of the first tap is replaced by that of the second, and stays open. */
  lemma SecondTapLeaks()
    ensures exists w :: Reachable(Careless, w) && CallLeaks.Leaked(w, 0)
  {
    OneStreamingIsReachable();
    FirstSocketLost();
    hide Reachable, CallLeaks.Leaked;
    assert Reachable(Careless, ONESTREAMING) && CallLeaks.Leaked(ONESTREAMING, 0);
  }

  lemma Replaced()
    ensures CallAttendance.Unattended(CallAttendance.WatchOf(Next(ONESTREAMING, ConnectDone(1, Connected, RUNS))))
  {
    var w := Next(ONESTREAMING, ConnectDone(1, Connected, RUNS));
    assert w.calls == [Call(true, true, Gone, NoGrace, true), PLACED];
  }

  /** Two taps connect at once; the second call takes the place of the first, whose bridge is up. */
  lemma CallIsReplaced()
    ensures exists w :: Reachable(Careless, w) && CallAttendance.Unattended(CallAttendance.WatchOf(w))
  {
    OneStreamingIsReachable();
    Replaced();
    hide Next, Reachable, CallAttendance.Unattended, CallAttendance.WatchOf;
    Onward(Careless, ONESTREAMING, ConnectDone(1, Connected, RUNS), Next(ONESTREAMING, ConnectDone(1, Connected, RUNS)));
  }

  // ---------- two pushes in a row ----------

  /** The first push hangs up, closes the bridge and waits for ffmpeg. */
  const PUSHED := STREAMING.(calls := [Call(false, true, Gone, Sleeping, false)], sip := None, maxTask := None,
                             graceTask := Some(0), spawnTask := None, up := None, open := {}, generation := 1,
                             aborts := [AbortAwaitsStop(0, OnExit, NewRing(true))], notes := [Active(0), HungUp(0)])

  /** The second finds nothing to wait for: its ring is parked. */
  const PUSHEDAGAIN := PUSHED.(
    calls := [Call(false, true, Gone, Over, false)], graceTask := None, generation := 2, active := None, sipId := None,
    url := None, aborts := [AbortAwaitsStop(0, OnExit, NewRing(true)), AbortOver], invite := Some(1),
    invites := [Invite(true, true), Invite(false, false)], notes := [Active(0), HungUp(0), Ended(0)])

  const QUIETCALL := Call(false, true, Gone, Over, false)

  const QTAPPED := PUSHEDAGAIN.(invites := [Invite(true, true), Invite(true, false)], pendAudio := Some(3), open := {3},
                                created := 6, connects := [ConnectOver, Connecting(1, false)])

  const QCALLING := QTAPPED.(
    connects := [ConnectOver, ConnectOver], calls := [QUIETCALL, PLACED], sip := Some(1), active := Some(1),
    maxTask := Some(1), sipId := Some(1), invites := [Invite(true, true), Invite(true, true)],
    deeds := [Deed.Placed(0), Answered(0), Deed.Placed(1), Answered(1)])

  const QTALKING := QCALLING.(calls := [QUIETCALL, Call(true, true, Scheduled(false), NoGrace, true)], spawnTask := Some(1))

  const QSTARTING := QTALKING.(calls := [QUIETCALL, Call(true, true, InStart({3}, 2, false, false), NoGrace, true)],
                               pendAudio := None)

  const QSTREAMING := QSTARTING.(calls := [QUIETCALL, Call(true, true, Gone, NoGrace, true)], up := Some(Up(1, {3})),
                                 url := Some(1), notes := [Active(0), HungUp(0), Ended(0), Active(1)])

  /** The first push goes on: no call is active any more, and a ring is parked again. */
  const FORGOTTEN := QSTREAMING.(active := None, aborts := [AbortOver, AbortOver], url := None, invite := Some(2),
                                 invites := [Invite(true, true), Invite(true, true), Invite(false, false)],
                                 notes := [Active(0), HungUp(0), Ended(0), Active(1), Ended(0)])

  lemma PushHangs()
    ensures Aborted(STREAMING, 0) == PUSHED.(spawnTask := Some(0), up := STREAMING.up, open := {0}, generation := 0, aborts := [])
  {
    TimerDropped();
    var a := STREAMING.(calls := [Call(true, true, Gone, NoGrace, false)], maxTask := None);
    assert CancelMax(STREAMING) == a && CancelGrace(a) == a;
    var n := Noted(a, HungUp(0));
    var x := UNTIMED.(notes := [Active(0), HungUp(0)]);
    assert WithCall(n, 0, a.calls[0].(live := false)) == x;
    hide CancelMax, CancelGrace;
    assert x == WithCall(n, 0, a.calls[0].(live := false));
    PushTerminates();
    hide HandleTerminated;
    var h := ENDED.(notes := [Active(0), HungUp(0)]);
    assert PendingSocks(h) == {} && h.open - {} == h.open;
  }

  lemma PushTerminates()
    ensures HandleTerminated(UNTIMED.(notes := [Active(0), HungUp(0)]), 0) == ENDED.(notes := [Active(0), HungUp(0)])
  {
    var x := UNTIMED.(notes := [Active(0), HungUp(0)]);
    assert CancelMax(x) == x && CancelPrewarm(x) == x && PendingSocks(x) == {} && x.open - {} == x.open;
    assert CancelGrace(x.(sip := None)) == x.(sip := None);
    hide CancelMax, CancelPrewarm, CancelGrace;
  }

  lemma FirstPush()
    ensures Next(STREAMING, Push(true, RUNS)) == PUSHED
  {
    PushHangs();
    hide Aborted;
    assert {0} - {0} == {};
  }

  lemma SecondPush()
    ensures Next(PUSHED, Push(true, NONE)) == PUSHEDAGAIN
  {
    var x := PUSHED.(calls := [Call(false, true, Gone, Over, false)], graceTask := None);
    assert CancelMax(PUSHED) == PUSHED && CancelGrace(PUSHED) == x;
    assert PendingSocks(x) == {} && x.open - {} == x.open;
    assert Aborted(PUSHED, 0) == x;
    hide Aborted;
    SecondPushEnds(x);
  }

  lemma SecondPushEnds(x: World)
    requires x == PUSHED.(calls := [Call(false, true, Gone, Over, false)], graceTask := None)
    ensures AbortWaits(x, 0, NewRing(true), NONE) == PUSHEDAGAIN
  {
    assert Starting(x.calls).None? && x.open - {} == {};
  }

  lemma QuickCall()
    ensures Next(PUSHEDAGAIN, Tap(false)) == QTAPPED && Next(QTAPPED, ConnectDone(1, Connected, NONE)) == QCALLING
  {
    assert {} + {3} + {} == {3};
  }

  lemma QuickTalks()
    ensures Next(QCALLING, Established(1)) == QTALKING
  {
    assert QTALKING.calls == QCALLING.calls[1 := Call(true, true, Scheduled(false), NoGrace, true)];
  }

  lemma QuickStarts()
    ensures Next(QTALKING, SpawnRuns(1, false, NONE)) == QSTARTING
  {
    assert PendingSocks(QTALKING) == {3} && {3} + {} == {3} && QTALKING.open - ({3} - {3}) == {3};
  }

  lemma QuickStreams()
    ensures Next(QSTARTING, SpawnResumes(1, Passes, {}, NONE)) == QSTREAMING
  {
    assert {3} + ({} - {}) == {3};
  }

  lemma FirstPushEnds()
    ensures Next(QSTREAMING, AbortStopped(0, RUNS)) == FORGOTTEN
  {}

  lemma ForgottenIsReachable()
    ensures Reachable(Careless, FORGOTTEN)
  {
    StreamingIsReachable(Careless);
    FirstPush();
    SecondPush();
    QuickCall();
    QuickTalks();
    QuickStarts();
    QuickStreams();
    FirstPushEnds();
    hide Next, Reachable;
    Onward(Careless, STREAMING, Push(true, RUNS), PUSHED);
    Onward(Careless, PUSHED, Push(true, NONE), PUSHEDAGAIN);
    Onward(Careless, PUSHEDAGAIN, Tap(false), QTAPPED);
    Onward(Careless, QTAPPED, ConnectDone(1, Connected, NONE), QCALLING);
    Onward(Careless, QCALLING, Established(1), QTALKING);
    Onward(Careless, QTALKING, SpawnRuns(1, false, NONE), QSTARTING);
    Onward(Careless, QSTARTING, SpawnResumes(1, Passes, {}, NONE), QSTREAMING);
    Onward(Careless, QSTREAMING, AbortStopped(0, RUNS), FORGOTTEN);
  }

  lemma NobodyStops()
    ensures CallAttendance.Unattended(CallAttendance.WatchOf(FORGOTTEN))
  {}

  /** Two pushes in a row: the second is done first, its call comes up while the first still waits for
      the old ffmpeg, and the end of the first makes that call inactive with its bridge up. */
  lemma CallIsForgotten()
    ensures exists w :: Reachable(Careless, w) && CallAttendance.Unattended(CallAttendance.WatchOf(w))
  {
    ForgottenIsReachable();
    NobodyStops();
    hide Reachable, CallAttendance.Unattended, CallAttendance.WatchOf;
    assert Reachable(Careless, FORGOTTEN) && CallAttendance.Unattended(CallAttendance.WatchOf(FORGOTTEN));
  }

  const FTAPPED := FORGOTTEN.(invites := [Invite(true, true), Invite(true, true), Invite(true, false)], pendAudio := Some(6),
                              open := {3, 6}, created := 9, connects := [ConnectOver, ConnectOver, Connecting(2, false)])

  const FOLDCALL := Call(true, true, Gone, NoGrace, true)

  const FCALLING := FTAPPED.(
    connects := [ConnectOver, ConnectOver, ConnectOver], calls := [QUIETCALL, FOLDCALL, PLACED], sip := Some(2),
    active := Some(2), maxTask := Some(2), sipId := Some(2),
    invites := [Invite(true, true), Invite(true, true), Invite(true, true)],
    deeds := [Deed.Placed(0), Answered(0), Deed.Placed(1), Answered(1), Deed.Placed(2), Answered(2)])

  const FTALKING := FCALLING.(calls := [QUIETCALL, FOLDCALL, Call(true, true, Scheduled(false), NoGrace, true)],
                              spawnTask := Some(2))

  lemma NextOfForgotten()
    ensures Next(FORGOTTEN, Tap(false)) == FTAPPED && Next(FTAPPED, ConnectDone(2, Connected, RUNS)) == FCALLING
  {
    assert {3} + {6} + {} == {3, 6};
  }

  lemma NextOfForgottenTalks()
    ensures Next(FCALLING, Established(2)) == FTALKING
  {
    assert FTALKING.calls == FCALLING.calls[2 := Call(true, true, Scheduled(false), NoGrace, true)];
  }

  /** Call 2 is active and its URL up, but the pipeline behind it is call 1's. */
  predicate WrongStream(w: World)
  {
    w.active == Some(2) && w.url == Some(1) && w.up.Some? && w.up.value.call == 1 && CallLeaks.Leaked(w, 6)
  }

  lemma OldPipeline()
    ensures WrongStream(Next(FTALKING, SpawnRuns(2, false, RUNS)))
  {
    assert Runner(FTALKING) == 1 && Running(FTALKING, RUNS);
    var x := Taken(FTALKING, false);
    assert PendingSocks(FTALKING) == {6} && Used(FTALKING, false) == {6} && x.open == {3, 6};
    OldPipelineIsServed(x);
    hide Taken, Publish;
  }

  lemma OldPipelineIsServed(x: World)
    requires x == FTALKING.(pendAudio := None, open := {3, 6})
    ensures WrongStream(Publish(x, 2, 1, RUNS))
  {
    var w := Publish(x, 2, 1, RUNS);
    assert w.calls == [QUIETCALL, FOLDCALL, Call(true, true, Gone, NoGrace, true)];
    NoHands(w.calls);
  }

  lemma NoHands(calls: seq<Call>)
    requires calls == [QUIETCALL, FOLDCALL, Call(true, true, Gone, NoGrace, true)]
    ensures CallLeaks.Hands(calls, 6) == 0
  {
    CallLeaks.NobodyHolds(calls, 6);
  }

  /** After that, the next call is given the stream of the forgotten one, and its own socket leaks. */
  lemma StreamOfAnotherCall()
    ensures exists w :: Reachable(Careless, w) && WrongStream(w)
  {
    ForgottenIsReachable();
    NextOfForgotten();
    NextOfForgottenTalks();
    OldPipeline();
    hide Next, Reachable, WrongStream;
    Onward(Careless, FORGOTTEN, Tap(false), FTAPPED);
    Onward(Careless, FTAPPED, ConnectDone(2, Connected, RUNS), FCALLING);
    Onward(Careless, FCALLING, Established(2), FTALKING);
    Onward(Careless, FTALKING, SpawnRuns(2, false, RUNS), Next(FTALKING, SpawnRuns(2, false, RUNS)));
  }
}
