/** A bridge that is up for a call that is not active: whether some `stop()` is still going to close
    it, in every interleaving; and which teardowns never report the end of their call. */
module CallAttendance {
  import opened Basics
  import opened CallFlow
  import opened CallFrames
  import opened CallRings

  // ---------- the stops that will still close the bridge ----------

  /** A `stop()` that nobody has cancelled and that has not closed everything yet. */
  predicate Unswept(at: Await, cancelled: bool) { at != OnExit && !cancelled }

  predicate StaleWill(r: Call) { r.spawn.Stale? && Unswept(r.spawn.at, r.spawn.cancelled) }

  predicate TearingWill(r: Call) { r.grace.Tearing? && Unswept(r.grace.at, r.grace.cancelled) }

  predicate AbortWill(pc: AbortPc) { pc.AbortAwaitsSpawn? || (pc.AbortAwaitsStop? && pc.at != OnExit) }

  predicate StopWill(pc: StopPc) { pc.StopAwaitsSpawn? || (pc.StopAwaitsBridge? && pc.at != OnExit) }

  function Stales(calls: seq<Call>): set<nat> { set c | 0 <= c < |calls| && StaleWill(calls[c]) }

  function Tearings(calls: seq<Call>): set<nat> { set c | 0 <= c < |calls| && TearingWill(calls[c]) }

  function Abortings(aborts: seq<AbortPc>): set<nat> { set k | 0 <= k < |aborts| && AbortWill(aborts[k]) }

  function Stoppings(stops: seq<StopPc>): set<nat> { set k | 0 <= k < |stops| && StopWill(stops[k]) }

  /** The call whose bridge is up, the active call, and every task that will still close the bridge. */
  datatype Watch = Watch(up: Option<nat>, active: Option<nat>, n: nat, stale: set<nat>, tearing: set<nat>,
                         aborts: set<nat>, stops: set<nat>)

  function UpCall(w: World): Option<nat> { if w.up.Some? then Some(w.up.value.call) else None }

  function WatchOf(w: World): Watch
  {
    Watch(UpCall(w), w.active, |w.calls|, Stales(w.calls), Tearings(w.calls), Abortings(w.aborts), Stoppings(w.stops))
  }

  predicate StopPending(x: Watch) { x.stale != {} || x.tearing != {} || x.aborts != {} || x.stops != {} }

  /** The bridge is up for a call that is not active, and nothing is going to stop it. */
  predicate Unattended(x: Watch) { x.up.Some? && x.active != x.up && !StopPending(x) }

  predicate Sound(x: Watch)
  {
    && (x.up.Some? ==> x.up.value < x.n) && (x.active.Some? ==> x.active.value < x.n && x.active.value !in x.tearing)
    && (forall c :: c in x.tearing ==> c < x.n)
  }

  // ---------- the interleavings that lose the last stop ----------

  /** A second connect completes while the bridge of the active call is up, and takes its place. */
  predicate Replaces(w: World, e: Event)
  {
    && e.ConnectDone? && e.how == Connected && e.k < |w.connects| && w.connects[e.k].Connecting?
    && w.up.Some? && w.active == UpCall(w) && !StopPending(WatchOf(w))
  }

  /** The dialog of the active call ends by this event, other than through an abort or an unwinding
      that closes the bridge. */
  predicate EndsActive(w: World, e: Event)
  {
    && w.active.Some? && w.active.value < |w.calls| && w.calls[w.active.value].live
    && var c := w.active.value; var s := w.calls[c].spawn;
       match e
       case SipEnds(b) => b == c
       case MaxFires(b) => b == c && w.calls[c].max && w.sip == Some(c)
       case SpawnRuns(b, _, _) => b == c && s == Scheduled(false) && w.pendAudio.None? && w.sip == Some(c)
       case SpawnResumes(b, end, _, _) => b == c && s.InStart? && !s.cancelled && end.SpawnFails? && w.sip == Some(c)
       case _ => false
  }

  function GraceOf(w: World): set<nat> { if w.graceTask.Some? then {w.graceTask.value} else {} }

  /** Nothing else will close the bridge but the teardown in `_grace_task`. */
  predicate OnlyGrace(w: World)
  {
    var x := WatchOf(w); x.stale == {} && x.aborts == {} && x.stops == {} && x.tearing <= GraceOf(w)
  }

  /** The end of the active call cancels the teardown of an earlier one, before it could close the
      bridge of that one. */
  predicate CutsTeardown(w: World, e: Event)
  {
    EndsActive(w, e) && w.up.Some? && w.active != UpCall(w) && OnlyGrace(w) && WatchOf(w).tearing != {}
  }

  /** An abort whose stop() closed an earlier pipeline ends, and makes the call inactive whose bridge
      has come up since. */
  predicate AbortForgets(w: World, e: Event)
  {
    && e.AbortStopped? && e.k < |w.aborts| && w.aborts[e.k].AbortAwaitsStop? && w.aborts[e.k].at == OnExit
    && w.up.Some? && w.active == UpCall(w) && !StopPending(WatchOf(w))
  }

  /** The same for `async_stop`, which also cancels a teardown. */
  predicate StopForgets(w: World, e: Event)
  {
    && e.StopStopped? && e.k < |w.stops| && w.stops[e.k] == StopAwaitsBridge(OnExit)
    && w.up.Some? && OnlyGrace(w)
  }

  predicate Overtakes(w: World, e: Event)
  {
    Replaces(w, e) || CutsTeardown(w, e) || AbortForgets(w, e) || StopForgets(w, e)
  }

  /** What one step does to the attendance. */
  predicate Exact(w: World, e: Event, v: World)
  {
    Sound(WatchOf(v)) && (!Unattended(WatchOf(w)) ==> (Unattended(WatchOf(v)) <==> Overtakes(w, e)))
  }

  // ---------- sequences ----------

  lemma Update(a: seq<Call>, c: nat, r: Call)
    requires c < |a|
    ensures Stales(a[c := r]) == if StaleWill(r) then Stales(a) + {c} else Stales(a) - {c}
    ensures Tearings(a[c := r]) == if TearingWill(r) then Tearings(a) + {c} else Tearings(a) - {c}
    ensures c in Stales(a) <==> StaleWill(a[c])
    ensures c in Tearings(a) <==> TearingWill(a[c])
  {
    hide StaleWill, TearingWill;
  }

  lemma Append(a: seq<Call>)
    ensures var b := a + [Call(true, false, NoSpawn, NoGrace, true)];
      Stales(b) == Stales(a) && Tearings(b) == Tearings(a)
  {}

  lemma AbortSets(a: seq<AbortPc>, pc: AbortPc, k: nat)
    ensures Abortings(a + [pc]) == if AbortWill(pc) then Abortings(a) + {|a|} else Abortings(a)
    ensures k < |a| ==> Abortings(a[k := pc]) == if AbortWill(pc) then Abortings(a) + {k} else Abortings(a) - {k}
    ensures k < |a| ==> (k in Abortings(a) <==> AbortWill(a[k]))
  {
    hide AbortWill;
  }

  lemma StopSets(a: seq<StopPc>, pc: StopPc, k: nat)
    ensures Stoppings(a + [pc]) == if StopWill(pc) then Stoppings(a) + {|a|} else Stoppings(a)
    ensures k < |a| ==> Stoppings(a[k := pc]) == if StopWill(pc) then Stoppings(a) + {k} else Stoppings(a) - {k}
    ensures k < |a| ==> (k in Stoppings(a) <==> StopWill(a[k]))
  {
    hide StopWill;
  }

  /** Call c changes: what it will still do. */
  function Moved(x: Watch, c: nat, r: Call): Watch
  {
    x.(stale := if StaleWill(r) then x.stale + {c} else x.stale - {c},
       tearing := if TearingWill(r) then x.tearing + {c} else x.tearing - {c})
  }

  lemma WithCallWatch(w: World, c: nat, r: Call)
    requires c < |w.calls|
    ensures WatchOf(WithCall(w, c, r)) == Moved(WatchOf(w), c, r)
    ensures c in WatchOf(w).stale <==> StaleWill(w.calls[c])
    ensures c in WatchOf(w).tearing <==> TearingWill(w.calls[c])
  {
    Update(w.calls, c, r);
    hide Stales, Tearings, Abortings, Stoppings, StaleWill, TearingWill;
  }

  /** A call changes in nothing that matters here. */
  lemma SameCallWatch(w: World, c: nat, r: Call)
    requires c < |w.calls| && (StaleWill(r) <==> StaleWill(w.calls[c])) && (TearingWill(r) <==> TearingWill(w.calls[c]))
    ensures WatchOf(WithCall(w, c, r)) == WatchOf(w)
  {
    WithCallWatch(w, c, r);
    hide WatchOf, StaleWill, TearingWill;
  }

  // ---------- small steps ----------

  lemma MaxWatch(w: World)
    ensures WatchOf(CancelMax(w)) == WatchOf(w) && CancelMax(w).graceTask == w.graceTask && CancelMax(w).active == w.active
  {
    if w.maxTask.Some? && w.maxTask.value < |w.calls| {
      var t := w.maxTask.value;
      SameCallWatch(w, t, w.calls[t].(max := false));
    }
    hide Stales, Tearings, Abortings, Stoppings;
  }

  /** Cancelling the grace task ends a teardown that it was in. */
  lemma GraceWatch(w: World)
    ensures WatchOf(CancelGrace(w)) == WatchOf(w).(tearing := WatchOf(w).tearing - GraceOf(w))
    ensures CancelGrace(w).active == w.active && |CancelGrace(w).calls| == |w.calls|
  {
    if w.graceTask.Some? {
      var t := w.graceTask.value;
      if t < |w.calls| {
        var r := w.calls[t].(grace := CancelledGrace(w.calls[t].grace));
        WithCallWatch(w, t, r);
        assert !TearingWill(r) && (StaleWill(r) <==> StaleWill(w.calls[t]));
        hide Stales, Tearings, Abortings, Stoppings;
      } else {
        assert WatchOf(w).tearing - {t} == WatchOf(w).tearing;
      }
    } else {
      assert WatchOf(w).tearing - {} == WatchOf(w).tearing;
    }
  }

  lemma PlainWatch(w: World, c: nat, url: Option<nat>, n: Note)
    ensures WatchOf(ClosePending(w)) == WatchOf(w) && WatchOf(Noted(w, n)) == WatchOf(w) == WatchOf(CancelPrewarm(w))
    ensures WatchOf(SetUrl(w, c, url)) == WatchOf(w) && SetUrl(w, c, url).calls == w.calls
    ensures ClosePending(w).graceTask == w.graceTask == CancelPrewarm(w).graceTask
    ensures ClosePending(w).active == w.active == CancelPrewarm(w).active
  {
    hide Stales, Tearings, Abortings, Stoppings;
  }

  /** A stop() either will still close the bridge, or has. */
  lemma StopWatch(w: World, at: Await, alive: Ffmpeg)
    ensures var s := BeginStop(w, alive);
      if s.at.Some? && s.at.value != OnExit then WatchOf(s.w) == WatchOf(w) else WatchOf(s.w) == WatchOf(w).(up := None)
    ensures var s := GoOn(w, at, alive); at != OnExit ==>
      if s.at.Some? && s.at.value != OnExit then WatchOf(s.w) == WatchOf(w) else WatchOf(s.w) == WatchOf(w).(up := None)
    ensures GoOn(w, OnExit, alive) == Stop(w, None) && WatchOf(Dropped(w, at)) == WatchOf(w)
  {
    hide Stales, Tearings, Abortings, Stoppings;
  }

  lemma EndSpawnWatch(w: World, c: nat)
    ensures WatchOf(EndSpawn(w, c)) == WatchOf(w).(stale := WatchOf(w).stale - {c})
  {
    if c < |w.calls| {
      WithCallWatch(w, c, w.calls[c].(spawn := Gone));
      hide Stales, Tearings, Abortings, Stoppings;
    } else {
      assert WatchOf(w).stale - {c} == WatchOf(w).stale;
    }
  }

  /** The dialog of call c has ended. */
  function Terminated(w: World, c: nat): Watch
  {
    var x := WatchOf(w);
    if w.active == Some(c) && c < |w.calls| then x.(tearing := x.tearing - GraceOf(w) - {c}) else x
  }

  lemma TerminatedWatch(w: World, c: nat)
    ensures WatchOf(HandleTerminated(w, c)) == Terminated(w, c)
  {
    hide CancelMax, CancelGrace, ClosePending, CancelPrewarm, Stales, Tearings, Abortings, Stoppings;
    if w.active == Some(c) && c < |w.calls| {
      MaxWatch(w);
      var y := CancelPrewarm(CancelMax(w));
      PlainWatch(CancelMax(w), c, None, StopCompleted);
      PlainWatch(y, c, None, StopCompleted);
      var x := ClosePending(y).(sip := None);
      GraceWatch(x);
      SleepingWatch(CancelGrace(x), c);
    }
  }

  lemma SleepingWatch(w: World, c: nat)
    requires c < |w.calls|
    ensures WatchOf(WithCall(w, c, w.calls[c].(grace := Sleeping)).(graceTask := Some(c)))
         == WatchOf(w).(tearing := WatchOf(w).tearing - {c})
  {
    WithCallWatch(w, c, w.calls[c].(grace := Sleeping));
    assert !TearingWill(w.calls[c].(grace := Sleeping));
    hide Stales, Tearings, Abortings, Stoppings, TearingWill;
  }

  lemma EndDialogWatch(w: World, c: nat)
    ensures WatchOf(EndDialog(w, c)) == if c < |w.calls| && w.calls[c].live then Terminated(w, c) else WatchOf(w)
  {
    hide HandleTerminated, Stales, Tearings, Abortings, Stoppings;
    if c < |w.calls| && w.calls[c].live {
      var v := WithCall(w, c, w.calls[c].(live := false));
      SameCallWatch(w, c, w.calls[c].(live := false));
      TerminatedWatch(v, c);
    }
  }

  predicate Hangs(w: World, c: nat) { w.sip == Some(c) && c < |w.calls| && w.calls[c].live }

  lemma HangWatch(w: World, c: nat)
    ensures WatchOf(Hang(w, c)) == if Hangs(w, c) then Terminated(w, c) else WatchOf(w)
  {
    hide EndDialog, Stales, Tearings, Abortings, Stoppings;
    EndDialogWatch(Noted(w, HungUp(c)), c);
  }

  // ---------- what follows from the watch alone ----------

  /** Nothing changes, or the bridge goes down, or a stop is pending. */
  lemma Harmless(w: World, e: Event, v: World)
    requires Sound(WatchOf(w)) && Sound(WatchOf(v)) && !Overtakes(w, e)
    requires var x, y := WatchOf(w), WatchOf(v);
      || (y.up == x.up && y.active == x.active && (StopPending(x) ==> StopPending(y)))
      || y.up.None? || StopPending(y) || y.up == y.active
    ensures Exact(w, e, v)
  {
    hide WatchOf, Sound, Overtakes;
  }

  /** Events that can lose the last stop. */
  predicate Risky(w: World, e: Event)
  {
    e.ConnectDone? || EndsActive(w, e) || e.StopStopped? || e.AbortStopped?
  }

  lemma NotRisky(w: World, e: Event)
    requires !Risky(w, e)
    ensures !Overtakes(w, e)
  {}

  lemma Unchanged(w: World, e: Event, v: World)
    requires Sound(WatchOf(w)) && WatchOf(v) == WatchOf(w) && !Overtakes(w, e)
    ensures Exact(w, e, v)
  {
    Harmless(w, e, v);
    hide WatchOf, Sound, Exact, Overtakes;
  }

  /** The dialog of the active call ends. */
  lemma Ends(w: World, e: Event, v: World)
    requires Sound(WatchOf(w)) && EndsActive(w, e) && WatchOf(v) == Terminated(w, w.active.value)
    ensures Exact(w, e, v)
  {
    var x, y := WatchOf(w), WatchOf(v);
    assert y == x.(tearing := x.tearing - GraceOf(w) - {w.active.value});
    assert x.up == UpCall(w) && x.active == w.active;
    assert !e.ConnectDone? && !e.AbortStopped? && !e.StopStopped?;
    hide WatchOf, EndsActive, GraceOf;
    assert w.active.value !in x.tearing;
    assert y.tearing == {} <==> x.tearing <= GraceOf(w);
  }

  /** A stop() begins or goes on, and what it belongs to is recorded: the bridge is down, or the stop
      will still close it. */
  lemma StopsExact(w: World, e: Event, v: World)
    requires Sound(WatchOf(w)) && Sound(WatchOf(v)) && !Overtakes(w, e) && (v.up.None? || StopPending(WatchOf(v)))
    ensures Exact(w, e, v)
  {
    assert v.up.None? ==> WatchOf(v).up.None?;
    Harmless(w, e, v);
    hide WatchOf, Sound, Exact, Overtakes, StopPending;
  }

  // ---------- startups ----------

  lemma EstablishedExact(w: World, c: nat)
    requires Sound(WatchOf(w)) && ToldFirst(w)
    ensures Exact(w, Established(c), HandleEstablished(w, c))
  {
    var e := Established(c);
    NotRisky(w, e);
    if c < |w.calls| && w.calls[c].live && !w.calls[c].told {
      var r := w.calls[c].(told := true);
      var q := r.(spawn := Scheduled(false));
      SameCallWatch(w, c, r);
      SameCallWatch(w, c, q);
      assert w.calls[c := r][c := q] == w.calls[c := q];
      hide Stales, Tearings, Abortings, Stoppings, Overtakes, Exact;
      Unchanged(w, e, HandleEstablished(w, c));
    } else {
      Unchanged(w, e, w);
    }
  }

  lemma StaleAtWatch(s: Stop, c: nat)
    requires c < |s.w.calls|
    ensures var x := WatchOf(s.w); var v := StaleAt(s, c);
      WatchOf(v) == x.(stale := if s.at.Some? && s.at.value != OnExit then x.stale + {c} else x.stale - {c})
      && v.up == s.w.up
  {
    EndSpawnWatch(s.w, c);
    if s.at.Some? { WithCallWatch(s.w, c, s.w.calls[c].(spawn := Stale(s.at.value, false))); }
    hide Stales, Tearings, Abortings, Stoppings;
  }

  /** The stop of a stale bridge begins. */
  lemma StaleBegins(w: World, e: Event, v: World, c: nat, alive: Ffmpeg)
    requires Sound(WatchOf(w)) && !Overtakes(w, e) && c < |v.calls| && Sound(WatchOf(v))
    ensures Exact(w, e, StaleAt(BeginStop(v, alive), c))
  {
    StopWatch(v, OnExit, alive);
    StopStops(v, OnExit, alive);
    hide BeginStop, StaleAt, Stales, Tearings, Abortings, Stoppings, Overtakes, Exact;
    var s := BeginStop(v, alive);
    StaleAtWatch(s, c);
    assert s.at.Some? && s.at.value != OnExit ==> c in WatchOf(StaleAt(s, c)).stale;
    assert !(s.at.Some? && s.at.value != OnExit) ==> WatchOf(s.w).up.None?;
    StopsExact(w, e, StaleAt(s, c));
  }

  lemma PublishedWatch(v: World, c: nat, pipeline: nat)
    requires c < |v.calls| && !v.calls[c].spawn.Stale?
    ensures WatchOf(EndSpawn(SetUrl(Noted(v, Active(c)), c, Some(pipeline)), c)) == WatchOf(v)
  {
    var x := SetUrl(Noted(v, Active(c)), c, Some(pipeline));
    PlainWatch(v, c, None, Active(c));
    PlainWatch(Noted(v, Active(c)), c, Some(pipeline), Active(c));
    WithCallWatch(v, c, v.calls[c]);
    assert !StaleWill(v.calls[c]);
    hide Stales, Tearings, Abortings, Stoppings, SetUrl, StaleWill;
    EndSpawnWatch(x, c);
    assert WatchOf(v).stale - {c} == WatchOf(v).stale;
  }

  lemma PublishExact(w: World, e: Event, v: World, c: nat, pipeline: nat, alive: Ffmpeg)
    requires Sound(WatchOf(w)) && !Overtakes(w, e) && c < |v.calls| && !v.calls[c].spawn.Stale? && Sound(WatchOf(v))
    requires WatchOf(v) == WatchOf(w) || (v.up.Some? && v.up.value.call == c)
    ensures Exact(w, e, Publish(v, c, pipeline, alive))
  {
    hide EndSpawn, SetUrl, BeginStop, StaleAt, Stales, Tearings, Abortings, Stoppings, Overtakes, Exact;
    if !v.started || v.active != Some(c) {
      StaleBegins(w, e, v, c, alive);
    } else {
      PublishedWatch(v, c, pipeline);
      assert WatchOf(v).active == Some(c);
      var p := Publish(v, c, pipeline, alive);
      hide Publish;
      Harmless(w, e, p);
    }
  }

  lemma GoneExact(w: World, e: Event, v: World, c: nat)
    requires Sound(WatchOf(w)) && !Overtakes(w, e) && c < |v.calls| && !v.calls[c].spawn.Stale?
    requires WatchOf(v) == WatchOf(w) || WatchOf(v) == WatchOf(w).(up := None)
    ensures Exact(w, e, EndSpawn(v, c))
  {
    EndSpawnWatch(v, c);
    WithCallWatch(v, c, v.calls[c]);
    assert !StaleWill(v.calls[c]);
    hide Stales, Tearings, Abortings, Stoppings, EndSpawn, StaleWill, Overtakes, Exact;
    assert WatchOf(v).stale - {c} == WatchOf(v).stale;
    Harmless(w, e, EndSpawn(v, c));
  }

  /** Hanging up and ending the startup changes the watch as the end of the dialog does. */
  lemma HangEndWatch(v: World, c: nat)
    requires c < |v.calls| && !v.calls[c].spawn.Stale?
    ensures WatchOf(EndSpawn(Hang(v, c), c)) == if Hangs(v, c) then Terminated(v, c) else WatchOf(v)
  {
    WithCallWatch(v, c, v.calls[c]);
    assert !StaleWill(v.calls[c]);
    HangWatch(v, c);
    hide Stales, Tearings, Abortings, Stoppings, Hang, Hangs, StaleWill;
    var h := Hang(v, c);
    assert WatchOf(h).stale == WatchOf(v).stale;
    EndSpawnWatch(h, c);
    hide EndSpawn;
    assert WatchOf(h).stale - {c} == WatchOf(h).stale;
  }

  lemma HangExact(w: World, e: Event, v: World, c: nat)
    requires Sound(WatchOf(w)) && !e.ConnectDone? && !e.AbortStopped? && !e.StopStopped?
    requires EndsActive(w, e) <==> Hangs(v, c) && w.active == Some(c)
    requires WatchOf(v) == WatchOf(w) && v.graceTask == w.graceTask && v.active == w.active
    requires c < |v.calls| == |w.calls| && !v.calls[c].spawn.Stale?
    ensures Exact(w, e, EndSpawn(Hang(v, c), c))
  {
    HangEndWatch(v, c);
    var y := EndSpawn(Hang(v, c), c);
    assert Terminated(v, c) == Terminated(w, c);
    assert w.active != Some(c) ==> Terminated(w, c) == WatchOf(w);
    hide EndSpawn, Hang, EndsActive, Hangs, WatchOf, Terminated, Exact;
    if EndsActive(w, e) {
      Ends(w, e, y);
    } else {
      NotRisky(w, e);
      Unchanged(w, e, y);
    }
  }

  lemma TakenWatch(w: World, video: bool, c: nat, r: Call)
    requires w.pendAudio.Some? && c < |w.calls| && (StaleWill(r) <==> StaleWill(w.calls[c])) && (TearingWill(r) <==> TearingWill(w.calls[c]))
    ensures WatchOf(Taken(w, video)) == WatchOf(w) == WatchOf(WithCall(Taken(w, video).(prewarm := false), c, r))
    ensures Taken(w, video).calls == w.calls
  {
    SameCallWatch(w, c, r);
    hide Stales, Tearings, Abortings, Stoppings;
  }

  lemma NoAudioExact(w: World, e: Event, c: nat)
    requires Sound(WatchOf(w)) && e.SpawnRuns? && e.call == c
    requires c < |w.calls| && w.calls[c].spawn == Scheduled(false) && w.pendAudio.None?
    ensures Exact(w, e, EndSpawn(Hang(CloseSocks(w, w.pendVideo).(pendVideo := {}), c), c))
  {
    hide Stales, Tearings, Abortings, Stoppings, EndSpawn, Hang, Exact;
    HangExact(w, e, CloseSocks(w, w.pendVideo).(pendVideo := {}), c);
  }

  lemma AudioNotRisky(w: World, e: Event)
    requires e.SpawnRuns?
    requires !(e.call < |w.calls| && w.calls[e.call].spawn == Scheduled(false) && w.pendAudio.None?)
    ensures !Overtakes(w, e)
  {
    NotRisky(w, e);
  }

  lemma SpawnRunsExact(w: World, c: nat, video: bool, alive: Ffmpeg)
    requires Sound(WatchOf(w))
    ensures Exact(w, SpawnRuns(c, video, alive), SpawnBegins(w, c, video, alive))
  {
    var e := SpawnRuns(c, video, alive);
    hide WatchOf, EndSpawn, Hang, Publish, Running, Runner, Taken, Used, Exact, Overtakes, Sound, WithCall;
    if c < |w.calls| && w.calls[c].spawn == Scheduled(false) && w.pendAudio.None? {
      NoAudioExact(w, e, c);
    } else {
      AudioNotRisky(w, e);
      if c >= |w.calls| || !w.calls[c].spawn.Scheduled? {
        Unchanged(w, e, w);
      } else if w.calls[c].spawn.cancelled {
        GoneExact(w, e, w, c);
      } else {
        var r := w.calls[c].(spawn := InStart(Used(w, video), w.generation, w.prewarm, false));
        TakenWatch(w, video, c, r);
        if Running(w, alive) {
          RunningMeans(w, alive);
          PublishExact(w, e, Taken(w, video), c, Runner(w), alive);
        } else {
          Unchanged(w, e, WithCall(Taken(w, video).(prewarm := false), c, r));
        }
      }
    }
  }

  lemma UnwoundWatch(w: World, socks: set<nat>, over: set<nat>, prewarm: bool)
    ensures WatchOf(Unwound(w, socks, over)) == WatchOf(w).(up := None) == WatchOf(Unwound(w, socks, over).(prewarm := prewarm))
    ensures Unwound(w, socks, over).calls == w.calls
  {
    hide Stales, Tearings, Abortings, Stoppings;
  }

  lemma WrapFailsExact(w: World, e: Event, u: World, c: nat)
    requires Sound(WatchOf(w)) && !Overtakes(w, e) && c < |u.calls| && !u.calls[c].spawn.Stale?
    requires WatchOf(u) == WatchOf(w).(up := None)
    ensures Exact(w, e, EndSpawn(Hang(u, c), c))
  {
    HangEndWatch(u, c);
    var y := EndSpawn(Hang(u, c), c);
    assert WatchOf(y) == WatchOf(u).(tearing := WatchOf(y).tearing) && WatchOf(y).tearing <= WatchOf(u).tearing;
    hide EndSpawn, Hang, Terminated, Hangs, WatchOf, Overtakes, Exact;
    Harmless(w, e, y);
  }

  lemma SpawnResumesExact(w: World, c: nat, end: StartEnd, over: set<nat>, alive: Ffmpeg)
    requires Sound(WatchOf(w))
    ensures Exact(w, SpawnResumes(c, end, over, alive), SpawnEnds(w, c, end, over, alive))
  {
    var e := SpawnResumes(c, end, over, alive);
    hide Stales, Tearings, Abortings, Stoppings, EndSpawn, Hang, Publish, Unwound, Exact, Overtakes;
    if c < |w.calls| && w.calls[c].spawn.InStart? && !w.calls[c].spawn.cancelled && end.SpawnFails? {
      HangExact(w, e, w, c);
    } else {
      NotRisky(w, e);
      if c >= |w.calls| || !w.calls[c].spawn.InStart? {
        Unchanged(w, e, w);
      } else {
        var s := w.calls[c].spawn;
        var u := Unwound(w, s.socks, over);
        UnwoundWatch(w, s.socks, over, w.prewarm || (end.InPrewarm? && s.prewarmed));
        if s.cancelled {
          GoneExact(w, e, u.(prewarm := w.prewarm || (end.InPrewarm? && s.prewarmed)), c);
        } else {
          match end {
            case InPrewarm => Unchanged(w, e, w);
            case WrapFails => WrapFailsExact(w, e, u, c);
            case Passes =>
              if w.generation != s.snapshot { GoneExact(w, e, u, c); }
              else { PublishExact(w, e, w.(up := Some(Up(c, s.socks + (UpSocks(w) - over)))), c, c, alive); }
          }
        }
      }
    }
  }

  lemma StaleExact(w: World, c: nat, alive: Ffmpeg)
    requires Sound(WatchOf(w))
    ensures Exact(w, StaleStopped(c, alive), StaleEnds(w, c, alive))
  {
    var e := StaleStopped(c, alive);
    NotRisky(w, e);
    if c < |w.calls| && w.calls[c].spawn.Stale? {
      var at := w.calls[c].spawn.at;
      WithCallWatch(w, c, w.calls[c]);
      StopWatch(w, at, alive);
      StopStops(w, at, alive);
      hide GoOn, Dropped, EndSpawn, StaleAt, Stales, Tearings, Abortings, Stoppings, Overtakes, Exact;
      if w.calls[c].spawn.cancelled || at == OnExit {
        EndSpawnWatch(if at == OnExit && !w.calls[c].spawn.cancelled then w else Dropped(w, at), c);
        assert WatchOf(w).stale - {c} == WatchOf(w).stale;
        StaleAtWatch(Stop(w, None), c);
        Unchanged(w, e, StaleEnds(w, c, alive));
      } else {
        var s := GoOn(w, at, alive);
        StaleAtWatch(s, c);
        assert s.at.Some? && s.at.value != OnExit ==> c in WatchOf(StaleAt(s, c)).stale;
        assert !(s.at.Some? && s.at.value != OnExit) ==> WatchOf(s.w).up.None?;
        StopsExact(w, e, StaleAt(s, c));
      }
    } else {
      Unchanged(w, e, w);
    }
  }

  // ---------- timers ----------

  lemma CallEndedWatch(w: World, c: nat)
    ensures WatchOf(CallEnded(w, c)) == WatchOf(w) && CallEnded(w, c).up == w.up
  {
    hide Stales, Tearings, Abortings, Stoppings;
  }

  lemma TearingAtWatch(s: Stop, c: nat)
    requires c < |s.w.calls|
    ensures var x := WatchOf(s.w); var v := TearingAt(s, c);
      WatchOf(v) == x.(tearing := if s.at.Some? && s.at.value != OnExit then x.tearing + {c} else x.tearing - {c})
      && v.up == s.w.up
  {
    var r := s.w.calls[c].(grace := if s.at.None? then Over else Tearing(s.at.value, false));
    GraceOnly(s, c, r);
    hide Stales, Tearings, Abortings, Stoppings, StaleWill, TearingWill, CallEnded, WatchOf;
    CallEndedWatch(WithCall(s.w, c, r), c);
  }

  lemma GraceOnly(s: Stop, c: nat, r: Call)
    requires c < |s.w.calls| && r == s.w.calls[c].(grace := if s.at.None? then Over else Tearing(s.at.value, false))
    ensures var x := WatchOf(s.w);
      WatchOf(WithCall(s.w, c, r))
        == x.(tearing := if s.at.Some? && s.at.value != OnExit then x.tearing + {c} else x.tearing - {c})
      && WithCall(s.w, c, r).up == s.w.up
  {
    WithCallWatch(s.w, c, r);
    assert StaleWill(r) <==> StaleWill(s.w.calls[c]);
    assert TearingWill(r) <==> s.at.Some? && s.at.value != OnExit;
    hide Stales, Tearings, Abortings, Stoppings, StaleWill, TearingWill;
  }

  lemma GraceFiresExact(w: World, c: nat, alive: Ffmpeg)
    requires Sound(WatchOf(w))
    ensures Exact(w, GraceFires(c, alive), GraceWakes(w, c, alive))
  {
    var e := GraceFires(c, alive);
    NotRisky(w, e);
    if c < |w.calls| && w.calls[c].grace == Sleeping {
      if w.active == Some(c) {
        var x := Noted(w, Cleared(c)).(active := None);
        StopWatch(x, OnExit, alive);
        StopStops(x, OnExit, alive);
        hide BeginStop, TearingAt, Stales, Tearings, Abortings, Stoppings, Overtakes, Exact;
        var s := BeginStop(x, alive);
        TearingAtWatch(s, c);
        assert s.at.Some? && s.at.value != OnExit ==> c in WatchOf(TearingAt(s, c)).tearing;
        assert !(s.at.Some? && s.at.value != OnExit) ==> WatchOf(s.w).up.None?;
        StopsExact(w, e, TearingAt(s, c));
      } else {
        SameCallWatch(w, c, w.calls[c].(grace := Over));
        hide Stales, Tearings, Abortings, Stoppings, Overtakes, Exact, BeginStop, TearingAt;
        Unchanged(w, e, GraceWakes(w, c, alive));
      }
    } else {
      Unchanged(w, e, w);
    }
  }

  lemma GraceStoppedExact(w: World, c: nat, alive: Ffmpeg)
    requires Sound(WatchOf(w))
    ensures Exact(w, GraceStopped(c, alive), GraceEnds(w, c, alive))
  {
    var e := GraceStopped(c, alive);
    NotRisky(w, e);
    if c < |w.calls| && w.calls[c].grace.Tearing? {
      var at := w.calls[c].grace.at;
      StopWatch(w, at, alive);
      StopStops(w, at, alive);
      if w.calls[c].grace.cancelled || at == OnExit {
        CallDone(w, c, at, alive);
        hide GoOn, Dropped, TearingAt, Stales, Tearings, Abortings, Stoppings, Overtakes, Exact;
        Unchanged(w, e, GraceEnds(w, c, alive));
      } else {
        hide GoOn, Dropped, TearingAt, Stales, Tearings, Abortings, Stoppings, Overtakes, Exact;
        var s := GoOn(w, at, alive);
        TearingAtWatch(s, c);
        assert s.at.Some? && s.at.value != OnExit ==> c in WatchOf(TearingAt(s, c)).tearing;
        assert !(s.at.Some? && s.at.value != OnExit) ==> WatchOf(s.w).up.None?;
        StopsExact(w, e, TearingAt(s, c));
      }
    } else {
      Unchanged(w, e, w);
    }
  }

  /** A teardown that was cancelled, or has closed everything, ends without effect on the bridge. */
  lemma CallDone(w: World, c: nat, at: Await, alive: Ffmpeg)
    requires c < |w.calls| && w.calls[c].grace.Tearing? && at == w.calls[c].grace.at
    requires w.calls[c].grace.cancelled || at == OnExit
    ensures WatchOf(GraceEnds(w, c, alive)) == WatchOf(w)
  {
    StopWatch(w, at, alive);
    StopStops(w, at, alive);
    WithCallWatch(w, c, w.calls[c]);
    hide GoOn, Dropped, TearingAt, Stales, Tearings, Abortings, Stoppings;
    assert WatchOf(w).tearing - {c} == WatchOf(w).tearing;
    if w.calls[c].grace.cancelled {
      SameCallWatch(Dropped(w, at), c, w.calls[c].(grace := Over));
    } else {
      TearingAtWatch(Stop(w, None), c);
    }
  }

  lemma SipEndsExact(w: World, c: nat)
    requires Sound(WatchOf(w))
    ensures Exact(w, SipEnds(c), EndDialog(w, c))
  {
    EndDialogWatch(w, c);
    hide Stales, Tearings, Abortings, Stoppings, EndDialog, Exact, Overtakes;
    if EndsActive(w, SipEnds(c)) {
      Ends(w, SipEnds(c), EndDialog(w, c));
    } else {
      NotRisky(w, SipEnds(c));
      Unchanged(w, SipEnds(c), EndDialog(w, c));
    }
  }

  lemma MaxWakesWatch(w: World, c: nat)
    requires c < |w.calls| && w.calls[c].max
    ensures WatchOf(MaxWakes(w, c)) == if w.active == Some(c) && Hangs(w, c) then Terminated(w, c) else WatchOf(w)
  {
    var v := WithCall(w, c, w.calls[c].(max := false));
    SameCallWatch(w, c, w.calls[c].(max := false));
    hide Stales, Tearings, Abortings, Stoppings, Hang;
    if w.active == Some(c) { HangWatch(v, c); }
  }

  lemma MaxFiresExact(w: World, c: nat)
    requires Sound(WatchOf(w))
    ensures Exact(w, MaxFires(c), MaxWakes(w, c))
  {
    if c < |w.calls| && w.calls[c].max {
      MaxWakesWatch(w, c);
      hide WatchOf, MaxWakes, Exact, Terminated, Overtakes;
      if w.active == Some(c) && Hangs(w, c) {
        Ends(w, MaxFires(c), MaxWakes(w, c));
      } else {
        NotRisky(w, MaxFires(c));
        Unchanged(w, MaxFires(c), MaxWakes(w, c));
      }
    } else {
      NotRisky(w, MaxFires(c));
      Unchanged(w, MaxFires(c), w);
    }
  }

  // ---------- connects, aborts and async_stop ----------

  lemma SameWatch(w: World, e: Event, v: World)
    requires Sound(WatchOf(w)) && !Overtakes(w, e)
    requires v.calls == w.calls && v.up == w.up && v.active == w.active && v.aborts == w.aborts && v.stops == w.stops
    ensures Exact(w, e, v)
  {
    hide Stales, Tearings, Abortings, Stoppings;
    assert WatchOf(v) == WatchOf(w);
    Unchanged(w, e, v);
  }

  lemma MarkWatch(w: World, p: nat)
    ensures WatchOf(Rearm(w, p)) == WatchOf(w) == WatchOf(Answer(w, p))
  {
    hide Stales, Tearings, Abortings, Stoppings;
  }

  lemma PlacedWatch(w: World, p: nat, prewarms: bool)
    ensures WatchOf(CallPlaced(w, p, prewarms)) == WatchOf(w).(active := Some(|w.calls|), n := |w.calls| + 1)
  {
    Append(w.calls);
    hide Stales, Tearings, Abortings, Stoppings;
  }

  lemma ConnectedExact(w: World, k: nat, alive: Ffmpeg)
    requires Sound(WatchOf(w)) && k < |w.connects| && w.connects[k].Connecting?
    ensures Exact(w, ConnectDone(k, Connected, alive), ConnectEnds(w, k, Connected, alive))
  {
    var v := w.(connects := w.connects[k := ConnectOver]);
    var p := w.connects[k].invite;
    var prewarms := w.connects[k].video && !Running(w, alive);
    PlacedWatch(v, p, prewarms);
    hide Stales, Tearings, Abortings, Stoppings, Answer, CallPlaced, Running;
    MarkWatch(CallPlaced(v, p, prewarms), p);
    assert WatchOf(v) == WatchOf(w);
    ReplacedExact(w, ConnectDone(k, Connected, alive), ConnectEnds(w, k, Connected, alive));
  }

  lemma ReplacedExact(w: World, e: Event, v: World)
    requires Sound(WatchOf(w)) && e.ConnectDone? && e.how == Connected && e.k < |w.connects| && w.connects[e.k].Connecting?
    requires WatchOf(v) == WatchOf(w).(active := Some(|w.calls|), n := |w.calls| + 1)
    ensures Exact(w, e, v)
  {
    assert WatchOf(w).up == UpCall(w) && WatchOf(w).active == w.active && WatchOf(w).n == |w.calls|;
    hide WatchOf;
  }

  lemma ConnectFails(w: World, k: nat, how: Connect, alive: Ffmpeg)
    requires k < |w.connects| && w.connects[k].Connecting? && how != Connected
    ensures WatchOf(ConnectEnds(w, k, how, alive)) == WatchOf(w)
  {
    var v := w.(connects := w.connects[k := ConnectOver]);
    var p := w.connects[k].invite;
    PlainWatch(v, 0, None, StopCompleted);
    hide Stales, Tearings, Abortings, Stoppings, ClosePending, Rearm;
    MarkWatch(ClosePending(v).(sipId := None), p);
    MarkWatch(ClosePending(v).(sip := None), p);
  }

  lemma ConnectExact(w: World, k: nat, how: Connect, alive: Ffmpeg)
    requires Sound(WatchOf(w))
    ensures Exact(w, ConnectDone(k, how, alive), ConnectEnds(w, k, how, alive))
  {
    var e := ConnectDone(k, how, alive);
    if k < |w.connects| && w.connects[k].Connecting? {
      if how == Connected {
        ConnectedExact(w, k, alive);
        hide Exact;
      } else {
        ConnectFails(w, k, how, alive);
        assert !Overtakes(w, e);
        hide Overtakes, WatchOf, Exact, ConnectEnds;
        Unchanged(w, e, ConnectEnds(w, k, how, alive));
      }
    } else {
      Unchanged(w, e, w);
    }
  }

  lemma CancelTaskUp(w: World, t: nat)
    requires t < |w.calls|
    ensures var v := CancelTask(w, t); v.up == w.up && v.active == w.active && |v.calls| == |w.calls|
    ensures WatchOf(CancelTask(w, t)) == WatchOf(w).(stale := WatchOf(CancelTask(w, t)).stale)
  {
    var r := w.calls[t].(spawn := CancelSpawn(w.calls[t].spawn));
    WithCallWatch(w, t, r);
    assert TearingWill(r) <==> TearingWill(w.calls[t]);
    hide Stales, Tearings, Abortings, Stoppings, TearingWill;
  }

  lemma AbortedWatch(w: World, c: nat)
    requires w.active == Some(c)
    ensures var x, y := WatchOf(w), WatchOf(Aborted(w, c));
      y == x.(tearing := y.tearing) && y.tearing <= x.tearing
  {
    hide CancelMax, CancelGrace, ClosePending, Hang, Stales, Tearings, Abortings, Stoppings;
    MaxWatch(w);
    var u := CancelGrace(CancelMax(w));
    GraceWatch(CancelMax(w));
    HangWatch(u, c);
    PlainWatch(Hang(u, c).(sip := None), c, None, StopCompleted);
  }

  /** The abort is recorded, or has ended. */
  lemma AbortAtWatch(s: Stop, k: nat, c: nat, next: Then)
    requires k < |s.w.aborts|
    ensures var x := WatchOf(s.w); var v := AbortAt(s, k, c, next);
      && v.up == s.w.up
      && WatchOf(v) == x.(active := if s.at.Some? then x.active else None,
                          aborts := if s.at.Some? && s.at.value != OnExit then x.aborts + {k} else x.aborts - {k})
  {
    if s.at.Some? {
      AbortSets(s.w.aborts, AbortAwaitsStop(c, s.at.value, next), k);
      hide Stales, Tearings, Abortings, Stoppings;
    } else {
      AbortSets(s.w.aborts, AbortOver, k);
      hide Stales, Tearings, Abortings, Stoppings, CallEnded, Continue;
      var x := s.w.(active := None, aborts := s.w.aborts[k := AbortOver]);
      CallEndedWatch(x, c);
      ContinueWatch(CallEnded(x, c), next);
    }
  }

  lemma ContinueWatch(w: World, next: Then)
    ensures WatchOf(Continue(w, next)) == WatchOf(w) && Continue(w, next).up == w.up
  {
    hide Stales, Tearings, Abortings, Stoppings;
  }

  /** An abort begins or goes on with a stop() that has closed the bridge, or will. */
  lemma AbortStopsExact(w: World, e: Event, s: Stop, k: nat, c: nat, next: Then)
    requires Sound(WatchOf(w)) && Sound(WatchOf(s.w)) && !Overtakes(w, e) && k < |s.w.aborts|
    requires !(s.at.Some? && s.at.value != OnExit) ==> s.w.up.None?
    ensures Exact(w, e, AbortAt(s, k, c, next))
  {
    AbortAtWatch(s, k, c, next);
    hide AbortAt, Stales, Tearings, Abortings, Stoppings, Overtakes, Exact;
    var v := AbortAt(s, k, c, next);
    assert s.at.Some? && s.at.value != OnExit ==> k in WatchOf(v).aborts;
    StopsExact(w, e, v);
  }

  /** The abort waits for the startup it has cancelled. */
  lemma AbortWaitsExact(w: World, e: Event, next: Then, alive: Ffmpeg)
    requires Sound(WatchOf(w)) && w.active.Some? && (e.Push? || e.CancelPush?) && AwaitsSpawn(w)
    requires Sound(WatchOf(Aborted(w, w.active.value))) && !Overtakes(w, e)
    ensures Exact(w, e, AbortBegins(w, next, alive))
  {
    var c := w.active.value;
    AbortShape(w, next, alive);
    hide Aborted, Stales, Tearings, Abortings, Stoppings, CancelTask, Overtakes, Exact, ReturnsAtOnce;
    var v := Aborted(w, c);
    var u := v.(spawnTask := None, aborts := v.aborts + [AbortOver]);
    AbortSets(v.aborts, AbortOver, 0);
    assert WatchOf(u) == WatchOf(v);
    var b := AbortBegins(w, next, alive);
    CancelTaskUp(u, v.spawnTask.value);
    AbortSets(v.aborts, AbortAwaitsSpawn(c, v.spawnTask.value, next), 0);
    assert |v.aborts| in WatchOf(b).aborts;
    assert WatchOf(b) == WatchOf(u).(stale := WatchOf(b).stale, aborts := WatchOf(b).aborts);
    hide AbortBegins;
    StopsExact(w, e, b);
  }

  lemma AbortBeginsExact(w: World, e: Event, next: Then, alive: Ffmpeg)
    requires Sound(WatchOf(w)) && w.active.Some? && (e.Push? || e.CancelPush?)
    ensures Exact(w, e, AbortBegins(w, next, alive))
  {
    var c := w.active.value;
    NotRisky(w, e);
    AbortedWatch(w, c);
    AbortShape(w, next, alive);
    hide Aborted, Stales, Tearings, Abortings, Stoppings, CancelTask, BeginStop, AbortAt, Overtakes, Exact, ReturnsAtOnce;
    var v := Aborted(w, c);
    var u := v.(spawnTask := None, aborts := v.aborts + [AbortOver]);
    assert Sound(WatchOf(v)) by { SoundLess(WatchOf(w), WatchOf(v)); }
    if AwaitsSpawn(w) {
      hide Sound, WatchOf;
      AbortWaitsExact(w, e, next, alive);
    } else {
      AbortSets(v.aborts, AbortOver, 0);
      assert WatchOf(u) == WatchOf(v);
      hide Sound;
      StopStaysSound(u, alive);
      StopUp(u, OnExit, alive);
      hide WatchOf, AbortBegins;
      AbortStopsExact(w, e, BeginStop(u, alive), |v.aborts|, c, next);
    }
  }

  lemma StopStaysSound(w: World, alive: Ffmpeg)
    requires Sound(WatchOf(w))
    ensures Sound(WatchOf(BeginStop(w, alive).w))
  {
    StopWatch(w, OnExit, alive);
    hide BeginStop, Stales, Tearings, Abortings, Stoppings;
  }

  lemma SoundLess(x: Watch, y: Watch)
    requires Sound(x) && y == x.(tearing := y.tearing) && y.tearing <= x.tearing
    ensures Sound(y)
  {}

  lemma StopUp(w: World, at: Await, alive: Ffmpeg)
    ensures var s := BeginStop(w, alive); !(s.at.Some? && s.at.value != OnExit) ==> s.w.up.None?
    ensures var s := GoOn(w, at, alive); at != OnExit && !(s.at.Some? && s.at.value != OnExit) ==> s.w.up.None?
    ensures BeginStop(w, alive).w.aborts == w.aborts == GoOn(w, at, alive).w.aborts
    ensures BeginStop(w, alive).w.stops == w.stops == GoOn(w, at, alive).w.stops
  {}

  lemma AbortResumesExact(w: World, k: nat, alive: Ffmpeg)
    requires Sound(WatchOf(w))
    ensures Exact(w, AbortResumes(k, alive), AbortGoesOn(w, k, alive))
  {
    var e := AbortResumes(k, alive);
    NotRisky(w, e);
    StopWatch(w, OnExit, alive);
    StopUp(w, OnExit, alive);
    hide Stales, Tearings, Abortings, Stoppings, SpawnDone, BeginStop, AbortAt, Overtakes, Exact;
    if k < |w.aborts| && w.aborts[k].AbortAwaitsSpawn? && SpawnDone(w, w.aborts[k].task) {
      AbortStopsExact(w, e, BeginStop(w, alive), k, w.aborts[k].call, w.aborts[k].next);
    } else {
      Unchanged(w, e, w);
    }
  }

  lemma AbortStoppedExact(w: World, k: nat, alive: Ffmpeg)
    requires Sound(WatchOf(w))
    ensures Exact(w, AbortStopped(k, alive), AbortEnds(w, k, alive))
  {
    var e := AbortStopped(k, alive);
    if k < |w.aborts| && w.aborts[k].AbortAwaitsStop? {
      var at := w.aborts[k].at;
      StopWatch(w, at, alive);
      StopUp(w, at, alive);
      if at == OnExit {
        AbortForgot(w, e, k, alive);
        hide Exact;
      } else {
        assert !Overtakes(w, e);
        hide Stales, Tearings, Abortings, Stoppings, GoOn, AbortAt, Overtakes, Exact;
        AbortStopsExact(w, e, GoOn(w, at, alive), k, w.aborts[k].call, w.aborts[k].next);
      }
    } else {
      Unchanged(w, e, w);
    }
  }

  lemma AbortForgot(w: World, e: Event, k: nat, alive: Ffmpeg)
    requires Sound(WatchOf(w)) && e == AbortStopped(k, alive) && k < |w.aborts|
    requires w.aborts[k].AbortAwaitsStop? && w.aborts[k].at == OnExit
    ensures Exact(w, e, AbortEnds(w, k, alive))
  {
    var v := AbortAt(Stop(w, None), k, w.aborts[k].call, w.aborts[k].next);
    AbortAtWatch(Stop(w, None), k, w.aborts[k].call, w.aborts[k].next);
    AbortSets(w.aborts, AbortOver, k);
    assert WatchOf(w).aborts - {k} == WatchOf(w).aborts;
    assert WatchOf(v) == WatchOf(w).(active := None);
    assert WatchOf(w).up == UpCall(w) && WatchOf(w).active == w.active;
    hide WatchOf, AbortAt;
  }

  /** `async_stop` is recorded, or has ended: then it has also cancelled the teardown in `_grace_task`. */
  lemma StopAtWatch(s: Stop, k: nat)
    requires k < |s.w.stops|
    ensures var x := WatchOf(s.w); var v := StopAt(s, k);
      && v.up == s.w.up
      && WatchOf(v) == if s.at.Some? then x.(stops := if s.at.value != OnExit then x.stops + {k} else x.stops - {k})
                       else x.(active := None, stops := x.stops - {k}, tearing := x.tearing - GraceOf(s.w))
  {
    if s.at.Some? {
      StopSets(s.w.stops, StopAwaitsBridge(s.at.value), k);
      hide Stales, Tearings, Abortings, Stoppings;
    } else {
      StopSets(s.w.stops, StopOver, k);
      hide Stales, Tearings, Abortings, Stoppings, CancelMax, CancelGrace, ClosePending;
      var v := s.w.(sip := None, active := None, stops := s.w.stops[k := StopOver]);
      MaxWatch(v);
      GraceWatch(CancelMax(v));
      PlainWatch(CancelGrace(CancelMax(v)), 0, None, StopCompleted);
      MaxTidies(v);
      GraceTidies(CancelMax(v));
      PendingTidies(CancelGrace(CancelMax(v)));
      UpKept(v);
    }
  }

  lemma UpKept(v: World)
    ensures ClosePending(CancelGrace(CancelMax(v))).up == v.up
  {
    hide CancelMax, CancelGrace, ClosePending;
    MaxTidies(v);
    GraceTidies(CancelMax(v));
    PendingTidies(CancelGrace(CancelMax(v)));
  }

  lemma StopStopsExact(w: World, e: Event, s: Stop, k: nat)
    requires Sound(WatchOf(w)) && Sound(WatchOf(s.w)) && !Overtakes(w, e) && k < |s.w.stops|
    requires !(s.at.Some? && s.at.value != OnExit) ==> s.w.up.None?
    ensures Exact(w, e, StopAt(s, k))
  {
    StopAtWatch(s, k);
    hide StopAt, Stales, Tearings, Abortings, Stoppings, Overtakes, Exact;
    var v := StopAt(s, k);
    assert s.at.Some? && s.at.value != OnExit ==> k in WatchOf(v).stops;
    StopsExact(w, e, v);
  }

  lemma StopBeginsExact(w: World, alive: Ffmpeg)
    requires Sound(WatchOf(w))
    ensures Exact(w, StopBegins(alive), StopBeginning(w, alive))
  {
    var e := StopBegins(alive);
    NotRisky(w, e);
    var u := w.(spawnTask := None, stops := w.stops + [StopOver]);
    StopSets(w.stops, StopOver, 0);
    hide Stales, Tearings, Abortings, Stoppings, CancelTask, BeginStop, StopAt, Overtakes, Exact;
    assert WatchOf(u) == WatchOf(w);
    if AwaitsSpawn(w) {
      var v := StopBeginning(w, alive);
      CancelTaskUp(u, w.spawnTask.value);
      StopSets(w.stops, StopAwaitsSpawn(w.spawnTask.value), 0);
      assert |w.stops| in WatchOf(v).stops;
      assert WatchOf(v) == WatchOf(u).(stale := WatchOf(v).stale, stops := WatchOf(v).stops);
      hide StopBeginning;
      StopsExact(w, e, v);
    } else {
      StopWatch(u, OnExit, alive);
      StopUp(u, OnExit, alive);
      StopStopsExact(w, e, BeginStop(u, alive), |w.stops|);
    }
  }

  lemma StopResumesExact(w: World, k: nat, alive: Ffmpeg)
    requires Sound(WatchOf(w))
    ensures Exact(w, StopResumes(k, alive), StopGoesOn(w, k, alive))
  {
    var e := StopResumes(k, alive);
    NotRisky(w, e);
    StopWatch(w, OnExit, alive);
    StopUp(w, OnExit, alive);
    hide Stales, Tearings, Abortings, Stoppings, SpawnDone, BeginStop, StopAt, Overtakes, Exact;
    if k < |w.stops| && w.stops[k].StopAwaitsSpawn? && SpawnDone(w, w.stops[k].task) {
      StopStopsExact(w, e, BeginStop(w, alive), k);
    } else {
      Unchanged(w, e, w);
    }
  }

  lemma StopStoppedExact(w: World, k: nat, alive: Ffmpeg)
    requires Sound(WatchOf(w))
    ensures Exact(w, StopStopped(k, alive), StopEnds(w, k, alive))
  {
    var e := StopStopped(k, alive);
    if k < |w.stops| && w.stops[k].StopAwaitsBridge? {
      var at := w.stops[k].at;
      StopWatch(w, at, alive);
      StopUp(w, at, alive);
      if at == OnExit {
        StopForgot(w, e, k, alive);
        hide Exact;
      } else {
        assert !Overtakes(w, e);
        hide Stales, Tearings, Abortings, Stoppings, GoOn, StopAt, Overtakes, Exact;
        StopStopsExact(w, e, GoOn(w, at, alive), k);
      }
    } else {
      Unchanged(w, e, w);
    }
  }

  lemma StopForgot(w: World, e: Event, k: nat, alive: Ffmpeg)
    requires Sound(WatchOf(w)) && e == StopStopped(k, alive) && k < |w.stops| && w.stops[k] == StopAwaitsBridge(OnExit)
    ensures Exact(w, e, StopEnds(w, k, alive))
  {
    var v := StopAt(Stop(w, None), k);
    StopAtWatch(Stop(w, None), k);
    StopSets(w.stops, StopOver, k);
    assert WatchOf(w).stops - {k} == WatchOf(w).stops;
    assert WatchOf(v) == WatchOf(w).(active := None, tearing := WatchOf(w).tearing - GraceOf(w));
    assert WatchOf(w).up == UpCall(w) && WatchOf(w).active == w.active;
    hide WatchOf, StopAt, GraceOf;
    assert WatchOf(v).tearing == {} <==> WatchOf(w).tearing <= GraceOf(w);
  }

  lemma PushExact(w: World, e: Event)
    requires Sound(WatchOf(w)) && (e.Push? || e.CancelPush?)
    ensures Exact(w, e, Next(w, e))
  {
    var k := if e.Push? then NewRing(e.creds) else CancelRing;
    hide AbortBegins, Stales, Tearings, Abortings, Stoppings, Exact;
    if w.active.Some? {
      AbortBeginsExact(w, e, k, e.alive);
    } else {
      NotRisky(w, e);
      assert Next(w, e) == Continue(w, k);
      ContinueWatch(w, k);
      hide Next, Continue;
      Unchanged(w, e, Next(w, e));
    }
  }

  lemma PlainExact(w: World, e: Event)
    requires Sound(WatchOf(w)) && (e.Tap? || e.CleanupDone?)
    ensures Exact(w, e, Next(w, e))
  {
    NotRisky(w, e);
    var v := Next(w, e);
    assert v.calls == w.calls && v.up == w.up && v.active == w.active && v.aborts == w.aborts && v.stops == w.stops;
    hide Next, Exact, WatchOf, Overtakes;
    SameWatch(w, e, v);
  }

  lemma NextExact(w: World, e: Event)
    requires Sound(WatchOf(w)) && ToldFirst(w)
    ensures Exact(w, e, Next(w, e))
  {
    hide Sound, Exact, WatchOf, ToldFirst, AbortBegins, TapBegins, ConnectEnds, HandleEstablished, EndDialog, SpawnBegins,
         SpawnEnds, StaleEnds, GraceEnds, GraceWakes, MaxWakes, AbortGoesOn, AbortEnds, StopBeginning, StopGoesOn, StopEnds;
    match e {
      case Push(_, _) => PushExact(w, e);
      case CancelPush(_) => PushExact(w, e);
      case Tap(_) => PlainExact(w, e);
      case CleanupDone => PlainExact(w, e);
      case ConnectDone(k, how, alive) => ConnectExact(w, k, how, alive);
      case Established(c) => EstablishedExact(w, c);
      case SipEnds(c) => SipEndsExact(w, c);
      case SpawnRuns(c, video, alive) => SpawnRunsExact(w, c, video, alive);
      case SpawnResumes(c, end, over, alive) => SpawnResumesExact(w, c, end, over, alive);
      case StaleStopped(c, alive) => StaleExact(w, c, alive);
      case GraceFires(c, alive) => GraceFiresExact(w, c, alive);
      case GraceStopped(c, alive) => GraceStoppedExact(w, c, alive);
      case MaxFires(c) => MaxFiresExact(w, c);
      case AbortResumes(k, alive) => AbortResumesExact(w, k, alive);
      case AbortStopped(k, alive) => AbortStoppedExact(w, k, alive);
      case StopBegins(alive) => StopBeginsExact(w, alive);
      case StopResumes(k, alive) => StopResumesExact(w, k, alive);
      case StopStopped(k, alive) => StopStoppedExact(w, k, alive);
    }
  }

  // ---------- every run ----------

  lemma {:induction false} RunsAreSound(ws: seq<World>, es: seq<Event>, i: nat)
    requires Run(ws, es) && i <= |es|
    ensures Sound(WatchOf(ws[i]))
  {
    if i == 0 {
      assert WatchOf(START) == Watch(None, None, 0, {}, {}, {}, {});
    } else {
      RunsAreSound(ws, es, i - 1);
      RunsTold(ws, es, i - 1);
      assert ws[i] == Next(ws[i - 1], es[i - 1]);
      hide Next, Sound, WatchOf, Overtakes, Unattended, Run, ToldFirst;
      NextExact(ws[i - 1], es[i - 1]);
    }
  }

  /** MAIN RESULT: in every interleaving, a step leaves the bridge up for a call that is not active,
      with no task whose `stop()` will still close it, exactly if a second connect replaces the call
      whose bridge is up; the end of the active call cancels the teardown that would have closed the
      bridge of an earlier one; or an abort or `async_stop` ends whose own `stop()` had closed an
      earlier pipeline, and the bridge that came up meanwhile is left to nobody. */
  lemma AttendanceIsLostExactly(ws: seq<World>, es: seq<Event>, i: nat)
    requires Run(ws, es) && i < |es| && !Unattended(WatchOf(ws[i]))
    ensures Unattended(WatchOf(ws[i + 1])) <==> Overtakes(ws[i], es[i])
  {
    RunsAreSound(ws, es, i);
    RunsTold(ws, es, i);
    assert ws[i + 1] == Next(ws[i], es[i]);
    hide Next, Sound, WatchOf, Overtakes, Unattended, Run, ToldFirst;
    NextExact(ws[i], es[i]);
  }

  lemma StartIsAttended()
    ensures !Unattended(WatchOf(START))
  {
    assert UpCall(START).None?;
  }

  /** MAIN RESULT: so, in every interleaving without those, a bridge that is up for a call that is not
      active always has a `stop()` on its way that will still close it: of its own startup, of a
      teardown after the grace window, of an abort or of `async_stop`. */
  lemma {:induction false} StaleBridgeIsStopped(ws: seq<World>, es: seq<Event>, n: nat)
    requires Run(ws, es) && n <= |es| && forall i :: 0 <= i < n ==> !Overtakes(ws[i], es[i])
    ensures !Unattended(WatchOf(ws[n]))
  {
    hide Next, WatchOf, Overtakes, Unattended;
    if n == 0 {
      StartIsAttended();
    } else {
      hide Run;
      StaleBridgeIsStopped(ws, es, n - 1);
      AttendanceIsLostExactly(ws, es, n - 1);
    }
  }
}
