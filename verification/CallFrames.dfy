/** What the smaller steps of the call flow leave alone. */
module CallFrames {
  import opened Basics
  import opened CallFlow

  /** The startup stays where it is, and no dialog and no teardown begins. */
  predicate Calmer(r: Call, q: Call)
  {
    q.spawn == r.spawn && q.told == r.told && (q.live ==> r.live) && (q.grace.Tearing? ==> r.grace.Tearing?)
  }

  predicate SameSpawns(a: seq<Call>, b: seq<Call>)
  {
    |a| == |b| && forall c :: 0 <= c < |a| ==> Calmer(a[c], b[c])
  }

  lemma {:induction false} SameStarting(a: seq<Call>, b: seq<Call>)
    requires SameSpawns(a, b)
    ensures Starting(a) == Starting(b)
    decreases |a|
  {
    if a != [] { SameStarting(a[..|a| - 1], b[..|b| - 1]); }
  }

  /** Timers, dialogs, pending sockets and the prewarm are tidied up; nothing else is touched. */
  predicate Tidied(w: World, v: World)
  {
    && v == w.(calls := v.calls, sip := v.sip, maxTask := v.maxTask, graceTask := v.graceTask, pendAudio := v.pendAudio,
               pendVideo := v.pendVideo, open := v.open, prewarm := v.prewarm, cleaning := v.cleaning, notes := v.notes)
    && SameSpawns(w.calls, v.calls) && (v.prewarm || v.cleaning <==> w.prewarm || w.cleaning)
  }

  lemma TidiedThrough(u: World, v: World, w: World)
    requires Tidied(u, v) && Tidied(v, w)
    ensures Tidied(u, w)
  {}

  lemma UpdateSpawns(a: seq<Call>, c: nat, r: Call)
    requires c < |a| && Calmer(a[c], r)
    ensures SameSpawns(a, a[c := r])
  {}

  lemma TidiedCall(w: World, c: nat, r: Call)
    requires c < |w.calls| && Calmer(w.calls[c], r)
    ensures Tidied(w, WithCall(w, c, r))
  {
    UpdateSpawns(w.calls, c, r);
    hide SameSpawns;
  }

  lemma SelfTidied(w: World)
    ensures Tidied(w, w) && Tidied(w, w.(maxTask := None)) && Tidied(w, w.(graceTask := None)) && Tidied(w, w.(sip := None))
  {}

  lemma MaxTidies(w: World)
    ensures Tidied(w, CancelMax(w)) && CancelMax(w).graceTask == w.graceTask
  {
    SelfTidied(w);
    if w.maxTask.Some? && w.maxTask.value < |w.calls| {
      var t := w.maxTask.value;
      TidiedCall(w, t, w.calls[t].(max := false));
      SelfTidied(WithCall(w, t, w.calls[t].(max := false)));
      hide Tidied;
      TidiedThrough(w, WithCall(w, t, w.calls[t].(max := false)), CancelMax(w));
    }
  }

  lemma GraceTidies(w: World)
    ensures Tidied(w, CancelGrace(w))
  {
    SelfTidied(w);
    if w.graceTask.Some? && w.graceTask.value < |w.calls| {
      var t := w.graceTask.value;
      var r := w.calls[t].(grace := CancelledGrace(w.calls[t].grace));
      TidiedCall(w, t, r);
      SelfTidied(WithCall(w, t, r));
      hide Tidied;
      TidiedThrough(w, WithCall(w, t, r), CancelGrace(w));
    }
  }

  lemma PendingTidies(w: World)
    ensures Tidied(w, ClosePending(w)) && Tidied(w, CancelPrewarm(w)) && Tidied(w, ClosePending(w).(sip := None))
  {}

  lemma TerminatedTidies(w: World, c: nat)
    ensures Tidied(w, HandleTerminated(w, c))
  {
    hide Tidied, CancelMax, CancelGrace, ClosePending, CancelPrewarm;
    SelfTidied(w);
    if w.active == Some(c) && c < |w.calls| {
      var a := CancelMax(w);
      var b := CancelPrewarm(a);
      var d := ClosePending(b).(sip := None);
      var e := CancelGrace(d);
      MaxTidies(w);
      PendingTidies(a);
      PendingTidies(b);
      GraceTidies(d);
      TidiedThrough(w, a, b);
      TidiedThrough(w, b, d);
      TidiedThrough(w, d, e);
      SleepTidies(w, e, c);
    }
  }

  lemma SleepTidies(w: World, e: World, c: nat)
    requires Tidied(w, e) && c < |w.calls|
    ensures c < |e.calls| && Tidied(w, WithCall(e, c, e.calls[c].(grace := Sleeping)).(graceTask := Some(c)))
  {
    UpdateSpawns(e.calls, c, e.calls[c].(grace := Sleeping));
  }

  lemma EndDialogTidies(w: World, c: nat)
    ensures Tidied(w, EndDialog(w, c))
  {
    hide HandleTerminated;
    SelfTidied(w);
    if c < |w.calls| && w.calls[c].live {
      var v := WithCall(w, c, w.calls[c].(live := false));
      TidiedCall(w, c, w.calls[c].(live := false));
      hide Tidied;
      TerminatedTidies(v, c);
      TidiedThrough(w, v, HandleTerminated(v, c));
    }
  }

  lemma HangTidies(w: World, c: nat)
    ensures Tidied(w, Hang(w, c))
  {
    hide EndDialog;
    SelfTidied(w);
    NoteTidies(w, HungUp(c));
    hide Tidied;
    EndDialogTidies(Noted(w, HungUp(c)), c);
    TidiedThrough(w, Noted(w, HungUp(c)), EndDialog(Noted(w, HungUp(c)), c));
  }

  lemma NoteTidies(w: World, n: Note)
    ensures Tidied(w, Noted(w, n))
  {}

  lemma AbortedTidies(w: World, c: nat)
    ensures Tidied(w, Aborted(w, c))
  {
    hide Tidied, CancelMax, CancelGrace, ClosePending, Hang;
    var a := CancelMax(w);
    var b := CancelGrace(a);
    var d := Hang(b, c);
    MaxTidies(w);
    GraceTidies(a);
    HangTidies(b, c);
    SelfTidied(d);
    PendingTidies(d.(sip := None));
    TidiedThrough(w, a, b);
    TidiedThrough(w, b, d);
    TidiedThrough(w, d, d.(sip := None));
    TidiedThrough(w, d.(sip := None), Aborted(w, c));
  }

  /** A `bridge.stop()` touches only the bridge and its sockets. */
  predicate Stopped(w: World, v: World)
  {
    v == w.(generation := v.generation, up := v.up, open := v.open, prewarm := v.prewarm, cleaning := v.cleaning)
  }

  lemma StopStops(w: World, at: Await, alive: Ffmpeg)
    ensures Stopped(w, BeginStop(w, alive).w) && Stopped(w, GoOn(w, at, alive).w) && Stopped(w, Dropped(w, at))
  {}

  /** A `stop()` that begins here returns at once. */
  predicate ReturnsAtOnce(w: World, alive: Ffmpeg) { !w.prewarm && !w.cleaning && !Running(w, alive) }

  lemma BeginReturns(w: World, alive: Ffmpeg)
    ensures BeginStop(w, alive).at.None? <==> ReturnsAtOnce(w, alive)
  {}

  /** A suspended `stop()` goes on and returns. */
  predicate Returns(w: World, at: Await, alive: Ffmpeg)
  {
    match at
    case OnPrewarm => !alive.parked && !w.cleaning && !Running(w, alive)
    case OnDiscard => !w.cleaning && !Running(w, alive)
    case OnCleanup => !Running(w, alive)
    case OnExit => true
  }

  lemma GoOnReturns(w: World, at: Await, alive: Ffmpeg)
    ensures GoOn(w, at, alive).at.None? <==> Returns(w, at, alive)
  {}

  /** An abort that begins here runs to its end without an await. */
  predicate AbortsAtOnce(w: World, alive: Ffmpeg) { w.active.Some? && !AwaitsSpawn(w) && ReturnsAtOnce(w, alive) }

  lemma TidiedReturns(w: World, v: World, alive: Ffmpeg)
    requires Tidied(w, v)
    ensures (AwaitsSpawn(w) <==> AwaitsSpawn(v)) && (ReturnsAtOnce(w, alive) <==> ReturnsAtOnce(v, alive))
  {
    SameStarting(w.calls, v.calls);
  }

  /** An abort, in terms of what it first tidies up. */
  lemma AbortShape(w: World, next: Then, alive: Ffmpeg)
    requires w.active.Some?
    ensures var c := w.active.value; var v := Aborted(w, c); var k := |v.aborts|;
      var u := v.(spawnTask := None, aborts := v.aborts + [AbortOver]);
      && Tidied(w, v) && (AwaitsSpawn(v) <==> AwaitsSpawn(w)) && k == |w.aborts|
      && (!AwaitsSpawn(w) ==>
            && (BeginStop(u, alive).at.None? <==> ReturnsAtOnce(w, alive))
            && BeginStop(u, alive).w.aborts == v.aborts + [AbortOver]
            && AbortBegins(w, next, alive) == AbortAt(BeginStop(u, alive), k, c, next))
  {
    var c := w.active.value;
    AbortedTidies(w, c);
    hide Aborted, AbortAt, BeginStop;
    var v := Aborted(w, c);
    var u := v.(spawnTask := None, aborts := v.aborts + [AbortOver]);
    TidiedReturns(w, v, alive);
    BeginReturns(u, alive);
    StopStops(u, OnExit, alive);
  }

  /** The dialog of the active call has ended. */
  lemma EndDialogFacts(w: World, c: nat)
    requires w.active == Some(c) && c < |w.calls| && w.calls[c].live
    ensures var v := EndDialog(w, c);
      && Tidied(w, v) && !v.calls[c].live && v.calls[c].grace == Sleeping && v.sip.None? && v.pendAudio.None? && v.pendVideo == {}
  {
    EndDialogTidies(w, c);
    var x := WithCall(w, c, w.calls[c].(live := false));
    TidiedCall(w, c, w.calls[c].(live := false));
    var y := ClosePending(CancelPrewarm(CancelMax(x))).(sip := None);
    SleepFacts(x, y, c);
  }

  lemma SleepFacts(x: World, y: World, c: nat)
    requires c < |x.calls| && !x.calls[c].live && y == ClosePending(CancelPrewarm(CancelMax(x))).(sip := None)
    ensures var z := CancelGrace(y);
      && c < |z.calls| && !z.calls[c].live && z.sip.None? && z.pendAudio.None? && z.pendVideo == {}
  {
    hide CancelMax, CancelGrace, Tidied;
    var a := CancelMax(x);
    MaxTidies(x);
    TidiedLive(x, a, c);
    assert y.calls == a.calls;
    GraceTidies(y);
    TidiedLive(y, CancelGrace(y), c);
    TidiedPending(y);
  }

  lemma TidiedLive(w: World, v: World, c: nat)
    requires Tidied(w, v) && c < |w.calls| && !w.calls[c].live
    ensures c < |v.calls| && !v.calls[c].live
  {}

  lemma TidiedPending(w: World)
    ensures var v := CancelGrace(w); v.sip == w.sip && v.pendAudio == w.pendAudio && v.pendVideo == w.pendVideo
  {}

  /** An abort has hung up, and dropped the client and the pending sockets. */
  lemma AbortedFacts(w: World, c: nat)
    requires w.active == Some(c) && c < |w.calls| && (w.calls[c].live ==> w.sip == Some(c)) && !w.calls[c].grace.Tearing?
    ensures var v := Aborted(w, c);
      && Tidied(w, v) && c < |v.calls| && !v.calls[c].live && !v.calls[c].grace.Tearing?
      && v.sip.None? && v.pendAudio.None? && v.pendVideo == {}
  {
    AbortedTidies(w, c);
    var a := CancelMax(w);
    var b := CancelGrace(a);
    MaxTidies(w);
    GraceTidies(a);
    TidiedThrough(w, a, b);
    assert b.sip == w.sip by { SipKept(w); }
    hide Aborted, CancelMax, CancelGrace;
    assert b.active == w.active && Calmer(w.calls[c], b.calls[c]) && Calmer(w.calls[c], Aborted(w, c).calls[c]);
    hide Tidied;
    HangFacts(b, c);
    AbortedIs(w, c);
    assert ClosePending(Hang(b, c).(sip := None)).calls == Hang(b, c).calls;
  }

  lemma AbortedIs(w: World, c: nat)
    ensures Aborted(w, c) == ClosePending(Hang(CancelGrace(CancelMax(w)), c).(sip := None))
  {
    hide CancelMax, CancelGrace, ClosePending, Hang;
  }

  lemma SipKept(w: World)
    ensures CancelGrace(CancelMax(w)).sip == w.sip
  {}

  lemma HangFacts(w: World, c: nat)
    requires w.active == Some(c) && c < |w.calls| && (w.calls[c].live ==> w.sip == Some(c))
    ensures c < |Hang(w, c).calls| && !Hang(w, c).calls[c].live
  {
    hide EndDialog;
    if w.calls[c].live { EndDialogFacts(Noted(w, HungUp(c)), c); }
  }

  // ---------- a startup belongs to a call that was established ----------

  predicate ToldFirst(w: World) { forall c :: 0 <= c < |w.calls| && !w.calls[c].told ==> w.calls[c].spawn == NoSpawn }

  predicate Told(w: World, c: nat) { c < |w.calls| ==> w.calls[c].told }

  lemma TidiedTold(w: World, v: World, c: nat)
    requires ToldFirst(w) && SameSpawns(w.calls, v.calls)
    ensures ToldFirst(v) && (Told(w, c) ==> Told(v, c))
  {
    forall b | 0 <= b < |v.calls| && !v.calls[b].told ensures v.calls[b].spawn == NoSpawn { assert Calmer(w.calls[b], v.calls[b]); }
    if c < |w.calls| { assert Calmer(w.calls[c], v.calls[c]); }
  }

  lemma HasSpawnTold(w: World, c: nat)
    requires ToldFirst(w) && c < |w.calls| && w.calls[c].spawn != NoSpawn
    ensures Told(w, c)
  {}

  lemma SpawnTold(w: World, c: nat, r: Call)
    requires ToldFirst(w) && c < |w.calls| && (r.told || r.spawn == NoSpawn)
    ensures ToldFirst(WithCall(w, c, r))
  {}

  lemma EndSpawnTold(w: World, c: nat)
    requires ToldFirst(w) && Told(w, c)
    ensures ToldFirst(EndSpawn(w, c))
  {
    if c < |w.calls| { SpawnTold(w, c, w.calls[c].(spawn := Gone)); }
  }

  lemma SameCallsTold(w: World, v: World)
    requires ToldFirst(w) && v.calls == w.calls
    ensures ToldFirst(v)
  {}

  lemma PublishTold(w: World, c: nat, pipeline: nat, alive: Ffmpeg)
    requires ToldFirst(w) && Told(w, c)
    ensures ToldFirst(Publish(w, c, pipeline, alive))
  {
    hide BeginStop, SetUrl;
    var b := BeginStop(w, alive);
    StopStops(w, OnExit, alive);
    StaleAtTold(b, c);
    var x := SetUrl(Noted(w, Active(c)), c, Some(pipeline));
    assert x.calls == w.calls by { UrlCalls(Noted(w, Active(c)), c, Some(pipeline)); }
    EndSpawnTold(x, c);
    hide EndSpawn, StaleAt;
  }

  lemma UrlCalls(w: World, c: nat, url: Option<nat>)
    ensures SetUrl(w, c, url).calls == w.calls
  {}

  lemma StaleAtTold(s: Stop, c: nat)
    requires ToldFirst(s.w) && Told(s.w, c)
    ensures ToldFirst(StaleAt(s, c))
  {
    EndSpawnTold(s.w, c);
    hide EndSpawn;
    if s.at.Some? && c < |s.w.calls| { SpawnTold(s.w, c, s.w.calls[c].(spawn := Stale(s.at.value, false))); }
  }

  lemma HangEndTold(w: World, v: World, c: nat)
    requires ToldFirst(w) && Told(w, c) && v.calls == w.calls
    ensures ToldFirst(EndSpawn(Hang(v, c), c))
  {
    hide Hang, EndSpawn;
    HangTidies(v, c);
    TidiedTold(v, Hang(v, c), c);
    EndSpawnTold(Hang(v, c), c);
  }

  lemma SpawnRunsTold(w: World, c: nat, video: bool, alive: Ffmpeg)
    requires ToldFirst(w)
    ensures ToldFirst(SpawnBegins(w, c, video, alive))
  {
    hide ToldFirst, Told, EndSpawn, Hang, Publish, Running, Runner, Taken, Used;
    if c < |w.calls| && w.calls[c].spawn.Scheduled? {
      HasSpawnTold(w, c);
      EndSpawnTold(w, c);
      HangEndTold(w, CloseSocks(w, w.pendVideo).(pendVideo := {}), c);
      if w.pendAudio.Some? {
        TakenSpawns(w, video);
        SameCallsTold(w, Taken(w, video));
        TidiedToldSame(w, Taken(w, video), c);
        if Running(w, alive) {
          RunningMeans(w, alive);
          PublishTold(Taken(w, video), c, Runner(w), alive);
        } else {
          var r := w.calls[c].(spawn := InStart(Used(w, video), w.generation, w.prewarm, false));
          ToldMeans(w, c);
          SameCallsTold(w, Taken(w, video).(prewarm := false));
          SpawnTold(Taken(w, video).(prewarm := false), c, r);
        }
      }
    }
  }

  lemma ToldMeans(w: World, c: nat)
    requires Told(w, c) && c < |w.calls|
    ensures w.calls[c].told
  {}

  lemma TidiedToldSame(w: World, v: World, c: nat)
    requires Told(w, c) && v.calls == w.calls
    ensures Told(v, c)
  {}

  lemma TakenSpawns(w: World, video: bool)
    requires w.pendAudio.Some?
    ensures Taken(w, video).calls == w.calls
  {}

  lemma SpawnResumesTold(w: World, c: nat, end: StartEnd, over: set<nat>, alive: Ffmpeg)
    requires ToldFirst(w)
    ensures ToldFirst(SpawnEnds(w, c, end, over, alive))
  {
    if c < |w.calls| && w.calls[c].spawn.InStart? {
      var s := w.calls[c].spawn;
      var u := Unwound(w, s.socks, over);
      var x := w.(up := Some(Up(c, s.socks + (UpSocks(w) - over))));
      var d := u.(prewarm := w.prewarm || (end.InPrewarm? && s.prewarmed));
      HasSpawnTold(w, c);
      assert u.calls == w.calls && d.calls == w.calls && x.calls == w.calls;
      hide EndSpawn, Hang, Publish, Unwound;
      EndSpawnTold(d, c);
      EndSpawnTold(u, c);
      HangEndTold(w, w, c);
      HangEndTold(w, u, c);
      PublishTold(x, c, c, alive);
    }
  }

  lemma StaleTold(w: World, c: nat, alive: Ffmpeg)
    requires ToldFirst(w)
    ensures ToldFirst(StaleEnds(w, c, alive))
  {
    hide GoOn, Dropped, EndSpawn, StaleAt;
    if c < |w.calls| && w.calls[c].spawn.Stale? {
      var at := w.calls[c].spawn.at;
      StopStops(w, at, alive);
      EndSpawnTold(Dropped(w, at), c);
      StaleAtTold(GoOn(w, at, alive), c);
    }
  }

  lemma CancelTaskTold(w: World, t: nat)
    requires ToldFirst(w) && t < |w.calls|
    ensures ToldFirst(CancelTask(w, t))
  {
    SpawnTold(w, t, w.calls[t].(spawn := CancelSpawn(w.calls[t].spawn)));
  }

  lemma AbortAtCalls(s: Stop, k: nat, c: nat, next: Then)
    requires k < |s.w.aborts|
    ensures AbortAt(s, k, c, next).calls == s.w.calls
  {}

  lemma AbortBeginsTold(w: World, next: Then, alive: Ffmpeg)
    requires ToldFirst(w) && w.active.Some?
    ensures ToldFirst(AbortBegins(w, next, alive))
  {
    var c := w.active.value;
    AbortedTidies(w, c);
    hide Aborted, AbortAt, BeginStop, CancelTask;
    var v := Aborted(w, c);
    TidiedTold(w, v, c);
    var u := v.(spawnTask := None, aborts := v.aborts + [AbortOver]);
    if AwaitsSpawn(v) {
      CancelTaskTold(u, v.spawnTask.value);
    } else {
      StopStops(u, OnExit, alive);
      AbortAtCalls(BeginStop(u, alive), |v.aborts|, c, next);
    }
  }

  lemma AbortsTold(w: World, k: nat, alive: Ffmpeg)
    requires ToldFirst(w)
    ensures ToldFirst(AbortGoesOn(w, k, alive)) && ToldFirst(AbortEnds(w, k, alive))
  {
    hide AbortAt, BeginStop, GoOn;
    if k < |w.aborts| && w.aborts[k] != AbortOver {
      var pc := w.aborts[k];
      StopStops(w, if pc.AbortAwaitsStop? then pc.at else OnExit, alive);
      if pc.AbortAwaitsSpawn? { AbortAtCalls(BeginStop(w, alive), k, pc.call, pc.next); }
      else { AbortAtCalls(GoOn(w, pc.at, alive), k, pc.call, pc.next); }
    }
  }

  lemma StopAtTold(s: Stop, k: nat)
    requires ToldFirst(s.w) && k < |s.w.stops|
    ensures ToldFirst(StopAt(s, k))
  {
    if s.at.None? {
      var v := s.w.(sip := None, active := None, stops := s.w.stops[k := StopOver]);
      MaxTidies(v);
      GraceTidies(CancelMax(v));
      TidiedTold(v, CancelMax(v), 0);
      TidiedTold(CancelMax(v), CancelGrace(CancelMax(v)), 0);
      hide CancelMax, CancelGrace;
    }
  }

  lemma StopsTold(w: World, k: nat, alive: Ffmpeg)
    requires ToldFirst(w)
    ensures ToldFirst(StopGoesOn(w, k, alive)) && ToldFirst(StopEnds(w, k, alive)) && ToldFirst(StopBeginning(w, alive))
  {
    hide StopAt, BeginStop, GoOn, CancelTask;
    StopStops(w, OnExit, alive);
    if k < |w.stops| {
      StopAtTold(BeginStop(w, alive), k);
      if w.stops[k].StopAwaitsBridge? {
        StopStops(w, w.stops[k].at, alive);
        StopAtTold(GoOn(w, w.stops[k].at, alive), k);
      }
    }
    var u := w.(spawnTask := None, stops := w.stops + [StopOver]);
    if AwaitsSpawn(w) {
      CancelTaskTold(u, w.spawnTask.value);
    } else {
      StopStops(u, OnExit, alive);
      StopAtTold(BeginStop(u, alive), |w.stops|);
    }
  }

  lemma TearingAtTold(s: Stop, c: nat)
    requires ToldFirst(s.w)
    ensures ToldFirst(TearingAt(s, c))
  {
    if c < |s.w.calls| {
      var r := s.w.calls[c].(grace := if s.at.None? then Over else Tearing(s.at.value, false));
      SpawnTold(s.w, c, r);
      UrlCalls(Noted(WithCall(s.w, c, r), Ended(c)), c, None);
      hide SetUrl;
    }
  }

  lemma GraceTold(w: World, c: nat, alive: Ffmpeg)
    requires ToldFirst(w)
    ensures ToldFirst(GraceWakes(w, c, alive))
  {
    hide BeginStop, TearingAt;
    if c < |w.calls| && w.calls[c].grace == Sleeping {
      SpawnTold(w, c, w.calls[c].(grace := Over));
      if w.active == Some(c) {
        var x := Noted(w, Cleared(c)).(active := None);
        StopStops(x, OnExit, alive);
        TearingAtTold(BeginStop(x, alive), c);
      }
    }
  }

  lemma TeardownTold(w: World, c: nat, alive: Ffmpeg)
    requires ToldFirst(w)
    ensures ToldFirst(GraceEnds(w, c, alive))
  {
    hide GoOn, Dropped, TearingAt;
    if c < |w.calls| && w.calls[c].grace.Tearing? {
      var at := w.calls[c].grace.at;
      StopStops(w, at, alive);
      TearingAtTold(GoOn(w, at, alive), c);
      SpawnTold(Dropped(w, at), c, w.calls[c].(grace := Over));
    }
  }

  lemma OtherTold(w: World, e: Event)
    requires ToldFirst(w) && (e.SipEnds? || e.MaxFires? || e.Established? || e.Tap? || e.CleanupDone?)
    ensures ToldFirst(Next(w, e))
  {
    hide EndDialog, Hang;
    if e.SipEnds? {
      EndDialogTidies(w, e.call);
      TidiedTold(w, EndDialog(w, e.call), e.call);
    } else if e.MaxFires? && e.call < |w.calls| {
      var v := WithCall(w, e.call, w.calls[e.call].(max := false));
      SpawnTold(w, e.call, w.calls[e.call].(max := false));
      HangTidies(v, e.call);
      TidiedTold(v, Hang(v, e.call), e.call);
    }
    hide Tidied;
  }

  lemma ConnectTold(w: World, k: nat, how: Connect, alive: Ffmpeg)
    requires ToldFirst(w)
    ensures ToldFirst(ConnectEnds(w, k, how, alive))
  {
    hide Running;
  }

  lemma NextTold(w: World, e: Event)
    requires ToldFirst(w)
    ensures ToldFirst(Next(w, e))
  {
    hide ToldFirst, AbortBegins, TapBegins, ConnectEnds, HandleEstablished, EndDialog, SpawnBegins, SpawnEnds,
         StaleEnds, GraceEnds, GraceWakes, MaxWakes, AbortGoesOn, AbortEnds, StopBeginning, StopGoesOn, StopEnds;
    match e {
      case Push(_, _) => PushTold(w, e);
      case CancelPush(_) => PushTold(w, e);
      case ConnectDone(k, how, alive) => ConnectTold(w, k, how, alive);
      case SpawnRuns(c, video, alive) => SpawnRunsTold(w, c, video, alive);
      case SpawnResumes(c, end, over, alive) => SpawnResumesTold(w, c, end, over, alive);
      case StaleStopped(c, alive) => StaleTold(w, c, alive);
      case GraceFires(c, alive) => GraceTold(w, c, alive);
      case GraceStopped(c, alive) => TeardownTold(w, c, alive);
      case AbortResumes(k, alive) => AbortsTold(w, k, alive);
      case AbortStopped(k, alive) => AbortsTold(w, k, alive);
      case StopBegins(alive) => StopsTold(w, 0, alive);
      case StopResumes(k, alive) => StopsTold(w, k, alive);
      case StopStopped(k, alive) => StopsTold(w, k, alive);
      case Tap(_) => OtherTold(w, e);
      case Established(_) => OtherTold(w, e);
      case SipEnds(_) => OtherTold(w, e);
      case MaxFires(_) => OtherTold(w, e);
      case CleanupDone => OtherTold(w, e);
    }
  }

  lemma PushTold(w: World, e: Event)
    requires ToldFirst(w) && (e.Push? || e.CancelPush?)
    ensures ToldFirst(Next(w, e))
  {
    hide AbortBegins;
    if w.active.Some? { AbortBeginsTold(w, if e.Push? then NewRing(e.creds) else CancelRing, e.alive); }
  }

  lemma {:induction false} RunsTold(ws: seq<World>, es: seq<Event>, n: nat)
    requires Run(ws, es) && n <= |es|
    ensures ToldFirst(ws[n])
  {
    hide Next;
    if n > 0 {
      RunsTold(ws, es, n - 1);
      assert ws[n] == Next(ws[n - 1], es[n - 1]);
      NextTold(ws[n - 1], es[n - 1]);
    }
  }
}
