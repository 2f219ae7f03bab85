/** Which events take the bridge down, and which teardowns report the end of their call, in every
    interleaving. */
module CallTeardowns {
  import opened Basics
  import opened CallFlow
  import opened CallFrames
  import opened CallRings
  import opened CallTimers

  // ---------- what takes the bridge down ----------

  /** A stop() that begins here closes everything before its first await. */
  predicate ClosesAtOnce(w: World) { !w.prewarm && !w.cleaning }

  /** A suspended stop() goes on and closes everything. */
  predicate ClosesNow(w: World, at: Await, alive: Ffmpeg)
  {
    match at
    case OnPrewarm => !alive.parked && !w.cleaning
    case OnDiscard => !w.cleaning
    case OnCleanup => true
    case OnExit => false
  }

  /** The stop() of some task reaches the stretch in which it closes everything. */
  predicate Closes(w: World, e: Event)
  {
    match e
    case Push(_, _) => w.active.Some? && !AwaitsSpawn(w) && ClosesAtOnce(w)
    case CancelPush(_) => w.active.Some? && !AwaitsSpawn(w) && ClosesAtOnce(w)
    case SpawnRuns(c, _, alive) =>
      c < |w.calls| && w.calls[c].spawn == Scheduled(false) && w.pendAudio.Some? && Running(w, alive)
      && !(w.started && w.active == Some(c)) && ClosesAtOnce(w)
    case StaleStopped(c, alive) =>
      c < |w.calls| && w.calls[c].spawn.Stale? && !w.calls[c].spawn.cancelled && ClosesNow(w, w.calls[c].spawn.at, alive)
    case GraceFires(c, _) => c < |w.calls| && w.calls[c].grace == Sleeping && w.active == Some(c) && ClosesAtOnce(w)
    case GraceStopped(c, alive) =>
      c < |w.calls| && w.calls[c].grace.Tearing? && !w.calls[c].grace.cancelled && ClosesNow(w, w.calls[c].grace.at, alive)
    case AbortResumes(k, _) =>
      k < |w.aborts| && w.aborts[k].AbortAwaitsSpawn? && SpawnDone(w, w.aborts[k].task) && ClosesAtOnce(w)
    case AbortStopped(k, alive) => k < |w.aborts| && w.aborts[k].AbortAwaitsStop? && ClosesNow(w, w.aborts[k].at, alive)
    case StopBegins(_) => !AwaitsSpawn(w) && ClosesAtOnce(w)
    case StopResumes(k, _) =>
      k < |w.stops| && w.stops[k].StopAwaitsSpawn? && SpawnDone(w, w.stops[k].task) && ClosesAtOnce(w)
    case StopStopped(k, alive) => k < |w.stops| && w.stops[k].StopAwaitsBridge? && ClosesNow(w, w.stops[k].at, alive)
    case _ => false
  }

  /** The bridge is as it was, or down with its sockets closed. */
  predicate Falls(w: World, v: World, closes: bool)
  {
    if closes then v.up.None? && v.open !! UpSocks(w) else v.up == w.up
  }

  predicate SameUp(w: World, v: World) { v.up == w.up && v.open <= w.open }

  lemma FallsThrough(w: World, u: World, v: World, closes: bool)
    requires (SameUp(w, u) && Falls(u, v, closes)) || (Falls(w, u, closes) && SameUp(u, v))
    ensures Falls(w, v, closes)
  {}

  lemma BeginFalls(w: World, alive: Ffmpeg)
    ensures Falls(w, BeginStop(w, alive).w, ClosesAtOnce(w))
  {}

  lemma GoOnFalls(w: World, at: Await, alive: Ffmpeg)
    ensures Falls(w, GoOn(w, at, alive).w, ClosesNow(w, at, alive)) && SameUp(w, Dropped(w, at))
  {}

  lemma EndSpawnUp(w: World, c: nat)
    ensures SameUp(w, EndSpawn(w, c))
  {}

  lemma StaleAtUp(s: Stop, c: nat)
    ensures SameUp(s.w, StaleAt(s, c))
  {}

  lemma CallEndedUp(w: World, c: nat)
    ensures SameUp(w, CallEnded(w, c))
  {}

  lemma TearingAtUp(s: Stop, c: nat)
    ensures SameUp(s.w, TearingAt(s, c))
  {
    hide CallEnded;
    if c < |s.w.calls| { CallEndedUp(WithCall(s.w, c, s.w.calls[c].(grace := Over)), c); }
  }

  lemma AbortAtUp(s: Stop, k: nat, c: nat, next: Then)
    requires k < |s.w.aborts|
    ensures SameUp(s.w, AbortAt(s, k, c, next))
  {
    hide CallEnded;
    CallEndedUp(s.w.(active := None, aborts := s.w.aborts[k := AbortOver]), c);
  }

  lemma StopAtUp(s: Stop, k: nat)
    requires k < |s.w.stops|
    ensures SameUp(s.w, StopAt(s, k))
  {
    if s.at.None? {
      var v := s.w.(sip := None, active := None, stops := s.w.stops[k := StopOver]);
      OpenKept(v);
      hide CancelMax, CancelGrace;
    }
  }

  lemma OpenKept(v: World)
    ensures var x := CancelGrace(CancelMax(v)); x.open == v.open && x.up == v.up
  {}

  lemma HangUpKept(w: World, c: nat)
    ensures SameUp(w, Hang(w, c))
  {
    if w.sip == Some(c) && c < |w.calls| && w.calls[c].live {
      TerminatedUp(WithCall(Noted(w, HungUp(c)), c, w.calls[c].(live := false)), c);
      hide HandleTerminated;
    }
  }

  lemma TerminatedUp(w: World, c: nat)
    ensures SameUp(w, HandleTerminated(w, c))
  {
    if w.active == Some(c) && c < |w.calls| {
      MaxSameUp(w);
      hide CancelMax, PendingSocks;
    }
  }

  lemma MaxSameUp(w: World)
    ensures CancelMax(w).open == w.open && CancelMax(w).up == w.up
  {}

  lemma EndDialogUp(w: World, c: nat)
    ensures SameUp(w, EndDialog(w, c))
  {
    if c < |w.calls| && w.calls[c].live {
      TerminatedUp(WithCall(w, c, w.calls[c].(live := false)), c);
      hide HandleTerminated;
    }
  }

  lemma AbortedUp(w: World, c: nat)
    ensures SameUp(w, Aborted(w, c))
  {
    OpenKept(w);
    hide CancelMax, CancelGrace, Hang;
    HangUpKept(CancelGrace(CancelMax(w)), c);
  }

  lemma PushFalls(w: World, e: Event)
    requires e.Push? || e.CancelPush?
    ensures Falls(w, Next(w, e), Closes(w, e))
  {
    hide AbortBegins;
    if w.active.Some? {
      AbortFalls(w, if e.Push? then NewRing(e.creds) else CancelRing, e.alive);
    }
  }

  lemma AbortFalls(w: World, next: Then, alive: Ffmpeg)
    requires w.active.Some?
    ensures Falls(w, AbortBegins(w, next, alive), !AwaitsSpawn(w) && ClosesAtOnce(w))
  {
    var c := w.active.value;
    AbortShape(w, next, alive);
    AbortedUp(w, c);
    hide Aborted, AbortAt, BeginStop, Tidied;
    var v := Aborted(w, c);
    var u := v.(spawnTask := None, aborts := v.aborts + [AbortOver]);
    if !AwaitsSpawn(w) {
      BeginFalls(u, alive);
      TidiedCloses(w, v);
      AbortAtUp(BeginStop(u, alive), |v.aborts|, c, next);
      FallsThrough(w, u, BeginStop(u, alive).w, ClosesAtOnce(w));
      FallsThrough(w, BeginStop(u, alive).w, AbortBegins(w, next, alive), ClosesAtOnce(w));
    }
  }

  lemma TidiedCloses(w: World, v: World)
    requires Tidied(w, v)
    ensures ClosesAtOnce(v) <==> ClosesAtOnce(w)
  {}

  lemma SpawnRunsFalls(w: World, e: Event)
    requires e.SpawnRuns?
    ensures Falls(w, Next(w, e), Closes(w, e))
  {
    var c, video, alive := e.call, e.video, e.alive;
    hide EndSpawn, Hang, Publish, Running, Runner, Taken, Used, WithCall, ClosesAtOnce;
    if c < |w.calls| && w.calls[c].spawn == Scheduled(false) {
      if w.pendAudio.None? {
        NoAudioUp(w, c);
      } else {
        TakenUp(w, video, c, w.calls[c].(spawn := InStart(Used(w, video), w.generation, w.prewarm, false)));
        if Running(w, alive) {
          RunningMeans(w, alive);
          PublishFalls(w, Taken(w, video), c, Runner(w), alive);
        }
      }
    } else {
      EndSpawnUp(w, c);
    }
  }

  lemma NoAudioUp(w: World, c: nat)
    ensures SameUp(w, EndSpawn(Hang(CloseSocks(w, w.pendVideo).(pendVideo := {}), c), c))
  {
    hide Hang, EndSpawn;
    var x := CloseSocks(w, w.pendVideo).(pendVideo := {});
    HangUpKept(x, c);
    EndSpawnUp(Hang(x, c), c);
  }

  lemma PublishFalls(w: World, x: World, c: nat, pipeline: nat, alive: Ffmpeg)
    requires SameUp(w, x) && x.prewarm == w.prewarm && x.cleaning == w.cleaning && x.started == w.started && x.active == w.active
    ensures Falls(w, Publish(x, c, pipeline, alive), !(w.started && w.active == Some(c)) && ClosesAtOnce(w))
  {
    hide BeginStop, StaleAt, SetUrl, EndSpawn;
    BeginFalls(x, alive);
    StaleAtUp(BeginStop(x, alive), c);
    UrlKept(Noted(x, Active(c)), c, Some(pipeline));
    EndSpawnUp(SetUrl(Noted(x, Active(c)), c, Some(pipeline)), c);
  }

  lemma UrlKept(w: World, c: nat, url: Option<nat>)
    ensures SameUp(w, SetUrl(w, c, url))
  {}

  lemma TakenUp(w: World, video: bool, c: nat, r: Call)
    requires w.pendAudio.Some?
    ensures SameUp(w, WithCall(Taken(w, video).(prewarm := false), c, r))
    ensures var x := Taken(w, video); SameUp(w, x) && x.prewarm == w.prewarm && x.cleaning == w.cleaning
    ensures var x := Taken(w, video); x.started == w.started && x.active == w.active && x.calls == w.calls
  {}

  lemma TaskFalls(w: World, e: Event)
    requires e.StaleStopped? || e.GraceFires? || e.GraceStopped?
    ensures Falls(w, Next(w, e), Closes(w, e))
  {
    var c, alive := e.call, e.alive;
    hide GoOn, Dropped, BeginStop, EndSpawn, StaleAt, TearingAt;
    match e {
      case StaleStopped(_, _) =>
        if c < |w.calls| && w.calls[c].spawn.Stale? {
          var at := w.calls[c].spawn.at;
          GoOnFalls(w, at, alive);
          EndSpawnUp(Dropped(w, at), c);
          StaleAtUp(GoOn(w, at, alive), c);
        }
      case GraceFires(_, _) =>
        if c < |w.calls| && w.calls[c].grace == Sleeping && w.active == Some(c) {
          var x := Noted(w, Cleared(c)).(active := None);
          BeginFalls(x, alive);
          TearingAtUp(BeginStop(x, alive), c);
        }
      case GraceStopped(_, _) =>
        if c < |w.calls| && w.calls[c].grace.Tearing? {
          var at := w.calls[c].grace.at;
          GoOnFalls(w, at, alive);
          TearingAtUp(GoOn(w, at, alive), c);
        }
    }
  }

  lemma AbortTaskFalls(w: World, e: Event)
    requires e.AbortResumes? || e.AbortStopped?
    ensures Falls(w, Next(w, e), Closes(w, e))
  {
    var alive := e.alive;
    hide GoOn, BeginStop, AbortAt, SpawnDone, ClosesAtOnce, ClosesNow;
    StopStops(w, OnExit, alive);
    BeginFalls(w, alive);
    match e {
      case AbortResumes(k, _) =>
        if k < |w.aborts| && w.aborts[k].AbortAwaitsSpawn? { AbortAtUp(BeginStop(w, alive), k, w.aborts[k].call, w.aborts[k].next); }
      case AbortStopped(k, _) =>
        if k < |w.aborts| && w.aborts[k].AbortAwaitsStop? {
          GoOnFalls(w, w.aborts[k].at, alive);
          StopStops(w, w.aborts[k].at, alive);
          AbortAtUp(GoOn(w, w.aborts[k].at, alive), k, w.aborts[k].call, w.aborts[k].next);
        }
    }
  }

  lemma AsyncStopFalls(w: World, e: Event)
    requires e.StopResumes? || e.StopStopped?
    ensures Falls(w, Next(w, e), Closes(w, e))
  {
    var alive := e.alive;
    hide GoOn, BeginStop, StopAt, SpawnDone, ClosesAtOnce, ClosesNow;
    StopStops(w, OnExit, alive);
    BeginFalls(w, alive);
    match e {
      case StopResumes(k, _) =>
        if k < |w.stops| && w.stops[k].StopAwaitsSpawn? { StopAtUp(BeginStop(w, alive), k); }
      case StopStopped(k, _) =>
        if k < |w.stops| && w.stops[k].StopAwaitsBridge? {
          GoOnFalls(w, w.stops[k].at, alive);
          StopStops(w, w.stops[k].at, alive);
          StopAtUp(GoOn(w, w.stops[k].at, alive), k);
        }
    }
  }

  lemma StopBeginsFalls(w: World, alive: Ffmpeg)
    ensures Falls(w, StopBeginning(w, alive), !AwaitsSpawn(w) && ClosesAtOnce(w))
  {
    hide BeginStop, StopAt, CancelTask;
    var u := w.(spawnTask := None, stops := w.stops + [StopOver]);
    if AwaitsSpawn(w) {
      CancelTaskUp(u, w.spawnTask.value);
    } else {
      BeginFalls(u, alive);
      StopStops(u, OnExit, alive);
      StopAtUp(BeginStop(u, alive), |w.stops|);
    }
  }

  lemma StopBeginsIs(w: World, e: Event)
    requires e.StopBegins?
    ensures Next(w, e) == StopBeginning(w, e.alive) && (Closes(w, e) <==> !AwaitsSpawn(w) && ClosesAtOnce(w))
  {
    hide StopBeginning, AwaitsSpawn, ClosesAtOnce;
  }

  lemma CancelTaskUp(w: World, t: nat)
    requires t < |w.calls|
    ensures SameUp(w, CancelTask(w, t))
  {}

  lemma OtherUp(w: World, e: Event)
    requires e.Tap? || e.ConnectDone? || e.Established? || e.SipEnds? || e.MaxFires? || e.CleanupDone?
    ensures Next(w, e).up == w.up
  {
    if e.SipEnds? {
      EndDialogUp(w, e.call);
      hide EndDialog;
    } else if e.MaxFires? {
      MaxWakesUp(w, e.call);
      hide MaxWakes;
    } else {
      PlainUp(w, e);
      hide Next;
    }
  }

  lemma PlainUp(w: World, e: Event)
    requires e.Tap? || e.ConnectDone? || e.Established? || e.CleanupDone?
    ensures Next(w, e).up == w.up
  {
    match e {
      case Tap(video) => TapUp(w, video);
      case ConnectDone(k, how, alive) => ConnectUp(w, k, how, alive);
      case Established(c) => EstablishedUp(w, c);
      case _ =>
    }
    hide TapBegins, ConnectEnds, HandleEstablished;
  }

  lemma TapUp(w: World, video: bool)
    ensures TapBegins(w, video).up == w.up
  {}

  lemma EstablishedUp(w: World, c: nat)
    ensures HandleEstablished(w, c).up == w.up
  {}

  lemma ConnectUp(w: World, k: nat, how: Connect, alive: Ffmpeg)
    ensures ConnectEnds(w, k, how, alive).up == w.up
  {
    hide Running, PendingSocks;
  }

  lemma MaxWakesUp(w: World, c: nat)
    ensures MaxWakes(w, c).up == w.up
  {
    hide Hang;
    if c < |w.calls| { HangUpKept(WithCall(w, c, w.calls[c].(max := false)), c); }
  }

  /** MAIN RESULT: but for a startup that ends, an event takes the bridge down, and closes every socket
      of it, exactly when the stop() of some task reaches the stretch in which it closes everything:
      at its start, or once the prewarm and the cleanup it waited for are gone. A stop() that has
      been there, and waits for ffmpeg, never takes down what came up since. */
  lemma BridgeFallsExactly(w: World, e: Event)
    requires !e.SpawnResumes?
    ensures Falls(w, Next(w, e), Closes(w, e))
  {
    hide Next, Closes, Falls;
    match e {
      case Push(_, _) => PushFalls(w, e);
      case CancelPush(_) => PushFalls(w, e);
      case SpawnRuns(_, _, _) => SpawnRunsFalls(w, e);
      case StaleStopped(_, _) => TaskFalls(w, e);
      case GraceFires(_, _) => TaskFalls(w, e);
      case GraceStopped(_, _) => TaskFalls(w, e);
      case AbortResumes(_, _) => AbortTaskFalls(w, e);
      case AbortStopped(_, _) => AbortTaskFalls(w, e);
      case StopBegins(alive) => StopBeginsFalls(w, alive); StopBeginsIs(w, e);
      case StopResumes(_, _) => AsyncStopFalls(w, e);
      case StopStopped(_, _) => AsyncStopFalls(w, e);
      case _ => OtherFalls(w, e);
    }
  }

  lemma OtherFalls(w: World, e: Event)
    requires e.Tap? || e.ConnectDone? || e.Established? || e.SipEnds? || e.MaxFires? || e.CleanupDone?
    ensures Falls(w, Next(w, e), Closes(w, e))
  {
    OtherUp(w, e);
    hide Next;
  }

  /** So, along a run in which no startup ends, the same bridge stays up as long as no stop() closes. */
  lemma {:induction false} BridgeStays(ws: seq<World>, es: seq<Event>, i: nat, j: nat)
    requires Run(ws, es) && i <= j <= |es| && ws[i].up.Some?
    requires forall m :: i <= m < j ==> !es[m].SpawnResumes?
    ensures (forall m :: i <= m < j ==> !Closes(ws[m], es[m])) ==> ws[j].up == ws[i].up
    ensures (exists m :: i <= m < j && Closes(ws[m], es[m])) ==> ws[j].up.None?
    decreases j
  {
    hide Next, Closes;
    if i < j {
      BridgeStays(ws, es, i, j - 1);
      assert ws[j] == Next(ws[j - 1], es[j - 1]);
      BridgeFallsExactly(ws[j - 1], es[j - 1]);
    }
  }

  // ---------- which teardowns report the end of their call ----------

  /** The grace task of call c goes from w to v: cancelled on the way, or untouched. */
  predicate GraceMoves(w: World, v: World, c: nat, cut: bool)
  {
    c < |w.calls| ==>
      c < |v.calls| && v.calls[c].grace == if cut then CancelledGrace(w.calls[c].grace) else w.calls[c].grace
  }

  lemma GraceThrough(u: World, v: World, w: World, c: nat, cut: bool)
    requires (GraceMoves(u, v, c, cut) && GraceMoves(v, w, c, false)) || (GraceMoves(u, v, c, false) && GraceMoves(v, w, c, cut))
    ensures GraceMoves(u, w, c, cut)
  {}

  lemma SameCallsGrace(w: World, v: World, c: nat)
    requires v.calls == w.calls
    ensures GraceMoves(w, v, c, false)
  {}

  lemma UpdateGrace(w: World, b: nat, r: Call, c: nat)
    requires b < |w.calls| && (b == c ==> r.grace == w.calls[b].grace)
    ensures GraceMoves(w, WithCall(w, b, r), c, false)
  {}

  lemma MaxGrace(w: World, c: nat)
    ensures GraceMoves(w, CancelMax(w), c, false) && CancelMax(w).graceTask == w.graceTask
  {}

  lemma CancelGraceMoves(w: World, c: nat)
    ensures GraceMoves(w, CancelGrace(w), c, w.graceTask == Some(c)) && CancelGrace(w).graceTask.None?
  {}

  predicate Ends(w: World, b: nat) { w.active == Some(b) && b < |w.calls| }

  lemma TerminatedGrace(w: World, b: nat, c: nat)
    requires w.active != Some(c)
    ensures GraceMoves(w, HandleTerminated(w, b), c, Ends(w, b) && w.graceTask == Some(c))
  {
    hide CancelMax, CancelGrace, ClosePending, CancelPrewarm, GraceMoves;
    SameCallsGrace(w, w, c);
    if Ends(w, b) {
      var a := CancelMax(w);
      var y := CancelPrewarm(a);
      var x := ClosePending(y).(sip := None);
      var z := CancelGrace(x);
      MaxGrace(w, c);
      FewerHelpers(w, c);
      FewerHelpers(a, c);
      FewerHelpers(y, c);
      FewerHelpers(x, c);
      SameCallsGrace(a, x, c);
      GraceTaskKept(a);
      CancelGraceMoves(x, c);
      GraceThrough(w, a, x, c, false);
      GraceThrough(w, x, z, c, w.graceTask == Some(c));
      SleepGrace(w, z, b, c, w.graceTask == Some(c));
    }
  }

  lemma GraceTaskKept(a: World)
    ensures ClosePending(CancelPrewarm(a)).graceTask == a.graceTask
  {}

  lemma SleepGrace(w: World, z: World, b: nat, c: nat, cut: bool)
    requires GraceMoves(w, z, c, cut) && b != c
    ensures b < |z.calls| ==> GraceMoves(w, WithCall(z, b, z.calls[b].(grace := Sleeping)).(graceTask := Some(b)), c, cut)
  {}

  lemma EndDialogGrace(w: World, b: nat, c: nat)
    requires w.active != Some(c)
    ensures GraceMoves(w, EndDialog(w, b), c, Ends(w, b) && w.calls[b].live && w.graceTask == Some(c))
  {
    hide HandleTerminated;
    if b < |w.calls| && w.calls[b].live {
      TerminatedGrace(WithCall(w, b, w.calls[b].(live := false)), b, c);
    }
  }

  predicate HangsUp(w: World, b: nat) { w.sip == Some(b) && Ends(w, b) && w.calls[b].live }

  lemma HangGrace(w: World, b: nat, c: nat)
    requires w.active != Some(c)
    ensures GraceMoves(w, Hang(w, b), c, HangsUp(w, b) && w.graceTask == Some(c))
  {
    hide EndDialog;
    EndDialogGrace(Noted(w, HungUp(b)), b, c);
  }

  lemma EndSpawnGrace(w: World, b: nat, c: nat)
    ensures GraceMoves(w, EndSpawn(w, b), c, false)
  {}

  lemma HangEndGrace(w: World, v: World, b: nat, c: nat)
    requires w.active != Some(c) && v.calls == w.calls && v.active == w.active && v.sip == w.sip && v.graceTask == w.graceTask
    ensures GraceMoves(w, EndSpawn(Hang(v, b), b), c, HangsUp(w, b) && w.graceTask == Some(c))
  {
    HangGrace(v, b, c);
    EndSpawnGrace(Hang(v, b), b, c);
    hide Hang, EndSpawn;
  }

  lemma StaleAtGrace(s: Stop, b: nat, c: nat)
    ensures GraceMoves(s.w, StaleAt(s, b), c, false)
  {}

  lemma PublishGrace(w: World, v: World, b: nat, pipeline: nat, alive: Ffmpeg, c: nat)
    requires v.calls == w.calls
    ensures GraceMoves(w, Publish(v, b, pipeline, alive), c, false)
  {
    hide BeginStop, StaleAt, SetUrl, EndSpawn;
    StopStops(v, OnExit, alive);
    StaleAtGrace(BeginStop(v, alive), b, c);
    UrlCalls(Noted(v, Active(b)), b, Some(pipeline));
    EndSpawnGrace(SetUrl(Noted(v, Active(b)), b, Some(pipeline)), b, c);
  }

  lemma CancelTaskGrace(w: World, t: nat, c: nat)
    requires t < |w.calls|
    ensures GraceMoves(w, CancelTask(w, t), c, false)
  {}

  lemma AbortedGrace(w: World, b: nat, c: nat)
    requires w.active != Some(c)
    ensures GraceMoves(w, Aborted(w, b), c, w.graceTask == Some(c))
  {
    hide CancelMax, CancelGrace, ClosePending, Hang, GraceMoves;
    var a := CancelMax(w);
    var x := CancelGrace(a);
    var h := Hang(x, b);
    MaxGrace(w, c);
    CancelGraceMoves(a, c);
    MaxTidies(w);
    GraceTidies(a);
    assert x.active == w.active by { TidiedActive(w, a); TidiedActive(a, x); }
    HangGrace(x, b, c);
    FewerHelpers(h.(sip := None), c);
    SameCallsGrace(h, Aborted(w, b), c);
    GraceThrough(w, a, x, c, w.graceTask == Some(c));
    GraceThrough(w, x, h, c, w.graceTask == Some(c));
    GraceThrough(w, h, Aborted(w, b), c, w.graceTask == Some(c));
  }

  lemma TidiedActive(w: World, v: World)
    requires Tidied(w, v)
    ensures v.active == w.active
  {}

  lemma AbortBeginsGrace(w: World, next: Then, alive: Ffmpeg, c: nat)
    requires w.active.Some? && w.active != Some(c)
    ensures GraceMoves(w, AbortBegins(w, next, alive), c, w.graceTask == Some(c))
  {
    var b := w.active.value;
    AbortedGrace(w, b, c);
    hide Aborted, AbortAt, BeginStop, CancelTask, GraceMoves;
    var v := Aborted(w, b);
    var u := v.(spawnTask := None, aborts := v.aborts + [AbortOver]);
    SameCallsGrace(v, u, c);
    GraceThrough(w, v, u, c, w.graceTask == Some(c));
    var r := AbortBegins(w, next, alive);
    if AwaitsSpawn(v) {
      CancelTaskGrace(u, v.spawnTask.value, c);
      SameCallsGrace(CancelTask(u, v.spawnTask.value), r, c);
      GraceThrough(u, CancelTask(u, v.spawnTask.value), r, c, false);
    } else {
      StopStops(u, OnExit, alive);
      AbortAtKeepsCalls(BeginStop(u, alive), |v.aborts|, b, next);
      SameCallsGrace(u, r, c);
    }
    GraceThrough(w, u, r, c, w.graceTask == Some(c));
  }

  lemma StopAtGrace(w: World, s: Stop, k: nat, c: nat)
    requires k < |s.w.stops| && s.w.calls == w.calls && s.w.graceTask == w.graceTask
    ensures GraceMoves(w, StopAt(s, k), c, s.at.None? && w.graceTask == Some(c))
  {
    if s.at.None? {
      hide CancelMax, CancelGrace, ClosePending, GraceMoves;
      var v := s.w.(sip := None, active := None, stops := s.w.stops[k := StopOver]);
      var x := CancelGrace(CancelMax(v));
      SameCallsGrace(w, v, c);
      MaxGrace(v, c);
      CancelGraceMoves(CancelMax(v), c);
      FewerHelpers(x, c);
      SameCallsGrace(x, StopAt(s, k), c);
      GraceThrough(w, v, CancelMax(v), c, false);
      GraceThrough(w, CancelMax(v), x, c, w.graceTask == Some(c));
      GraceThrough(w, x, StopAt(s, k), c, w.graceTask == Some(c));
    }
  }

  /** `async_stop` ends with this event. */
  predicate AsyncStopEnds(w: World, e: Event)
  {
    match e
    case StopBegins(alive) => !AwaitsSpawn(w) && ReturnsAtOnce(w, alive)
    case StopResumes(k, alive) =>
      k < |w.stops| && w.stops[k].StopAwaitsSpawn? && SpawnDone(w, w.stops[k].task) && ReturnsAtOnce(w, alive)
    case StopStopped(k, alive) => k < |w.stops| && w.stops[k].StopAwaitsBridge? && Returns(w, w.stops[k].at, alive)
    case _ => false
  }

  lemma StopResumesGrace(w: World, k: nat, alive: Ffmpeg, c: nat)
    ensures GraceMoves(w, StopGoesOn(w, k, alive), c, AsyncStopEnds(w, StopResumes(k, alive)) && w.graceTask == Some(c))
  {
    hide StopAt, BeginStop, ReturnsAtOnce, SpawnDone;
    if k < |w.stops| && w.stops[k].StopAwaitsSpawn? {
      StopStops(w, OnExit, alive);
      BeginReturns(w, alive);
      StopAtGrace(w, BeginStop(w, alive), k, c);
    }
  }

  lemma StopStoppedGrace(w: World, k: nat, alive: Ffmpeg, c: nat)
    ensures GraceMoves(w, StopEnds(w, k, alive), c, AsyncStopEnds(w, StopStopped(k, alive)) && w.graceTask == Some(c))
  {
    hide StopAt, GoOn, Returns;
    if k < |w.stops| && w.stops[k].StopAwaitsBridge? {
      StopStops(w, w.stops[k].at, alive);
      GoOnReturns(w, w.stops[k].at, alive);
      StopAtGrace(w, GoOn(w, w.stops[k].at, alive), k, c);
    }
  }

  lemma AsyncStopGrace(w: World, e: Event, c: nat)
    requires e.StopBegins? || e.StopResumes? || e.StopStopped?
    ensures GraceMoves(w, Next(w, e), c, AsyncStopEnds(w, e) && w.graceTask == Some(c))
  {
    hide StopBeginning, StopGoesOn, StopEnds, GraceMoves, ReturnsAtOnce, Returns, SpawnDone;
    match e {
      case StopBegins(alive) => StopBeginsGrace(w, alive, c);
      case StopResumes(k, alive) => StopResumesGrace(w, k, alive, c);
      case StopStopped(k, alive) => StopStoppedGrace(w, k, alive, c);
    }
  }

  lemma StopBeginsGrace(w: World, alive: Ffmpeg, c: nat)
    ensures GraceMoves(w, StopBeginning(w, alive), c, !AwaitsSpawn(w) && ReturnsAtOnce(w, alive) && w.graceTask == Some(c))
  {
    hide StopAt, BeginStop, CancelTask;
    var u := w.(spawnTask := None, stops := w.stops + [StopOver]);
    if AwaitsSpawn(w) {
      CancelTaskGrace(u, w.spawnTask.value, c);
    } else {
      StopStops(u, OnExit, alive);
      BeginReturns(u, alive);
      StopAtGrace(u, BeginStop(u, alive), |w.stops|, c);
    }
  }

  lemma TearingAtGrace(s: Stop, b: nat, c: nat)
    requires b != c
    ensures GraceMoves(s.w, TearingAt(s, b), c, false)
  {
    hide SetUrl;
    if b < |s.w.calls| { UrlCalls(Noted(WithCall(s.w, b, s.w.calls[b].(grace := Over)), Ended(b)), b, None); }
  }

  lemma OtherGraceFires(w: World, b: nat, alive: Ffmpeg, c: nat)
    requires b != c
    ensures GraceMoves(w, GraceWakes(w, b, alive), c, false)
  {
    hide BeginStop, TearingAt;
    if b < |w.calls| && w.calls[b].grace == Sleeping {
      UpdateGrace(w, b, w.calls[b], c);
      if w.active == Some(b) {
        var x := Noted(w, Cleared(b)).(active := None);
        StopStops(x, OnExit, alive);
        TearingAtGrace(BeginStop(x, alive), b, c);
      }
    }
  }

  lemma OtherGraceEnds(w: World, b: nat, alive: Ffmpeg, c: nat)
    requires b != c
    ensures GraceMoves(w, GraceEnds(w, b, alive), c, false)
  {
    hide GoOn, Dropped, TearingAt;
    if b < |w.calls| && w.calls[b].grace.Tearing? {
      StopStops(w, w.calls[b].grace.at, alive);
      TearingAtGrace(GoOn(w, w.calls[b].grace.at, alive), b, c);
    }
  }

  lemma OtherGraceMoves(w: World, e: Event, c: nat)
    requires (e.GraceFires? || e.GraceStopped?) && e.call != c
    ensures GraceMoves(w, Next(w, e), c, false)
  {
    hide GraceWakes, GraceEnds, GraceMoves;
    if e.GraceFires? { OtherGraceFires(w, e.call, e.alive, c); } else { OtherGraceEnds(w, e.call, e.alive, c); }
  }

  /** The dialog of the active call ends by this event, other than through an abort. */
  predicate EndsDialog(w: World, e: Event)
  {
    && w.active.Some? && Ends(w, w.active.value) && w.calls[w.active.value].live
    && var b := w.active.value; var s := w.calls[b].spawn;
       match e
       case SipEnds(d) => d == b
       case MaxFires(d) => d == b && w.calls[b].max && w.sip == Some(b)
       case SpawnRuns(d, _, _) => d == b && s == Scheduled(false) && w.pendAudio.None? && w.sip == Some(b)
       case SpawnResumes(d, end, _, _) =>
         d == b && s.InStart? && !s.cancelled && (end.SpawnFails? || end.WrapFails?) && w.sip == Some(b)
       case _ => false
  }

  /** `_grace_task` is call c's, and is cancelled: by the end of the active call, an abort or the end of
      `async_stop`. */
  predicate Cuts(w: World, e: Event, c: nat)
  {
    w.graceTask == Some(c) && (EndsDialog(w, e) || ((e.Push? || e.CancelPush?) && w.active.Some?) || AsyncStopEnds(w, e))
  }

  lemma SpawnGraceMoves(w: World, e: Event, c: nat)
    requires (e.SpawnRuns? || e.SpawnResumes? || e.StaleStopped?) && w.active != Some(c)
    ensures GraceMoves(w, Next(w, e), c, Cuts(w, e, c))
  {
    SameCallsGrace(w, w, c);
    match e {
      case SpawnRuns(b, video, alive) => SpawnRunsGrace(w, b, video, alive, c);
      case SpawnResumes(b, end, over, alive) => SpawnResumesGrace(w, b, end, over, alive, c);
      case StaleStopped(b, alive) => StaleGrace(w, b, alive, c);
    }
    hide SpawnBegins, SpawnEnds, StaleEnds, GraceMoves;
  }

  lemma SpawnRunsGrace(w: World, b: nat, video: bool, alive: Ffmpeg, c: nat)
    requires w.active != Some(c)
    ensures GraceMoves(w, SpawnBegins(w, b, video, alive), c, Cuts(w, SpawnRuns(b, video, alive), c))
  {
    hide EndSpawn, Hang, Publish, Running, Runner, Taken, Used;
    EndSpawnGrace(w, b, c);
    if b < |w.calls| && w.calls[b].spawn == Scheduled(false) {
      if w.pendAudio.None? {
        HangEndGrace(w, CloseSocks(w, w.pendVideo).(pendVideo := {}), b, c);
      } else {
        TakenSpawns(w, video);
        if Running(w, alive) {
          RunningMeans(w, alive);
          PublishGrace(w, Taken(w, video), b, Runner(w), alive, c);
        }
      }
    }
  }

  lemma UnwoundFields(w: World, socks: set<nat>, over: set<nat>)
    ensures var u := Unwound(w, socks, over);
      u.calls == w.calls && u.active == w.active && u.sip == w.sip && u.graceTask == w.graceTask
  {}

  lemma SpawnResumesGrace(w: World, b: nat, end: StartEnd, over: set<nat>, alive: Ffmpeg, c: nat)
    requires w.active != Some(c)
    ensures GraceMoves(w, SpawnEnds(w, b, end, over, alive), c, Cuts(w, SpawnResumes(b, end, over, alive), c))
  {
    hide EndSpawn, Hang, Publish, Unwound;
    if b < |w.calls| && w.calls[b].spawn.InStart? {
      var s := w.calls[b].spawn;
      var u := Unwound(w, s.socks, over);
      UnwoundFields(w, s.socks, over);
      if s.cancelled {
        EndSpawnGrace(u.(prewarm := w.prewarm || (end.InPrewarm? && s.prewarmed)), b, c);
      } else {
        match end {
          case InPrewarm =>
          case SpawnFails => HangEndGrace(w, w, b, c);
          case WrapFails => HangEndGrace(w, u, b, c);
          case Passes =>
            EndSpawnGrace(u, b, c);
            PublishGrace(w, w.(up := Some(Up(b, s.socks + (UpSocks(w) - over)))), b, b, alive, c);
        }
      }
    }
  }

  lemma StaleGrace(w: World, b: nat, alive: Ffmpeg, c: nat)
    ensures GraceMoves(w, StaleEnds(w, b, alive), c, false)
  {
    hide GoOn, Dropped, EndSpawn, StaleAt;
    if b < |w.calls| && w.calls[b].spawn.Stale? {
      StopStops(w, w.calls[b].spawn.at, alive);
      EndSpawnGrace(Dropped(w, w.calls[b].spawn.at), b, c);
      StaleAtGrace(GoOn(w, w.calls[b].spawn.at, alive), b, c);
    }
  }

  lemma PlainGraceMoves(w: World, e: Event, c: nat)
    requires e.Tap? || e.ConnectDone? || e.Established? || e.CleanupDone? || e.AbortResumes? || e.AbortStopped?
    ensures GraceMoves(w, Next(w, e), c, false)
  {
    if e.AbortResumes? || e.AbortStopped? {
      FewerAbortEnds(w, e.k, e.alive);
      SameCallsGrace(w, Next(w, e), c);
      hide AbortGoesOn, AbortEnds, GraceMoves;
    } else if e.ConnectDone? {
      ConnectCalls(w, e.k, e.how, e.alive);
      hide ConnectEnds;
    } else {
      PlainCallMoves(w, e, c);
      hide Next, GraceMoves;
    }
  }

  lemma PlainCallMoves(w: World, e: Event, c: nat)
    requires e.Tap? || e.Established? || e.CleanupDone?
    ensures GraceMoves(w, Next(w, e), c, false)
  {}

  lemma DialogGraceMoves(w: World, e: Event, c: nat)
    requires (e.SipEnds? || e.MaxFires? || e.Push? || e.CancelPush?) && w.active != Some(c)
    ensures GraceMoves(w, Next(w, e), c, Cuts(w, e, c))
  {
    hide EndDialog, Hang, AbortBegins;
    SameCallsGrace(w, w, c);
    match e {
      case SipEnds(b) => EndDialogGrace(w, b, c);
      case MaxFires(b) =>
        if b < |w.calls| && w.calls[b].max {
          var v := WithCall(w, b, w.calls[b].(max := false));
          UpdateGrace(w, b, w.calls[b].(max := false), c);
          HangGrace(v, b, c);
        }
      case Push(creds, alive) => if w.active.Some? { AbortBeginsGrace(w, NewRing(creds), alive, c); }
      case CancelPush(alive) => if w.active.Some? { AbortBeginsGrace(w, CancelRing, alive, c); }
    }
  }

  lemma NextGraceMoves(w: World, e: Event, c: nat)
    requires w.active != Some(c) && !((e.GraceFires? || e.GraceStopped?) && e.call == c)
    ensures GraceMoves(w, Next(w, e), c, Cuts(w, e, c))
  {
    hide Next, GraceMoves, AsyncStopEnds;
    if e.GraceFires? || e.GraceStopped? { OtherGraceMoves(w, e, c); NoCut(w, e, c); }
    else if e.SpawnRuns? || e.SpawnResumes? || e.StaleStopped? { SpawnGraceMoves(w, e, c); }
    else if e.StopBegins? || e.StopResumes? || e.StopStopped? { AsyncStopGrace(w, e, c); NoDialog(w, e); }
    else if e.SipEnds? || e.MaxFires? || e.Push? || e.CancelPush? { DialogGraceMoves(w, e, c); }
    else { PlainGraceMoves(w, e, c); NoCut(w, e, c); }
  }

  lemma NoCut(w: World, e: Event, c: nat)
    requires e.GraceFires? || e.GraceStopped? || e.Tap? || e.ConnectDone? || e.Established? || e.CleanupDone?
          || e.AbortResumes? || e.AbortStopped?
    ensures !Cuts(w, e, c)
  {}

  lemma NoDialog(w: World, e: Event)
    requires e.StopBegins? || e.StopResumes? || e.StopStopped?
    ensures !EndsDialog(w, e)
  {}

  /** Call c is being torn down. */
  predicate Tears(w: World, c: nat) { c < |w.calls| && w.calls[c].grace.Tearing? }

  /** The teardown goes on by itself: it ends, reporting the call exactly if it was not cancelled, or
      waits for the next thing. */
  lemma OwnGrace(w: World, e: Event, c: nat)
    requires Tears(w, c) && (e.GraceFires? || e.GraceStopped?) && e.call == c
    ensures var v := Next(w, e);
      && c < |v.calls|
      && (v.calls[c].grace.Tearing? ==> v.calls[c].grace.cancelled == w.calls[c].grace.cancelled)
      && (!v.calls[c].grace.Tearing? ==>
            v.notes == if w.calls[c].grace.cancelled then w.notes else w.notes + [Ended(c)])
  {
    if e.GraceStopped? {
      var at := w.calls[c].grace.at;
      hide GoOn, Dropped, TearingAt;
      StopStops(w, at, e.alive);
      OwnTearing(GoOn(w, at, e.alive), c);
    }
  }

  lemma OwnTearing(s: Stop, c: nat)
    requires c < |s.w.calls|
    ensures var v := TearingAt(s, c);
      && c < |v.calls| && (if s.at.Some? then v.calls[c].grace == Tearing(s.at.value, false) && v.notes == s.w.notes
                           else v.calls[c].grace == Over && v.notes == s.w.notes + [Ended(c)])
  {
    hide SetUrl;
    var y := WithCall(s.w, c, s.w.calls[c].(grace := Over));
    UrlCalls(Noted(y, Ended(c)), c, None);
    SetUrlCore(Noted(y, Ended(c)), c, None);
    assert CoreOf(SetUrl(Noted(y, Ended(c)), c, None)).notes == y.notes + [Ended(c)];
  }

  predicate Cancelled(w: World, c: nat) { Tears(w, c) && w.calls[c].grace.cancelled }

  /** MAIN RESULT: along every run, from a moment where call c is being torn down and not cancelled, as
      long as the teardown lasts it stays uncancelled exactly until its task is cut; and when it then
      ends it reports the end of the call if and only if it never was. */
  lemma {:induction false} EndedUnlessCut(ws: seq<World>, es: seq<Event>, i: nat, j: nat, c: nat)
    requires Run(ws, es) && i <= j < |es| && Tears(ws[i], c) && !Cancelled(ws[i], c)
    requires forall m :: i <= m <= j ==> Tears(ws[m], c)
    ensures Cancelled(ws[j], c) <==> exists m :: i <= m < j && Cuts(ws[m], es[m], c)
    ensures !Tears(ws[j + 1], c) ==>
      (ws[j + 1].notes == ws[j].notes + [Ended(c)] <==> forall m :: i <= m < j ==> !Cuts(ws[m], es[m], c))
    decreases j
  {
    hide Next, Cuts, Tears, Cancelled;
    if i < j {
      EndedUnlessCut(ws, es, i, j - 1, c);
      TearStep(ws, es, j - 1, c);
    }
    if !Tears(ws[j + 1], c) { TearEnds(ws, es, j, c); }
  }

  lemma NotActive(ws: seq<World>, es: seq<Event>, j: nat, c: nat)
    requires Run(ws, es) && j < |es| && Tears(ws[j], c)
    ensures ws[j].active != Some(c) && ws[j + 1] == Next(ws[j], es[j])
  {
    RunPrefix(ws, es, j);
    RunsAreOk(es[..j], ws[j]);
    assert TearingInactive(ws[j]);
    hide Next, Reached, TimersOk;
  }

  lemma TearStep(ws: seq<World>, es: seq<Event>, j: nat, c: nat)
    requires Run(ws, es) && j < |es| && Tears(ws[j], c) && Tears(ws[j + 1], c)
    ensures Cancelled(ws[j + 1], c) <==> Cancelled(ws[j], c) || Cuts(ws[j], es[j], c)
  {
    NotActive(ws, es, j, c);
    hide Next, Run;
    if (es[j].GraceFires? || es[j].GraceStopped?) && es[j].call == c {
      OwnGrace(ws[j], es[j], c);
      NoCut(ws[j], es[j], c);
    } else {
      NextGraceMoves(ws[j], es[j], c);
      hide Cuts;
    }
  }

  lemma TearEnds(ws: seq<World>, es: seq<Event>, j: nat, c: nat)
    requires Run(ws, es) && j < |es| && Tears(ws[j], c) && !Tears(ws[j + 1], c)
    ensures ws[j + 1].notes == if Cancelled(ws[j], c) then ws[j].notes else ws[j].notes + [Ended(c)]
  {
    NotActive(ws, es, j, c);
    hide Next, Run;
    if (es[j].GraceFires? || es[j].GraceStopped?) && es[j].call == c {
      OwnGrace(ws[j], es[j], c);
    } else {
      NextGraceMoves(ws[j], es[j], c);
      hide Cuts;
      assert false;
    }
  }
}
