/** What holds of calls, timers and publications in every interleaving, with no hypothesis on how
    the handlers overlap. */
module CallTimers {
  import opened Basics
  import opened CallFlow

  // ---------- what one step can do to the active call and the notes ----------

  /** The parts of the world the notes speak about. */
  datatype Core = Core(started: bool, n: nat, active: Option<nat>, aborts: seq<AbortPc>, notes: seq<Note>)

  function CoreOf(w: World): Core { Core(w.started, |w.calls|, w.active, w.aborts, w.notes) }

  /** A new note, against the world before and after. */
  predicate Justified(n: Note, before: Core, after: Core)
  {
    match n
    case Active(c) =>
      before.started && before.active == Some(c) && after.active == Some(c) && |after.notes| == |before.notes| + 1
    case Ended(c) => c < after.n && after.active != Some(c)
    case StopCompleted => !after.started
    case Cleared(c) => before.active == Some(c)
    case HungUp(_) => true
  }

  /** Aborts apart, which only their own steps touch. */
  function CoreWith(w: World, v: World): Core { CoreOf(w).(aborts := v.aborts) }

  predicate Grown(a: Core, b: Core)
  {
    && |a.notes| <= |b.notes| && b.notes[..|a.notes|] == a.notes
    && forall i :: |a.notes| <= i < |b.notes| ==> Justified(b.notes[i], a, b)
  }

  predicate Moves(a: Core, b: Core)
  {
    && a.n <= b.n <= a.n + 1 && (b.started ==> a.started) && b.aborts == a.aborts
    && (b.active == a.active || b.active == None || (b.active == Some(a.n) && b.n == a.n + 1))
    && Grown(a, b)
  }

  lemma MovesSame(a: Core, b: Core)
    requires a == b
    ensures Moves(a, b)
  {}

  /** One note, or two. */
  lemma MovesNote(a: Core, b: Core, n: Note)
    requires b.notes == a.notes + [n] && Justified(n, a, b) && b.n == a.n && (b.started ==> a.started)
    requires b.aborts == a.aborts && (b.active == a.active || b.active == None)
    ensures Moves(a, b)
  {}

  lemma MovesNotes(a: Core, b: Core, m: Note, n: Note)
    requires b.notes == a.notes + [m] + [n] && Justified(m, a, b) && Justified(n, a, b)
    requires b.n == a.n && (b.started ==> a.started) && b.aborts == a.aborts && (b.active == a.active || b.active == None)
    ensures Moves(a, b)
  {
    hide Justified;
    forall i | |a.notes| <= i < |b.notes| ensures b.notes[i] == m || b.notes[i] == n {}
  }

  // ---------- small steps ----------

  lemma QuietHelpers(w: World, c: nat)
    ensures CoreOf(CancelMax(w)) == CoreOf(w) && CoreOf(CancelGrace(w)) == CoreOf(w) && CoreOf(ClosePending(w)) == CoreOf(w)
    ensures CoreOf(CancelPrewarm(w)) == CoreOf(w) && CoreOf(EndSpawn(w, c)) == CoreOf(w)
  {}

  lemma StopCore(w: World, at: Await, alive: Ffmpeg)
    ensures CoreOf(BeginStop(w, alive).w) == CoreOf(w) && CoreOf(GoOn(w, at, alive).w) == CoreOf(w)
    ensures CoreOf(Dropped(w, at)) == CoreOf(w)
  {}

  lemma HandledIsQuiet(w: World, c: nat)
    ensures CoreOf(HandleTerminated(w, c)) == CoreOf(w)
  {
    hide CancelMax, CancelGrace, ClosePending, CancelPrewarm;
    QuietHelpers(w, c);
    QuietHelpers(CancelMax(w), c);
    QuietHelpers(CancelPrewarm(CancelMax(w)), c);
    QuietHelpers(ClosePending(CancelPrewarm(CancelMax(w))).(sip := None), c);
  }

  lemma TerminatedIsQuiet(w: World, c: nat)
    ensures CoreOf(EndDialog(w, c)) == CoreOf(w)
  {
    hide HandleTerminated;
    if c < |w.calls| && w.calls[c].live { HandledIsQuiet(WithCall(w, c, w.calls[c].(live := false)), c); }
  }

  lemma HangCore(w: World, c: nat)
    ensures var v := Hang(w, c);
      CoreOf(v) == CoreOf(w) || CoreOf(v) == CoreOf(w).(notes := w.notes + [HungUp(c)])
  {
    hide EndDialog;
    TerminatedIsQuiet(Noted(w, HungUp(c)), c);
  }

  lemma SetUrlCore(w: World, c: nat, url: Option<nat>)
    ensures CoreOf(SetUrl(w, c, url)) == CoreOf(w)
  {}

  lemma ContinueCore(w: World, k: Then)
    ensures CoreOf(Continue(w, k)) == CoreOf(w)
  {}

  // ---------- the bridge comes up ----------

  lemma StaleAtCore(s: Stop, c: nat)
    ensures CoreOf(StaleAt(s, c)) == CoreOf(s.w)
  {
    QuietHelpers(s.w, c);
    hide EndSpawn;
  }

  lemma PublishMoves(w: World, v: World, c: nat, pipeline: nat, alive: Ffmpeg)
    requires CoreOf(v) == CoreOf(w)
    ensures Moves(CoreOf(w), CoreOf(Publish(v, c, pipeline, alive)))
  {
    hide SetUrl, EndSpawn, BeginStop, StaleAt, Moves;
    var p := Publish(v, c, pipeline, alive);
    if !v.started || v.active != Some(c) {
      StopCore(v, OnExit, alive);
      StaleAtCore(BeginStop(v, alive), c);
      MovesSame(CoreOf(w), CoreOf(p));
    } else {
      SetUrlCore(Noted(v, Active(c)), c, Some(pipeline));
      QuietHelpers(SetUrl(Noted(v, Active(c)), c, Some(pipeline)), c);
      MovesNote(CoreOf(w), CoreOf(p), Active(c));
    }
  }

  lemma HangEndMoves(w: World, v: World, c: nat)
    requires CoreOf(v) == CoreOf(w)
    ensures Moves(CoreOf(w), CoreOf(EndSpawn(Hang(v, c), c)))
  {
    HangCore(v, c);
    QuietHelpers(Hang(v, c), c);
    hide Hang, EndSpawn, Moves;
    var b := CoreOf(EndSpawn(Hang(v, c), c));
    if b.notes == w.notes { MovesSame(CoreOf(w), b); } else { MovesNote(CoreOf(w), b, HungUp(c)); }
  }

  lemma GoneMoves(w: World, v: World, c: nat)
    requires CoreOf(v) == CoreOf(w)
    ensures Moves(CoreOf(w), CoreOf(EndSpawn(v, c)))
  {
    QuietHelpers(v, c);
    hide EndSpawn, Moves;
    MovesSame(CoreOf(w), CoreOf(EndSpawn(v, c)));
  }

  lemma TakenCore(w: World, video: bool)
    requires w.pendAudio.Some?
    ensures CoreOf(Taken(w, video)) == CoreOf(w) && Taken(w, video).calls == w.calls
  {}

  lemma SpawnBeginMoves(w: World, c: nat, video: bool, alive: Ffmpeg)
    ensures Moves(CoreOf(w), CoreOf(SpawnBegins(w, c, video, alive)))
  {
    hide Moves, Publish, EndSpawn, Hang, PendingSocks, Taken, Running, Runner;
    var v := SpawnBegins(w, c, video, alive);
    if c >= |w.calls| || !w.calls[c].spawn.Scheduled? {
      MovesSame(CoreOf(w), CoreOf(w));
    } else if w.calls[c].spawn.cancelled {
      GoneMoves(w, w, c);
    } else if w.pendAudio.None? {
      HangEndMoves(w, CloseSocks(w, w.pendVideo).(pendVideo := {}), c);
    } else {
      TakenCore(w, video);
      if Running(w, alive) {
        assert w.up.Some? || Starting(w.calls).Some? by { RunningMeans(w, alive); }
        PublishMoves(w, Taken(w, video), c, Runner(w), alive);
      } else {
        MovesSame(CoreOf(w), CoreOf(v));
      }
    }
  }

  lemma SpawnEndMoves(w: World, c: nat, end: StartEnd, over: set<nat>, alive: Ffmpeg)
    ensures Moves(CoreOf(w), CoreOf(SpawnEnds(w, c, end, over, alive)))
  {
    hide Moves, Publish, EndSpawn, Hang;
    if c >= |w.calls| || !w.calls[c].spawn.InStart? {
      MovesSame(CoreOf(w), CoreOf(w));
    } else {
      var s := w.calls[c].spawn;
      var u := Unwound(w, s.socks, over);
      assert CoreOf(u) == CoreOf(w);
      hide Unwound;
      if s.cancelled {
        GoneMoves(w, u.(prewarm := w.prewarm || (end.InPrewarm? && s.prewarmed)), c);
      } else {
        match end {
          case InPrewarm => MovesSame(CoreOf(w), CoreOf(w));
          case SpawnFails => HangEndMoves(w, w, c);
          case WrapFails => HangEndMoves(w, u, c);
          case Passes =>
            if w.generation != s.snapshot { GoneMoves(w, u, c); }
            else { PublishMoves(w, w.(up := Some(Up(c, s.socks + (UpSocks(w) - over)))), c, c, alive); }
        }
      }
    }
  }

  lemma StaleEndMoves(w: World, c: nat, alive: Ffmpeg)
    ensures Moves(CoreOf(w), CoreOf(StaleEnds(w, c, alive)))
  {
    hide Moves, EndSpawn, StaleAt, GoOn, Dropped;
    if c < |w.calls| && w.calls[c].spawn.Stale? {
      var s := w.calls[c].spawn;
      StopCore(w, s.at, alive);
      GoneMoves(w, Dropped(w, s.at), c);
      StaleAtCore(GoOn(w, s.at, alive), c);
      if !s.cancelled { MovesSame(CoreOf(w), CoreOf(StaleEnds(w, c, alive))); }
    } else {
      MovesSame(CoreOf(w), CoreOf(w));
    }
  }

  // ---------- timers ----------

  lemma TearingAtCore(s: Stop, c: nat)
    ensures var v := TearingAt(s, c);
      CoreOf(v) == if c < |s.w.calls| && s.at.None? then CoreOf(s.w).(notes := s.w.notes + [Ended(c)]) else CoreOf(s.w)
  {
    if c < |s.w.calls| && s.at.None? {
      SetUrlCore(Noted(WithCall(s.w, c, s.w.calls[c].(grace := Over)), Ended(c)), c, None);
      hide SetUrl;
    }
  }

  /** The grace window is over, and the call is ended at once or not. */
  lemma ClearedCore(w: World, c: nat, alive: Ffmpeg)
    requires c < |w.calls| && w.calls[c].grace == Sleeping && w.active == Some(c)
    ensures var v := CoreOf(GraceWakes(w, c, alive));
      && v == CoreOf(w).(active := None, notes := v.notes)
      && (v.notes == w.notes + [Cleared(c)] || v.notes == w.notes + [Cleared(c)] + [Ended(c)])
  {
    hide TearingAt, BeginStop;
    var x := Noted(w, Cleared(c)).(active := None);
    StopCore(x, OnExit, alive);
    TearingAtCore(BeginStop(x, alive), c);
    assert CoreOf(BeginStop(x, alive).w).n == |w.calls|;
  }

  lemma GraceMoves(w: World, c: nat, alive: Ffmpeg)
    ensures Moves(CoreOf(w), CoreOf(GraceWakes(w, c, alive)))
  {
    hide Moves, TearingAt, BeginStop;
    var v := GraceWakes(w, c, alive);
    if c < |w.calls| && w.calls[c].grace == Sleeping && w.active == Some(c) {
      ClearedCore(w, c, alive);
      if CoreOf(v).notes == w.notes + [Cleared(c)] {
        MovesNote(CoreOf(w), CoreOf(v), Cleared(c));
      } else {
        MovesNotes(CoreOf(w), CoreOf(v), Cleared(c), Ended(c));
      }
    } else {
      MovesSame(CoreOf(w), CoreOf(v));
    }
  }

  lemma GraceEndMoves(w: World, c: nat, alive: Ffmpeg)
    ensures !(c < |w.calls| && w.calls[c].grace.Tearing? && w.active == Some(c)) ==>
      Moves(CoreOf(w), CoreOf(GraceEnds(w, c, alive)))
  {
    hide Moves, TearingAt, GoOn, Dropped;
    var v := GraceEnds(w, c, alive);
    if c < |w.calls| && w.calls[c].grace.Tearing? {
      var at := w.calls[c].grace.at;
      StopCore(w, at, alive);
      TearingAtCore(GoOn(w, at, alive), c);
      assert CoreOf(GoOn(w, at, alive).w).n == |w.calls|;
      if CoreOf(v).notes == w.notes {
        MovesSame(CoreOf(w), CoreOf(v));
      } else if w.active != Some(c) {
        MovesNote(CoreOf(w), CoreOf(v), Ended(c));
      }
    } else {
      MovesSame(CoreOf(w), CoreOf(v));
    }
  }

  lemma MaxMoves(w: World, c: nat)
    ensures Moves(CoreOf(w), CoreOf(MaxWakes(w, c)))
  {
    hide Hang, Moves;
    var b := CoreOf(MaxWakes(w, c));
    if c < |w.calls| && w.calls[c].max { HangCore(WithCall(w, c, w.calls[c].(max := false)), c); }
    if b.notes == w.notes { MovesSame(CoreOf(w), b); } else { MovesNote(CoreOf(w), b, HungUp(c)); }
  }

  // ---------- aborts ----------

  lemma AbortedCore(w: World, c: nat)
    ensures var b := CoreOf(Aborted(w, c));
      b == CoreOf(w) || b == CoreOf(w).(notes := w.notes + [HungUp(c)])
  {
    hide CancelMax, CancelGrace, ClosePending, Hang;
    QuietHelpers(w, c);
    QuietHelpers(CancelMax(w), c);
    var x := CancelGrace(CancelMax(w));
    HangCore(x, c);
    QuietHelpers(Hang(x, c).(sip := None), c);
  }

  /** What the rest of an abort does, once it has begun its stop or waits for the startup. */
  lemma AbortAtCore(s: Stop, k: nat, c: nat, next: Then)
    requires k < |s.w.aborts|
    ensures var v := AbortAt(s, k, c, next);
      && v.aborts == s.w.aborts[k := if s.at.Some? then AbortAwaitsStop(c, s.at.value, next) else AbortOver]
      && CoreOf(v) == (if s.at.Some? then CoreWith(s.w, v)
                       else CoreWith(s.w, v).(active := None, notes := s.w.notes + [Ended(c)]))
  {
    if s.at.None? {
      var x := s.w.(active := None, aborts := s.w.aborts[k := AbortOver]);
      SetUrlCore(Noted(x, Ended(c)), c, None);
      ContinueCore(CallEnded(x, c), next);
      hide Continue, SetUrl;
    }
  }

  lemma CancelTaskCore(w: World, t: nat)
    requires t < |w.calls|
    ensures CoreOf(CancelTask(w, t)) == CoreOf(w)
  {}

  /** Aborts are of calls that exist. */
  predicate AbortsOk(c: Core)
  {
    && (c.active.Some? ==> c.active.value < c.n)
    && forall k :: 0 <= k < |c.aborts| && c.aborts[k] != AbortOver ==> c.aborts[k].call < c.n
  }

  lemma AbortWaitsCore(v: World, c: nat, next: Then, alive: Ffmpeg)
    ensures var b := AbortWaits(v, c, next, alive);
      && |b.aborts| == |v.aborts| + 1 && b.aborts[..|v.aborts|] == v.aborts
      && (b.aborts[|v.aborts|] == AbortOver || b.aborts[|v.aborts|].call == c)
      && (CoreOf(b) == CoreWith(v, b) || CoreOf(b) == CoreWith(v, b).(active := None, notes := v.notes + [Ended(c)]))
  {
    hide BeginStop, CancelTask, AbortAt;
    var k := |v.aborts|;
    var u := v.(spawnTask := None, aborts := v.aborts + [AbortOver]);
    if AwaitsSpawn(v) {
      CancelTaskCore(u, v.spawnTask.value);
    } else {
      StopCore(u, OnExit, alive);
      assert CoreOf(BeginStop(u, alive).w).aborts == v.aborts + [AbortOver];
      AbortAtCore(BeginStop(u, alive), k, c, next);
    }
  }

  lemma AbortMoves(w: World, next: Then, alive: Ffmpeg)
    requires w.active.Some? && AbortsOk(CoreOf(w))
    ensures var v := AbortBegins(w, next, alive); Moves(CoreWith(w, v), CoreOf(v)) && AbortsOk(CoreOf(v))
  {
    var c := w.active.value;
    AbortedCore(w, c);
    AbortWaitsCore(Aborted(w, c), c, next, alive);
    hide Aborted, AbortWaits, Moves;
    var x, v := Aborted(w, c), AbortBegins(w, next, alive);
    assert CoreOf(x).aborts == w.aborts && CoreOf(x).n == |w.calls|;
    assert AbortsOk(CoreOf(v)) by { AbortListOk(CoreOf(w), CoreOf(v), c); }
    AbortNotes(CoreWith(w, v), CoreOf(v), c);
  }

  lemma AbortListOk(a: Core, b: Core, c: nat)
    requires AbortsOk(a) && b.n == a.n && c < a.n && (b.active == a.active || b.active == None)
    requires |b.aborts| == |a.aborts| + 1 && b.aborts[..|a.aborts|] == a.aborts
    requires b.aborts[|a.aborts|] == AbortOver || b.aborts[|a.aborts|].call == c
    ensures AbortsOk(b)
  {
    forall k | 0 <= k < |b.aborts| && b.aborts[k] != AbortOver ensures b.aborts[k].call < b.n {
      if k < |a.aborts| { assert b.aborts[k] == a.aborts[k]; }
    }
  }

  /** An abort hangs up, or not, and ends the call, or not yet. */
  lemma AbortNotes(a: Core, b: Core, c: nat)
    requires b.n == a.n && b.started == a.started && b.aborts == a.aborts && c < a.n
    requires (b.active == a.active && (b.notes == a.notes || b.notes == a.notes + [HungUp(c)]))
          || (b.active == None && (b.notes == a.notes + [Ended(c)] || b.notes == a.notes + [HungUp(c)] + [Ended(c)]))
    ensures Moves(a, b)
  {
    hide Moves;
    if b.active == a.active && b.notes == a.notes { MovesSame(a, b); }
    else if b.notes == a.notes + [HungUp(c)] { MovesNote(a, b, HungUp(c)); }
    else if b.notes == a.notes + [Ended(c)] { MovesNote(a, b, Ended(c)); }
    else { MovesNotes(a, b, HungUp(c), Ended(c)); }
  }

  lemma AbortAtMoves(w: World, s: Stop, k: nat)
    requires AbortsOk(CoreOf(w)) && CoreOf(s.w) == CoreOf(w) && k < |w.aborts| && w.aborts[k] != AbortOver
    ensures var v := AbortAt(s, k, w.aborts[k].call, w.aborts[k].next);
      Moves(CoreWith(w, v), CoreOf(v)) && AbortsOk(CoreOf(v))
  {
    var c := w.aborts[k].call;
    assert s.w.aborts == CoreOf(s.w).aborts == w.aborts;
    AbortAtCore(s, k, c, w.aborts[k].next);
    hide AbortAt;
    AbortNotes(CoreWith(w, AbortAt(s, k, c, w.aborts[k].next)), CoreOf(AbortAt(s, k, c, w.aborts[k].next)), c);
    hide Moves;
  }

  lemma AbortGoesOnMoves(w: World, k: nat, alive: Ffmpeg)
    requires AbortsOk(CoreOf(w))
    ensures var v := AbortGoesOn(w, k, alive); Moves(CoreWith(w, v), CoreOf(v)) && AbortsOk(CoreOf(v))
  {
    hide AbortAt, BeginStop, Moves;
    StopCore(w, OnExit, alive);
    if k < |w.aborts| && w.aborts[k].AbortAwaitsSpawn? { AbortAtMoves(w, BeginStop(w, alive), k); }
    MovesSame(CoreOf(w), CoreOf(w));
  }

  lemma AbortEndMoves(w: World, k: nat, alive: Ffmpeg)
    requires AbortsOk(CoreOf(w))
    ensures var v := AbortEnds(w, k, alive); Moves(CoreWith(w, v), CoreOf(v)) && AbortsOk(CoreOf(v))
  {
    hide AbortAt, GoOn, Moves;
    if k < |w.aborts| && w.aborts[k].AbortAwaitsStop? {
      StopCore(w, w.aborts[k].at, alive);
      AbortAtMoves(w, GoOn(w, w.aborts[k].at, alive), k);
    }
    MovesSame(CoreOf(w), CoreOf(w));
  }

  // ---------- async_stop, taps and the rest ----------

  lemma StopAtMoves(w: World, s: Stop, k: nat)
    requires CoreOf(s.w) == CoreOf(w) && k < |s.w.stops|
    ensures Moves(CoreOf(w), CoreOf(StopAt(s, k)))
  {
    if s.at.Some? {
      MovesSame(CoreOf(w), CoreOf(StopAt(s, k)));
    } else {
      hide CancelMax, CancelGrace, ClosePending;
      var v := s.w.(sip := None, active := None, stops := s.w.stops[k := StopOver]);
      QuietHelpers(v, 0);
      QuietHelpers(CancelMax(v), 0);
      QuietHelpers(CancelGrace(CancelMax(v)), 0);
      hide Moves;
      MovesNote(CoreOf(w), CoreOf(StopAt(s, k)), StopCompleted);
    }
  }

  lemma StopMoves(w: World, k: nat, alive: Ffmpeg)
    ensures Moves(CoreOf(w), CoreOf(StopGoesOn(w, k, alive))) && Moves(CoreOf(w), CoreOf(StopEnds(w, k, alive)))
  {
    hide StopAt, BeginStop, GoOn, Moves;
    StopCore(w, OnExit, alive);
    MovesSame(CoreOf(w), CoreOf(w));
    if k < |w.stops| {
      StopKeepsStops(w, OnExit, alive);
      if w.stops[k].StopAwaitsSpawn? { StopAtMoves(w, BeginStop(w, alive), k); }
      if w.stops[k].StopAwaitsBridge? {
        StopCore(w, w.stops[k].at, alive);
        StopKeepsStops(w, w.stops[k].at, alive);
        StopAtMoves(w, GoOn(w, w.stops[k].at, alive), k);
      }
    }
  }

  lemma StopKeepsStops(w: World, at: Await, alive: Ffmpeg)
    ensures BeginStop(w, alive).w.stops == w.stops == GoOn(w, at, alive).w.stops
  {}

  lemma StopBeginMoves(w: World, alive: Ffmpeg)
    ensures Moves(CoreOf(w), CoreOf(StopBeginning(w, alive)))
  {
    hide StopAt, BeginStop, CancelTask, Moves;
    var u := w.(spawnTask := None, stops := w.stops + [StopOver]);
    if AwaitsSpawn(w) {
      CancelTaskCore(u, w.spawnTask.value);
      MovesSame(CoreOf(w), CoreOf(StopBeginning(w, alive)));
    } else {
      StopCore(u, OnExit, alive);
      StopKeepsStops(u, OnExit, alive);
      StopAtMoves(w, BeginStop(u, alive), |w.stops|);
    }
  }

  lemma TapMoves(w: World, video: bool)
    ensures Moves(CoreOf(w), CoreOf(TapBegins(w, video)))
  {
    hide Justified;
  }

  lemma LazyHelpers(w: World, p: nat)
    ensures CoreOf(Rearm(w, p)) == CoreOf(w) == CoreOf(Answer(w, p)) && Rearm(w, p).calls == w.calls == Answer(w, p).calls
  {}

  lemma ConnectMoves(w: World, k: nat, how: Connect, alive: Ffmpeg)
    ensures Moves(CoreOf(w), CoreOf(ConnectEnds(w, k, how, alive)))
  {
    if k < |w.connects| && w.connects[k].Connecting? {
      var v := w.(connects := w.connects[k := ConnectOver]);
      var p := w.connects[k].invite;
      QuietHelpers(v, 0);
      PlacedMoves(w, v, p, w.connects[k].video && !Running(w, alive));
      hide ClosePending, Rearm, Answer, Moves, Running, CallPlaced;
      match how {
        case Connected =>
        case Refused => LazyHelpers(ClosePending(v).(sipId := None), p);
        case Raises => LazyHelpers(ClosePending(v).(sip := None), p);
      }
      if how != Connected { MovesSame(CoreOf(w), CoreOf(ConnectEnds(w, k, how, alive))); }
    } else {
      MovesSame(CoreOf(w), CoreOf(w));
    }
  }

  lemma PlacedMoves(w: World, v: World, p: nat, prewarms: bool)
    requires CoreOf(v) == CoreOf(w)
    ensures Moves(CoreOf(w), CoreOf(Answer(CallPlaced(v, p, prewarms), p)))
  {
    hide Answer, Justified;
    LazyHelpers(CallPlaced(v, p, prewarms), p);
  }

  lemma EstablishedMoves(w: World, c: nat)
    ensures Moves(CoreOf(w), CoreOf(HandleEstablished(w, c))) && Moves(CoreOf(w), CoreOf(EndDialog(w, c)))
  {
    TerminatedIsQuiet(w, c);
    hide EndDialog, Moves;
    MovesSame(CoreOf(w), CoreOf(HandleEstablished(w, c)));
    MovesSame(CoreOf(w), CoreOf(EndDialog(w, c)));
  }

  // ---------- runs ----------

  /** No publication follows the end of the call or the end of `async_stop`. */
  predicate NotesOk(c: Core)
  {
    && (forall i :: 0 <= i < |c.notes| && c.notes[i].Ended? ==> c.notes[i].call < c.n && c.active != Some(c.notes[i].call))
    && (forall i :: 0 <= i < |c.notes| && c.notes[i].StopCompleted? ==> !c.started)
    && (forall i, j :: 0 <= i < j < |c.notes| && c.notes[j].Active? ==>
          c.notes[i] != StopCompleted && !(c.notes[i].Ended? && c.notes[i].call == c.notes[j].call))
  }

  lemma MovesKeepNotes(a: Core, b: Core)
    requires NotesOk(a) && Moves(a, b)
    ensures NotesOk(b)
  {
    forall i | 0 <= i < |b.notes| ensures i < |a.notes| ==> b.notes[i] == a.notes[i] {}
    forall i, j | 0 <= i < j < |b.notes| && b.notes[j].Active?
      ensures b.notes[i] != StopCompleted && !(b.notes[i].Ended? && b.notes[i].call == b.notes[j].call)
    {
      if j >= |a.notes| {
        assert Justified(b.notes[j], a, b);
        assert b.notes[i] == a.notes[i];
      } else {
        assert b.notes[i] == a.notes[i] && b.notes[j] == a.notes[j];
      }
    }
  }

  /** A tearing grace task belongs to a call that is no longer active. */
  predicate TearingInactive(w: World)
  {
    forall c :: 0 <= c < |w.calls| && w.calls[c].grace.Tearing? ==> w.active != Some(c)
  }

  // ---------- only a grace timer starts a teardown ----------

  predicate Fewer(a: seq<Call>, b: seq<Call>)
  {
    |a| <= |b| && forall c :: 0 <= c < |b| && b[c].grace.Tearing? ==> c < |a| && a[c].grace.Tearing?
  }

  lemma FewerSelf(a: seq<Call>)
    ensures Fewer(a, a)
  {}

  lemma FewerThrough(a: seq<Call>, b: seq<Call>, c: seq<Call>)
    requires Fewer(a, b) && Fewer(b, c)
    ensures Fewer(a, c)
  {}

  lemma FewerUpdate(a: seq<Call>, c: nat, r: Call)
    requires c < |a| && (r.grace.Tearing? ==> a[c].grace.Tearing?)
    ensures Fewer(a, a[c := r])
  {}

  lemma FewerCancelMax(w: World)
    ensures Fewer(w.calls, CancelMax(w).calls)
  {
    FewerSelf(w.calls);
    if w.maxTask.Some? && w.maxTask.value < |w.calls| {
      FewerUpdate(w.calls, w.maxTask.value, w.calls[w.maxTask.value].(max := false));
    }
    hide Fewer;
  }

  lemma FewerCancelGrace(w: World)
    ensures Fewer(w.calls, CancelGrace(w).calls)
  {
    FewerSelf(w.calls);
    if w.graceTask.Some? && w.graceTask.value < |w.calls| {
      var g := w.calls[w.graceTask.value];
      FewerUpdate(w.calls, w.graceTask.value, g.(grace := CancelledGrace(g.grace)));
    }
    hide Fewer;
  }

  lemma FewerEndSpawn(w: World, c: nat)
    ensures Fewer(w.calls, EndSpawn(w, c).calls)
  {
    FewerSelf(w.calls);
    if c < |w.calls| { FewerUpdate(w.calls, c, w.calls[c].(spawn := Gone)); }
    hide Fewer;
  }

  lemma FewerHelpers(w: World, c: nat)
    ensures Fewer(w.calls, CancelMax(w).calls) && Fewer(w.calls, CancelGrace(w).calls)
    ensures ClosePending(w).calls == w.calls == CancelPrewarm(w).calls
    ensures Fewer(w.calls, EndSpawn(w, c).calls)
  {
    FewerCancelMax(w);
    FewerCancelGrace(w);
    FewerEndSpawn(w, c);
    hide Fewer, CancelMax, CancelGrace, EndSpawn;
  }

  lemma StopKeepsCalls(w: World, at: Await, alive: Ffmpeg)
    ensures BeginStop(w, alive).w.calls == w.calls == GoOn(w, at, alive).w.calls && Dropped(w, at).calls == w.calls
  {}

  lemma FewerSleeping(a: seq<Call>, b: seq<Call>, c: nat)
    requires Fewer(a, b) && c < |a|
    ensures c < |b| && Fewer(a, b[c := b[c].(grace := Sleeping)])
  {}

  lemma FewerTerminated(w: World, c: nat)
    ensures Fewer(w.calls, HandleTerminated(w, c).calls)
  {
    hide CancelMax, CancelGrace, ClosePending, CancelPrewarm, Fewer;
    if w.active != Some(c) || c >= |w.calls| {
      FewerSelf(w.calls);
    } else {
      var y := CancelPrewarm(CancelMax(w));
      var x := ClosePending(y).(sip := None);
      FewerHelpers(w, c);
      FewerHelpers(CancelMax(w), c);
      FewerHelpers(y, c);
      FewerHelpers(x, c);
      FewerThrough(w.calls, x.calls, CancelGrace(x).calls);
      FewerSleeping(w.calls, CancelGrace(x).calls, c);
    }
  }

  lemma FewerEndDialog(w: World, c: nat)
    ensures Fewer(w.calls, EndDialog(w, c).calls) && Fewer(w.calls, Hang(w, c).calls)
  {
    if c < |w.calls| && w.calls[c].live {
      var v := WithCall(w, c, w.calls[c].(live := false));
      var n := WithCall(Noted(w, HungUp(c)), c, w.calls[c].(live := false));
      FewerTerminated(v, c);
      FewerTerminated(n, c);
      hide HandleTerminated;
      FewerThrough(w.calls, v.calls, HandleTerminated(v, c).calls);
      FewerThrough(w.calls, n.calls, HandleTerminated(n, c).calls);
    }
  }

  lemma FewerStaleAt(s: Stop, c: nat)
    ensures Fewer(s.w.calls, StaleAt(s, c).calls)
  {
    FewerHelpers(s.w, c);
    hide EndSpawn;
  }

  lemma FewerPublish(w: World, c: nat, pipeline: nat, alive: Ffmpeg)
    ensures Fewer(w.calls, Publish(w, c, pipeline, alive).calls)
  {
    var u := SetUrl(Noted(w, Active(c)), c, Some(pipeline));
    assert u.calls == w.calls;
    FewerHelpers(u, c);
    StopKeepsCalls(w, OnExit, alive);
    FewerStaleAt(BeginStop(w, alive), c);
    hide EndSpawn, SetUrl, StaleAt, BeginStop, Fewer;
  }

  lemma FewerHangEnd(w: World, v: World, c: nat)
    requires v.calls == w.calls
    ensures Fewer(w.calls, EndSpawn(Hang(v, c), c).calls)
  {
    FewerEndDialog(v, c);
    FewerHelpers(Hang(v, c), c);
    hide Hang, EndSpawn;
  }

  lemma FewerGone(w: World, v: World, c: nat)
    requires v.calls == w.calls
    ensures Fewer(w.calls, EndSpawn(v, c).calls)
  {
    FewerHelpers(v, c);
  }

  lemma FewerSpawnBegins(w: World, c: nat, video: bool, alive: Ffmpeg)
    ensures Fewer(w.calls, SpawnBegins(w, c, video, alive).calls)
  {
    hide EndSpawn, Hang, Publish, PendingSocks, Taken, Running, Runner, Fewer;
    FewerSelf(w.calls);
    if c < |w.calls| && w.calls[c].spawn.Scheduled? {
      if w.calls[c].spawn.cancelled {
        FewerGone(w, w, c);
      } else if w.pendAudio.None? {
        FewerHangEnd(w, CloseSocks(w, w.pendVideo).(pendVideo := {}), c);
      } else {
        TakenCore(w, video);
        if Running(w, alive) {
          RunningMeans(w, alive);
          FewerPublish(Taken(w, video), c, Runner(w), alive);
        } else {
          FewerUpdate(w.calls, c, w.calls[c].(spawn := InStart(Used(w, video), w.generation, w.prewarm, false)));
        }
      }
    }
  }

  lemma UnwoundCalls(w: World, socks: set<nat>, over: set<nat>)
    ensures Unwound(w, socks, over).calls == w.calls
  {}

  lemma FewerSpawnEnds(w: World, c: nat, end: StartEnd, over: set<nat>, alive: Ffmpeg)
    ensures Fewer(w.calls, SpawnEnds(w, c, end, over, alive).calls)
  {
    FewerSelf(w.calls);
    if c < |w.calls| && w.calls[c].spawn.InStart? {
      var s := w.calls[c].spawn;
      var u := Unwound(w, s.socks, over);
      UnwoundCalls(w, s.socks, over);
      hide EndSpawn, Hang, Publish, Fewer, Unwound;
      if s.cancelled {
        FewerGone(w, u.(prewarm := w.prewarm || (end.InPrewarm? && s.prewarmed)), c);
      } else {
        match end {
          case InPrewarm =>
          case SpawnFails => FewerHangEnd(w, w, c);
          case WrapFails => FewerHangEnd(w, u, c);
          case Passes =>
            FewerGone(w, u, c);
            FewerPublish(w.(up := Some(Up(c, s.socks + (UpSocks(w) - over)))), c, c, alive);
        }
      }
    }
  }

  lemma FewerStale(w: World, c: nat, alive: Ffmpeg)
    ensures Fewer(w.calls, StaleEnds(w, c, alive).calls)
  {
    FewerSelf(w.calls);
    hide GoOn, Dropped, EndSpawn, StaleAt, Fewer;
    if c < |w.calls| && w.calls[c].spawn.Stale? {
      var at := w.calls[c].spawn.at;
      StopKeepsCalls(w, at, alive);
      FewerGone(w, Dropped(w, at), c);
      FewerStaleAt(GoOn(w, at, alive), c);
    }
  }

  lemma FewerAborted(w: World, c: nat)
    ensures Fewer(w.calls, Aborted(w, c).calls)
  {
    hide CancelMax, CancelGrace, ClosePending, Hang, Fewer;
    FewerHelpers(w, c);
    FewerHelpers(CancelMax(w), c);
    var x := CancelGrace(CancelMax(w));
    FewerEndDialog(x, c);
    var y := Hang(x, c).(sip := None);
    FewerHelpers(y, c);
    FewerThrough(w.calls, CancelMax(w).calls, x.calls);
    FewerThrough(w.calls, x.calls, y.calls);
  }

  lemma FewerCancelTask(w: World, t: nat)
    requires t < |w.calls|
    ensures Fewer(w.calls, CancelTask(w, t).calls)
  {
    FewerUpdate(w.calls, t, w.calls[t].(spawn := CancelSpawn(w.calls[t].spawn)));
  }

  lemma AbortAtKeepsCalls(s: Stop, k: nat, c: nat, next: Then)
    requires k < |s.w.aborts|
    ensures AbortAt(s, k, c, next).calls == s.w.calls
  {}

  lemma FewerAbort(w: World, next: Then, alive: Ffmpeg)
    requires w.active.Some?
    ensures Fewer(w.calls, AbortBegins(w, next, alive).calls)
  {
    var c := w.active.value;
    FewerAborted(w, c);
    hide Aborted, CancelTask, BeginStop, AbortAt, Fewer;
    var v := Aborted(w, c);
    var u := v.(spawnTask := None, aborts := v.aborts + [AbortOver]);
    if AwaitsSpawn(v) {
      FewerCancelTask(u, v.spawnTask.value);
      FewerThrough(w.calls, u.calls, CancelTask(u, v.spawnTask.value).calls);
    } else {
      StopKeepsCalls(u, OnExit, alive);
      StopKeepsAborts(u, OnExit, alive);
      AbortAtKeepsCalls(BeginStop(u, alive), |v.aborts|, c, next);
    }
  }

  lemma StopKeepsAborts(w: World, at: Await, alive: Ffmpeg)
    ensures BeginStop(w, alive).w.aborts == w.aborts == GoOn(w, at, alive).w.aborts
  {}

  lemma FewerAbortEnds(w: World, k: nat, alive: Ffmpeg)
    ensures AbortEnds(w, k, alive).calls == w.calls == AbortGoesOn(w, k, alive).calls
  {
    hide AbortAt, BeginStop, GoOn;
    StopKeepsAborts(w, OnExit, alive);
    StopKeepsCalls(w, OnExit, alive);
    if k < |w.aborts| {
      AbortAtOf(w, BeginStop(w, alive), k);
      if w.aborts[k].AbortAwaitsStop? {
        StopKeepsAborts(w, w.aborts[k].at, alive);
        StopKeepsCalls(w, w.aborts[k].at, alive);
        AbortAtOf(w, GoOn(w, w.aborts[k].at, alive), k);
      }
    }
  }

  lemma AbortAtOf(w: World, s: Stop, k: nat)
    requires k < |w.aborts| && s.w.aborts == w.aborts && s.w.calls == w.calls
    ensures w.aborts[k] != AbortOver ==> AbortAt(s, k, w.aborts[k].call, w.aborts[k].next).calls == w.calls
  {
    if w.aborts[k] != AbortOver { AbortAtKeepsCalls(s, k, w.aborts[k].call, w.aborts[k].next); }
  }

  lemma FewerStopAt(s: Stop, k: nat)
    requires k < |s.w.stops|
    ensures Fewer(s.w.calls, StopAt(s, k).calls)
  {
    hide CancelMax, CancelGrace, ClosePending;
    var v := s.w.(sip := None, active := None, stops := s.w.stops[k := StopOver]);
    FewerHelpers(v, 0);
    FewerHelpers(CancelMax(v), 0);
    FewerHelpers(CancelGrace(CancelMax(v)), 0);
    FewerThrough(v.calls, CancelMax(v).calls, CancelGrace(CancelMax(v)).calls);
  }

  lemma FewerStop(w: World, k: nat, alive: Ffmpeg)
    ensures Fewer(w.calls, StopGoesOn(w, k, alive).calls) && Fewer(w.calls, StopEnds(w, k, alive).calls)
  {
    FewerSelf(w.calls);
    hide BeginStop, GoOn, StopAt, Fewer;
    if k < |w.stops| {
      StopKeepsStops(w, OnExit, alive);
      StopKeepsCalls(w, OnExit, alive);
      FewerStopAt(BeginStop(w, alive), k);
      if w.stops[k].StopAwaitsBridge? {
        StopKeepsStops(w, w.stops[k].at, alive);
        StopKeepsCalls(w, w.stops[k].at, alive);
        FewerStopAt(GoOn(w, w.stops[k].at, alive), k);
      }
    }
  }

  lemma FewerStopBegins(w: World, alive: Ffmpeg)
    ensures Fewer(w.calls, StopBeginning(w, alive).calls)
  {
    hide BeginStop, StopAt, CancelTask, Fewer;
    var u := w.(spawnTask := None, stops := w.stops + [StopOver]);
    if AwaitsSpawn(w) {
      FewerCancelTask(u, w.spawnTask.value);
    } else {
      StopKeepsStops(u, OnExit, alive);
      StopKeepsCalls(u, OnExit, alive);
      FewerStopAt(BeginStop(u, alive), |w.stops|);
    }
  }

  lemma ConnectCalls(w: World, k: nat, how: Connect, alive: Ffmpeg)
    ensures var v := ConnectEnds(w, k, how, alive);
      v.calls == w.calls || v.calls == w.calls + [Call(true, false, NoSpawn, NoGrace, true)]
  {
    hide ClosePending, Rearm, Answer, Running;
    if k < |w.connects| && w.connects[k].Connecting? {
      var v := w.(connects := w.connects[k := ConnectOver]);
      var p := w.connects[k].invite;
      FewerHelpers(v, 0);
      LazyHelpers(ClosePending(v).(sipId := None), p);
      LazyHelpers(ClosePending(v).(sip := None), p);
      PlacedCalls(v, p, w.connects[k].video && !Running(w, alive));
      hide CallPlaced;
    }
  }

  lemma PlacedCalls(v: World, p: nat, prewarms: bool)
    ensures Answer(CallPlaced(v, p, prewarms), p).calls == v.calls + [Call(true, false, NoSpawn, NoGrace, true)]
  {
    LazyHelpers(CallPlaced(v, p, prewarms), p);
    hide Answer;
  }

  lemma FewerConnect(w: World, k: nat, how: Connect, alive: Ffmpeg)
    ensures Fewer(w.calls, ConnectEnds(w, k, how, alive).calls)
  {
    ConnectCalls(w, k, how, alive);
    hide ConnectEnds;
  }

  lemma FewerTearingAt(s: Stop, c: nat)
    requires c < |s.w.calls| && s.w.calls[c].grace.Tearing?
    ensures Fewer(s.w.calls, TearingAt(s, c).calls)
  {
    FewerUpdate(s.w.calls, c, s.w.calls[c].(grace := Over));
  }

  lemma FewerGraceEnds(w: World, c: nat, alive: Ffmpeg)
    ensures Fewer(w.calls, GraceEnds(w, c, alive).calls)
  {
    FewerSelf(w.calls);
    hide GoOn, Dropped, TearingAt, Fewer;
    if c < |w.calls| && w.calls[c].grace.Tearing? {
      StopKeepsCalls(w, w.calls[c].grace.at, alive);
      FewerTearingAt(GoOn(w, w.calls[c].grace.at, alive), c);
      FewerUpdate(w.calls, c, w.calls[c].(grace := Over));
    }
  }

  lemma FewerMax(w: World, c: nat)
    ensures Fewer(w.calls, MaxWakes(w, c).calls)
  {
    hide Hang, Fewer;
    if c < |w.calls| && w.calls[c].max {
      var v := WithCall(w, c, w.calls[c].(max := false));
      FewerUpdate(w.calls, c, w.calls[c].(max := false));
      FewerEndDialog(v, c);
      FewerThrough(w.calls, v.calls, Hang(v, c).calls);
    } else {
      FewerSelf(w.calls);
    }
  }

  lemma FewerOther(w: World, e: Event)
    requires e.Tap? || e.Established? || e.CleanupDone?
    ensures Fewer(w.calls, Next(w, e).calls)
  {
    match e {
      case Established(c) => FewerEstablished(w, c); hide HandleEstablished, Fewer;
      case _ =>
    }
  }

  lemma FewerEstablished(w: World, c: nat)
    ensures Fewer(w.calls, HandleEstablished(w, c).calls)
  {
    if c < |w.calls| {
      var r := w.calls[c].(told := true);
      FewerSelf(w.calls);
      FewerUpdate(w.calls, c, r);
      FewerUpdate(w.calls, c, r.(spawn := Scheduled(false)));
      hide Fewer;
      assert w.calls[c := r][c := r.(spawn := Scheduled(false))] == w.calls[c := r.(spawn := Scheduled(false))];
    }
  }

  lemma FewerNext(w: World, e: Event)
    requires !e.GraceFires?
    ensures Fewer(w.calls, Next(w, e).calls)
  {
    if e.Tap? || e.Established? || e.CleanupDone? {
      FewerOther(w, e);
    } else if e.Push? || e.CancelPush? {
      FewerPush(w, e);
    } else {
      FewerTask(w, e);
    }
    hide Fewer, Next;
  }

  lemma FewerPush(w: World, e: Event)
    requires e.Push? || e.CancelPush?
    ensures Fewer(w.calls, Next(w, e).calls)
  {
    FewerSelf(w.calls);
    hide AbortBegins, Fewer;
    if w.active.Some? { FewerAbort(w, if e.Push? then NewRing(e.creds) else CancelRing, e.alive); }
  }

  lemma FewerTask(w: World, e: Event)
    requires !(e.Tap? || e.Established? || e.CleanupDone? || e.Push? || e.CancelPush? || e.GraceFires?)
    ensures Fewer(w.calls, Next(w, e).calls)
  {
    hide ConnectEnds, EndDialog, SpawnBegins, SpawnEnds, StaleEnds, GraceEnds, MaxWakes, AbortGoesOn, AbortEnds,
         StopBeginning, StopGoesOn, StopEnds, Fewer;
    match e {
      case ConnectDone(k, how, alive) => FewerConnect(w, k, how, alive);
      case SipEnds(c) => FewerEndDialog(w, c);
      case SpawnRuns(c, video, alive) => FewerSpawnBegins(w, c, video, alive);
      case SpawnResumes(c, end, over, alive) => FewerSpawnEnds(w, c, end, over, alive);
      case StaleStopped(c, alive) => FewerStale(w, c, alive);
      case GraceStopped(c, alive) => FewerGraceEnds(w, c, alive);
      case MaxFires(c) => FewerMax(w, c);
      case AbortResumes(k, alive) => FewerAbortEnds(w, k, alive); FewerSelf(w.calls);
      case AbortStopped(k, alive) => FewerAbortEnds(w, k, alive); FewerSelf(w.calls);
      case StopBegins(alive) => FewerStopBegins(w, alive);
      case StopResumes(k, alive) => FewerStop(w, k, alive);
      case StopStopped(k, alive) => FewerStop(w, k, alive);
    }
  }

  /** When the grace window ends, only its own call may begin to tear down. */
  lemma FewerGrace(w: World, c: nat, alive: Ffmpeg)
    requires TearingInactive(w)
    ensures TearingInactive(GraceWakes(w, c, alive))
  {
    hide BeginStop;
    var x := Noted(w, Cleared(c)).(active := None);
    StopKeepsCalls(x, OnExit, alive);
    StopCore(x, OnExit, alive);
    assert CoreOf(BeginStop(x, alive).w).active == None;
    if c < |w.calls| && w.calls[c].grace == Sleeping && w.active == Some(c) {
      TearingAtCore(BeginStop(x, alive), c);
      assert CoreOf(GraceWakes(w, c, alive)).active == None;
      hide TearingAt;
    }
  }

  lemma TearingStaysInactive(w: World, e: Event)
    requires TearingInactive(w) && AbortsOk(CoreOf(w)) && Moves(CoreWith(w, Next(w, e)), CoreOf(Next(w, e)))
    ensures TearingInactive(Next(w, e))
  {
    if e.GraceFires? {
      FewerGrace(w, e.call, e.alive);
      hide Moves, GraceWakes;
    } else {
      FewerNext(w, e);
      hide Next, Grown;
    }
  }

  lemma PushMoves(w: World, e: Event)
    requires AbortsOk(CoreOf(w)) && (e.Push? || e.CancelPush?)
    ensures Moves(CoreWith(w, Next(w, e)), CoreOf(Next(w, e))) && AbortsOk(CoreOf(Next(w, e)))
  {
    hide AbortBegins;
    var k := if e.Push? then NewRing(e.creds) else CancelRing;
    if w.active.Some? {
      AbortMoves(w, k, e.alive);
      hide Moves;
    } else {
      ContinueCore(w, k);
      assert Next(w, e) == Continue(w, k);
      hide Continue, RingArrives, Next, Moves;
      MovesSame(CoreWith(w, Next(w, e)), CoreOf(Next(w, e)));
    }
  }

  lemma MovesKeepAborts(a: Core, b: Core)
    requires Moves(a, b) && AbortsOk(a)
    ensures AbortsOk(b)
  {
    hide Grown;
  }

  predicate Aborts(e: Event) { e.Push? || e.CancelPush? || e.AbortResumes? || e.AbortStopped? }

  lemma NextMoves(w: World, e: Event)
    requires TearingInactive(w) && AbortsOk(CoreOf(w))
    ensures Moves(CoreWith(w, Next(w, e)), CoreOf(Next(w, e))) && AbortsOk(CoreOf(Next(w, e)))
  {
    if e.Push? || e.CancelPush? {
      PushMoves(w, e);
    } else if e.AbortResumes? {
      AbortGoesOnMoves(w, e.k, e.alive);
      hide AbortGoesOn, Moves;
    } else if e.AbortStopped? {
      AbortEndMoves(w, e.k, e.alive);
      hide AbortEnds, Moves;
    } else {
      OtherMoves(w, e);
      hide Next;
      MovesKeepAborts(CoreOf(w), CoreOf(Next(w, e)));
      assert CoreWith(w, Next(w, e)) == CoreOf(w);
    }
  }

  lemma OtherMoves(w: World, e: Event)
    requires TearingInactive(w) && !Aborts(e)
    ensures Moves(CoreOf(w), CoreOf(Next(w, e)))
  {
    hide ConnectEnds, HandleEstablished, EndDialog, SpawnBegins, SpawnEnds, StaleEnds, GraceEnds, TapBegins,
         MaxWakes, StopBeginning, StopGoesOn, StopEnds, GraceWakes, Moves;
    match e {
      case Tap(video) => TapMoves(w, video);
      case ConnectDone(k, how, alive) => ConnectMoves(w, k, how, alive);
      case Established(c) => EstablishedMoves(w, c);
      case SipEnds(c) => EstablishedMoves(w, c);
      case SpawnRuns(c, video, alive) => SpawnBeginMoves(w, c, video, alive);
      case SpawnResumes(c, end, over, alive) => SpawnEndMoves(w, c, end, over, alive);
      case StaleStopped(c, alive) => StaleEndMoves(w, c, alive);
      case GraceFires(c, alive) => GraceMoves(w, c, alive);
      case GraceStopped(c, alive) => GraceEndMoves(w, c, alive);
      case MaxFires(c) => MaxMoves(w, c);
      case StopBegins(alive) => StopBeginMoves(w, alive);
      case StopResumes(k, alive) => StopMoves(w, k, alive);
      case StopStopped(k, alive) => StopMoves(w, k, alive);
      case CleanupDone => MovesSame(CoreOf(w), CoreOf(Next(w, e)));
    }
  }

  ghost predicate TimersOk(w: World) { TearingInactive(w) && AbortsOk(CoreOf(w)) && NotesOk(CoreOf(w)) }

  lemma {:induction false} RunsAreOk(es: seq<Event>, w: World)
    requires Reached(es, w)
    ensures TimersOk(w)
    decreases |es|
  {
    if es != [] {
      var v := ReachedLast(es, w);
      RunsAreOk(es[..|es| - 1], v);
      hide Reached, Next, Moves, NotesOk, AbortsOk, TearingInactive;
      NextMoves(v, es[|es| - 1]);
      TearingStaysInactive(v, es[|es| - 1]);
      NotesIgnoreAborts(v, w);
      MovesKeepNotes(CoreWith(v, w), CoreOf(w));
    }
  }

  lemma NotesIgnoreAborts(w: World, v: World)
    requires NotesOk(CoreOf(w))
    ensures NotesOk(CoreWith(w, v))
  {}

  /** MAIN RESULT: in every interleaving, `on_call_active` for a call never follows `on_call_ended`
      for it, and never follows the end of `async_stop`. */
  lemma NothingIsPublishedTooLate(es: seq<Event>, w: World, i: nat, j: nat)
    requires Reached(es, w) && i < j < |w.notes| && w.notes[j].Active?
    ensures w.notes[i] != StopCompleted
    ensures w.notes[i].Ended? ==> w.notes[i].call != w.notes[j].call
  {
    RunsAreOk(es, w);
    hide Reached;
  }

  /** MAIN RESULT: in every interleaving, a URL is published only for the call that is active, and
      never once the manager has stopped. */
  lemma PublishedOnlyWhileActive(ws: seq<World>, es: seq<Event>, i: nat, j: nat, c: nat)
    requires Run(ws, es) && i < |es| && |ws[i].notes| <= j < |ws[i + 1].notes| && ws[i + 1].notes[j] == Active(c)
    ensures ws[i].started && ws[i].active == Some(c) && ws[i + 1].active == Some(c)
  {
    RunPrefix(ws, es, i);
    RunsAreOk(es[..i], ws[i]);
    assert ws[i + 1] == Next(ws[i], es[i]);
    assert TearingInactive(ws[i]) && AbortsOk(CoreOf(ws[i]));
    hide Run, Reached, TimersOk, Next, TearingInactive, AbortsOk;
    NextMoves(ws[i], es[i]);
    assert Justified(ws[i + 1].notes[j], CoreWith(ws[i], ws[i + 1]), CoreOf(ws[i + 1]));
  }

  /** A max-duration timer or grace timer of call a wakes up, or its teardown goes on. */
  predicate TimerOf(e: Event, a: nat)
  {
    e == MaxFires(a) || ((e.GraceFires? || e.GraceStopped?) && e.call == a)
  }

  /** A note that a timer of call a may add between the worlds w and v. */
  predicate TimerNote(n: Note, a: nat, w: World, v: World)
  {
    match n
    case HungUp(c) => c == a && w.active == Some(a) && w.sip == Some(a)
    case Cleared(c) => c == a && w.active == Some(a) && v.active == None
    case Ended(c) => c == a && v.active != Some(a)
    case _ => false
  }

  /** The notes grow, and each new one is such a note. */
  predicate TimerNotes(w: World, v: World, a: nat)
  {
    && |w.notes| <= |v.notes| && v.notes[..|w.notes|] == w.notes
    && forall j :: |w.notes| <= j < |v.notes| ==> TimerNote(v.notes[j], a, w, v)
  }

  /** MAIN RESULT: in every interleaving, a timer of call a hangs up and clears a only while a is
      the active call, ends a only when it no longer is, publishes nothing, and does none of this to
      any other call. */
  lemma TimersKeepToTheirCall(ws: seq<World>, es: seq<Event>, i: nat, a: nat)
    requires Run(ws, es) && i < |es| && TimerOf(es[i], a)
    ensures TimerNotes(ws[i], ws[i + 1], a)
  {
    RunPrefix(ws, es, i);
    RunsAreOk(es[..i], ws[i]);
    assert ws[i + 1] == Next(ws[i], es[i]);
    assert TearingInactive(ws[i]);
    hide Run, Reached, TimersOk, Next, TearingInactive;
    TimerNotesNext(ws[i], es[i], a);
  }

  lemma TimerNotesNext(w: World, e: Event, a: nat)
    requires TearingInactive(w) && TimerOf(e, a)
    ensures TimerNotes(w, Next(w, e), a)
  {
    hide MaxWakes, GraceWakes, GraceEnds;
    match e {
      case MaxFires(_) => MaxNotes(w, a);
      case GraceFires(_, alive) => GraceNotes(w, a, alive);
      case GraceStopped(_, alive) => GraceEndNotes(w, a, alive);
    }
    hide TimerNotes;
  }

  lemma MaxNotes(w: World, c: nat)
    ensures TimerNotes(w, MaxWakes(w, c), c)
  {
    hide Hang;
    if c < |w.calls| && w.calls[c].max { HangNotes(WithCall(w, c, w.calls[c].(max := false)), c); }
  }

  lemma HangNotes(w: World, c: nat)
    ensures Hang(w, c).notes == w.notes || (w.sip == Some(c) && Hang(w, c).notes == w.notes + [HungUp(c)])
  {
    hide EndDialog;
    TerminatedIsQuiet(Noted(w, HungUp(c)), c);
    assert CoreOf(EndDialog(Noted(w, HungUp(c)), c)).notes == w.notes + [HungUp(c)];
  }

  lemma GraceNotes(w: World, c: nat, alive: Ffmpeg)
    ensures TimerNotes(w, GraceWakes(w, c, alive), c)
  {
    if c < |w.calls| && w.calls[c].grace == Sleeping && w.active == Some(c) {
      ClearedCore(w, c, alive);
      hide GraceWakes;
      var v := GraceWakes(w, c, alive);
      assert v.notes == CoreOf(v).notes && v.active == CoreOf(v).active == None;
    }
  }

  lemma GraceEndNotes(w: World, c: nat, alive: Ffmpeg)
    requires TearingInactive(w)
    ensures TimerNotes(w, GraceEnds(w, c, alive), c)
  {
    hide TearingAt, GoOn, Dropped;
    var v := GraceEnds(w, c, alive);
    if c < |w.calls| && w.calls[c].grace.Tearing? {
      var at := w.calls[c].grace.at;
      StopCore(w, at, alive);
      TearingAtCore(GoOn(w, at, alive), c);
      assert CoreOf(v).active == w.active && v.notes == CoreOf(v).notes;
      assert v.notes == w.notes || v.notes == w.notes + [Ended(c)];
    }
  }

  // ---------- other calls ----------

  /** Which dialogs are up. */
  predicate SameDialogs(a: seq<Call>, b: seq<Call>, except: nat)
  {
    |a| == |b| && forall c :: 0 <= c < |a| && c != except ==> a[c].live == b[c].live
  }

  lemma DialogsUpdate(a: seq<Call>, t: nat, r: Call, except: nat)
    requires t < |a| && r.live == a[t].live
    ensures SameDialogs(a, a[t := r], except)
  {}

  lemma CancelKeepsDialogs(w: World, c: nat)
    ensures SameDialogs(w.calls, CancelMax(w).calls, c)
  {
    if w.maxTask.Some? && w.maxTask.value < |w.calls| {
      DialogsUpdate(w.calls, w.maxTask.value, w.calls[w.maxTask.value].(max := false), c);
    }
  }

  lemma GraceKeepsDialogs(w: World, c: nat)
    ensures SameDialogs(w.calls, CancelGrace(w).calls, c)
  {
    if w.graceTask.Some? && w.graceTask.value < |w.calls| {
      var g := w.calls[w.graceTask.value];
      DialogsUpdate(w.calls, w.graceTask.value, g.(grace := CancelledGrace(g.grace)), c);
    }
  }

  lemma HelpersKeepDialogs(w: World, c: nat)
    ensures SameDialogs(w.calls, CancelMax(w).calls, c) && SameDialogs(w.calls, CancelGrace(w).calls, c)
    ensures ClosePending(w).calls == w.calls == CancelPrewarm(w).calls
  {
    CancelKeepsDialogs(w, c);
    GraceKeepsDialogs(w, c);
    hide CancelMax, CancelGrace;
  }

  lemma TerminatedKeepsDialogs(w: World, c: nat)
    ensures SameDialogs(w.calls, HandleTerminated(w, c).calls, c)
  {
    hide CancelMax, CancelGrace, ClosePending, CancelPrewarm;
    if w.active == Some(c) && c < |w.calls| {
      var y := CancelPrewarm(CancelMax(w));
      var x := ClosePending(y).(sip := None);
      HelpersKeepDialogs(w, c);
      HelpersKeepDialogs(CancelMax(w), c);
      HelpersKeepDialogs(y, c);
      HelpersKeepDialogs(x, c);
    }
  }

  lemma HangKeepsDialogs(w: World, c: nat)
    ensures SameDialogs(w.calls, Hang(w, c).calls, c)
  {
    if c < |w.calls| && w.calls[c].live {
      var n := WithCall(Noted(w, HungUp(c)), c, w.calls[c].(live := false));
      TerminatedKeepsDialogs(n, c);
      hide HandleTerminated;
    }
  }

  /** MAIN RESULT: whenever a max-duration or grace timer of call a wakes up, or its teardown goes
      on, the dialogs of all other calls stay as they are, and the active call stays the active call
      unless it is a. */
  lemma TimersLeaveOtherCallsAlone(w: World, e: Event, a: nat)
    requires TimerOf(e, a)
    ensures SameDialogs(w.calls, Next(w, e).calls, a)
    ensures w.active != Some(a) ==> Next(w, e).active == w.active && Next(w, e).sip == w.sip
  {
    hide MaxWakes, GraceWakes, GraceEnds, SameDialogs;
    match e {
      case MaxFires(_) => MaxLeavesOthers(w, a);
      case GraceFires(_, alive) => GraceLeavesOthers(w, a, alive);
      case GraceStopped(_, alive) => GraceLeavesOthers(w, a, alive);
    }
  }

  lemma MaxLeavesOthers(w: World, a: nat)
    ensures SameDialogs(w.calls, MaxWakes(w, a).calls, a)
    ensures w.active != Some(a) ==> MaxWakes(w, a).active == w.active && MaxWakes(w, a).sip == w.sip
  {
    if a < |w.calls| {
      HangKeepsDialogs(WithCall(w, a, w.calls[a].(max := false)), a);
      hide Hang;
    }
  }

  lemma TearingAtKeepsDialogs(w: World, s: Stop, a: nat)
    requires s.w.calls == w.calls && s.w.sip == w.sip
    ensures SameDialogs(w.calls, TearingAt(s, a).calls, a)
    ensures TearingAt(s, a).sip == w.sip && TearingAt(s, a).active == s.w.active
  {
    hide SetUrl;
    if a < |w.calls| {
      var v := WithCall(s.w, a, w.calls[a].(grace := Over));
      SetUrlKeeps(Noted(v, Ended(a)), a);
      DialogsUpdate(w.calls, a, w.calls[a].(grace := Over), a);
      if s.at.Some? { DialogsUpdate(w.calls, a, w.calls[a].(grace := Tearing(s.at.value, false)), a); }
    }
  }

  lemma SetUrlKeeps(w: World, c: nat)
    ensures var v := SetUrl(w, c, None); v.calls == w.calls && v.sip == w.sip && v.active == w.active
  {}

  lemma StopKeepsSip(w: World, at: Await, alive: Ffmpeg)
    ensures BeginStop(w, alive).w.sip == w.sip == GoOn(w, at, alive).w.sip && Dropped(w, at).sip == w.sip
  {}

  lemma GraceLeavesOthers(w: World, a: nat, alive: Ffmpeg)
    ensures SameDialogs(w.calls, GraceWakes(w, a, alive).calls, a) && SameDialogs(w.calls, GraceEnds(w, a, alive).calls, a)
    ensures w.active != Some(a) ==> GraceWakes(w, a, alive).active == w.active && GraceWakes(w, a, alive).sip == w.sip
    ensures GraceEnds(w, a, alive).active == w.active && GraceEnds(w, a, alive).sip == w.sip
  {
    hide BeginStop, GoOn, Dropped, TearingAt;
    if a < |w.calls| && w.calls[a].grace == Sleeping && w.active == Some(a) {
      var x := Noted(w, Cleared(a)).(active := None);
      StopKeepsCalls(x, OnExit, alive);
      StopKeepsSip(x, OnExit, alive);
      TearingAtKeepsDialogs(w, BeginStop(x, alive), a);
    }
    if a < |w.calls| && w.calls[a].grace.Tearing? {
      var at := w.calls[a].grace.at;
      StopKeepsCalls(w, at, alive);
      StopKeepsSip(w, at, alive);
      StopCore(w, at, alive);
      assert CoreOf(GoOn(w, at, alive).w).active == w.active == CoreOf(Dropped(w, at)).active;
      TearingAtKeepsDialogs(w, GoOn(w, at, alive), a);
    }
  }
}
