/** How long a ring can be answered: when the invite that it parked leaves the coordinator, in every
    interleaving. */
module CallRings {
  import opened Basics
  import opened CallFlow
  import opened CallFrames

  /** What taps and rings work on. */
  datatype Ring = Ring(data: bool, invite: Option<nat>, invites: seq<Invite>, connects: seq<ConnectPc>, deeds: seq<Deed>)

  function RingOf(w: World): Ring { Ring(w.data, w.invite, w.invites, w.connects, w.deeds) }

  function Arrived(r: Ring, creds: bool): Ring
  {
    if creds then r.(data := true, invites := r.invites + [Invite(false, false)], invite := Some(|r.invites|))
    else r.(data := true, invite := None)
  }

  function Handled(r: Ring, k: Then): Ring { if k.NewRing? then Arrived(r, k.creds) else r.(invite := None) }

  /** What a push does once no call is active any more: at once, or when the abort it waited for ends
      with this event. */
  function PushDone(w: World, e: Event): Option<Then>
  {
    match e
    case Push(creds, alive) => if w.active.None? || AbortsAtOnce(w, alive) then Some(NewRing(creds)) else None
    case CancelPush(alive) => if w.active.None? || AbortsAtOnce(w, alive) then Some(CancelRing) else None
    case AbortResumes(k, alive) =>
      if k < |w.aborts| && w.aborts[k].AbortAwaitsSpawn? && SpawnDone(w, w.aborts[k].task) && ReturnsAtOnce(w, alive)
      then Some(w.aborts[k].next) else None
    case AbortStopped(k, alive) =>
      if k < |w.aborts| && w.aborts[k].AbortAwaitsStop? && Returns(w, w.aborts[k].at, alive)
      then Some(w.aborts[k].next) else None
    case _ => None
  }

  /** The teardown of call c ends with this event. */
  predicate TeardownEnds(w: World, e: Event)
  {
    match e
    case GraceFires(c, alive) =>
      c < |w.calls| && w.calls[c].grace == Sleeping && w.active == Some(c) && ReturnsAtOnce(w, alive)
    case GraceStopped(c, alive) =>
      c < |w.calls| && w.calls[c].grace.Tearing? && !w.calls[c].grace.cancelled && Returns(w, w.calls[c].grace.at, alive)
    case _ => false
  }

  /** The end of a teardown whose call the coordinator tracks. */
  predicate TrackedEnds(w: World, e: Event) { TeardownEnds(w, e) && w.data && w.sipId == Some(e.call) }

  function RingAfter(w: World, e: Event): Ring
  {
    var r := RingOf(w);
    if PushDone(w, e).Some? then Handled(r, PushDone(w, e).value)
    else if TrackedEnds(w, e) then r.(invite := None)
    else r
  }

  // ---------- one step ----------

  lemma TidiedRing(w: World, v: World)
    requires Tidied(w, v)
    ensures RingOf(v) == RingOf(w)
  {
    hide SameSpawns;
  }

  lemma StopRing(w: World, at: Await, alive: Ffmpeg)
    ensures RingOf(BeginStop(w, alive).w) == RingOf(w) == RingOf(GoOn(w, at, alive).w) && RingOf(Dropped(w, at)) == RingOf(w)
    ensures BeginStop(w, alive).w.sipId == w.sipId == GoOn(w, at, alive).w.sipId
  {
    StopStops(w, at, alive);
    hide BeginStop, GoOn, Dropped;
  }

  lemma ContinueRing(w: World, k: Then)
    ensures RingOf(Continue(w, k)) == Handled(RingOf(w), k)
  {}

  lemma EndSpawnRing(w: World, c: nat)
    ensures RingOf(EndSpawn(w, c)) == RingOf(w)
  {}

  lemma SetUrlRing(w: World, c: nat, url: Option<nat>)
    ensures RingOf(SetUrl(w, c, url))
         == if url.None? && w.data && w.sipId == Some(c) then RingOf(w).(invite := None) else RingOf(w)
  {}

  lemma StaleAtRing(s: Stop, c: nat)
    ensures RingOf(StaleAt(s, c)) == RingOf(s.w)
  {}

  lemma PublishRing(w: World, v: World, c: nat, pipeline: nat, alive: Ffmpeg)
    requires RingOf(v) == RingOf(w)
    ensures RingOf(Publish(v, c, pipeline, alive)) == RingOf(w)
  {
    hide SetUrl, EndSpawn, BeginStop, StaleAt;
    StopRing(v, OnExit, alive);
    StaleAtRing(BeginStop(v, alive), c);
    SetUrlRing(Noted(v, Active(c)), c, Some(pipeline));
    EndSpawnRing(SetUrl(Noted(v, Active(c)), c, Some(pipeline)), c);
  }

  lemma HangEndRing(w: World, v: World, c: nat)
    requires RingOf(v) == RingOf(w)
    ensures RingOf(EndSpawn(Hang(v, c), c)) == RingOf(w)
  {
    hide Hang, EndSpawn;
    HangTidies(v, c);
    TidiedRing(v, Hang(v, c));
    EndSpawnRing(Hang(v, c), c);
  }

  lemma TakenRing(w: World, video: bool, c: nat, r: Call)
    requires w.pendAudio.Some?
    ensures RingOf(Taken(w, video)) == RingOf(w) == RingOf(WithCall(Taken(w, video).(prewarm := false), c, r))
    ensures RingOf(CloseSocks(w, w.pendVideo).(pendVideo := {})) == RingOf(w)
  {}

  lemma SpawnRing(w: World, c: nat, video: bool, alive: Ffmpeg)
    ensures RingOf(SpawnBegins(w, c, video, alive)) == RingOf(w)
  {
    hide EndSpawn, Hang, Publish, Running, Runner, Taken, WithCall, CloseSocks;
    EndSpawnRing(w, c);
    if c < |w.calls| && w.calls[c].spawn == Scheduled(false) {
      if w.pendAudio.None? {
        NoAudioRing(w, c);
      } else {
        TakenRing(w, video, c, w.calls[c].(spawn := InStart(Used(w, video), w.generation, w.prewarm, false)));
        if Running(w, alive) {
          RunningMeans(w, alive);
          PublishRing(w, Taken(w, video), c, Runner(w), alive);
        }
      }
    }
  }

  lemma NoAudioRing(w: World, c: nat)
    ensures RingOf(EndSpawn(Hang(CloseSocks(w, w.pendVideo).(pendVideo := {}), c), c)) == RingOf(w)
  {
    HangEndRing(w, CloseSocks(w, w.pendVideo).(pendVideo := {}), c);
    hide Hang, EndSpawn;
  }

  lemma UnwoundRing(w: World, socks: set<nat>, over: set<nat>, prewarm: bool)
    ensures RingOf(Unwound(w, socks, over)) == RingOf(w) == RingOf(Unwound(w, socks, over).(prewarm := prewarm))
  {}

  lemma SpawnEndRing(w: World, c: nat, end: StartEnd, over: set<nat>, alive: Ffmpeg)
    ensures RingOf(SpawnEnds(w, c, end, over, alive)) == RingOf(w)
  {
    hide EndSpawn, Hang, Publish, Unwound;
    if c < |w.calls| && w.calls[c].spawn.InStart? {
      var s := w.calls[c].spawn;
      var u := Unwound(w, s.socks, over);
      UnwoundRing(w, s.socks, over, w.prewarm || (end.InPrewarm? && s.prewarmed));
      if s.cancelled {
        EndSpawnRing(u.(prewarm := w.prewarm || (end.InPrewarm? && s.prewarmed)), c);
      } else {
        match end {
          case InPrewarm =>
          case SpawnFails => HangEndRing(w, w, c);
          case WrapFails => HangEndRing(w, u, c);
          case Passes =>
            EndSpawnRing(u, c);
            PublishRing(w, w.(up := Some(Up(c, s.socks + (UpSocks(w) - over)))), c, c, alive);
        }
      }
    }
  }

  lemma StaleRing(w: World, c: nat, alive: Ffmpeg)
    ensures RingOf(StaleEnds(w, c, alive)) == RingOf(w)
  {
    hide GoOn, Dropped, EndSpawn, StaleAt;
    if c < |w.calls| && w.calls[c].spawn.Stale? {
      var at := w.calls[c].spawn.at;
      StopRing(w, at, alive);
      EndSpawnRing(Dropped(w, at), c);
      StaleAtRing(GoOn(w, at, alive), c);
    }
  }

  lemma AbortAtRing(s: Stop, k: nat, c: nat, next: Then)
    requires k < |s.w.aborts|
    ensures RingOf(AbortAt(s, k, c, next)) == if s.at.Some? then RingOf(s.w) else Handled(RingOf(s.w), next)
  {
    if s.at.None? {
      hide SetUrl, Continue;
      var x := s.w.(active := None, aborts := s.w.aborts[k := AbortOver]);
      SetUrlRing(Noted(x, Ended(c)), c, None);
      ContinueRing(CallEnded(x, c), next);
    }
  }

  lemma AbortBeginsRing(w: World, next: Then, alive: Ffmpeg)
    requires w.active.Some?
    ensures RingOf(AbortBegins(w, next, alive)) == if AbortsAtOnce(w, alive) then Handled(RingOf(w), next) else RingOf(w)
  {
    var c := w.active.value;
    AbortShape(w, next, alive);
    hide Aborted, AbortAt, BeginStop, CancelTask;
    var v := Aborted(w, c);
    TidiedRing(w, v);
    var u := v.(spawnTask := None, aborts := v.aborts + [AbortOver]);
    if AwaitsSpawn(w) {
      CancelTaskRing(u, v.spawnTask.value);
      assert RingOf(AbortBegins(w, next, alive)) == RingOf(CancelTask(u, v.spawnTask.value));
    } else {
      StopRing(u, OnExit, alive);
      AbortAtRing(BeginStop(u, alive), |v.aborts|, c, next);
    }
  }

  lemma CancelTaskRing(w: World, t: nat)
    requires t < |w.calls|
    ensures RingOf(CancelTask(w, t)) == RingOf(w)
  {}

  lemma AbortGoesOnRing(w: World, k: nat, alive: Ffmpeg)
    ensures RingOf(AbortGoesOn(w, k, alive)) == RingAfter(w, AbortResumes(k, alive))
  {
    hide AbortAt, BeginStop, Handled;
    StopRing(w, OnExit, alive);
    StopStops(w, OnExit, alive);
    BeginReturns(w, alive);
    if k < |w.aborts| && w.aborts[k].AbortAwaitsSpawn? {
      AbortAtRing(BeginStop(w, alive), k, w.aborts[k].call, w.aborts[k].next);
    }
  }

  lemma AbortEndsRing(w: World, k: nat, alive: Ffmpeg)
    ensures RingOf(AbortEnds(w, k, alive)) == RingAfter(w, AbortStopped(k, alive))
  {
    hide AbortAt, GoOn, Handled, Returns;
    if k < |w.aborts| && w.aborts[k].AbortAwaitsStop? {
      var at := w.aborts[k].at;
      StopRing(w, at, alive);
      StopStops(w, at, alive);
      GoOnReturns(w, at, alive);
      AbortAtRing(GoOn(w, at, alive), k, w.aborts[k].call, w.aborts[k].next);
    }
  }

  lemma StopAtRing(s: Stop, k: nat)
    requires k < |s.w.stops|
    ensures RingOf(StopAt(s, k)) == RingOf(s.w)
  {
    if s.at.None? {
      hide CancelMax, CancelGrace, ClosePending, Tidied;
      var v := s.w.(sip := None, active := None, stops := s.w.stops[k := StopOver]);
      MaxTidies(v);
      GraceTidies(CancelMax(v));
      PendingTidies(CancelGrace(CancelMax(v)));
      TidiedRing(v, CancelMax(v));
      TidiedRing(CancelMax(v), CancelGrace(CancelMax(v)));
      TidiedRing(CancelGrace(CancelMax(v)), ClosePending(CancelGrace(CancelMax(v))));
    }
  }

  lemma StopKeepsRing(w: World, k: nat, alive: Ffmpeg)
    ensures RingOf(StopGoesOn(w, k, alive)) == RingOf(w) == RingOf(StopEnds(w, k, alive))
  {
    hide StopAt, BeginStop, GoOn;
    StopRing(w, OnExit, alive);
    StopStops(w, OnExit, alive);
    if k < |w.stops| {
      StopAtRing(BeginStop(w, alive), k);
      if w.stops[k].StopAwaitsBridge? {
        StopRing(w, w.stops[k].at, alive);
        StopStops(w, w.stops[k].at, alive);
        StopAtRing(GoOn(w, w.stops[k].at, alive), k);
      }
    }
  }

  lemma StopBeginsRing(w: World, alive: Ffmpeg)
    ensures RingOf(StopBeginning(w, alive)) == RingOf(w)
  {
    hide StopAt, BeginStop, CancelTask;
    var u := w.(spawnTask := None, stops := w.stops + [StopOver]);
    if AwaitsSpawn(w) {
      CancelTaskRing(u, w.spawnTask.value);
      assert RingOf(StopBeginning(w, alive)) == RingOf(CancelTask(u, w.spawnTask.value));
    } else {
      StopRing(u, OnExit, alive);
      StopStops(u, OnExit, alive);
      StopAtRing(BeginStop(u, alive), |w.stops|);
    }
  }

  lemma TearingAtRing(s: Stop, c: nat)
    ensures RingOf(TearingAt(s, c))
         == if c < |s.w.calls| && s.at.None? && s.w.data && s.w.sipId == Some(c) then RingOf(s.w).(invite := None)
            else RingOf(s.w)
  {
    if c < |s.w.calls| {
      SetUrlRing(Noted(WithCall(s.w, c, s.w.calls[c].(grace := Over)), Ended(c)), c, None);
      hide SetUrl;
    }
  }

  lemma GraceRing(w: World, c: nat, alive: Ffmpeg)
    ensures RingOf(GraceWakes(w, c, alive)) == RingAfter(w, GraceFires(c, alive))
  {
    hide BeginStop, TearingAt;
    if c < |w.calls| && w.calls[c].grace == Sleeping && w.active == Some(c) {
      var x := Noted(w, Cleared(c)).(active := None);
      StopRing(x, OnExit, alive);
      StopStops(x, OnExit, alive);
      BeginReturns(x, alive);
      TearingAtRing(BeginStop(x, alive), c);
    }
  }

  lemma GraceEndRing(w: World, c: nat, alive: Ffmpeg)
    ensures RingOf(GraceEnds(w, c, alive)) == RingAfter(w, GraceStopped(c, alive))
  {
    hide GoOn, TearingAt, Dropped, Returns;
    if c < |w.calls| && w.calls[c].grace.Tearing? {
      var at := w.calls[c].grace.at;
      StopRing(w, at, alive);
      StopStops(w, at, alive);
      GoOnReturns(w, at, alive);
      TearingAtRing(GoOn(w, at, alive), c);
    }
  }

  lemma OtherRing(w: World, c: nat)
    ensures RingOf(MaxWakes(w, c)) == RingOf(w) == RingOf(HandleEstablished(w, c)) && RingOf(EndDialog(w, c)) == RingOf(w)
  {
    hide Hang, EndDialog;
    EndDialogTidies(w, c);
    TidiedRing(w, EndDialog(w, c));
    if c < |w.calls| {
      var v := WithCall(w, c, w.calls[c].(max := false));
      HangTidies(v, c);
      TidiedRing(v, Hang(v, c));
      hide Tidied;
    }
  }

  predicate Tapping(e: Event) { e.Tap? || e.ConnectDone? }

  lemma NextRing(w: World, e: Event)
    requires !Tapping(e)
    ensures RingOf(Next(w, e)) == RingAfter(w, e)
  {
    hide AbortBegins, HandleEstablished, EndDialog, SpawnBegins, SpawnEnds, StaleEnds, GraceEnds, GraceWakes, MaxWakes,
         AbortGoesOn, AbortEnds, StopBeginning, StopGoesOn, StopEnds, AbortsAtOnce, ReturnsAtOnce, Returns, Handled, SpawnDone;
    match e {
      case Push(_, _) => PushRing(w, e);
      case CancelPush(_) => PushRing(w, e);
      case SipEnds(c) => OtherRing(w, c);
      case Established(c) => OtherRing(w, c);
      case MaxFires(c) => OtherRing(w, c);
      case SpawnRuns(c, video, alive) => SpawnRing(w, c, video, alive);
      case SpawnResumes(c, end, over, alive) => SpawnEndRing(w, c, end, over, alive);
      case StaleStopped(c, alive) => StaleRing(w, c, alive);
      case AbortResumes(k, alive) => AbortGoesOnRing(w, k, alive);
      case AbortStopped(k, alive) => AbortEndsRing(w, k, alive);
      case StopBegins(alive) => StopBeginsRing(w, alive);
      case StopResumes(k, alive) => StopKeepsRing(w, k, alive);
      case StopStopped(k, alive) => StopKeepsRing(w, k, alive);
      case GraceFires(c, alive) => GraceRing(w, c, alive);
      case GraceStopped(c, alive) => GraceEndRing(w, c, alive);
      case CleanupDone =>
    }
  }

  lemma PushRing(w: World, e: Event)
    requires e.Push? || e.CancelPush?
    ensures RingOf(Next(w, e)) == RingAfter(w, e)
  {
    var k := if e.Push? then NewRing(e.creds) else CancelRing;
    hide AbortBegins, ReturnsAtOnce;
    if w.active.Some? {
      AbortBeginsRing(w, k, e.alive);
    } else {
      ContinueRing(w, k);
      assert Next(w, e) == Continue(w, k);
      hide Next, Continue;
    }
  }

  /** A tap marks invites, and parks none. */
  lemma TapRing(w: World, e: Event)
    requires Tapping(e)
    ensures var r, q := RingOf(w), RingOf(Next(w, e)); q.data == r.data && q.invite == r.invite && |q.invites| == |r.invites|
  {
    if e.ConnectDone? {
      ConnectRing(w, e.k, e.how, e.alive);
      hide ConnectEnds;
    }
  }

  lemma ConnectRing(w: World, k: nat, how: Connect, alive: Ffmpeg)
    ensures var r, q := RingOf(w), RingOf(ConnectEnds(w, k, how, alive));
      q.data == r.data && q.invite == r.invite && |q.invites| == |r.invites|
  {
    hide ClosePending, Running;
    if k < |w.connects| {
      PendingTidies(w.(connects := w.connects[k := ConnectOver]));
      TidiedRing(w.(connects := w.connects[k := ConnectOver]), ClosePending(w.(connects := w.connects[k := ConnectOver])));
      hide Tidied;
    }
  }

  // ---------- every run ----------

  /** The events that take a parked invite away: a push or cancel once no call is active, at once or
      when the abort it waited for ends; the end of the teardown of the tracked call. */
  predicate Leaves(w: World, e: Event) { PushDone(w, e).Some? || TrackedEnds(w, e) }

  predicate Known(w: World) { w.invite.Some? ==> w.invite.value < |w.invites| }

  lemma NoTapTakes(w: World, e: Event)
    requires Tapping(e)
    ensures !Leaves(w, e)
  {}

  /** A number that is not parked now is never parked again. */
  lemma ParkedOnce(w: World, e: Event, p: nat)
    requires Known(w)
    ensures Known(Next(w, e))
    ensures p < |w.invites| ==> p < |Next(w, e).invites|
    ensures p < |w.invites| ==> (Next(w, e).invite == Some(p) <==> w.invite == Some(p) && !Leaves(w, e))
  {
    var v := Next(w, e);
    hide Next, PushDone, TrackedEnds;
    assert RingOf(v).invites == v.invites && RingOf(v).invite == v.invite;
    if Tapping(e) {
      TapRing(w, e);
      NoTapTakes(w, e);
    } else {
      NextRing(w, e);
    }
  }

  lemma {:induction false} RingsAreKnown(ws: seq<World>, es: seq<Event>, i: nat)
    requires Run(ws, es) && i <= |es|
    ensures Known(ws[i])
  {
    hide Next;
    if i > 0 {
      RingsAreKnown(ws, es, i - 1);
      assert ws[i] == Next(ws[i - 1], es[i - 1]);
      ParkedOnce(ws[i - 1], es[i - 1], 0);
    }
  }

  /** MAIN RESULT: along every run, the invite that a ring has parked is still parked exactly if since
      then no event took it away: a cancel or a later ring, whether at once or through the abort of
      the active call, or the end of the teardown of the call that the coordinator tracks. */
  lemma {:induction false} ParkedUntilItLeaves(ws: seq<World>, es: seq<Event>, i: nat, j: nat, p: nat)
    requires Run(ws, es) && i <= j <= |es| && ws[i].invite == Some(p)
    ensures p < |ws[j].invites|
    ensures ws[j].invite == Some(p) <==> forall m :: i <= m < j ==> !Leaves(ws[m], es[m])
    decreases j
  {
    hide Next, Leaves;
    RingsAreKnown(ws, es, i);
    if i < j {
      ParkedUntilItLeaves(ws, es, i, j - 1, p);
      RingsAreKnown(ws, es, j - 1);
      assert ws[j] == Next(ws[j - 1], es[j - 1]);
      ParkedOnce(ws[j - 1], es[j - 1], p);
    }
  }

  /** MAIN RESULT: a ring that arrives while the last call is being torn down is forgotten at the end
      of that teardown, so that no tap can answer it, exactly if the coordinator still tracks that
      call. */
  lemma RingDuringTeardownIsForgotten(w: World, c: nat, before: Ffmpeg, alive: Ffmpeg)
    requires w.active.None? && TeardownEnds(w, GraceStopped(c, alive))
    ensures var v := Next(w, Push(true, before));
      && v.invite == Some(|w.invites|)
      && (Next(v, GraceStopped(c, alive)).invite.None? <==> w.sipId == Some(c))
  {
    var v := Next(w, Push(true, before));
    assert v == w.(data := true, url := None, invites := v.invites, invite := Some(|w.invites|));
    assert TeardownEnds(v, GraceStopped(c, alive)) && v.sipId == w.sipId;
    NextRing(v, GraceStopped(c, alive));
    hide Next, TeardownEnds;
    assert RingOf(Next(v, GraceStopped(c, alive))).invite == Next(v, GraceStopped(c, alive)).invite;
  }
}
