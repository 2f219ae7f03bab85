/** One call at a time: the invariant of `CallManager` and `IntratoneCoordinator` when handlers do
    not overlap in the ways the program does not guard against. */
module CallOrder {
  import opened Basics
  import opened CallFlow
  import opened CallFrames

  // ---------- the hypotheses on overlap ----------

  predicate ConnectPending(w: World) { exists k :: 0 <= k < |w.connects| && w.connects[k].Connecting? }

  predicate AbortPending(w: World) { exists k :: 0 <= k < |w.aborts| && w.aborts[k] != AbortOver }

  predicate TeardownPending(w: World) { exists c :: 0 <= c < |w.calls| && w.calls[c].grace.Tearing? }

  /** Before `async_stop`: nothing but the end of a cleanup lands during a TCP connect, and no push
      lands while an abort or the teardown after the grace window is suspended. */
  predicate Apart(w: World, e: Event)
  {
    && !e.StopBegins?
    && (ConnectPending(w) ==> e.ConnectDone? || e.CleanupDone?)
    && (e.Push? || e.CancelPush? ==> !AbortPending(w) && !TeardownPending(w))
  }

  /** The 60 s grace timer of the active call does not outrun its bridge startup or an abort, which
      wait for seconds only. */
  predicate InTime(w: World, e: Event)
  {
    e.GraceFires? && w.active == Some(e.call) ==> SpawnDone(w, e.call) && !AbortPending(w)
  }

  predicate Orderly(w: World, e: Event) { Apart(w, e) && InTime(w, e) }

  /** The events lead to w, and each was orderly where it happened. */
  ghost predicate OrderlyReached(es: seq<Event>, w: World)
  {
    exists ws :: Run(ws, es) && ws[|es|] == w && Orderlies(ws, es)
  }

  ghost predicate Orderlies(ws: seq<World>, es: seq<Event>)
  {
    |ws| == |es| + 1 && forall i {:trigger es[i]} :: 0 <= i < |es| ==> Orderly(ws[i], es[i])
  }

  lemma OrderlyLast(es: seq<Event>, w: World) returns (v: World)
    requires OrderlyReached(es, w) && es != []
    ensures OrderlyReached(es[..|es| - 1], v) && Orderly(v, es[|es| - 1]) && w == Next(v, es[|es| - 1])
  {
    hide Next, Orderly;
    var ws :| Run(ws, es) && ws[|es|] == w && Orderlies(ws, es);
    var front := es[..|es| - 1];
    forall i | 0 <= i < |front|
      ensures ws[..|es|][i + 1] == Next(ws[..|es|][i], front[i]) && Orderly(ws[..|es|][i], front[i])
    {
      assert front[i] == es[i];
    }
    assert Run(ws[..|es|], front) && Orderlies(ws[..|es|], front);
    v := ws[|es| - 1];
  }

  lemma OrderlyPrefix(ws: seq<World>, es: seq<Event>, i: nat)
    requires Run(ws, es) && Orderlies(ws, es) && i <= |es|
    ensures OrderlyReached(es[..i], ws[i])
  {
    RunPrefix(ws, es, i);
    var front, events := ws[..i + 1], es[..i];
    hide Next, Orderly;
    forall j | 0 <= j < i ensures Orderly(front[j], events[j]) { assert events[j] == es[j]; }
    assert Orderlies(front, events) && front[|events|] == ws[i];
  }

  // ---------- the invariant ----------

  datatype Stage = Idle | Dialing(k: nat) | InCall(c: nat) | Aborting(c: nat, k: nat) | Ending(c: nat)

  predicate Settled(s: Spawn) { s == NoSpawn || s == Gone }

  predicate Quiet(r: Call) { !r.live && Settled(r.spawn) && !r.grace.Tearing? }

  predicate OthersQuiet(calls: seq<Call>, c: nat)
  {
    forall b :: 0 <= b < |calls| && b != c ==> Quiet(calls[b])
  }

  predicate AllQuiet(calls: seq<Call>) { forall b :: 0 <= b < |calls| ==> Quiet(calls[b]) }

  predicate NoPending(w: World) { w.pendAudio.None? && w.pendVideo == {} }

  predicate InviteSpent(w: World) { w.invite.Some? ==> w.invite.value < |w.invites| && w.invites[w.invite.value].started }

  /** The coordinator tracks call c, and a published URL and a bridge that is up are of c. */
  predicate Tracked(w: World, c: nat)
  {
    && w.data && w.sipId == Some(c) && InviteSpent(w)
    && (w.up.Some? ==> w.up.value.call == c) && (w.url.Some? ==> w.url == Some(c))
  }

  predicate NoAborts(w: World) { forall k :: 0 <= k < |w.aborts| ==> w.aborts[k] == AbortOver }

  predicate NoConnects(w: World) { forall k :: 0 <= k < |w.connects| ==> w.connects[k] == ConnectOver }

  predicate Base(w: World) { w.started && w.stops == [] }

  predicate Nobody(w: World)
  {
    && w.active.None? && w.sip.None? && w.up.None? && w.url.None? && w.sipId.None? && AllQuiet(w.calls) && NoAborts(w)
    && (w.invite.Some? ==> w.data && w.invite.value < |w.invites|)
  }

  /** The latest call, whatever becomes of it. */
  predicate Current(w: World, c: nat)
  {
    c == |w.calls| - 1 && OthersQuiet(w.calls, c) && NoConnects(w) && Tracked(w, c)
  }

  /** The dialog and the startup of the active call. */
  predicate Alive(w: World, c: nat)
    requires c < |w.calls|
  {
    var r := w.calls[c];
    && (w.pendAudio.None? ==> w.pendVideo == {})
    && (r.live ==> w.sip == Some(c) && r.grace == NoGrace) && (!r.live ==> w.sip.None? && NoPending(w))
    && (r.spawn.InStart? || r.spawn == Gone ==> NoPending(w)) && (!r.told ==> r.spawn == NoSpawn)
    && !r.spawn.Stale? && (w.up.Some? ==> r.spawn == Gone)
    && (r.spawn.InStart? ==> r.spawn.snapshot == w.generation && r.spawn.socks != {})
  }

  /** The call is down, and what is left is the bridge. */
  predicate Down(w: World, c: nat)
    requires c < |w.calls|
  {
    !w.calls[c].live && w.sip.None? && NoPending(w)
  }

  /** While the bridge of the current call is being stopped, the URL stays up; once `stop()` has
      closed everything it only waits for ffmpeg. */
  predicate Falling(w: World, at: Await) { (at == OnExit ==> w.up.None?) && (w.url.Some? ==> w.up.Some? || at == OnExit) }

  predicate At(w: World, s: Stage)
  {
    && Base(w)
    && match s
       case Idle => Nobody(w) && NoConnects(w) && NoPending(w)
       case Dialing(k) =>
         && Nobody(w) && (w.pendAudio.None? ==> w.pendVideo == {})
         && k < |w.connects| && w.connects[k].Connecting? && w.invite == Some(w.connects[k].invite) && InviteSpent(w)
         && forall j :: 0 <= j < |w.connects| && j != k ==> w.connects[j] == ConnectOver
       case InCall(c) =>
         && Current(w, c) && Alive(w, c) && w.active == Some(c) && NoAborts(w) && !w.calls[c].grace.Tearing?
         && (w.url.Some? ==> w.up.Some?)
         && (!SpawnDone(w, c) ==> w.spawnTask == Some(c))
         && w.calls[c].spawn != Scheduled(true) && !(w.calls[c].spawn.InStart? && w.calls[c].spawn.cancelled)
       case Aborting(c, k) =>
         && Current(w, c) && Alive(w, c) && Down(w, c) && w.active == Some(c) && !w.calls[c].grace.Tearing?
         && k < |w.aborts| && w.aborts[k] != AbortOver && w.aborts[k].call == c
         && (forall j :: 0 <= j < |w.aborts| && j != k ==> w.aborts[j] == AbortOver)
         && (w.aborts[k].AbortAwaitsStop? ==> SpawnDone(w, c) && Falling(w, w.aborts[k].at))
         && (w.aborts[k].AbortAwaitsSpawn? ==> w.aborts[k].task == c && (w.url.Some? ==> w.up.Some?))
         && w.calls[c].spawn != Scheduled(false) && !(w.calls[c].spawn.InStart? && !w.calls[c].spawn.cancelled)
       case Ending(c) =>
         && Current(w, c) && Down(w, c) && Settled(w.calls[c].spawn) && w.active.None? && NoAborts(w)
         && w.calls[c].grace.Tearing? && !w.calls[c].grace.cancelled && Falling(w, w.calls[c].grace.at)
  }

  // ---------- in a call ----------

  lemma CalmOthers(a: seq<Call>, b: seq<Call>, c: nat)
    requires SameSpawns(a, b)
    ensures OthersQuiet(a, c) ==> OthersQuiet(b, c)
    ensures AllQuiet(a) ==> AllQuiet(b)
  {
    forall i | 0 <= i < |a| && Quiet(a[i]) ensures Quiet(b[i]) { assert Calmer(a[i], b[i]); }
  }

  lemma CalmCurrent(w: World, v: World, c: nat)
    requires Tidied(w, v) && Current(w, c)
    ensures Current(v, c) && Calmer(w.calls[c], v.calls[c])
  {
    CalmOthers(w.calls, v.calls, c);
    hide OthersQuiet;
  }

  /** The active call after something tidied up around it, and its dialog if that is down. */
  lemma TidiedInCall(w: World, v: World, c: nat)
    requires At(w, InCall(c)) && Tidied(w, v) && !v.calls[c].grace.Tearing? && v.sip.None? && NoPending(v) && !v.calls[c].live
    ensures At(v, InCall(c)) && v.calls[c].spawn == w.calls[c].spawn && v.up == w.up
  {
    CalmCurrent(w, v, c);
    hide Current, SameSpawns, Calmer;
    assert v.calls[c].spawn == w.calls[c].spawn && v.calls[c].told == w.calls[c].told by { Calm(w.calls[c], v.calls[c]); }
  }

  lemma Calm(r: Call, q: Call)
    requires Calmer(r, q)
    ensures q.spawn == r.spawn && q.told == r.told
  {}

  lemma DialogEnds(w: World, c: nat)
    requires At(w, InCall(c)) && w.calls[c].live
    ensures At(EndDialog(w, c), InCall(c)) && EndDialog(w, c).calls[c].spawn == w.calls[c].spawn
    ensures NoPending(EndDialog(w, c)) && EndDialog(w, c).up == w.up
  {
    EndDialogFacts(w, c);
    hide EndDialog, Tidied;
    TidiedInCall(w, EndDialog(w, c), c);
  }

  lemma HangEnds(w: World, c: nat)
    requires At(w, InCall(c))
    ensures At(Hang(w, c), InCall(c)) && Hang(w, c).calls[c].spawn == w.calls[c].spawn
    ensures NoPending(w) ==> NoPending(Hang(w, c))
  {
    if w.sip == Some(c) && w.calls[c].live {
      var n := Noted(w, HungUp(c));
      assert At(n, InCall(c));
      DialogEnds(n, c);
      hide EndDialog, At;
    }
  }

  lemma GoneAt(w: World, c: nat)
    requires At(w, InCall(c)) && NoPending(w) && w.calls[c].told
    ensures At(EndSpawn(w, c), InCall(c))
  {
    hide Quiet;
  }

  lemma SpawnBeginsInCall(w: World, c: nat, video: bool, alive: Ffmpeg)
    requires At(w, InCall(c)) && w.calls[c].spawn == Scheduled(false)
    ensures At(SpawnBegins(w, c, video, alive), InCall(c))
  {
    NothingStarting(w, c);
    if w.pendAudio.None? {
      assert CloseSocks(w, w.pendVideo).(pendVideo := {}) == w;
      HangEnds(w, c);
      HangToldKept(w, c);
      hide Hang, At;
      SpawnGone(Hang(w, c), c);
    } else {
      StartsAt(w, c, video);
      assert !Running(w, alive);
      hide At, Taken;
    }
  }

  lemma HangToldKept(w: World, c: nat)
    requires c < |w.calls| && w.calls[c].told
    ensures c < |Hang(w, c).calls| && Hang(w, c).calls[c].told
  {
    HangTidies(w, c);
    hide Hang;
    assert Calmer(w.calls[c], Hang(w, c).calls[c]);
  }

  lemma SpawnGone(w: World, c: nat)
    requires At(w, InCall(c)) && NoPending(w) && c < |w.calls| && w.calls[c].told
    ensures At(EndSpawn(w, c), InCall(c))
  {
    GoneAt(w, c);
  }

  lemma StartsAt(w: World, c: nat, video: bool)
    requires At(w, InCall(c)) && w.calls[c].spawn == Scheduled(false) && w.pendAudio.Some?
    ensures At(WithCall(Taken(w, video).(prewarm := false), c,
                        w.calls[c].(spawn := InStart(Used(w, video), w.generation, w.prewarm, false))), InCall(c))
  {
    assert w.pendAudio.value in Used(w, video);
    hide Quiet, Used;
  }

  /** While the startup of the current call is not inside `start()`, no other is. */
  lemma NothingStarting(w: World, c: nat)
    requires OthersQuiet(w.calls, c) && c < |w.calls| && !w.calls[c].spawn.InStart?
    ensures Starting(w.calls).None?
  {
    forall b | 0 <= b < |w.calls| ensures !w.calls[b].spawn.InStart? {
      if b != c { assert Quiet(w.calls[b]); }
    }
    NoStart(w.calls);
  }

  lemma {:induction false} NoStart(calls: seq<Call>)
    requires forall b :: 0 <= b < |calls| ==> !calls[b].spawn.InStart?
    ensures Starting(calls).None?
    decreases |calls|
  {
    if calls != [] { NoStart(calls[..|calls| - 1]); }
  }

  lemma QuietStarts(w: World)
    requires AllQuiet(w.calls)
    ensures Starting(w.calls).None?
  {
    forall b | 0 <= b < |w.calls| ensures !w.calls[b].spawn.InStart? { assert Quiet(w.calls[b]); }
    NoStart(w.calls);
  }

  lemma SpawnEndsInCall(w: World, c: nat, end: StartEnd, over: set<nat>, alive: Ffmpeg)
    requires At(w, InCall(c)) && w.calls[c].spawn.InStart?
    ensures At(SpawnEnds(w, c, end, over, alive), InCall(c))
  {
    var s := w.calls[c].spawn;
    match end {
      case InPrewarm =>
      case SpawnFails => FailedSpawn(w, w, c);
      case WrapFails =>
        assert Unwound(w, s.socks, over) == CloseSocks(w, s.socks + ({} - over));
        FailedSpawn(w, CloseSocks(w, s.socks + ({} - over)), c);
      case Passes => PublishedAt(w, c, over);
    }
    hide Hang, EndSpawn, At;
  }

  lemma PublishedAt(w: World, c: nat, over: set<nat>)
    requires At(w, InCall(c)) && w.calls[c].spawn.InStart?
    ensures var u := w.(up := Some(Up(c, w.calls[c].spawn.socks + (UpSocks(w) - over))));
      At(EndSpawn(SetUrl(Noted(u, Active(c)), c, Some(c)), c), InCall(c))
  {
    hide Quiet;
  }

  lemma FailedSpawn(w: World, x: World, c: nat)
    requires At(w, InCall(c)) && w.calls[c].spawn.InStart? && x == w.(open := x.open)
    ensures At(EndSpawn(Hang(x, c), c), InCall(c))
  {
    assert At(x, InCall(c)) && w.calls[c].told;
    HangEnds(x, c);
    HangToldKept(x, c);
    assert NoPending(x);
    hide Hang, At;
    SpawnGone(Hang(x, c), c);
  }

  lemma EstablishedInCall(w: World, c: nat, b: nat)
    requires At(w, InCall(c))
    ensures At(HandleEstablished(w, b), InCall(c))
  {}

  lemma MaxInCall(w: World, c: nat, b: nat)
    requires At(w, InCall(c))
    ensures At(MaxWakes(w, b), InCall(c))
  {
    hide Hang;
    if b < |w.calls| && w.calls[b].max {
      var v := WithCall(w, b, w.calls[b].(max := false));
      assert At(v, InCall(c));
      HangEnds(v, c);
    }
  }

  // ---------- stopping the bridge of the current call ----------

  /** The call is down, and its bridge may be stopped. */
  predicate Torn(w: World, c: nat)
  {
    Base(w) && Current(w, c) && Down(w, c) && Settled(w.calls[c].spawn)
  }

  lemma StopTorn(w: World, c: nat, at: Await, alive: Ffmpeg)
    requires Torn(w, c)
    ensures var s := BeginStop(w, alive);
      Torn(s.w, c) && s.w.url == w.url && (if s.at.Some? && s.at.value != OnExit then s.w.up == w.up else s.w.up.None?)
    ensures var s := GoOn(w, at, alive);
      Torn(s.w, c) && s.w.url == w.url
      && (at != OnExit ==> if s.at.Some? && s.at.value != OnExit then s.w.up == w.up else s.w.up.None?)
      && (at == OnExit ==> s == Stop(w, None))
  {
    hide OthersQuiet;
  }

  /** The call is ended, and what a push waited for is done. */
  lemma EndedAt(w: World, v: World, c: nat)
    requires Torn(w, c) && w.up.None? && AllQuiet(v.calls) && NoAborts(v)
    requires v == w.(active := None, calls := v.calls, aborts := v.aborts)
    ensures At(CallEnded(v, c), Idle)
  {
    hide AllQuiet, OthersQuiet;
  }

  lemma RingIdle(w: World, k: Then)
    requires At(w, Idle)
    ensures At(Continue(w, k), Idle)
  {}

  lemma AbortAtStage(s: Stop, c: nat, k: nat, next: Then)
    requires Torn(s.w, c) && s.w.active == Some(c) && Alive(s.w, c) && !s.w.calls[c].grace.Tearing?
    requires k < |s.w.aborts| && forall j :: 0 <= j < |s.w.aborts| && j != k ==> s.w.aborts[j] == AbortOver
    requires if s.at.None? then s.w.up.None? else Falling(s.w, s.at.value)
    ensures At(AbortAt(s, k, c, next), if s.at.None? then Idle else Aborting(c, k))
  {
    if s.at.None? {
      var v := s.w.(active := None, aborts := s.w.aborts[k := AbortOver]);
      assert AllQuiet(v.calls);
      hide AllQuiet, Torn, Continue, At;
      EndedAt(s.w, v, c);
      RingIdle(CallEnded(v, c), next);
    } else {
      AbortSuspended(s.w, c, k, s.at.value, next);
    }
  }

  lemma AbortSuspended(w: World, c: nat, k: nat, at: Await, next: Then)
    requires Torn(w, c) && w.active == Some(c) && Alive(w, c) && !w.calls[c].grace.Tearing? && Falling(w, at)
    requires k < |w.aborts| && forall j :: 0 <= j < |w.aborts| && j != k ==> w.aborts[j] == AbortOver
    ensures At(w.(aborts := w.aborts[k := AbortAwaitsStop(c, at, next)]), Aborting(c, k))
  {
    hide OthersQuiet;
  }

  lemma StopKeepsAlive(w: World, c: nat, at: Await, alive: Ffmpeg)
    requires c < |w.calls| && Alive(w, c) && Settled(w.calls[c].spawn)
    ensures var s := BeginStop(w, alive);
      && s.w.calls == w.calls && Alive(s.w, c) && s.w.active == w.active && s.w.aborts == w.aborts
    ensures var s := GoOn(w, at, alive);
      && s.w.calls == w.calls && Alive(s.w, c) && s.w.active == w.active && s.w.aborts == w.aborts
  {
    BeginKeepsAlive(w, c, alive);
    CleanupKeepsAlive(w, c, alive);
    hide AwaitCleanup, Sweep, Alive, BeginStop;
  }

  lemma BeginKeepsAlive(w: World, c: nat, alive: Ffmpeg)
    requires c < |w.calls| && Alive(w, c) && Settled(w.calls[c].spawn)
    ensures var s := BeginStop(w, alive);
      && s.w.calls == w.calls && Alive(s.w, c) && s.w.active == w.active && s.w.aborts == w.aborts
  {
    var u := w.(generation := w.generation + 1);
    AliveLater(w, c);
    PrewarmKeepsAlive(u, c);
    CleanupKeepsAlive(u, c, alive);
    hide AwaitCleanup, Alive;
  }

  lemma AliveLater(w: World, c: nat)
    requires c < |w.calls| && Alive(w, c) && Settled(w.calls[c].spawn)
    ensures Alive(w.(generation := w.generation + 1), c)
  {}

  lemma PrewarmKeepsAlive(u: World, c: nat)
    requires c < |u.calls| && Alive(u, c)
    ensures Alive(u.(prewarm := false), c)
  {}

  lemma CleanupKeepsAlive(w: World, c: nat, alive: Ffmpeg)
    requires c < |w.calls| && Alive(w, c) && Settled(w.calls[c].spawn)
    ensures var s := AwaitCleanup(w, alive);
      && s.w.calls == w.calls && Alive(s.w, c) && s.w.active == w.active && s.w.aborts == w.aborts
    ensures var s := Sweep(w, alive);
      && s.w.calls == w.calls && Alive(s.w, c) && s.w.active == w.active && s.w.aborts == w.aborts
  {
    hide Running;
  }

  lemma AbortBeginsInCall(w: World, c: nat, next: Then, alive: Ffmpeg) returns (s: Stage)
    requires At(w, InCall(c))
    ensures At(AbortBegins(w, next, alive), s) && (AbortsAtOnce(w, alive) ==> s == Idle)
  {
    AbortShape(w, next, alive);
    AbortedFacts(w, c);
    hide Aborted, AbortAt, BeginStop, Tidied;
    var v, k := Aborted(w, c), |w.aborts|;
    TidiedInCall(w, v, c);
    AbortsKept(w, v);
    hide At;
    if AwaitsSpawn(w) {
      AbortWaitsAt(v, c, next);
      s := Aborting(c, k);
    } else {
      s := AbortStopsAt(v, c, next, alive);
    }
  }

  lemma AbortsKept(w: World, v: World)
    requires Tidied(w, v)
    ensures v.aborts == w.aborts && v.active == w.active
  {}

  lemma AbortWaitsAt(v: World, c: nat, next: Then)
    requires At(v, InCall(c)) && !v.calls[c].live && AwaitsSpawn(v)
    ensures var u := v.(spawnTask := None, aborts := v.aborts + [AbortOver]);
      At(CancelTask(u, v.spawnTask.value).(aborts := v.aborts + [AbortAwaitsSpawn(c, v.spawnTask.value, next)]),
         Aborting(c, |v.aborts|))
  {
    assert v.spawnTask.value == c;
    hide Quiet;
  }

  lemma AbortStopsAt(v: World, c: nat, next: Then, alive: Ffmpeg) returns (s: Stage)
    requires At(v, InCall(c)) && !v.calls[c].live && !AwaitsSpawn(v)
    ensures var u := v.(spawnTask := None, aborts := v.aborts + [AbortOver]);
      && |v.aborts| < |BeginStop(u, alive).w.aborts| && At(AbortAt(BeginStop(u, alive), |v.aborts|, c, next), s)
      && (BeginStop(u, alive).at.None? ==> s == Idle)
  {
    var u := v.(spawnTask := None, aborts := v.aborts + [AbortOver]);
    assert Torn(u, c) && Alive(u, c);
    StopTorn(u, c, OnExit, alive);
    StopKeepsAlive(u, c, OnExit, alive);
    hide Torn, Alive, At, BeginStop, AbortAt;
    var b := BeginStop(u, alive);
    s := if b.at.None? then Idle else Aborting(c, |v.aborts|);
    AbortAtStage(b, c, |v.aborts|, next);
  }

  lemma AbortGoesOnAt(w: World, c: nat, k: nat, j: nat, alive: Ffmpeg) returns (s: Stage)
    requires At(w, Aborting(c, k))
    ensures At(AbortGoesOn(w, j, alive), s)
    ensures j == k && w.aborts[k].AbortAwaitsSpawn? && SpawnDone(w, c) && ReturnsAtOnce(w, alive) ==> s == Idle
  {
    s := Aborting(c, k);
    if j == k && w.aborts[k].AbortAwaitsSpawn? && SpawnDone(w, c) {
      assert Torn(w, c);
      StopTorn(w, c, OnExit, alive);
      StopKeepsAlive(w, c, OnExit, alive);
      BeginReturns(w, alive);
      var b := BeginStop(w, alive);
      s := if b.at.None? then Idle else s;
      hide Torn, Alive, BeginStop, AbortAt, ReturnsAtOnce;
      AbortAtStage(b, c, k, w.aborts[k].next);
    }
  }

  lemma AbortEndsAt(w: World, c: nat, k: nat, j: nat, alive: Ffmpeg) returns (s: Stage)
    requires At(w, Aborting(c, k))
    ensures At(AbortEnds(w, j, alive), s)
    ensures j == k && w.aborts[k].AbortAwaitsStop? && Returns(w, w.aborts[k].at, alive) ==> s == Idle
  {
    s := Aborting(c, k);
    if j == k && w.aborts[k].AbortAwaitsStop? {
      assert Torn(w, c);
      var at := w.aborts[k].at;
      StopTorn(w, c, at, alive);
      StopKeepsAlive(w, c, at, alive);
      GoOnReturns(w, at, alive);
      var b := GoOn(w, at, alive);
      s := if b.at.None? then Idle else s;
      hide Torn, Alive, GoOn, AbortAt, Returns;
      AbortAtStage(b, c, k, w.aborts[k].next);
    }
  }

  // ---------- aborting ----------

  lemma SpawnAborting(w: World, c: nat, k: nat, b: nat, video: bool, end: StartEnd, over: set<nat>, alive: Ffmpeg)
    requires At(w, Aborting(c, k))
    ensures At(SpawnBegins(w, b, video, alive), Aborting(c, k)) && At(SpawnEnds(w, b, end, over, alive), Aborting(c, k))
  {
    hide Hang, Publish;
    if b == c {
      assert SpawnBegins(w, b, video, alive) == if w.calls[c].spawn.Scheduled? then EndSpawn(w, c) else w;
      SpawnDropped(w, c, k, end, over, alive);
    } else {
      assert SpawnBegins(w, b, video, alive) == w && SpawnEnds(w, b, end, over, alive) == w;
    }
  }

  lemma SpawnDropped(w: World, c: nat, k: nat, end: StartEnd, over: set<nat>, alive: Ffmpeg)
    requires At(w, Aborting(c, k))
    ensures At(SpawnEnds(w, c, end, over, alive), Aborting(c, k))
  {
    hide Hang, Publish, Quiet;
  }

  lemma QuietAborting(w: World, c: nat, k: nat, b: nat, alive: Ffmpeg)
    requires At(w, Aborting(c, k))
    ensures EndDialog(w, b) == w && StaleEnds(w, b, alive) == w && GraceEnds(w, b, alive) == w
    ensures At(HandleEstablished(w, b), Aborting(c, k))
  {
    hide HandleTerminated, GoOn, StaleAt, TearingAt;
  }

  lemma TimersAborting(w: World, c: nat, k: nat, b: nat, alive: Ffmpeg)
    requires At(w, Aborting(c, k))
    ensures At(MaxWakes(w, b), Aborting(c, k))
    ensures b != c ==> At(GraceWakes(w, b, alive), Aborting(c, k))
  {
    MaxAborting(w, c, k, b);
    hide EndDialog, BeginStop, TearingAt, MaxWakes;
  }

  lemma MaxAborting(w: World, c: nat, k: nat, b: nat)
    requires At(w, Aborting(c, k))
    ensures At(MaxWakes(w, b), Aborting(c, k))
  {
    hide EndDialog;
  }

  // ---------- the teardown after the grace window ----------

  lemma TearingAtStage(s: Stop, c: nat)
    requires Torn(s.w, c) && s.w.active.None? && NoAborts(s.w)
    requires if s.at.None? then s.w.up.None? else Falling(s.w, s.at.value)
    ensures At(TearingAt(s, c), if s.at.None? then Idle else Ending(c))
  {
    if s.at.None? {
      var v := WithCall(s.w, c, s.w.calls[c].(grace := Over));
      assert AllQuiet(v.calls);
      hide AllQuiet, At;
      EndedAt(s.w, v, c);
    } else {
      TearingSuspended(s.w, c, s.at.value);
    }
  }

  lemma TearingSuspended(w: World, c: nat, at: Await)
    requires Torn(w, c) && w.active.None? && NoAborts(w) && Falling(w, at)
    ensures At(WithCall(w, c, w.calls[c].(grace := Tearing(at, false))), Ending(c))
  {
    hide Quiet;
  }

  lemma StopKeepsNobody(w: World, at: Await, alive: Ffmpeg)
    ensures BeginStop(w, alive).w.active == w.active && BeginStop(w, alive).w.aborts == w.aborts
    ensures GoOn(w, at, alive).w.active == w.active && GoOn(w, at, alive).w.aborts == w.aborts
  {}

  lemma GraceInCall(w: World, c: nat, b: nat, alive: Ffmpeg) returns (s: Stage)
    requires At(w, InCall(c)) && (b == c ==> SpawnDone(w, c))
    ensures At(GraceWakes(w, b, alive), s)
    ensures b == c && w.calls[c].grace == Sleeping && ReturnsAtOnce(w, alive) ==> s == Idle
  {
    if b == c && w.calls[c].grace == Sleeping {
      var x := Noted(w, Cleared(c)).(active := None);
      assert Torn(x, c);
      StopTorn(x, c, OnExit, alive);
      StopKeepsNobody(x, OnExit, alive);
      BeginReturns(x, alive);
      hide Torn, BeginStop, TearingAt;
      var g := BeginStop(x, alive);
      s := if g.at.None? then Idle else Ending(c);
      TearingAtStage(g, c);
    } else {
      s := InCall(c);
      hide BeginStop, TearingAt;
    }
  }

  lemma GraceEndsAt(w: World, c: nat, b: nat, alive: Ffmpeg) returns (s: Stage)
    requires At(w, Ending(c))
    ensures At(GraceEnds(w, b, alive), s)
    ensures b == c && Returns(w, w.calls[c].grace.at, alive) ==> s == Idle
  {
    s := Ending(c);
    if b == c {
      assert Torn(w, c);
      var at := w.calls[c].grace.at;
      StopTorn(w, c, at, alive);
      StopKeepsNobody(w, at, alive);
      GoOnReturns(w, at, alive);
      hide Torn, GoOn, TearingAt, Returns;
      var g := GoOn(w, at, alive);
      s := if g.at.None? then Idle else s;
      TearingAtStage(g, c);
    }
  }

  lemma QuietEnding(w: World, c: nat, b: nat, alive: Ffmpeg)
    requires At(w, Ending(c))
    ensures HandleEstablished(w, b) == w && EndDialog(w, b) == w && StaleEnds(w, b, alive) == w
  {
    hide HandleTerminated, GoOn, StaleAt, EndSpawn, Dropped;
    assert b < |w.calls| && b != c ==> Quiet(w.calls[b]);
    hide Tracked, Falling;
  }

  lemma TimersEnding(w: World, c: nat, b: nat, alive: Ffmpeg)
    requires At(w, Ending(c))
    ensures At(MaxWakes(w, b), Ending(c)) && At(GraceWakes(w, b, alive), Ending(c))
  {
    hide Hang, BeginStop, TearingAt;
  }

  lemma NoStartEnding(w: World, c: nat, b: nat, video: bool, end: StartEnd, over: set<nat>, alive: Ffmpeg)
    requires At(w, Ending(c))
    ensures SpawnBegins(w, b, video, alive) == w && SpawnEnds(w, b, end, over, alive) == w
  {
    hide Hang, Publish, EndSpawn, Running;
  }

  // ---------- no call ----------

  lemma QuietIdle(w: World, b: nat, alive: Ffmpeg)
    requires At(w, Idle)
    ensures HandleEstablished(w, b) == w && EndDialog(w, b) == w && At(MaxWakes(w, b), Idle) && StaleEnds(w, b, alive) == w
    ensures At(GraceWakes(w, b, alive), Idle) && GraceEnds(w, b, alive) == w
  {
    hide HandleTerminated, Hang, BeginStop, TearingAt;
  }

  lemma NoStartIdle(w: World, b: nat, video: bool, end: StartEnd, over: set<nat>, alive: Ffmpeg)
    requires At(w, Idle)
    ensures SpawnBegins(w, b, video, alive) == w && SpawnEnds(w, b, end, over, alive) == w
  {
    hide Hang, Publish, EndSpawn, Running;
  }

  lemma TapIdle(w: World, video: bool)
    requires At(w, Idle)
    ensures At(TapBegins(w, video), if TapBegins(w, video) == w then Idle else Dialing(|w.connects|))
  {}

  lemma ConnectAt(w: World, k: nat, how: Connect, alive: Ffmpeg)
    requires At(w, Dialing(k))
    ensures At(ConnectEnds(w, k, how, alive), if how == Connected then InCall(|w.calls|) else Idle)
  {
    hide Running;
    if how == Connected {
      PlacedAt(w, k, w.connects[k].video && !Running(w, alive));
      hide At;
    }
  }

  lemma PlacedAt(w: World, k: nat, prewarms: bool)
    requires At(w, Dialing(k))
    ensures var p := w.connects[k].invite;
      At(Answer(CallPlaced(w.(connects := w.connects[k := ConnectOver]), p, prewarms), p), InCall(|w.calls|))
  {}

  lemma TapElsewhere(w: World, s: Stage, video: bool)
    requires At(w, s) && (s.InCall? || s.Aborting? || s.Ending?)
    ensures TapBegins(w, video) == w
  {}

  lemma CleanedAt(w: World, s: Stage)
    requires At(w, s)
    ensures At(w.(cleaning := false), s)
  {}

  // ---------- every step ----------

  /** Events that name a call. */
  predicate OfCall(e: Event)
  {
    e.Established? || e.SipEnds? || e.SpawnRuns? || e.SpawnResumes? || e.StaleStopped? || e.GraceFires? || e.GraceStopped?
    || e.MaxFires?
  }

  lemma IdleFacts(w: World)
    requires At(w, Idle)
    ensures w.active.None? && NoAborts(w) && NoConnects(w) && w.stops == []
  {}

  lemma NextIdle(w: World, e: Event) returns (s: Stage)
    requires At(w, Idle) && !e.StopBegins?
    ensures At(Next(w, e), s)
  {
    IdleFacts(w);
    s := Idle;
    if OfCall(e) {
      hide At, Next;
      CallIdle(w, e);
    } else {
      hide At, TapBegins, RingArrives;
      if e.Push? || e.CancelPush? { RingIdle(w, if e.Push? then NewRing(e.creds) else CancelRing); }
      else if e.Tap? {
        TapIdle(w, e.video);
        s := if TapBegins(w, e.video) == w then Idle else Dialing(|w.connects|);
      } else if e.CleanupDone? { CleanedAt(w, Idle); }
    }
  }

  lemma CallIdle(w: World, e: Event)
    requires At(w, Idle) && OfCall(e)
    ensures At(Next(w, e), Idle)
  {
    hide At, SpawnBegins, SpawnEnds, StaleEnds, GraceEnds, GraceWakes, MaxWakes, HandleEstablished, EndDialog;
    match e {
      case SpawnRuns(b, video, alive) => NoStartIdle(w, b, video, Passes, {}, alive);
      case SpawnResumes(b, end, over, alive) => NoStartIdle(w, b, false, end, over, alive);
      case Established(b) => QuietIdle(w, b, Ffmpeg(false, false));
      case SipEnds(b) => QuietIdle(w, b, Ffmpeg(false, false));
      case MaxFires(b) => QuietIdle(w, b, Ffmpeg(false, false));
      case StaleStopped(b, alive) => QuietIdle(w, b, alive);
      case GraceFires(b, alive) => QuietIdle(w, b, alive);
      case GraceStopped(b, alive) => QuietIdle(w, b, alive);
    }
  }

  lemma NextDialing(w: World, k: nat, e: Event) returns (s: Stage)
    requires At(w, Dialing(k)) && Orderly(w, e)
    ensures At(Next(w, e), s)
  {
    assert w.connects[k].Connecting?;
    assert ConnectPending(w);
    s := Dialing(k);
    if e.CleanupDone? {
      CleanedAt(w, s);
    } else if e.k == k {
      ConnectAt(w, k, e.how, e.alive);
      s := if e.how == Connected then InCall(|w.calls|) else Idle;
    } else {
      assert Next(w, e) == w;
    }
    hide At, ConnectEnds;
  }

  lemma InCallFacts(w: World, c: nat)
    requires At(w, InCall(c))
    ensures w.active == Some(c) && c < |w.calls| && NoAborts(w) && NoConnects(w) && w.stops == []
    ensures !w.calls[c].spawn.Stale? && !w.calls[c].grace.Tearing? && w.calls[c].spawn != Scheduled(true)
    ensures OthersQuiet(w.calls, c)
  {}

  lemma NextInCall(w: World, c: nat, e: Event) returns (s: Stage)
    requires At(w, InCall(c)) && Orderly(w, e)
    ensures At(Next(w, e), s)
  {
    InCallFacts(w, c);
    s := InCall(c);
    if e.Push? || e.CancelPush? {
      hide At, AbortBegins;
      s := AbortBeginsInCall(w, c, if e.Push? then NewRing(e.creds) else CancelRing, e.alive);
    } else if e.GraceFires? {
      s := GraceInCall(w, c, e.call, e.alive);
      hide At, GraceWakes;
    } else {
      hide At, Orderly, Next;
      StaysInCall(w, c, e);
    }
  }

  lemma StaysInCall(w: World, c: nat, e: Event)
    requires At(w, InCall(c)) && !(e.Push? || e.CancelPush? || e.GraceFires? || e.StopBegins?)
    ensures At(Next(w, e), InCall(c))
  {
    if OfCall(e) {
      hide At, Next;
      CallInCall(w, c, e);
    } else if e.CleanupDone? {
      CleanedAt(w, InCall(c));
      hide At;
    } else {
      InCallFacts(w, c);
      hide At, TapBegins;
      if e.Tap? { TapElsewhere(w, InCall(c), e.video); }
    }
  }

  lemma CallInCall(w: World, c: nat, e: Event)
    requires At(w, InCall(c)) && OfCall(e) && !e.GraceFires?
    ensures At(Next(w, e), InCall(c))
  {
    InCallFacts(w, c);
    hide At, HandleTerminated, Hang, Publish, MaxWakes, HandleEstablished, EndSpawn, Running, Unwound, GoOn, Dropped, TearingAt;
    match e {
      case Established(b) => EstablishedInCall(w, c, b);
      case SipEnds(b) => if b == c && w.calls[c].live { DialogEnds(w, c); }
      case SpawnRuns(b, video, alive) =>
        if b == c && w.calls[c].spawn.Scheduled? { SpawnBeginsInCall(w, c, video, alive); }
      case SpawnResumes(b, end, over, alive) =>
        if b == c && w.calls[c].spawn.InStart? { SpawnEndsInCall(w, c, end, over, alive); }
      case StaleStopped(b, _) => assert b < |w.calls| && b != c ==> Quiet(w.calls[b]);
      case GraceStopped(b, _) => assert b < |w.calls| && b != c ==> Quiet(w.calls[b]);
      case MaxFires(b) => MaxInCall(w, c, b);
    }
  }

  lemma AbortingFacts(w: World, c: nat, k: nat)
    requires At(w, Aborting(c, k))
    ensures w.active == Some(c) && c < |w.calls| && NoConnects(w) && w.stops == [] && AbortPending(w)
    ensures k < |w.aborts| && w.aborts[k] != AbortOver && forall j :: 0 <= j < |w.aborts| && j != k ==> w.aborts[j] == AbortOver
    ensures !w.calls[c].grace.Tearing? && OthersQuiet(w.calls, c)
  {
    assert w.aborts[k] != AbortOver;
  }

  lemma NextAborting(w: World, c: nat, k: nat, e: Event) returns (s: Stage)
    requires At(w, Aborting(c, k)) && Orderly(w, e)
    ensures At(Next(w, e), s)
  {
    AbortingFacts(w, c, k);
    s := Aborting(c, k);
    hide At;
    if OfCall(e) {
      hide Next, AbortPending, TeardownPending, ConnectPending;
      CallAborting(w, c, k, e);
    } else {
      hide AbortGoesOn, AbortEnds, TapBegins, Orderly;
      match e {
        case Tap(video) => TapElsewhere(w, s, video);
        case AbortResumes(j, alive) => s := AbortGoesOnAt(w, c, k, j, alive);
        case AbortStopped(j, alive) => s := AbortEndsAt(w, c, k, j, alive);
        case CleanupDone => CleanedAt(w, s);
        case _ => NothingAborting(w, c, k, e);
      }
    }
  }

  lemma CallAborting(w: World, c: nat, k: nat, e: Event)
    requires At(w, Aborting(c, k)) && InTime(w, e) && OfCall(e) && AbortPending(w) && w.active == Some(c)
    ensures At(Next(w, e), Aborting(c, k))
  {
    hide At, SpawnBegins, SpawnEnds, StaleEnds, GraceEnds, GraceWakes, MaxWakes, HandleEstablished, EndDialog, AbortPending, SpawnDone;
    match e {
      case SpawnRuns(b, video, alive) => SpawnAborting(w, c, k, b, video, Passes, {}, alive);
      case SpawnResumes(b, end, over, alive) => SpawnAborting(w, c, k, b, false, end, over, alive);
      case Established(b) => QuietAborting(w, c, k, b, Ffmpeg(false, false));
      case SipEnds(b) => QuietAborting(w, c, k, b, Ffmpeg(false, false));
      case StaleStopped(b, alive) => QuietAborting(w, c, k, b, alive);
      case GraceFires(b, alive) => TimersAborting(w, c, k, b, alive);
      case GraceStopped(b, alive) => QuietAborting(w, c, k, b, alive);
      case MaxFires(b) => TimersAborting(w, c, k, b, Ffmpeg(false, false));
    }
  }

  /** Pushes are excluded, and there is no connect and no `async_stop` to end. */
  lemma NothingAborting(w: World, c: nat, k: nat, e: Event)
    requires NoConnects(w) && w.stops == [] && w.active == Some(c) && Orderly(w, e) && AbortPending(w)
    requires !OfCall(e) && !e.Tap? && !e.AbortResumes? && !e.AbortStopped? && !e.CleanupDone?
    ensures Next(w, e) == w
  {
    hide TeardownPending, ConnectPending, SpawnDone, AbortPending;
  }

  lemma EndingFacts(w: World, c: nat)
    requires At(w, Ending(c))
    ensures w.active.None? && c < |w.calls| && NoConnects(w) && NoAborts(w) && w.stops == [] && TeardownPending(w)
    ensures OthersQuiet(w.calls, c)
  {
    assert w.calls[c].grace.Tearing?;
  }

  lemma NextEnding(w: World, c: nat, e: Event) returns (s: Stage)
    requires At(w, Ending(c)) && Orderly(w, e)
    ensures At(Next(w, e), s)
  {
    EndingFacts(w, c);
    s := Ending(c);
    hide At;
    if e.GraceStopped? {
      s := GraceEndsAt(w, c, e.call, e.alive);
      hide GraceEnds;
    } else if OfCall(e) {
      hide Next;
      CallEnding(w, c, e);
    } else if e.Tap? {
      hide TapBegins;
      TapElsewhere(w, s, e.video);
    } else if e.CleanupDone? {
      CleanedAt(w, s);
    } else {
      NothingEnding(w, c, e);
      hide Next;
    }
  }

  lemma CallEnding(w: World, c: nat, e: Event)
    requires At(w, Ending(c)) && OfCall(e) && !e.GraceStopped?
    ensures At(Next(w, e), Ending(c))
  {
    hide At, SpawnBegins, SpawnEnds, StaleEnds, GraceWakes, MaxWakes, HandleEstablished, EndDialog;
    match e {
      case SpawnRuns(b, video, alive) => NoStartEnding(w, c, b, video, Passes, {}, alive);
      case SpawnResumes(b, end, over, alive) => NoStartEnding(w, c, b, false, end, over, alive);
      case Established(b) => QuietEnding(w, c, b, Ffmpeg(false, false));
      case SipEnds(b) => QuietEnding(w, c, b, Ffmpeg(false, false));
      case StaleStopped(b, alive) => QuietEnding(w, c, b, alive);
      case GraceFires(b, alive) => TimersEnding(w, c, b, alive);
      case MaxFires(b) => TimersEnding(w, c, b, Ffmpeg(false, false));
    }
  }

  /** Pushes are excluded, and there is no connect, no abort and no `async_stop` to end. */
  lemma NothingEnding(w: World, c: nat, e: Event)
    requires NoConnects(w) && NoAborts(w) && w.stops == [] && Orderly(w, e) && TeardownPending(w)
    requires !OfCall(e) && !e.Tap? && !e.CleanupDone?
    ensures Next(w, e) == w
  {
    hide TeardownPending, ConnectPending, SpawnDone, AbortPending;
  }

  lemma NextAt(w: World, s: Stage, e: Event) returns (t: Stage)
    requires At(w, s) && Orderly(w, e)
    ensures At(Next(w, e), t)
  {
    assert !e.StopBegins?;
    hide At, Orderly, Next;
    match s {
      case Idle => t := NextIdle(w, e);
      case Dialing(k) => t := NextDialing(w, k, e);
      case InCall(c) => t := NextInCall(w, c, e);
      case Aborting(c, k) => t := NextAborting(w, c, k, e);
      case Ending(c) => t := NextEnding(w, c, e);
    }
  }

  lemma {:induction false} OrderlyRunsStay(es: seq<Event>, w: World) returns (s: Stage)
    requires OrderlyReached(es, w)
    ensures At(w, s)
    decreases |es|
  {
    if es == [] {
      s := Idle;
      assert At(w, Idle);
    } else {
      var v := OrderlyLast(es, w);
      var r := OrderlyRunsStay(es[..|es| - 1], v);
      hide At, Orderly, OrderlyReached, Next;
      s := NextAt(v, r, es[|es| - 1]);
    }
  }
}
