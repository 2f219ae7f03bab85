/** Where every media socket is: in a pending field, with a startup, with the bridge, closed, or open
    with nothing to refer to it; and which events leave sockets behind like that. */
module CallLeaks {
  import opened Basics
  import opened CallFlow
  import opened CallFrames
  import opened CallRings
  import opened CallOrder
  import opened CallTheorems

  // ---------- who holds a socket ----------

  function Has(s: set<nat>, k: nat): nat { if k in s then 1 else 0 }

  /** How many startups hold socket k. */
  function Hands(calls: seq<Call>, k: nat): nat
  {
    if calls == [] then 0 else Hands(calls[..|calls| - 1], k) + Has(SpawnSocks(calls[|calls| - 1].spawn), k)
  }

  function Audio(w: World): set<nat> { if w.pendAudio.Some? then {w.pendAudio.value} else {} }

  /** In how many places socket k is: a pending field, `_spawn_bridge`, the bridge. */
  function Holders(w: World, k: nat): nat
  {
    Has(Audio(w), k) + Has(w.pendVideo, k) + Hands(w.calls, k) + Has(UpSocks(w), k)
  }

  /** Open, and nothing refers to it. */
  predicate Leaked(w: World, k: nat) { k in w.open && Holders(w, k) == 0 }

  /** No socket is in two places, what is held is open, and numbers are not used twice. */
  predicate Conserved(w: World, k: nat)
  {
    Holders(w, k) <= 1 && (Holders(w, k) == 1 ==> k in w.open) && (k in w.open ==> k < w.created)
  }

  /** From w to v everything stays conserved, and exactly the sockets in lost are newly leaked. */
  predicate Keeps(w: World, v: World, lost: set<nat>, k: nat)
  {
    && w.created <= v.created
    && (Conserved(w, k) ==> Conserved(v, k) && (Leaked(v, k) <==> Leaked(w, k) || k in lost))
  }

  lemma KeepsThrough(u: World, v: World, w: World, l: set<nat>, m: set<nat>, k: nat)
    requires Keeps(u, v, l, k) && Keeps(v, w, m, k)
    ensures Keeps(u, w, l + m, k)
  {}

  lemma {:induction false} HandsUpdate(calls: seq<Call>, c: nat, r: Call, k: nat)
    requires c < |calls|
    ensures Hands(calls[c := r], k) + Has(SpawnSocks(calls[c].spawn), k) == Hands(calls, k) + Has(SpawnSocks(r.spawn), k)
    decreases |calls|
  {
    var n := |calls| - 1;
    if c < n {
      assert calls[c := r][..n] == calls[..n][c := r];
      HandsUpdate(calls[..n], c, r, k);
    } else {
      assert calls[c := r][..n] == calls[..n];
    }
  }

  lemma {:induction false} HandsSame(a: seq<Call>, b: seq<Call>, k: nat)
    requires SameSpawns(a, b)
    ensures Hands(a, k) == Hands(b, k)
    decreases |a|
  {
    if a != [] { HandsSame(a[..|a| - 1], b[..|b| - 1], k); }
  }

  lemma {:induction false} HandsOne(calls: seq<Call>, c: nat, k: nat)
    requires c < |calls|
    ensures Hands(calls, k) >= Has(SpawnSocks(calls[c].spawn), k)
    decreases |calls|
  {
    if c < |calls| - 1 { HandsOne(calls[..|calls| - 1], c, k); }
  }

  lemma HandsMore(calls: seq<Call>, r: Call, k: nat)
    ensures Hands(calls + [r], k) == Hands(calls, k) + Has(SpawnSocks(r.spawn), k)
  {
    assert (calls + [r])[..|calls|] == calls;
  }

  // ---------- what leaks nothing ----------

  /** The same sockets in the same places. */
  predicate SameSocks(w: World, v: World)
  {
    && v.pendAudio == w.pendAudio && v.pendVideo == w.pendVideo && v.up == w.up && v.open == w.open && v.created == w.created
  }

  lemma SameKeeps(w: World, v: World, k: nat)
    requires SameSocks(w, v) && SameSpawns(w.calls, v.calls)
    ensures Keeps(w, v, {}, k)
  {
    HandsSame(w.calls, v.calls, k);
  }

  lemma SelfKeeps(w: World, v: World, k: nat)
    requires SameSocks(w, v) && v.calls == w.calls
    ensures Keeps(w, v, {}, k)
  {}

  /** Call c changes, and holds no socket before or after. */
  lemma CallKeeps(w: World, v: World, c: nat, r: Call, k: nat)
    requires SameSocks(w, v) && c < |w.calls| && v.calls == w.calls[c := r] && SpawnSocks(r.spawn) == SpawnSocks(w.calls[c].spawn)
    ensures Keeps(w, v, {}, k)
  {
    HandsUpdate(w.calls, c, r, k);
  }

  lemma ClosePendingKeeps(w: World, k: nat)
    ensures Keeps(w, ClosePending(w), {}, k)
  {}

  lemma MaxKeeps(w: World, k: nat)
    ensures Keeps(w, CancelMax(w), {}, k)
  {
    MaxTidies(w);
    SameKeeps(w, CancelMax(w), k);
  }

  lemma GraceKeeps(w: World, k: nat)
    ensures Keeps(w, CancelGrace(w), {}, k)
  {
    GraceTidies(w);
    SameKeeps(w, CancelGrace(w), k);
  }

  /** A list of steps that leak nothing. */
  lemma Chain(u: World, v: World, w: World, k: nat)
    requires Keeps(u, v, {}, k) && Keeps(v, w, {}, k)
    ensures Keeps(u, w, {}, k)
  {}

  lemma TerminatedKeeps(w: World, c: nat, k: nat)
    ensures Keeps(w, HandleTerminated(w, c), {}, k)
  {
    hide Keeps, CancelMax, CancelGrace, ClosePending, CancelPrewarm;
    if w.active == Some(c) && c < |w.calls| {
      var a := CancelMax(w);
      var b := CancelPrewarm(a);
      var d := ClosePending(b);
      var e := d.(sip := None);
      var f := CancelGrace(e);
      MaxKeeps(w, k);
      PrewarmKeeps(a, k);
      ClosePendingKeeps(b, k);
      SelfKeeps(d, e, k);
      GraceKeeps(e, k);
      Chain(w, a, b, k);
      Chain(w, b, d, k);
      Chain(w, d, e, k);
      Chain(w, e, f, k);
      MaxTidies(w);
      PendingTidies(a);
      PendingTidies(b);
      GraceTidies(e);
      SleepKeeps(w, f, c, k);
    } else {
      SelfKeeps(w, w, k);
    }
  }

  lemma PrewarmKeeps(w: World, k: nat)
    ensures Keeps(w, CancelPrewarm(w), {}, k)
  {
    SelfKeeps(w, CancelPrewarm(w), k);
  }

  lemma SleepKeeps(w: World, f: World, c: nat, k: nat)
    requires Keeps(w, f, {}, k) && c < |f.calls|
    ensures Keeps(w, WithCall(f, c, f.calls[c].(grace := Sleeping)).(graceTask := Some(c)), {}, k)
  {
    var v := WithCall(f, c, f.calls[c].(grace := Sleeping)).(graceTask := Some(c));
    CallKeeps(f, v, c, f.calls[c].(grace := Sleeping), k);
    hide Keeps;
    Chain(w, f, v, k);
  }

  lemma EndDialogKeeps(w: World, c: nat, k: nat)
    ensures Keeps(w, EndDialog(w, c), {}, k)
  {
    hide Keeps, HandleTerminated;
    if c < |w.calls| && w.calls[c].live {
      var v := WithCall(w, c, w.calls[c].(live := false));
      CallKeeps(w, v, c, w.calls[c].(live := false), k);
      TerminatedKeeps(v, c, k);
      Chain(w, v, HandleTerminated(v, c), k);
    } else {
      SelfKeeps(w, w, k);
    }
  }

  lemma HangKeeps(w: World, c: nat, k: nat)
    ensures Keeps(w, Hang(w, c), {}, k)
  {
    hide Keeps, EndDialog;
    SelfKeeps(w, w, k);
    SelfKeeps(w, Noted(w, HungUp(c)), k);
    EndDialogKeeps(Noted(w, HungUp(c)), c, k);
    Chain(w, Noted(w, HungUp(c)), EndDialog(Noted(w, HungUp(c)), c), k);
  }

  lemma TakeDownKeeps(w: World, k: nat)
    ensures Keeps(w, TakeDown(w), {}, k)
  {}

  lemma StopKeeps(w: World, at: Await, alive: Ffmpeg, k: nat)
    ensures Keeps(w, BeginStop(w, alive).w, {}, k) && Keeps(w, GoOn(w, at, alive).w, {}, k) && Keeps(w, Dropped(w, at), {}, k)
  {
    hide Keeps, TakeDown;
    var u := w.(generation := w.generation + 1);
    CleanupKeeps(w, alive, k);
    SelfKeeps(w, u, k);
    SelfKeeps(w, u.(prewarm := false), k);
    SelfKeeps(w, w.(prewarm := true), k);
    SelfKeeps(w, w, k);
    CleanupKeeps(u, alive, k);
    TakeDownKeeps(w, k);
    Chain(w, u, AwaitCleanup(u, alive).w, k);
  }

  lemma CleanupKeeps(w: World, alive: Ffmpeg, k: nat)
    ensures Keeps(w, AwaitCleanup(w, alive).w, {}, k)
  {
    hide Keeps, TakeDown;
    SelfKeeps(w, w.(cleaning := false), k);
    TakeDownKeeps(w, k);
  }

  lemma SetUrlKeeps(w: World, c: nat, url: Option<nat>, k: nat)
    ensures Keeps(w, SetUrl(w, c, url), {}, k)
  {
    SelfKeeps(w, SetUrl(w, c, url), k);
  }

  lemma ContinueKeeps(w: World, next: Then, k: nat)
    ensures Keeps(w, Continue(w, next), {}, k)
  {
    SelfKeeps(w, Continue(w, next), k);
  }

  lemma CallEndedKeeps(w: World, c: nat, k: nat)
    ensures Keeps(w, CallEnded(w, c), {}, k)
  {
    hide Keeps, SetUrl;
    SelfKeeps(w, Noted(w, Ended(c)), k);
    SetUrlKeeps(Noted(w, Ended(c)), c, None, k);
    Chain(w, Noted(w, Ended(c)), CallEnded(w, c), k);
  }

  // ---------- aborts, teardowns and async_stop ----------

  lemma AbortAtKeeps(w: World, s: Stop, j: nat, c: nat, next: Then, k: nat)
    requires Keeps(w, s.w, {}, k) && j < |s.w.aborts|
    ensures Keeps(w, AbortAt(s, j, c, next), {}, k)
  {
    hide Keeps, CallEnded, Continue;
    if s.at.Some? {
      SelfKeeps(s.w, AbortAt(s, j, c, next), k);
      Chain(w, s.w, AbortAt(s, j, c, next), k);
    } else {
      var x := s.w.(active := None, aborts := s.w.aborts[j := AbortOver]);
      SelfKeeps(s.w, x, k);
      CallEndedKeeps(x, c, k);
      ContinueKeeps(CallEnded(x, c), next, k);
      Chain(w, s.w, x, k);
      Chain(w, x, CallEnded(x, c), k);
      Chain(w, CallEnded(x, c), AbortAt(s, j, c, next), k);
    }
  }

  lemma AbortedKeeps(w: World, c: nat, k: nat)
    ensures Keeps(w, Aborted(w, c), {}, k)
  {
    hide Keeps, CancelMax, CancelGrace, Hang, ClosePending;
    var a := CancelMax(w);
    var b := CancelGrace(a);
    var d := Hang(b, c);
    var e := d.(sip := None);
    MaxKeeps(w, k);
    GraceKeeps(a, k);
    HangKeeps(b, c, k);
    SelfKeeps(d, e, k);
    ClosePendingKeeps(e, k);
    Chain(w, a, b, k);
    Chain(w, b, d, k);
    Chain(w, d, e, k);
    Chain(w, e, Aborted(w, c), k);
  }

  lemma CancelTaskKeeps(w: World, v: World, t: nat, k: nat)
    requires t < |w.calls| && SameSocks(w, v) && v.calls == CancelTask(w, t).calls
    ensures Keeps(w, v, {}, k)
  {
    CallKeeps(w, v, t, w.calls[t].(spawn := CancelSpawn(w.calls[t].spawn)), k);
  }

  lemma AbortBeginsKeeps(w: World, next: Then, alive: Ffmpeg, k: nat)
    requires w.active.Some?
    ensures Keeps(w, AbortBegins(w, next, alive), {}, k)
  {
    var c := w.active.value;
    hide Keeps, Aborted, AbortAt, BeginStop;
    AbortedKeeps(w, c, k);
    var v := Aborted(w, c);
    var u := v.(spawnTask := None, aborts := v.aborts + [AbortOver]);
    SelfKeeps(v, u, k);
    Chain(w, v, u, k);
    if AwaitsSpawn(v) {
      CancelTaskKeeps(u, AbortBegins(w, next, alive), v.spawnTask.value, k);
      Chain(w, u, AbortBegins(w, next, alive), k);
    } else {
      StopStops(u, OnExit, alive);
      StopKeeps(u, OnExit, alive, k);
      Chain(w, u, BeginStop(u, alive).w, k);
      AbortAtKeeps(w, BeginStop(u, alive), |v.aborts|, c, next, k);
    }
  }

  lemma AbortKeeps(w: World, j: nat, alive: Ffmpeg, k: nat)
    ensures Keeps(w, AbortGoesOn(w, j, alive), {}, k) && Keeps(w, AbortEnds(w, j, alive), {}, k)
  {
    hide Keeps, AbortAt, BeginStop, GoOn;
    SelfKeeps(w, w, k);
    if j < |w.aborts| && w.aborts[j].AbortAwaitsSpawn? {
      StopStops(w, OnExit, alive);
      StopKeeps(w, OnExit, alive, k);
      AbortAtKeeps(w, BeginStop(w, alive), j, w.aborts[j].call, w.aborts[j].next, k);
    }
    if j < |w.aborts| && w.aborts[j].AbortAwaitsStop? {
      StopStops(w, w.aborts[j].at, alive);
      StopKeeps(w, w.aborts[j].at, alive, k);
      AbortAtKeeps(w, GoOn(w, w.aborts[j].at, alive), j, w.aborts[j].call, w.aborts[j].next, k);
    }
  }

  lemma StopAtKeeps(w: World, s: Stop, j: nat, k: nat)
    requires Keeps(w, s.w, {}, k) && j < |s.w.stops|
    ensures Keeps(w, StopAt(s, j), {}, k)
  {
    hide Keeps, CancelMax, CancelGrace, ClosePending;
    if s.at.Some? {
      SelfKeeps(s.w, StopAt(s, j), k);
      Chain(w, s.w, StopAt(s, j), k);
    } else {
      var a := s.w.(sip := None, active := None, stops := s.w.stops[j := StopOver]);
      var b := CancelMax(a);
      var d := CancelGrace(b);
      var e := ClosePending(d);
      SelfKeeps(s.w, a, k);
      MaxKeeps(a, k);
      GraceKeeps(b, k);
      ClosePendingKeeps(d, k);
      SelfKeeps(e, StopAt(s, j), k);
      Chain(w, s.w, a, k);
      Chain(w, a, b, k);
      Chain(w, b, d, k);
      Chain(w, d, e, k);
      Chain(w, e, StopAt(s, j), k);
    }
  }

  lemma AsyncStopKeeps(w: World, j: nat, alive: Ffmpeg, k: nat)
    ensures Keeps(w, StopGoesOn(w, j, alive), {}, k) && Keeps(w, StopEnds(w, j, alive), {}, k)
  {
    hide Keeps, StopAt, BeginStop, GoOn;
    SelfKeeps(w, w, k);
    if j < |w.stops| && w.stops[j].StopAwaitsSpawn? {
      StopStops(w, OnExit, alive);
      StopKeeps(w, OnExit, alive, k);
      StopAtKeeps(w, BeginStop(w, alive), j, k);
    }
    if j < |w.stops| && w.stops[j].StopAwaitsBridge? {
      StopStops(w, w.stops[j].at, alive);
      StopKeeps(w, w.stops[j].at, alive, k);
      StopAtKeeps(w, GoOn(w, w.stops[j].at, alive), j, k);
    }
  }

  lemma AsyncStopBegins(w: World, alive: Ffmpeg, k: nat)
    ensures Keeps(w, StopBeginning(w, alive), {}, k)
  {
    hide Keeps, StopAt, BeginStop;
    var u := w.(spawnTask := None, stops := w.stops + [StopOver]);
    SelfKeeps(w, u, k);
    if AwaitsSpawn(w) {
      CancelTaskKeeps(u, StopBeginning(w, alive), w.spawnTask.value, k);
      Chain(w, u, StopBeginning(w, alive), k);
    } else {
      StopStops(u, OnExit, alive);
      StopKeeps(u, OnExit, alive, k);
      Chain(w, u, BeginStop(u, alive).w, k);
      StopAtKeeps(w, BeginStop(u, alive), |w.stops|, k);
    }
  }

  lemma TearingAtKeeps(w: World, s: Stop, c: nat, k: nat)
    requires Keeps(w, s.w, {}, k)
    ensures Keeps(w, TearingAt(s, c), {}, k)
  {
    hide Keeps, CallEnded;
    if c < |s.w.calls| {
      var r := s.w.calls[c].(grace := if s.at.None? then Over else Tearing(s.at.value, false));
      var v := WithCall(s.w, c, r);
      CallKeeps(s.w, v, c, r, k);
      Chain(w, s.w, v, k);
      CallEndedKeeps(v, c, k);
      Chain(w, v, CallEnded(v, c), k);
    }
  }

  lemma GraceWakesKeeps(w: World, c: nat, alive: Ffmpeg, k: nat)
    ensures Keeps(w, GraceWakes(w, c, alive), {}, k)
  {
    hide Keeps, BeginStop, TearingAt;
    SelfKeeps(w, w, k);
    if c < |w.calls| && w.calls[c].grace == Sleeping {
      CallKeeps(w, WithCall(w, c, w.calls[c].(grace := Over)), c, w.calls[c].(grace := Over), k);
      if w.active == Some(c) {
        var x := Noted(w, Cleared(c)).(active := None);
        SelfKeeps(w, x, k);
        StopKeeps(x, OnExit, alive, k);
        Chain(w, x, BeginStop(x, alive).w, k);
        TearingAtKeeps(w, BeginStop(x, alive), c, k);
      }
    }
  }

  lemma GraceEndsKeeps(w: World, c: nat, alive: Ffmpeg, k: nat)
    ensures Keeps(w, GraceEnds(w, c, alive), {}, k)
  {
    hide Keeps, GoOn, TearingAt, Dropped;
    SelfKeeps(w, w, k);
    if c < |w.calls| && w.calls[c].grace.Tearing? {
      var at := w.calls[c].grace.at;
      StopKeeps(w, at, alive, k);
      StopStops(w, at, alive);
      TearingAtKeeps(w, GoOn(w, at, alive), c, k);
      var d := Dropped(w, at);
      CallKeeps(d, WithCall(d, c, w.calls[c].(grace := Over)), c, w.calls[c].(grace := Over), k);
      Chain(w, d, WithCall(d, c, w.calls[c].(grace := Over)), k);
    }
  }

  lemma MaxWakesKeeps(w: World, c: nat, k: nat)
    ensures Keeps(w, MaxWakes(w, c), {}, k)
  {
    hide Keeps, Hang;
    SelfKeeps(w, w, k);
    if c < |w.calls| && w.calls[c].max {
      var v := WithCall(w, c, w.calls[c].(max := false));
      CallKeeps(w, v, c, w.calls[c].(max := false), k);
      HangKeeps(v, c, k);
      Chain(w, v, Hang(v, c), k);
    }
  }

  // ---------- taps and connects ----------

  /** A tap that begins a connect. */
  predicate TapConnects(w: World, e: Event)
  {
    e.Tap? && w.invite.Some? && w.invite.value < |w.invites| && !w.invites[w.invite.value].started && w.started && w.active.None?
  }

  /** The pending sockets of an earlier tap that this one replaces. */
  function TapLoses(w: World, video: bool): set<nat>
  {
    (if w.pendAudio.Some? then {w.pendAudio.value} else {}) + (if video then w.pendVideo else {})
  }

  lemma TapKeeps(w: World, video: bool, k: nat)
    requires TapConnects(w, Tap(video))
    ensures Keeps(w, TapBegins(w, video), TapLoses(w, video), k)
  {}

  lemma NoTapKeeps(w: World, video: bool, k: nat)
    requires !TapConnects(w, Tap(video))
    ensures Keeps(w, TapBegins(w, video), {}, k)
  {
    SelfKeeps(w, TapBegins(w, video), k);
  }

  lemma MarkKeeps(w: World, p: nat, k: nat)
    ensures Keeps(w, Rearm(w, p), {}, k) && Keeps(w, Answer(w, p), {}, k)
  {
    SelfKeeps(w, Rearm(w, p), k);
    SelfKeeps(w, Answer(w, p), k);
  }

  lemma PlacedKeeps(w: World, p: nat, prewarms: bool, k: nat)
    ensures Keeps(w, CallPlaced(w, p, prewarms), {}, k)
  {
    HandsMore(w.calls, Call(true, false, NoSpawn, NoGrace, true), k);
  }

  lemma ConnectKeeps(w: World, j: nat, how: Connect, alive: Ffmpeg, k: nat)
    ensures Keeps(w, ConnectEnds(w, j, how, alive), {}, k)
  {
    hide Keeps, ClosePending, Rearm, Answer, CallPlaced, Running;
    SelfKeeps(w, w, k);
    if j < |w.connects| && w.connects[j].Connecting? {
      var v := w.(connects := w.connects[j := ConnectOver]);
      var p := w.connects[j].invite;
      SelfKeeps(w, v, k);
      var x := match how
        case Connected => CallPlaced(v, p, w.connects[j].video && !Running(w, alive))
        case Refused => ClosePending(v).(sipId := None)
        case Raises => ClosePending(v).(sip := None);
      if how == Connected {
        PlacedKeeps(v, p, w.connects[j].video && !Running(w, alive), k);
      } else {
        ClosePendingKeeps(v, k);
        SelfKeeps(ClosePending(v), x, k);
        Chain(v, ClosePending(v), x, k);
      }
      Chain(w, v, x, k);
      MarkKeeps(x, p, k);
      Chain(w, x, if how == Connected then Answer(x, p) else Rearm(x, p), k);
    }
  }

  lemma EstablishedKeeps(w: World, c: nat, k: nat)
    requires c < |w.calls| ==> w.calls[c].told || w.calls[c].spawn == NoSpawn
    ensures Keeps(w, HandleEstablished(w, c), {}, k)
  {
    hide Keeps;
    SelfKeeps(w, w, k);
    if c < |w.calls| && w.calls[c].live && !w.calls[c].told {
      var r := w.calls[c].(told := true);
      CallKeeps(w, WithCall(w, c, r), c, r, k);
      var q := r.(spawn := Scheduled(false));
      assert w.calls[c := r][c := q] == w.calls[c := q];
      CallKeeps(w, WithCall(w, c, q).(spawnTask := Some(c)), c, q, k);
    }
  }

  // ---------- a startup begins ----------

  /** A startup that finds the bridge running: its sockets are not taken. */
  predicate Ignored(w: World, e: Event)
  {
    e.SpawnRuns? && e.call < |w.calls| && w.calls[e.call].spawn == Scheduled(false) && w.pendAudio.Some? && Running(w, e.alive)
  }

  lemma TakenLoses(w: World, video: bool, k: nat)
    requires w.pendAudio.Some?
    ensures Keeps(w, Taken(w, video), Used(w, video), k)
  {}

  lemma StartKeeps(w: World, c: nat, video: bool, k: nat)
    requires w.pendAudio.Some? && c < |w.calls| && SpawnSocks(w.calls[c].spawn) == {}
    ensures Keeps(w, WithCall(Taken(w, video).(prewarm := false), c,
                              w.calls[c].(spawn := InStart(Used(w, video), w.generation, w.prewarm, false))), {}, k)
  {
    HandsUpdate(w.calls, c, w.calls[c].(spawn := InStart(Used(w, video), w.generation, w.prewarm, false)), k);
    hide Hands;
  }

  lemma NoAudioKeeps(w: World, k: nat)
    requires w.pendAudio.None?
    ensures Keeps(w, CloseSocks(w, w.pendVideo).(pendVideo := {}), {}, k)
  {}

  lemma EndSpawnKeeps(w: World, c: nat, k: nat)
    requires c < |w.calls| ==> SpawnSocks(w.calls[c].spawn) == {}
    ensures Keeps(w, EndSpawn(w, c), {}, k)
  {
    if c < |w.calls| { CallKeeps(w, EndSpawn(w, c), c, w.calls[c].(spawn := Gone), k); } else { SelfKeeps(w, w, k); }
  }

  lemma StaleAtKeeps(w: World, s: Stop, c: nat, k: nat)
    requires Keeps(w, s.w, {}, k) && (c < |s.w.calls| ==> SpawnSocks(s.w.calls[c].spawn) == {})
    ensures Keeps(w, StaleAt(s, c), {}, k)
  {
    hide Keeps, EndSpawn;
    EndSpawnKeeps(s.w, c, k);
    if s.at.Some? && c < |s.w.calls| {
      var r := s.w.calls[c].(spawn := Stale(s.at.value, false));
      CallKeeps(s.w, WithCall(s.w, c, r), c, r, k);
    }
    Chain(w, s.w, StaleAt(s, c), k);
  }

  lemma PublishKeeps(w: World, c: nat, pipeline: nat, alive: Ffmpeg, k: nat)
    requires c < |w.calls| ==> SpawnSocks(w.calls[c].spawn) == {}
    ensures Keeps(w, Publish(w, c, pipeline, alive), {}, k)
  {
    hide Keeps, BeginStop, StaleAt, SetUrl, EndSpawn;
    if !w.started || w.active != Some(c) {
      StopKeeps(w, OnExit, alive, k);
      StopStops(w, OnExit, alive);
      StaleAtKeeps(w, BeginStop(w, alive), c, k);
    } else {
      var x := SetUrl(Noted(w, Active(c)), c, Some(pipeline));
      SelfKeeps(w, Noted(w, Active(c)), k);
      SetUrlKeeps(Noted(w, Active(c)), c, Some(pipeline), k);
      Chain(w, Noted(w, Active(c)), x, k);
      assert x.calls == w.calls by { UrlCalls(Noted(w, Active(c)), c, Some(pipeline)); }
      EndSpawnKeeps(x, c, k);
      Chain(w, x, EndSpawn(x, c), k);
    }
  }

  lemma SpawnRunsKeeps(w: World, c: nat, video: bool, alive: Ffmpeg, k: nat)
    ensures var e := SpawnRuns(c, video, alive);
      Keeps(w, SpawnBegins(w, c, video, alive), if Ignored(w, e) then Used(w, video) else {}, k)
  {
    hide Keeps, Publish, EndSpawn, Hang, Running, Runner, Taken, Used;
    SelfKeeps(w, w, k);
    if c < |w.calls| && w.calls[c].spawn.Scheduled? {
      if w.calls[c].spawn.cancelled {
        EndSpawnKeeps(w, c, k);
      } else if w.pendAudio.None? {
        NoAudioEnds(w, c, k);
      } else if Running(w, alive) {
        TakenLoses(w, video, k);
        TakenSpawns(w, video);
        RunningMeans(w, alive);
        PublishKeeps(Taken(w, video), c, Runner(w), alive, k);
        KeepsThrough(w, Taken(w, video), Publish(Taken(w, video), c, Runner(w), alive), Used(w, video), {}, k);
        assert Used(w, video) + {} == Used(w, video);
      } else {
        StartKeeps(w, c, video, k);
      }
    }
  }

  lemma NoAudioEnds(w: World, c: nat, k: nat)
    requires w.pendAudio.None? && c < |w.calls| && w.calls[c].spawn.Scheduled?
    ensures Keeps(w, EndSpawn(Hang(CloseSocks(w, w.pendVideo).(pendVideo := {}), c), c), {}, k)
  {
    hide Keeps, Hang, EndSpawn;
    var x := CloseSocks(w, w.pendVideo).(pendVideo := {});
    NoAudioKeeps(w, k);
    HangKeeps(x, c, k);
    Chain(w, x, Hang(x, c), k);
    HangTidies(x, c);
    assert Calmer(x.calls[c], Hang(x, c).calls[c]);
    EndSpawnKeeps(Hang(x, c), c, k);
    Chain(w, Hang(x, c), EndSpawn(Hang(x, c), c), k);
  }

  // ---------- a startup ends ----------

  /** Nothing happens to the sockets, or the pending ones are closed. */
  predicate Trimmed(x: World, v: World)
  {
    && v.created == x.created && v.up == x.up && SameSpawns(x.calls, v.calls)
    && (SameSocks(x, v) || (v.pendAudio.None? && v.pendVideo == {} && v.open == x.open - PendingSocks(x)))
  }

  lemma TrimmedThrough(u: World, v: World, w: World)
    requires Trimmed(u, v) && Trimmed(v, w)
    ensures Trimmed(u, w)
  {}

  lemma TrimmedSame(w: World, v: World)
    requires Tidied(w, v) && v.pendAudio == w.pendAudio && v.pendVideo == w.pendVideo && v.open == w.open
    ensures Trimmed(w, v)
  {}

  lemma TrimmedTerminated(w: World, c: nat)
    ensures Trimmed(w, HandleTerminated(w, c))
  {
    TerminatedTidies(w, c);
    if w.active == Some(c) && c < |w.calls| {
      var y := CancelPrewarm(CancelMax(w));
      assert y.pendAudio == w.pendAudio && y.pendVideo == w.pendVideo && y.open == w.open;
      TerminatedPending(w, y, c);
    } else {
      TrimmedSame(w, w);
    }
  }

  lemma TerminatedPending(w: World, y: World, c: nat)
    requires w.active == Some(c) && c < |w.calls| && y == CancelPrewarm(CancelMax(w)) && Tidied(w, HandleTerminated(w, c))
    requires y.pendAudio == w.pendAudio && y.pendVideo == w.pendVideo && y.open == w.open
    ensures Trimmed(w, HandleTerminated(w, c))
  {
    hide CancelMax, CancelPrewarm;
  }

  lemma TrimmedHang(w: World, c: nat)
    ensures Trimmed(w, Hang(w, c))
  {
    SelfTidied(w);
    TrimmedSame(w, w);
    if w.sip == Some(c) && c < |w.calls| && w.calls[c].live {
      var n := Noted(w, HungUp(c));
      var x := WithCall(n, c, w.calls[c].(live := false));
      NoteTidies(w, HungUp(c));
      TidiedCall(n, c, w.calls[c].(live := false));
      TidiedThrough(w, n, x);
      TrimmedSame(w, x);
      TrimmedTerminated(x, c);
      hide HandleTerminated, Trimmed, Tidied;
      TrimmedThrough(w, x, HandleTerminated(x, c));
    }
  }

  /** The startup lets go of its sockets: closed, or, if it leaves them, lost. */
  lemma EndKeeps(w: World, x: World, v: World, c: nat, lost: set<nat>, k: nat)
    requires c < |w.calls| && w.calls[c].spawn.InStart? && Trimmed(x, v)
    requires x.calls == w.calls && x.created == w.created && x.pendAudio == w.pendAudio && x.pendVideo == w.pendVideo && UpSocks(x) <= UpSocks(w)
    requires var s := w.calls[c].spawn.socks + (UpSocks(w) - UpSocks(x));
      (k in lost ==> k in s) && (Conserved(w, k) ==> (k in x.open <==> k in w.open && (k in s ==> k in lost)))
    ensures Keeps(w, EndSpawn(v, c), lost, k)
  {
    HandsSame(x.calls, v.calls, k);
    HandsUpdate(v.calls, c, v.calls[c].(spawn := Gone), k);
    HandsOne(w.calls, c, k);
    assert Calmer(x.calls[c], v.calls[c]);
    hide Hands, SameSpawns;
  }

  /** A startup does not hold what the bridge holds. */
  lemma HeldOnce(w: World, c: nat, k: nat)
    requires c < |w.calls| && w.calls[c].spawn.InStart? && Conserved(w, k)
    ensures !(k in w.calls[c].spawn.socks && k in UpSocks(w))
  {
    HandsOne(w.calls, c, k);
    hide Hands;
  }

  lemma UnwoundKeeps(w: World, v: World, c: nat, over: set<nat>, k: nat)
    requires c < |w.calls| && w.calls[c].spawn.InStart?
    requires Trimmed(Unwound(w, w.calls[c].spawn.socks, over), v.(prewarm := w.prewarm))
    ensures Keeps(w, EndSpawn(v, c), UpSocks(w) * over, k)
  {
    var x := Unwound(w, w.calls[c].spawn.socks, over);
    if Conserved(w, k) { HeldOnce(w, c, k); }
    EndKeeps(w, x, v.(prewarm := w.prewarm), c, UpSocks(w) * over, k);
    SelfKeeps(EndSpawn(v.(prewarm := w.prewarm), c), EndSpawn(v, c), k);
    hide Hands, Trimmed, EndSpawn, Conserved, Leaked;
    KeepsThrough(w, EndSpawn(v.(prewarm := w.prewarm), c), EndSpawn(v, c), UpSocks(w) * over, {}, k);
    assert UpSocks(w) * over + {} == UpSocks(w) * over;
  }

  /** The startup's sockets go to the bridge, next to what it had and what was not replaced. */
  function Published(w: World, c: nat, socks: set<nat>, over: set<nat>): World
  {
    w.(up := Some(Up(c, socks + (UpSocks(w) - over))))
  }

  lemma PublishedKeeps(w: World, c: nat, over: set<nat>, k: nat)
    requires c < |w.calls| && w.calls[c].spawn.InStart?
    ensures Keeps(w, EndSpawn(Published(w, c, w.calls[c].spawn.socks, over), c), UpSocks(w) * over, k)
  {
    if Conserved(w, k) { HeldOnce(w, c, k); }
    HandsUpdate(w.calls, c, w.calls[c].(spawn := Gone), k);
    HandsOne(w.calls, c, k);
    hide Hands;
  }

  lemma PassesKeeps(w: World, c: nat, over: set<nat>, alive: Ffmpeg, k: nat)
    requires c < |w.calls| && w.calls[c].spawn.InStart?
    ensures Keeps(w, Publish(Published(w, c, w.calls[c].spawn.socks, over), c, c, alive), UpSocks(w) * over, k)
  {
    var x := Published(w, c, w.calls[c].spawn.socks, over);
    var m := EndSpawn(x, c);
    PublishedKeeps(w, c, over, k);
    SamePublish(x, c, alive);
    assert m.calls[c].spawn == Gone;
    hide Publish, Keeps, EndSpawn, Published;
    PublishKeeps(m, c, c, alive, k);
    KeepsThrough(w, m, Publish(m, c, c, alive), UpSocks(w) * over, {}, k);
    assert UpSocks(w) * over + {} == UpSocks(w) * over;
  }

  /** Publishing settles the startup, wherever that stood. */
  lemma SamePublish(x: World, c: nat, alive: Ffmpeg)
    requires c < |x.calls| && x.up.Some?
    ensures Publish(x, c, c, alive) == Publish(EndSpawn(x, c), c, c, alive)
  {
    var m := EndSpawn(x, c);
    SameStop(x, m, alive);
    StopStops(x, OnExit, alive);
    SameUrl(x, m, c);
    SameStaleAt(BeginStop(x, alive), BeginStop(m, alive), c);
    hide BeginStop, StaleAt, SetUrl, EndSpawn;
    SameEnd(SetUrl(Noted(x, Active(c)), c, Some(c)), c);
  }

  lemma SameStaleAt(s: Stop, t: Stop, c: nat)
    requires c < |s.w.calls| && t.at == s.at && t.w == EndSpawn(s.w, c)
    ensures StaleAt(s, c) == StaleAt(t, c)
  {
    var r := s.w.calls[c].(spawn := if s.at.None? then Gone else Stale(s.at.value, false));
    assert t.w.calls[c := r] == s.w.calls[c := r];
  }

  lemma SameUrl(x: World, m: World, c: nat)
    requires c < |x.calls| && m == EndSpawn(x, c)
    ensures SetUrl(Noted(m, Active(c)), c, Some(c)) == EndSpawn(SetUrl(Noted(x, Active(c)), c, Some(c)), c)
  {}

  lemma SameEnd(y: World, c: nat)
    ensures EndSpawn(EndSpawn(y, c), c) == EndSpawn(y, c)
  {
    if c < |y.calls| {
      var r := y.calls[c].(spawn := Gone);
      assert y.calls[c := r][c := r] == y.calls[c := r];
    }
  }

  lemma SameStop(x: World, m: World, alive: Ffmpeg)
    requires x.up.Some? && m == x.(calls := m.calls)
    ensures BeginStop(m, alive).at == BeginStop(x, alive).at
    ensures BeginStop(m, alive).w == BeginStop(x, alive).w.(calls := m.calls)
  {}

  lemma SpawnResumesKeeps(w: World, c: nat, end: StartEnd, over: set<nat>, alive: Ffmpeg, k: nat)
    ensures Keeps(w, SpawnEnds(w, c, end, over, alive), NewLeaks(w, SpawnResumes(c, end, over, alive)), k)
  {
    hide Keeps, Publish, EndSpawn, Hang, Unwound, Trimmed;
    SelfKeeps(w, w, k);
    if c < |w.calls| && w.calls[c].spawn.InStart? {
      var s := w.calls[c].spawn;
      var x := Unwound(w, s.socks, over);
      assert x.(prewarm := w.prewarm) == x by { UnwoundPrewarm(w, s.socks, over); }
      if s.cancelled {
        TrimmedSelf(x);
        UnwoundKeeps(w, x.(prewarm := w.prewarm || (end.InPrewarm? && s.prewarmed)), c, over, k);
      } else {
        match end {
          case InPrewarm =>
          case SpawnFails => SpawnFailsKeeps(w, c, k);
          case WrapFails => WrapFailsKeeps(w, c, over, k);
          case Passes =>
            if w.generation != s.snapshot {
              TrimmedSelf(x);
              UnwoundKeeps(w, x, c, over, k);
            } else {
              PassesKeeps(w, c, over, alive, k);
            }
        }
      }
    }
  }

  lemma UnwoundPrewarm(w: World, socks: set<nat>, over: set<nat>)
    ensures Unwound(w, socks, over).prewarm == w.prewarm
  {}

  lemma TrimmedSelf(x: World)
    ensures Trimmed(x, x)
  {}

  lemma SpawnFailsKeeps(w: World, c: nat, k: nat)
    requires c < |w.calls| && w.calls[c].spawn.InStart?
    ensures Keeps(w, EndSpawn(Hang(w, c), c), w.calls[c].spawn.socks, k)
  {
    hide Hang, EndSpawn, Keeps, Trimmed;
    TrimmedHang(w, c);
    EndKeeps(w, w, Hang(w, c), c, w.calls[c].spawn.socks, k);
  }

  lemma WrapFailsKeeps(w: World, c: nat, over: set<nat>, k: nat)
    requires c < |w.calls| && w.calls[c].spawn.InStart?
    ensures Keeps(w, EndSpawn(Hang(Unwound(w, w.calls[c].spawn.socks, over), c), c), UpSocks(w) * over, k)
  {
    hide Hang, EndSpawn, Keeps;
    var x := Unwound(w, w.calls[c].spawn.socks, over);
    var v := Hang(x, c);
    TrimmedHang(x, c);
    EndKeeps2(w, x, v, c, over, k);
  }

  lemma EndKeeps2(w: World, x: World, v: World, c: nat, over: set<nat>, k: nat)
    requires c < |w.calls| && w.calls[c].spawn.InStart? && x == Unwound(w, w.calls[c].spawn.socks, over) && Trimmed(x, v)
    ensures Keeps(w, EndSpawn(v, c), UpSocks(w) * over, k)
  {
    if Conserved(w, k) { HeldOnce(w, c, k); }
    EndKeeps(w, x, v, c, UpSocks(w) * over, k);
  }

  // ---------- every event ----------

  /** The ffmpeg spawn of a startup fails, before anything cancelled it. */
  predicate SpawnLost(w: World, e: Event)
  {
    e.SpawnResumes? && e.end.SpawnFails? && e.call < |w.calls| && w.calls[e.call].spawn.InStart?
    && !w.calls[e.call].spawn.cancelled
  }

  /** A startup ends, one way or another, that had replaced endpoints of an earlier pipeline. */
  predicate Replaced(w: World, e: Event)
  {
    && e.SpawnResumes? && e.call < |w.calls| && w.calls[e.call].spawn.InStart?
    && (w.calls[e.call].spawn.cancelled || e.end.WrapFails? || e.end.Passes?)
  }

  /** The sockets of a failed spawn; of a startup that found the bridge running; of an earlier tap;
      of an earlier pipeline, whose ffmpeg had died, that a startup replaced. */
  function NewLeaks(w: World, e: Event): set<nat>
  {
    if SpawnLost(w, e) then w.calls[e.call].spawn.socks
    else if Ignored(w, e) then Used(w, e.video)
    else if TapConnects(w, e) then TapLoses(w, e.video)
    else if Replaced(w, e) then UpSocks(w) * e.over
    else {}
  }

  lemma NextKeeps(w: World, e: Event, k: nat)
    requires ToldFirst(w)
    ensures Keeps(w, Next(w, e), NewLeaks(w, e), k)
  {
    hide Keeps, ToldFirst, AbortBegins, TapBegins, ConnectEnds, HandleEstablished, EndDialog, SpawnBegins, SpawnEnds,
         StaleEnds, GraceEnds, GraceWakes, MaxWakes, AbortGoesOn, AbortEnds, StopBeginning, StopGoesOn, StopEnds,
         TapLoses, Used, Running;
    match e {
      case Push(_, _) => PushKeeps(w, e, k);
      case CancelPush(_) => PushKeeps(w, e, k);
      case Tap(video) =>
        if TapConnects(w, e) { TapKeeps(w, video, k); } else { NoTapKeeps(w, video, k); }
      case ConnectDone(j, how, alive) => ConnectKeeps(w, j, how, alive, k);
      case Established(c) => ToldCall(w, c); EstablishedKeeps(w, c, k);
      case SipEnds(c) => EndDialogKeeps(w, c, k);
      case SpawnRuns(c, video, alive) => SpawnRunsKeeps(w, c, video, alive, k);
      case SpawnResumes(c, end, over, alive) => SpawnResumesKeeps(w, c, end, over, alive, k);
      case StaleStopped(c, alive) => StaleEndsKeeps(w, c, alive, k);
      case GraceFires(c, alive) => GraceWakesKeeps(w, c, alive, k);
      case GraceStopped(c, alive) => GraceEndsKeeps(w, c, alive, k);
      case MaxFires(c) => MaxWakesKeeps(w, c, k);
      case AbortResumes(j, alive) => AbortKeeps(w, j, alive, k);
      case AbortStopped(j, alive) => AbortKeeps(w, j, alive, k);
      case StopBegins(alive) => AsyncStopBegins(w, alive, k);
      case StopResumes(j, alive) => AsyncStopKeeps(w, j, alive, k);
      case StopStopped(j, alive) => AsyncStopKeeps(w, j, alive, k);
      case CleanupDone => SelfKeeps(w, w.(cleaning := false), k);
    }
  }

  lemma ToldCall(w: World, c: nat)
    requires ToldFirst(w)
    ensures c < |w.calls| ==> w.calls[c].told || w.calls[c].spawn == NoSpawn
  {}

  lemma PushKeeps(w: World, e: Event, k: nat)
    requires e.Push? || e.CancelPush?
    ensures Keeps(w, Next(w, e), {}, k)
  {
    var next := if e.Push? then NewRing(e.creds) else CancelRing;
    hide AbortBegins, Keeps;
    if w.active.Some? {
      AbortBeginsKeeps(w, next, e.alive, k);
    } else {
      ContinueKeeps(w, next, k);
      assert Next(w, e) == Continue(w, next);
    }
  }

  lemma StaleEndsKeeps(w: World, c: nat, alive: Ffmpeg, k: nat)
    ensures Keeps(w, StaleEnds(w, c, alive), {}, k)
  {
    hide Keeps, GoOn, Dropped, EndSpawn, StaleAt;
    SelfKeeps(w, w, k);
    if c < |w.calls| && w.calls[c].spawn.Stale? {
      var at := w.calls[c].spawn.at;
      StopKeeps(w, at, alive, k);
      StopStops(w, at, alive);
      StaleAtKeeps(w, GoOn(w, at, alive), c, k);
      EndSpawnKeeps(Dropped(w, at), c, k);
      Chain(w, Dropped(w, at), EndSpawn(Dropped(w, at), c), k);
    }
  }

  // ---------- every run ----------

  /** MAIN RESULT: along every run, no socket is ever in two places, what is held is open, and a
      socket is open with nothing to refer to it exactly if some earlier event left it: a startup
      whose ffmpeg spawn failed held it, a startup brought it to a running bridge, a second tap
      replaced it, or a startup replaced it in a bridge whose ffmpeg had died. */
  lemma {:induction false} LeaksAreAccounted(ws: seq<World>, es: seq<Event>, n: nat, k: nat)
    requires Run(ws, es) && n <= |es|
    ensures Conserved(ws[n], k)
    ensures Leaked(ws[n], k) <==> exists i :: 0 <= i < n && k in NewLeaks(ws[i], es[i])
  {
    hide Next, NewLeaks, Hands;
    if n == 0 {
      NobodyHolds([], k);
    } else {
      LeaksAreAccounted(ws, es, n - 1, k);
      assert ws[n] == Next(ws[n - 1], es[n - 1]);
      RunsTold(ws, es, n - 1);
      hide Conserved, Leaked;
      NextKeeps(ws[n - 1], es[n - 1], k);
    }
  }

  lemma {:induction false} NobodyHolds(calls: seq<Call>, k: nat)
    requires forall b :: 0 <= b < |calls| ==> !calls[b].spawn.InStart?
    ensures Hands(calls, k) == 0
    decreases |calls|
  {
    if calls != [] { NobodyHolds(calls[..|calls| - 1], k); }
  }

  // ---------- orderly runs ----------

  function LostSocks(w: World, e: Event): set<nat> { if SpawnLost(w, e) then w.calls[e.call].spawn.socks else {} }

  lemma OnlySpawnsLose(w: World, s: Stage, e: Event)
    requires At(w, s)
    ensures NewLeaks(w, e) == LostSocks(w, e) && (SpawnLost(w, e) ==> LostSocks(w, e) != {})
  {
    if e.SpawnRuns? {
      NothingIgnored(w, s, e);
    } else if e.Tap? {
      TapLosesNothing(w, s, e);
    } else if e.SpawnResumes? {
      StartsOnNothing(w, s, e);
      hide At;
    }
  }

  lemma NothingIgnored(w: World, s: Stage, e: Event)
    requires At(w, s) && e.SpawnRuns?
    ensures !Ignored(w, e)
  {
    if e.call < |w.calls| && w.calls[e.call].spawn == Scheduled(false) {
      assert !Quiet(w.calls[e.call]);
      assert s.InCall? && s.c == e.call;
      NothingStarting(w, e.call);
    }
  }

  lemma TapLosesNothing(w: World, s: Stage, e: Event)
    requires At(w, s) && e.Tap?
    ensures TapConnects(w, e) ==> TapLoses(w, e.video) == {}
  {}

  lemma StartsOnNothing(w: World, s: Stage, e: Event)
    requires At(w, s) && e.SpawnResumes?
    ensures Replaced(w, e) ==> w.up.None?
    ensures SpawnLost(w, e) ==> w.calls[e.call].spawn.socks != {}
  {
    if e.call < |w.calls| && w.calls[e.call].spawn.InStart? {
      assert !Quiet(w.calls[e.call]);
      assert (s.InCall? || s.Aborting?) && s.c == e.call;
    }
  }

  lemma LeakAt(ws: seq<World>, es: seq<Event>, i: nat)
    requires Run(ws, es) && Orderlies(ws, es) && i < |es|
    ensures NewLeaks(ws[i], es[i]) == LostSocks(ws[i], es[i]) && (SpawnLost(ws[i], es[i]) ==> LostSocks(ws[i], es[i]) != {})
  {
    OrderlyPrefix(ws, es, i);
    var s := OrderlyRunsStay(es[..i], ws[i]);
    hide Run, Orderlies, At, OrderlyReached;
    OnlySpawnsLose(ws[i], s, es[i]);
  }

  /** Some startup that held k failed to spawn its ffmpeg, among the first n events. */
  ghost predicate LostBefore(ws: seq<World>, es: seq<Event>, n: nat, k: nat)
    requires |ws| == |es| + 1 && n <= |es|
  {
    exists i :: 0 <= i < n && k in LostSocks(ws[i], es[i])
  }

  /** MAIN RESULT: along an orderly run a socket has leaked exactly if some call's ffmpeg spawn failed
      while its startup held it. */
  lemma LeaksAreFailedSpawns(ws: seq<World>, es: seq<Event>, n: nat, k: nat)
    requires Run(ws, es) && Orderlies(ws, es) && n <= |es|
    ensures Leaked(ws[n], k) <==> LostBefore(ws, es, n, k)
  {
    LeaksAreAccounted(ws, es, n, k);
    forall i | 0 <= i < n ensures NewLeaks(ws[i], es[i]) == LostSocks(ws[i], es[i]) { LeakAt(ws, es, i); }
    hide Run, Orderlies, NewLeaks, LostSocks, Leaked;
  }

  /** What is open is what such startups held. */
  ghost predicate OnlyLost(ws: seq<World>, es: seq<Event>, n: nat)
    requires |ws| == |es| + 1 && n <= |es|
  {
    forall k: nat :: k in ws[n].open <==> LostBefore(ws, es, n, k)
  }

  /** No call is active, connecting or being torn down. */
  predicate NoCall(w: World) { w.active.None? && !ConnectPending(w) && !TeardownPending(w) }

  lemma IdleHoldsNothing(w: World, k: nat)
    requires At(w, Idle)
    ensures Holders(w, k) == 0 && w.url.None?
  {
    forall b | 0 <= b < |w.calls| ensures !w.calls[b].spawn.InStart? { assert Quiet(w.calls[b]); }
    NobodyHolds(w.calls, k);
    hide Hands;
  }

  lemma NoCallIsIdle(w: World, s: Stage)
    requires At(w, s) && NoCall(w)
    ensures s == Idle
  {
    match s {
      case Dialing(k) => DialingFacts(w, k);
      case Ending(c) => EndingFacts(w, c);
      case _ =>
    }
  }

  /** MAIN RESULT: along an orderly run, once no call is active, connecting or being torn down, a media
      socket is open exactly if some call's ffmpeg spawn failed while its startup held it; so all
      are closed exactly if no call's ffmpeg spawn failed. */
  lemma AllClosedUnlessSpawnFailed(ws: seq<World>, es: seq<Event>, n: nat)
    requires Run(ws, es) && Orderlies(ws, es) && n <= |es| && NoCall(ws[n])
    ensures OnlyLost(ws, es, n)
    ensures ws[n].open == {} <==> forall i :: 0 <= i < n ==> !SpawnLost(ws[i], es[i])
  {
    OrderlyPrefix(ws, es, n);
    var s := OrderlyRunsStay(es[..n], ws[n]);
    NoCallIsIdle(ws[n], s);
    hide NoCall, OrderlyReached, At;
    OpenAtRest(ws, es, n);
    AllOrNone(ws, es, n);
  }

  lemma OpenAtRest(ws: seq<World>, es: seq<Event>, n: nat)
    requires Run(ws, es) && Orderlies(ws, es) && n <= |es| && At(ws[n], Idle)
    ensures OnlyLost(ws, es, n)
  {
    assert |ws| == |es| + 1;
    hide At, Run, Orderlies, LostBefore;
    forall k: nat ensures k in ws[n].open <==> LostBefore(ws, es, n, k) {
      IdleHoldsNothing(ws[n], k);
      LeaksAreFailedSpawns(ws, es, n, k);
      hide Holders;
    }
  }

  lemma AllOrNone(ws: seq<World>, es: seq<Event>, n: nat)
    requires Run(ws, es) && Orderlies(ws, es) && n <= |es| && OnlyLost(ws, es, n)
    ensures ws[n].open == {} <==> forall i :: 0 <= i < n ==> !SpawnLost(ws[i], es[i])
  {
    assert |ws| == |es| + 1;
    hide Run, Orderlies;
    if i :| 0 <= i < n && SpawnLost(ws[i], es[i]) {
      LeakAt(ws, es, i);
      var k :| k in LostSocks(ws[i], es[i]);
      assert LostBefore(ws, es, n, k);
      assert k in ws[n].open;
    } else {
      assert forall k: nat :: !LostBefore(ws, es, n, k);
    }
  }

  /** MAIN RESULT: a new ring, a cancel and a grace expiry always end without a stream URL, and with no
      media socket open but those of startups whose ffmpeg spawn failed. */
  lemma CompletionsClear(ws: seq<World>, es: seq<Event>, i: nat)
    requires Run(ws, es) && Orderlies(ws, es) && i < |es| && Completes(ws[i], es[i])
    ensures ws[i + 1].url.None? && OnlyLost(ws, es, i + 1)
  {
    OrderlyPrefix(ws, es, i);
    assert Orderly(ws[i], es[i]) && ws[i + 1] == Next(ws[i], es[i]);
    hide Next, Completes, OrderlyReached, At, Orderly;
    CompletionsRest(es[..i], ws[i], es[i]);
    IdleHoldsNothing(ws[i + 1], 0);
    OpenAtRest(ws, es, i + 1);
  }

  /** MAIN RESULT: along an orderly run each open socket is in exactly one of the pending fields, a
      startup and the bridge, unless some call's ffmpeg spawn failed while its startup held it; that
      one, and each closed one, is in none. */
  lemma SocketsAreConserved(ws: seq<World>, es: seq<Event>, n: nat, k: nat)
    requires Run(ws, es) && Orderlies(ws, es) && n <= |es|
    ensures Holders(ws[n], k) == if k in ws[n].open && !LostBefore(ws, es, n, k) then 1 else 0
    ensures LostBefore(ws, es, n, k) ==> k in ws[n].open
  {
    LeaksAreAccounted(ws, es, n, k);
    LeaksAreFailedSpawns(ws, es, n, k);
    hide Run, Orderlies, LostBefore, Holders, NewLeaks;
  }
}
