/** What the events of a call do, exactly: which sockets a startup gets, who hangs up, what the end of a
    dialog and of `async_stop` leaves behind. */
module CallLaws {
  import opened Basics
  import opened CallFlow
  import opened CallFrames
  import CallLeaks

  // ---------- timers and pending sockets ----------

  /** Exactly the pending sockets are closed, and nothing is pending. */
  predicate PendingClosed(w: World, v: World)
  {
    && v.pendAudio.None? && v.pendVideo == {}
    && v.open == w.open - w.pendVideo - (if w.pendAudio.Some? then {w.pendAudio.value} else {})
  }

  lemma ClosesPending(w: World)
    ensures PendingClosed(w, ClosePending(w))
  {}

  /** The max-duration timer is cancelled, whichever call it is of; nothing else changes. */
  predicate MaxOff(w: World, v: World)
  {
    && v == w.(calls := v.calls, maxTask := None) && |v.calls| == |w.calls|
    && forall b :: 0 <= b < |w.calls| ==> v.calls[b] == w.calls[b].(max := w.calls[b].max && w.maxTask != Some(b))
  }

  lemma MaxGoesOff(w: World)
    ensures MaxOff(w, CancelMax(w))
  {}

  /** A sleeping grace timer is over; a teardown learns it at its next step. */
  function ToldToEnd(g: Grace): Grace { if g.Tearing? then Tearing(g.at, true) else Over }

  /** The grace timer is cancelled, too. */
  predicate GraceOff(w: World, v: World)
  {
    && v == w.(calls := v.calls, graceTask := None) && |v.calls| == |w.calls|
    && forall b :: 0 <= b < |w.calls| ==>
         v.calls[b] == w.calls[b].(grace := if w.graceTask == Some(b) then ToldToEnd(w.calls[b].grace) else w.calls[b].grace)
  }

  lemma GraceGoesOff(w: World)
    ensures GraceOff(w, CancelGrace(w))
  {}

  // ---------- the end of a dialog ----------

  /** Call b after the end of the dialog of the active call c. */
  function AfterEnd(w: World, b: nat, c: nat): Call
    requires b < |w.calls|
  {
    w.calls[b].(
      live := w.calls[b].live && b != c,
      max := w.calls[b].max && w.maxTask != Some(b),
      grace := if b == c then Sleeping else if w.graceTask == Some(b) then ToldToEnd(w.calls[b].grace) else w.calls[b].grace)
  }

  /** The dialog of the active call c is over: its timer sleeps, the other timers are off, the pending
      sockets are closed and a prewarm is being cleaned up. The bridge, the URL and everything else
      are as they were. */
  predicate Ends(w: World, v: World, c: nat)
  {
    && PendingClosed(w, v) && !v.prewarm && v.cleaning == (w.cleaning || w.prewarm)
    && v == w.(calls := v.calls, sip := None, maxTask := None, graceTask := Some(c), pendAudio := None, pendVideo := {},
               open := v.open, prewarm := false, cleaning := v.cleaning)
    && |v.calls| == |w.calls| && forall b :: 0 <= b < |w.calls| ==> v.calls[b] == AfterEnd(w, b, c)
  }

  lemma TerminatedEnds(w: World, c: nat)
    requires w.active == Some(c) && c < |w.calls| && w.calls[c].live
    ensures Ends(w, EndDialog(w, c), c)
  {
    var x := WithCall(w, c, w.calls[c].(live := false));
    var a := CancelMax(x);
    var d := ClosePending(CancelPrewarm(a)).(sip := None);
    var e := CancelGrace(d);
    MaxGoesOff(x);
    ClosesPending(CancelPrewarm(a));
    GraceGoesOff(d);
    hide CancelMax, CancelGrace, ClosePending;
    assert PendingClosed(w, d);
    var v := EndDialog(w, c);
    assert v == WithCall(e, c, e.calls[c].(grace := Sleeping)).(graceTask := Some(c));
    forall b | 0 <= b < |w.calls| ensures v.calls[b] == AfterEnd(w, b, c) {
      EndCall(w, x, d, e, v, b, c);
    }
  }

  lemma EndCall(w: World, x: World, d: World, e: World, v: World, b: nat, c: nat)
    requires b < |w.calls| && c < |w.calls| && x == WithCall(w, c, w.calls[c].(live := false))
    requires |d.calls| == |w.calls| && d.calls[b] == x.calls[b].(max := x.calls[b].max && w.maxTask != Some(b))
    requires d.graceTask == w.graceTask && GraceOff(d, e) && v.calls == e.calls[c := e.calls[c].(grace := Sleeping)]
    ensures b < |v.calls| && v.calls[b] == AfterEnd(w, b, c)
  {}

  /** The dialog of another call ends, and that is all. */
  predicate JustEnds(w: World, v: World, c: nat)
  {
    c < |w.calls| && v == w.(calls := w.calls[c := w.calls[c].(live := false)])
  }

  /** What becomes of the dialog of call c when it ends. */
  predicate DialogEnds(w: World, v: World, c: nat)
  {
    if w.active == Some(c) then Ends(w, v, c) else JustEnds(w, v, c)
  }

  /** MAIN RESULT: when the dialog of a call ends, that call is marked; if it is the active one, its
      grace timer starts, all other timers are cancelled, exactly the pending sockets are closed, and
      an unused prewarm is handed to a cleanup. Bridge, URL and coordinator stay as they are. A dialog
      that is not up cannot end. */
  lemma DialogEndsExactly(w: World, c: nat)
    ensures var v := Next(w, SipEnds(c)); if c < |w.calls| && w.calls[c].live then DialogEnds(w, v, c) else v == w
  {
    if c < |w.calls| && w.calls[c].live { LiveDialogEnds(w, c); }
    hide DialogEnds;
  }

  lemma LiveDialogEnds(w: World, c: nat)
    requires c < |w.calls| && w.calls[c].live
    ensures DialogEnds(w, EndDialog(w, c), c)
  {
    if w.active == Some(c) {
      TerminatedEnds(w, c);
      hide EndDialog, Ends;
    }
  }

  // ---------- hanging up ----------

  /** The manager's SIP client has call c, and its dialog is up. */
  predicate CanHang(w: World, c: nat) { w.sip == Some(c) && c < |w.calls| && w.calls[c].live }

  /** Call c is hung up, which ends its dialog. */
  predicate Hangs(w: World, v: World, c: nat) { DialogEnds(w.(notes := w.notes + [HungUp(c)]), v, c) }

  lemma HangHangs(w: World, c: nat)
    ensures if CanHang(w, c) then Hangs(w, Hang(w, c), c) else Hang(w, c) == w
  {
    hide EndDialog, DialogEnds;
    if CanHang(w, c) { LiveDialogEnds(Noted(w, HungUp(c)), c); }
  }

  /** MAIN RESULT: the max-duration timer hangs its call up exactly if that call is active and the client
      can, and the hang-up ends the dialog in full; in any other case it only goes off. */
  lemma MaxHangsUp(w: World, c: nat)
    requires c < |w.calls| && w.calls[c].max
    ensures var v := Next(w, MaxFires(c)); var u := w.(calls := w.calls[c := w.calls[c].(max := false)]);
      if w.active == Some(c) && CanHang(w, c) then Hangs(u, v, c) else v == u
  {
    HangHangs(WithCall(w, c, w.calls[c].(max := false)), c);
    hide Hang, Hangs;
  }

  // ---------- a tap binds sockets ----------

  /** The sockets in open have numbers below created. */
  lemma FreshNumbers(ws: seq<World>, es: seq<Event>, n: nat, k: nat)
    requires Run(ws, es) && n <= |es| && k in ws[n].open
    ensures k < ws[n].created
  {
    CallLeaks.LeaksAreAccounted(ws, es, n, k);
    hide Run, CallLeaks.NewLeaks, CallLeaks.Holders;
  }

  /** A tap connects: an invite is parked that no tap has started, the manager runs, no call is active. */
  predicate TapConnects(w: World)
  {
    && w.invite.Some? && w.invite.value < |w.invites| && !w.invites[w.invite.value].started
    && w.started && w.active.None?
  }

  /** MAIN RESULT: a tap that connects binds one new audio socket and, exactly if video is enabled, two
      new ones for video; they are open and pending, and every other socket is as it was. One connect
      starts, for the parked invite, which no other tap can start again. Any other tap does nothing, but that on a parked invite that
      could not be dialled the coordinator tracks no call. */
  lemma TapBindsExactly(ws: seq<World>, es: seq<Event>, n: nat, video: bool)
    requires Run(ws, es) && n <= |es|
    ensures var w := ws[n]; var v := Next(w, Tap(video));
      if TapConnects(w) then
        var p := w.invite.value;
        && v.pendAudio.Some? && v.pendAudio.value !in w.open
        && v.connects == w.connects + [Connecting(p, video)] && v.invites == w.invites[p := w.invites[p].(started := true)]
        && (if video then |v.pendVideo| == 2 && v.pendVideo !! w.open && v.pendAudio.value !in v.pendVideo
                         && v.open == w.open + {v.pendAudio.value} + v.pendVideo
            else v.pendVideo == w.pendVideo && v.open == w.open + {v.pendAudio.value})
      else v == if w.invite.Some? && w.invite.value < |w.invites| && !w.invites[w.invite.value].started then w.(sipId := None) else w
  {
    var w := ws[n];
    forall k | k in w.open ensures k < w.created { FreshNumbers(ws, es, n, k); }
    hide Run;
    if TapConnects(w) {
      TapNumbers(w, video);
      hide TapBegins;
      if video { Two(w.created + 1); }
    }
  }

  /** The new sockets get the next three numbers. */
  lemma TapNumbers(w: World, video: bool)
    requires TapConnects(w)
    ensures var v := TapBegins(w, video); var n := w.created; var p := w.invite.value;
      && v.pendAudio == Some(n) && v.connects == w.connects + [Connecting(p, video)]
      && v.invites == w.invites[p := w.invites[p].(started := true)]
      && v.pendVideo == (if video then {n + 1, n + 2} else w.pendVideo)
      && v.open == w.open + {n} + (if video then {n + 1, n + 2} else {})
  {}

  lemma Two(n: nat)
    ensures |{n, n + 1}| == 2
  {}

  /** MAIN RESULT: a connect that fails leaves no call and nothing pending: exactly the pending sockets
      are closed, and the invite can be started again. */
  lemma FailedConnectLeavesNothing(w: World, k: nat, how: Connect, alive: Ffmpeg)
    requires k < |w.connects| && w.connects[k].Connecting? && how != Connected
    ensures var v := Next(w, ConnectDone(k, how, alive)); var p := w.connects[k].invite;
      && PendingClosed(w, v) && v.connects == w.connects[k := ConnectOver]
      && v.calls == w.calls && v.active == w.active && v.up == w.up && v.deeds == w.deeds
      && v.sipId == (if how == Refused then None else w.sipId) && v.sip == (if how == Raises then None else w.sip)
      && (p < |w.invites| ==> v.invites == w.invites[p := w.invites[p].(started := false)])
  {
    ClosesPending(w.(connects := w.connects[k := ConnectOver]));
  }

  /** The new call: its dialog is up, its timer runs, nothing of it has started. */
  const NEWCALL := Call(true, false, NoSpawn, NoGrace, true)

  /** MAIN RESULT: a connect that succeeds places one call, which is active, has the SIP client and the
      max-duration timer and is tracked by the coordinator; a prewarm is asked for exactly if video was
      bound and no bridge runs. Sockets and bridge are as they were. */
  lemma ConnectPlacesTheCall(w: World, k: nat, alive: Ffmpeg)
    requires k < |w.connects| && w.connects[k].Connecting?
    ensures var v := Next(w, ConnectDone(k, Connected, alive)); var c := |w.calls|;
      && v.calls == w.calls + [NEWCALL] && v.active == Some(c) && v.sip == Some(c) && v.maxTask == Some(c) && v.sipId == Some(c)
      && (v.prewarm <==> w.prewarm || (w.connects[k].video && !Running(w, alive)))
      && v.open == w.open && v.pendAudio == w.pendAudio && v.pendVideo == w.pendVideo && v.up == w.up && v.url == w.url
      && v.connects == w.connects[k := ConnectOver]
  {
    hide Running;
  }

  /** The first report that a live call is established schedules its startup, if it is the active one. */
  lemma EstablishedSchedules(w: World, c: nat)
    ensures var v := Next(w, Established(c));
      if c < |w.calls| && w.calls[c].live && !w.calls[c].told then
        if w.active == Some(c) then
          v == w.(calls := w.calls[c := w.calls[c].(told := true, spawn := Scheduled(false))], spawnTask := Some(c))
        else v == w.(calls := w.calls[c := w.calls[c].(told := true)])
      else v == w
  {}

  // ---------- which sockets a startup gets ----------

  /** The startup of call c is in `bridge.start()`, not cancelled, and holds exactly these sockets. */
  predicate Holds(v: World, c: nat, socks: set<nat>)
  {
    && c < |v.calls| && v.calls[c].spawn.InStart? && !v.calls[c].spawn.cancelled && v.calls[c].spawn.socks == socks
    && v.calls[c].spawn.snapshot == v.generation
  }

  lemma PendingIsOpen(ws: seq<World>, es: seq<Event>, n: nat, k: nat)
    requires Run(ws, es) && n <= |es|
    ensures var w := ws[n];
      && (w.pendAudio == Some(k) || k in w.pendVideo ==> k in w.open) && !(w.pendAudio == Some(k) && k in w.pendVideo)
  {
    CallLeaks.LeaksAreAccounted(ws, es, n, k);
    hide Run, CallLeaks.NewLeaks, CallLeaks.Hands;
  }

  /** MAIN RESULT: in every run, a startup that finds its audio socket pending and no bridge running
      enters `bridge.start()`. If the answer has video it holds all the pending sockets, and all are
      open. If the answer rejected video it holds the audio socket alone, which is open, and the video
      sockets are closed. No other socket is touched, nothing is pending any more, and a prewarm is
      taken along. */
  lemma StartupTakesItsSockets(ws: seq<World>, es: seq<Event>, n: nat, c: nat, video: bool, alive: Ffmpeg)
    requires Run(ws, es) && n <= |es| && c < |ws[n].calls| && ws[n].calls[c].spawn == Scheduled(false)
    requires ws[n].pendAudio.Some? && !Running(ws[n], alive)
    ensures var w := ws[n]; var v := Next(w, SpawnRuns(c, video, alive)); var audio := w.pendAudio.value;
      && v.pendAudio.None? && v.pendVideo == {} && audio in v.open && audio !in w.pendVideo && w.pendVideo <= w.open
      && (if video then Holds(v, c, {audio} + w.pendVideo) && v.open == w.open
          else Holds(v, c, {audio}) && w.pendVideo !! v.open && v.open == w.open - w.pendVideo)
      && v.calls[c].spawn.prewarmed == w.prewarm && !v.prewarm && v.generation == w.generation && v.up == w.up
  {
    var w := ws[n];
    var audio := w.pendAudio.value;
    PendingIsOpen(ws, es, n, audio);
    forall k | k in w.pendVideo ensures k in w.open { PendingIsOpen(ws, es, n, k); }
    hide Run, Running;
    assert w.open - ({audio} + w.pendVideo - ({audio} + w.pendVideo)) == w.open;
    assert {audio} + w.pendVideo - {audio} == w.pendVideo;
    assert {audio} + {} == {audio};
  }

  /** MAIN RESULT: a startup that finds no audio socket closes the video sockets, is over, and hangs its
      call up if the client can. */
  lemma StartupWithoutSocketHangsUp(w: World, c: nat, video: bool, alive: Ffmpeg)
    requires c < |w.calls| && w.calls[c].spawn == Scheduled(false) && w.pendAudio.None?
    ensures var v := Next(w, SpawnRuns(c, video, alive));
      && c < |v.calls| && v.calls[c].spawn == Gone && PendingClosed(w, v) && !Holds(v, c, {})
      && (HungUp(c) in v.notes <==> HungUp(c) in w.notes || CanHang(w, c))
      && (CanHang(w, c) ==> !v.calls[c].live) && v.up == w.up
  {
    var u := CloseSocks(w, w.pendVideo).(pendVideo := {});
    HangHangs(u, c);
    HangKeepsCalls(u, c);
    hide Hang;
  }

  lemma HangKeepsCalls(w: World, c: nat)
    requires c < |w.calls|
    ensures |Hang(w, c).calls| == |w.calls|
  {
    HangTidies(w, c);
    hide Hang;
  }

  // ---------- how a startup ends ----------

  /** `bridge.start()` gave the URL of the bridge of call c, which is still the call. */
  predicate Publishes(w: World, c: nat) { w.started && w.active == Some(c) }

  /** The URL is published: reported once, and set exactly if the coordinator tracks the call. */
  predicate Published(w: World, v: World, c: nat, pipeline: nat)
  {
    && v == w.(calls := v.calls, notes := w.notes + [Active(c)], url := v.url)
    && v.url == (if w.data && w.sipId == Some(c) then Some(pipeline) else w.url)
    && |v.calls| == |w.calls| && c < |w.calls| && v.calls == w.calls[c := w.calls[c].(spawn := Gone)]
  }

  lemma PublishPublishes(w: World, c: nat, pipeline: nat, alive: Ffmpeg)
    requires Publishes(w, c) && c < |w.calls|
    ensures Published(w, Publish(w, c, pipeline, alive), c, pipeline)
  {}

  /** The startup of call c, and nothing else of the calls, is over or stops the bridge it made. */
  predicate StopsItsBridge(w: World, v: World, c: nat)
  {
    && c < |w.calls| && |v.calls| == |w.calls| && v.calls == w.calls[c := w.calls[c].(spawn := v.calls[c].spawn)]
    && (v.calls[c].spawn == Gone || v.calls[c].spawn.Stale?) && v.notes == w.notes && v.generation == w.generation + 1
    && (!w.prewarm && !w.cleaning ==> v.up.None? && v.open == w.open - UpSocks(w))
  }

  lemma PublishStops(w: World, c: nat, pipeline: nat, alive: Ffmpeg)
    requires !Publishes(w, c) && c < |w.calls|
    ensures StopsItsBridge(w, Publish(w, c, pipeline, alive), c)
  {
    hide Running;
  }

  /** The startup of c is in start(), and nobody has cancelled it. */
  predicate Starts(w: World, c: nat) { c < |w.calls| && w.calls[c].spawn.InStart? && !w.calls[c].spawn.cancelled }

  /** MAIN RESULT: a `start()` that was neither cancelled nor overtaken by a `stop()` and made its bridge
      has the bridge up for its call, with the sockets it was given. If the manager runs and that call
      is still active, the URL is published; else the bridge is stopped again. */
  lemma StartupPublishes(w: World, c: nat, over: set<nat>, alive: Ffmpeg)
    requires Starts(w, c) && w.generation == w.calls[c].spawn.snapshot
    ensures var v := Next(w, SpawnResumes(c, Passes, over, alive));
      var u := w.(up := Some(Up(c, w.calls[c].spawn.socks + (UpSocks(w) - over))));
      if Publishes(w, c) then Published(u, v, c, c) else StopsItsBridge(u, v, c)
  {
    var u := w.(up := Some(Up(c, w.calls[c].spawn.socks + (UpSocks(w) - over))));
    if Publishes(w, c) { PublishPublishes(u, c, c, alive); } else { PublishStops(u, c, c, alive); }
    hide Publish, Published, StopsItsBridge;
  }

  /** The startup of call c is over, its sockets are closed and no bridge is up. */
  predicate Unwinds(w: World, v: World, c: nat, over: set<nat>)
    requires c < |w.calls| && w.calls[c].spawn.InStart?
  {
    && v == w.(calls := w.calls[c := w.calls[c].(spawn := Gone)], up := None, prewarm := v.prewarm, open := v.open)
    && v.open == w.open - w.calls[c].spawn.socks - (UpSocks(w) - over)
  }

  /** MAIN RESULT: a `start()` that a `stop()` has overtaken, or that was cancelled, closes its sockets
      and ends quietly. A cancellation on the prewarm puts that prewarm back. */
  lemma OvertakenStartupUnwinds(w: World, c: nat, end: StartEnd, over: set<nat>, alive: Ffmpeg)
    requires c < |w.calls| && w.calls[c].spawn.InStart?
    requires w.calls[c].spawn.cancelled || (end == Passes && w.generation != w.calls[c].spawn.snapshot)
    ensures var v := Next(w, SpawnResumes(c, end, over, alive)); var s := w.calls[c].spawn;
      && Unwinds(w, v, c, over)
      && (v.prewarm <==> w.prewarm || (s.cancelled && end == InPrewarm && s.prewarmed))
  {
    assert w.open - (w.calls[c].spawn.socks + (UpSocks(w) - over)) == w.open - w.calls[c].spawn.socks - (UpSocks(w) - over);
  }

  /** MAIN RESULT: when `start()` raises for any other reason, the call is hung up if the client can. An
      endpoint that could not be made has closed the sockets, a failed spawn leaves them open. */
  lemma FailedStartupHangsUp(w: World, c: nat, end: StartEnd, over: set<nat>, alive: Ffmpeg)
    requires Starts(w, c) && (end == WrapFails || end == SpawnFails)
    ensures var v := Next(w, SpawnResumes(c, end, over, alive));
      var u := if end == WrapFails then Unwound(w, w.calls[c].spawn.socks, over) else w;
      && c < |v.calls| && v.calls[c].spawn == Gone
      && (if CanHang(w, c) then v.notes == w.notes + [HungUp(c)] && !v.calls[c].live else v.notes == w.notes)
      && v.up == u.up && (w.pendAudio.None? && w.pendVideo == {} ==> v.open == u.open)
  {
    var u := if end == WrapFails then Unwound(w, w.calls[c].spawn.socks, over) else w;
    UnwoundFrame(w, w.calls[c].spawn.socks, over);
    HungUpAfter(u, c);
    hide Hang, Unwound, EndSpawn;
  }

  lemma HungUpAfter(u: World, c: nat)
    requires c < |u.calls|
    ensures var v := EndSpawn(Hang(u, c), c);
      && c < |v.calls| && v.calls[c].spawn == Gone
      && (if CanHang(u, c) then v.notes == u.notes + [HungUp(c)] && !v.calls[c].live else v.notes == u.notes)
      && v.up == u.up && (u.pendAudio.None? && u.pendVideo == {} ==> v.open == u.open)
  {
    HangHangs(u, c);
    HangKeepsCalls(u, c);
    hide Hang, Hangs;
    if CanHang(u, c) { HangsMeans(u, Hang(u, c), c); }
  }

  lemma UnwoundFrame(w: World, socks: set<nat>, over: set<nat>)
    ensures var u := Unwound(w, socks, over); u == w.(open := u.open, up := None)
  {}

  lemma HangsMeans(w: World, v: World, c: nat)
    requires CanHang(w, c) && Hangs(w, v, c)
    ensures v.notes == w.notes + [HungUp(c)] && c < |v.calls| && !v.calls[c].live && v.up == w.up
    ensures w.pendAudio.None? && w.pendVideo == {} ==> v.open == w.open
  {
    if w.active == Some(c) { assert AfterEnd(w.(notes := w.notes + [HungUp(c)]), c, c) == v.calls[c]; }
  }

  // ---------- the grace timer ----------

  /** MAIN RESULT: the grace timer of the active call makes it inactive and begins to stop the bridge;
      the end is reported at once exactly if that has nothing to wait for. Of another call it only
      goes off. */
  lemma GraceBeginsTheTeardown(w: World, c: nat, alive: Ffmpeg)
    requires c < |w.calls| && w.calls[c].grace == Sleeping
    ensures var v := Next(w, GraceFires(c, alive));
      if w.active == Some(c) then
        && v.active.None? && v.generation == w.generation + 1 && |v.calls| == |w.calls|
        && (!w.prewarm && !w.cleaning ==> v.up.None? && v.open == w.open - UpSocks(w))
        && (if ReturnsAtOnce(w, alive) then v.calls[c].grace == Over && v.notes == w.notes + [Cleared(c), Ended(c)]
            else v.calls[c].grace.Tearing? && !v.calls[c].grace.cancelled && v.notes == w.notes + [Cleared(c)])
      else v == w.(calls := w.calls[c := w.calls[c].(grace := Over)])
  {
    if w.active == Some(c) {
      GraceStops(w, c, alive);
      hide GraceWakes;
    }
  }

  lemma GraceStops(w: World, c: nat, alive: Ffmpeg)
    requires c < |w.calls| && w.calls[c].grace == Sleeping && w.active == Some(c)
    ensures var v := GraceWakes(w, c, alive);
      && v.active.None? && v.generation == w.generation + 1 && |v.calls| == |w.calls|
      && (!w.prewarm && !w.cleaning ==> v.up.None? && v.open == w.open - UpSocks(w))
      && (if ReturnsAtOnce(w, alive) then v.calls[c].grace == Over && v.notes == w.notes + [Cleared(c), Ended(c)]
          else v.calls[c].grace.Tearing? && !v.calls[c].grace.cancelled && v.notes == w.notes + [Cleared(c)])
  {
    var u := Noted(w, Cleared(c)).(active := None);
    var b := BeginStop(u, alive);
    StopStops(u, OnExit, alive);
    BeginReturns(u, alive);
    StopCloses(u, alive);
    assert ReturnsAtOnce(u, alive) <==> ReturnsAtOnce(w, alive);
    hide BeginStop, ReturnsAtOnce, SetUrl;
    TearsDown(b, c);
    hide TearingAt;
  }

  lemma StopCloses(w: World, alive: Ffmpeg)
    ensures var v := BeginStop(w, alive).w;
      v.generation == w.generation + 1 && (!w.prewarm && !w.cleaning ==> v.up.None? && v.open == w.open - UpSocks(w))
  {
    hide Running;
  }

  lemma TearsDown(s: Stop, c: nat)
    requires c < |s.w.calls|
    ensures var v := TearingAt(s, c);
      && |v.calls| == |s.w.calls| && v.active == s.w.active && v.generation == s.w.generation && v.up == s.w.up && v.open == s.w.open
      && (if s.at.None? then v.calls[c].grace == Over && v.notes == s.w.notes + [Ended(c)]
          else v.calls[c].grace == Tearing(s.at.value, false) && v.notes == s.w.notes)
  {}

  // ---------- aborts ----------

  /** The same startup where it was, told to stop. */
  predicate IsCancelled(s: Spawn, t: Spawn)
  {
    match s
    case Scheduled(_) => t == Scheduled(true)
    case InStart(socks, snapshot, prewarmed, _) => t == InStart(socks, snapshot, prewarmed, true)
    case Stale(at, _) => t == Stale(at, true)
    case _ => t == s
  }

  /** MAIN RESULT: a startup that was cancelled before it ran does nothing. One that is cancelled while
      its `stop()` waits, and a teardown that is, ends there; a prewarm it had taken is put back. Neither
      reports anything, and the bridge stays as it is. */
  lemma CancelledTasksEnd(w: World, c: nat, video: bool, alive: Ffmpeg)
    requires c < |w.calls|
    ensures w.calls[c].spawn == Scheduled(true) ==>
      Next(w, SpawnRuns(c, video, alive)) == w.(calls := w.calls[c := w.calls[c].(spawn := Gone)])
    ensures w.calls[c].spawn.Stale? && w.calls[c].spawn.cancelled ==>
      Next(w, StaleStopped(c, alive))
      == w.(calls := w.calls[c := w.calls[c].(spawn := Gone)], prewarm := w.prewarm || w.calls[c].spawn.at == OnPrewarm)
    ensures w.calls[c].grace.Tearing? && w.calls[c].grace.cancelled ==>
      Next(w, GraceStopped(c, alive))
      == w.(calls := w.calls[c := w.calls[c].(grace := Over)], prewarm := w.prewarm || w.calls[c].grace.at == OnPrewarm)
  {}

  /** MAIN RESULT: a push during a call first cancels both timers, hangs up if the client can, drops the
      client and closes exactly the pending sockets; a startup that is on its way is cancelled. */
  lemma PushHangsUp(w: World, creds: bool, alive: Ffmpeg)
    requires w.active.Some? && w.active.value < |w.calls| && AwaitsSpawn(w)
    ensures var v := Next(w, Push(creds, alive)); var c := w.active.value; var t := w.spawnTask.value;
      && v.sip.None? && v.maxTask.None? && v.pendAudio.None? && v.pendVideo == {} && v.spawnTask.None?
      && v.open == w.open - w.pendVideo - (if w.pendAudio.Some? then {w.pendAudio.value} else {})
      && (HungUp(c) in v.notes <==> HungUp(c) in w.notes || CanHang(w, c)) && (CanHang(w, c) ==> c < |v.calls| && !v.calls[c].live)
      && t < |v.calls| && IsCancelled(w.calls[t].spawn, v.calls[t].spawn)
      && v.aborts == w.aborts + [AbortAwaitsSpawn(c, t, NewRing(creds))] && v.active == w.active
  {
    AbortTidies(w);
    var c, t := w.active.value, w.spawnTask.value;
    var x := Aborted(w, c);
    AbortedTidies(w, c);
    TidiedReturns(w, x, alive);
    assert Calmer(w.calls[t], x.calls[t]);
    hide Aborted, BeginStop, AbortAt, AwaitsSpawn, Tidied, SameSpawns;
    AbortWaitsFor(w, x, NewRing(creds), alive);
  }

  lemma AbortWaitsFor(w: World, x: World, next: Then, alive: Ffmpeg)
    requires w.active.Some? && x == Aborted(w, w.active.value) && AwaitsSpawn(x) && x.aborts == w.aborts && x.spawnTask == w.spawnTask
    requires |x.calls| == |w.calls| && x.active == w.active
    ensures var v := AbortBegins(w, next, alive); var t := x.spawnTask.value;
      && v == x.(spawnTask := None, calls := v.calls, aborts := x.aborts + [AbortAwaitsSpawn(w.active.value, t, next)])
      && t < |x.calls| && v.calls == x.calls[t := x.calls[t].(spawn := CancelSpawn(x.calls[t].spawn))]
  {
    hide Aborted, BeginStop, AbortAt;
  }

  /** What an abort does before it waits for anything. */
  lemma AbortTidies(w: World)
    requires w.active.Some? && w.active.value < |w.calls|
    ensures var c := w.active.value; var x := Aborted(w, c);
      && x.sip.None? && x.maxTask.None? && x.pendAudio.None? && x.pendVideo == {}
      && x.open == w.open - w.pendVideo - (if w.pendAudio.Some? then {w.pendAudio.value} else {})
      && (HungUp(c) in x.notes <==> HungUp(c) in w.notes || CanHang(w, c)) && |x.calls| == |w.calls|
      && (CanHang(w, c) ==> !x.calls[c].live)
  {
    var c := w.active.value;
    var a := CancelMax(w);
    var b := CancelGrace(a);
    MaxGoesOff(w);
    GraceGoesOff(a);
    hide CancelMax, CancelGrace;
    HangHangs(b, c);
    if CanHang(b, c) { HangsInFull(b, Hang(b, c), c); }
    AbortedIs(w, c);
    hide Hang, Aborted, Hangs;
    ClosesPending(Hang(b, c).(sip := None));
    hide ClosePending;
  }

  lemma HangsInFull(w: World, v: World, c: nat)
    requires CanHang(w, c) && Hangs(w, v, c) && w.active == Some(c)
    ensures v.notes == w.notes + [HungUp(c)] && |v.calls| == |w.calls| && !v.calls[c].live && v.maxTask.None?
    ensures v.pendAudio.None? && v.pendVideo == {}
    ensures v.open == w.open - w.pendVideo - (if w.pendAudio.Some? then {w.pendAudio.value} else {})
  {
    assert AfterEnd(w.(notes := w.notes + [HungUp(c)]), c, c) == v.calls[c];
  }

  /** The abort of call c is over at v, which its `stop()` left as u. */
  predicate AbortOverAt(u: World, v: World, c: nat)
  {
    v.active.None? && v.notes == u.notes + [Ended(c)] && v.up == u.up && v.open == u.open && (u.data && u.sipId == Some(c) ==> v.url.None?)
  }

  /** MAIN RESULT: an abort is over as soon as its `stop()` has nothing left to wait for; then no call is
      active, the end of the aborted one is reported, its URL is gone, and the push goes on. */
  lemma AbortEndsTheCall(w: World, k: nat, alive: Ffmpeg)
    requires k < |w.aborts| && w.aborts[k].AbortAwaitsStop?
    ensures var v := Next(w, AbortStopped(k, alive)); var s := GoOn(w, w.aborts[k].at, alive);
      if Returns(w, w.aborts[k].at, alive) then
        k < |v.aborts| && v.aborts[k] == AbortOver && AbortOverAt(s.w, v, w.aborts[k].call)
      else k < |v.aborts| && v.aborts[k].AbortAwaitsStop? && v.aborts[k].call == w.aborts[k].call && v.active == w.active && v.notes == w.notes
  {
    StopStops(w, w.aborts[k].at, alive);
    GoOnReturns(w, w.aborts[k].at, alive);
    var s := GoOn(w, w.aborts[k].at, alive);
    hide GoOn, BeginStop, Returns;
    if s.at.None? { AbortEnding(s, k, w.aborts[k].call, w.aborts[k].next); }
  }

  lemma AbortEnding(s: Stop, k: nat, c: nat, next: Then)
    requires k < |s.w.aborts| && s.at.None?
    ensures var v := AbortAt(s, k, c, next); v.aborts == s.w.aborts[k := AbortOver] && AbortOverAt(s.w, v, c)
  {
    var x := s.w.(active := None, aborts := s.w.aborts[k := AbortOver]);
    EndedIs(x, c);
    GoesOnWith(CallEnded(x, c), next);
    hide CallEnded, Continue;
  }

  lemma EndedIs(x: World, c: nat)
    ensures var v := CallEnded(x, c);
      && v.notes == x.notes + [Ended(c)] && v.up == x.up && v.open == x.open && v.active == x.active && v.aborts == x.aborts
      && (x.data && x.sipId == Some(c) ==> v.url.None?)
  {}

  lemma GoesOnWith(x: World, next: Then)
    ensures var v := Continue(x, next);
      && v.notes == x.notes && v.up == x.up && v.open == x.open && v.active == x.active && v.aborts == x.aborts
      && (v.url == x.url || v.url.None?)
  {}

  // ---------- async_stop ----------

  /** MAIN RESULT: when `async_stop` is done the manager is stopped: no call is active, no client, no
      pending socket is open, and no timer of it runs. */
  lemma StopLeavesNothing(w: World, k: nat, alive: Ffmpeg)
    requires k < |w.stops| && w.stops[k].StopAwaitsBridge? && Returns(w, w.stops[k].at, alive)
    ensures var v := Next(w, StopStopped(k, alive));
      && !v.started && v.active.None? && v.sip.None? && v.maxTask.None? && v.graceTask.None?
      && v.pendAudio.None? && v.pendVideo == {} && w.pendVideo !! v.open && (w.pendAudio.Some? ==> w.pendAudio.value !in v.open)
      && v.notes == w.notes + [StopCompleted] && k < |v.stops| && v.stops[k] == StopOver && |v.calls| == |w.calls|
      && (w.maxTask.Some? && w.maxTask.value < |w.calls| ==> !v.calls[w.maxTask.value].max)
      && (w.graceTask.Some? && w.graceTask.value < |w.calls| ==>
            v.calls[w.graceTask.value].grace == ToldToEnd(w.calls[w.graceTask.value].grace))
  {
    var at := w.stops[k].at;
    StopStops(w, at, alive);
    GoOnReturns(w, at, alive);
    var s := GoOn(w, at, alive);
    hide GoOn, BeginStop, Returns;
    StopEnding(s, k);
  }

  lemma StopEnding(s: Stop, k: nat)
    requires k < |s.w.stops| && s.at.None?
    ensures var w := s.w; var v := StopAt(s, k);
      && !v.started && v.active.None? && v.sip.None? && v.maxTask.None? && v.graceTask.None?
      && v.pendAudio.None? && v.pendVideo == {} && w.pendVideo !! v.open && (w.pendAudio.Some? ==> w.pendAudio.value !in v.open)
      && v.notes == w.notes + [StopCompleted] && v.stops == w.stops[k := StopOver] && |v.calls| == |w.calls|
      && (w.maxTask.Some? && w.maxTask.value < |w.calls| ==> !v.calls[w.maxTask.value].max)
      && (w.graceTask.Some? && w.graceTask.value < |w.calls| ==>
            v.calls[w.graceTask.value].grace == ToldToEnd(w.calls[w.graceTask.value].grace))
  {
    var x := s.w.(sip := None, active := None, stops := s.w.stops[k := StopOver]);
    var a := CancelMax(x);
    MaxGoesOff(x);
    GraceGoesOff(a);
    hide CancelMax, CancelGrace;
    ClosesPending(CancelGrace(a));
    hide ClosePending;
  }
}
