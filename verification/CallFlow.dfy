/**
  `CallManager` and `IntratoneCoordinator` as one transition system over their suspension points
  (custom_components/intratone/call_manager.py, custom_components/intratone/coordinator.py).

  The SIP client and the audio bridge appear by what is proved of them: a dialog reports that it is
  established at most once and that it is terminated exactly once; `start()` keeps the sockets it
  was given when it returns a URL, leaves them open with nothing to refer to them when the ffmpeg
  spawn itself failed, and closes them when it raises for any other reason; it raises when a
  `stop()` began after its entry. A `stop()` closes everything in one stretch, before its first
  await unless a prewarmed ffmpeg or the cleanup of one is still there to wait for. Calls, sockets
  and invites are numbered in order of creation.
*/
module CallFlow {
  import opened Basics

  // ---------- state ----------

  /** Where a `bridge.stop()` is suspended: on the prewarm it took, on the death of that ffmpeg, on
      the cleanup of an earlier prewarm, or, everything being closed, on the exit of ffmpeg. */
  datatype Await = OnPrewarm | OnDiscard | OnCleanup | OnExit

  /** The task `_spawn_bridge` of a call; Stale means inside `bridge.stop()`, InStart inside
      `bridge.start()`, which may have taken a prewarm. */
  datatype Spawn =
    | NoSpawn
    | Scheduled(cancelled: bool)
    | InStart(socks: set<nat>, snapshot: nat, prewarmed: bool, cancelled: bool)
    | Stale(at: Await, cancelled: bool)
    | Gone

  /** The task `_teardown_bridge_after_grace` of a call; Tearing means inside `bridge.stop()`. */
  datatype Grace = NoGrace | Sleeping | Tearing(at: Await, cancelled: bool) | Over

  /** One SIP call: its dialog is up, it has reported that it is established, its tasks. */
  datatype Call = Call(live: bool, told: bool, spawn: Spawn, grace: Grace, max: bool)

  datatype Up = Up(call: nat, socks: set<nat>)

  /** What a push handler does after `abort_active_call`. */
  datatype Then = NewRing(creds: bool) | CancelRing

  datatype AbortPc =
    | AbortAwaitsSpawn(call: nat, task: nat, next: Then)
    | AbortAwaitsStop(call: nat, at: Await, next: Then)
    | AbortOver

  datatype StopPc = StopAwaitsSpawn(task: nat) | StopAwaitsBridge(at: Await) | StopOver

  datatype ConnectPc = Connecting(invite: nat, video: bool) | ConnectOver

  /** How a `start()` ends: a checkpoint decides, an endpoint could not be made, the ffmpeg spawn
      failed, or it was cancelled while it still waited on its prewarm. */
  datatype StartEnd = Passes | WrapFails | SpawnFails | InPrewarm

  /** What happened to calls: published, ended, hung up, no longer active; and `async_stop` done. */
  datatype Note =
    | Active(call: nat)
    | Ended(call: nat)
    | HungUp(call: nat)
    | Cleared(call: nat)
    | StopCompleted

  /** `_PendingInvite`: `started` and `answer_called`. */
  datatype Invite = Invite(started: bool, answered: bool)

  /** A call placed for an invite, and `/answer` sent for it. */
  datatype Deed = Placed(invite: nat) | Answered(invite: nat)

  datatype World = World(
    // CallManager
    started: bool,
    calls: seq<Call>,
    sip: Option<nat>,
    active: Option<nat>,
    maxTask: Option<nat>,
    graceTask: Option<nat>,
    spawnTask: Option<nat>,
    pendAudio: Option<nat>,
    pendVideo: set<nat>,
    aborts: seq<AbortPc>,
    stops: seq<StopPc>,
    connects: seq<ConnectPc>,
    // AudioBridge: the endpoints its attributes hold, `_prewarm_task`, `_prewarm_cleanup_task`
    generation: nat,
    up: Option<Up>,
    prewarm: bool,
    cleaning: bool,
    // the host's sockets
    open: set<nat>,
    created: nat,
    // IntratoneCoordinator: `data is not None`, the call whose pipeline `data.stream_url` names,
    // `_active_sip_call_id`, every `_PendingInvite` ever parked, the one `_pending` names
    data: bool,
    url: Option<nat>,
    sipId: Option<nat>,
    invites: seq<Invite>,
    invite: Option<nat>,
    deeds: seq<Deed>,
    notes: seq<Note>)

  const START := World(true, [], None, None, None, None, None, None, {}, [], [], [], 0, None, false, false, {}, 0,
                       false, None, None, [], None, [], [])

  datatype Connect = Connected | Refused | Raises

  /** Which ffmpegs are alive where an event needs to know: the prewarmed one, the running one. */
  datatype Ffmpeg = Ffmpeg(parked: bool, running: bool)

  /** `over`: the endpoints of an earlier pipeline that this `start()` replaced by its own. */
  datatype Event =
    | Push(creds: bool, alive: Ffmpeg)
    | CancelPush(alive: Ffmpeg)
    | Tap(video: bool)
    | ConnectDone(k: nat, how: Connect, alive: Ffmpeg)
    | Established(call: nat)
    | SipEnds(call: nat)
    | SpawnRuns(call: nat, video: bool, alive: Ffmpeg)
    | SpawnResumes(call: nat, end: StartEnd, over: set<nat>, alive: Ffmpeg)
    | StaleStopped(call: nat, alive: Ffmpeg)
    | GraceFires(call: nat, alive: Ffmpeg)
    | GraceStopped(call: nat, alive: Ffmpeg)
    | MaxFires(call: nat)
    | AbortResumes(k: nat, alive: Ffmpeg)
    | AbortStopped(k: nat, alive: Ffmpeg)
    | StopBegins(alive: Ffmpeg)
    | StopResumes(k: nat, alive: Ffmpeg)
    | StopStopped(k: nat, alive: Ffmpeg)
    | CleanupDone

  // ---------- small steps ----------

  function WithCall(w: World, c: nat, r: Call): World
  {
    if c < |w.calls| then w.(calls := w.calls[c := r]) else w
  }

  function Noted(w: World, n: Note): World { w.(notes := w.notes + [n]) }

  function CloseSocks(w: World, s: set<nat>): World { w.(open := w.open - s) }

  function PendingSocks(w: World): set<nat> { (if w.pendAudio.Some? then {w.pendAudio.value} else {}) + w.pendVideo }

  /** `_close_pending_sockets` */
  function ClosePending(w: World): World
  {
    CloseSocks(w, PendingSocks(w)).(pendAudio := None, pendVideo := {})
  }

  function CancelMax(w: World): World
  {
    (if w.maxTask.Some? && w.maxTask.value < |w.calls| then
       WithCall(w, w.maxTask.value, w.calls[w.maxTask.value].(max := false)) else w).(maxTask := None)
  }

  /** A sleeping grace task is over; one that is inside `bridge.stop()` is told at its next step. */
  function CancelledGrace(g: Grace): Grace { if g.Tearing? then Tearing(g.at, true) else Over }

  function CancelGrace(w: World): World
  {
    (if w.graceTask.Some? && w.graceTask.value < |w.calls| then
       var g := w.graceTask.value;
       WithCall(w, g, w.calls[g].(grace := CancelledGrace(w.calls[g].grace))) else w).(graceTask := None)
  }

  /** `cancel_prewarm` */
  function CancelPrewarm(w: World): World { if w.prewarm then w.(prewarm := false, cleaning := true) else w }

  /** `_handle_call_terminated` */
  function HandleTerminated(w: World, c: nat): World
  {
    if w.active != Some(c) || c >= |w.calls| then w
    else
      var v := CancelGrace(ClosePending(CancelPrewarm(CancelMax(w))).(sip := None));
      WithCall(v, c, v.calls[c].(grace := Sleeping)).(graceTask := Some(c))
  }

  /** The dialog of a call ends, which is reported at once. */
  function EndDialog(w: World, c: nat): World
  {
    if c < |w.calls| && w.calls[c].live then HandleTerminated(WithCall(w, c, w.calls[c].(live := false)), c) else w
  }

  /** `self._sip_client.hang_up(c)`: the client ignores the id of another call. */
  function Hang(w: World, c: nat): World
  {
    if w.sip == Some(c) && c < |w.calls| && w.calls[c].live then EndDialog(Noted(w, HungUp(c)), c) else w
  }

  function UpSocks(w: World): set<nat> { if w.up.Some? then w.up.value.socks else {} }

  function SpawnSocks(s: Spawn): set<nat> { if s.InStart? then s.socks else {} }

  function SpawnDone(w: World, t: nat): bool { t >= |w.calls| || w.calls[t].spawn in {NoSpawn, Gone} }

  function CancelSpawn(s: Spawn): Spawn
  {
    match s
    case Scheduled(_) => Scheduled(true)
    case InStart(socks, snapshot, prewarmed, _) => InStart(socks, snapshot, prewarmed, true)
    case Stale(at, _) => Stale(at, true)
    case _ => s
  }

  // ---------- bridge.stop() ----------

  /** The latest call whose `start()` is in flight. */
  function Starting(calls: seq<Call>): Option<nat>
  {
    if calls == [] then None
    else if calls[|calls| - 1].spawn.InStart? then Some(|calls| - 1)
    else Starting(calls[..|calls| - 1])
  }

  /** `bridge.is_running`: there is a process, and it is alive. */
  predicate Running(w: World, alive: Ffmpeg) { alive.running && (w.up.Some? || Starting(w.calls).Some?) }

  lemma RunningMeans(w: World, alive: Ffmpeg)
    requires Running(w, alive)
    ensures w.up.Some? || Starting(w.calls).Some?
  {}

  /** A `bridge.stop()` up to its next await, if it has not returned. */
  datatype Stop = Stop(w: World, at: Option<Await>)

  /** All attributes are taken, nulled and closed. */
  function TakeDown(w: World): World { CloseSocks(w, UpSocks(w)).(up := None) }

  function Sweep(w: World, alive: Ffmpeg): Stop
  {
    Stop(TakeDown(w), if Running(w, alive) then Some(OnExit) else None)
  }

  function AwaitCleanup(w: World, alive: Ffmpeg): Stop
  {
    if w.cleaning then Stop(w.(cleaning := false), Some(OnCleanup)) else Sweep(w, alive)
  }

  function BeginStop(w: World, alive: Ffmpeg): Stop
  {
    var u := w.(generation := w.generation + 1);
    if u.prewarm then Stop(u.(prewarm := false), Some(OnPrewarm)) else AwaitCleanup(u, alive)
  }

  function GoOn(w: World, at: Await, alive: Ffmpeg): Stop
  {
    match at
    case OnPrewarm => if alive.parked then Stop(w, Some(OnDiscard)) else AwaitCleanup(w, alive)
    case OnDiscard => AwaitCleanup(w, alive)
    case OnCleanup => Sweep(w, alive)
    case OnExit => Stop(w, None)
  }

  /** A `stop()` that is cancelled puts the prewarm it was waiting on back. */
  function Dropped(w: World, at: Await): World { if at == OnPrewarm then w.(prewarm := true) else w }

  // ---------- the coordinator ----------

  /** `set_stream_url` */
  function SetUrl(w: World, c: nat, url: Option<nat>): World
  {
    if !w.data || w.sipId != Some(c) then w
    else if url.None? then w.(sipId := None, invite := None, url := None)
    else w.(url := url)
  }

  /** The rest of `async_handle_push` for a ring. */
  function RingArrives(w: World, creds: bool): World
  {
    var v := w.(data := true, url := None);
    if creds then v.(invites := w.invites + [Invite(false, false)], invite := Some(|w.invites|)) else v.(invite := None)
  }

  function Continue(w: World, k: Then): World
  {
    match k
    case NewRing(creds) => RingArrives(w, creds)
    case CancelRing => w.(invite := None)
  }

  /** `on_call_ended` */
  function CallEnded(w: World, c: nat): World { SetUrl(Noted(w, Ended(c)), c, None) }

  function Rearm(w: World, p: nat): World
  {
    if p < |w.invites| then w.(invites := w.invites[p := w.invites[p].(started := false)]) else w
  }

  // ---------- starting a call ----------

  /** A tap up to the TCP connect: `async_ensure_call_started` and the start of `start_call`. */
  function TapBegins(w: World, video: bool): World
  {
    if w.invite.None? || w.invite.value >= |w.invites| || w.invites[w.invite.value].started then w
    else if !w.started || w.active.Some? then w.(sipId := None)
    else
      var n := w.created;
      var pair: set<nat> := if video then {n + 1, n + 2} else {};
      var p := w.invite.value;
      w.(invites := w.invites[p := w.invites[p].(started := true)], pendAudio := Some(n),
         pendVideo := if video then pair else w.pendVideo,
         open := w.open + {n} + pair, created := n + 3, connects := w.connects + [Connecting(p, video)])
  }

  /** Tell the service that the user picked up, once per invite. */
  function Answer(w: World, p: nat): World
  {
    if p >= |w.invites| || w.invites[p].answered then w
    else w.(invites := w.invites[p := w.invites[p].(answered := true)], deeds := w.deeds + [Answered(p)])
  }

  /** A new call, with its INVITE out. */
  function CallPlaced(w: World, p: nat, prewarms: bool): World
  {
    var c := |w.calls|;
    w.(calls := w.calls + [Call(true, false, NoSpawn, NoGrace, true)], sip := Some(c), active := Some(c),
       maxTask := Some(c), sipId := Some(c), prewarm := w.prewarm || prewarms, deeds := w.deeds + [Placed(p)])
  }

  /** The rest of `start_call`, and what its caller does with the result. */
  function ConnectEnds(w: World, k: nat, how: Connect, alive: Ffmpeg): World
  {
    if k >= |w.connects| || w.connects[k] == ConnectOver then w
    else
      var v := w.(connects := w.connects[k := ConnectOver]);
      var p := w.connects[k].invite;
      match how
      case Connected => Answer(CallPlaced(v, p, w.connects[k].video && !Running(w, alive)), p)
      case Refused => Rearm(ClosePending(v).(sipId := None), p)
      case Raises => Rearm(ClosePending(v).(sip := None), p)
  }

  /** `_handle_call_established` */
  function HandleEstablished(w: World, c: nat): World
  {
    if c >= |w.calls| || !w.calls[c].live || w.calls[c].told then w
    else
      var v := WithCall(w, c, w.calls[c].(told := true));
      if w.active != Some(c) then v
      else WithCall(v, c, v.calls[c].(spawn := Scheduled(false))).(spawnTask := Some(c))
  }

  // ---------- the bridge comes up ----------

  function EndSpawn(w: World, c: nat): World
  {
    if c < |w.calls| then WithCall(w, c, w.calls[c].(spawn := Gone)) else w
  }

  /** The stop of a stale bridge is suspended, or has returned. */
  function StaleAt(s: Stop, c: nat): World
  {
    if s.at.None? || c >= |s.w.calls| then EndSpawn(s.w, c)
    else WithCall(s.w, c, s.w.calls[c].(spawn := Stale(s.at.value, false)))
  }

  /** What follows `bridge.start()`: publish, or stop the stale bridge. */
  function Publish(w: World, c: nat, pipeline: nat, alive: Ffmpeg): World
  {
    if !w.started || w.active != Some(c) then StaleAt(BeginStop(w, alive), c)
    else EndSpawn(SetUrl(Noted(w, Active(c)), c, Some(pipeline)), c)
  }

  /** The call whose pipeline `bridge.start()` finds running. */
  function Runner(w: World): nat
    requires w.up.Some? || Starting(w.calls).Some?
  {
    if w.up.Some? then w.up.value.call else Starting(w.calls).value
  }

  /** The sockets `_spawn_bridge` hands to the bridge. */
  function Used(w: World, video: bool): set<nat>
    requires w.pendAudio.Some?
  {
    {w.pendAudio.value} + (if video then w.pendVideo else {})
  }

  /** The pending sockets are taken; what is not used is closed. */
  function Taken(w: World, video: bool): World
    requires w.pendAudio.Some?
  {
    CloseSocks(w, PendingSocks(w) - Used(w, video)).(pendAudio := None, pendVideo := {})
  }

  /** `_spawn_bridge` up to the first suspension of `bridge.start()`. A running bridge returns at
      once and does not take the sockets, which nothing refers to any more. */
  function SpawnBegins(w: World, c: nat, video: bool, alive: Ffmpeg): World
  {
    if c >= |w.calls| || !w.calls[c].spawn.Scheduled? then w
    else if w.calls[c].spawn.cancelled then EndSpawn(w, c)
    else if w.pendAudio.None? then EndSpawn(Hang(CloseSocks(w, w.pendVideo).(pendVideo := {}), c), c)
    else if Running(w, alive) then Publish(Taken(w, video), c, Runner(w), alive)
    else
      WithCall(Taken(w, video).(prewarm := false), c,
               w.calls[c].(spawn := InStart(Used(w, video), w.generation, w.prewarm, false)))
  }

  /** Unwinding a `start()` closes its sockets, and what the bridge still held of an earlier one. */
  function Unwound(w: World, socks: set<nat>, over: set<nat>): World
  {
    CloseSocks(w, socks + (UpSocks(w) - over)).(up := None)
  }

  /** `bridge.start()` returns or raises. */
  function SpawnEnds(w: World, c: nat, end: StartEnd, over: set<nat>, alive: Ffmpeg): World
  {
    if c >= |w.calls| || !w.calls[c].spawn.InStart? then w
    else
      var s := w.calls[c].spawn;
      if s.cancelled then
        EndSpawn(Unwound(w, s.socks, over).(prewarm := w.prewarm || (end.InPrewarm? && s.prewarmed)), c)
      else match end
        case InPrewarm => w
        case SpawnFails => EndSpawn(Hang(w, c), c)
        case WrapFails => EndSpawn(Hang(Unwound(w, s.socks, over), c), c)
        case Passes =>
          if w.generation != s.snapshot then EndSpawn(Unwound(w, s.socks, over), c)
          else Publish(w.(up := Some(Up(c, s.socks + (UpSocks(w) - over)))), c, c, alive)
  }

  function StaleEnds(w: World, c: nat, alive: Ffmpeg): World
  {
    if c >= |w.calls| || !w.calls[c].spawn.Stale? then w
    else
      var s := w.calls[c].spawn;
      if s.cancelled then EndSpawn(Dropped(w, s.at), c) else StaleAt(GoOn(w, s.at, alive), c)
  }

  // ---------- timers ----------

  /** `_teardown_bridge`: the stop is suspended, or has returned and the call is ended. */
  function TearingAt(s: Stop, c: nat): World
  {
    if c >= |s.w.calls| then s.w
    else if s.at.None? then CallEnded(WithCall(s.w, c, s.w.calls[c].(grace := Over)), c)
    else WithCall(s.w, c, s.w.calls[c].(grace := Tearing(s.at.value, false)))
  }

  /** `_teardown_bridge_after_grace` wakes up. */
  function GraceWakes(w: World, c: nat, alive: Ffmpeg): World
  {
    if c >= |w.calls| || w.calls[c].grace != Sleeping then w
    else if w.active != Some(c) then WithCall(w, c, w.calls[c].(grace := Over))
    else TearingAt(BeginStop(Noted(w, Cleared(w.active.value)).(active := None), alive), c)
  }

  function GraceEnds(w: World, c: nat, alive: Ffmpeg): World
  {
    if c >= |w.calls| || !w.calls[c].grace.Tearing? then w
    else
      var g := w.calls[c].grace;
      if g.cancelled then WithCall(Dropped(w, g.at), c, w.calls[c].(grace := Over))
      else TearingAt(GoOn(w, g.at, alive), c)
  }

  /** `_auto_terminate_after` wakes up. */
  function MaxWakes(w: World, c: nat): World
  {
    if c >= |w.calls| || !w.calls[c].max then w
    else
      var v := WithCall(w, c, w.calls[c].(max := false));
      if w.active == Some(c) then Hang(v, c) else v
  }

  // ---------- abort and stop ----------

  function CancelTask(w: World, t: nat): World
    requires t < |w.calls|
  {
    WithCall(w, t, w.calls[t].(spawn := CancelSpawn(w.calls[t].spawn)))
  }

  /** What `abort_active_call` does before it waits for anything. */
  function Aborted(w: World, c: nat): World
  {
    ClosePending(Hang(CancelGrace(CancelMax(w)), c).(sip := None))
  }

  /** `bridge.stop()` inside abort k is suspended, or has returned. */
  function AbortAt(s: Stop, k: nat, call: nat, next: Then): World
    requires k < |s.w.aborts|
  {
    if s.at.Some? then s.w.(aborts := s.w.aborts[k := AbortAwaitsStop(call, s.at.value, next)])
    else Continue(CallEnded(s.w.(active := None, aborts := s.w.aborts[k := AbortOver]), call), next)
  }

  predicate AwaitsSpawn(w: World) { w.spawnTask.Some? && !SpawnDone(w, w.spawnTask.value) }

  /** `abort_active_call`, after what it does first, up to its first suspension. */
  function AbortWaits(v: World, c: nat, next: Then, alive: Ffmpeg): World
  {
    var k := |v.aborts|;
    var u := v.(spawnTask := None, aborts := v.aborts + [AbortOver]);
    if AwaitsSpawn(v) then
      CancelTask(u, v.spawnTask.value).(aborts := v.aborts + [AbortAwaitsSpawn(c, v.spawnTask.value, next)])
    else
      AbortAt(BeginStop(u, alive), k, c, next)
  }

  function AbortBegins(w: World, next: Then, alive: Ffmpeg): World
    requires w.active.Some?
  {
    AbortWaits(Aborted(w, w.active.value), w.active.value, next, alive)
  }

  function AbortGoesOn(w: World, k: nat, alive: Ffmpeg): World
  {
    if k >= |w.aborts| || !w.aborts[k].AbortAwaitsSpawn? || !SpawnDone(w, w.aborts[k].task) then w
    else AbortAt(BeginStop(w, alive), k, w.aborts[k].call, w.aborts[k].next)
  }

  function AbortEnds(w: World, k: nat, alive: Ffmpeg): World
  {
    if k >= |w.aborts| || !w.aborts[k].AbortAwaitsStop? then w
    else AbortAt(GoOn(w, w.aborts[k].at, alive), k, w.aborts[k].call, w.aborts[k].next)
  }

  /** `bridge.stop()` inside the k-th `async_stop` is suspended, or has returned. */
  function StopAt(s: Stop, k: nat): World
    requires k < |s.w.stops|
  {
    if s.at.Some? then s.w.(stops := s.w.stops[k := StopAwaitsBridge(s.at.value)])
    else
      var v := s.w.(sip := None, active := None, stops := s.w.stops[k := StopOver]);
      Noted(ClosePending(CancelGrace(CancelMax(v))).(started := false), StopCompleted)
  }

  /** `async_stop` up to its first suspension. */
  function StopBeginning(w: World, alive: Ffmpeg): World
  {
    var k := |w.stops|;
    var u := w.(spawnTask := None, stops := w.stops + [StopOver]);
    if AwaitsSpawn(w) then
      CancelTask(u, w.spawnTask.value).(stops := w.stops + [StopAwaitsSpawn(w.spawnTask.value)])
    else
      StopAt(BeginStop(u, alive), k)
  }

  function StopGoesOn(w: World, k: nat, alive: Ffmpeg): World
  {
    if k >= |w.stops| || !w.stops[k].StopAwaitsSpawn? || !SpawnDone(w, w.stops[k].task) then w
    else StopAt(BeginStop(w, alive), k)
  }

  function StopEnds(w: World, k: nat, alive: Ffmpeg): World
  {
    if k >= |w.stops| || !w.stops[k].StopAwaitsBridge? then w
    else StopAt(GoOn(w, w.stops[k].at, alive), k)
  }

  // ---------- runs ----------

  function Next(w: World, e: Event): World
  {
    match e
    case Push(creds, alive) =>
      if w.active.Some? then AbortBegins(w, NewRing(creds), alive) else RingArrives(w, creds)
    case CancelPush(alive) => if w.active.Some? then AbortBegins(w, CancelRing, alive) else w.(invite := None)
    case Tap(video) => TapBegins(w, video)
    case ConnectDone(k, how, alive) => ConnectEnds(w, k, how, alive)
    case Established(c) => HandleEstablished(w, c)
    case SipEnds(c) => EndDialog(w, c)
    case SpawnRuns(c, video, alive) => SpawnBegins(w, c, video, alive)
    case SpawnResumes(c, end, over, alive) => SpawnEnds(w, c, end, over, alive)
    case StaleStopped(c, alive) => StaleEnds(w, c, alive)
    case GraceFires(c, alive) => GraceWakes(w, c, alive)
    case GraceStopped(c, alive) => GraceEnds(w, c, alive)
    case MaxFires(c) => MaxWakes(w, c)
    case AbortResumes(k, alive) => AbortGoesOn(w, k, alive)
    case AbortStopped(k, alive) => AbortEnds(w, k, alive)
    case StopBegins(alive) => StopBeginning(w, alive)
    case StopResumes(k, alive) => StopGoesOn(w, k, alive)
    case StopStopped(k, alive) => StopEnds(w, k, alive)
    case CleanupDone => w.(cleaning := false)
  }

  /** A run: the worlds it goes through, one more than its events. */
  ghost predicate Run(ws: seq<World>, es: seq<Event>)
  {
    && |ws| == |es| + 1 && ws[0] == START
    && forall i {:trigger es[i]} :: 0 <= i < |es| ==> ws[i + 1] == Next(ws[i], es[i])
  }

  /** The events, in this order, lead to the world w. */
  ghost predicate Reached(es: seq<Event>, w: World) { exists ws :: Run(ws, es) && ws[|es|] == w }

  lemma ReachedStart()
    ensures Reached([], START)
  {
    assert Run([START], []);
  }

  lemma ReachedMore(es: seq<Event>, w: World, e: Event)
    requires Reached(es, w)
    ensures Reached(es + [e], Next(w, e))
  {
    var ws :| Run(ws, es) && ws[|es|] == w;
    var more := es + [e];
    hide Next;
    forall i | 0 <= i < |more| ensures (ws + [Next(w, e)])[i + 1] == Next((ws + [Next(w, e)])[i], more[i]) {
      if i < |es| { assert more[i] == es[i]; }
    }
    assert Run(ws + [Next(w, e)], more);
  }

  lemma ReachedLast(es: seq<Event>, w: World) returns (v: World)
    requires Reached(es, w) && es != []
    ensures Reached(es[..|es| - 1], v) && w == Next(v, es[|es| - 1])
  {
    hide Next;
    var ws :| Run(ws, es) && ws[|es|] == w;
    var front := es[..|es| - 1];
    forall i | 0 <= i < |front| ensures ws[..|es|][i + 1] == Next(ws[..|es|][i], front[i]) { assert front[i] == es[i]; }
    assert Run(ws[..|es|], front);
    v := ws[|es| - 1];
  }

  /** A run's first i events are a run too. */
  lemma RunPrefix(ws: seq<World>, es: seq<Event>, i: nat)
    requires Run(ws, es) && i <= |es|
    ensures Run(ws[..i + 1], es[..i]) && Reached(es[..i], ws[i])
  {
    hide Next;
    var front, events := ws[..i + 1], es[..i];
    forall j | 0 <= j < i ensures front[j + 1] == Next(front[j], events[j]) { assert events[j] == es[j]; }
    assert Run(front, events) && front[|events|] == ws[i];
  }
}
