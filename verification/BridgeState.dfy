/**
  `AudioBridge` as a transition system over its suspension points
  (custom_components/intratone/audio_bridge.py).

  Coroutines on one event loop interleave only at an `await`, so one step runs a task from one
  `await` to the next. A suspended task is a program counter together with the locals it still
  needs; the attributes of the bridge object, the three media sockets and every ffmpeg process
  ever requested are the shared state. The scheduler, the operating system and the callers are
  the events.
*/
module BridgeState {
  import opened Basics

  /** `Doomed`: SIGKILL sent, not reaped yet. `Failed`: the spawn raised. */
  datatype Status = Spawning | Running | Doomed | Dead | Failed

  datatype Proc = Proc(video: bool, status: Status)

  datatype Sock = Absent | Raw | Wrapped | Closed

  /** One handed-in socket, the datagram endpoint around it, and the two attributes of the
      bridge that may refer to that endpoint (`_rtp` and `_rtp_transport`, and so on).
      `attached`: the protocol object knows its transport. `ready`: the endpoint's waiter is set. */
  datatype Media = Media(sock: Sock, ready: bool, attached: bool, proto: bool, transport: bool)

  datatype Chan = Audio | Video | Rtcp

  datatype Outcome = Url | Stopped | Cancelled | CancelledTwice | WrapFailed | SpawnFailed

  /** Where `start()` is suspended. A number is the ffmpeg process its locals refer to. */
  datatype StartPc =
    | Idle
    | AwaitPrewarm(p: nat)
    | AwaitDiscard(p: nat)
    | AwaitSpawn(p: nat)
    | AwaitAudio
    | AwaitVideo
    | AwaitRtcp
    | AwaitPush
    | Unwinding(p: nat, outcome: Outcome)
    | CleaningUp(p: nat)
    | Finished(outcome: Outcome)

  /** Where a `stop()` or a cleanup task (`_cleanup_prewarm`) is suspended. */
  datatype TaskPc =
    | StopPrewarm(p: nat)
    | StopDiscard(p: nat)
    | StopCleanup(c: nat)
    | StopTerm(p: nat)
    | StopKill(p: nat)
    | StopDone
    | CleanWait(p: nat)
    | CleanDiscard(p: nat)
    | CleanDone

  datatype Bridge = Bridge(
    generation: nat,
    snapshot: nat,
    videoEnabled: bool,
    procs: seq<Proc>,
    prewarm: Option<nat>,
    cleanup: Option<nat>,
    process: Option<nat>,
    pushEvent: Option<nat>,
    pli: bool, pliLive: bool,
    stats: bool, statsLive: bool,
    audio: Media, video: Media, rtcp: Media,
    start: StartPc,
    tasks: seq<TaskPc>,
    // a socket was closed while a live transport was still using it
    yanked: bool)

  datatype Event =
    | Prewarm(video: bool)
    | CancelPrewarm
    | StartCall(videoSocket: bool, videoRemote: bool, rtcpSocket: bool)
    | StartResume
    | StartCancel
    | WrapFails
    | ConnectionMade(chan: Chan)
    | StopBegin
    | StopResume(k: nat)
    | StopTimeout(k: nat)
    | CleanResume(k: nat)
    | SpawnUp(p: nat)
    | SpawnFails(p: nat)
    | Exits(p: nat)
    | PliEnds

  // ---------- processes ----------

  predicate Alive(s: Bridge, p: nat) { p < |s.procs| && s.procs[p].status in {Running, Doomed} }

  function StatusOf(s: Bridge, p: nat): Status { if p < |s.procs| then s.procs[p].status else Dead }

  function WithStatus(s: Bridge, p: nat, st: Status): (r: Bridge)
  {
    if p < |s.procs| then s.(procs := s.procs[p := s.procs[p].(status := st)]) else s
  }

  function IsRunning(s: Bridge): bool { s.process.Some? && Alive(s, s.process.value) }

  // ---------- sockets ----------

  const NoMedia := Media(Absent, false, false, false, false)
  const RawMedia := Media(Raw, false, false, false, false)

  /** The proto and transport closing that `stop()` and `_unwind_partial_start()` share. */
  function SweepMedia(m: Media): Media
  {
    var closes := (m.proto && m.attached) || m.transport;
    m.(sock := if closes && m.sock == Wrapped then Closed else m.sock,
       attached := m.attached && !m.proto,
       proto := false,
       transport := false)
  }

  function CloseRaw(m: Media): Media { m.(sock := if m.sock == Absent then Absent else Closed) }

  function Wrap(m: Media): Media { m.(sock := if m.sock == Raw then Wrapped else m.sock, proto := true) }

  /** What no step changes once start() has been entered, except a stop() that begins. */
  predicate SameCall(s: Bridge, t: Bridge, begun: nat)
  {
    t.generation == s.generation + begun && t.snapshot == s.snapshot && !t.start.Idle?
  }

  // ---------- unwinding a partial start ----------

  /** `_unwind_partial_start` up to its only await; the flags say which raw sockets it is given. */
  function UnwindSweep(s: Bridge, a: bool, v: bool, r: bool): Bridge
  {
    var a1, v1, r1 := SweepMedia(s.audio), SweepMedia(s.video), SweepMedia(s.rtcp);
    s.(pli := false,
       pliLive := s.pliLive && !s.pli,
       audio := if a then CloseRaw(a1) else a1,
       video := if v then CloseRaw(v1) else v1,
       rtcp := if r then CloseRaw(r1) else r1,
       yanked := s.yanked || (a && a1.sock == Wrapped) || (v && v1.sock == Wrapped) || (r && r1.sock == Wrapped))
  }

  /** `_kill_ffmpeg_now`: clears `_process`, and suspends only when there is something to reap. */
  function KillNow(s: Bridge, inHandler: bool, outcome: Outcome): (t: Bridge)
    ensures SameCall(s, t, 0)
    ensures t.start.Finished? ==> t.start == Finished(outcome)
  {
    var s1 := s.(process := None);
    if IsRunning(s) then
      var p := s.process.value;
      WithStatus(s1, p, Doomed).(start := if inHandler then CleaningUp(p) else Unwinding(p, outcome))
    else s1.(pushEvent := None, start := Finished(outcome))
  }

  function Unwind(s: Bridge, a: bool, v: bool, r: bool, outcome: Outcome): (t: Bridge)
    ensures SameCall(s, t, 0)
    ensures t.start.Finished? ==> t.start == Finished(outcome)
  {
    KillNow(UnwindSweep(s, a, v, r), false, outcome)
  }

  /** The `except CancelledError` handler of `start()`. */
  function CancelHandler(s: Bridge): (t: Bridge)
    ensures SameCall(s, t, 0)
  {
    KillNow(UnwindSweep(s, true, true, true), true, Cancelled)
  }

  // ---------- start() ----------

  function OnDemand(s: Bridge): (t: Bridge)
    ensures SameCall(s, t, 0)
    ensures t.start != Finished(Url)
  {
    var p := |s.procs|;
    s.(procs := s.procs + [Proc(s.videoEnabled, Spawning)], pushEvent := Some(p), start := AwaitSpawn(p))
  }

  function AfterSpawn(s: Bridge): (t: Bridge)
    ensures SameCall(s, t, 0)
    ensures t.start != Finished(Url)
  {
    if s.generation != s.snapshot then Unwind(s, true, true, true, Stopped)
    else s.(audio := Wrap(s.audio), start := AwaitAudio)
  }

  function AfterAudio(s: Bridge): (t: Bridge)
    ensures SameCall(s, t, 0)
    ensures t.start != Finished(Url)
  {
    if s.generation != s.snapshot then Unwind(s, false, true, true, Stopped)
    else if s.videoEnabled then s.(video := Wrap(s.video), start := AwaitVideo)
    else s.(start := AwaitPush)
  }

  function AfterVideo(s: Bridge): (t: Bridge)
    ensures SameCall(s, t, 0)
    ensures t.start != Finished(Url)
  {
    if s.video.proto && s.rtcp.sock != Absent then s.(rtcp := Wrap(s.rtcp), start := AwaitRtcp)
    else VideoCheckpoint(s.(rtcp := CloseRaw(s.rtcp)))
  }

  function VideoCheckpoint(s: Bridge): (t: Bridge)
    ensures SameCall(s, t, 0)
    ensures t.start != Finished(Url)
  {
    if s.generation != s.snapshot then Unwind(s, false, false, false, Stopped)
    else s.(start := AwaitPush)
  }

  function AfterPush(s: Bridge): (t: Bridge)
    ensures SameCall(s, t, 0)
  {
    if s.generation != s.snapshot then Unwind(s, false, false, false, Stopped)
    else s.(stats := true, statsLive := true, start := Finished(Url))
  }

  /** Entry of `start()`, through `_consume_prewarm` to the first suspension. */
  function StartEntry(s: Bridge, videoSocket: bool, videoRemote: bool, rtcpSocket: bool): Bridge
  {
    var s1 := s.(audio := RawMedia,
                 video := if videoSocket then RawMedia else NoMedia,
                 rtcp := if rtcpSocket then RawMedia else NoMedia);
    if IsRunning(s) then s1.(start := Finished(Url))
    else
      var s2 := s1.(snapshot := s.generation, videoEnabled := videoSocket && videoRemote);
      if s.prewarm.Some? then s2.(prewarm := None, start := AwaitPrewarm(s.prewarm.value))
      else OnDemand(s2)
  }

  function Consumed(s: Bridge, p: nat): (t: Bridge)
    ensures SameCall(s, t, 0)
    ensures t.start != Finished(Url)
  {
    if !Alive(s, p) then OnDemand(s)
    else if s.procs[p].video == s.videoEnabled then
      AfterSpawn(s.(process := Some(p), pushEvent := Some(p)))
    else WithStatus(s, p, Doomed).(start := AwaitDiscard(p))
  }

  function ResumeStart(s: Bridge): (t: Option<Bridge>)
    ensures t.Some? ==> SameCall(s, t.value, 0)
  {
    match s.start
    case AwaitPrewarm(p) => if StatusOf(s, p) == Spawning then None else Some(Consumed(s, p))
    case AwaitDiscard(p) => if StatusOf(s, p) != Dead then None else Some(OnDemand(s))
    case AwaitSpawn(p) =>
      if StatusOf(s, p) == Spawning then None
      else if StatusOf(s, p) == Failed then Some(s.(start := Finished(SpawnFailed)))
      else Some(AfterSpawn(s.(process := Some(p))))
    case AwaitAudio => if !s.audio.ready then None else Some(AfterAudio(s.(audio := s.audio.(transport := true))))
    case AwaitVideo => if !s.video.ready then None else Some(AfterVideo(s.(video := s.video.(transport := true))))
    case AwaitRtcp =>
      if !s.rtcp.ready then None
      else Some(VideoCheckpoint(s.(rtcp := s.rtcp.(transport := true), pli := true, pliLive := true)))
    case AwaitPush => Some(AfterPush(s))
    case Unwinding(p, o) =>
      if StatusOf(s, p) != Dead then None else Some(s.(pushEvent := None, start := Finished(o)))
    case CleaningUp(p) =>
      if StatusOf(s, p) != Dead then None else Some(s.(pushEvent := None, start := Finished(Cancelled)))
    case _ => None
  }

  /** asyncio closes a half-built transport when `create_datagram_endpoint` is cancelled. */
  function DropHalfBuilt(m: Media): Media { m.(sock := if m.sock == Wrapped then Closed else m.sock) }

  /** What the cancelled await itself leaves behind. */
  function Interrupted(s: Bridge): (t: Bridge)
    ensures SameCall(s, t.(start := AwaitPush), 0)
  {
    match s.start
    // `_consume_prewarm` re-attaches the task it was shielding
    case AwaitPrewarm(p) => s.(prewarm := Some(p))
    // `create_subprocess_exec` kills what it had begun to create
    case AwaitSpawn(p) => if StatusOf(s, p) in {Spawning, Running} then WithStatus(s, p, Doomed) else s
    case AwaitAudio => s.(audio := DropHalfBuilt(s.audio))
    case AwaitVideo => s.(video := DropHalfBuilt(s.video))
    case AwaitRtcp => s.(rtcp := DropHalfBuilt(s.rtcp))
    case _ => s
  }

  function CancelStart(s: Bridge): (t: Option<Bridge>)
    ensures t.Some? ==> SameCall(s, t.value, 0)
  {
    if s.start.Idle? || s.start.Finished? then None
    // cancelled again inside the handler: the rest of the unwinding is skipped
    else if s.start.CleaningUp? then Some(s.(start := Finished(CancelledTwice)))
    else Some(CancelHandler(Interrupted(s)))
  }

  /** `create_datagram_endpoint` raises OSError: the socket was never wrapped. */
  function FailWrap(s: Bridge): (t: Option<Bridge>)
    ensures t.Some? ==> SameCall(s, t.value, 0)
  {
    match s.start
    case AwaitAudio =>
      if s.audio.ready then None
      else Some(Unwind(s.(audio := s.audio.(sock := Raw)), true, true, true, WrapFailed))
    case AwaitVideo =>
      if s.video.ready then None
      else Some(Unwind(s.(video := s.video.(sock := Raw)), false, true, true, WrapFailed))
    case AwaitRtcp =>
      if s.rtcp.ready then None
      else Some(VideoCheckpoint(s.(rtcp := s.rtcp.(sock := Closed, proto := false))))
    case _ => None
  }

  function Connected(m: Media): Media { m.(ready := true, attached := true) }

  /** The loop calls `connection_made` and sets the waiter `create_datagram_endpoint` is on. */
  function MakeConnection(s: Bridge, c: Chan): (t: Option<Bridge>)
    ensures t.Some? && !s.start.Idle? ==> SameCall(s, t.value, 0)
  {
    match c
    case Audio => if s.start.AwaitAudio? && !s.audio.ready then Some(s.(audio := Connected(s.audio))) else None
    case Video => if s.start.AwaitVideo? && !s.video.ready then Some(s.(video := Connected(s.video))) else None
    case Rtcp => if s.start.AwaitRtcp? && !s.rtcp.ready then Some(s.(rtcp := Connected(s.rtcp))) else None
  }

  // ---------- stop() ----------

  predicate CleanupPending(s: Bridge, c: nat) { c < |s.tasks| && !s.tasks[c].CleanDone? }

  /** The synchronous middle of `stop()`: takes every attribute, nulls it and closes it. */
  function StopSweep(s: Bridge, k: nat): (t: Bridge)
    requires k < |s.tasks|
    ensures !s.start.Idle? ==> SameCall(s, t, 0)
  {
    var s1 := s.(audio := SweepMedia(s.audio), video := SweepMedia(s.video), rtcp := SweepMedia(s.rtcp),
                 pli := false, pliLive := s.pliLive && !s.pli,
                 stats := false, statsLive := s.statsLive && !s.stats,
                 pushEvent := None, process := None);
    s1.(tasks := s.tasks[k := if IsRunning(s) then StopTerm(s.process.value) else StopDone])
  }

  function StopAfterDiscard(s: Bridge, k: nat): (t: Bridge)
    requires k < |s.tasks|
    ensures !s.start.Idle? ==> SameCall(s, t, 0)
  {
    var s1 := s.(cleanup := None);
    if s.cleanup.Some? && CleanupPending(s, s.cleanup.value)
    then s1.(tasks := s.tasks[k := StopCleanup(s.cleanup.value)])
    else StopSweep(s1, k)
  }

  function BeginStop(s: Bridge): (t: Bridge)
    ensures !s.start.Idle? ==> SameCall(s, t, 1)
  {
    var k := |s.tasks|;
    var s1 := s.(generation := s.generation + 1, tasks := s.tasks + [StopDone]);
    if s.prewarm.Some?
    then s1.(prewarm := None, tasks := s.tasks + [StopPrewarm(s.prewarm.value)])
    else StopAfterDiscard(s1, k)
  }

  function ResumeStop(s: Bridge, k: nat): (t: Option<Bridge>)
    ensures t.Some? && !s.start.Idle? ==> SameCall(s, t.value, 0)
  {
    if k >= |s.tasks| then None else
    match s.tasks[k]
    case StopPrewarm(p) =>
      if StatusOf(s, p) == Spawning then None
      else if Alive(s, p) then Some(WithStatus(s, p, Doomed).(tasks := s.tasks[k := StopDiscard(p)]))
      else Some(StopAfterDiscard(s, k))
    case StopDiscard(p) => if StatusOf(s, p) != Dead then None else Some(StopAfterDiscard(s, k))
    case StopCleanup(c) => if CleanupPending(s, c) then None else Some(StopSweep(s, k))
    case StopTerm(p) => if StatusOf(s, p) != Dead then None else Some(s.(tasks := s.tasks[k := StopDone]))
    case StopKill(p) => if StatusOf(s, p) != Dead then None else Some(s.(tasks := s.tasks[k := StopDone]))
    case _ => None
  }

  /** ffmpeg ignored SIGTERM for three seconds. */
  function TimeoutStop(s: Bridge, k: nat): (t: Option<Bridge>)
    ensures t.Some? && !s.start.Idle? ==> SameCall(s, t.value, 0)
  {
    if k < |s.tasks| && s.tasks[k].StopTerm? && Alive(s, s.tasks[k].p)
    then Some(WithStatus(s, s.tasks[k].p, Doomed).(tasks := s.tasks[k := StopKill(s.tasks[k].p)]))
    else None
  }

  // ---------- prewarm() and its cleanup task ----------

  function BeginPrewarm(s: Bridge, video: bool): (t: Bridge)
    ensures !s.start.Idle? ==> SameCall(s, t, 0)
  {
    if IsRunning(s) || s.prewarm.Some? then s
    else s.(procs := s.procs + [Proc(video, Spawning)], prewarm := Some(|s.procs|))
  }

  function BeginCleanup(s: Bridge): (t: Bridge)
    ensures !s.start.Idle? ==> SameCall(s, t, 0)
  {
    if s.prewarm.None? then s
    else s.(prewarm := None, cleanup := Some(|s.tasks|), tasks := s.tasks + [CleanWait(s.prewarm.value)])
  }

  function ResumeCleanup(s: Bridge, k: nat): (t: Option<Bridge>)
    ensures t.Some? && !s.start.Idle? ==> SameCall(s, t.value, 0)
  {
    if k >= |s.tasks| then None else
    match s.tasks[k]
    case CleanWait(p) =>
      if StatusOf(s, p) == Spawning then None
      else if Alive(s, p) then Some(WithStatus(s, p, Doomed).(tasks := s.tasks[k := CleanDiscard(p)]))
      else Some(s.(tasks := s.tasks[k := CleanDone]))
    case CleanDiscard(p) =>
      if StatusOf(s, p) != Dead then None else Some(s.(tasks := s.tasks[k := CleanDone]))
    case _ => None
  }

  // ---------- the whole machine ----------

  /** One event from one state; None when the event cannot happen there. */
  function Step(s: Bridge, e: Event): Option<Bridge>
  {
    match e
    case Prewarm(video) => Some(BeginPrewarm(s, video))
    case CancelPrewarm => Some(BeginCleanup(s))
    case StartCall(v, vr, r) => if s.start.Idle? then Some(StartEntry(s, v, vr, r)) else None
    case StartResume => ResumeStart(s)
    case StartCancel => CancelStart(s)
    case WrapFails => FailWrap(s)
    case ConnectionMade(c) => MakeConnection(s, c)
    case StopBegin => Some(BeginStop(s))
    case StopResume(k) => ResumeStop(s, k)
    case StopTimeout(k) => TimeoutStop(s, k)
    case CleanResume(c) => ResumeCleanup(s, c)
    case SpawnUp(p) =>
      if p < |s.procs| && s.procs[p].status == Spawning then Some(WithStatus(s, p, Running)) else None
    case SpawnFails(p) =>
      if p < |s.procs| && s.procs[p].status == Spawning then Some(WithStatus(s, p, Failed)) else None
    case Exits(p) => if Alive(s, p) then Some(WithStatus(s, p, Dead)) else None
    case PliEnds => Some(s.(pliLive := false))
  }

  /** A stop() that has not swept yet. */
  predicate PreSweep(pc: TaskPc) { pc.StopPrewarm? || pc.StopDiscard? || pc.StopCleanup? }

  predicate AllSwept(s: Bridge) { forall k :: 0 <= k < |s.tasks| ==> !PreSweep(s.tasks[k]) }

  predicate IsCleanup(pc: TaskPc) { pc.CleanWait? || pc.CleanDiscard? || pc.CleanDone? }

  /** What the callers promise: `start()` enters a bridge on which every `stop()` has swept, though it
      may still wait for its ffmpeg; and is not cancelled while it waits on a prewarm that a newer
      prewarm() has already replaced. */
  predicate Polite(s: Bridge, e: Event)
  {
    && (e.StartCall? ==> AllSwept(s))
    && (e.StartCancel? && s.start.AwaitPrewarm? ==> s.prewarm.None?)
  }

  /** Runs any list of events, in any order the machine admits. */
  function Run(s: Bridge, es: seq<Event>): Option<Bridge>
    decreases |es|
  {
    if es == [] then Some(s)
    else
      var t := Step(s, es[0]);
      if t.None? then None else Run(t.value, es[1..])
  }

  predicate PoliteRun(s: Bridge, es: seq<Event>)
    decreases |es|
  {
    es == [] || (Polite(s, es[0]) && (Step(s, es[0]).Some? ==> PoliteRun(Step(s, es[0]).value, es[1..])))
  }

  /** A fully stopped bridge, at any generation, before the one `start()` of the run. */
  function Fresh(generation: nat): Bridge
  {
    Bridge(generation, 0, false, [], None, None, None, None, false, false, false, false,
           NoMedia, NoMedia, NoMedia, Idle, [], false)
  }
}
