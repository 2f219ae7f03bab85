/**
  Every ffmpeg that is being spawned or is running has exactly one owner, at every step of every
  run: the prewarm attribute, the running bridge's `_process`, the locals of `start()`, the
  locals of one `stop()`, or one cleanup task.
*/
module BridgeOwnership {
  import opened Basics
  import opened BridgeState

  /** The part of the state that refers to processes. */
  datatype Core = Core(procs: seq<Proc>, prewarm: Option<nat>, process: Option<nat>,
                       start: StartPc, tasks: seq<TaskPc>)

  function CoreOf(s: Bridge): Core { Core(s.procs, s.prewarm, s.process, s.start, s.tasks) }

  function StartHolds(pc: StartPc): Option<nat>
  {
    match pc
    case AwaitPrewarm(p) => Some(p)
    case AwaitDiscard(p) => Some(p)
    case AwaitSpawn(p) => Some(p)
    case Unwinding(p, _) => Some(p)
    case CleaningUp(p) => Some(p)
    case _ => None
  }

  function TaskHolds(pc: TaskPc): Option<nat>
  {
    match pc
    case StopPrewarm(p) => Some(p)
    case StopDiscard(p) => Some(p)
    case StopTerm(p) => Some(p)
    case StopKill(p) => Some(p)
    case CleanWait(p) => Some(p)
    case CleanDiscard(p) => Some(p)
    case _ => None
  }

  function One(held: Option<nat>, p: nat): nat { if held == Some(p) then 1 else 0 }

  /** How many of the `stop()` calls and cleanup tasks answer for process p. */
  function TaskOwners(tasks: seq<TaskPc>, p: nat): nat
  {
    if tasks == [] then 0
    else TaskOwners(tasks[..|tasks| - 1], p) + One(TaskHolds(tasks[|tasks| - 1]), p)
  }

  /** How many places answer for process p. */
  function OwnerCount(c: Core, p: nat): nat
  {
    One(c.prewarm, p) + One(c.process, p) + One(StartHolds(c.start), p) + TaskOwners(c.tasks, p)
  }

  predicate Live(c: Core, p: nat) { p < |c.procs| && c.procs[p].status in {Spawning, Running} }

  ghost predicate Owned(c: Core)
  {
    forall p: nat ::
      && OwnerCount(c, p) <= 1
      && (Live(c, p) ==> OwnerCount(c, p) == 1)
      && (OwnerCount(c, p) == 1 ==> p < |c.procs|)
  }

  // ---------- what each suspended task knows about the process it refers to ----------

  predicate Pending(c: Core, p: nat) { p < |c.procs| && c.procs[p].status != Doomed }

  predicate Killed(c: Core, p: nat) { p < |c.procs| && c.procs[p].status in {Doomed, Dead} }

  predicate Stoppable(c: Core, p: nat) { p < |c.procs| && c.procs[p].status in {Running, Dead} }

  predicate StartLocals(c: Core)
  {
    match c.start
    case AwaitPrewarm(p) => Pending(c, p) && c.process.None?
    case AwaitSpawn(p) => Pending(c, p) && c.process.None?
    case AwaitDiscard(p) => Killed(c, p) && c.process.None?
    case Unwinding(p, o) => Killed(c, p) && c.process.None? && o != Url
    case CleaningUp(p) => Killed(c, p) && c.process.None?
    case Idle => c.process.None?
    case Finished(o) => o == Url || c.process.None?
    case _ => true
  }

  predicate TaskLocals(c: Core, pc: TaskPc)
  {
    match pc
    case StopPrewarm(p) => Pending(c, p)
    case StopDiscard(p) => Killed(c, p)
    case StopTerm(p) => Stoppable(c, p)
    case StopKill(p) => Killed(c, p)
    case CleanWait(p) => Pending(c, p)
    case CleanDiscard(p) => Killed(c, p)
    case _ => true
  }

  ghost predicate Locals(c: Core)
  {
    && StartLocals(c)
    && (c.prewarm.Some? ==> Pending(c, c.prewarm.value))
    && (c.process.Some? ==> Stoppable(c, c.process.value))
    && (forall k :: 0 <= k < |c.tasks| ==> TaskLocals(c, c.tasks[k]))
  }

  ghost predicate CoreInv(c: Core) { Owned(c) && Locals(c) }

  ghost predicate OwnInv(s: Bridge) { CoreInv(CoreOf(s)) }

  // ---------- counting the owners among the tasks ----------

  lemma {:induction false} TaskOwnersUpdate(tasks: seq<TaskPc>, k: nat, pc: TaskPc, p: nat)
    requires k < |tasks|
    ensures TaskOwners(tasks[k := pc], p) + One(TaskHolds(tasks[k]), p)
         == TaskOwners(tasks, p) + One(TaskHolds(pc), p)
  {
    var n := |tasks| - 1;
    if k < n {
      assert tasks[k := pc][..n] == tasks[..n][k := pc];
      TaskOwnersUpdate(tasks[..n], k, pc, p);
    } else {
      assert tasks[k := pc][..n] == tasks[..n];
    }
  }

  lemma {:induction false} TaskOwnersMember(tasks: seq<TaskPc>, k: nat, p: nat)
    requires k < |tasks| && TaskHolds(tasks[k]) == Some(p)
    ensures TaskOwners(tasks, p) >= 1
  {
    var n := |tasks| - 1;
    if k < n { TaskOwnersMember(tasks[..n], k, p); }
  }

  lemma TaskOwnersAll(tasks: seq<TaskPc>, k: nat, pc: TaskPc)
    requires k < |tasks|
    ensures forall p: nat :: TaskOwners(tasks[k := pc], p) + One(TaskHolds(tasks[k]), p)
                          == TaskOwners(tasks, p) + One(TaskHolds(pc), p)
  {
    forall p: nat ensures TaskOwners(tasks[k := pc], p) + One(TaskHolds(tasks[k]), p)
                       == TaskOwners(tasks, p) + One(TaskHolds(pc), p) {
      TaskOwnersUpdate(tasks, k, pc, p);
    }
  }

  lemma TaskOwnersAppend(tasks: seq<TaskPc>, pc: TaskPc)
    ensures forall p: nat :: TaskOwners(tasks + [pc], p) == TaskOwners(tasks, p) + One(TaskHolds(pc), p)
  {
    assert (tasks + [pc])[..|tasks|] == tasks;
  }

  // ---------- moving a process between owners ----------

  function Mark(c: Core, p: nat, st: Status): Core
    requires p < |c.procs|
  {
    c.(procs := c.procs[p := c.procs[p].(status := st)])
  }

  lemma CoreStatus(c: Core, p: nat, st: Status)
    requires CoreInv(c) && p < |c.procs|
    requires (c.procs[p].status == Spawning && st in {Running, Failed})
          || (c.procs[p].status in {Running, Doomed} && st == Dead)
    ensures CoreInv(Mark(c, p, st))
  {
    var d := Mark(c, p, st);
    assert forall q: nat :: OwnerCount(d, q) == OwnerCount(c, q);
    assert forall q: nat :: Live(d, q) ==> Live(c, q);
    forall k | 0 <= k < |c.tasks| ensures TaskLocals(d, c.tasks[k]) {
      assert TaskLocals(c, c.tasks[k]);
    }
  }

  /** The moment between a place letting go of p and p being killed. */
  ghost predicate OwnedBut(c: Core, p: nat)
  {
    && OwnerCount(c, p) == 0
    && forall q: nat :: q != p ==>
         && OwnerCount(c, q) <= 1
         && (Live(c, q) ==> OwnerCount(c, q) == 1)
         && (OwnerCount(c, q) == 1 ==> q < |c.procs|)
  }

  lemma CoreKill(c: Core, p: nat)
    requires OwnedBut(c, p) && Locals(c) && p < |c.procs|
    ensures CoreInv(Mark(c, p, Doomed))
  {
    var d := Mark(c, p, Doomed);
    forall k | 0 <= k < |c.tasks| ensures TaskLocals(d, c.tasks[k]) {
      assert TaskLocals(c, c.tasks[k]);
      if TaskHolds(c.tasks[k]) == Some(p) { TaskOwnersMember(c.tasks, k, p); }
    }
    assert forall q: nat :: OwnerCount(d, q) == OwnerCount(c, q);
    assert forall q: nat :: Live(d, q) ==> q != p && Live(c, q);
  }

  /** The place that let go of p takes it back, as something it has killed. */
  lemma CoreTakeTask(c: Core, k: nat, p: nat, pc: TaskPc)
    requires CoreInv(c) && k < |c.tasks| && TaskHolds(c.tasks[k]).None?
    requires p < |c.procs| && OwnerCount(c, p) == 0 && pc in {StopDiscard(p), StopKill(p), CleanDiscard(p)}
    requires c.procs[p].status == Doomed
    ensures CoreInv(c.(tasks := c.tasks[k := pc]))
  {
    var d := c.(tasks := c.tasks[k := pc]);
    TaskOwnersAll(c.tasks, k, pc);
    assert forall q: nat :: OwnerCount(d, q) == OwnerCount(c, q) + One(Some(p), q);
  }

  /** Task k lets go of what it holds; only `p` may still be live. */
  lemma CoreDropTask(c: Core, k: nat, p: nat)
    requires CoreInv(c) && k < |c.tasks| && TaskHolds(c.tasks[k]) == Some(p)
    ensures OwnedBut(c.(tasks := c.tasks[k := StopDone]), p) && Locals(c.(tasks := c.tasks[k := StopDone]))
  {
    var d := c.(tasks := c.tasks[k := StopDone]);
    TaskOwnersAll(c.tasks, k, StopDone);
    TaskOwnersMember(c.tasks, k, p);
    assert OwnerCount(c, p) <= 1;
    assert forall q: nat :: OwnerCount(d, q) + One(Some(p), q) == OwnerCount(c, q);
  }

  lemma CoreTaskKill(c: Core, k: nat, p: nat, pc: TaskPc)
    requires CoreInv(c) && k < |c.tasks| && TaskHolds(c.tasks[k]) == Some(p) && p < |c.procs|
    requires pc in {StopDiscard(p), StopKill(p), CleanDiscard(p)}
    ensures CoreInv(Mark(c, p, Doomed).(tasks := c.tasks[k := pc]))
  {
    var d := c.(tasks := c.tasks[k := StopDone]);
    CoreDropTask(c, k, p);
    CoreKill(d, p);
    CoreTakeTask(Mark(d, p, Doomed), k, p, pc);
    assert d.tasks[k := pc] == c.tasks[k := pc];
  }

  /** Task k moves to a point where it answers for nothing, what it held being gone. */
  lemma CoreTaskIdle(c: Core, k: nat, pc: TaskPc)
    requires CoreInv(c) && k < |c.tasks| && TaskHolds(pc).None?
    requires TaskHolds(c.tasks[k]).Some? ==> !Live(c, TaskHolds(c.tasks[k]).value)
    ensures CoreInv(c.(tasks := c.tasks[k := pc]))
  {
    var d := c.(tasks := c.tasks[k := pc]);
    TaskOwnersAll(c.tasks, k, pc);
    assert forall q: nat :: OwnerCount(d, q) + One(TaskHolds(c.tasks[k]), q) == OwnerCount(c, q);
    if TaskHolds(c.tasks[k]).Some? { TaskOwnersMember(c.tasks, k, TaskHolds(c.tasks[k]).value); }
  }

  /** A sweep moves `_process` into the locals of task k, or forgets it if it has exited. */
  lemma CoreSweep(c: Core, k: nat)
    requires CoreInv(c) && k < |c.tasks| && TaskHolds(c.tasks[k]).None?
    ensures c.process.Some? && c.procs[c.process.value].status == Running ==>
              CoreInv(c.(process := None, tasks := c.tasks[k := StopTerm(c.process.value)]))
    ensures !(c.process.Some? && c.procs[c.process.value].status == Running) ==>
              CoreInv(c.(process := None, tasks := c.tasks[k := StopDone]))
  {
    if c.process.Some? {
      var p := c.process.value;
      assert OwnerCount(c, p) <= 1;
      if c.procs[p].status == Running {
        var d := c.(process := None, tasks := c.tasks[k := StopTerm(p)]);
        TaskOwnersAll(c.tasks, k, StopTerm(p));
        assert forall q: nat :: OwnerCount(d, q) == OwnerCount(c, q);
      } else {
        var d := c.(process := None, tasks := c.tasks[k := StopDone]);
        TaskOwnersAll(c.tasks, k, StopDone);
        assert forall q: nat :: OwnerCount(d, q) + One(Some(p), q) == OwnerCount(c, q);
      }
    } else {
      CoreTaskIdle(c, k, StopDone);
    }
  }

  lemma CoreNewTask(c: Core)
    requires CoreInv(c)
    ensures CoreInv(c.(tasks := c.tasks + [StopDone]))
    ensures c.prewarm.Some? ==> CoreInv(c.(prewarm := None, tasks := c.tasks + [StopPrewarm(c.prewarm.value)]))
    ensures c.prewarm.Some? ==> CoreInv(c.(prewarm := None, tasks := c.tasks + [CleanWait(c.prewarm.value)]))
  {
    TaskOwnersAppend(c.tasks, StopDone);
    assert forall q: nat :: OwnerCount(c.(tasks := c.tasks + [StopDone]), q) == OwnerCount(c, q);
    if c.prewarm.Some? {
      CoreMovePrewarm(c, StopPrewarm(c.prewarm.value));
      CoreMovePrewarm(c, CleanWait(c.prewarm.value));
    }
  }

  lemma CoreMovePrewarm(c: Core, pc: TaskPc)
    requires CoreInv(c) && c.prewarm.Some? && pc in {StopPrewarm(c.prewarm.value), CleanWait(c.prewarm.value)}
    ensures CoreInv(c.(prewarm := None, tasks := c.tasks + [pc]))
  {
    TaskOwnersAppend(c.tasks, pc);
    assert forall q: nat :: OwnerCount(c.(prewarm := None, tasks := c.tasks + [pc]), q) == OwnerCount(c, q);
  }

  lemma CorePrewarm(c: Core, video: bool)
    requires CoreInv(c) && c.prewarm.None?
    ensures CoreInv(c.(procs := c.procs + [Proc(video, Spawning)], prewarm := Some(|c.procs|)))
  {
    var d := c.(procs := c.procs + [Proc(video, Spawning)], prewarm := Some(|c.procs|));
    assert forall q: nat :: OwnerCount(d, q) == OwnerCount(c, q) + One(Some(|c.procs|), q);
    forall k | 0 <= k < |c.tasks| ensures TaskLocals(d, c.tasks[k]) { assert TaskLocals(c, c.tasks[k]); }
  }

  // ---------- the moves of start() ----------

  function Freed(c: Core): Core { c.(start := AwaitPush) }

  /** What start()'s locals held is gone, or now in a field. */
  lemma CoreForget(c: Core)
    requires CoreInv(c)
    requires StartHolds(c.start).Some? ==> !Live(c, StartHolds(c.start).value)
    ensures CoreInv(Freed(c))
  {
    assert forall q: nat :: OwnerCount(Freed(c), q) + One(StartHolds(c.start), q) == OwnerCount(c, q);
  }

  lemma CoreSetStart(c: Core, pc: StartPc)
    requires CoreInv(Freed(c)) && StartHolds(pc).None? && StartLocals(c.(start := pc))
    ensures CoreInv(c.(start := pc))
  {
    var d := c.(start := pc);
    assert forall q: nat :: OwnerCount(d, q) == OwnerCount(Freed(c), q);
    forall k | 0 <= k < |c.tasks| ensures TaskLocals(d, c.tasks[k]) { assert TaskLocals(Freed(c), c.tasks[k]); }
  }

  lemma CoreOnDemand(c: Core, video: bool)
    requires CoreInv(Freed(c)) && c.process.None?
    ensures CoreInv(c.(procs := c.procs + [Proc(video, Spawning)], start := AwaitSpawn(|c.procs|)))
  {
    var d := c.(procs := c.procs + [Proc(video, Spawning)], start := AwaitSpawn(|c.procs|));
    assert forall q: nat :: OwnerCount(d, q) == OwnerCount(Freed(c), q) + One(Some(|c.procs|), q);
    forall k | 0 <= k < |c.tasks| ensures TaskLocals(d, c.tasks[k]) { assert TaskLocals(Freed(c), c.tasks[k]); }
  }

  lemma CoreConsume(c: Core)
    requires CoreInv(Freed(c)) && c.prewarm.Some? && c.process.None?
    ensures CoreInv(c.(prewarm := None, start := AwaitPrewarm(c.prewarm.value)))
  {
    var d := c.(prewarm := None, start := AwaitPrewarm(c.prewarm.value));
    assert forall q: nat :: OwnerCount(d, q) == OwnerCount(Freed(c), q);
    forall k | 0 <= k < |c.tasks| ensures TaskLocals(d, c.tasks[k]) { assert TaskLocals(Freed(c), c.tasks[k]); }
  }

  lemma CoreReattach(c: Core)
    requires CoreInv(c) && c.start.AwaitPrewarm? && c.prewarm.None?
    ensures CoreInv(Freed(c).(prewarm := Some(c.start.p)))
  {
    var d := Freed(c).(prewarm := Some(c.start.p));
    assert forall q: nat :: OwnerCount(d, q) == OwnerCount(c, q);
    forall k | 0 <= k < |c.tasks| ensures TaskLocals(d, c.tasks[k]) { assert TaskLocals(c, c.tasks[k]); }
  }

  lemma CoreAdopt(c: Core, p: nat)
    requires CoreInv(c) && c.start in {AwaitPrewarm(p), AwaitSpawn(p)} && c.procs[p].status in {Running, Dead}
    ensures CoreInv(Freed(c).(process := Some(p)))
  {
    var d := Freed(c).(process := Some(p));
    assert forall q: nat :: OwnerCount(d, q) == OwnerCount(c, q);
    forall k | 0 <= k < |c.tasks| ensures TaskLocals(d, c.tasks[k]) { assert TaskLocals(c, c.tasks[k]); }
  }

  /** start() kills what its locals hold, and waits for it (AwaitDiscard) or lets go. */
  lemma CoreStartKill(c: Core, p: nat)
    requires CoreInv(c) && StartHolds(c.start) == Some(p)
    ensures CoreInv(Freed(Mark(c, p, Doomed)))
    ensures CoreInv(Mark(c, p, Doomed).(start := AwaitDiscard(p)))
  {
    assert OwnerCount(c, p) <= 1;
    assert forall q: nat :: OwnerCount(Freed(c), q) + One(Some(p), q) == OwnerCount(c, q);
    CoreKill(Freed(c), p);
    assert Mark(Freed(c), p, Doomed) == Freed(Mark(c, p, Doomed));
    CoreTakeStart(Freed(Mark(c, p, Doomed)), p, AwaitDiscard(p));
  }

  lemma CoreTakeStart(c: Core, p: nat, pc: StartPc)
    requires CoreInv(c) && StartHolds(c.start).None? && p < |c.procs| && OwnerCount(c, p) == 0
    requires c.procs[p].status == Doomed && c.process.None?
    requires StartHolds(pc) == Some(p) && (pc.AwaitDiscard? || (pc.Unwinding? && pc.outcome != Url) || pc.CleaningUp?)
    ensures CoreInv(c.(start := pc))
  {
    var d := c.(start := pc);
    assert forall q: nat :: OwnerCount(d, q) == OwnerCount(c, q) + One(Some(p), q);
    forall k | 0 <= k < |c.tasks| ensures TaskLocals(d, c.tasks[k]) { assert TaskLocals(c, c.tasks[k]); }
  }

  /** `_kill_ffmpeg_now`: `_process` moves into the locals of the unwinding, killed. */
  lemma CoreKillNow(c: Core, pc: StartPc)
    requires CoreInv(c) && StartHolds(c.start).None? && c.process.Some?
    requires pc.CleaningUp? || (pc.Unwinding? && pc.outcome != Url)
    requires StartHolds(pc) == c.process
    ensures CoreInv(Mark(c, c.process.value, Doomed).(process := None, start := pc))
  {
    var p := c.process.value;
    var d := Freed(c).(process := None);
    assert OwnerCount(c, p) <= 1;
    assert forall q: nat :: OwnerCount(d, q) + One(Some(p), q) == OwnerCount(c, q);
    forall k | 0 <= k < |c.tasks| ensures TaskLocals(d, c.tasks[k]) { assert TaskLocals(c, c.tasks[k]); }
    CoreKill(d, p);
    CoreTakeStart(Mark(d, p, Doomed), p, pc);
  }

  lemma CoreDropProcess(c: Core, pc: StartPc)
    requires CoreInv(c) && StartHolds(c.start).None? && StartHolds(pc).None?
    requires c.process.Some? ==> !Live(c, c.process.value)
    ensures CoreInv(c.(process := None, start := pc))
  {
    var d := c.(process := None, start := pc);
    assert c.process.Some? ==> OwnerCount(c, c.process.value) <= 1;
    assert forall q: nat :: OwnerCount(d, q) + One(c.process, q) == OwnerCount(c, q);
    forall k | 0 <= k < |c.tasks| ensures TaskLocals(d, c.tasks[k]) { assert TaskLocals(c, c.tasks[k]); }
  }
}
