/**
 The N:M scheduler as a machine over atomic steps (code/common/scheduler.cpp:74-232 with
 code/common/fiber.cpp:107-182): any number of threads inside run(), any tasks, any order.

 The state joins the queue and counters of `Scheduling`, the fibers and thread-locals of
 `Fibers`, the local variables of each thread's run(), and every shared_ptr that keeps a
 fiber alive.  `Enabled` says when a step can be taken and holds the rules for clients;
 `Safe` says that the assertions of the source hold, that no dead fiber is touched and that
 control arrives where the step assumes; a step taken when it is not safe is a `Crash`.

 Rules for clients, beginning with test/common/test_scheduler.cpp:12-23:
 - a fiber is queued at most once at a time, and counts as queued until it is resumed;
 - a fiber that is queued while it runs, by itself or by another, yields before it returns;
 - a fiber that has ended is not queued;
 - once stop() has been called only running tasks schedule;
 - stop() is not called, by a task or by another thread, while a call of it is in progress,
   unless stopping() already holds;
 - once start() has created threads it is not called again until stop() has taken them over;
 - a handle is not dropped on a fiber that was neither started nor ever scheduled.
 */
module Machine {
  import opened Outcomes
  import opened Fibers
  import opened Scheduling

  // Where a thread is.  `slice` and `entered` are the numbers of the context switches that
  // started the running slice, and run() itself on the thread that called stop().
  datatype Phase =
    | Outside                                        // the calling thread before stop()
    | AtHead
    | Got                                            // picked a task
    | Running(fiber: FiberId, slice: nat)            // its fiber has control
    | Returned                                       // control is back in run()
    | Dropping                                       // --m_activeThreadCount is done
    | NoTask                                         // the scan found nothing
    | Idling(slice: nat)                             // the idle fiber has control
    | IdleKnows(slice: nat, stop: bool)              // it has called stopping()
    | Left                                           // run() is over

  datatype Thread = Thread(
    phase: Phase,
    locals: Locals,
    task: Option<Task>,
    cb: Option<FiberId>,
    idle: Option<FiberId>,
    viaRoot: bool,             // run() executes on the root fiber
    entered: nat,
    ticket: nat)               // history: the task in hand

  datatype Role = TaskFiber | IdleFiber(owner: ThreadId) | ThreadFiber(owner: ThreadId) | RootFiber(owner: ThreadId)

  // History: who picked what, and which fibers were running at that scan.
  datatype Pick = Pick(task: Task, thread: ThreadId, exec: set<FiberId>)

  datatype State = State(
    q: Sched,
    fibers: Heap,
    threads: map<ThreadId, Thread>,
    frames: set<FiberId>,              // handles held by the frames of MainFunc
    clients: set<FiberId>,             // handles held by client variables
    clock: nat,                        // context switches so far
    roles: map<FiberId, Role>,         // history: every fiber there ever was
    pool: seq<ThreadId>,               // m_threads
    created: set<ThreadId>,            // history: every thread that start() ever made
    accepted: seq<Task>,               // history: every task ever queued
    picks: seq<Pick>,                  // history
    done: set<nat>,                    // history: tickets of completed slices
    destroyed: map<FiberId, FiberState>)

  datatype Act =
    | CreateFiber(f: FiberId)
    | DropHandle(f: FiberId)
    | ShareSelf(t: ThreadId)                                   // keep GetThis() in a variable
    | Schedule(who: Option<ThreadId>, batch: seq<(Work, Option<ThreadId>)>, moved: set<FiberId>)
    | BeginStop                                                // stop(), up to the resume of the root fiber
    | EnterRun(t: ThreadId, idle: FiberId)                     // stop() resumes the root fiber
    | Start(ids: seq<ThreadId>)                                // start(), whoever calls it
    | TakePool                                                 // the swap at the end of stop()
    | StartWorker(t: ThreadId, threadFiber: FiberId, idle: FiberId)
    | PickTask(t: ThreadId)
    | ResumeTask(t: ThreadId)
    | StartCallback(t: ThreadId, f: FiberId)
    | Yield(t: ThreadId)
    | Finish(t: ThreadId)
    | Decrement(t: ThreadId)
    | Drop(t: ThreadId)
    | ResumeIdle(t: ThreadId)
    | CheckStopping(t: ThreadId)
    | LeaveIdle(t: ThreadId)
    | Exit(t: ThreadId)

  // The calling thread is thread 0, with thread fiber 0 and root fiber 1.
  function Initial(useCaller: bool): State {
    State(Sched([], 0, 0, 0, false),
          if useCaller then map[0 := THREAD_FIBER, 1 := NewFiber(false)] else map[],
          if useCaller then
            map[0 := Thread(Outside, Locals(Some(0), Some(0), Some(1)), None, None, None, true, 0, 0)] else map[],
          {}, {}, 0,
          if useCaller then map[0 := ThreadFiber(0), 1 := RootFiber(0)] else map[],
          [], {}, [], [], {}, map[])
  }

  // ---------- handles ----------

  predicate HeldBy(th: Thread, f: FiberId) {
    || (th.task.Some? && th.task.value.work == FiberWork(f))
    || th.cb == Some(f)
    || th.idle == Some(f)
  }

  predicate InHand(threads: map<ThreadId, Thread>, f: FiberId) {
    exists t :: t in threads && HeldBy(threads[t], f)
  }

  predicate Held(s: State, f: FiberId) {
    f in s.frames || f in s.clients || Queued(s.q, f) || InHand(s.threads, f)
  }

  // The last handle takes the fiber with it.
  function Released(s: State, f: FiberId): State {
    if f in s.fibers && !Held(s, f) then
      s.(fibers := s.fibers - {f}, destroyed := s.destroyed[f := s.fibers[f].state])
    else s
  }

  // The assertion of the destructor, if this is the last handle.
  predicate ReleaseOk(s: State, f: FiberId) {
    f in s.fibers && (!Held(s, f) ==> s.fibers[f].state == TERM)
  }

  function ExecFibers(fibers: Heap): set<FiberId> {
    set f | f in fibers && fibers[f].state == EXEC
  }

  // ---------- the parts of a thread's state ----------

  predicate At(s: State, t: ThreadId, phase: Phase) {
    t in s.threads && s.threads[t].phase == phase
  }

  function Set(s: State, t: ThreadId, th: Thread): State {
    s.(threads := s.threads[t := th])
  }

  predicate InSlice(s: State, t: ThreadId) {
    t in s.threads && s.threads[t].phase.Running?
  }

  // The fiber that a thread has picked or is running.
  function Claim(th: Thread): Option<FiberId> {
    if th.phase.Running? then Some(th.phase.fiber)
    else if th.phase.Got? && th.task.Some? && th.task.value.work.FiberWork? then Some(th.task.value.work.fiber)
    else None
  }

  // Thread t resumes fiber f; a fiber that starts takes a handle on itself.
  function SwitchTo(s: State, t: ThreadId, f: FiberId, phase: Phase): State
    requires t in s.threads && HasMain(s.fibers, s.threads[t].locals, f)
  {
    var th := s.threads[t];
    s.(fibers := Resumed(s.fibers, th.locals, f, s.clock),
       threads := s.threads[t := th.(phase := phase, locals := th.locals.(cur := Some(f)))],
       frames := if s.fibers[f].ctx == Entry then s.frames + {f} else s.frames,
       clock := s.clock + 1)
  }

  // Fiber f yields on thread t, having ended its callback if `ends`.
  function SwitchBack(s: State, t: ThreadId, f: FiberId, ends: bool, phase: Phase): State
    requires t in s.threads && f in s.fibers
  {
    var th := s.threads[t];
    s.(fibers := Yielded(if ends then Ended(s.fibers, f) else s.fibers, f, s.clock),
       threads := s.threads[t := th.(phase := phase, locals := th.locals.(cur := th.locals.thread))],
       frames := if ends then s.frames - {f} else s.frames,
       clock := s.clock + 1)
  }

  // A yield of f on t is sound: it is the current fiber, the assertion of yield() holds, the
  // jump arrives at the point saved by the switch numbered `slice`, and if the fiber has let
  // go of itself somebody else still holds it.
  predicate SwitchBackOk(s: State, t: ThreadId, f: FiberId, ends: bool, slice: nat) {
    && t in s.threads && s.threads[t].locals.cur == Some(f)
    && CanYield(s.fibers, s.threads[t].locals, f)
    && MainFiber(s.fibers[f], s.threads[t].locals) != Some(f)
    && YieldsTo(s.fibers, s.threads[t].locals, f) == Saved(slice)
    && (ends ==> Held(s.(frames := s.frames - {f}), f))
  }

  // ---------- scheduling ----------

  predicate MaySchedule(s: State, who: Option<ThreadId>, work: Work) {
    match work
    case FiberWork(f) =>
      && f in s.roles && s.roles[f] == TaskFiber
      && (f in s.clients || (who.Some? && InSlice(s, who.value) && s.threads[who.value].phase.fiber == f))
      && (f in s.fibers ==> s.fibers[f].state != TERM)
      && !Queued(s.q, f)
      && (forall t :: t in s.threads && s.threads[t].phase == Got ==> Claim(s.threads[t]) != Some(f))
    case _ => true
  }

  function ScheduleOne(s: State, work: Work, pin: Option<ThreadId>): State {
    if work.NullWork? then s
    else s.(q := Scheduled(s.q, work, pin), accepted := s.accepted + [Task(s.q.tickets, work, pin)])
  }

  predicate MayScheduleAll(s: State, who: Option<ThreadId>, batch: seq<(Work, Option<ThreadId>)>)
    decreases |batch|
  {
    batch != [] ==> MaySchedule(s, who, batch[0].0) && MayScheduleAll(ScheduleOne(s, batch[0].0, batch[0].1), who,
        batch[1..])
  }

  function ScheduleAll(s: State, batch: seq<(Work, Option<ThreadId>)>): State
    decreases |batch|
  {
    if batch == [] then s else ScheduleAll(ScheduleOne(s, batch[0].0, batch[0].1), batch[1..])
  }

  predicate BatchAlive(s: State, batch: seq<(Work, Option<ThreadId>)>) {
    forall j :: 0 <= j < |batch| && batch[j].0.FiberWork? ==> batch[j].0.fiber in s.fibers
  }

  predicate WasScheduled(s: State, f: FiberId) {
    exists j :: 0 <= j < |s.accepted| && s.accepted[j].work == FiberWork(f)
  }

  predicate Started(r: Rec) {
    r.ctx.Saved? || r.state == EXEC
  }

  // ---------- the steps ----------

  predicate Enabled(s: State, act: Act) {
    match act
    case CreateFiber(f) => f !in s.roles
    case DropHandle(f) => f in s.clients && (WasScheduled(s, f) || (f in s.fibers && Started(s.fibers[f])))
    case ShareSelf(t) => InSlice(s, t)
    case Schedule(who, batch, moved) =>
      && (who.None? ==> !s.q.stopping) && (who.Some? ==> InSlice(s, who.value))
      && MayScheduleAll(s, who, batch)
      && moved <= s.clients && (forall f :: f in moved ==> exists j :: 0 <= j < |batch| && batch[j].0 == FiberWork(f))
    case BeginStop => StopInProgress(s) ==> IsStopping(s.q)
    case EnterRun(t, idle) => At(s, t, Outside) && s.q.stopping && idle !in s.roles
    case Start(ids) =>
      && StartOk(s)
      && (forall i :: 0 <= i < |ids| ==> ids[i] !in s.created && ids[i] !in s.threads)
      && (forall i, j :: 0 <= i < j < |ids| ==> ids[i] != ids[j])
    case TakePool => s.q.stopping && forall t :: t in s.threads && s.threads[t].viaRoot ==> s.threads[t].phase == Left
    case StartWorker(t, threadFiber, idle) =>
      t in s.created && t !in s.threads && threadFiber !in s.roles && idle !in s.roles && idle != threadFiber
    case PickTask(t) => At(s, t, AtHead)
    case ResumeTask(t) => At(s, t, Got) && s.threads[t].task.Some? && s.threads[t].task.value.work.FiberWork?
    case StartCallback(t, f) =>
      At(s, t, Got) && s.threads[t].task.Some? && s.threads[t].task.value.work.CallbackWork? && f !in s.roles
    case Yield(t) => InSlice(s, t)
    case Finish(t) => InSlice(s, t) && !Queued(s.q, s.threads[t].phase.fiber)
    case Decrement(t) => At(s, t, Returned)
    case Drop(t) => At(s, t, Dropping)
    case ResumeIdle(t) => At(s, t, NoTask) && !IdleEnded(s, t)
    case CheckStopping(t) => t in s.threads && s.threads[t].phase.Idling?
    case LeaveIdle(t) => t in s.threads && s.threads[t].phase.IdleKnows?
    case Exit(t) => At(s, t, NoTask) && IdleEnded(s, t)
  }

  // stop() has been called, and has not returned to the thread whose root fiber it resumes.
  predicate StopInProgress(s: State) {
    s.q.stopping && exists u :: u in s.threads && s.threads[u].viaRoot && s.threads[u].phase != Left
  }

  // A call of stop() gets through: it returns before it resumes the root fiber, or there is
  // none, or it can be resumed.
  predicate StopOk(s: State) {
    IsStopping(s.q) || forall u :: u in s.threads && s.threads[u].viaRoot ==> RootReady(s, u)
  }

  predicate RootReady(s: State, u: ThreadId)
    requires u in s.threads
  {
    var l := s.threads[u].locals;
    l.scheduler.Some? && CanResume(s.fibers, l, l.scheduler.value)
  }

  // The assertion of start(): no thread of an earlier call is still in m_threads.
  predicate StartOk(s: State) {
    s.q.stopping ==> s.pool == []
  }

  predicate IdleEnded(s: State, t: ThreadId) {
    t in s.threads && s.threads[t].idle.Some? && s.threads[t].idle.value in s.fibers
    && s.fibers[s.threads[t].idle.value].state == TERM
  }

  // What is in hand when a slice is over: the task's own fiber, or the callback's.
  function InUse(th: Thread): Option<FiberId> {
    if th.task.Some? && th.task.value.work.FiberWork? then Some(th.task.value.work.fiber) else th.cb
  }

  predicate Safe(s: State, act: Act)
    requires Enabled(s, act)
  {
    match act
    case CreateFiber(_) => true
    case DropHandle(f) => ReleaseOk(s.(clients := s.clients - {f}), f)
    case ShareSelf(t) => s.threads[t].locals.cur == Some(s.threads[t].phase.fiber)
    case Schedule(_, batch, _) => BatchAlive(s, batch)
    case BeginStop => StopOk(s)
    case EnterRun(t, _) =>
      var l := s.threads[t].locals;
      l.scheduler.Some? && CanResume(s.fibers, l, l.scheduler.value)
    case Start(_) => StartOk(s)
    case TakePool => true
    case StartWorker(_, _, _) => true
    case PickTask(t) =>
      && NoNulls(s.q)
      && (forall j :: 0 <= j < |s.q.tasks| && s.q.tasks[j].work.FiberWork? ==> s.q.tasks[j].work.fiber in s.fibers)
    case ResumeTask(t) => CanResume(s.fibers, s.threads[t].locals, s.threads[t].task.value.work.fiber)
    case StartCallback(t, f) =>
      var th := s.threads[t];
      && (th.cb.Some? ==> th.cb.value in s.fibers && s.fibers[th.cb.value].state == TERM)     // Fiber::reset()
      && th.locals.scheduler.Some? && th.locals.scheduler.value in s.fibers
    case Yield(t) => SwitchBackOk(s, t, s.threads[t].phase.fiber, false, s.threads[t].phase.slice)
    case Finish(t) => SwitchBackOk(s, t, s.threads[t].phase.fiber, true, s.threads[t].phase.slice)
    case Decrement(t) => s.q.active > 0
    case Drop(t) =>
      var f := InUse(s.threads[t]);
      f.Some? && ReleaseOk(Dropped(s, t), f.value)
    case ResumeIdle(t) =>
      s.threads[t].idle.Some? && CanResume(s.fibers, s.threads[t].locals, s.threads[t].idle.value)
    case CheckStopping(_) => true
    case LeaveIdle(t) =>
      var th := s.threads[t];
      th.idle.Some? && s.q.idle > 0 && SwitchBackOk(s, t, th.idle.value, th.phase.stop, th.phase.slice)
    case Exit(t) =>
      var th := s.threads[t];
      && ReleaseOk(IdleDropped(s, t), th.idle.value)
      && (th.viaRoot ==>
            && th.locals.scheduler.Some?
            && CanYield(s.fibers, th.locals, th.locals.scheduler.value)
            && MainFiber(s.fibers[th.locals.scheduler.value], th.locals) != th.locals.scheduler
            && YieldsTo(s.fibers, th.locals, th.locals.scheduler.value) == Saved(th.entered))
  }

  // task.reset(), or cb_fiber.reset(): the handle is gone, the ticket is done.
  function Dropped(s: State, t: ThreadId): State
    requires t in s.threads
  {
    var th := s.threads[t];
    Set(s, t, th.(phase := AtHead, task := None, cb := None)).(done := s.done + {th.ticket})
  }

  function IdleDropped(s: State, t: ThreadId): State
    requires t in s.threads
  {
    Set(s, t, s.threads[t].(phase := Left, idle := None))
  }

  function Next(s: State, act: Act): State
    requires Enabled(s, act) && Safe(s, act)
  {
    match act
    case CreateFiber(f) =>
      s.(fibers := s.fibers[f := NewFiber(true)], roles := s.roles[f := TaskFiber], clients := s.clients + {f})
    case DropHandle(f) => Released(s.(clients := s.clients - {f}), f)
    case ShareSelf(t) => s.(clients := s.clients + {s.threads[t].locals.cur.value})
    case Schedule(_, batch, moved) => ScheduleAll(s, batch).(clients := s.clients - moved)
    case BeginStop => s.(q := s.q.(stopping := true))
    case EnterRun(t, idle) =>
      var s1 := SwitchTo(s, t, s.threads[t].locals.scheduler.value, AtHead);
      s1.(fibers := s1.fibers[idle := NewFiber(true)], roles := s1.roles[idle := IdleFiber(t)],
          threads := s1.threads[t := s1.threads[t].(idle := Some(idle), entered := s.clock)])
    case Start(ids) =>
      if s.q.stopping then s.(pool := ids, created := s.created + set i | 0 <= i < |ids| :: ids[i]) else s
    case TakePool => s.(pool := [])
    case StartWorker(t, threadFiber, idle) =>
      s.(fibers := s.fibers[threadFiber := THREAD_FIBER][idle := NewFiber(true)],
         roles := s.roles[threadFiber := ThreadFiber(t)][idle := IdleFiber(t)],
         threads := s.threads[t := Thread(AtHead, Locals(Some(threadFiber), Some(threadFiber), Some(threadFiber)),
                                          None, None, Some(idle), false, 0, 0)])
    case PickTask(t) =>
      var exec := ExecFibers(s.fibers);
      var (q, task) := Picked(s.q, t, exec);
      var th := s.threads[t];
      if task.None? then Set(s, t, th.(phase := NoTask))
      else Set(s, t, th.(phase := Got, task := task, ticket := task.value.ticket))
           .(q := q, picks := s.picks + [Pick(task.value, t, exec)])
    case ResumeTask(t) =>
      var f := s.threads[t].task.value.work.fiber;
      SwitchTo(s, t, f, Running(f, s.clock))
    case StartCallback(t, f) =>
      var th := s.threads[t];
      var g := if th.cb.Some? then th.cb.value else f;
      var s1 := Set(s, t, th.(task := None, cb := Some(g)));
      var s2 := s1.(fibers := s1.fibers[g := NewFiber(true)], roles := s1.roles[g := TaskFiber]);
      SwitchTo(s2, t, g, Running(g, s.clock))
    case Yield(t) => SwitchBack(s, t, s.threads[t].phase.fiber, false, Returned)
    case Finish(t) => SwitchBack(s, t, s.threads[t].phase.fiber, true, Returned)
    case Decrement(t) => Set(s, t, s.threads[t].(phase := Dropping)).(q := s.q.(active := s.q.active - 1))
    case Drop(t) => Released(Dropped(s, t), InUse(s.threads[t]).value)
    case ResumeIdle(t) =>
      SwitchTo(s.(q := s.q.(idle := s.q.idle + 1)), t, s.threads[t].idle.value, Idling(s.clock))
    case CheckStopping(t) =>
      Set(s, t, s.threads[t].(phase := IdleKnows(s.threads[t].phase.slice, IsStopping(s.q))))
    case LeaveIdle(t) =>
      SwitchBack(s, t, s.threads[t].idle.value, s.threads[t].phase.stop, AtHead).(q := s.q.(idle := s.q.idle - 1))
    case Exit(t) =>
      var idle := s.threads[t].idle.value;
      var s1 := if s.threads[t].viaRoot then SwitchBack(s, t, s.threads[t].locals.scheduler.value, true, NoTask) else s;
      Released(IdleDropped(s1, t), idle)
  }

  function Step(s: State, act: Act): Outcome<State> {
    if !Enabled(s, act) then Blocked
    else if !Safe(s, act) then Crash
    else Ok(Next(s, act))
  }

  function Exec(useCaller: bool, acts: seq<Act>): Outcome<State> {
    if acts == [] then Ok(Initial(useCaller))
    else
      match Exec(useCaller, acts[..|acts| - 1])
      case Ok(s) => Step(s, acts[|acts| - 1])
      case o => o
  }
}
