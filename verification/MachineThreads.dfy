/**
 What every thread of the machine keeps true of its own fibers, and that no two threads
 lay claim to one fiber: mutual exclusion and the transfer of control.
 */
module MachineThreads {
  import opened Outcomes
  import opened Fibers
  import opened Scheduling
  import opened Machine

  predicate InRun(th: Thread) {
    !th.phase.Outside? && !th.phase.Left?
  }

  predicate InIdle(th: Thread) {
    th.phase.Idling? || th.phase.IdleKnows?
  }

  predicate InTask(th: Thread) {
    th.phase.Running? || th.phase == Returned || th.phase == Dropping
  }

  predicate HasRole(s: State, f: FiberId, r: Role) {
    f in s.fibers && f in s.roles && s.roles[f] == r
  }

  // The thread's own fiber, and the one that run() executes on.
  predicate SystemOk(s: State, t: ThreadId, th: Thread) {
    && th.locals.thread.Some? && th.locals.scheduler.Some?
    && var m, c := th.locals.thread.value, th.locals.scheduler.value;
    && HasRole(s, m, ThreadFiber(t)) && s.fibers[m].state == EXEC
    && if !th.viaRoot then c == m && !th.phase.Outside? else
         && HasRole(s, c, RootFiber(t)) && !s.fibers[c].viaScheduler
         && (th.phase.Outside? ==> s.fibers[c].state == READY && s.fibers[c].ctx == Entry)
         && (th.phase.Left? ==> s.fibers[c].state == TERM)
         && (InRun(th) ==> s.fibers[c].state == EXEC && s.fibers[m].ctx == Saved(th.entered))
  }

  predicate IdleOk(s: State, t: ThreadId, th: Thread) {
    && (th.idle.Some? <==> InRun(th))
    && (th.idle.Some? ==>
          && HasRole(s, th.idle.value, IdleFiber(t)) && s.fibers[th.idle.value].viaScheduler
          && (s.fibers[th.idle.value].state == EXEC <==> InIdle(th)))
  }

  // The current fiber, and the point to which the running slice will return.
  predicate ControlOk(s: State, t: ThreadId, th: Thread)
    requires SystemOk(s, t, th)
  {
    var c := th.locals.scheduler.value;
    match th.phase
    case Running(f, k) => th.locals.cur == Some(f) && s.fibers[c].ctx == Saved(k)
    case Idling(k) => th.locals.cur == th.idle && s.fibers[c].ctx == Saved(k)
    case IdleKnows(k, _) => th.locals.cur == th.idle && s.fibers[c].ctx == Saved(k)
    case _ => th.locals.cur == th.locals.thread || (th.viaRoot && InRun(th) && th.locals.cur == th.locals.scheduler)
  }

  // The task in hand.
  predicate HandOk(s: State, t: ThreadId, th: Thread) {
    if th.phase == Got then
      && th.cb == None && th.task.Some? && !th.task.value.work.NullWork?
      && (th.task.value.work.FiberWork? ==>
            && HasRole(s, th.task.value.work.fiber, TaskFiber) && s.fibers[th.task.value.work.fiber].viaScheduler
            && s.fibers[th.task.value.work.fiber].state == READY)
    else if InTask(th) then
      && (if th.task.Some? then th.task.value.work.FiberWork? && th.cb == None else th.cb.Some?)
      && var f := InUse(th).value;
      && HasRole(s, f, TaskFiber) && s.fibers[f].viaScheduler
      && (if th.phase.Running? then th.phase.fiber == f && s.fibers[f].state == EXEC else s.fibers[f].ctx.Saved?)
    else
      th.task == None && th.cb == None
  }

  predicate ThreadOk(s: State, t: ThreadId, th: Thread) {
    SystemOk(s, t, th) && IdleOk(s, t, th) && ControlOk(s, t, th) && HandOk(s, t, th)
  }

  predicate FibersOk(s: State) {
    && (forall f :: f in s.destroyed ==> f in s.roles)
    && (forall f :: f in s.fibers ==>
          && f in s.roles && f !in s.destroyed
          && (s.roles[f].TaskFiber? || s.roles[f].IdleFiber? ==> s.fibers[f].viaScheduler && s.fibers[f].ctx != Unset))
  }

  predicate ClaimsApart(s: State) {
    forall t, u :: t in s.threads && u in s.threads && t != u && Claim(s.threads[t]).Some? ==>
      Claim(s.threads[t]) != Claim(s.threads[u])
  }

  predicate QueueOk(s: State) {
    && NoNulls(s.q)
    && (forall j :: 0 <= j < |s.q.tasks| && s.q.tasks[j].work.FiberWork? ==>
          var f := s.q.tasks[j].work.fiber;
          HasRole(s, f, TaskFiber) && s.fibers[f].state != TERM)
    && (forall i, j :: 0 <= i < j < |s.q.tasks| && s.q.tasks[i].work.FiberWork? ==>
          s.q.tasks[i].work != s.q.tasks[j].work)
    && (forall t :: t in s.threads && s.threads[t].phase == Got && Claim(s.threads[t]).Some? ==>
          !Queued(s.q, Claim(s.threads[t]).value))
  }

  predicate ClientsOk(s: State) {
    forall f :: f in s.clients ==> HasRole(s, f, TaskFiber)
  }

  predicate ThreadsOk(s: State) {
    forall t :: t in s.threads ==> ThreadOk(s, t, s.threads[t])
  }

  predicate Inv(s: State) {
    ThreadsOk(s) && FibersOk(s) && ClaimsApart(s) && QueueOk(s) && ClientsOk(s)
  }

  // ---------- steps of one thread, as the others see them ----------

  function Owner(r: Role): Option<ThreadId> {
    match r
    case TaskFiber => None
    case IdleFiber(t) => Some(t)
    case ThreadFiber(t) => Some(t)
    case RootFiber(t) => Some(t)
  }

  predicate Mine(s: State, t: ThreadId, f: FiberId) {
    f in s.roles && (Owner(s.roles[f]) == Some(t) || (s.roles[f].TaskFiber? && t in s.threads
        && Claim(s.threads[t]) == Some(f)))
  }

  predicate RolesGrow(s: State, s': State) {
    forall f :: f in s.roles ==> f in s'.roles && s'.roles[f] == s.roles[f]
  }

  // Apart from its own fibers and those that nobody holds any more, a step of t leaves the
  // fibers alone; even its own it does not make unstarted again.
  predicate Spares(s: State, s': State, t: ThreadId) {
    && RolesGrow(s, s')
    && (forall f :: f in s.fibers ==>
          || (f in s'.fibers && s'.fibers[f] == s.fibers[f])
          || (f in s'.fibers && Mine(s, t, f) && s'.fibers[f].viaScheduler == s.fibers[f].viaScheduler
              && (s.fibers[f].ctx.Saved? ==> s'.fibers[f].ctx.Saved?))
          || (f !in s'.fibers && !InHand(s'.threads, f) && f in s.roles && !s.roles[f].ThreadFiber?
              && !s.roles[f].RootFiber?))
    && (forall u :: u in s.threads && u != t ==> u in s'.threads && s'.threads[u] == s.threads[u])
  }

  lemma OtherThread(s: State, s': State, t: ThreadId, u: ThreadId)
    requires Spares(s, s', t) && FibersOk(s) && ClaimsApart(s) && u in s.threads && u != t
    requires ThreadOk(s, u, s.threads[u])
    ensures ThreadOk(s', u, s'.threads[u])
  {
    var th := s.threads[u];
    assert forall f :: HeldBy(th, f) ==> InHand(s'.threads, f);
    assert th.idle.Some? ==> HeldBy(th, th.idle.value);
    assert InUse(th).Some? ==> HeldBy(th, InUse(th).value);
    assert Claim(th).Some? ==> HeldBy(th, Claim(th).value) && !Mine(s, t, Claim(th).value);
  }

  lemma OtherThreads(s: State, s': State, t: ThreadId)
    requires ThreadsOk(s) && FibersOk(s) && ClaimsApart(s)
    requires Spares(s, s', t) && s'.threads.Keys == s.threads.Keys + {t} && ThreadOk(s', t, s'.threads[t])
    ensures ThreadsOk(s')
  {
    hide ThreadOk, FibersOk, ClaimsApart, Spares;
    forall u | u in s'.threads
      ensures ThreadOk(s', u, s'.threads[u])
    {
      if u != t {
        OtherThread(s, s', t, u);
      }
    }
  }

  lemma OtherClaims(s: State, s': State, t: ThreadId)
    requires ClaimsApart(s) && Spares(s, s', t) && s'.threads.Keys == s.threads.Keys + {t}
    requires Claim(s'.threads[t]).Some? ==>
               forall u :: u in s.threads && u != t ==> Claim(s.threads[u]) != Claim(s'.threads[t])
    ensures ClaimsApart(s')
  {
    hide Claim;
  }

  // What a step of thread t has to show: everything about the others follows.
  lemma ThreadStep(s: State, s': State, t: ThreadId)
    requires Inv(s) && Spares(s, s', t) && s'.threads.Keys == s.threads.Keys + {t}
    requires ThreadOk(s', t, s'.threads[t]) && FibersOk(s') && QueueOk(s') && ClientsOk(s')
    requires Claim(s'.threads[t]).Some? ==>
               forall u :: u in s.threads && u != t ==> Claim(s.threads[u]) != Claim(s'.threads[t])
    ensures Inv(s')
  {
    hide ThreadsOk, ThreadOk, FibersOk, QueueOk, ClientsOk, ClaimsApart, Spares, Claim;
    OtherThreads(s, s', t);
    OtherClaims(s, s', t);
  }

  // The queue stays sound if its fibers do and nobody else has picked one of them.
  lemma QueueKept(s: State, s': State)
    requires QueueOk(s) && s'.q.tasks == s.q.tasks && RolesGrow(s, s')
    requires forall f :: f in s.fibers && Queued(s.q, f) && s.fibers[f].state != TERM ==>
               f in s'.fibers && s'.fibers[f].state != TERM
    requires forall t :: t in s'.threads && s'.threads[t].phase == Got ==>
               t in s.threads && s.threads[t] == s'.threads[t]
    ensures QueueOk(s')
  {
    hide Claim;
    assert forall j :: 0 <= j < |s.q.tasks| && s.q.tasks[j].work.FiberWork? ==> Queued(s.q, s.q.tasks[j].work.fiber);
  }

  lemma ClientsKept(s: State, s': State)
    requires ClientsOk(s) && s'.clients <= s.clients && RolesGrow(s, s')
    requires forall f :: f in s.clients ==> f in s'.fibers
    ensures ClientsOk(s')
  {
  }

  // ---------- the steps that switch context ----------

  // Thread t resumes a fiber of its own: only that fiber and the main fiber change.
  lemma SwitchToSpares(s: State, t: ThreadId, f: FiberId, phase: Phase)
    requires t in s.threads && SystemOk(s, t, s.threads[t]) && FibersOk(s)
    requires HasMain(s.fibers, s.threads[t].locals, f) && Mine(s, t, f)
    ensures Spares(s, SwitchTo(s, t, f, phase), t) && FibersOk(SwitchTo(s, t, f, phase))
  {
  }

  lemma SwitchBackSpares(s: State, t: ThreadId, f: FiberId, ends: bool, phase: Phase)
    requires t in s.threads && f in s.fibers && FibersOk(s) && Mine(s, t, f)
    ensures Spares(s, SwitchBack(s, t, f, ends, phase), t) && FibersOk(SwitchBack(s, t, f, ends, phase))
  {
  }

  // The queue under a switch: nothing ends, except a fiber that is not in it.
  lemma SwitchToQueue(s: State, t: ThreadId, f: FiberId, phase: Phase)
    requires QueueOk(s) && ClientsOk(s) && t in s.threads && HasMain(s.fibers, s.threads[t].locals, f) && phase != Got
    ensures var s' := SwitchTo(s, t, f, phase); QueueOk(s') && ClientsOk(s')
  {
    var s' := SwitchTo(s, t, f, phase);
    QueueKept(s, s');
    ClientsKept(s, s');
  }

  lemma SwitchBackQueue(s: State, t: ThreadId, f: FiberId, ends: bool, phase: Phase)
    requires QueueOk(s) && ClientsOk(s) && t in s.threads && f in s.fibers && phase != Got
    requires ends ==> !Queued(s.q, f)
    ensures var s' := SwitchBack(s, t, f, ends, phase); QueueOk(s') && ClientsOk(s')
  {
    var s' := SwitchBack(s, t, f, ends, phase);
    QueueKept(s, s');
    ClientsKept(s, s');
  }

  lemma IdleNotQueued(s: State, t: ThreadId)
    requires QueueOk(s) && t in s.threads && IdleOk(s, t, s.threads[t]) && s.threads[t].idle.Some?
    ensures !Queued(s.q, s.threads[t].idle.value)
  {
  }

  lemma KeepsResumeTask(s: State, t: ThreadId)
    requires Inv(s) && Enabled(s, ResumeTask(t)) && Safe(s, ResumeTask(t))
    ensures Inv(Next(s, ResumeTask(t)))
  {
    assert t in s.threads;
    hide *;
    Before(s, t);
    ResumeTaskShared(s, t);
    ResumeTaskOwn(s, t);
    ClaimKept(s, Next(s, ResumeTask(t)), t);
    SharedThreadStep(s, Next(s, ResumeTask(t)), t);
  }

  lemma ResumeTaskShared(s: State, t: ThreadId)
    requires Enabled(s, ResumeTask(t)) && Safe(s, ResumeTask(t)) && ThreadOk(s, t, s.threads[t]) && SharedOk(s)
    ensures Shared(s, Next(s, ResumeTask(t)), t)
  {
    var f := s.threads[t].task.value.work.fiber;
    assert Mine(s, t, f) && Next(s, ResumeTask(t)) == SwitchTo(s, t, f, Running(f, s.clock));
    assert SystemOk(s, t, s.threads[t]) && HasMain(s.fibers, s.threads[t].locals, f);
    hide *;
    SharedSwitchTo(s, t, f, Running(f, s.clock));
  }

  // A claim that a thread already had is still its alone.
  lemma ClaimKept(s: State, s': State, t: ThreadId)
    requires ClaimsApart(s) && t in s.threads && t in s'.threads
    requires Claim(s'.threads[t]) == None || Claim(s'.threads[t]) == Claim(s.threads[t])
    ensures Claim(s'.threads[t]).Some? ==>
              forall u :: u in s.threads && u != t ==> Claim(s.threads[u]) != Claim(s'.threads[t])
  {
    hide Claim;
  }

  lemma ResumeTaskOwn(s: State, t: ThreadId)
    requires Enabled(s, ResumeTask(t)) && Safe(s, ResumeTask(t)) && ThreadOk(s, t, s.threads[t]) && FibersOk(s)
    ensures var s' := Next(s, ResumeTask(t));
            && t in s'.threads && ThreadOk(s', t, s'.threads[t]) && s'.threads.Keys == s.threads.Keys + {t}
            && Claim(s'.threads[t]) == Claim(s.threads[t])
  {
  }

  lemma SharedSwitchBack(s: State, t: ThreadId, f: FiberId, ends: bool, phase: Phase)
    requires t in s.threads && f in s.fibers && SharedOk(s) && Mine(s, t, f) && phase != Got
    requires ends ==> !Queued(s.q, f)
    ensures Shared(s, SwitchBack(s, t, f, ends, phase), t)
  {
    hide Mine, SwitchBack, FibersOk, QueueOk, ClientsOk;
    SwitchBackSpares(s, t, f, ends, phase);
    SwitchBackQueue(s, t, f, ends, phase);
  }

  // The thread that takes a step, before it does.
  lemma Before(s: State, t: ThreadId)
    requires Inv(s) && t in s.threads
    ensures ThreadOk(s, t, s.threads[t]) && SharedOk(s) && ClaimsApart(s)
  {
    hide ThreadOk, FibersOk, QueueOk, ClientsOk, ClaimsApart;
  }

  lemma RunningIsMine(s: State, t: ThreadId)
    requires InSlice(s, t) && ThreadOk(s, t, s.threads[t])
    ensures s.threads[t].phase.fiber in s.fibers && Mine(s, t, s.threads[t].phase.fiber)
  {
  }

  lemma KeepsYield(s: State, t: ThreadId)
    requires Inv(s) && Enabled(s, Yield(t)) && Safe(s, Yield(t))
    ensures Inv(Next(s, Yield(t)))
  {
    assert t in s.threads;
    hide *;
    Before(s, t);
    YieldShared(s, t);
    YieldOwn(s, t);
    SharedThreadStep(s, Next(s, Yield(t)), t);
  }

  lemma YieldShared(s: State, t: ThreadId)
    requires Enabled(s, Yield(t)) && Safe(s, Yield(t)) && ThreadOk(s, t, s.threads[t]) && SharedOk(s)
    ensures Shared(s, Next(s, Yield(t)), t)
  {
    var f := s.threads[t].phase.fiber;
    assert Next(s, Yield(t)) == SwitchBack(s, t, f, false, Returned) && InSlice(s, t);
    hide *;
    RunningIsMine(s, t);
    SharedSwitchBack(s, t, f, false, Returned);
  }

  lemma YieldOwn(s: State, t: ThreadId)
    requires Enabled(s, Yield(t)) && Safe(s, Yield(t)) && ThreadOk(s, t, s.threads[t])
    ensures var s' := Next(s, Yield(t));
            && t in s'.threads && ThreadOk(s', t, s'.threads[t]) && s'.threads.Keys == s.threads.Keys + {t}
            && Claim(s'.threads[t]) == None
  {
  }

  lemma KeepsFinish(s: State, t: ThreadId)
    requires Inv(s) && Enabled(s, Finish(t)) && Safe(s, Finish(t))
    ensures Inv(Next(s, Finish(t)))
  {
    assert t in s.threads;
    hide *;
    Before(s, t);
    FinishShared(s, t);
    FinishOwn(s, t);
    SharedThreadStep(s, Next(s, Finish(t)), t);
  }

  lemma FinishShared(s: State, t: ThreadId)
    requires Enabled(s, Finish(t)) && Safe(s, Finish(t)) && ThreadOk(s, t, s.threads[t]) && SharedOk(s)
    ensures Shared(s, Next(s, Finish(t)), t)
  {
    var f := s.threads[t].phase.fiber;
    assert Next(s, Finish(t)) == SwitchBack(s, t, f, true, Returned) && InSlice(s, t) && !Queued(s.q, f);
    hide *;
    RunningIsMine(s, t);
    SharedSwitchBack(s, t, f, true, Returned);
  }

  lemma FinishOwn(s: State, t: ThreadId)
    requires Enabled(s, Finish(t)) && Safe(s, Finish(t)) && ThreadOk(s, t, s.threads[t])
    ensures var s' := Next(s, Finish(t));
            && t in s'.threads && ThreadOk(s', t, s'.threads[t]) && s'.threads.Keys == s.threads.Keys + {t}
            && Claim(s'.threads[t]) == None
  {
  }

  // What a step promises about everything but the thread that takes it.
  predicate Shared(s: State, s': State, t: ThreadId) {
    Spares(s, s', t) && FibersOk(s') && QueueOk(s') && ClientsOk(s')
  }

  predicate SharedOk(s: State) {
    FibersOk(s) && QueueOk(s) && ClientsOk(s)
  }

  // Local variables and counters are nobody else's business.
  lemma LocalStep(s: State, s1: State, s': State, t: ThreadId)
    requires s1.fibers == s.fibers && s1.roles == s.roles && s1.destroyed == s.destroyed
    requires s1.clients == s.clients && s1.q.tasks == s.q.tasks
    requires t in s.threads && t in s1.threads && s1.threads == s.threads[t := s1.threads[t]]
    requires s1.threads[t] == s.threads[t] || s1.threads[t].phase != Got
    requires SharedOk(s)
    ensures SharedOk(s1) && Spares(s, s1, t)
    ensures Shared(s1, s', t) && Claim(s1.threads[t]) == Claim(s.threads[t]) ==> Shared(s, s', t)
  {
    QueueKept(s, s1);
    hide QueueOk;
  }

  lemma KeepsResumeIdle(s: State, t: ThreadId)
    requires Inv(s) && Enabled(s, ResumeIdle(t)) && Safe(s, ResumeIdle(t))
    ensures Inv(Next(s, ResumeIdle(t)))
  {
    assert t in s.threads;
    hide *;
    Before(s, t);
    ResumeIdleShared(s, t);
    ResumeIdleOwn(s, t);
    ClaimKept(s, Next(s, ResumeIdle(t)), t);
    SharedThreadStep(s, Next(s, ResumeIdle(t)), t);
  }

  lemma ResumeIdleShared(s: State, t: ThreadId)
    requires Enabled(s, ResumeIdle(t)) && Safe(s, ResumeIdle(t)) && ThreadOk(s, t, s.threads[t]) && SharedOk(s)
    ensures Shared(s, Next(s, ResumeIdle(t)), t)
  {
    var s1, i, s' := s.(q := s.q.(idle := s.q.idle + 1)), s.threads[t].idle.value, Next(s, ResumeIdle(t));
    assert s' == SwitchTo(s1, t, i, Idling(s.clock));
    assert SystemOk(s1, t, s1.threads[t]) && HasMain(s1.fibers, s1.threads[t].locals, i) && Mine(s1, t, i);
    LocalStep(s, s1, s', t);
    hide *;
    SharedSwitchTo(s1, t, i, Idling(s.clock));
  }

  lemma SharedSwitchTo(s: State, t: ThreadId, f: FiberId, phase: Phase)
    requires t in s.threads && SystemOk(s, t, s.threads[t]) && SharedOk(s)
    requires HasMain(s.fibers, s.threads[t].locals, f) && Mine(s, t, f) && phase != Got
    ensures Shared(s, SwitchTo(s, t, f, phase), t)
  {
    hide SystemOk, HasMain, Mine, SwitchTo, FibersOk, QueueOk, ClientsOk;
    SwitchToSpares(s, t, f, phase);
    SwitchToQueue(s, t, f, phase);
  }

  lemma ResumeIdleOwn(s: State, t: ThreadId)
    requires Enabled(s, ResumeIdle(t)) && Safe(s, ResumeIdle(t)) && ThreadOk(s, t, s.threads[t])
    ensures var s' := Next(s, ResumeIdle(t));
            && t in s'.threads && ThreadOk(s', t, s'.threads[t]) && s'.threads.Keys == s.threads.Keys + {t}
            && Claim(s'.threads[t]) == Claim(s.threads[t])
  {
  }

  lemma KeepsLeaveIdle(s: State, t: ThreadId)
    requires Inv(s) && Enabled(s, LeaveIdle(t)) && Safe(s, LeaveIdle(t))
    ensures Inv(Next(s, LeaveIdle(t)))
  {
    assert t in s.threads;
    hide *;
    Before(s, t);
    LeaveIdleShared(s, t);
    LeaveIdleOwn(s, t);
    ClaimKept(s, Next(s, LeaveIdle(t)), t);
    SharedThreadStep(s, Next(s, LeaveIdle(t)), t);
  }

  lemma LeaveIdleShared(s: State, t: ThreadId)
    requires Enabled(s, LeaveIdle(t)) && Safe(s, LeaveIdle(t)) && ThreadOk(s, t, s.threads[t]) && SharedOk(s)
    ensures Shared(s, Next(s, LeaveIdle(t)), t)
  {
    var s1, th := s.(q := s.q.(idle := s.q.idle - 1)), s.threads[t];
    IdleNotQueued(s, t);
    LocalStep(s, s1, Next(s, LeaveIdle(t)), t);
    assert !Queued(s1.q, th.idle.value);
    assert Next(s, LeaveIdle(t)) == SwitchBack(s1, t, th.idle.value, th.phase.stop, AtHead);
    hide QueueOk, ClientsOk, ControlOk, HandOk;
    SwitchBackSpares(s1, t, th.idle.value, th.phase.stop, AtHead);
    SwitchBackQueue(s1, t, th.idle.value, th.phase.stop, AtHead);
  }

  lemma LeaveIdleOwn(s: State, t: ThreadId)
    requires Enabled(s, LeaveIdle(t)) && Safe(s, LeaveIdle(t)) && ThreadOk(s, t, s.threads[t])
    ensures var s' := Next(s, LeaveIdle(t));
            && t in s'.threads && ThreadOk(s', t, s'.threads[t]) && s'.threads.Keys == s.threads.Keys + {t}
            && Claim(s'.threads[t]) == Claim(s.threads[t])
  {
  }

  // ---------- starting a callback ----------

  lemma KeepsStartCallback(s: State, t: ThreadId, f: FiberId)
    requires Inv(s) && Enabled(s, StartCallback(t, f)) && Safe(s, StartCallback(t, f))
    ensures Inv(Next(s, StartCallback(t, f)))
  {
    assert t in s.threads && ThreadsOk(s);
    hide *;
    Before(s, t);
    SharedParts(s);
    StartCallbackFibers(s, t, f);
    StartCallbackOwn(s, t, f);
    StartCallbackClaim(s, t, f);
    SharedThreadStep(s, Next(s, StartCallback(t, f)), t);
  }

  lemma StartCallbackClaim(s: State, t: ThreadId, f: FiberId)
    requires ThreadsOk(s) && FibersOk(s) && Enabled(s, StartCallback(t, f)) && Safe(s, StartCallback(t, f))
    ensures Claim(Next(s, StartCallback(t, f)).threads[t]) == Some(f)
    ensures forall u :: u in s.threads && u != t ==> Claim(s.threads[u]) != Some(f)
  {
    assert ThreadOk(s, t, s.threads[t]);
    forall u | u in s.threads && u != t
      ensures Claim(s.threads[u]) != Some(f)
    {
      assert ThreadOk(s, u, s.threads[u]);
    }
  }

  lemma StartedFibers(s: State, t: ThreadId, f: FiberId)
    requires Enabled(s, StartCallback(t, f)) && Safe(s, StartCallback(t, f)) && ThreadOk(s, t, s.threads[t])
    requires FibersOk(s)
    ensures var s', c := Next(s, StartCallback(t, f)), s.threads[t].locals.scheduler.value;
            && c in s.fibers && c != f
            && s'.fibers == s.fibers[f := NewFiber(true).(state := EXEC)][c := s.fibers[c].(ctx := Saved(s.clock))]
            && s'.roles == s.roles[f := TaskFiber]
            && s'.frames == s.frames + {f} && s'.q == s.q && s'.accepted == s.accepted && s'.clients == s.clients
            && s'.destroyed == s.destroyed && s'.picks == s.picks && s'.done == s.done
            && t in s'.threads && s'.threads == s.threads[t := s'.threads[t]]
            && s'.threads[t].phase.Running? && s'.threads[t].ticket == s.threads[t].ticket
            && s'.threads[t].idle == s.threads[t].idle
            && Claim(s.threads[t]) == None
            && (s.roles[c].ThreadFiber? || (s.fibers[c].state == EXEC && s.roles[c].RootFiber?))
  {
  }

  lemma StartCallbackFibers(s: State, t: ThreadId, f: FiberId)
    requires Enabled(s, StartCallback(t, f)) && Safe(s, StartCallback(t, f)) && ThreadOk(s, t, s.threads[t])
    requires SharedOk(s)
    ensures Shared(s, Next(s, StartCallback(t, f)), t)
  {
    var s', c := Next(s, StartCallback(t, f)), s.threads[t].locals.scheduler.value;
    StartedFibers(s, t, f);
    assert Owner(s.roles[c]) == Some(t) && c in s.roles && f !in s.roles;
    assert s'.threads == s.threads[t := s'.threads[t]] && s'.threads[t].phase.Running?;
    hide Next, Enabled, Safe, ThreadOk;
    FreshAndMain(s, s', t, f, c, s.clock);
  }

  lemma FreshAndMain(s: State, s': State, t: ThreadId, f: FiberId, c: FiberId, k: nat)
    requires SharedOk(s) && c in s.fibers && c in s.roles && f !in s.roles && Owner(s.roles[c]) == Some(t)
    requires s'.fibers == s.fibers[f := NewFiber(true).(state := EXEC)][c := s.fibers[c].(ctx := Saved(k))]
    requires s'.roles == s.roles[f := TaskFiber]
    requires t in s.threads && t in s'.threads && s'.threads == s.threads[t := s'.threads[t]]
    requires s'.threads[t].phase.Running?
    requires s'.q == s.q && s'.clients == s.clients && s'.destroyed == s.destroyed
    ensures Shared(s, s', t)
  {
    FreshSpares(s, s', t, f, c, k);
    hide Spares, FibersOk;
    QueueKept(s, s');
    ClientsKept(s, s');
  }

  lemma FreshSpares(s: State, s': State, t: ThreadId, f: FiberId, c: FiberId, k: nat)
    requires FibersOk(s) && c in s.fibers && c in s.roles && f !in s.roles && Owner(s.roles[c]) == Some(t)
    requires s'.fibers == s.fibers[f := NewFiber(true).(state := EXEC)][c := s.fibers[c].(ctx := Saved(k))]
    requires s'.roles == s.roles[f := TaskFiber] && s'.destroyed == s.destroyed
    requires t in s.threads && t in s'.threads && s'.threads == s.threads[t := s'.threads[t]]
    ensures Spares(s, s', t) && FibersOk(s')
  {
    assert forall g :: g in s.fibers && g != c ==> g in s'.fibers && s'.fibers[g] == s.fibers[g];
  }

  lemma StartCallbackOwn(s: State, t: ThreadId, f: FiberId)
    requires Enabled(s, StartCallback(t, f)) && Safe(s, StartCallback(t, f)) && ThreadOk(s, t, s.threads[t])
    requires FibersOk(s)
    ensures var s' := Next(s, StartCallback(t, f));
            t in s'.threads && ThreadOk(s', t, s'.threads[t]) && s'.threads.Keys == s.threads.Keys + {t}
  {
    var s' := Next(s, StartCallback(t, f));
    var c := s.threads[t].locals.scheduler.value;
    assert s'.fibers == s.fibers[f := NewFiber(true).(state := EXEC)][c := s.fibers[c].(ctx := Saved(s.clock))];
  }

  // ---------- steps that switch nothing ----------

  lemma KeepsDecrement(s: State, t: ThreadId)
    requires Inv(s) && Enabled(s, Decrement(t)) && Safe(s, Decrement(t))
    ensures Inv(Next(s, Decrement(t)))
  {
    assert t in s.threads;
    hide *;
    Before(s, t);
    DecrementShared(s, t);
    DecrementOwn(s, t);
    ClaimKept(s, Next(s, Decrement(t)), t);
    SharedThreadStep(s, Next(s, Decrement(t)), t);
  }

  lemma DecrementShared(s: State, t: ThreadId)
    requires Enabled(s, Decrement(t)) && Safe(s, Decrement(t)) && SharedOk(s)
    ensures Shared(s, Next(s, Decrement(t)), t)
  {
    LocalStep(s, Next(s, Decrement(t)), Next(s, Decrement(t)), t);
    hide FibersOk, QueueOk, ClientsOk, Spares;
  }

  lemma DecrementOwn(s: State, t: ThreadId)
    requires Enabled(s, Decrement(t)) && Safe(s, Decrement(t)) && ThreadOk(s, t, s.threads[t])
    ensures var s' := Next(s, Decrement(t));
            && t in s'.threads && ThreadOk(s', t, s'.threads[t]) && s'.threads.Keys == s.threads.Keys + {t}
            && Claim(s'.threads[t]) == Claim(s.threads[t])
  {
  }

  lemma SharedParts(s: State)
    requires SharedOk(s)
    ensures FibersOk(s) && QueueOk(s) && ClientsOk(s)
  {
  }

  lemma SharedThreadStep(s: State, s': State, t: ThreadId)
    requires Inv(s) && Spares(s, s', t) && s'.threads.Keys == s.threads.Keys + {t}
    requires ThreadOk(s', t, s'.threads[t]) && SharedOk(s')
    requires Claim(s'.threads[t]).Some? ==>
               forall u :: u in s.threads && u != t ==> Claim(s.threads[u]) != Claim(s'.threads[t])
    ensures Inv(s')
  {
    hide Inv, ThreadOk, Spares, FibersOk, QueueOk, ClientsOk;
    ThreadStep(s, s', t);
  }

  lemma KeepsCheckStopping(s: State, t: ThreadId)
    requires Inv(s) && Enabled(s, CheckStopping(t)) && Safe(s, CheckStopping(t))
    ensures Inv(Next(s, CheckStopping(t)))
  {
    assert t in s.threads;
    hide *;
    Before(s, t);
    CheckStoppingShared(s, t);
    CheckStoppingOwn(s, t);
    ClaimKept(s, Next(s, CheckStopping(t)), t);
    SharedThreadStep(s, Next(s, CheckStopping(t)), t);
  }

  lemma CheckStoppingShared(s: State, t: ThreadId)
    requires Enabled(s, CheckStopping(t)) && Safe(s, CheckStopping(t)) && SharedOk(s)
    ensures Shared(s, Next(s, CheckStopping(t)), t)
  {
    LocalStep(s, Next(s, CheckStopping(t)), Next(s, CheckStopping(t)), t);
    hide FibersOk, QueueOk, ClientsOk, Spares;
  }

  lemma CheckStoppingOwn(s: State, t: ThreadId)
    requires Enabled(s, CheckStopping(t)) && Safe(s, CheckStopping(t)) && ThreadOk(s, t, s.threads[t])
    ensures var s' := Next(s, CheckStopping(t));
            && t in s'.threads && ThreadOk(s', t, s'.threads[t]) && s'.threads.Keys == s.threads.Keys + {t}
            && Claim(s'.threads[t]) == Claim(s.threads[t])
  {
  }

  // A fiber that nobody holds can go.
  lemma ReleasedFibers(s: State, f: FiberId)
    requires FibersOk(s) && QueueOk(s) && ClientsOk(s)
    requires f in s.roles && !s.roles[f].ThreadFiber? && !s.roles[f].RootFiber?
    ensures var s' := Released(s, f);
            && FibersOk(s') && QueueOk(s') && ClientsOk(s') && RolesGrow(s, s') && s'.threads == s.threads
            && (forall g :: g in s.fibers ==>
                  || (g in s'.fibers && s'.fibers[g] == s.fibers[g])
                  || (g !in s'.fibers && !InHand(s'.threads, g) && g == f))
  {
    var s' := Released(s, f);
    if s' != s {
      QueueKept(s, s');
      ClientsKept(s, s');
    }
  }

  lemma KeepsDrop(s: State, t: ThreadId)
    requires Inv(s) && Enabled(s, Drop(t)) && Safe(s, Drop(t))
    ensures Inv(Next(s, Drop(t)))
  {
    assert t in s.threads;
    hide *;
    Before(s, t);
    DropOwn(s, t);
    DropShared(s, t);
    SharedThreadStep(s, Next(s, Drop(t)), t);
  }

  lemma DropShared(s: State, t: ThreadId)
    requires Enabled(s, Drop(t)) && Safe(s, Drop(t)) && ThreadOk(s, t, s.threads[t]) && SharedOk(s)
    ensures Shared(s, Next(s, Drop(t)), t) && Next(s, Drop(t)).threads.Keys == s.threads.Keys + {t}
  {
    DropEffect(s, t);
    var s1, s', f := Dropped(s, t), Next(s, Drop(t)), InUse(s.threads[t]).value;
    hide FibersOk, QueueOk, ClientsOk, Released, Next, Safe, Enabled, ThreadOk, Spares, InUse;
    LocalStep(s, s1, s', t);
    ReleasedFibers(s1, f);
    ReleasedSpares(s, s1, s', t, f);
  }

  lemma DropEffect(s: State, t: ThreadId)
    requires Enabled(s, Drop(t)) && Safe(s, Drop(t)) && ThreadOk(s, t, s.threads[t])
    ensures var f := InUse(s.threads[t]);
            t in s.threads && f.Some? && HasRole(s, f.value, TaskFiber)
                && Next(s, Drop(t)) == Released(Dropped(s, t), f.value)
  {
  }

  lemma ReleasedSpares(s: State, s1: State, s': State, t: ThreadId, f: FiberId)
    requires t in s.threads && s1.fibers == s.fibers && s1.roles == s.roles
    requires s1.threads.Keys == s.threads.Keys && forall u :: u in s.threads && u != t ==> s1.threads[u] == s.threads[u]
    requires f in s.roles && !s.roles[f].ThreadFiber? && !s.roles[f].RootFiber?
    requires RolesGrow(s1, s') && s'.threads == s1.threads
    requires forall g :: g in s1.fibers ==>
               || (g in s'.fibers && s'.fibers[g] == s1.fibers[g])
               || (g !in s'.fibers && !InHand(s'.threads, g) && g == f)
    ensures Spares(s, s', t)
  {
  }

  lemma DropOwn(s: State, t: ThreadId)
    requires Enabled(s, Drop(t)) && Safe(s, Drop(t)) && ThreadOk(s, t, s.threads[t]) && FibersOk(s)
    ensures var s' := Next(s, Drop(t));
            t in s'.threads && ThreadOk(s', t, s'.threads[t]) && Claim(s'.threads[t]) == None
  {
  }

  // ---------- picking ----------

  lemma KeepsPickTask(s: State, t: ThreadId)
    requires Inv(s) && Enabled(s, PickTask(t)) && Safe(s, PickTask(t))
    ensures Inv(Next(s, PickTask(t)))
  {
    assert t in s.threads && ThreadsOk(s);
    hide *;
    Before(s, t);
    assert FibersOk(s) && QueueOk(s) by { SharedParts(s); }
    PickTaskOwn(s, t);
    PickTaskClaim(s, t);
    PickTaskShared(s, t);
    SharedThreadStep(s, Next(s, PickTask(t)), t);
  }

  lemma PickTaskOwn(s: State, t: ThreadId)
    requires Enabled(s, PickTask(t)) && Safe(s, PickTask(t)) && ThreadOk(s, t, s.threads[t]) && FibersOk(s)
    requires QueueOk(s)
    ensures var s' := Next(s, PickTask(t)); t in s'.threads && ThreadOk(s', t, s'.threads[t])
  {
    var k := FirstEligible(s.q.tasks, t, ExecFibers(s.fibers));
    if k < |s.q.tasks| {
      assert !s.q.tasks[k].work.NullWork?;
    }
  }

  lemma PickTaskClaim(s: State, t: ThreadId)
    requires ThreadsOk(s) && QueueOk(s) && Enabled(s, PickTask(t)) && Safe(s, PickTask(t))
    ensures var s' := Next(s, PickTask(t));
            Claim(s'.threads[t]).Some? ==>
              forall u :: u in s.threads && u != t ==> Claim(s.threads[u]) != Claim(s'.threads[t])
  {
    var s' := Next(s, PickTask(t));
    var k := FirstEligible(s.q.tasks, t, ExecFibers(s.fibers));
    if Claim(s'.threads[t]).Some? {
      var f := Claim(s'.threads[t]).value;
      assert s.q.tasks[k].work == FiberWork(f) && Queued(s.q, f);
      forall u | u in s.threads && u != t
        ensures Claim(s.threads[u]) != Some(f)
      {
        assert ThreadOk(s, u, s.threads[u]);
      }
    }
  }

  // Taking one task out of the queue.
  lemma QueueWithout(s: State, s': State, t: ThreadId, k: nat)
    requires QueueOk(s) && k < |s.q.tasks| && s'.q.tasks == s.q.tasks[..k] + s.q.tasks[k + 1..]
    requires s'.fibers == s.fibers && s'.roles == s.roles && t in s'.threads
    requires s'.threads == s.threads[t := s'.threads[t]]
    requires s'.threads[t].phase == Got && s'.threads[t].task == Some(s.q.tasks[k])
    ensures QueueOk(s')
  {
    var rest := s'.q.tasks;
    assert forall j :: 0 <= j < |rest| ==> rest[j] == s.q.tasks[if j < k then j else j + 1];
    forall u | u in s'.threads && s'.threads[u].phase == Got && Claim(s'.threads[u]).Some?
      ensures !Queued(s'.q, Claim(s'.threads[u]).value)
    {
      var f := Claim(s'.threads[u]).value;
      assert u != t ==> !Queued(s.q, f);
    }
  }

  lemma PickTaskShared(s: State, t: ThreadId)
    requires Enabled(s, PickTask(t)) && Safe(s, PickTask(t)) && SharedOk(s)
    ensures Shared(s, Next(s, PickTask(t)), t) && Next(s, PickTask(t)).threads.Keys == s.threads.Keys + {t}
  {
    var s' := Next(s, PickTask(t));
    var k := FirstEligible(s.q.tasks, t, ExecFibers(s.fibers));
    if k < |s.q.tasks| {
      QueueWithout(s, s', t, k);
      hide QueueOk;
    } else {
      LocalStep(s, s', s', t);
      hide QueueOk, FibersOk, ClientsOk, Spares;
    }
  }

  // ---------- leaving run() ----------

  lemma KeepsExit(s: State, t: ThreadId)
    requires Inv(s) && Enabled(s, Exit(t)) && Safe(s, Exit(t))
    ensures Inv(Next(s, Exit(t)))
  {
    assert t in s.threads;
    hide *;
    Before(s, t);
    ExitOwn(s, t);
    ExitShared(s, t);
    SharedThreadStep(s, Next(s, Exit(t)), t);
  }

  // The root fiber has ended, and the idle fiber is gone if this was its last handle.
  function AfterRoot(s: State, t: ThreadId): Heap
    requires t in s.threads && s.threads[t].locals.scheduler.Some? && s.threads[t].locals.scheduler.value in s.fibers
  {
    var c := s.threads[t].locals.scheduler.value;
    if s.threads[t].viaRoot then s.fibers[c := s.fibers[c].(hasCb := false, state := TERM, ctx := Saved(s.clock))]
    else s.fibers
  }

  lemma ExitState(s: State, t: ThreadId)
    requires Enabled(s, Exit(t)) && Safe(s, Exit(t)) && ThreadOk(s, t, s.threads[t])
    ensures var s', th, i := Next(s, Exit(t)), s.threads[t], s.threads[t].idle.value;
            && (s'.fibers == AfterRoot(s, t) || (s'.fibers == AfterRoot(s, t) - {i} && !InHand(s'.threads, i)
                && !Queued(s.q, i)))
            && s'.roles == s.roles && s'.clients == s.clients && s'.q == s.q
            && s'.accepted == s.accepted && s'.picks == s.picks && s'.done == s.done
            && (s'.destroyed == s.destroyed || (i !in s'.fibers && s'.destroyed == s.destroyed[i := TERM]))
            && t in s'.threads && s'.threads == s.threads[t := s'.threads[t]]
            && s'.threads[t] == th.(phase := Left, idle := None,
                                    locals := if th.viaRoot then th.locals.(cur := th.locals.thread) else th.locals)
  {
  }

  lemma ExitOwn(s: State, t: ThreadId)
    requires Enabled(s, Exit(t)) && Safe(s, Exit(t)) && ThreadOk(s, t, s.threads[t])
    ensures var s' := Next(s, Exit(t));
            && t in s'.threads && ThreadOk(s', t, s'.threads[t]) && s'.threads.Keys == s.threads.Keys + {t}
            && Claim(s'.threads[t]) == None
  {
    ExitState(s, t);
    hide Next, Safe;
  }

  lemma ExitShared(s: State, t: ThreadId)
    requires Enabled(s, Exit(t)) && Safe(s, Exit(t)) && ThreadOk(s, t, s.threads[t]) && SharedOk(s)
    ensures Shared(s, Next(s, Exit(t)), t)
  {
    ExitState(s, t);
    IdleNotQueued(s, t);
    var s', i, c := Next(s, Exit(t)), s.threads[t].idle.value, s.threads[t].locals.scheduler.value;
    assert s.roles[i] == IdleFiber(t) && Owner(s.roles[c]) == Some(t) && s.fibers[i].state == TERM;
    assert s.threads[t].viaRoot ==> s.roles[c] == RootFiber(t);
    hide Next, Safe, Enabled, ThreadOk;
    GoneOrEnded(s, s', t, i, c);
  }

  lemma GoneOrEnded(s: State, s': State, t: ThreadId, i: FiberId, c: FiberId)
    requires SharedOk(s) && t in s.threads && t in s'.threads && s'.threads == s.threads[t := s'.threads[t]]
    requires s'.threads[t].phase == Left && s'.q == s.q && s'.roles == s.roles && s'.clients == s.clients
    requires s.threads[t].locals.scheduler == Some(c) && c in s.fibers && Owner(s.roles[c]) == Some(t)
    requires s.threads[t].viaRoot ==> s.roles[c] == RootFiber(t)
    requires i in s.fibers && s.roles[i] == IdleFiber(t) && !Queued(s.q, i)
    requires s'.fibers == AfterRoot(s, t) || (s'.fibers == AfterRoot(s, t) - {i} && !InHand(s'.threads, i))
    requires s'.destroyed == s.destroyed || (i !in s'.fibers && s'.destroyed == s.destroyed[i := TERM])
    ensures Shared(s, s', t)
  {
    GoneSpares(s, s', t, i, c);
    hide Spares, FibersOk;
    assert forall f :: f in s.clients ==> f != i && (s.threads[t].viaRoot ==> f != c);
    ClientsKept(s, s');
    assert forall f :: f in s.fibers && Queued(s.q, f) ==> s.roles[f] == TaskFiber;
    QueueKept(s, s');
  }

  lemma GoneSpares(s: State, s': State, t: ThreadId, i: FiberId, c: FiberId)
    requires FibersOk(s) && t in s.threads && t in s'.threads && s'.threads == s.threads[t := s'.threads[t]]
    requires s'.roles == s.roles
    requires s.threads[t].locals.scheduler == Some(c) && c in s.fibers && Owner(s.roles[c]) == Some(t)
    requires i in s.fibers && s.roles[i] == IdleFiber(t)
    requires s'.fibers == AfterRoot(s, t) || (s'.fibers == AfterRoot(s, t) - {i} && !InHand(s'.threads, i))
    requires s'.destroyed == s.destroyed || (i !in s'.fibers && s'.destroyed == s.destroyed[i := TERM])
    ensures Spares(s, s', t) && FibersOk(s')
  {
    hide InHand;
  }

  // ---------- entering run() ----------

  lemma KeepsEnterRun(s: State, t: ThreadId, idle: FiberId)
    requires Inv(s) && Enabled(s, EnterRun(t, idle)) && Safe(s, EnterRun(t, idle))
    ensures Inv(Next(s, EnterRun(t, idle)))
  {
    assert t in s.threads;
    hide *;
    Before(s, t);
    SharedParts(s);
    EnterRunOwn(s, t, idle);
    EnterRunShared(s, t, idle);
    SharedThreadStep(s, Next(s, EnterRun(t, idle)), t);
  }

  lemma EnterRunOwn(s: State, t: ThreadId, idle: FiberId)
    requires Enabled(s, EnterRun(t, idle)) && Safe(s, EnterRun(t, idle)) && ThreadOk(s, t, s.threads[t]) && FibersOk(s)
    ensures var s' := Next(s, EnterRun(t, idle));
            t in s'.threads && ThreadOk(s', t, s'.threads[t]) && Claim(s'.threads[t]) == None
  {
  }

  lemma EnterRunShared(s: State, t: ThreadId, idle: FiberId)
    requires Enabled(s, EnterRun(t, idle)) && Safe(s, EnterRun(t, idle)) && ThreadOk(s, t, s.threads[t]) && SharedOk(s)
    ensures Shared(s, Next(s, EnterRun(t, idle)), t) && Next(s, EnterRun(t, idle)).threads.Keys == s.threads.Keys + {t}
  {
    var c := s.threads[t].locals.scheduler.value;
    var s1, s' := SwitchTo(s, t, c, AtHead), Next(s, EnterRun(t, idle));
    SharedSwitchTo(s, t, c, AtHead);
    assert s'.fibers == s1.fibers[idle := NewFiber(true)] && s'.roles == s1.roles[idle := IdleFiber(t)];
    assert s1.roles == s.roles && s'.clients == s1.clients && s'.destroyed == s1.destroyed && s'.q == s1.q;
    assert s'.threads == s1.threads[t := s'.threads[t]] && s1.threads == s.threads[t := s1.threads[t]];
    assert s1.threads[t].phase == AtHead && s'.threads[t].phase == AtHead;
    hide Next, SwitchTo, Enabled, Safe, ThreadOk;
    NewFiberShared(s, s1, s', t, idle, IdleFiber(t));
  }

  lemma NewFiberShared(s: State, s1: State, s': State, t: ThreadId, f: FiberId, r: Role)
    requires Shared(s, s1, t) && f !in s1.roles && (forall g :: g in s.fibers ==> g in s1.fibers) && FibersOk(s)
    requires s'.fibers == s1.fibers[f := NewFiber(true)] && s'.roles == s1.roles[f := r]
    requires s'.clients == s1.clients && s'.destroyed == s1.destroyed && s'.q == s1.q
    requires t in s1.threads && t in s'.threads && s'.threads == s1.threads[t := s'.threads[t]]
    requires s'.threads[t].phase == AtHead
    ensures Shared(s, s', t)
  {
    NewFiberSpares(s, s1, s', t, f);
    assert FibersOk(s') by { hide QueueOk, ClientsOk, Spares; }
    hide Spares, FibersOk;
    QueueKept(s1, s');
    hide QueueOk;
    ClientsKept(s1, s');
  }

  lemma NewFiberSpares(s: State, s1: State, s': State, t: ThreadId, f: FiberId)
    requires Spares(s, s1, t) && f !in s1.roles && (forall g :: g in s.fibers ==> g in s1.fibers && g in s.roles)
    requires s'.fibers == s1.fibers[f := NewFiber(true)] && f in s'.roles && RolesGrow(s1, s')
    requires t in s1.threads && t in s'.threads && s'.threads == s1.threads[t := s'.threads[t]]
    ensures Spares(s, s', t)
  {
    hide Mine;
  }

  lemma KeepsStartWorker(s: State, t: ThreadId, m: FiberId, idle: FiberId)
    requires Inv(s) && Enabled(s, StartWorker(t, m, idle))
    ensures Inv(Next(s, StartWorker(t, m, idle)))
  {
    assert SharedOk(s);
    hide *;
    StartWorkerShared(s, t, m, idle);
    StartWorkerOwn(s, t, m, idle);
    SharedThreadStep(s, Next(s, StartWorker(t, m, idle)), t);
  }

  lemma StartWorkerOwn(s: State, t: ThreadId, m: FiberId, idle: FiberId)
    requires Enabled(s, StartWorker(t, m, idle))
    ensures var s' := Next(s, StartWorker(t, m, idle));
            t in s'.threads && ThreadOk(s', t, s'.threads[t]) && Claim(s'.threads[t]) == None
  {
  }

  lemma StartWorkerShared(s: State, t: ThreadId, m: FiberId, idle: FiberId)
    requires Enabled(s, StartWorker(t, m, idle)) && SharedOk(s)
    ensures var s' := Next(s, StartWorker(t, m, idle)); Shared(s, s', t) && s'.threads.Keys == s.threads.Keys + {t}
  {
    var s' := Next(s, StartWorker(t, m, idle));
    StartWorkerSpares(s, t, m, idle);
    hide Spares, FibersOk;
    QueueKept(s, s');
    hide QueueOk;
    ClientsKept(s, s');
  }

  lemma StartWorkerSpares(s: State, t: ThreadId, m: FiberId, idle: FiberId)
    requires Enabled(s, StartWorker(t, m, idle)) && FibersOk(s)
    ensures var s' := Next(s, StartWorker(t, m, idle)); Spares(s, s', t) && FibersOk(s')
  {
  }

  // ---------- steps outside the threads ----------

  // Fibers may appear, and unheld ones may go; everything else stays.
  predicate SparesAll(s: State, s': State) {
    && RolesGrow(s, s') && s'.threads == s.threads
    && (forall f :: f in s.fibers ==>
          || (f in s'.fibers && s'.fibers[f] == s.fibers[f])
          || (f !in s'.fibers && !InHand(s.threads, f) && f in s.roles && s.roles[f].TaskFiber?))
  }

  lemma QuietStep(s: State, s': State)
    requires Inv(s) && SparesAll(s, s') && SharedOk(s')
    ensures Inv(s')
  {
    forall u | u in s'.threads
      ensures ThreadOk(s', u, s'.threads[u])
    {
      assert Spares(s, s', u + 1);
      hide ThreadOk, Spares, SparesAll, FibersOk;
      OtherThread(s, s', u + 1, u);
    }
    hide ThreadOk, SharedOk;
  }

  lemma KeepsCreateFiber(s: State, f: FiberId)
    requires Inv(s) && Enabled(s, CreateFiber(f))
    ensures Inv(Next(s, CreateFiber(f)))
  {
    var s' := Next(s, CreateFiber(f));
    assert FibersOk(s') && ClientsOk(s') && SparesAll(s, s');
    hide FibersOk, ClientsOk, SparesAll, ThreadsOk;
    QueueKept(s, s');
    hide *;
    QuietStep(s, s');
  }

  lemma KeepsDropHandle(s: State, f: FiberId)
    requires Inv(s) && Enabled(s, DropHandle(f)) && Safe(s, DropHandle(f))
    ensures Inv(Next(s, DropHandle(f)))
  {
    var s1, s' := s.(clients := s.clients - {f}), Next(s, DropHandle(f));
    assert s' == Released(s1, f) && SharedOk(s) && f in s.clients;
    hide *;
    DroppedHandle(s, s1, f);
    ReleasedAll(s, s1, f);
    QuietStep(s, s');
  }

  lemma DroppedHandle(s: State, s1: State, f: FiberId)
    requires SharedOk(s) && f in s.clients && s1 == s.(clients := s.clients - {f})
    ensures SharedOk(s1) && f in s1.roles && s1.roles[f].TaskFiber?
  {
    QueueKept(s, s1);
    hide QueueOk;
  }

  lemma ReleasedAll(s: State, s1: State, f: FiberId)
    requires SharedOk(s1) && f in s1.roles && s1.roles[f].TaskFiber? && s1 == s.(clients := s.clients - {f})
    ensures SharedOk(Released(s1, f)) && SparesAll(s, Released(s1, f))
  {
    ReleasedFibers(s1, f);
    hide Released, QueueOk, ClientsOk, FibersOk;
  }

  lemma KeepsShareSelf(s: State, t: ThreadId)
    requires Inv(s) && Enabled(s, ShareSelf(t)) && Safe(s, ShareSelf(t))
    ensures Inv(Next(s, ShareSelf(t)))
  {
    var s' := Next(s, ShareSelf(t));
    assert ThreadOk(s, t, s.threads[t]);
    assert FibersOk(s') && ClientsOk(s') && SparesAll(s, s');
    hide FibersOk, ClientsOk, SparesAll, ThreadsOk, ThreadOk;
    QueueKept(s, s');
    hide *;
    QuietStep(s, s');
  }

  lemma KeepsBeginStop(s: State)
    requires Inv(s) && Enabled(s, BeginStop) && Safe(s, BeginStop)
    ensures Inv(Next(s, BeginStop))
  {
    var s' := Next(s, BeginStop);
    assert FibersOk(s') && ClientsOk(s') && SparesAll(s, s');
    hide FibersOk, ClientsOk, SparesAll, ThreadsOk;
    QueueKept(s, s');
    hide *;
    QuietStep(s, s');
  }

  lemma KeepsPool(s: State, act: Act)
    requires act.Start? || act == TakePool
    requires Inv(s) && Enabled(s, act) && Safe(s, act)
    ensures Inv(Next(s, act))
  {
    var s' := Next(s, act);
    assert FibersOk(s') && ClientsOk(s') && SparesAll(s, s');
    hide FibersOk, ClientsOk, SparesAll, ThreadsOk;
    QueueKept(s, s');
    hide *;
    QuietStep(s, s');
  }

  // Scheduling touches the queue and nothing else.
  lemma {:induction false} ScheduleAllSame(s: State, batch: seq<(Work, Option<ThreadId>)>)
    ensures var s' := ScheduleAll(s, batch);
            && s' == s.(q := s'.q, accepted := s'.accepted)
            && s'.q == s.q.(tasks := s'.q.tasks, tickets := s'.q.tickets)
    decreases |batch|
  {
    if batch != [] {
      ScheduleAllSame(ScheduleOne(s, batch[0].0, batch[0].1), batch[1..]);
    }
  }

  lemma KeepsScheduleOne(s: State, who: Option<ThreadId>, work: Work, pin: Option<ThreadId>)
    requires Inv(s) && MaySchedule(s, who, work) && (work.FiberWork? ==> work.fiber in s.fibers)
    ensures Inv(ScheduleOne(s, work, pin))
  {
    var s' := ScheduleOne(s, work, pin);
    if !work.NullWork? {
      ScheduleOneQueue(s, who, work, pin);
      assert FibersOk(s') && ClientsOk(s') && SparesAll(s, s');
      hide *;
      QuietStep(s, s');
    }
  }

  lemma ScheduleOneQueue(s: State, who: Option<ThreadId>, work: Work, pin: Option<ThreadId>)
    requires QueueOk(s) && MaySchedule(s, who, work) && (work.FiberWork? ==> work.fiber in s.fibers) && !work.NullWork?
    ensures QueueOk(ScheduleOne(s, work, pin))
  {
    var s' := ScheduleOne(s, work, pin);
    var n := |s.q.tasks|;
    assert forall j :: 0 <= j < n ==> s'.q.tasks[j] == s.q.tasks[j];
    forall t | t in s'.threads && s'.threads[t].phase == Got && Claim(s'.threads[t]).Some?
      ensures !Queued(s'.q, Claim(s'.threads[t]).value)
    {
      var f := Claim(s.threads[t]).value;
      assert !Queued(s.q, f);
    }
    assert work.FiberWork? ==> forall j :: 0 <= j < n ==> s.q.tasks[j].work != work;
  }

  lemma {:induction false} KeepsScheduleAll(s: State, who: Option<ThreadId>, batch: seq<(Work, Option<ThreadId>)>)
    requires Inv(s) && MayScheduleAll(s, who, batch) && BatchAlive(s, batch)
    ensures Inv(ScheduleAll(s, batch)) && ScheduleAll(s, batch).clients == s.clients
    decreases |batch|
  {
    if batch != [] {
      var s1 := ScheduleOne(s, batch[0].0, batch[0].1);
      KeepsScheduleOne(s, who, batch[0].0, batch[0].1);
      assert s1.clients == s.clients && BatchAlive(s1, batch[1..]);
      hide Inv, ScheduleOne, MaySchedule;
      KeepsScheduleAll(s1, who, batch[1..]);
    }
  }

  lemma KeepsSchedule(s: State, act: Act)
    requires act.Schedule? && Inv(s) && Enabled(s, act) && Safe(s, act)
    ensures Inv(Next(s, act))
  {
    KeepsScheduleAll(s, act.who, act.batch);
    var s1, s' := ScheduleAll(s, act.batch), Next(s, act);
    hide ScheduleAll, ThreadsOk, Enabled, Safe, Next;
    FewerClients(s1, act.moved);
  }

  lemma FewerClients(s: State, moved: set<FiberId>)
    requires Inv(s)
    ensures Inv(s.(clients := s.clients - moved))
  {
    var s' := s.(clients := s.clients - moved);
    assert FibersOk(s') && ClientsOk(s') && SparesAll(s, s');
    hide FibersOk, ClientsOk, SparesAll, ThreadsOk;
    QueueKept(s, s');
    hide *;
    QuietStep(s, s');
  }

  lemma InitialInv(useCaller: bool)
    ensures Inv(Initial(useCaller))
  {
  }
}
