/**
 Who keeps a fiber alive.  A fiber that has started and not finished holds a handle on
 itself in the frame of its own MainFunc, so it outlives every other handle; it lets go just
 before its last yield, when its resumer still holds it.
 */
module MachineOwnership {
  import opened Outcomes
  import opened Fibers
  import opened Scheduling
  import opened Machine
  import opened MachineThreads

  predicate Unfinished(r: Rec) {
    r.state == EXEC || (r.state == READY && r.ctx.Saved?)
  }

  // The handles in the frames of MainFunc are exactly those of the unfinished fibers.
  predicate FramesOk(s: State) {
    && (forall f :: f in s.frames ==> f in s.fibers && f in s.roles && !s.roles[f].ThreadFiber?)
    && (forall f :: f in s.fibers && f in s.roles && !s.roles[f].ThreadFiber? ==>
          (f in s.frames <==> Unfinished(s.fibers[f])))
  }

  predicate PickedBySome(s: State, f: FiberId) {
    exists t :: t in s.threads && s.threads[t].phase == Got && Claim(s.threads[t]) == Some(f)
  }

  // A fiber that was scheduled and has not started yet is in the queue or in hand.
  predicate AcceptedOk(s: State) {
    && (forall j :: 0 <= j < |s.accepted| && s.accepted[j].work.FiberWork? ==> s.accepted[j].work.fiber in s.roles)
    && (forall f :: f in s.fibers && s.fibers[f].state == READY && s.fibers[f].ctx == Entry && WasScheduled(s, f) ==>
          Queued(s.q, f) || PickedBySome(s, f))
  }

  // No fiber was ever destroyed but in its final state.
  predicate DestroyedOk(s: State) {
    forall f :: f in s.destroyed ==> s.destroyed[f] == TERM
  }

  predicate OwnInv(s: State) {
    FramesOk(s) && AcceptedOk(s) && DestroyedOk(s)
  }

  // ---------- frames ----------

  lemma FramesSwitchTo(s: State, t: ThreadId, f: FiberId, phase: Phase)
    requires FramesOk(s) && FibersOk(s) && t in s.threads && CanResume(s.fibers, s.threads[t].locals, f)
    requires !s.roles[f].ThreadFiber? && s.fibers[f].ctx != Unset
    requires var m := MainFiber(s.fibers[f], s.threads[t].locals).value;
             m in s.roles && m != f && (s.roles[m].ThreadFiber? || s.fibers[m].state == EXEC)
    ensures FramesOk(SwitchTo(s, t, f, phase))
  {
  }

  lemma FramesSwitchBack(s: State, t: ThreadId, f: FiberId, ends: bool, phase: Phase)
    requires FramesOk(s) && FibersOk(s) && t in s.threads && f in s.fibers && !s.roles[f].ThreadFiber?
    requires s.fibers[f].state == EXEC
    ensures FramesOk(SwitchBack(s, t, f, ends, phase))
  {
  }

  lemma FramesSame(s: State, s': State)
    requires FramesOk(s) && s'.fibers == s.fibers && s'.roles == s.roles && s'.frames == s.frames
    ensures FramesOk(s')
  {
  }

  lemma FramesNew(s: State, s': State, f: FiberId, r: Role, rec: Rec)
    requires !Unfinished(rec)
    requires FramesOk(s) && FibersOk(s) && f !in s.roles
    requires s'.fibers == s.fibers[f := rec] && s'.roles == s.roles[f := r] && s'.frames == s.frames
    ensures FramesOk(s')
  {
  }

  lemma FramesReleased(s: State, f: FiberId)
    requires FramesOk(s)
    ensures FramesOk(Released(s, f))
  {
  }

  lemma KeepsFrames(s: State, act: Act)
    requires Inv(s) && FramesOk(s) && Enabled(s, act) && Safe(s, act)
    ensures FramesOk(Next(s, act))
  {
    hide *;
    match act
    case CreateFiber(f) => FramesCreate(s, f);
    case DropHandle(f) => FramesDropHandle(s, f);
    case ShareSelf(_) => FramesLocal(s, act);
    case Schedule(_, batch, _) => FramesSchedule(s, act);
    case BeginStop => FramesLocal(s, act);
    case Start(_) => FramesLocal(s, act);
    case TakePool => FramesLocal(s, act);
    case EnterRun(t, idle) => FramesEnterRun(s, t, idle);
    case StartWorker(t, m, idle) => FramesStartWorker(s, t, m, idle);
    case PickTask(_) => FramesLocal(s, act);
    case ResumeTask(t) => FramesResumeTask(s, t);
    case StartCallback(t, f) => FramesStartCallback(s, t, f);
    case Yield(t) => FramesYield(s, t);
    case Finish(t) => FramesFinish(s, t);
    case Decrement(_) => FramesLocal(s, act);
    case Drop(t) => FramesDrop(s, t);
    case ResumeIdle(t) => FramesResumeIdle(s, t);
    case CheckStopping(_) => FramesLocal(s, act);
    case LeaveIdle(t) => FramesLeaveIdle(s, t);
    case Exit(t) => FramesExit(s, t);
  }

  lemma FramesLocal(s: State, act: Act)
    requires act.ShareSelf? || act.BeginStop? || act.Start? || act.TakePool? || act.PickTask?
        || act.Decrement? || act.CheckStopping?
    requires FramesOk(s) && Enabled(s, act) && Safe(s, act)
    ensures FramesOk(Next(s, act))
  {
    var s' := Next(s, act);
    assert s'.fibers == s.fibers && s'.roles == s.roles && s'.frames == s.frames;
    hide *;
    FramesSame(s, s');
  }

  lemma FramesCreate(s: State, f: FiberId)
    requires Inv(s) && FramesOk(s) && Enabled(s, CreateFiber(f))
    ensures FramesOk(Next(s, CreateFiber(f)))
  {
    FramesNew(s, Next(s, CreateFiber(f)), f, TaskFiber, NewFiber(true));
  }

  lemma FramesDropHandle(s: State, f: FiberId)
    requires FramesOk(s) && Enabled(s, DropHandle(f)) && Safe(s, DropHandle(f))
    ensures FramesOk(Next(s, DropHandle(f)))
  {
    FramesReleased(s.(clients := s.clients - {f}), f);
  }

  lemma FramesSchedule(s: State, act: Act)
    requires act.Schedule? && FramesOk(s) && Enabled(s, act) && Safe(s, act)
    ensures FramesOk(Next(s, act))
  {
    ScheduleAllSame(s, act.batch);
    var s' := Next(s, act);
    assert s'.fibers == s.fibers && s'.roles == s.roles && s'.frames == s.frames;
    hide *;
    FramesSame(s, s');
  }

  lemma FramesEnterRun(s: State, t: ThreadId, idle: FiberId)
    requires Inv(s) && FramesOk(s) && Enabled(s, EnterRun(t, idle)) && Safe(s, EnterRun(t, idle))
    ensures FramesOk(Next(s, EnterRun(t, idle)))
  {
    var c := s.threads[t].locals.scheduler.value;
    var s1, s' := SwitchTo(s, t, c, AtHead), Next(s, EnterRun(t, idle));
    assert ThreadOk(s, t, s.threads[t]);
    assert s'.fibers == s1.fibers[idle := NewFiber(true)] && s'.roles == s1.roles[idle := IdleFiber(t)];
    assert s'.frames == s1.frames && s1.roles == s.roles;
    FramesSwitchTo(s, t, c, AtHead);
    SwitchToSpares(s, t, c, AtHead);
    hide *;
    FramesNew(s1, s', idle, IdleFiber(t), NewFiber(true)) by { NewIsNotUnfinished(); }
  }

  lemma NewIsNotUnfinished()
    ensures !Unfinished(NewFiber(true))
  {
  }

  lemma FramesStartWorker(s: State, t: ThreadId, m: FiberId, idle: FiberId)
    requires Inv(s) && FramesOk(s) && Enabled(s, StartWorker(t, m, idle))
    ensures FramesOk(Next(s, StartWorker(t, m, idle)))
  {
  }

  lemma FramesResumeTask(s: State, t: ThreadId)
    requires Inv(s) && FramesOk(s) && Enabled(s, ResumeTask(t)) && Safe(s, ResumeTask(t))
    ensures FramesOk(Next(s, ResumeTask(t)))
  {
    var f := s.threads[t].task.value.work.fiber;
    assert ThreadOk(s, t, s.threads[t]);
    hide ThreadsOk, QueueOk, ClientsOk, ClaimsApart, Unfinished;
    FramesSwitchTo(s, t, f, Running(f, s.clock));
  }

  lemma FramesStartCallback(s: State, t: ThreadId, f: FiberId)
    requires Inv(s) && FramesOk(s) && Enabled(s, StartCallback(t, f)) && Safe(s, StartCallback(t, f))
    ensures FramesOk(Next(s, StartCallback(t, f)))
  {
    assert ThreadOk(s, t, s.threads[t]);
    StartedFibers(s, t, f);
    assert f !in s.roles && FibersOk(s);
    hide Next, Safe, Enabled, Inv, ThreadOk;
    FramesFreshAndMain(s, Next(s, StartCallback(t, f)), f, s.threads[t].locals.scheduler.value, s.clock);
  }

  lemma FramesFreshAndMain(s: State, s': State, f: FiberId, c: FiberId, k: nat)
    requires FramesOk(s) && FibersOk(s) && f !in s.roles && c in s.fibers
    requires s.roles[c].ThreadFiber? || s.fibers[c].state == EXEC
    requires s'.fibers == s.fibers[f := NewFiber(true).(state := EXEC)][c := s.fibers[c].(ctx := Saved(k))]
    requires s'.roles == s.roles[f := TaskFiber] && s'.frames == s.frames + {f}
    ensures FramesOk(s')
  {
  }

  lemma FramesYield(s: State, t: ThreadId)
    requires Inv(s) && FramesOk(s) && Enabled(s, Yield(t)) && Safe(s, Yield(t))
    ensures FramesOk(Next(s, Yield(t)))
  {
    assert ThreadOk(s, t, s.threads[t]);
    hide ThreadsOk, QueueOk, ClientsOk, ClaimsApart, Unfinished;
    FramesSwitchBack(s, t, s.threads[t].phase.fiber, false, Returned);
  }

  lemma FramesFinish(s: State, t: ThreadId)
    requires Inv(s) && FramesOk(s) && Enabled(s, Finish(t)) && Safe(s, Finish(t))
    ensures FramesOk(Next(s, Finish(t)))
  {
    assert ThreadOk(s, t, s.threads[t]);
    hide ThreadsOk, QueueOk, ClientsOk, ClaimsApart, Unfinished;
    FramesSwitchBack(s, t, s.threads[t].phase.fiber, true, Returned);
  }

  lemma FramesDrop(s: State, t: ThreadId)
    requires FramesOk(s) && Enabled(s, Drop(t)) && Safe(s, Drop(t))
    ensures FramesOk(Next(s, Drop(t)))
  {
    FramesSame(s, Dropped(s, t));
    FramesReleased(Dropped(s, t), InUse(s.threads[t]).value);
  }

  lemma FramesResumeIdle(s: State, t: ThreadId)
    requires Inv(s) && FramesOk(s) && Enabled(s, ResumeIdle(t)) && Safe(s, ResumeIdle(t))
    ensures FramesOk(Next(s, ResumeIdle(t)))
  {
    ResumeIdleIs(s, t);
    hide *;
    IdleStarts(s, t);
    var s1, i := s.(q := s.q.(idle := s.q.idle + 1)), s.threads[t].idle.value;
    SameFibers(s, s1);
    FramesSame(s, s1);
    FramesSwitchTo(s1, t, i, Idling(s.clock));
  }

  lemma SameFibers(s: State, s': State)
    requires FibersOk(s) && s'.fibers == s.fibers && s'.roles == s.roles && s'.destroyed == s.destroyed
    ensures FibersOk(s')
  {
  }

  lemma ResumeIdleIs(s: State, t: ThreadId)
    requires Enabled(s, ResumeIdle(t)) && Safe(s, ResumeIdle(t))
    ensures t in s.threads && s.threads[t].idle.Some? && CanResume(s.fibers, s.threads[t].locals,
        s.threads[t].idle.value)
    ensures Next(s, ResumeIdle(t)) ==
            SwitchTo(s.(q := s.q.(idle := s.q.idle + 1)), t, s.threads[t].idle.value, Idling(s.clock))
  {
  }

  lemma IdleStarts(s: State, t: ThreadId)
    requires Inv(s) && Enabled(s, ResumeIdle(t)) && Safe(s, ResumeIdle(t))
    ensures var l, i := s.threads[t].locals, s.threads[t].idle;
            && FibersOk(s) && i.Some? && CanResume(s.fibers, l, i.value)
            && i.value in s.roles && !s.roles[i.value].ThreadFiber? && s.fibers[i.value].ctx != Unset
            && var m := MainFiber(s.fibers[i.value], l).value;
               m in s.roles && m != i.value && (s.roles[m].ThreadFiber? || s.fibers[m].state == EXEC)
  {
    assert t in s.threads;
    Before(s, t);
    hide ThreadsOk, QueueOk, ClientsOk, ClaimsApart, ControlOk, HandOk;
  }

  lemma FramesLeaveIdle(s: State, t: ThreadId)
    requires Inv(s) && FramesOk(s) && Enabled(s, LeaveIdle(t)) && Safe(s, LeaveIdle(t))
    ensures FramesOk(Next(s, LeaveIdle(t)))
  {
    LeaveIdleIs(s, t);
    var th := s.threads[t];
    assert InIdle(th);
    hide *;
    IdleRuns(s, t);
    var s1, s' := SwitchBack(s, t, th.idle.value, th.phase.stop, AtHead), Next(s, LeaveIdle(t));
    FramesSwitchBack(s, t, th.idle.value, th.phase.stop, AtHead);
    FramesSame(s1, s');
  }

  lemma LeaveIdleIs(s: State, t: ThreadId)
    requires Enabled(s, LeaveIdle(t)) && Safe(s, LeaveIdle(t))
    ensures t in s.threads && s.threads[t].phase.IdleKnows? && s.threads[t].idle.Some?
    ensures s.threads[t].idle.value in s.fibers
    ensures var th, s' := s.threads[t], Next(s, LeaveIdle(t));
            s' == SwitchBack(s, t, th.idle.value, th.phase.stop, AtHead).(q := s'.q)
  {
  }

  lemma IdleRuns(s: State, t: ThreadId)
    requires Inv(s) && t in s.threads && InIdle(s.threads[t])
    ensures var i := s.threads[t].idle;
            && FibersOk(s) && i.Some? && i.value in s.fibers && i.value in s.roles
            && !s.roles[i.value].ThreadFiber? && s.fibers[i.value].state == EXEC
  {
    Before(s, t);
    hide ThreadsOk, QueueOk, ClientsOk, ClaimsApart;
  }

  lemma FramesExit(s: State, t: ThreadId)
    requires Inv(s) && FramesOk(s) && Enabled(s, Exit(t)) && Safe(s, Exit(t))
    ensures FramesOk(Next(s, Exit(t)))
  {
    var th := s.threads[t];
    assert ThreadOk(s, t, th);
    ExitIsRelease(s, t);
    hide ThreadsOk, QueueOk, ClientsOk, ClaimsApart, Unfinished, Next, FramesOk, IdleOk, HandOk, ControlOk;
    if th.viaRoot {
      FramesSwitchBack(s, t, th.locals.scheduler.value, true, NoTask);
    }
    hide *;
    FramesSame(BeforeRelease(s, t), IdleDropped(BeforeRelease(s, t), t)) by { IdleDroppedSame(BeforeRelease(s, t), t); }
    FramesReleased(IdleDropped(BeforeRelease(s, t), t), th.idle.value);
  }

  function BeforeRelease(s: State, t: ThreadId): State
    requires Enabled(s, Exit(t)) && Safe(s, Exit(t))
  {
    if s.threads[t].viaRoot then SwitchBack(s, t, s.threads[t].locals.scheduler.value, true, NoTask) else s
  }

  lemma ExitIsRelease(s: State, t: ThreadId)
    requires Enabled(s, Exit(t)) && Safe(s, Exit(t))
    ensures Next(s, Exit(t)) == Released(IdleDropped(BeforeRelease(s, t), t), s.threads[t].idle.value)
    ensures t in BeforeRelease(s, t).threads
  {
  }

  lemma IdleDroppedSame(s: State, t: ThreadId)
    requires t in s.threads
    ensures var s' := IdleDropped(s, t); s'.fibers == s.fibers && s'.roles == s.roles && s'.frames == s.frames
  {
  }

  // ---------- accepted fibers ----------

  // Steps that queue nothing and take nothing away keep the promise if they do not make a
  // fiber unstarted, and if a fiber that was picked has started.
  lemma AcceptedKept(s: State, s': State)
    requires AcceptedOk(s) && RolesGrow(s, s') && s'.accepted == s.accepted && s'.q.tasks == s.q.tasks
    requires forall f :: f in s'.fibers && s'.fibers[f].state == READY && s'.fibers[f].ctx == Entry ==>
               f !in s.roles || (f in s.fibers && s.fibers[f] == s'.fibers[f] && (PickedBySome(s, f) ==>
                   PickedBySome(s', f)))
    ensures AcceptedOk(s')
  {
    hide PickedBySome;
    assert forall f :: WasScheduled(s', f) ==> WasScheduled(s, f) && f in s.roles;
    assert forall f :: Queued(s.q, f) ==> Queued(s'.q, f);
  }

  lemma PickedKept(s: State, s': State, f: FiberId)
    requires forall t :: t in s.threads && s.threads[t].phase == Got && Claim(s.threads[t]) == Some(f) ==>
               t in s'.threads && s'.threads[t].phase == Got && Claim(s'.threads[t]) == Some(f)
    ensures PickedBySome(s, f) ==> PickedBySome(s', f)
  {
  }

  // A step of thread t that makes no old fiber unstarted; if t had picked a fiber, it has
  // started it.
  lemma AcceptedThread(s: State, s': State, t: ThreadId)
    requires AcceptedOk(s) && RolesGrow(s, s') && s'.accepted == s.accepted && s'.q.tasks == s.q.tasks
    requires forall u :: u in s.threads && u != t ==> u in s'.threads && s'.threads[u] == s.threads[u]
    requires forall f :: f in s'.fibers && s'.fibers[f].state == READY && s'.fibers[f].ctx == Entry ==>
               || f !in s.roles
               || (f in s.fibers && s.fibers[f] == s'.fibers[f]
                   && !(t in s.threads && s.threads[t].phase == Got && Claim(s.threads[t]) == Some(f)))
    ensures AcceptedOk(s')
  {
    forall f | f in s'.fibers && s'.fibers[f].state == READY && s'.fibers[f].ctx == Entry && f in s.roles
      ensures f in s.fibers && s.fibers[f] == s'.fibers[f] && (PickedBySome(s, f) ==> PickedBySome(s', f))
    {
      PickedKept(s, s', f);
    }
    hide PickedBySome, Claim;
    AcceptedKept(s, s');
  }

  lemma KeepsAccepted(s: State, act: Act)
    requires Inv(s) && AcceptedOk(s) && Enabled(s, act) && Safe(s, act)
    ensures AcceptedOk(Next(s, act))
  {
    assert FibersOk(s);
    hide *;
    match act
    case CreateFiber(_) => AcceptedQuiet(s, act);
    case DropHandle(_) => AcceptedQuiet(s, act);
    case ShareSelf(_) => AcceptedQuiet(s, act);
    case Schedule(_, _, _) => AcceptedSchedule(s, act);
    case BeginStop => AcceptedQuiet(s, act);
    case Start(_) => AcceptedQuiet(s, act);
    case TakePool => AcceptedQuiet(s, act);
    case StartWorker(t, m, idle) => AcceptedStartWorker(s, t, m, idle);
    case _ => AcceptedByThread(s, act);
  }

  lemma AcceptedByThread(s: State, act: Act)
    requires !act.CreateFiber? && !act.DropHandle? && !act.ShareSelf? && !act.Schedule? && !act.BeginStop?
    requires !act.Start? && !act.TakePool? && !act.StartWorker?
    requires Inv(s) && AcceptedOk(s) && FibersOk(s) && Enabled(s, act) && Safe(s, act)
    ensures AcceptedOk(Next(s, act))
  {
    hide *;
    match act
    case EnterRun(t, idle) => AcceptedEnterRun(s, t, idle);
    case PickTask(t) => AcceptedPickTask(s, t);
    case ResumeTask(t) => AcceptedResumeTask(s, t);
    case StartCallback(t, f) => AcceptedStartCallback(s, t, f);
    case Yield(t) => AcceptedSwitchBack(s, t, act);
    case Finish(t) => AcceptedSwitchBack(s, t, act);
    case Decrement(t) => AcceptedSwitchBack(s, t, act);
    case Drop(t) => AcceptedSwitchBack(s, t, act);
    case ResumeIdle(t) => AcceptedResumeIdle(s, t);
    case CheckStopping(t) => AcceptedSwitchBack(s, t, act);
    case LeaveIdle(t) => AcceptedSwitchBack(s, t, act);
    case Exit(t) => AcceptedExit(s, t);
  }

  lemma AcceptedStartWorker(s: State, t: ThreadId, m: FiberId, idle: FiberId)
    requires AcceptedOk(s) && Enabled(s, StartWorker(t, m, idle))
    ensures AcceptedOk(Next(s, StartWorker(t, m, idle)))
  {
    AcceptedThread(s, Next(s, StartWorker(t, m, idle)), t);
  }

  lemma AcceptedSchedule(s: State, act: Act)
    requires act.Schedule? && AcceptedOk(s) && Enabled(s, act) && Safe(s, act)
    ensures AcceptedOk(Next(s, act))
  {
    AcceptedScheduleAll(s, act.who, act.batch);
    hide AcceptedOk, ScheduleAll;
    AcceptedClients(ScheduleAll(s, act.batch), act.moved);
  }

  lemma AcceptedQuiet(s: State, act: Act)
    requires act.CreateFiber? || act.DropHandle? || act.ShareSelf? || act.BeginStop? || act.Start? || act.TakePool?
    requires AcceptedOk(s) && FibersOk(s) && Enabled(s, act) && Safe(s, act)
    ensures AcceptedOk(Next(s, act))
  {
    var s' := Next(s, act);
    assert forall f :: PickedBySome(s, f) ==> PickedBySome(s', f);
    AcceptedKept(s, s');
  }

  lemma AcceptedSwitchBack(s: State, t: ThreadId, act: Act)
    requires act == Yield(t) || act == Finish(t) || act == Decrement(t) || act == Drop(t)
        || act == CheckStopping(t) || act == LeaveIdle(t)
    requires AcceptedOk(s) && FibersOk(s) && Enabled(s, act) && Safe(s, act)
    ensures AcceptedOk(Next(s, act))
  {
    hide *;
    if act == Decrement(t) || act == Drop(t) || act == CheckStopping(t) {
      LocalEffect(s, t, act);
    } else {
      SwitchBackEffect(s, t, act);
    }
    AcceptedThread(s, Next(s, act), t);
  }

  lemma LocalEffect(s: State, t: ThreadId, act: Act)
    requires act == Decrement(t) || act == Drop(t) || act == CheckStopping(t)
    requires FibersOk(s) && Enabled(s, act) && Safe(s, act)
    ensures var s' := Next(s, act);
            && (forall f :: f in s'.fibers ==> f in s.fibers && f in s.roles && s.fibers[f] == s'.fibers[f])
            && s'.accepted == s.accepted && s'.q.tasks == s.q.tasks && RolesGrow(s, s')
            && t in s.threads && s.threads[t].phase != Got
            && (forall u :: u in s.threads && u != t ==> u in s'.threads && s'.threads[u] == s.threads[u])
  {
    hide Held;
  }

  lemma SwitchBackEffect(s: State, t: ThreadId, act: Act)
    requires act == Yield(t) || act == Finish(t) || act == LeaveIdle(t)
    requires FibersOk(s) && Enabled(s, act) && Safe(s, act)
    ensures var s' := Next(s, act);
            && (forall f :: f in s'.fibers ==>
                  && f in s.fibers && f in s.roles
                  && (s.fibers[f] == s'.fibers[f] || s'.fibers[f].ctx.Saved?))
            && s'.accepted == s.accepted && s'.q.tasks == s.q.tasks && RolesGrow(s, s')
            && t in s.threads && s.threads[t].phase != Got
            && (forall u :: u in s.threads && u != t ==> u in s'.threads && s'.threads[u] == s.threads[u])
  {
    hide Held;
  }

  lemma AcceptedEnterRun(s: State, t: ThreadId, idle: FiberId)
    requires AcceptedOk(s) && Enabled(s, EnterRun(t, idle)) && Safe(s, EnterRun(t, idle))
    ensures AcceptedOk(Next(s, EnterRun(t, idle)))
  {
    EnterRunEffect(s, t, idle);
    hide *;
    AcceptedThread(s, Next(s, EnterRun(t, idle)), t);
  }

  lemma EnterRunEffect(s: State, t: ThreadId, idle: FiberId)
    requires Enabled(s, EnterRun(t, idle)) && Safe(s, EnterRun(t, idle))
    ensures var s' := Next(s, EnterRun(t, idle));
            && (forall f :: f in s'.fibers && s'.fibers[f].state == READY && s'.fibers[f].ctx == Entry ==>
                  f !in s.roles || (f in s.fibers && s.fibers[f] == s'.fibers[f]))
            && s'.accepted == s.accepted && s'.q == s.q && RolesGrow(s, s')
            && (forall u :: u in s.threads && u != t ==> u in s'.threads && s'.threads[u] == s.threads[u])
            && t in s.threads && s.threads[t].phase == Outside
  {
  }

  lemma AcceptedResumeTask(s: State, t: ThreadId)
    requires Inv(s) && AcceptedOk(s) && Enabled(s, ResumeTask(t)) && Safe(s, ResumeTask(t))
    ensures AcceptedOk(Next(s, ResumeTask(t)))
  {
    var s' := Next(s, ResumeTask(t));
    assert ThreadOk(s, t, s.threads[t]);
    ResumeEffect(s, t);
    hide *;
    AcceptedThread(s, s', t);
  }

  lemma ResumeEffect(s: State, t: ThreadId)
    requires Enabled(s, ResumeTask(t)) && Safe(s, ResumeTask(t)) && ThreadOk(s, t, s.threads[t])
    ensures var s' := Next(s, ResumeTask(t));
            && (forall g :: g in s'.fibers && s'.fibers[g].state == READY && s'.fibers[g].ctx == Entry ==>
                  g in s.fibers && s.fibers[g] == s'.fibers[g] && Claim(s.threads[t]) != Some(g))
            && s'.accepted == s.accepted && s'.q == s.q && RolesGrow(s, s')
            && (forall u :: u in s.threads && u != t ==> u in s'.threads && s'.threads[u] == s.threads[u])
  {
    hide ControlOk, IdleOk;
  }

  lemma AcceptedStartCallback(s: State, t: ThreadId, f: FiberId)
    requires Inv(s) && AcceptedOk(s) && Enabled(s, StartCallback(t, f)) && Safe(s, StartCallback(t, f))
    ensures AcceptedOk(Next(s, StartCallback(t, f)))
  {
    assert ThreadOk(s, t, s.threads[t]);
    StartCallbackEffect(s, t, f);
    hide *;
    AcceptedThread(s, Next(s, StartCallback(t, f)), t);
  }

  lemma AcceptedResumeIdle(s: State, t: ThreadId)
    requires AcceptedOk(s) && FibersOk(s) && Enabled(s, ResumeIdle(t)) && Safe(s, ResumeIdle(t))
    ensures AcceptedOk(Next(s, ResumeIdle(t)))
  {
    var s', i := Next(s, ResumeIdle(t)), s.threads[t].idle.value;
    assert forall f :: f in s'.fibers && f != i ==>
        f in s.fibers && (s.fibers[f] == s'.fibers[f] || s'.fibers[f].ctx.Saved?);
    assert s'.fibers[i].state == EXEC;
    AcceptedThread(s, s', t);
  }

  lemma AcceptedExit(s: State, t: ThreadId)
    requires Inv(s) && AcceptedOk(s) && Enabled(s, Exit(t)) && Safe(s, Exit(t))
    ensures AcceptedOk(Next(s, Exit(t)))
  {
    assert ThreadOk(s, t, s.threads[t]);
    ExitEffect(s, t);
    hide *;
    AcceptedThread(s, Next(s, Exit(t)), t);
  }

  lemma ExitEffect(s: State, t: ThreadId)
    requires Enabled(s, Exit(t)) && Safe(s, Exit(t)) && ThreadOk(s, t, s.threads[t])
    ensures var s' := Next(s, Exit(t));
            && (forall f :: f in s'.fibers ==>
                  f in s.fibers && (s.fibers[f] == s'.fibers[f] || s'.fibers[f].state == TERM))
            && s'.accepted == s.accepted && s'.q == s.q && RolesGrow(s, s')
            && (forall u :: u in s.threads && u != t ==> u in s'.threads && s'.threads[u] == s.threads[u])
            && s.threads[t].phase == NoTask
  {
    ExitState(s, t);
    hide Next, Safe, IdleOk, HandOk, ControlOk;
  }

  lemma StartCallbackEffect(s: State, t: ThreadId, f: FiberId)
    requires Enabled(s, StartCallback(t, f)) && Safe(s, StartCallback(t, f)) && ThreadOk(s, t, s.threads[t])
    requires FibersOk(s)
    ensures var s' := Next(s, StartCallback(t, f));
            && (forall g :: g in s'.fibers && s'.fibers[g].state == READY && s'.fibers[g].ctx == Entry ==>
                  f != g && g in s.fibers && s.fibers[g] == s'.fibers[g])
            && s'.accepted == s.accepted && s'.q == s.q && RolesGrow(s, s')
            && (forall u :: u in s.threads && u != t ==> u in s'.threads && s'.threads[u] == s.threads[u])
            && Claim(s.threads[t]) == None
  {
    StartedFibers(s, t, f);
    assert f !in s.roles;
    hide Next, Safe, Enabled, ThreadOk, FibersOk;
  }

  lemma AcceptedPickTask(s: State, t: ThreadId)
    requires AcceptedOk(s) && Enabled(s, PickTask(t)) && Safe(s, PickTask(t))
    ensures AcceptedOk(Next(s, PickTask(t)))
  {
    var s' := Next(s, PickTask(t));
    var k := FirstEligible(s.q.tasks, t, ExecFibers(s.fibers));
    assert At(s, t, AtHead);
    hide Enabled, Safe, Eligible;
    assert forall f :: WasScheduled(s', f) ==> WasScheduled(s, f);
    forall f | f in s'.fibers && s'.fibers[f].state == READY && s'.fibers[f].ctx == Entry && WasScheduled(s', f)
      ensures Queued(s'.q, f) || PickedBySome(s', f)
    {
      PickedKept(s, s', f);
      if Queued(s.q, f) {
        var j :| 0 <= j < |s.q.tasks| && s.q.tasks[j].work == FiberWork(f);
        if k < |s.q.tasks| {
          if j == k {
            assert s'.threads[t].phase == Got && Claim(s'.threads[t]) == Some(f);
          } else {
            assert s'.q.tasks[if j < k then j else j - 1] == s.q.tasks[j];
          }
        } else {
          assert s'.q == s.q;
        }
      }
    }
  }

  lemma AcceptedClients(s: State, moved: set<FiberId>)
    requires AcceptedOk(s)
    ensures AcceptedOk(s.(clients := s.clients - moved))
  {
    var s' := s.(clients := s.clients - moved);
    assert forall f :: PickedBySome(s, f) ==> PickedBySome(s', f);
    AcceptedKept(s, s');
  }

  lemma AcceptedScheduleOne(s: State, who: Option<ThreadId>, work: Work, pin: Option<ThreadId>)
    requires AcceptedOk(s) && MaySchedule(s, who, work)
    ensures AcceptedOk(ScheduleOne(s, work, pin))
  {
    var s' := ScheduleOne(s, work, pin);
    if !work.NullWork? {
      var n := |s.q.tasks|;
      assert s'.q.tasks[n].work == work;
      assert forall j :: 0 <= j < n ==> s'.q.tasks[j] == s.q.tasks[j];
      forall f | f in s'.fibers && s'.fibers[f].state == READY && s'.fibers[f].ctx == Entry && WasScheduled(s', f)
        ensures Queued(s'.q, f) || PickedBySome(s', f)
      {
        PickedKept(s, s', f);
        if work != FiberWork(f) {
          var j :| 0 <= j < |s'.accepted| && s'.accepted[j].work == FiberWork(f);
          assert j < |s.accepted| && s.accepted[j].work == FiberWork(f);
          if Queued(s.q, f) {
            var i :| 0 <= i < n && s.q.tasks[i].work == FiberWork(f);
            assert s'.q.tasks[i].work == FiberWork(f);
          }
        }
      }
    }
  }

  lemma {:induction false} AcceptedScheduleAll(s: State, who: Option<ThreadId>, batch: seq<(Work, Option<ThreadId>)>)
    requires AcceptedOk(s) && MayScheduleAll(s, who, batch)
    ensures AcceptedOk(ScheduleAll(s, batch))
    decreases |batch|
  {
    if batch != [] {
      AcceptedScheduleOne(s, who, batch[0].0, batch[0].1);
      hide AcceptedOk, ScheduleOne, MaySchedule;
      AcceptedScheduleAll(ScheduleOne(s, batch[0].0, batch[0].1), who, batch[1..]);
    }
  }

  // ---------- destruction ----------

  lemma KeepsDestroyed(s: State, act: Act)
    requires DestroyedOk(s) && Enabled(s, act) && Safe(s, act)
    ensures DestroyedOk(Next(s, act))
  {
    if act.Schedule? {
      ScheduleAllSame(s, act.batch);
    }
  }

  lemma PickedIsHeld(s: State, f: FiberId)
    requires PickedBySome(s, f)
    ensures InHand(s.threads, f)
  {
    var t :| t in s.threads && s.threads[t].phase == Got && Claim(s.threads[t]) == Some(f);
    assert HeldBy(s.threads[t], f);
  }

  // Dropping the last handle finds the fiber finished: an unfinished one holds itself, and
  // one that has not started is still queued or in hand.
  lemma LastHandleIsFinal(s: State, f: FiberId)
    requires FramesOk(s) && FibersOk(s) && f in s.fibers && s.roles[f] == TaskFiber && !Held(s, f)
    requires Started(s.fibers[f]) || (AcceptedOk(s) && WasScheduled(s, f))
    ensures s.fibers[f].state == TERM
  {
    if PickedBySome(s, f) {
      PickedIsHeld(s, f);
    }
  }

  lemma DropHandleSafe(s: State, f: FiberId)
    requires Inv(s) && OwnInv(s) && Enabled(s, DropHandle(f))
    ensures Safe(s, DropHandle(f))
  {
    var s1 := s.(clients := s.clients - {f});
    hide ThreadsOk, QueueOk;
    AcceptedClients(s, {f});
    assert FramesOk(s1) && FibersOk(s1) && (WasScheduled(s, f) ==> WasScheduled(s1, f));
    if !Held(s1, f) {
      hide FramesOk, FibersOk, AcceptedOk;
      LastHandleIsFinal(s1, f);
    }
  }

  lemma DropSafe(s: State, t: ThreadId)
    requires Inv(s) && OwnInv(s) && Enabled(s, Drop(t))
    ensures Safe(s, Drop(t))
  {
    assert t in s.threads && s.threads[t].phase == Dropping && FramesOk(s) && FibersOk(s);
    hide *;
    Before(s, t);
    InUseOk(s, t);
    DroppedSame(s, t);
    DroppedIsFinal(s, t, InUse(s.threads[t]).value);
    DropIsSafe(s, t);
  }

  lemma InUseOk(s: State, t: ThreadId)
    requires t in s.threads && s.threads[t].phase == Dropping && ThreadOk(s, t, s.threads[t])
    ensures var f := InUse(s.threads[t]); f.Some? && HasRole(s, f.value, TaskFiber) && Started(s.fibers[f.value])
  {
    hide SystemOk, IdleOk, ControlOk;
  }

  lemma DroppedSame(s: State, t: ThreadId)
    requires t in s.threads && FramesOk(s) && FibersOk(s)
    ensures var s1 := Dropped(s, t); FramesOk(s1) && FibersOk(s1) && s1.fibers == s.fibers && s1.roles == s.roles
  {
  }

  lemma DroppedIsFinal(s: State, t: ThreadId, f: FiberId)
    requires t in s.threads && HasRole(s, f, TaskFiber) && Started(s.fibers[f])
    requires var s1 := Dropped(s, t); FramesOk(s1) && FibersOk(s1) && s1.fibers == s.fibers && s1.roles == s.roles
    ensures ReleaseOk(Dropped(s, t), f)
  {
    hide Dropped, FramesOk, FibersOk, Started, Held;
    if !Held(Dropped(s, t), f) {
      LastHandleIsFinal(Dropped(s, t), f);
    }
  }

  lemma DropIsSafe(s: State, t: ThreadId)
    requires Enabled(s, Drop(t)) && InUse(s.threads[t]).Some? && ReleaseOk(Dropped(s, t), InUse(s.threads[t]).value)
    ensures Safe(s, Drop(t))
  {
    hide ReleaseOk, Dropped;
  }

  // ---------- the last handle ----------

  predicate Counted(s: State, f: FiberId) {
    f in s.fibers && f in s.roles && (s.roles[f].TaskFiber? || s.roles[f].IdleFiber?)
  }

  // Every task or idle fiber that exists is held by somebody.
  predicate HeldOk(s: State) {
    forall f :: f in s.fibers && Counted(s, f) ==> Held(s, f)
  }

  // The same but for one fiber, whose handle has just gone.
  predicate HeldBut(s: State, lost: FiberId) {
    forall f :: f in s.fibers && Counted(s, f) && f != lost ==> Held(s, f)
  }

  lemma ReleasedHeld(s: State, lost: FiberId)
    requires HeldBut(s, lost)
    ensures HeldOk(Released(s, lost))
  {
    var s' := Released(s, lost);
    assert forall f :: Held(s', f) <==> Held(s, f);
    hide Held;
  }

  lemma HandsHeld(s: State, s': State, t: ThreadId)
    requires t in s.threads && t in s'.threads && s'.threads == s.threads[t := s'.threads[t]]
    ensures forall f :: InHand(s.threads, f) && (HeldBy(s.threads[t], f) ==> HeldBy(s'.threads[t], f)) ==>
        InHand(s'.threads, f)
  {
    forall f | InHand(s.threads, f) && (HeldBy(s.threads[t], f) ==> HeldBy(s'.threads[t], f))
      ensures InHand(s'.threads, f)
    {
      var u :| u in s.threads && HeldBy(s.threads[u], f);
      assert u != t ==> s'.threads[u] == s.threads[u];
      assert HeldBy(s'.threads[u], f);
    }
  }

  // A step of t that gives away nothing but perhaps one handle, and holds what it makes.
  predicate Gives(s: State, s': State, t: ThreadId, lost: Option<FiberId>) {
    && t in s.threads && t in s'.threads && s'.threads == s.threads[t := s'.threads[t]]
    && s.clients <= s'.clients && s'.q.tasks == s.q.tasks
    && (forall f :: f in s.frames && Counted(s, f) && Some(f) != lost ==> f in s'.frames)
    && (forall f :: f in s'.fibers && Counted(s', f) ==> Counted(s, f) || HeldBy(s'.threads[t], f))
  }

  // What the thread's own variables hold, they go on holding.
  ghost predicate KeepsHand(th: Thread, th': Thread, lost: Option<FiberId>) {
    forall f: FiberId :: HeldBy(th, f) && Some(f) != lost ==> HeldBy(th', f)
  }

  lemma GivesHeld(s: State, s': State, t: ThreadId, lost: Option<FiberId>)
    requires HeldOk(s) && Gives(s, s', t, lost)
    requires KeepsHand(s.threads[t], s'.threads[t], lost)
    ensures lost.Some? ==> HeldBut(s', lost.value)
    ensures lost == None || HeldBy(s'.threads[t], lost.value) ==> HeldOk(s')
  {
    HandsHeld(s, s', t);
    assert forall f :: Queued(s'.q, f) <==> Queued(s.q, f);
    assert forall f :: HeldBy(s'.threads[t], f) ==> InHand(s'.threads, f);
    hide Queued, InHand, HeldBy;
  }

  lemma KeepsHeld(s: State, act: Act)
    requires Inv(s) && HeldOk(s) && Enabled(s, act) && Safe(s, act)
    ensures HeldOk(Next(s, act))
  {
    hide *;
    match act
    case DropHandle(f) => HeldDropHandle(s, f);
    case Schedule(_, _, _) => HeldSchedule(s, act);
    case PickTask(t) => HeldPick(s, t);
    case Drop(t) => HeldDrop(s, t);
    case Exit(t) => HeldExit(s, t);
    case CreateFiber(_) => HeldQuiet(s, act);
    case ShareSelf(_) => HeldQuiet(s, act);
    case BeginStop => HeldQuiet(s, act);
    case Start(_) => HeldQuiet(s, act);
    case TakePool => HeldQuiet(s, act);
    case StartWorker(_, _, _) => HeldWorker(s, act);
    case _ => HeldStep(s, act);
  }

  lemma HeldDropHandle(s: State, f: FiberId)
    requires HeldOk(s) && Enabled(s, DropHandle(f)) && Safe(s, DropHandle(f))
    ensures HeldOk(Next(s, DropHandle(f)))
  {
    var s1 := s.(clients := s.clients - {f});
    assert HeldBut(s1, f);
    hide HeldOk, HeldBut, Released;
    ReleasedHeld(s1, f);
  }

  lemma HeldSchedule(s: State, act: Act)
    requires act.Schedule? && HeldOk(s) && Enabled(s, act) && Safe(s, act)
    ensures HeldOk(Next(s, act))
  {
    var s', moved := Next(s, act), act.moved;
    ScheduleAllSame(s, act.batch);
    ScheduleAllQueues(s, act.batch);
    assert forall f :: f in moved ==> Queued(s'.q, f);
    assert s' == s.(q := s'.q, accepted := s'.accepted, clients := s.clients - moved);
    hide Enabled, Safe, Next, Queued, ScheduleAll;
  }

  lemma {:induction false} ScheduleAllQueues(s: State, batch: seq<(Work, Option<ThreadId>)>)
    ensures forall f :: Queued(s.q, f) ==> Queued(ScheduleAll(s, batch).q, f)
    ensures forall j :: 0 <= j < |batch| && batch[j].0.FiberWork? ==> Queued(ScheduleAll(s, batch).q, batch[j].0.fiber)
    decreases |batch|
  {
    if batch != [] {
      var s1 := ScheduleOne(s, batch[0].0, batch[0].1);
      ScheduleOneQueues(s, batch[0].0, batch[0].1);
      ScheduleAllQueues(s1, batch[1..]);
      assert forall j :: 1 <= j < |batch| ==> batch[j] == batch[1..][j - 1];
      hide Queued, ScheduleOne;
    }
  }

  lemma ScheduleOneQueues(s: State, work: Work, pin: Option<ThreadId>)
    ensures var s1 := ScheduleOne(s, work, pin);
            forall f :: Queued(s.q, f) || work == FiberWork(f) ==> Queued(s1.q, f)
  {
    var s1 := ScheduleOne(s, work, pin);
    assert forall j :: 0 <= j < |s.q.tasks| ==> s1.q.tasks[j] == s.q.tasks[j];
    if work.FiberWork? {
      assert s1.q.tasks[|s.q.tasks|].work == work;
    }
  }

  lemma HeldPick(s: State, t: ThreadId)
    requires Inv(s) && HeldOk(s) && Enabled(s, PickTask(t)) && Safe(s, PickTask(t))
    ensures HeldOk(Next(s, PickTask(t)))
  {
    var s' := Next(s, PickTask(t));
    var k := FirstEligible(s.q.tasks, t, ExecFibers(s.fibers));
    assert t in s.threads && s.threads[t].phase == AtHead;
    assert s.threads[t].task == None && s.threads[t].cb == None by { AtHeadEmpty(s, t); }
    assert s' == s.(q := s'.q, picks := s'.picks, threads := s.threads[t := s'.threads[t]]);
    assert s'.threads[t].idle == s.threads[t].idle;
    HandsHeld(s, s', t);
    if k < |s.q.tasks| {
      assert s'.q.tasks == s.q.tasks[..k] + s.q.tasks[k + 1..] && s'.threads[t].task == Some(s.q.tasks[k]);
      hide Enabled, Safe, Next, FirstEligible, Inv, InHand;
      QueuedOrInHand(s, s', t, k);
    }
    hide Enabled, Safe, Next, FirstEligible, Inv, InHand;
  }

  lemma AtHeadEmpty(s: State, t: ThreadId)
    requires Inv(s) && t in s.threads && s.threads[t].phase == AtHead
    ensures s.threads[t].task == None && s.threads[t].cb == None
  {
    Before(s, t);
    hide Inv, SharedOk, ClaimsApart, SystemOk, IdleOk, ControlOk;
  }

  lemma QueuedOrInHand(s: State, s': State, t: ThreadId, k: nat)
    requires k < |s.q.tasks| && s'.q.tasks == s.q.tasks[..k] + s.q.tasks[k + 1..]
    requires t in s'.threads && s'.threads[t].task == Some(s.q.tasks[k])
    ensures forall f :: Queued(s.q, f) ==> Queued(s'.q, f) || InHand(s'.threads, f)
  {
    forall f | Queued(s.q, f)
      ensures Queued(s'.q, f) || InHand(s'.threads, f)
    {
      var j :| 0 <= j < |s.q.tasks| && s.q.tasks[j].work == FiberWork(f);
      if j == k {
        assert HeldBy(s'.threads[t], f);
      } else {
        assert s'.q.tasks[if j < k then j else j - 1] == s.q.tasks[j];
      }
    }
  }

  lemma HeldDrop(s: State, t: ThreadId)
    requires Inv(s) && HeldOk(s) && Enabled(s, Drop(t)) && Safe(s, Drop(t))
    ensures HeldOk(Next(s, Drop(t)))
  {
    DropHandlesOne(s, t);
    hide *;
    var f := InUse(s.threads[t]).value;
    GivesHeld(s, Dropped(s, t), t, Some(f));
    ReleasedHeld(Dropped(s, t), f);
  }

  lemma DropHandlesOne(s: State, t: ThreadId)
    requires Inv(s) && Enabled(s, Drop(t)) && Safe(s, Drop(t))
    ensures t in s.threads && InUse(s.threads[t]).Some?
    ensures var f := InUse(s.threads[t]).value;
            && Gives(s, Dropped(s, t), t, Some(f)) && Next(s, Drop(t)) == Released(Dropped(s, t), f)
            && KeepsHand(s.threads[t], Dropped(s, t).threads[t], Some(f))
  {
    Before(s, t);
    DropEffect(s, t);
    hide Inv, SharedOk, ClaimsApart, SystemOk, IdleOk, ControlOk, Next, Safe, Released;
  }

  lemma HeldExit(s: State, t: ThreadId)
    requires Inv(s) && HeldOk(s) && Enabled(s, Exit(t)) && Safe(s, Exit(t))
    ensures HeldOk(Next(s, Exit(t)))
  {
    ExitIsRelease(s, t);
    ExitGives(s, t);
    hide *;
    var i := s.threads[t].idle.value;
    GivesHeld(s, IdleDropped(BeforeRelease(s, t), t), t, Some(i));
    ReleasedHeld(IdleDropped(BeforeRelease(s, t), t), i);
  }

  lemma ExitGives(s: State, t: ThreadId)
    requires Inv(s) && Enabled(s, Exit(t)) && Safe(s, Exit(t))
    ensures t in s.threads && s.threads[t].idle.Some? && t in BeforeRelease(s, t).threads
    ensures var s1, i := IdleDropped(BeforeRelease(s, t), t), s.threads[t].idle.value;
            && Gives(s, s1, t, Some(i))
            && KeepsHand(s.threads[t], s1.threads[t], Some(i))
  {
    assert t in s.threads;
    Before(s, t);
    assert IdleOk(s, t, s.threads[t]) && SystemOk(s, t, s.threads[t]);
    hide Inv, SharedOk, ClaimsApart, ThreadOk;
    RootGives(s, t);
  }

  // The root fiber is none of those that handles are counted for.
  lemma RootGives(s: State, t: ThreadId)
    requires Enabled(s, Exit(t)) && Safe(s, Exit(t)) && SystemOk(s, t, s.threads[t]) && s.threads[t].idle.Some?
    ensures t in BeforeRelease(s, t).threads
    ensures var s1, i := IdleDropped(BeforeRelease(s, t), t), s.threads[t].idle.value;
            && Gives(s, s1, t, Some(i))
            && KeepsHand(s.threads[t], s1.threads[t], Some(i))
  {
  }

  // Clients and the pool: nothing held is let go.
  lemma HeldQuiet(s: State, act: Act)
    requires act.CreateFiber? || act.ShareSelf? || act.BeginStop? || act.Start? || act.TakePool?
    requires HeldOk(s) && Enabled(s, act) && Safe(s, act)
    ensures HeldOk(Next(s, act))
  {
  }

  lemma HeldWorker(s: State, act: Act)
    requires act.StartWorker? && HeldOk(s) && Enabled(s, act) && Safe(s, act)
    ensures HeldOk(Next(s, act))
  {
    var s' := Next(s, act);
    forall f | InHand(s.threads, f)
      ensures InHand(s'.threads, f)
    {
      var u :| u in s.threads && HeldBy(s.threads[u], f);
      assert u in s'.threads && s'.threads[u] == s.threads[u];
    }
    assert HeldBy(s'.threads[act.t], act.idle);
    assert forall f :: Queued(s'.q, f) <==> Queued(s.q, f);
    hide InHand, Queued;
  }

  // The other steps of a thread: what a frame lets go is still in the thread's hand.
  lemma HeldStep(s: State, act: Act)
    requires act.EnterRun? || act.ResumeTask? || act.StartCallback? || act.Yield? || act.Finish? || act.Decrement?
             || act.ResumeIdle? || act.CheckStopping? || act.LeaveIdle?
    requires Inv(s) && HeldOk(s) && Enabled(s, act) && Safe(s, act)
    ensures HeldOk(Next(s, act))
  {
    hide *;
    if act.EnterRun? {
      EnterGives(s, act.t, act.idle);
      GivesHeld(s, Next(s, act), act.t, None);
    } else if act.StartCallback? {
      StartGives(s, act.t, act.f);
      GivesHeld(s, Next(s, act), act.t, None);
    } else if act.Yield? || act.Finish? || act.LeaveIdle? {
      BackGives(s, act);
      GivesHeld(s, Next(s, act), act.t, LetGo(s, act));
    } else {
      StepGives(s, act);
      GivesHeld(s, Next(s, act), act.t, None);
    }
  }

  lemma EnterGives(s: State, t: ThreadId, idle: FiberId)
    requires Inv(s) && Enabled(s, EnterRun(t, idle)) && Safe(s, EnterRun(t, idle))
    ensures Gives(s, Next(s, EnterRun(t, idle)), t, None)
    ensures KeepsHand(s.threads[t], Next(s, EnterRun(t, idle)).threads[t], None)
  {
    assert t in s.threads && s.threads[t].phase == Outside;
    Before(s, t);
    assert s.threads[t].idle == None by { hide Inv, SharedOk, ClaimsApart, SystemOk, ControlOk, HandOk; }
    hide *;
    EnterHand(s, t, idle);
    HandGrows(s, Next(s, EnterRun(t, idle)), t, idle);
  }

  lemma HandGrows(s: State, s': State, t: ThreadId, idle: FiberId)
    requires t in s.threads && t in s'.threads && s'.threads == s.threads[t := s'.threads[t]]
    requires s.threads[t].idle == None
    requires s'.clients == s.clients && s'.q == s.q && s.frames <= s'.frames && idle !in s.roles
    requires s'.fibers.Keys == s.fibers.Keys + {idle} && s'.roles == s.roles[idle := IdleFiber(t)]
    requires s'.threads[t].idle == Some(idle) && s'.threads[t].task == s.threads[t].task
    requires s'.threads[t].cb == s.threads[t].cb
    ensures Gives(s, s', t, None) && KeepsHand(s.threads[t], s'.threads[t], None)
  {
  }

  lemma EnterHand(s: State, t: ThreadId, idle: FiberId)
    requires Enabled(s, EnterRun(t, idle)) && Safe(s, EnterRun(t, idle))
    ensures var s' := Next(s, EnterRun(t, idle));
            && t in s.threads && t in s'.threads && s'.threads == s.threads[t := s'.threads[t]]
            && s'.clients == s.clients && s'.q == s.q && s.frames <= s'.frames
            && s'.fibers.Keys == s.fibers.Keys + {idle} && s'.roles == s.roles[idle := IdleFiber(t)] && idle !in s.roles
            && s'.threads[t].idle == Some(idle) && s'.threads[t].task == s.threads[t].task
                && s'.threads[t].cb == s.threads[t].cb
  {
  }

  lemma StartGives(s: State, t: ThreadId, f: FiberId)
    requires Inv(s) && Enabled(s, StartCallback(t, f)) && Safe(s, StartCallback(t, f))
    ensures Gives(s, Next(s, StartCallback(t, f)), t, None)
    ensures KeepsHand(s.threads[t], Next(s, StartCallback(t, f)).threads[t], None)
  {
    Before(s, t);
    SharedParts(s);
    hide Inv, QueueOk, ClientsOk, ClaimsApart;
    StartedFibers(s, t, f);
    StartedHand(s, t, f);
    hide Next, Safe, ThreadOk;
  }

  lemma StartedHand(s: State, t: ThreadId, f: FiberId)
    requires Enabled(s, StartCallback(t, f)) && Safe(s, StartCallback(t, f)) && ThreadOk(s, t, s.threads[t])
    ensures var th, th' := s.threads[t], Next(s, StartCallback(t, f)).threads[t];
            th.cb == None && th.task.Some? && th.task.value.work.CallbackWork? && th'.cb == Some(f)
                && th'.idle == th.idle
  {
    hide SystemOk, IdleOk, ControlOk;
  }

  lemma StepGives(s: State, act: Act)
    requires act.ResumeTask? || act.Decrement? || act.ResumeIdle? || act.CheckStopping?
    requires Enabled(s, act) && Safe(s, act)
    ensures Gives(s, Next(s, act), act.t, None)
    ensures KeepsHand(s.threads[act.t], Next(s, act).threads[act.t], None)
  {
  }

  // The fiber that lets go of itself.
  function LetGo(s: State, act: Act): Option<FiberId>
    requires (act.Yield? || act.Finish? || act.LeaveIdle?) && act.t in s.threads
  {
    match act
    case Finish(t) => if s.threads[t].phase.Running? then Some(s.threads[t].phase.fiber) else None
    case LeaveIdle(t) => if s.threads[t].phase.IdleKnows? && s.threads[t].phase.stop then s.threads[t].idle else None
    case _ => None
  }

  lemma BackGives(s: State, act: Act)
    requires act.Yield? || act.Finish? || act.LeaveIdle?
    requires Inv(s) && Enabled(s, act) && Safe(s, act)
    ensures act.t in s.threads && Gives(s, Next(s, act), act.t, LetGo(s, act))
    ensures KeepsHand(s.threads[act.t], Next(s, act).threads[act.t], LetGo(s, act))
    ensures LetGo(s, act).Some? ==> HeldBy(Next(s, act).threads[act.t], LetGo(s, act).value)
  {
    assert act.t in s.threads;
    Before(s, act.t);
    hide Inv, SharedOk, ClaimsApart;
    if act.LeaveIdle? {
      LeaveGives(s, act.t);
    } else {
      SliceGives(s, act);
    }
  }

  lemma LeaveGives(s: State, t: ThreadId)
    requires Enabled(s, LeaveIdle(t)) && Safe(s, LeaveIdle(t))
    ensures t in s.threads && Gives(s, Next(s, LeaveIdle(t)), t, LetGo(s, LeaveIdle(t)))
    ensures KeepsHand(s.threads[t], Next(s, LeaveIdle(t)).threads[t], LetGo(s, LeaveIdle(t)))
    ensures LetGo(s, LeaveIdle(t)).Some? ==> HeldBy(Next(s, LeaveIdle(t)).threads[t], LetGo(s, LeaveIdle(t)).value)
  {
  }

  lemma SliceGives(s: State, act: Act)
    requires (act.Yield? || act.Finish?) && Enabled(s, act) && Safe(s, act) && ThreadOk(s, act.t, s.threads[act.t])
    ensures act.t in s.threads && Gives(s, Next(s, act), act.t, LetGo(s, act))
    ensures KeepsHand(s.threads[act.t], Next(s, act).threads[act.t], LetGo(s, act))
    ensures LetGo(s, act).Some? ==> HeldBy(Next(s, act).threads[act.t], LetGo(s, act).value)
  {
    hide SystemOk, ControlOk, IdleOk;
  }

  lemma InitialOwned(useCaller: bool)
    ensures OwnInv(Initial(useCaller))
  {
  }
}
