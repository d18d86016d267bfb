/**
 No step of the machine violates an assertion: whatever the invariants allow, each step that
 a thread or a client may take is safe.
 */
module MachineSafety {
  import opened Outcomes
  import opened Fibers
  import opened Scheduling
  import opened Machine
  import opened MachineThreads
  import opened MachineOwnership
  import opened MachineCounts
  import opened MachineHistory

  // ---------- running fibers ----------

  predicate RunBySome(s: State, f: FiberId) {
    exists t :: t in s.threads && s.threads[t].phase.Running? && s.threads[t].phase.fiber == f
  }

  // A task fiber is EXEC only while a thread is running it.
  predicate ExecOk(s: State) {
    forall f :: f in s.fibers && s.fibers[f].state == EXEC && f in s.roles && s.roles[f].TaskFiber? ==> RunBySome(s, f)
  }

  // What a step of t does to the running fibers: any other than the one it now runs was
  // running before, elsewhere.
  predicate ExecStep(s: State, s': State, t: ThreadId) {
    forall f :: f in s'.fibers && s'.fibers[f].state == EXEC && f in s'.roles && s'.roles[f].TaskFiber? ==>
      || (t in s'.threads && s'.threads[t].phase.Running? && s'.threads[t].phase.fiber == f)
      || (f in s.fibers && s.fibers[f].state == EXEC && f in s.roles && s.roles[f].TaskFiber?
          && !(t in s.threads && s.threads[t].phase.Running? && s.threads[t].phase.fiber == f))
  }

  lemma ExecThread(s: State, s': State, t: ThreadId)
    requires ExecOk(s) && ExecStep(s, s', t)
    requires forall u :: u in s.threads && u != t ==> u in s'.threads && s'.threads[u] == s.threads[u]
    ensures ExecOk(s')
  {
    forall f | f in s'.fibers && s'.fibers[f].state == EXEC && f in s'.roles && s'.roles[f].TaskFiber?
      ensures RunBySome(s', f)
    {
      if !(t in s'.threads && s'.threads[t].phase.Running? && s'.threads[t].phase.fiber == f) {
        assert RunBySome(s, f);
        var u :| u in s.threads && s.threads[u].phase.Running? && s.threads[u].phase.fiber == f;
        assert u in s'.threads && s'.threads[u] == s.threads[u];
      }
    }
  }

  lemma KeepsExec(s: State, act: Act)
    requires Inv(s) && ExecOk(s) && Enabled(s, act) && Safe(s, act)
    ensures ExecOk(Next(s, act))
  {
    match Actor(act)
    case Some(t) =>
      ExecActor(s, act, t);
      ActorThreads(s, act, t);
      hide *;
      ExecThread(s, Next(s, act), t);
    case None =>
      ExecQuiet(s, act);
  }

  lemma ExecQuiet(s: State, act: Act)
    requires FibersOk(s) && ExecOk(s) && Enabled(s, act) && Safe(s, act) && Actor(act) == None
    ensures ExecOk(Next(s, act))
  {
    if act.Schedule? {
      ScheduleAllSame(s, act.batch);
    }
    var s' := Next(s, act);
    assert forall f :: f in s'.fibers && s'.fibers[f].state == EXEC && f in s'.roles && s'.roles[f].TaskFiber? ==>
        f in s.fibers && s.fibers[f].state == EXEC && f in s.roles && s.roles[f].TaskFiber?;
    assert forall t :: t in s.threads ==> t in s'.threads && s'.threads[t] == s.threads[t];
    assert forall f :: RunBySome(s, f) ==> RunBySome(s', f);
  }

  lemma ExecActor(s: State, act: Act, t: ThreadId)
    requires Inv(s) && Enabled(s, act) && Safe(s, act) && Actor(act) == Some(t)
    ensures ExecStep(s, Next(s, act), t)
  {
    ActorBefore(s, act, t);
    assert act.StartCallback? ==> act == StartCallback(t, act.f);
    assert act.EnterRun? ==> act == EnterRun(t, act.idle);
    assert act.Exit? ==> act == Exit(t);
    assert act.ResumeTask? || act.ResumeIdle? ==> act == ResumeTask(t) || act == ResumeIdle(t);
    hide *;
    if act.StartCallback? {
      ExecStartCallback(s, t, act.f);
    } else if act.EnterRun? {
      ExecEnterRun(s, t, act.idle);
    } else if act.Exit? {
      ExecExit(s, t);
    } else if act.ResumeTask? || act.ResumeIdle? {
      ExecResume(s, act, t);
    } else {
      ExecOther(s, act, t);
    }
  }

  lemma ExecStartCallback(s: State, t: ThreadId, f: FiberId)
    requires Enabled(s, StartCallback(t, f)) && Safe(s, StartCallback(t, f)) && ThreadOk(s, t, s.threads[t])
    requires FibersOk(s)
    ensures ExecStep(s, Next(s, StartCallback(t, f)), t)
  {
    StartedFibers(s, t, f);
    assert Next(s, StartCallback(t, f)).threads[t].phase == Running(f, s.clock);
    hide Next, Safe;
  }

  lemma ExecEnterRun(s: State, t: ThreadId, idle: FiberId)
    requires Enabled(s, EnterRun(t, idle)) && Safe(s, EnterRun(t, idle)) && ThreadOk(s, t, s.threads[t]) && FibersOk(s)
    ensures ExecStep(s, Next(s, EnterRun(t, idle)), t)
  {
  }

  lemma ExecExit(s: State, t: ThreadId)
    requires Enabled(s, Exit(t)) && Safe(s, Exit(t)) && ThreadOk(s, t, s.threads[t])
    ensures ExecStep(s, Next(s, Exit(t)), t)
  {
    ExitState(s, t);
    hide Next, Safe;
  }

  lemma ExecResume(s: State, act: Act, t: ThreadId)
    requires act == ResumeTask(t) || act == ResumeIdle(t)
    requires Enabled(s, act) && Safe(s, act) && ThreadOk(s, t, s.threads[t])
    ensures ExecStep(s, Next(s, act), t)
  {
  }

  lemma ExecOther(s: State, act: Act, t: ThreadId)
    requires act in {PickTask(t), Yield(t), Finish(t), Decrement(t), Drop(t), CheckStopping(t), LeaveIdle(t)}
    requires Enabled(s, act) && Safe(s, act) && ThreadOk(s, t, s.threads[t])
    ensures ExecStep(s, Next(s, act), t)
  {
  }

  // ---------- no fiber vanishes ----------

  predicate AllAccounted(s: State) {
    s.roles.Keys == s.fibers.Keys + s.destroyed.Keys
  }

  lemma KeepsAllAccounted(s: State, act: Act)
    requires AllAccounted(s) && Inv(s) && Enabled(s, act) && Safe(s, act)
    ensures AllAccounted(Next(s, act))
  {
    if act.StartCallback? {
      hide *;
      StartAccounted(s, act.t, act.f);
    } else if act.Exit? {
      hide *;
      ExitAccounted(s, act.t);
    } else if act.EnterRun? {
      hide *;
      EnterAccounted(s, act.t, act.idle);
    } else if act.Schedule? {
      ScheduleAllSame(s, act.batch);
      hide Inv, Enabled, Safe, ScheduleAll;
    } else {
      hide *;
      OtherAccounted(s, act);
    }
  }

  lemma StartAccounted(s: State, t: ThreadId, f: FiberId)
    requires AllAccounted(s) && Inv(s) && Enabled(s, StartCallback(t, f)) && Safe(s, StartCallback(t, f))
    ensures AllAccounted(Next(s, StartCallback(t, f)))
  {
    ActorBefore(s, StartCallback(t, f), t);
    StartedFibers(s, t, f);
    hide Next, Safe, Enabled, Inv, ThreadOk, FibersOk;
  }

  lemma EnterAccounted(s: State, t: ThreadId, idle: FiberId)
    requires AllAccounted(s) && Enabled(s, EnterRun(t, idle)) && Safe(s, EnterRun(t, idle))
    ensures AllAccounted(Next(s, EnterRun(t, idle)))
  {
  }

  lemma ExitAccounted(s: State, t: ThreadId)
    requires AllAccounted(s) && Enabled(s, Exit(t)) && Safe(s, Exit(t))
    ensures AllAccounted(Next(s, Exit(t)))
  {
    ExitIsRelease(s, t);
    var s1 := BeforeRelease(s, t);
    assert s1.fibers.Keys == s.fibers.Keys && s1.roles == s.roles && s1.destroyed == s.destroyed;
    hide Next, Safe, Enabled;
    ReleasedAccounted(IdleDropped(s1, t), s.threads[t].idle.value);
  }

  lemma ReleasedAccounted(s: State, f: FiberId)
    requires AllAccounted(s)
    ensures AllAccounted(Released(s, f))
  {
    hide Held;
    assert f in s.fibers ==> (s.fibers - {f}).Keys + s.destroyed[f := s.fibers[f].state].Keys == s.roles.Keys;
  }

  lemma OtherAccounted(s: State, act: Act)
    requires !act.StartCallback? && !act.Exit? && !act.EnterRun? && !act.Schedule?
    requires AllAccounted(s) && Enabled(s, act) && Safe(s, act)
    ensures AllAccounted(Next(s, act))
  {
    match act
    case DropHandle(f) => ReleasedAccounted(s.(clients := s.clients - {f}), f);
    case Drop(t) => ReleasedAccounted(Dropped(s, t), InUse(s.threads[t]).value);
    case _ => hide Held;
  }

  // ---------- stop() ----------

  // Nobody is inside run() on a root fiber before stop() has been called.
  predicate Entered(s: State) {
    forall u :: u in s.threads && s.threads[u].viaRoot && s.threads[u].phase != Outside ==> s.q.stopping
  }

  lemma RootStaysActor(s: State, act: Act, t: ThreadId)
    requires Enabled(s, act) && Safe(s, act) && Actor(act) == Some(t)
    ensures t in s.threads && t in Next(s, act).threads && Next(s, act).threads[t].viaRoot == s.threads[t].viaRoot
    ensures s.threads[t].phase == Outside ==> s.q.stopping
    ensures Next(s, act).q.stopping == s.q.stopping
  {
  }

  lemma QuietThreads(s: State, act: Act)
    requires Enabled(s, act) && Safe(s, act) && Actor(act) == None
    ensures forall t :: t in s.threads ==> t in Next(s, act).threads && Next(s, act).threads[t] == s.threads[t]
    ensures forall t :: t in Next(s, act).threads && t !in s.threads ==> !Next(s, act).threads[t].viaRoot
    ensures s.q.stopping ==> Next(s, act).q.stopping
  {
    if act.Schedule? {
      ScheduleAllSame(s, act.batch);
    }
  }

  lemma KeepsEntered(s: State, act: Act)
    requires Entered(s) && Enabled(s, act) && Safe(s, act)
    ensures Entered(Next(s, act))
  {
    match Actor(act)
    case Some(u) =>
      ActorThreads(s, act, u);
      RootStaysActor(s, act, u);
      hide Enabled, Safe, Next;
    case None =>
      QuietThreads(s, act);
      hide Enabled, Safe, Next;
  }

  lemma RootReadyIff(s: State, u: ThreadId)
    requires u in s.threads && s.threads[u].viaRoot && ThreadOk(s, u, s.threads[u])
    ensures RootReady(s, u) <==> s.threads[u].phase == Outside
  {
    hide IdleOk, HandOk, ControlOk;
  }

  // A stop() that keeps the rule gets through: before the first the root fiber is unstarted,
  // and after the first stopping() holds.
  lemma SafeStop(s: State)
    requires Inv(s) && Counts(s) && KnowsRightly(s) && Entered(s) && Enabled(s, BeginStop)
    ensures Safe(s, BeginStop)
  {
    StoppingIsQuiet(s);
    if !IsStopping(s.q) {
      forall u | u in s.threads && s.threads[u].viaRoot
        ensures RootReady(s, u)
      {
        assert s.threads[u].phase == Left ==> Knows(s, u);
        assert s.threads[u].phase == Outside;
        Before(s, u);
        hide Inv, SharedOk, ClaimsApart;
        RootReadyIff(s, u);
      }
    }
  }

  // ---------- all the invariants ----------

  predicate Sound(s: State) {
    Inv(s) && OwnInv(s) && Counts(s) && KnowsRightly(s) && HistInv(HistOf(s)) && ExecOk(s) && AllAccounted(s)
    && Entered(s) && HeldOk(s)
  }

  lemma InitialSound(useCaller: bool)
    ensures Sound(Initial(useCaller))
  {
    InitialInv(useCaller);
    InitialOwned(useCaller);
    InitialHist(useCaller);
    hide Inv, OwnInv, HistInv, HistOf;
    assert BusySet(Initial(useCaller).threads) == {};
    assert IdleSet(Initial(useCaller).threads) == {};
  }

  lemma KeepsInv(s: State, act: Act)
    requires Inv(s) && Enabled(s, act) && Safe(s, act)
    ensures Inv(Next(s, act))
  {
    hide *;
    match act
    case CreateFiber(f) => KeepsCreateFiber(s, f);
    case DropHandle(f) => KeepsDropHandle(s, f);
    case ShareSelf(t) => KeepsShareSelf(s, t);
    case Schedule(_, _, _) => KeepsSchedule(s, act);
    case BeginStop => KeepsBeginStop(s);
    case EnterRun(t, idle) => KeepsEnterRun(s, t, idle);
    case Start(_) => KeepsPool(s, act);
    case TakePool => KeepsPool(s, act);
    case StartWorker(t, m, idle) => KeepsStartWorker(s, t, m, idle);
    case PickTask(t) => KeepsPickTask(s, t);
    case ResumeTask(t) => KeepsResumeTask(s, t);
    case StartCallback(t, f) => KeepsStartCallback(s, t, f);
    case Yield(t) => KeepsYield(s, t);
    case Finish(t) => KeepsFinish(s, t);
    case Decrement(t) => KeepsDecrement(s, t);
    case Drop(t) => KeepsDrop(s, t);
    case ResumeIdle(t) => KeepsResumeIdle(s, t);
    case CheckStopping(t) => KeepsCheckStopping(s, t);
    case LeaveIdle(t) => KeepsLeaveIdle(s, t);
    case Exit(t) => KeepsExit(s, t);
  }

  lemma KeepsSound(s: State, act: Act)
    requires Sound(s) && Enabled(s, act) && Safe(s, act)
    ensures Sound(Next(s, act))
  {
    assert Inv(s) && OwnInv(s) && Counts(s) && KnowsRightly(s) && HistInv(HistOf(s)) && ExecOk(s) && AllAccounted(s);
    assert Entered(s) && HeldOk(s);
    assert FramesOk(s) && AcceptedOk(s) && DestroyedOk(s);
    assert FramesOk(Next(s, act)) && AcceptedOk(Next(s, act)) && DestroyedOk(Next(s, act)) ==> OwnInv(Next(s, act));
    hide Inv, OwnInv, Counts, KnowsRightly, HistInv, HistOf, ExecOk, AllAccounted, FramesOk, AcceptedOk, DestroyedOk;
    hide Entered, HeldOk;
    hide Enabled, Safe, Next;
    KeepsInv(s, act);
    KeepsFrames(s, act);
    KeepsAccepted(s, act);
    KeepsDestroyed(s, act);
    KeepsCounts(s, act);
    KeepsKnowsRightly(s, act);
    KeepsHist(s, act);
    KeepsExec(s, act);
    KeepsAllAccounted(s, act);
    KeepsEntered(s, act);
    KeepsHeld(s, act);
  }

  // ---------- every enabled step is safe ----------

  lemma EnabledIsSafe(s: State, act: Act)
    requires Sound(s) && Enabled(s, act)
    ensures Safe(s, act)
  {
    assert Inv(s) && OwnInv(s) && Counts(s) && FibersOk(s) && QueueOk(s) && KnowsRightly(s) && Entered(s);
    hide *;
    match act
    case DropHandle(f) => DropHandleSafe(s, f);
    case ShareSelf(t) => SafeSlice(s, act, t);
    case Schedule(_, _, _) => SafeSchedule(s, act);
    case BeginStop => SafeStop(s);
    case PickTask(t) => SafePick(s, t);
    case EnterRun(t, _) => SafeSwitch(s, act, t);
    case ResumeTask(t) => SafeSwitch(s, act, t);
    case StartCallback(t, _) => SafeSwitch(s, act, t);
    case ResumeIdle(t) => SafeSwitch(s, act, t);
    case _ => RestIsSafe(s, act);
  }

  lemma RestIsSafe(s: State, act: Act)
    requires !act.DropHandle? && !act.ShareSelf? && !act.Schedule? && !act.PickTask?
    requires !act.BeginStop? && !act.EnterRun? && !act.ResumeTask? && !act.StartCallback? && !act.ResumeIdle?
    requires Inv(s) && OwnInv(s) && Counts(s) && Enabled(s, act)
    ensures Safe(s, act)
  {
    hide *;
    match act
    case Drop(t) => DropSafe(s, t);
    case Yield(t) => SafeSlice(s, act, t);
    case Finish(t) => SafeSlice(s, act, t);
    case Decrement(t) => SafeDecrement(s, t);
    case LeaveIdle(t) => SafeLeaveIdle(s, t);
    case Exit(t) => SafeExit(s, t);
    case _ => SafeAnyway(s, act);
  }

  lemma SafeAnyway(s: State, act: Act)
    requires act.CreateFiber? || act.Start? || act.TakePool? || act.StartWorker? || act.CheckStopping?
    requires Enabled(s, act)
    ensures Safe(s, act)
  {
  }

  lemma SafePick(s: State, t: ThreadId)
    requires QueueOk(s) && Enabled(s, PickTask(t))
    ensures Safe(s, PickTask(t))
  {
  }

  // A resume meets a READY fiber.
  lemma SafeSwitch(s: State, act: Act, t: ThreadId)
    requires act.EnterRun? || act.ResumeTask? || act.StartCallback? || act.ResumeIdle?
    requires Inv(s) && Enabled(s, act) && Actor(act) == Some(t)
    ensures Safe(s, act)
  {
    ActorBefore(s, act, t);
    hide Inv, FibersOk;
  }

  // A yield meets an EXEC fiber, and jumps to the point saved when the slice began.
  lemma SafeSlice(s: State, act: Act, t: ThreadId)
    requires act == ShareSelf(t) || act == Yield(t) || act == Finish(t)
    requires Inv(s) && Enabled(s, act)
    ensures Safe(s, act)
  {
    assert t in s.threads && InSlice(s, t);
    hide Safe, Enabled;
    Before(s, t);
    hide Inv, ThreadOk, SharedOk, ClaimsApart;
    if act == ShareSelf(t) {
      SafeShareSelf(s, t);
    } else {
      SafeYield(s, t, act == Finish(t));
      SafeYieldAct(s, act, t);
    }
  }

  lemma SafeShareSelf(s: State, t: ThreadId)
    requires Enabled(s, ShareSelf(t)) && ThreadOk(s, t, s.threads[t])
    ensures Safe(s, ShareSelf(t))
  {
  }

  lemma SafeYield(s: State, t: ThreadId, ends: bool)
    requires InSlice(s, t) && ThreadOk(s, t, s.threads[t])
    ensures SwitchBackOk(s, t, s.threads[t].phase.fiber, ends, s.threads[t].phase.slice)
  {
    assert HeldBy(s.threads[t], s.threads[t].phase.fiber);
  }

  lemma SafeYieldAct(s: State, act: Act, t: ThreadId)
    requires act == Yield(t) || act == Finish(t)
    requires Enabled(s, act)
    requires SwitchBackOk(s, t, s.threads[t].phase.fiber, act == Finish(t), s.threads[t].phase.slice)
    ensures Safe(s, act)
  {
    hide SwitchBackOk;
  }

  lemma SafeLeaveIdle(s: State, t: ThreadId)
    requires Inv(s) && Enabled(s, LeaveIdle(t)) && Counts(s)
    ensures Safe(s, LeaveIdle(t))
  {
    assert t in s.threads && s.threads[t].phase.IdleKnows?;
    hide *;
    ActorBefore(s, LeaveIdle(t), t);
    IdleYields(s, t, s.threads[t].phase.stop);
    IdleCounts(s, t);
    LeaveIdleOk(s, t);
  }

  lemma IdleCounts(s: State, t: ThreadId)
    requires Counts(s) && t in s.threads && s.threads[t].phase.IdleKnows?
    ensures s.q.idle > 0
  {
    DecrementSafe(s, t);
  }

  lemma LeaveIdleOk(s: State, t: ThreadId)
    requires Enabled(s, LeaveIdle(t)) && s.q.idle > 0
    requires var th := s.threads[t]; th.idle.Some? && SwitchBackOk(s, t, th.idle.value, th.phase.stop, th.phase.slice)
    ensures Safe(s, LeaveIdle(t))
  {
    hide SwitchBackOk;
  }

  lemma IdleYields(s: State, t: ThreadId, ends: bool)
    requires t in s.threads && s.threads[t].phase.IdleKnows? && ThreadOk(s, t, s.threads[t])
    ensures s.threads[t].idle.Some? && SwitchBackOk(s, t, s.threads[t].idle.value, ends, s.threads[t].phase.slice)
  {
    assert HeldBy(s.threads[t], s.threads[t].idle.value);
  }

  lemma SafeDecrement(s: State, t: ThreadId)
    requires Enabled(s, Decrement(t)) && Counts(s)
    ensures Safe(s, Decrement(t))
  {
    DecrementSafe(s, t);
  }

  lemma SafeExit(s: State, t: ThreadId)
    requires Inv(s) && Enabled(s, Exit(t))
    ensures Safe(s, Exit(t))
  {
    ActorBefore(s, Exit(t), t);
    hide Inv, FibersOk;
  }

  // Whoever schedules a fiber has a handle on it, so it exists.
  lemma SafeSchedule(s: State, act: Act)
    requires act.Schedule? && Inv(s) && Enabled(s, act)
    ensures Safe(s, act)
  {
    if act.who.Some? {
      Before(s, act.who.value);
    }
    ScheduledAlive(s, s, act.who, act.batch);
  }

  lemma {:induction false} ScheduledAlive(s0: State, s: State, who: Option<ThreadId>, batch: seq<(Work,
      Option<ThreadId>)>)
    requires ClientsOk(s0) && s.fibers == s0.fibers && s.clients == s0.clients && s.threads == s0.threads
    requires who.Some? && InSlice(s0, who.value) ==> ThreadOk(s0, who.value, s0.threads[who.value])
    requires MayScheduleAll(s, who, batch)
    ensures BatchAlive(s, batch)
    decreases |batch|
  {
    if batch != [] {
      ScheduledAlive(s0, ScheduleOne(s, batch[0].0, batch[0].1), who, batch[1..]);
      assert forall j :: 1 <= j < |batch| ==> batch[j] == batch[1..][j - 1];
    }
  }
}
