/**
 Termination detection: the atomic counters say how many threads hold a task and how many
 are idle, and once stopping() has been seen to be true it stays true.
 */
module MachineCounts {
  import opened Outcomes
  import opened Fibers
  import opened Scheduling
  import opened Machine
  import opened MachineThreads

  // Between the pick and the decrement.
  predicate BusyPhase(p: Phase) {
    p == Got || p.Running? || p == Returned
  }

  function BusySet(threads: map<ThreadId, Thread>): set<ThreadId> {
    set t | t in threads && BusyPhase(threads[t].phase)
  }

  function IdleSet(threads: map<ThreadId, Thread>): set<ThreadId> {
    set t | t in threads && InIdle(threads[t])
  }

  predicate Counts(s: State) {
    s.q.active == |BusySet(s.threads)| && s.q.idle == |IdleSet(s.threads)|
  }

  // Nothing left to do, and nobody left who could schedule anything.
  predicate Quiet(s: State) {
    s.q.stopping && s.q.tasks == [] && BusySet(s.threads) == {}
  }

  // The thread has learned that stopping() holds, or has acted on it.
  predicate Knows(s: State, t: ThreadId) {
    t in s.threads &&
    (s.threads[t].phase.Left? || (s.threads[t].phase.IdleKnows? && s.threads[t].phase.stop) || IdleEnded(s, t))
  }

  predicate KnowsRightly(s: State) {
    forall t :: t in s.threads && Knows(s, t) ==> Quiet(s)
  }

  // ---------- the thread that acts ----------

  function Actor(act: Act): Option<ThreadId> {
    match act
    case EnterRun(t, _) => Some(t)
    case PickTask(t) => Some(t)
    case ResumeTask(t) => Some(t)
    case StartCallback(t, _) => Some(t)
    case Yield(t) => Some(t)
    case Finish(t) => Some(t)
    case Decrement(t) => Some(t)
    case Drop(t) => Some(t)
    case ResumeIdle(t) => Some(t)
    case CheckStopping(t) => Some(t)
    case LeaveIdle(t) => Some(t)
    case Exit(t) => Some(t)
    case _ => None
  }

  // A thread's step leaves the other threads and their fibers alone.
  predicate Local(s: State, s': State, t: ThreadId) {
    Spares(s, s', t) && t in s.threads && t in s'.threads && s'.threads == s.threads[t := s'.threads[t]]
  }

  lemma ActorIsLocal(s: State, act: Act, t: ThreadId)
    requires Inv(s) && Enabled(s, act) && Safe(s, act) && Actor(act) == Some(t)
    ensures Local(s, Next(s, act), t)
  {
    ActorThreads(s, act, t);
    Before(s, t);
    hide Enabled, Safe, Next, Inv, ThreadOk, SharedOk, ClaimsApart, Shared;
    ActorShared(s, act, t);
    SharedSpares(s, act, t);
  }

  lemma ActorShared(s: State, act: Act, t: ThreadId)
    requires Enabled(s, act) && Safe(s, act) && Actor(act) == Some(t)
    requires t in s.threads && ThreadOk(s, t, s.threads[t]) && SharedOk(s)
    ensures Shared(s, Next(s, act), t)
  {
    hide Enabled, Safe, Next, ThreadOk, SharedOk, Shared;
    match act
    case EnterRun(_, idle) => EnterRunShared(s, t, idle);
    case PickTask(_) => PickTaskShared(s, t);
    case ResumeTask(_) => ResumeTaskShared(s, t);
    case StartCallback(_, f) => StartCallbackFibers(s, t, f);
    case Yield(_) => YieldShared(s, t);
    case Finish(_) => FinishShared(s, t);
    case Decrement(_) => DecrementShared(s, t);
    case Drop(_) => DropShared(s, t);
    case ResumeIdle(_) => ResumeIdleShared(s, t);
    case CheckStopping(_) => CheckStoppingShared(s, t);
    case LeaveIdle(_) => LeaveIdleShared(s, t);
    case Exit(_) => ExitShared(s, t);
  }

  lemma SharedSpares(s: State, act: Act, t: ThreadId)
    requires Enabled(s, act) && Safe(s, act) && Shared(s, Next(s, act), t)
    ensures Spares(s, Next(s, act), t)
  {
    hide Enabled, Safe, Next, Spares;
  }

  lemma ActorThreads(s: State, act: Act, t: ThreadId)
    requires Enabled(s, act) && Safe(s, act) && Actor(act) == Some(t)
    ensures var s' := Next(s, act);
            t in s.threads && t in s'.threads && s'.threads == s.threads[t := s'.threads[t]]
  {
  }

  // ---------- the counters ----------

  function One(b: bool): nat {
    if b then 1 else 0
  }

  lemma SetsUpdated(threads: map<ThreadId, Thread>, t: ThreadId, th: Thread)
    ensures var b, i := BusySet(threads), IdleSet(threads);
            && BusySet(threads[t := th]) == (if BusyPhase(th.phase) then b + {t} else b - {t})
            && IdleSet(threads[t := th]) == (if InIdle(th) then i + {t} else i - {t})
            && |BusySet(threads[t := th])| == |b| - One(t in b) + One(BusyPhase(th.phase))
            && |IdleSet(threads[t := th])| == |i| - One(t in i) + One(InIdle(th))
  {
    BusyUpdated(threads, t, th);
    IdleUpdated(threads, t, th);
    hide BusySet, IdleSet, BusyPhase, InIdle;
    OneMore(BusySet(threads), t);
    OneMore(IdleSet(threads), t);
  }

  lemma BusyUpdated(threads: map<ThreadId, Thread>, t: ThreadId, th: Thread)
    ensures BusySet(threads[t := th]) == if BusyPhase(th.phase) then BusySet(threads) + {t} else BusySet(threads) - {t}
  {
    hide BusyPhase;
  }

  lemma IdleUpdated(threads: map<ThreadId, Thread>, t: ThreadId, th: Thread)
    ensures IdleSet(threads[t := th]) == if InIdle(th) then IdleSet(threads) + {t} else IdleSet(threads) - {t}
  {
    hide InIdle;
  }

  lemma OneMore(b: set<ThreadId>, t: ThreadId)
    ensures |b + {t}| == |b| - One(t in b) + 1 && |b - {t}| == |b| - One(t in b)
  {
    assert t in b ==> b + {t} == b;
    assert t !in b ==> b - {t} == b;
  }

  // Every step moves a counter exactly as it moves the thread.
  lemma CountersFollow(s: State, act: Act, t: ThreadId)
    requires Enabled(s, act) && Safe(s, act) && Actor(act) == Some(t)
    ensures var s' := Next(s, act);
            && t in s.threads && t in s'.threads
            && s'.q.active + One(BusyPhase(s.threads[t].phase)) == s.q.active + One(BusyPhase(s'.threads[t].phase))
            && s'.q.idle + One(InIdle(s.threads[t])) == s.q.idle + One(InIdle(s'.threads[t]))
  {
    if act.ResumeIdle? || act.CheckStopping? || act.LeaveIdle? || act.Exit? {
      IdleCountersFollow(s, act, t);
    } else {
      BusyCountersFollow(s, act, t);
    }
  }

  lemma IdleCountersFollow(s: State, act: Act, t: ThreadId)
    requires Enabled(s, act) && Safe(s, act) && Actor(act) == Some(t)
    requires act.ResumeIdle? || act.CheckStopping? || act.LeaveIdle? || act.Exit?
    ensures var s' := Next(s, act);
            && t in s.threads && t in s'.threads && s'.q.active == s.q.active
            && !BusyPhase(s.threads[t].phase) && !BusyPhase(s'.threads[t].phase)
            && s'.q.idle + One(InIdle(s.threads[t])) == s.q.idle + One(InIdle(s'.threads[t]))
  {
  }

  lemma BusyCountersFollow(s: State, act: Act, t: ThreadId)
    requires Enabled(s, act) && Safe(s, act) && Actor(act) == Some(t)
    requires !act.ResumeIdle? && !act.CheckStopping? && !act.LeaveIdle? && !act.Exit?
    ensures var s' := Next(s, act);
            && t in s.threads && t in s'.threads && s'.q.idle == s.q.idle
            && !InIdle(s.threads[t]) && !InIdle(s'.threads[t])
            && s'.q.active + One(BusyPhase(s.threads[t].phase)) == s.q.active + One(BusyPhase(s'.threads[t].phase))
  {
  }

  lemma OthersDoNotCount(s: State, act: Act)
    requires Enabled(s, act) && Safe(s, act) && Actor(act) == None
    ensures var s' := Next(s, act);
            && s'.q.active == s.q.active && s'.q.idle == s.q.idle
            && BusySet(s'.threads) == BusySet(s.threads) && IdleSet(s'.threads) == IdleSet(s.threads)
  {
    if act.Schedule? {
      ScheduleAllSame(s, act.batch);
    }
  }

  lemma KeepsCounts(s: State, act: Act)
    requires Inv(s) && Counts(s) && Enabled(s, act) && Safe(s, act)
    ensures Counts(Next(s, act))
  {
    hide Next, Enabled, Safe, Inv, Actor;
    match Actor(act)
    case Some(t) =>
      CountersFollow(s, act, t);
      ActorThreads(s, act, t);
      SetsUpdated(s.threads, t, Next(s, act).threads[t]);
      assert (t in BusySet(s.threads) <==> BusyPhase(s.threads[t].phase));
      assert (t in IdleSet(s.threads) <==> InIdle(s.threads[t]));
      hide BusySet, IdleSet;
    case None =>
      OthersDoNotCount(s, act);
      hide BusySet, IdleSet;
  }

  // Hence neither counter is ever decremented below zero.
  lemma DecrementSafe(s: State, t: ThreadId)
    requires Counts(s) && t in s.threads
    ensures BusyPhase(s.threads[t].phase) ==> s.q.active > 0
    ensures InIdle(s.threads[t]) ==> s.q.idle > 0
  {
    assert BusyPhase(s.threads[t].phase) ==> t in BusySet(s.threads);
    assert InIdle(s.threads[t]) ==> t in IdleSet(s.threads);
  }

  // ---------- stopping() ----------

  // Once everything is quiet, no step of anybody changes that.
  lemma QuietStays(s: State, act: Act)
    requires Quiet(s) && Enabled(s, act) && Safe(s, act)
    ensures Quiet(Next(s, act)) && Next(s, act).accepted == s.accepted && Next(s, act).done >= s.done
  {
    var s' := Next(s, act);
    NobodyBusy(s, act);
    match Actor(act)
    case Some(t) =>
      CountersFollow(s, act, t);
      ActorThreads(s, act, t);
      SetsUpdated(s.threads, t, s'.threads[t]);
      QuietActor(s, act, t);
    case None =>
      OthersDoNotCount(s, act);
  }

  lemma NobodyBusy(s: State, act: Act)
    requires Quiet(s) && Enabled(s, act)
    ensures !act.ResumeTask? && !act.StartCallback? && !act.Yield? && !act.Finish? && !act.Decrement? && !act.Schedule?
  {
    assert forall t :: t in s.threads && BusyPhase(s.threads[t].phase) ==> t in BusySet(s.threads);
  }

  lemma QuietActor(s: State, act: Act, t: ThreadId)
    requires s.q.tasks == [] && s.q.stopping && Enabled(s, act) && Safe(s, act) && Actor(act) == Some(t)
    requires !act.ResumeTask? && !act.StartCallback? && !act.Yield? && !act.Finish? && !act.Decrement?
    ensures var s' := Next(s, act);
            && t in s'.threads && !BusyPhase(s'.threads[t].phase)
            && s'.q.tasks == [] && s'.q.stopping && s'.accepted == s.accepted && s'.done >= s.done
  {
  }

  // stopping() is true in the code exactly when the machine is quiet.
  lemma StoppingIsQuiet(s: State)
    requires Counts(s)
    ensures IsStopping(s.q) <==> Quiet(s)
  {
  }

  // Whoever comes to know has known before, or has just called stopping().
  lemma WhoKnows(s: State, act: Act, u: ThreadId)
    requires Inv(s) && Enabled(s, act) && Safe(s, act) && Knows(Next(s, act), u)
    ensures Knows(s, u) || (act == CheckStopping(u) && IsStopping(s.q))
  {
    var s' := Next(s, act);
    match Actor(act)
    case Some(t) =>
      if u == t {
        KnowsSelf(s, act, t);
      } else {
        ActorIsLocal(s, act, t);
        hide Enabled, Safe, Next;
        OthersKnow(s, s', t, u);
      }
    case None =>
      KnowsQuiet(s, act, u);
  }

  lemma OthersKnow(s: State, s': State, t: ThreadId, u: ThreadId)
    requires Inv(s) && Local(s, s', t) && u != t && Knows(s', u)
    ensures Knows(s, u)
  {
    assert u in s.threads && s'.threads[u] == s.threads[u];
    Before(s, u);
    hide QueueOk, ClientsOk, ClaimsApart, HandOk, ControlOk, ThreadsOk;
    assert s.threads[u].idle.Some? ==> HeldBy(s'.threads[u], s.threads[u].idle.value);
  }

  lemma KnowsSelf(s: State, act: Act, t: ThreadId)
    requires Inv(s) && Enabled(s, act) && Safe(s, act) && Actor(act) == Some(t) && Knows(Next(s, act), t)
    ensures Knows(s, t) || (act == CheckStopping(t) && IsStopping(s.q))
  {
    hide *;
    ActorBefore(s, act, t);
    ActorNamed(act, t);
    if act.StartCallback? {
      KnowsStartCallback(s, t, act.f);
    } else if act.EnterRun? {
      KnowsEnterRun(s, t, act.idle);
    } else if act.LeaveIdle? || act.CheckStopping? {
      KnowsLeaving(s, act, t);
    } else if act.Exit? {
      KnowsExit(s, t);
    } else {
      KnowsWorking(s, act, t);
    }
  }

  lemma ActorNamed(act: Act, t: ThreadId)
    requires Actor(act) == Some(t)
    ensures act.LeaveIdle? ==> act == LeaveIdle(t)
    ensures act.CheckStopping? ==> act == CheckStopping(t)
    ensures act.Exit? ==> act == Exit(t)
    ensures act.StartCallback? ==> act == StartCallback(t, act.f)
    ensures act.EnterRun? ==> act == EnterRun(t, act.idle)
  {
  }

  lemma ActorBefore(s: State, act: Act, t: ThreadId)
    requires Inv(s) && Enabled(s, act) && Actor(act) == Some(t)
    ensures t in s.threads && ThreadOk(s, t, s.threads[t]) && FibersOk(s)
  {
    assert t in s.threads;
    hide Enabled;
    Before(s, t);
    hide ThreadOk, FibersOk, Inv, QueueOk, ClientsOk, ClaimsApart;
  }

  lemma KnowsStartCallback(s: State, t: ThreadId, f: FiberId)
    requires Enabled(s, StartCallback(t, f)) && Safe(s, StartCallback(t, f)) && ThreadOk(s, t, s.threads[t])
    requires FibersOk(s)
    requires Knows(Next(s, StartCallback(t, f)), t)
    ensures Knows(s, t)
  {
    StartedFibers(s, t, f);
    hide Next, Safe;
  }

  lemma KnowsEnterRun(s: State, t: ThreadId, idle: FiberId)
    requires Enabled(s, EnterRun(t, idle)) && Safe(s, EnterRun(t, idle))
    ensures !Knows(Next(s, EnterRun(t, idle)), t)
  {
  }

  lemma KnowsExit(s: State, t: ThreadId)
    requires Enabled(s, Exit(t))
    ensures Knows(s, t)
  {
  }

  lemma KnowsLeaving(s: State, act: Act, t: ThreadId)
    requires act == LeaveIdle(t) || act == CheckStopping(t)
    requires Enabled(s, act) && Safe(s, act) && ThreadOk(s, t, s.threads[t]) && Knows(Next(s, act), t)
    ensures Knows(s, t) || (act == CheckStopping(t) && IsStopping(s.q))
  {
  }

  lemma KnowsWorking(s: State, act: Act, t: ThreadId)
    requires !act.StartCallback? && !act.EnterRun? && !act.LeaveIdle? && !act.CheckStopping? && !act.Exit?
    requires Enabled(s, act) && Safe(s, act) && Actor(act) == Some(t) && ThreadOk(s, t, s.threads[t])
    requires Knows(Next(s, act), t)
    ensures Knows(s, t)
  {
  }

  lemma KnowsQuiet(s: State, act: Act, u: ThreadId)
    requires Inv(s) && Enabled(s, act) && Safe(s, act) && Actor(act) == None && Knows(Next(s, act), u)
    ensures Knows(s, u)
  {
    if act.Schedule? {
      ScheduleAllSame(s, act.batch);
    } else if u in s.threads {
      Before(s, u);
    }
  }

  lemma KeepsKnowsRightly(s: State, act: Act)
    requires Inv(s) && Counts(s) && KnowsRightly(s) && Enabled(s, act) && Safe(s, act)
    ensures KnowsRightly(Next(s, act))
  {
    var s' := Next(s, act);
    forall u | u in s'.threads && Knows(s', u)
      ensures Quiet(s')
    {
      WhoKnows(s, act, u);
      StoppingIsQuiet(s);
      hide *;
      hide Next, Enabled, Safe;
      KnowsThenQuiet(s, u, act == CheckStopping(u) && IsStopping(s.q));
      QuietStays(s, act);
    }
  }

  lemma KnowsThenQuiet(s: State, u: ThreadId, saw: bool)
    requires KnowsRightly(s) && (Knows(s, u) || (saw && Quiet(s)))
    ensures Quiet(s)
  {
    hide Quiet;
  }
}
