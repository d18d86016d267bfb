/**
 That the scheduler can always come to its end: from every reachable state in which stop() has
 been called and no task is pinned to a thread that has left, there is a way to the state in
 which stopping() holds and every thread has left run().
 */
module MachineDrain {
  import opened Outcomes
  import opened Fibers
  import opened Scheduling
  import opened Machine
  import opened MachineThreads
  import opened MachineCounts
  import opened MachineHistory
  import opened MachineSafety
  import opened MachineTheorems

  // ---------- sums over the threads ----------

  ghost function Sum(m: map<ThreadId, nat>): nat {
    if m == map[] then 0
    else
      var k :| k in m;
      m[k] + Sum(m - {k})
  }

  lemma {:induction false} SumRemove(m: map<ThreadId, nat>, k: ThreadId)
    requires k in m
    ensures Sum(m) == m[k] + Sum(m - {k})
    decreases |m|
  {
    var j :| j in m && Sum(m) == m[j] + Sum(m - {j});
    if j != k {
      assert m - {j} - {k} == m - {k} - {j};
      SumRemove(m - {j}, k);
      SumRemove(m - {k}, j);
    }
  }

  lemma {:induction false} SumAtMost(m: map<ThreadId, nat>, m': map<ThreadId, nat>)
    requires m'.Keys == m.Keys && forall t :: t in m ==> m'[t] <= m[t]
    ensures Sum(m') <= Sum(m)
    decreases |m|
  {
    if m != map[] {
      var k :| k in m;
      SumRemove(m, k);
      SumRemove(m', k);
      SumAtMost(m - {k}, m' - {k});
    }
  }

  lemma SumLess(m: map<ThreadId, nat>, m': map<ThreadId, nat>, k: ThreadId)
    requires m'.Keys == m.Keys && (forall t :: t in m ==> m'[t] <= m[t]) && k in m && m'[k] < m[k]
    ensures Sum(m') < Sum(m)
  {
    SumRemove(m, k);
    SumRemove(m', k);
    SumAtMost(m - {k}, m' - {k});
  }

  // ---------- emptying the queue ----------

  // How far a thread is from the head of its loop.
  function Rank(p: Phase): nat {
    match p
    case Left => 0
    case AtHead => 1
    case IdleKnows(_, _) => 2
    case Idling(_) => 3
    case NoTask => 4
    case Dropping => 5
    case Returned => 6
    case Running(_, _) => 7
    case Got => 8
    case Outside => 9
  }

  function Ranks(s: State): map<ThreadId, nat> {
    map t | t in s.threads :: Rank(s.threads[t].phase)
  }

  // Somebody can still run every task there is.
  predicate CanServe(s: State) {
    && s.q.stopping && (exists t :: t in s.threads && s.threads[t].phase != Left)
    && (forall j :: 0 <= j < |s.q.tasks| && s.q.tasks[j].pin.Some? ==>
          s.q.tasks[j].pin.value in s.threads && s.threads[s.q.tasks[j].pin.value].phase != Left)
  }

  // What a thread does next; a task yields if it is queued and returns if it is not.
  function Serves(s: State, t: ThreadId, unused: FiberId): Act
    requires t in s.threads
  {
    if s.threads[t].phase.Running? && !Queued(s.q, s.threads[t].phase.fiber) then Finish(t) else OwnStep(s, t, unused)
  }

  // A thread that is neither at the head of its loop nor gone comes nearer to it.
  lemma ServesRank(s: State, t: ThreadId, unused: FiberId)
    requires t in s.threads && s.threads[t].phase != AtHead && s.threads[t].phase != Left && !IdleEnded(s, t)
    requires var act := Serves(s, t, unused); Enabled(s, act) && Safe(s, act) && Actor(act) == Some(t)
    ensures var s' := Next(s, Serves(s, t, unused));
            && t in s'.threads && Rank(s'.threads[t].phase) < Rank(s.threads[t].phase)
            && s'.threads[t].phase != Left && s'.q.tasks == s.q.tasks && s'.q.stopping == s.q.stopping
  {
    var act := Serves(s, t, unused);
    if act.ResumeTask? || act.StartCallback? || act.Yield? || act.Finish? || act.Decrement? {
      BusyRank(s, act, t);
    } else {
      FreeRank(s, act, t);
    }
  }

  lemma BusyRank(s: State, act: Act, t: ThreadId)
    requires act.ResumeTask? || act.StartCallback? || act.Yield? || act.Finish? || act.Decrement?
    requires Enabled(s, act) && Safe(s, act) && Actor(act) == Some(t)
    ensures var s' := Next(s, act);
            && t in s.threads && t in s'.threads && Rank(s'.threads[t].phase) < Rank(s.threads[t].phase)
            && s'.threads[t].phase != Left && s'.q.tasks == s.q.tasks && s'.q.stopping == s.q.stopping
  {
  }

  lemma FreeRank(s: State, act: Act, t: ThreadId)
    requires act.EnterRun? || act.Drop? || act.ResumeIdle? || act.CheckStopping? || act.LeaveIdle?
    requires Enabled(s, act) && Safe(s, act) && Actor(act) == Some(t)
    ensures var s' := Next(s, act);
            && t in s.threads && t in s'.threads && Rank(s'.threads[t].phase) < Rank(s.threads[t].phase)
            && s'.threads[t].phase != Left && s'.q.tasks == s.q.tasks && s'.q.stopping == s.q.stopping
  {
  }

  lemma ServesEnabled(s: State, t: ThreadId, unused: FiberId)
    requires Inv(s) && t in s.threads && s.threads[t].phase != Left && s.q.stopping && unused !in s.roles
    ensures var act := Serves(s, t, unused); Enabled(s, act) && Actor(act) == Some(t)
  {
    if InRun(s.threads[t]) {
      OwnStepEnabled(s, t, unused);
    }
    hide Inv;
  }

  // While stopping() does not hold, nobody has learned that it does.
  lemma NobodyKnows(s: State, t: ThreadId)
    requires KnowsRightly(s) && Counts(s) && !IsStopping(s.q) && t in s.threads
    ensures s.threads[t].phase != Left && !IdleEnded(s, t)
  {
    StoppingIsQuiet(s);
    assert Knows(s, t) ==> Quiet(s);
    hide Quiet;
  }

  // If no thread is busy, the first task can be taken by the thread it is meant for.
  lemma FirstIsEligible(s: State, t: ThreadId)
    requires Inv(s) && ExecOk(s) && BusySet(s.threads) == {} && s.q.tasks != []
    requires s.q.tasks[0].pin == None || s.q.tasks[0].pin == Some(t)
    ensures Eligible(s.q.tasks[0], t, ExecFibers(s.fibers))
  {
    NoneRuns(s);
    assert s.q.tasks[0].work.FiberWork? ==> HasRole(s, s.q.tasks[0].work.fiber, TaskFiber);
    hide RunBySome, Inv;
  }

  lemma NoneRuns(s: State)
    requires BusySet(s.threads) == {}
    ensures forall f :: !RunBySome(s, f)
  {
    assert forall u :: u in s.threads ==> u !in BusySet(s.threads);
  }

  lemma PickShrinks(s: State, t: ThreadId)
    requires Enabled(s, PickTask(t)) && Safe(s, PickTask(t))
    requires s.q.tasks != [] && Eligible(s.q.tasks[0], t, ExecFibers(s.fibers))
    ensures var s' := Next(s, PickTask(t));
            && t in s'.threads && s'.threads[t].phase == Got
            && s'.q.tasks == s.q.tasks[1..] && s'.q.stopping == s.q.stopping
  {
    assert FirstEligible(s.q.tasks, t, ExecFibers(s.fibers)) == 0;
    assert s.q.tasks[..0] + s.q.tasks[1..] == s.q.tasks[1..];
  }

  lemma StillServed(s: State, s': State, t: ThreadId)
    requires CanServe(s) && t in s.threads && t in s'.threads && s'.threads == s.threads[t := s'.threads[t]]
    requires s'.threads[t].phase != Left && s'.q.stopping
    requires s'.q.tasks == s.q.tasks || (s.q.tasks != [] && s'.q.tasks == s.q.tasks[1..])
    ensures CanServe(s')
  {
    assert forall j :: 0 <= j < |s'.q.tasks| ==> s'.q.tasks[j] in s.q.tasks;
  }

  lemma RanksFall(s: State, s': State, t: ThreadId)
    requires t in s.threads && t in s'.threads && s'.threads == s.threads[t := s'.threads[t]]
    requires Rank(s'.threads[t].phase) < Rank(s.threads[t].phase)
    ensures Sum(Ranks(s')) < Sum(Ranks(s))
  {
    hide Rank;
    SumLess(Ranks(s), Ranks(s'), t);
  }

  ghost predicate Nearer(s: State, s': State) {
    |s'.q.tasks| < |s.q.tasks| || (|s'.q.tasks| == |s.q.tasks| && Sum(Ranks(s')) < Sum(Ranks(s)))
  }

  // The thread that serves next: a busy one, or the one that the first task is meant for.
  ghost predicate Server(s: State, t: ThreadId) {
    && t in s.threads && s.threads[t].phase != Left
    && (BusyPhase(s.threads[t].phase) ||
        (BusySet(s.threads) == {} && s.q.tasks != [] && (s.q.tasks[0].pin == None || s.q.tasks[0].pin == Some(t))))
  }

  lemma SomeServer(s: State) returns (t: ThreadId)
    requires CanServe(s) && Counts(s) && !IsStopping(s.q)
    ensures Server(s, t)
  {
    if BusySet(s.threads) != {} {
      t :| t in BusySet(s.threads);
    } else {
      assert s.q.tasks != [];
      if s.q.tasks[0].pin.Some? {
        t := s.q.tasks[0].pin.value;
      } else {
        t :| t in s.threads && s.threads[t].phase != Left;
      }
    }
  }

  lemma ServerStep(s: State, t: ThreadId, unused: FiberId)
    requires Sound(s) && CanServe(s) && !IsStopping(s.q) && Server(s, t) && unused !in s.roles
    ensures var act := Serves(s, t, unused);
            && Enabled(s, act) && Safe(s, act) && CanServe(Next(s, act)) && Nearer(s, Next(s, act))
  {
    var act := Serves(s, t, unused);
    assert Inv(s) && KnowsRightly(s) && Counts(s) && ExecOk(s) && t in s.threads && s.q.stopping;
    NobodyKnows(s, t);
    ServesEnabled(s, t, unused);
    EnabledIsSafe(s, act);
    var s' := Next(s, act);
    ActorThreads(s, act, t);
    if s.threads[t].phase == AtHead {
      assert act == PickTask(t) && !BusyPhase(s.threads[t].phase);
      hide Sound, Enabled, Safe, Next, Serves;
      FirstIsEligible(s, t);
      PickShrinks(s, t);
      StillServed(s, s', t);
    } else {
      hide Sound, Enabled, Safe, Next, Serves, Server;
      ServesRank(s, t, unused);
      StillServed(s, s', t);
      RanksFall(s, s', t);
    }
  }

  lemma {:induction false} CanEmpty(useCaller: bool, acts: seq<Act>) returns (more: seq<Act>)
    requires Exec(useCaller, acts).Ok? && CanServe(Exec(useCaller, acts).state)
    ensures Exec(useCaller, acts + more).Ok? && IsStopping(Exec(useCaller, acts + more).state.q)
    decreases |Exec(useCaller, acts).state.q.tasks|, Sum(Ranks(Exec(useCaller, acts).state))
  {
    hide Exec, CanServe, IsStopping, Ranks, Sum;
    if IsStopping(Exec(useCaller, acts).state.q) {
      more := [];
      assert acts + more == acts;
    } else {
      var act := OneNearer(useCaller, acts);
      var acts' := acts + [act];
      var rest := CanEmpty(useCaller, acts');
      more := [act] + rest;
      assert acts' + rest == acts + more;
    }
  }

  lemma OneNearer(useCaller: bool, acts: seq<Act>) returns (act: Act)
    requires Exec(useCaller, acts).Ok? && CanServe(Exec(useCaller, acts).state)
    requires !IsStopping(Exec(useCaller, acts).state.q)
    ensures Exec(useCaller, acts + [act]).Ok? && CanServe(Exec(useCaller, acts + [act]).state)
    ensures Nearer(Exec(useCaller, acts).state, Exec(useCaller, acts + [act]).state)
  {
    var s := Exec(useCaller, acts).state;
    NeverCrashes(useCaller, acts);
    assert Counts(s);
    SomethingUnused(s.roles.Keys);
    var unused: FiberId :| unused !in s.roles.Keys;
    hide Exec, Sound, CanServe, Server, Nearer, IsStopping, Counts, Serves, Enabled, Safe, Next;
    var t := SomeServer(s);
    assert t in s.threads by { ServerIsThread(s, t); }
    act := Serves(s, t, unused);
    ServerStep(s, t, unused);
    GoesOn(useCaller, acts, act);
  }

  lemma ServerIsThread(s: State, t: ThreadId)
    requires Server(s, t)
    ensures t in s.threads
  {
  }

  // ---------- everybody leaves ----------

  predicate AllLeft(s: State) {
    forall t :: t in s.threads ==> s.threads[t].phase == Left
  }

  function Distances(s: State): map<ThreadId, nat> {
    map t | t in s.threads :: StepsLeft(s, t)
  }

  lemma OneCloserToAll(useCaller: bool, acts: seq<Act>) returns (act: Act)
    requires Exec(useCaller, acts).Ok? && IsStopping(Exec(useCaller, acts).state.q)
    requires !AllLeft(Exec(useCaller, acts).state)
    ensures Exec(useCaller, acts + [act]).Ok? && IsStopping(Exec(useCaller, acts + [act]).state.q)
    ensures Sum(Distances(Exec(useCaller, acts + [act]).state)) < Sum(Distances(Exec(useCaller, acts).state))
  {
    var s := Exec(useCaller, acts).state;
    NeverCrashes(useCaller, acts);
    assert Inv(s) && Counts(s);
    SomethingUnused(s.roles.Keys);
    var unused: FiberId :| unused !in s.roles.Keys;
    var t :| t in s.threads && s.threads[t].phase != Left;
    assert s.q.stopping;
    hide Exec, Sound, Inv, Enabled, Safe, Next, Serves, StepsLeft;
    act := Serves(s, t, unused);
    ServesEnabled(s, t, unused);
    GoesOn(useCaller, acts, act);
    StoppingIsFinal(useCaller, acts, [act]);
    StoppingIsQuiet(s);
    DistancesFall(s, act, t);
  }

  lemma DistancesFall(s: State, act: Act, t: ThreadId)
    requires Inv(s) && Quiet(s) && IsStopping(s.q) && Enabled(s, act) && Safe(s, act)
    requires Actor(act) == Some(t) && t in s.threads
    ensures Sum(Distances(Next(s, act))) < Sum(Distances(s))
  {
    var s' := Next(s, act);
    ActorThreads(s, act, t);
    hide Inv, Quiet, IsStopping, Enabled, Safe, Next, StepsLeft;
    forall u | u in s.threads
      ensures u in s'.threads && StepsLeft(s', u) + One(Actor(act) == Some(u)) <= StepsLeft(s, u)
    {
      QuietCounts(s, act, u);
    }
    SumLess(Distances(s), Distances(s'), t);
  }

  lemma {:induction false} CanAllLeave(useCaller: bool, acts: seq<Act>) returns (more: seq<Act>)
    requires Exec(useCaller, acts).Ok? && IsStopping(Exec(useCaller, acts).state.q)
    ensures Exec(useCaller, acts + more).Ok? && AllLeft(Exec(useCaller, acts + more).state)
    decreases Sum(Distances(Exec(useCaller, acts).state))
  {
    hide Exec, IsStopping, Sum, Distances;
    if AllLeft(Exec(useCaller, acts).state) {
      more := [];
      assert acts + more == acts;
    } else {
      hide AllLeft;
      var act := OneCloserToAll(useCaller, acts);
      var acts' := acts + [act];
      var rest := CanAllLeave(useCaller, acts');
      more := [act] + rest;
      assert acts' + rest == acts + more;
    }
  }

  // Once stop() has been called, and as long as no task waits for a thread that has left or
  // was never there, the scheduler can come to its end, whatever state it is in: the queue is
  // emptied, every accepted task is done and every thread has left run().
  lemma CanEnd(useCaller: bool, acts: seq<Act>) returns (more: seq<Act>)
    requires Exec(useCaller, acts).Ok? && CanServe(Exec(useCaller, acts).state)
    ensures Exec(useCaller, acts + more).Ok?
    ensures var s' := Exec(useCaller, acts + more).state;
            && AllLeft(s') && s'.q.tasks == []
            && forall i :: 0 <= i < |s'.accepted| ==> i in s'.done
  {
    var first := CanEmpty(useCaller, acts);
    hide Exec;
    var last := CanAllLeave(useCaller, acts + first);
    more := first + last;
    assert acts + first + last == acts + more;
    StoppingIsFinal(useCaller, acts + first, last);
    StoppingMeansDone(useCaller, acts + more);
  }
}
