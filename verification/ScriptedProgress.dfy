/**
 Scripts that keep the rule for clients are never in the way of the scheduler: whatever a
 running script says next is allowed and safe, whatever the other threads are doing.
 */
module ScriptedProgress {
  import opened Outcomes
  import opened Fibers
  import opened Scheduling
  import opened Worklists
  import opened Machine
  import opened MachineThreads
  import opened MachineOwnership
  import opened MachineCounts
  import opened MachineSafety
  import MachineTheorems
  import opened ScriptedRuns

  // ---------- the next action of a script ----------

  // What the code of the fiber that thread t runs says to do, with a pin and a name for a new
  // fiber of the environment's choice.
  function Prescribed(x: Scripted, t: ThreadId, f: FiberId, pin: Option<ThreadId>): Move
    requires RunsCode(x, t)
  {
    match CodeAt(x, t)
    case Return => DoReturn(t)
    case Emit(_, _) => DoEmit(t)
    case Spawn(_, _, _, _) => DoSpawn(t, f, pin)
    case Requeue(_, _) => DoRequeue(t, pin)
    case Suspend(_) => DoSuspend(t)
  }

  lemma AllowedOne(s: State, act: Act)
    requires Sound(s) && Enabled(s, act)
    ensures Safe(s, act) && Machine.Step(s, act) == Ok(Next(s, act)) && Sound(Next(s, act))
  {
    hide Sound, Enabled, Safe, Next;
    EnabledIsSafe(s, act);
    KeepsSound(s, act);
  }

  lemma MayScheduleOne(s: State, who: Option<ThreadId>, work: Work, pin: Option<ThreadId>)
    ensures MayScheduleAll(s, who, Single(work, pin)) <==> MaySchedule(s, who, work)
  {
    assert Single(work, pin)[1..] == [] && Single(work, pin)[0] == (work, pin);
    hide MaySchedule;
  }

  // A running fiber that has not queued itself may do so.
  lemma MayRequeue(s: State, t: ThreadId, f: FiberId, pin: Option<ThreadId>)
    requires Inv(s) && InSlice(s, t) && s.threads[t].phase.fiber == f && !Queued(s.q, f)
    ensures Enabled(s, Schedule(Some(t), Single(FiberWork(f), pin), {}))
  {
    assert Claim(s.threads[t]) == Some(f);
    assert forall u :: u in s.threads && s.threads[u].phase == Got ==> Claim(s.threads[u]) != Some(f) by {
      assert ClaimsApart(s);
      hide Inv, Claim;
    }
    Before(s, t);
    hide Inv, SharedOk, ClaimsApart, SystemOk, IdleOk, ControlOk;
    assert MaySchedule(s, Some(t), FiberWork(f));
    MayScheduleOne(s, Some(t), FiberWork(f), pin);
    hide MaySchedule, MayScheduleAll, ThreadOk;
  }

  // A running fiber may schedule a callback, and a fiber that it has just made.
  lemma MaySpawnCallback(s: State, t: ThreadId, c: nat, pin: Option<ThreadId>)
    requires InSlice(s, t)
    ensures Enabled(s, Schedule(Some(t), Single(CallbackWork(c), pin), {}))
  {
    MayScheduleOne(s, Some(t), CallbackWork(c), pin);
    hide MayScheduleAll;
  }

  lemma MaySpawnFiber(s: State, t: ThreadId, f: FiberId, pin: Option<ThreadId>)
    requires Inv(s) && InSlice(s, t) && f !in s.roles
    ensures Enabled(s, CreateFiber(f))
    ensures Safe(s, CreateFiber(f)) ==>
              Enabled(Next(s, CreateFiber(f)), Schedule(Some(t), Single(FiberWork(f), pin), {f}))
  {
    var s1 := Next(s, CreateFiber(f));
    NewIsNowhere(s, f);
    assert MaySchedule(s1, Some(t), FiberWork(f)) by { hide Inv; }
    MayScheduleOne(s1, Some(t), FiberWork(f), pin);
    assert InSlice(s1, t) && f in s1.clients && Single(FiberWork(f), pin)[0].0 == FiberWork(f);
    hide MaySchedule, MayScheduleAll, Inv, Next;
  }

  lemma NewIsNowhere(s: State, f: FiberId)
    requires Inv(s) && f !in s.roles
    ensures !Queued(s.q, f)
    ensures forall u :: u in s.threads && s.threads[u].phase == Got ==> Claim(s.threads[u]) != Some(f)
  {
    forall u | u in s.threads && s.threads[u].phase == Got
      ensures Claim(s.threads[u]) != Some(f)
    {
      assert ThreadOk(s, u, s.threads[u]);
    }
  }

  lemma SpawnGoes(x: Scripted, t: ThreadId, f: FiberId, pin: Option<ThreadId>)
    requires Sound(x.s) && RunsCode(x, t) && CodeAt(x, t).Spawn? && f !in x.s.roles
    ensures Play(x, DoSpawn(t, f, pin)).Ok?
  {
    var m := DoSpawn(t, f, pin);
    SpawnActs(x, t, f, pin);
    hide *;
    SoundInv(x.s);
    if CodeAt(x, t).asFiber {
      SpawnTwo(x.s, t, f, pin);
      PlayGoes(x, m, StepAll(x.s, ActsOf(x, m)).state);
    } else {
      MaySpawnCallback(x.s, t, x.nextCallback, pin);
      GoesOne(x, m, Schedule(Some(t), Single(CallbackWork(x.nextCallback), pin), {}));
    }
  }

  lemma SpawnActs(x: Scripted, t: ThreadId, f: FiberId, pin: Option<ThreadId>)
    requires RunsCode(x, t) && CodeAt(x, t).Spawn?
    ensures Fits(x, DoSpawn(t, f, pin)) && InSlice(x.s, t)
    ensures ActsOf(x, DoSpawn(t, f, pin)) ==
            if CodeAt(x, t).asFiber then [CreateFiber(f), Schedule(Some(t), Single(FiberWork(f), pin), {f})]
            else [Schedule(Some(t), Single(CallbackWork(x.nextCallback), pin), {})]
  {
    hide Single;
  }

  lemma SpawnTwo(s: State, t: ThreadId, f: FiberId, pin: Option<ThreadId>)
    requires Sound(s) && Inv(s) && InSlice(s, t) && f !in s.roles
    ensures StepAll(s, [CreateFiber(f), Schedule(Some(t), Single(FiberWork(f), pin), {f})]).Ok?
  {
    var make, queue := CreateFiber(f), Schedule(Some(t), Single(FiberWork(f), pin), {f});
    hide Sound, Inv, Enabled, Safe, Next;
    StepTwo(s, make, queue);
    MaySpawnFiber(s, t, f, pin);
    AllowedOne(s, make);
    AllowedOne(Next(s, make), queue);
  }

  lemma RequeueGoes(x: Scripted, t: ThreadId, pin: Option<ThreadId>)
    requires Sound(x.s) && RunsCode(x, t) && CodeAt(x, t).Requeue? && !Queued(x.s.q, x.s.threads[t].phase.fiber)
    ensures Play(x, DoRequeue(t, pin)).Ok?
  {
    RequeueActs(x, t, pin);
    hide *;
    var g, m := x.s.threads[t].phase.fiber, DoRequeue(t, pin);
    SoundInv(x.s);
    MayRequeue(x.s, t, g, pin);
    GoesOne(x, m, Schedule(Some(t), Single(FiberWork(g), pin), {}));
  }

  lemma SoundInv(s: State)
    requires Sound(s)
    ensures Inv(s)
  {
    hide Inv;
  }

  lemma RequeueActs(x: Scripted, t: ThreadId, pin: Option<ThreadId>)
    requires RunsCode(x, t) && CodeAt(x, t).Requeue?
    ensures Fits(x, DoRequeue(t, pin)) && InSlice(x.s, t)
    ensures ActsOf(x, DoRequeue(t, pin)) == [Schedule(Some(t), Single(FiberWork(x.s.threads[t].phase.fiber), pin), {})]
  {
    hide Single;
  }

  lemma EndActs(x: Scripted, m: Move)
    requires (m.DoReturn? || m.DoSuspend?) && Fits(x, m)
    ensures ActsOf(x, m) == [EndOf(m)] && InSlice(x.s, m.t)
  {
  }

  lemma EndEnabled(s: State, m: Move)
    requires (m.DoReturn? || m.DoSuspend?) && InSlice(s, m.t)
    requires m.DoReturn? ==> !Queued(s.q, s.threads[m.t].phase.fiber)
    ensures Enabled(s, EndOf(m))
  {
    hide Queued;
  }

  lemma EmitGoes(x: Scripted, t: ThreadId)
    requires RunsCode(x, t) && CodeAt(x, t).Emit?
    ensures Play(x, DoEmit(t)).Ok?
  {
    assert Fits(x, DoEmit(t)) && ActsOf(x, DoEmit(t)) == [] && StepAll(x.s, []) == Ok(x.s);
    hide *;
    PlayGoes(x, DoEmit(t), x.s);
  }

  lemma EndGoes(x: Scripted, m: Move)
    requires m.DoReturn? || m.DoSuspend?
    requires Sound(x.s) && Fits(x, m) && (m.DoReturn? ==> !Queued(x.s.q, x.s.threads[m.t].phase.fiber))
    ensures Play(x, m).Ok?
  {
    hide *;
    EndActs(x, m);
    EndEnabled(x.s, m);
    GoesOne(x, m, EndOf(m));
  }

  lemma OtherGoes(x: Scripted, t: ThreadId, f: FiberId, pin: Option<ThreadId>)
    requires Sound(x.s) && RunsCode(x, t) && !CodeAt(x, t).Spawn?
    requires Disciplined(CodeAt(x, t), Queued(x.s.q, x.s.threads[t].phase.fiber))
    ensures Play(x, Prescribed(x, t, f, pin)).Ok?
  {
    hide Sound, Queued, Play;
    match CodeAt(x, t)
    case Emit(_, _) => EmitGoes(x, t);
    case Requeue(_, _) => RequeueGoes(x, t, pin);
    case Return => EndGoes(x, DoReturn(t));
    case Suspend(_) => EndGoes(x, DoSuspend(t));
  }

  lemma GoesOne(x: Scripted, m: Move, act: Act)
    requires Sound(x.s) && Fits(x, m) && ActsOf(x, m) == [act] && Enabled(x.s, act)
    ensures Safe(x.s, act) && Play(x, m) == Ok(Effect(x, m).(s := Next(x.s, act)))
  {
    hide *;
    StepOne(x.s, act);
    AllowedOne(x.s, act);
    PlayGoes(x, m, Next(x.s, act));
  }

  lemma PlayGoes(x: Scripted, m: Move, s': State)
    requires Fits(x, m) && StepAll(x.s, ActsOf(x, m)) == Ok(s')
    ensures Play(x, m) == Ok(Effect(x, m).(s := s'))
  {
    hide Fits, ActsOf, StepAll, Effect;
  }

  // A script's next action goes through if and only if it keeps the rule there: a task that is
  // queued neither returns nor queues itself again.
  lemma NextActionIff(x: Scripted, t: ThreadId, f: FiberId, pin: Option<ThreadId>)
    requires Sound(x.s) && RunsCode(x, t) && f !in x.s.roles
    ensures Play(x, Prescribed(x, t, f, pin)).Ok? <==>
              (CodeAt(x, t).Return? || CodeAt(x, t).Requeue? ==> !Queued(x.s.q, x.s.threads[t].phase.fiber))
  {
    hide Sound, Queued, Play;
    match CodeAt(x, t)
    case Emit(_, _) => EmitGoes(x, t);
    case Spawn(_, _, _, _) => SpawnGoes(x, t, f, pin);
    case Suspend(_) => EndGoes(x, DoSuspend(t));
    case Requeue(_, _) =>
      if Queued(x.s.q, x.s.threads[t].phase.fiber) {
        RequeueStops(x, t, pin);
      } else {
        RequeueGoes(x, t, pin);
      }
    case Return =>
      if Queued(x.s.q, x.s.threads[t].phase.fiber) {
        ReturnStops(x, t);
      } else {
        EndGoes(x, DoReturn(t));
      }
  }

  lemma RequeueStops(x: Scripted, t: ThreadId, pin: Option<ThreadId>)
    requires RunsCode(x, t) && CodeAt(x, t).Requeue? && Queued(x.s.q, x.s.threads[t].phase.fiber)
    ensures Play(x, DoRequeue(t, pin)) == Blocked
  {
    var g := x.s.threads[t].phase.fiber;
    var act := Schedule(Some(t), Single(FiberWork(g), pin), {});
    MayScheduleOne(x.s, Some(t), FiberWork(g), pin);
    assert !Enabled(x.s, act);
    StepOne(x.s, act);
    hide Enabled, StepAll, Queued;
  }

  lemma ReturnStops(x: Scripted, t: ThreadId)
    requires RunsCode(x, t) && CodeAt(x, t).Return? && Queued(x.s.q, x.s.threads[t].phase.fiber)
    ensures Play(x, DoReturn(t)) == Blocked
  {
    assert !Enabled(x.s, Finish(t));
    StepOne(x.s, Finish(t));
    hide Enabled, StepAll, Queued;
  }

  // ---------- in every reachable state ----------

  // What a thread inside run() does next; the scheduler decides it, or the script does.
  function NextMove(x: Scripted, t: ThreadId, f: FiberId, pin: Option<ThreadId>): Move
    requires t in x.s.threads && (x.s.threads[t].phase.Running? ==> RunsCode(x, t))
  {
    if x.s.threads[t].phase.Running? then Prescribed(x, t, f, pin)
    else if StartsCallback(x, t) then Begin(t, f)
    else Quietly(MachineTheorems.OwnStep(x.s, t, f))
  }

  // Every script that runs has code, and every callback that a thread has picked.
  lemma CodeThere(x: Scripted, t: ThreadId)
    requires Whole(x) && t in x.s.threads
    ensures InSlice(x.s, t) ==> RunsCode(x, t)
    ensures Picks(x.s.threads[t]).Some? ==> StartsCallback(x, t)
  {
    if InSlice(x.s, t) {
      assert RunBySome(x.s, x.s.threads[t].phase.fiber) && Placed(x.s, x.s.threads[t].phase.fiber);
    }
    if Picks(x.s.threads[t]).Some? {
      var c := Picks(x.s.threads[t]).value;
      assert Holds(x.s.threads[t], c) && InSomeHand(x.s, c) && CallbackPlaced(x.s, c);
    }
    hide Unique;
  }

  lemma NextGoes(x: Scripted, t: ThreadId, f: FiberId, pin: Option<ThreadId>)
    requires Sound(x.s) && Whole(x) && Obeys(x) && t in x.s.threads && InRun(x.s.threads[t]) && f !in x.s.roles
    ensures x.s.threads[t].phase.Running? ==> RunsCode(x, t)
    ensures Play(x, NextMove(x, t, f, pin)).Ok?
  {
    CodeThere(x, t);
    assert Inv(x.s);
    hide Whole, Sound, Inv;
    if x.s.threads[t].phase.Running? {
      RunningGoes(x, t, f, pin);
    } else {
      MachineTheorems.OwnStepEnabled(x.s, t, f);
      QuietGoes(x, t, f, pin);
    }
  }

  lemma RunningGoes(x: Scripted, t: ThreadId, f: FiberId, pin: Option<ThreadId>)
    requires Sound(x.s) && Obeys(x) && RunsCode(x, t) && f !in x.s.roles
    ensures Play(x, Prescribed(x, t, f, pin)).Ok?
  {
    var g := x.s.threads[t].phase.fiber;
    assert RunBySome(x.s, g) && (Requeued(x.s, g) <==> Queued(x.s.q, g));
    assert Disciplined(CodeAt(x, t), Queued(x.s.q, g));
    hide *;
    if CodeAt(x, t).Spawn? {
      SpawnGoes(x, t, f, pin);
    } else {
      OtherGoes(x, t, f, pin);
    }
  }

  lemma QuietGoes(x: Scripted, t: ThreadId, f: FiberId, pin: Option<ThreadId>)
    requires Sound(x.s) && t in x.s.threads && InRun(x.s.threads[t]) && !x.s.threads[t].phase.Running?
    requires Picks(x.s.threads[t]).Some? ==> StartsCallback(x, t)
    requires var act := MachineTheorems.OwnStep(x.s, t, f); Enabled(x.s, act) && Actor(act) == Some(t)
    ensures Play(x, NextMove(x, t, f, pin)).Ok?
  {
    hide *;
    QuietMove(x, t, f, pin);
    GoesOne(x, NextMove(x, t, f, pin), MachineTheorems.OwnStep(x.s, t, f));
  }

  lemma QuietMove(x: Scripted, t: ThreadId, f: FiberId, pin: Option<ThreadId>)
    requires t in x.s.threads && InRun(x.s.threads[t]) && !x.s.threads[t].phase.Running?
    requires Picks(x.s.threads[t]).Some? ==> StartsCallback(x, t)
    requires Enabled(x.s, MachineTheorems.OwnStep(x.s, t, f))
    ensures Fits(x, NextMove(x, t, f, pin))
    ensures ActsOf(x, NextMove(x, t, f, pin)) == [MachineTheorems.OwnStep(x.s, t, f)]
  {
    hide IdleEnded;
  }

  // If the scripts scheduled from outside keep the rule for clients, then in every reachable
  // state every thread inside run() can take its next step, whatever the others do: a running
  // fiber has code, and what its code says next is allowed and safe, for every pin and every
  // name of a new fiber; a picked callback can begin.
  lemma ScriptsNeverStuck(useCaller: bool, moves: seq<Move>, t: ThreadId, f: FiberId, pin: Option<ThreadId>)
    requires PlayAll(useCaller, moves).Ok? && AllDisciplined(PlayAll(useCaller, moves).state.given)
    requires t in PlayAll(useCaller, moves).state.s.threads && InRun(PlayAll(useCaller, moves).state.s.threads[t])
    requires f !in PlayAll(useCaller, moves).state.s.roles
    ensures var x := PlayAll(useCaller, moves).state;
            && (x.s.threads[t].phase.Running? ==> RunsCode(x, t))
            && PlayAll(useCaller, moves + [NextMove(x, t, f, pin)]).Ok?
  {
    var x := PlayAll(useCaller, moves).state;
    ScriptsRunSafely(useCaller, moves);
    assert Sound(x.s) && Whole(x) && Obeys(x) by { hide Sound, Whole, Obeys, Balanced, PlayAll; }
    assert PlayAll(useCaller, moves) == Ok(x);
    hide *;
    NextGoes(x, t, f, pin);
    var m := NextMove(x, t, f, pin);
    PlaysOn(useCaller, moves, m);
  }

  lemma PlaysOn(useCaller: bool, moves: seq<Move>, m: Move)
    requires PlayAll(useCaller, moves).Ok?
    ensures PlayAll(useCaller, moves + [m]) == Play(PlayAll(useCaller, moves).state, m)
  {
    assert (moves + [m])[..|moves|] == moves;
    hide Play;
  }
}
