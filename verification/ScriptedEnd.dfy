/**
 Scripts that keep the rule for clients always leave a way to the end: from every reachable
 state after stop(), with no task waiting for a thread outside run(), the scripts can be run
 until nothing is left and every thread has left run().
 */
module ScriptedEnd {
  import opened Outcomes
  import opened Fibers
  import opened Scheduling
  import opened Worklists
  import opened Machine
  import opened MachineThreads
  import opened MachineCounts
  import opened MachineSafety
  import MachineTheorems
  import opened MachineDrain
  import opened ScriptedRuns
  import opened ScriptedProgress

  // What is left to run.
  ghost function ToRun(x: Scripted): nat {
    SizeOf(x.code) + SizeOf(x.callbacks)
  }

  ghost predicate Closer(x: Scripted, y: Scripted) {
    ToRun(y) < ToRun(x) || (ToRun(y) == ToRun(x) && Nearer(x.s, y.s))
  }

  // Everything that a state needs for its scripts to go on.
  ghost predicate Good(x: Scripted) {
    Sound(x.s) && Named(x) && Whole(x) && Obeys(x)
  }

  // ---------- a running script ----------

  lemma ActionCosts(x: Scripted, t: ThreadId, f: FiberId)
    requires RunsCode(x, t) && Named(x) && f !in x.s.roles
    ensures ToRun(Effect(x, Prescribed(x, t, f, None))) < ToRun(x)
    ensures Effect(x, Prescribed(x, t, f, None)).given == x.given
  {
    hide Size, SizeOf;
    match CodeAt(x, t)
    case Return => SumsRemove(x.code, x.s.threads[t].phase.fiber); SizePositive(Return);
    case Spawn(_, _, _, _) => SpawnCosts(x, t, f);
    case _ => RestCosts(x, t);
  }

  lemma SizePositive(script: Script)
    ensures Size(script) > 0 && (!script.Return? ==> Size(script.rest) < Size(script))
    ensures script.Spawn? ==> Size(script.child) + Size(script.rest) < Size(script)
  {
  }

  lemma RestCosts(x: Scripted, t: ThreadId)
    requires RunsCode(x, t) && !CodeAt(x, t).Return?
    ensures SizeOf(Advance(x, t).code) < SizeOf(x.code)
  {
    SizePositive(CodeAt(x, t));
    SumsUpdate(x.code, x.s.threads[t].phase.fiber, CodeAt(x, t).rest);
    hide Size, SizeOf;
  }

  lemma SpawnCosts(x: Scripted, t: ThreadId, f: FiberId)
    requires RunsCode(x, t) && CodeAt(x, t).Spawn? && Named(x) && f !in x.s.roles
    ensures ToRun(Effect(x, DoSpawn(t, f, None))) < ToRun(x)
    ensures Effect(x, DoSpawn(t, f, None)).given == x.given
  {
    var g, now := x.s.threads[t].phase.fiber, CodeAt(x, t);
    var left := x.code[g := now.rest];
    SizePositive(now);
    SumsUpdate(x.code, g, now.rest);
    hide Size, SizeOf;
    if now.asFiber {
      assert f !in left;
      SumsPut(left, f, now.child);
    } else {
      assert x.nextCallback !in x.callbacks;
      SumsPut(x.callbacks, x.nextCallback, now.child);
    }
  }

  // What an action does to the machine: perhaps one more task, unpinned; perhaps the slice ends.
  predicate ActsOn(s: State, s': State, t: ThreadId) {
    && t in s.threads && t in s'.threads && s'.threads == s.threads[t := s'.threads[t]] && s'.threads[t].phase != Left
    && s'.q.stopping == s.q.stopping
    && (s'.q.tasks == s.q.tasks ||
        (exists task :: task in s'.q.tasks && task.pin == None && s'.q.tasks == s.q.tasks + [task]))
  }

  lemma ActionServed(s: State, s': State, t: ThreadId)
    requires CanServe(s) && ActsOn(s, s', t)
    ensures CanServe(s')
  {
    assert s'.threads[t].phase != Left;
    forall j | 0 <= j < |s'.q.tasks| && s'.q.tasks[j].pin.Some?
      ensures s'.q.tasks[j].pin.value in s'.threads && s'.threads[s'.q.tasks[j].pin.value].phase != Left
    {
      assert s'.q.tasks[j] == s.q.tasks[j];
    }
  }

  lemma ActionActs(x: Scripted, t: ThreadId, f: FiberId)
    requires RunsCode(x, t) && Play(x, Prescribed(x, t, f, None)).Ok?
    ensures ActsOn(x.s, Play(x, Prescribed(x, t, f, None)).state.s, t)
  {
    var now, g := CodeAt(x, t), x.s.threads[t].phase.fiber;
    assert x.s.threads[t := x.s.threads[t]] == x.s.threads;
    match now
    case Emit(_, _) =>
    case Return => StepEnd(x, DoReturn(t)); SliceOver(x.s, Finish(t), t);
    case Suspend(_) => StepEnd(x, DoSuspend(t)); SliceOver(x.s, Yield(t), t);
    case Requeue(_, _) =>
      StepOne(x.s, Schedule(Some(t), Single(FiberWork(g), None), {}));
      ScheduleQueues(x.s, Some(t), FiberWork(g), None, {});
      OneMore(x.s, Play(x, DoRequeue(t, None)).state.s, FiberWork(g), t);
    case Spawn(_, asFiber, _, _) =>
      if asFiber {
        CreateQueues(x.s, f, Some(t), None);
        OneMore(x.s, Play(x, DoSpawn(t, f, None)).state.s, FiberWork(f), t);
      } else {
        StepOne(x.s, Schedule(Some(t), Single(CallbackWork(x.nextCallback), None), {}));
        ScheduleQueues(x.s, Some(t), CallbackWork(x.nextCallback), None, {});
        OneMore(x.s, Play(x, DoSpawn(t, f, None)).state.s, CallbackWork(x.nextCallback), t);
      }
  }

  lemma OneMore(s: State, s': State, work: Work, t: ThreadId)
    requires Queueing(s, s', work, None) && InSlice(s, t)
    ensures ActsOn(s, s', t)
  {
    var task := Task(s.q.tickets, work, None);
    assert s'.q.tasks[|s.q.tasks|] == task && s.threads[t := s.threads[t]] == s.threads;
    assert task in s'.q.tasks;
  }

  lemma SliceOver(s: State, act: Act, t: ThreadId)
    requires (act == Yield(t) || act == Finish(t)) && Machine.Step(s, act).Ok?
    ensures ActsOn(s, Next(s, act), t)
  {
  }

  // ---------- one step nearer ----------

  // The move of a thread that serves.
  function ServeMove(x: Scripted, t: ThreadId, f: FiberId): Move
    requires t in x.s.threads && (x.s.threads[t].phase.Running? ==> RunsCode(x, t))
  {
    if x.s.threads[t].phase.Running? then Prescribed(x, t, f, None)
    else if StartsCallback(x, t) then Begin(t, f)
    else Quietly(Serves(x.s, t, f))
  }

  lemma ServeRunning(x: Scripted, t: ThreadId, f: FiberId)
    requires Good(x) && CanServe(x.s) && RunsCode(x, t) && f !in x.s.roles
    ensures var o := Play(x, Prescribed(x, t, f, None));
            o.Ok? && CanServe(o.state.s) && Closer(x, o.state) && o.state.given == x.given
  {
    var m := Prescribed(x, t, f, None);
    assert Sound(x.s) && Obeys(x) && Named(x);
    hide Sound, Obeys, Named, CanServe, ActsOn;
    RunningGoes(x, t, f, None);
    ActionActs(x, t, f);
    ActionCosts(x, t, f);
    PlayEffect(x, m);
    hide *;
    ActionServed(x.s, Play(x, m).state.s, t);
    CostsLess(x, Effect(x, m), Play(x, m).state);
  }

  lemma PlayEffect(x: Scripted, m: Move)
    requires Play(x, m).Ok?
    ensures Fits(x, m) && Play(x, m).state == Effect(x, m).(s := Play(x, m).state.s)
  {
    hide Effect, Fits;
  }

  lemma CostsLess(x: Scripted, e: Scripted, y: Scripted)
    requires ToRun(e) < ToRun(x) && y == e.(s := y.s)
    ensures Closer(x, y)
  {
  }

  lemma ServeOther(x: Scripted, t: ThreadId, f: FiberId)
    requires Good(x) && CanServe(x.s) && !IsStopping(x.s.q) && Server(x.s, t) && f !in x.s.roles
    requires t in x.s.threads && !x.s.threads[t].phase.Running?
    ensures var o := Play(x, ServeMove(x, t, f));
            o.Ok? && CanServe(o.state.s) && Closer(x, o.state) && o.state.given == x.given
  {
    assert Sound(x.s) && Whole(x) && Named(x);
    hide *;
    ServerStep(x.s, t, f);
    CodeThere(x, t);
    if StartsCallback(x, t) {
      ServeBegin(x, t, f);
    } else {
      ServeQuietly(x, t, f);
    }
  }

  lemma ServeBegin(x: Scripted, t: ThreadId, f: FiberId)
    requires Sound(x.s) && Named(x) && StartsCallback(x, t) && f !in x.s.roles
    requires var act := Serves(x.s, t, f);
             Enabled(x.s, act) && Safe(x.s, act) && CanServe(Next(x.s, act)) && Nearer(x.s, Next(x.s, act))
    ensures var o := Play(x, ServeMove(x, t, f));
            o.Ok? && CanServe(o.state.s) && Closer(x, o.state) && o.state.given == x.given
  {
    hide *;
    BeginIs(x, t, f);
    var act := Serves(x.s, t, f);
    GoesOne(x, Begin(t, f), act);
    BeginCosts(x, t, f);
    SameCost(x, Effect(x, Begin(t, f)), Next(x.s, act));
  }

  lemma BeginIs(x: Scripted, t: ThreadId, f: FiberId)
    requires StartsCallback(x, t)
    ensures t in x.s.threads && !x.s.threads[t].phase.Running?
    ensures Serves(x.s, t, f) == StartCallback(t, f) && ServeMove(x, t, f) == Begin(t, f)
    ensures Fits(x, Begin(t, f)) && ActsOf(x, Begin(t, f)) == [StartCallback(t, f)]
    ensures Effect(x, Begin(t, f)).given == x.given
  {
  }

  lemma SameCost(x: Scripted, e: Scripted, s': State)
    requires ToRun(e) == ToRun(x) && Nearer(x.s, s')
    ensures Closer(x, e.(s := s'))
  {
    hide Nearer;
  }

  lemma ServeQuietly(x: Scripted, t: ThreadId, f: FiberId)
    requires Sound(x.s) && t in x.s.threads && !x.s.threads[t].phase.Running? && !StartsCallback(x, t)
    requires Picks(x.s.threads[t]) == None || StartsCallback(x, t)
    requires var act := Serves(x.s, t, f);
             Enabled(x.s, act) && Safe(x.s, act) && CanServe(Next(x.s, act)) && Nearer(x.s, Next(x.s, act))
    ensures var o := Play(x, ServeMove(x, t, f));
            o.Ok? && CanServe(o.state.s) && Closer(x, o.state) && o.state.given == x.given
  {
    var act := Serves(x.s, t, f);
    hide Sound, Serves, CanServe, Nearer, Enabled, Safe, Next, ToRun, Play, StartsCallback;
    ServesQuietly(x.s, t, f);
    GoesOne(x, Quietly(act), act);
    SameCost(x, x, Next(x.s, act));
  }

  lemma ServesQuietly(s: State, t: ThreadId, f: FiberId)
    requires t in s.threads && !s.threads[t].phase.Running? && Picks(s.threads[t]) == None
    requires Enabled(s, Serves(s, t, f))
    ensures IsQuiet(Serves(s, t, f))
  {
  }

  lemma BeginCosts(x: Scripted, t: ThreadId, f: FiberId)
    requires StartsCallback(x, t) && Named(x) && f !in x.s.roles
    ensures ToRun(Effect(x, Begin(t, f))) == ToRun(x)
  {
    var c := x.s.threads[t].task.value.work.cb;
    assert f !in x.code;
    SumsPut(x.code, f, x.callbacks[c]);
    SumsRemove(x.callbacks, c);
    hide SizeOf;
  }

  lemma ReachableIsGood(useCaller: bool, moves: seq<Move>)
    requires PlayAll(useCaller, moves).Ok? && AllDisciplined(PlayAll(useCaller, moves).state.given)
    ensures Good(PlayAll(useCaller, moves).state)
  {
    ScriptsRunSafely(useCaller, moves);
    hide PlayAll, Sound, Whole, Obeys, Balanced, Named, Linked;
  }

  // The scripts, run from here on, keep what the end needs.
  ghost predicate Ending(x: Scripted) {
    CanServe(x.s) && AllDisciplined(x.given)
  }

  lemma OneMoveCloser(useCaller: bool, moves: seq<Move>) returns (m: Move)
    requires PlayAll(useCaller, moves).Ok? && Ending(PlayAll(useCaller, moves).state)
    requires !IsStopping(PlayAll(useCaller, moves).state.s.q)
    ensures PlayAll(useCaller, moves + [m]).Ok? && Ending(PlayAll(useCaller, moves + [m]).state)
    ensures var x, y := PlayAll(useCaller, moves).state, PlayAll(useCaller, moves + [m]).state;
            Closer(x, y) && y.given == x.given
  {
    var x := PlayAll(useCaller, moves).state;
    ReachableIsGood(useCaller, moves);
    assert Sound(x.s) && Whole(x) && Counts(x.s) && CanServe(x.s);
    MachineTheorems.SomethingUnused(x.s.roles.Keys);
    var f: FiberId :| f !in x.s.roles.Keys;
    hide PlayAll, Good, Sound, Whole, Counts, CanServe, IsStopping, Server, Closer, Play, Prescribed;
    var t := SomeServer(x.s);
    ServerIsThread(x.s, t);
    CodeThere(x, t);
    m := ServeMove(x, t, f);
    if x.s.threads[t].phase.Running? {
      ServeRunning(x, t, f);
    } else {
      ServeOther(x, t, f);
    }
    PlaysOn(useCaller, moves, m);
  }

  lemma {:induction false} ScriptsCanEmpty(useCaller: bool, moves: seq<Move>) returns (more: seq<Move>)
    requires PlayAll(useCaller, moves).Ok? && Ending(PlayAll(useCaller, moves).state)
    ensures PlayAll(useCaller, moves + more).Ok?
    ensures var x, y := PlayAll(useCaller, moves).state, PlayAll(useCaller, moves + more).state;
            IsStopping(y.s.q) && y.given == x.given
    decreases ToRun(PlayAll(useCaller, moves).state), |PlayAll(useCaller, moves).state.s.q.tasks|,
              Sum(Ranks(PlayAll(useCaller, moves).state.s))
  {
    hide PlayAll, Ending, IsStopping, Ranks, Sum, ToRun;
    if IsStopping(PlayAll(useCaller, moves).state.s.q) {
      more := [];
      assert moves + more == moves;
    } else {
      var m := OneMoveCloser(useCaller, moves);
      var moves' := moves + [m];
      var rest := ScriptsCanEmpty(useCaller, moves');
      more := [m] + rest;
      assert moves' + rest == moves + more;
    }
  }

  // ---------- everybody leaves ----------

  lemma OneMoveToTheEnd(useCaller: bool, moves: seq<Move>) returns (m: Move)
    requires PlayAll(useCaller, moves).Ok? && IsStopping(PlayAll(useCaller, moves).state.s.q)
    requires !AllLeft(PlayAll(useCaller, moves).state.s)
    ensures PlayAll(useCaller, moves + [m]).Ok?
    ensures var x, y := PlayAll(useCaller, moves).state, PlayAll(useCaller, moves + [m]).state;
            && IsStopping(y.s.q) && y.given == x.given
            && Sum(Distances(y.s)) < Sum(Distances(x.s))
  {
    var x := PlayAll(useCaller, moves).state;
    ScriptsRunSafely(useCaller, moves);
    assert Sound(x.s);
    MachineTheorems.SomethingUnused(x.s.roles.Keys);
    var f: FiberId :| f !in x.s.roles.Keys;
    var t :| t in x.s.threads && x.s.threads[t].phase != Left;
    var act := Serves(x.s, t, f);
    m := Quietly(act);
    hide PlayAll, Sound, Serves, IsStopping, Sum, Distances, Play;
    LeavingStep(x.s, t, f);
    GoesOne(x, m, act);
    PlaysOn(useCaller, moves, m);
  }

  lemma LeavingStep(s: State, t: ThreadId, f: FiberId)
    requires Sound(s) && IsStopping(s.q) && t in s.threads && s.threads[t].phase != Left && f !in s.roles
    ensures var act := Serves(s, t, f);
            && IsQuiet(act) && Enabled(s, act) && Safe(s, act)
            && IsStopping(Next(s, act).q) && Sum(Distances(Next(s, act))) < Sum(Distances(s))
  {
    var act := Serves(s, t, f);
    assert Inv(s) && Counts(s) && s.q.stopping;
    StoppingIsQuiet(s);
    assert t !in BusySet(s.threads) && !BusyPhase(s.threads[t].phase);
    ServesEnabled(s, t, f);
    ServesQuietly(s, t, f);
    hide Sound, Inv, Enabled, Safe, Next, Serves, IsStopping, Quiet, BusySet, Sum, Distances;
    EnabledIsSafe(s, act);
    QuietStays(s, act);
    KeepsCounts(s, act);
    StoppingIsQuiet(Next(s, act));
    DistancesFall(s, act, t);
  }

  lemma {:induction false} ScriptsCanLeave(useCaller: bool, moves: seq<Move>) returns (more: seq<Move>)
    requires PlayAll(useCaller, moves).Ok? && IsStopping(PlayAll(useCaller, moves).state.s.q)
    ensures PlayAll(useCaller, moves + more).Ok?
    ensures var x, y := PlayAll(useCaller, moves).state, PlayAll(useCaller, moves + more).state;
            IsStopping(y.s.q) && AllLeft(y.s) && y.given == x.given
    decreases Sum(Distances(PlayAll(useCaller, moves).state.s))
  {
    hide PlayAll, IsStopping, Sum, Distances;
    if AllLeft(PlayAll(useCaller, moves).state.s) {
      more := [];
      assert moves + more == moves;
    } else {
      hide AllLeft;
      var m := OneMoveToTheEnd(useCaller, moves);
      var moves' := moves + [m];
      var rest := ScriptsCanLeave(useCaller, moves');
      more := [m] + rest;
      assert moves' + rest == moves + more;
    }
  }

  // From every reachable state after stop() in which the scripts given from outside keep the
  // rule and no task waits for a thread outside run(), the scripts can be run so that every
  // thread leaves run() with an empty queue; and if every task queues itself before it yields,
  // everything has then been emitted exactly once.
  lemma ScriptsCanEnd(useCaller: bool, moves: seq<Move>) returns (more: seq<Move>)
    requires PlayAll(useCaller, moves).Ok? && Ending(PlayAll(useCaller, moves).state)
    ensures PlayAll(useCaller, moves + more).Ok?
    ensures var x, y := PlayAll(useCaller, moves).state, PlayAll(useCaller, moves + more).state;
            && AllLeft(y.s) && y.s.q.tasks == [] && y.given == x.given
            && (NoneParks(x.given) ==> y.code == map[] && multiset(y.trace) == AllMarks(x.given))
  {
    hide *;
    var first := ScriptsCanEmpty(useCaller, moves);
    var last := ScriptsCanLeave(useCaller, moves + first);
    more := first + last;
    assert moves + first + last == moves + more;
    StoppingMeansEmitted(useCaller, moves + more);
    StoppingIsEmpty(PlayAll(useCaller, moves + more).state.s.q);
  }

  lemma StoppingIsEmpty(q: Sched)
    requires IsStopping(q)
    ensures q.tasks == []
  {
  }
}
