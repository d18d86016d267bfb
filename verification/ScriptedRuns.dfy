/**
 Finite scripts on the N-thread machine: tasks that emit, spawn, queue themselves, yield and
 return, on any threads, pinned in any way, interleaved action by action.

 `code` holds what every fiber has left to run, also while it runs; `callbacks` holds the
 functions that have been scheduled and not yet started.
 */
module ScriptedRuns {
  import opened Outcomes
  import opened Fibers
  import opened Scheduling
  import opened Worklists
  import opened Machine
  import opened MachineThreads
  import opened MachineOwnership
  import opened MachineCounts
  import opened MachineSafety

  datatype Scripted = Scripted(
    s: State,
    code: map<FiberId, Script>,
    callbacks: map<nat, Script>,
    nextCallback: nat,
    trace: seq<nat>,
    slices: nat,                 // slices that are over
    given: seq<Script>)          // history: what was scheduled from outside

  datatype Move =
    | Quietly(act: Act)                                       // the scheduler's own steps
    | Submit(script: Script, pin: Option<ThreadId>)           // schedule(callback), from outside
    | SubmitFiber(script: Script, f: FiberId, pin: Option<ThreadId>)
    | Begin(t: ThreadId, f: FiberId)                          // a callback starts on fiber f
    | DoEmit(t: ThreadId)
    | DoSpawn(t: ThreadId, f: FiberId, pin: Option<ThreadId>)
    | DoRequeue(t: ThreadId, pin: Option<ThreadId>)
    | DoSuspend(t: ThreadId)
    | DoReturn(t: ThreadId)

  // ---------- the steps ----------

  predicate RunsCode(x: Scripted, t: ThreadId) {
    InSlice(x.s, t) && x.s.threads[t].phase.fiber in x.code
  }

  function CodeAt(x: Scripted, t: ThreadId): Script
    requires RunsCode(x, t)
  {
    x.code[x.s.threads[t].phase.fiber]
  }

  predicate IsQuiet(act: Act) {
    match act
    case CreateFiber(_) => false
    case DropHandle(_) => false
    case ShareSelf(_) => false
    case Schedule(_, _, _) => false
    case StartCallback(_, _) => false
    case Yield(_) => false
    case Finish(_) => false
    case _ => true
  }

  predicate StartsCallback(x: Scripted, t: ThreadId) {
    && At(x.s, t, Got) && x.s.threads[t].task.Some? && x.s.threads[t].task.value.work.CallbackWork?
    && x.s.threads[t].task.value.work.cb in x.callbacks
  }

  predicate Fits(x: Scripted, m: Move) {
    match m
    case Quietly(act) => IsQuiet(act)
    case Submit(_, _) => true
    case SubmitFiber(_, _, _) => true
    case Begin(t, _) => StartsCallback(x, t)
    case DoEmit(t) => RunsCode(x, t) && CodeAt(x, t).Emit?
    case DoSpawn(t, _, _) => RunsCode(x, t) && CodeAt(x, t).Spawn?
    case DoRequeue(t, _) => RunsCode(x, t) && CodeAt(x, t).Requeue?
    case DoSuspend(t) => RunsCode(x, t) && CodeAt(x, t).Suspend?
    case DoReturn(t) => RunsCode(x, t) && CodeAt(x, t).Return?
  }

  function Single(work: Work, pin: Option<ThreadId>): seq<(Work, Option<ThreadId>)> {
    [(work, pin)]
  }

  // The machine's steps that a move stands for.
  function ActsOf(x: Scripted, m: Move): seq<Act>
    requires Fits(x, m)
  {
    match m
    case Quietly(act) => [act]
    case Submit(_, pin) => [Schedule(None, Single(CallbackWork(x.nextCallback), pin), {})]
    case SubmitFiber(_, f, pin) => [CreateFiber(f), Schedule(None, Single(FiberWork(f), pin), {f})]
    case Begin(t, f) => [StartCallback(t, f)]
    case DoEmit(_) => []
    case DoSpawn(t, f, pin) =>
      if CodeAt(x, t).asFiber then [CreateFiber(f), Schedule(Some(t), Single(FiberWork(f), pin), {f})]
      else [Schedule(Some(t), Single(CallbackWork(x.nextCallback), pin), {})]
    case DoRequeue(t, pin) => [Schedule(Some(t), Single(FiberWork(x.s.threads[t].phase.fiber), pin), {})]
    case DoSuspend(t) => [Yield(t)]
    case DoReturn(t) => [Finish(t)]
  }

  function Added(x: Scripted, script: Script): Scripted {
    x.(callbacks := x.callbacks[x.nextCallback := script], nextCallback := x.nextCallback + 1)
  }

  // What a move does to the code.
  function Effect(x: Scripted, m: Move): Scripted
    requires Fits(x, m)
  {
    match m
    case Quietly(_) => x
    case Submit(script, _) => Added(x, script).(given := x.given + [script])
    case SubmitFiber(script, f, _) => x.(code := x.code[f := script], given := x.given + [script])
    case Begin(t, f) =>
      var c := x.s.threads[t].task.value.work.cb;
      x.(code := x.code[f := x.callbacks[c]], callbacks := x.callbacks - {c})
    case DoReturn(t) => x.(code := x.code - {x.s.threads[t].phase.fiber}, slices := x.slices + 1)
    case DoEmit(t) => Advance(x, t).(trace := x.trace + [CodeAt(x, t).mark])
    case DoSpawn(t, f, _) =>
      var y := Advance(x, t);
      if CodeAt(x, t).asFiber then y.(code := y.code[f := CodeAt(x, t).child]) else Added(y, CodeAt(x, t).child)
    case DoRequeue(t, _) => Advance(x, t)
    case DoSuspend(t) => Advance(x, t).(slices := x.slices + 1)
  }

  function Advance(x: Scripted, t: ThreadId): Scripted
    requires RunsCode(x, t) && !CodeAt(x, t).Return?
  {
    x.(code := x.code[x.s.threads[t].phase.fiber := CodeAt(x, t).rest])
  }

  function StepAll(s: State, acts: seq<Act>): Outcome<State> {
    if acts == [] then Ok(s)
    else
      match StepAll(s, acts[..|acts| - 1])
      case Ok(s1) => Machine.Step(s1, acts[|acts| - 1])
      case o => o
  }

  function Play(x: Scripted, m: Move): Outcome<Scripted> {
    if !Fits(x, m) then Blocked
    else
      match StepAll(x.s, ActsOf(x, m))
      case Ok(s) => Ok(Effect(x, m).(s := s))
      case Blocked => Blocked
      case Crash => Crash
  }

  function PlayAll(useCaller: bool, moves: seq<Move>): Outcome<Scripted> {
    if moves == [] then Ok(Scripted(Initial(useCaller), map[], map[], 0, [], 0, []))
    else
      match PlayAll(useCaller, moves[..|moves| - 1])
      case Ok(x) => Play(x, moves[|moves| - 1])
      case o => o
  }

  // ---------- sums over the code ----------

  ghost function MarksOf(m: map<nat, Script>): multiset<nat> {
    if m == map[] then multiset{}
    else
      var k :| k in m;
      Marks(m[k]) + MarksOf(m - {k})
  }

  ghost function SizeOf(m: map<nat, Script>): nat {
    if m == map[] then 0
    else
      var k :| k in m;
      Size(m[k]) + SizeOf(m - {k})
  }

  lemma {:induction false} SumsRemove(m: map<nat, Script>, k: nat)
    requires k in m
    ensures MarksOf(m) == Marks(m[k]) + MarksOf(m - {k})
    ensures SizeOf(m) == Size(m[k]) + SizeOf(m - {k})
    decreases |m|
  {
    MarksRemove(m, k);
    SizeRemove(m, k);
  }

  lemma {:induction false} MarksRemove(m: map<nat, Script>, k: nat)
    requires k in m
    ensures MarksOf(m) == Marks(m[k]) + MarksOf(m - {k})
    decreases |m|
  {
    var j :| j in m && MarksOf(m) == Marks(m[j]) + MarksOf(m - {j});
    if j != k {
      assert m - {j} - {k} == m - {k} - {j};
      MarksRemove(m - {j}, k);
      MarksRemove(m - {k}, j);
    }
  }

  lemma {:induction false} SizeRemove(m: map<nat, Script>, k: nat)
    requires k in m
    ensures SizeOf(m) == Size(m[k]) + SizeOf(m - {k})
    decreases |m|
  {
    var j :| j in m && SizeOf(m) == Size(m[j]) + SizeOf(m - {j});
    if j != k {
      assert m - {j} - {k} == m - {k} - {j};
      SizeRemove(m - {j}, k);
      SizeRemove(m - {k}, j);
    }
  }

  lemma SumsPut(m: map<nat, Script>, k: nat, script: Script)
    requires k !in m
    ensures MarksOf(m[k := script]) == Marks(script) + MarksOf(m)
    ensures SizeOf(m[k := script]) == Size(script) + SizeOf(m)
  {
    assert m[k := script] - {k} == m;
    SumsRemove(m[k := script], k);
  }

  lemma SumsUpdate(m: map<nat, Script>, k: nat, script: Script)
    requires k in m
    ensures MarksOf(m[k := script]) == Marks(script) + MarksOf(m - {k}) && MarksOf(m) == Marks(m[k]) + MarksOf(m - {k})
    ensures SizeOf(m[k := script]) + Size(m[k]) == Size(script) + SizeOf(m)
  {
    assert m[k := script] - {k} == m - {k};
    SumsRemove(m, k);
    SumsRemove(m[k := script], k);
  }

  // ---------- nothing is lost, and every slice costs ----------

  // What was emitted and what is left to emit are what was given; what is left to run and
  // the slices that are over are together no more than what was given.
  ghost predicate Balanced(x: Scripted) {
    && multiset(x.trace) + MarksOf(x.code) + MarksOf(x.callbacks) == AllMarks(x.given)
    && x.slices + SizeOf(x.code) + SizeOf(x.callbacks) <= Total(x.given)
  }

  // New fibers and new callbacks have new names.
  predicate Named(x: Scripted) {
    && (forall f :: f in x.code ==> f in x.s.roles)
    && (forall c :: c in x.callbacks ==> c < x.nextCallback)
  }

  // The fiber a move makes does not exist yet.
  predicate Brings(x: Scripted, m: Move, f: FiberId)
    requires Fits(x, m)
  {
    match m
    case SubmitFiber(_, g, _) => f == g
    case Begin(_, g) => f == g
    case DoSpawn(t, g, _) => CodeAt(x, t).asFiber && f == g
    case _ => false
  }

  lemma StepOne(s: State, act: Act)
    ensures StepAll(s, [act]) == Machine.Step(s, act)
  {
    assert [act][..0] == [];
  }

  lemma StepTwo(s: State, a: Act, b: Act)
    ensures StepAll(s, [a, b]) == match Machine.Step(s, a) case Ok(s1) => Machine.Step(s1, b) case o => o
  {
    assert [a, b][..1] == [a];
    StepOne(s, a);
  }

  lemma BroughtIsNew(x: Scripted, m: Move, f: FiberId)
    requires Play(x, m).Ok? && Brings(x, m, f)
    ensures f !in x.s.roles
  {
    hide Enabled, Safe, Next;
    match m
    case SubmitFiber(_, _, pin) =>
      StepTwo(x.s, CreateFiber(f), Schedule(None, Single(FiberWork(f), pin), {f}));
      CreateIsNew(x.s, CreateFiber(f), f);
    case Begin(t, _) =>
      StepOne(x.s, StartCallback(t, f));
      CreateIsNew(x.s, StartCallback(t, f), f);
    case DoSpawn(t, _, pin) =>
      StepTwo(x.s, CreateFiber(f), Schedule(Some(t), Single(FiberWork(f), pin), {f}));
      CreateIsNew(x.s, CreateFiber(f), f);
  }

  lemma CreateIsNew(s: State, act: Act, f: FiberId)
    requires Machine.Step(s, act).Ok? && (act == CreateFiber(f) || (act.StartCallback? && act.f == f))
    ensures f !in s.roles
  {
    hide Safe, Next;
  }

  lemma KeepsBalance(x: Scripted, m: Move)
    requires Balanced(x) && Named(x) && Fits(x, m)
    requires forall f :: Brings(x, m, f) ==> f !in x.s.roles
    ensures Balanced(Effect(x, m))
  {
    assert m.Quietly? ==> Effect(x, m) == x;
    assert (m.DoSpawn? && CodeAt(x, m.t).asFiber) || m.SubmitFiber? || m.Begin? ==> Brings(x, m, m.f);
    hide *;
    match m
    case Quietly(_) =>
    case Submit(_, _) => BalanceSubmit(x, m);
    case SubmitFiber(_, _, _) => BalanceSubmit(x, m);
    case Begin(_, _) => BalanceBegin(x, m);
    case DoEmit(t) => BalanceEmit(x, t);
    case DoSpawn(t, f, _) => BalanceSpawn(x, m, t, f);
    case _ => BalanceAdvance(x, m);
  }

  lemma BalanceSubmit(x: Scripted, m: Move)
    requires (m.Submit? || (m.SubmitFiber? && m.f !in x.s.roles)) && Balanced(x) && Named(x) && Fits(x, m)
    ensures Balanced(Effect(x, m))
  {
    GivenMore(x.given, m.script);
    if m.Submit? {
      SumsPut(x.callbacks, x.nextCallback, m.script);
    } else {
      SumsPut(x.code, m.f, m.script);
    }
  }

  lemma BalanceBegin(x: Scripted, m: Move)
    requires m.Begin? && m.f !in x.s.roles && Balanced(x) && Named(x) && Fits(x, m)
    ensures Balanced(Effect(x, m))
  {
    var c := x.s.threads[m.t].task.value.work.cb;
    SumsPut(x.code, m.f, x.callbacks[c]);
    SumsRemove(x.callbacks, c);
  }

  lemma BalanceAdvance(x: Scripted, m: Move)
    requires (m.DoReturn? || m.DoRequeue? || m.DoSuspend?) && Balanced(x) && Fits(x, m)
    ensures Balanced(Effect(x, m))
  {
    var f := x.s.threads[m.t].phase.fiber;
    if m.DoReturn? {
      SumsRemove(x.code, f);
    } else {
      SumsUpdate(x.code, f, CodeAt(x, m.t).rest);
    }
  }

  lemma GivenMore(given: seq<Script>, script: Script)
    ensures AllMarks(given + [script]) == AllMarks(given) + Marks(script)
    ensures Total(given + [script]) == Total(given) + Size(script)
  {
    AllMarksAppend(given, [script]);
    TotalAppend(given, [script]);
    assert [script][1..] == [];
  }

  lemma BalanceEmit(x: Scripted, t: ThreadId)
    requires Balanced(x) && Fits(x, DoEmit(t))
    ensures Balanced(Effect(x, DoEmit(t)))
  {
    var f, mark := x.s.threads[t].phase.fiber, CodeAt(x, t).mark;
    SumsUpdate(x.code, f, CodeAt(x, t).rest);
    assert multiset(x.trace + [mark]) == multiset(x.trace) + multiset{mark};
  }

  lemma BalanceSpawn(x: Scripted, m: Move, t: ThreadId, f: FiberId)
    requires m.DoSpawn? && m.t == t && m.f == f
    requires Balanced(x) && Named(x) && Fits(x, m) && (CodeAt(x, t).asFiber ==> f !in x.s.roles)
    ensures Balanced(Effect(x, m))
  {
    var g, now := x.s.threads[t].phase.fiber, CodeAt(x, t);
    var left := x.code[g := now.rest];
    SumsUpdate(x.code, g, now.rest);
    var y := Effect(x, m);
    assert y.trace == x.trace && y.given == x.given && y.slices == x.slices;
    if now.asFiber {
      assert f !in left && y.code == left[f := now.child] && y.callbacks == x.callbacks;
      SumsPut(left, f, now.child);
    } else {
      assert y.code == left && y.callbacks == x.callbacks[x.nextCallback := now.child]
          && x.nextCallback !in x.callbacks;
      SumsPut(x.callbacks, x.nextCallback, now.child);
    }
    assert Size(now) == 1 + Size(now.child) + Size(now.rest) && Marks(now) == Marks(now.child) + Marks(now.rest);
    hide Effect, MarksOf, SizeOf, Marks, Size, AllMarks, Total;
    SpawnSums(MarksOf(x.code), MarksOf(x.callbacks), MarksOf(y.code), MarksOf(y.callbacks), Marks(now.child),
        Marks(now.rest), MarksOf(x.code - {g}));
  }

  lemma SpawnSums(a: multiset<nat>, b: multiset<nat>, a': multiset<nat>, b': multiset<nat>,
                  child: multiset<nat>, rest: multiset<nat>, others: multiset<nat>)
    requires a == (child + rest) + others
    requires (a' == child + (rest + others) && b' == b) || (a' == rest + others && b' == child + b)
    ensures forall t: multiset<nat> :: t + a' + b' == t + a + b
  {
  }

  // ---------- where the code is ----------

  predicate Waits(s: State, c: nat) {
    exists j :: 0 <= j < |s.q.tasks| && s.q.tasks[j].work == CallbackWork(c)
  }

  // The callback that a thread has picked and not yet started.
  function Picks(th: Thread): Option<nat> {
    if th.phase == Got && th.task.Some? && th.task.value.work.CallbackWork? then Some(th.task.value.work.cb) else None
  }

  predicate Holds(th: Thread, c: nat) {
    Picks(th) == Some(c)
  }

  predicate InSomeHand(s: State, c: nat) {
    exists t :: t in s.threads && Holds(s.threads[t], c)
  }

  predicate Placed(s: State, f: FiberId) {
    Queued(s.q, f) || PickedBySome(s, f) || RunBySome(s, f)
  }

  predicate CallbackPlaced(s: State, c: nat) {
    Waits(s, c) || InSomeHand(s, c)
  }

  // It runs, and has queued itself.
  predicate Requeued(s: State, f: FiberId) {
    RunBySome(s, f) && Queued(s.q, f)
  }

  // Every callback is in one place only.
  predicate Unique(s: State) {
    && (forall i, j :: 0 <= i < j < |s.q.tasks| && s.q.tasks[i].work.CallbackWork? ==>
          s.q.tasks[i].work != s.q.tasks[j].work)
    && (forall t :: t in s.threads && Picks(s.threads[t]).Some? ==> !Waits(s, Picks(s.threads[t]).value))
    && (forall t, u :: t in s.threads && u in s.threads && t != u && Picks(s.threads[t]).Some? ==>
          Picks(s.threads[t]) != Picks(s.threads[u]))
  }

  // No step of the scheduler's own loses a fiber or a callback, or changes who has queued itself.
  ghost predicate KeepsPlaces(s: State, s': State) {
    && (forall f :: Placed(s', f) <==> Placed(s, f))
    && (forall c :: CallbackPlaced(s', c) <==> CallbackPlaced(s, c))
    && (forall f :: Requeued(s', f) <==> Requeued(s, f))
    && (Unique(s) ==> Unique(s'))
  }

  // Threads that have picked or are running stay as they are, and nobody joins them.
  predicate SameWorkers(s: State, s': State) {
    && (forall t :: t in s.threads && (s.threads[t].phase == Got || s.threads[t].phase.Running?) ==>
          t in s'.threads && s'.threads[t] == s.threads[t])
    && (forall t :: t in s'.threads && (s'.threads[t].phase == Got || s'.threads[t].phase.Running?) ==>
          t in s.threads && s.threads[t] == s'.threads[t])
  }

  lemma SamePlaces(s: State, s': State)
    requires SameWorkers(s, s')
    ensures forall f :: PickedBySome(s', f) <==> PickedBySome(s, f)
    ensures forall f :: RunBySome(s', f) <==> RunBySome(s, f)
    ensures forall c :: InSomeHand(s', c) <==> InSomeHand(s, c)
  {
  }

  lemma QuietPlaces(s: State, act: Act)
    requires Inv(s) && ExecOk(s) && IsQuiet(act) && Enabled(s, act) && Safe(s, act)
    ensures KeepsPlaces(s, Next(s, act))
  {
    if act.PickTask? {
      hide *;
      PickPlaces(s, act.t);
    } else if act.ResumeTask? {
      hide *;
      ResumePlaces(s, act.t);
    } else {
      assert !act.PickTask? && !act.ResumeTask?;
      hide *;
      OtherWorkers(s, act);
      StillPlaces(s, Next(s, act));
    }
  }

  lemma StillPlaces(s: State, s': State)
    requires SameWorkers(s, s') && s'.q.tasks == s.q.tasks
    ensures KeepsPlaces(s, s')
  {
    assert forall f :: Queued(s'.q, f) <==> Queued(s.q, f);
    assert forall c :: Waits(s', c) <==> Waits(s, c);
    assert Unique(s) ==> Unique(s') by { hide Queued, Waits, PickedBySome, RunBySome, InSomeHand; }
    hide Queued, Waits, PickedBySome, RunBySome, InSomeHand, SameWorkers, Unique;
    SamePlaces(s, s');
  }

  lemma OtherWorkers(s: State, act: Act)
    requires IsQuiet(act) && !act.PickTask? && !act.ResumeTask? && Enabled(s, act) && Safe(s, act)
    ensures Next(s, act).q.tasks == s.q.tasks && SameWorkers(s, Next(s, act))
  {
    match Actor(act)
    case Some(t) =>
      ActorThreads(s, act, t);
      OtherWorker(s, act, t);
      hide Next, Enabled, Safe;
    case None =>
      QuietWorkers(s, act);
  }

  lemma QuietWorkers(s: State, act: Act)
    requires IsQuiet(act) && Actor(act) == None && Enabled(s, act) && Safe(s, act)
    ensures Next(s, act).q.tasks == s.q.tasks && SameWorkers(s, Next(s, act))
  {
  }

  lemma OtherWorker(s: State, act: Act, t: ThreadId)
    requires IsQuiet(act) && !act.PickTask? && !act.ResumeTask? && Enabled(s, act) && Safe(s, act)
    requires Actor(act) == Some(t)
    ensures t in s.threads && t in Next(s, act).threads && Next(s, act).q.tasks == s.q.tasks
    ensures var p, p' := s.threads[t].phase, Next(s, act).threads[t].phase;
            p != Got && !p.Running? && p' != Got && !p'.Running?
  {
  }

  lemma ResumePlaces(s: State, t: ThreadId)
    requires Inv(s) && Enabled(s, ResumeTask(t)) && Safe(s, ResumeTask(t))
    ensures KeepsPlaces(s, Next(s, ResumeTask(t)))
  {
    var s', f := Next(s, ResumeTask(t)), s.threads[t].task.value.work.fiber;
    ActorThreads(s, ResumeTask(t), t);
    assert s'.q == s.q && s'.threads[t].phase.Running? && s'.threads[t].phase.fiber == f;
    assert s.threads[t].phase == Got && Claim(s.threads[t]) == Some(f) && s.threads[t].task.value.work == FiberWork(f);
    assert !Queued(s.q, f);
    hide Next, Enabled, Safe, Inv;
    HandToRun(s, s', t, f);
  }

  // One thread's task starts running on fiber f, which nobody has queued.
  lemma HandToRun(s: State, s': State, t: ThreadId, f: FiberId)
    requires t in s.threads && t in s'.threads && s'.threads == s.threads[t := s'.threads[t]] && s'.q.tasks == s.q.tasks
    requires s.threads[t].phase == Got && s'.threads[t].phase.Running? && s'.threads[t].phase.fiber == f
    requires !Queued(s.q, f)
    requires Claim(s.threads[t]) == Some(f)
    requires forall c :: !Holds(s.threads[t], c)
    ensures KeepsPlaces(s, s')
  {
    assert forall g :: Queued(s'.q, g) <==> Queued(s.q, g);
    assert forall c :: Waits(s', c) <==> Waits(s, c);
    RunGrows(s, s', t, f);
    assert Unique(s) ==> Unique(s') by { hide Queued, Waits, PickedBySome, RunBySome, InSomeHand, Claim; }
    HandEmptied(s, s', t, f);
    HandsKept(s, s', t);
    hide Queued, Waits, RunBySome, PickedBySome, InSomeHand, Holds, Unique, Claim;
  }

  lemma HandEmptied(s: State, s': State, t: ThreadId, f: FiberId)
    requires t in s.threads && t in s'.threads && s'.threads == s.threads[t := s'.threads[t]]
    requires s.threads[t].phase == Got && Claim(s.threads[t]) == Some(f) && s'.threads[t].phase != Got
    ensures PickedBySome(s, f)
    ensures forall g :: PickedBySome(s, g) && g != f ==> PickedBySome(s', g)
    ensures forall g :: PickedBySome(s', g) ==> PickedBySome(s, g)
  {
    forall g | PickedBySome(s, g) && g != f
      ensures PickedBySome(s', g)
    {
      var u :| u in s.threads && s.threads[u].phase == Got && Claim(s.threads[u]) == Some(g);
      assert u != t && s'.threads[u] == s.threads[u];
    }
  }

  lemma HandsKept(s: State, s': State, t: ThreadId)
    requires t in s.threads && t in s'.threads && s'.threads == s.threads[t := s'.threads[t]]
    ensures forall c :: InSomeHand(s, c) && !Holds(s.threads[t], c) ==> InSomeHand(s', c)
    ensures forall c :: InSomeHand(s', c) ==> InSomeHand(s, c) || Holds(s'.threads[t], c)
  {
    forall c | InSomeHand(s, c) && !Holds(s.threads[t], c)
      ensures InSomeHand(s', c)
    {
      var u :| u in s.threads && Holds(s.threads[u], c);
      assert u != t && s'.threads[u] == s.threads[u];
    }
  }

  lemma RunGrows(s: State, s': State, t: ThreadId, f: FiberId)
    requires t in s.threads && t in s'.threads && s'.threads == s.threads[t := s'.threads[t]]
    requires !s.threads[t].phase.Running? && s'.threads[t].phase.Running? && s'.threads[t].phase.fiber == f
    ensures forall g :: RunBySome(s', g) <==> RunBySome(s, g) || g == f
  {
    forall g | RunBySome(s, g)
      ensures RunBySome(s', g)
    {
      var u :| u in s.threads && s.threads[u].phase.Running? && s.threads[u].phase.fiber == g;
      assert u != t && s'.threads[u] == s.threads[u];
    }
  }

  lemma PickPlaces(s: State, t: ThreadId)
    requires Inv(s) && ExecOk(s) && Enabled(s, PickTask(t)) && Safe(s, PickTask(t))
    ensures KeepsPlaces(s, Next(s, PickTask(t)))
  {
    var s' := Next(s, PickTask(t));
    var k := FirstEligible(s.q.tasks, t, ExecFibers(s.fibers));
    if k < |s.q.tasks| {
      hide *;
      NotRunning(s, t, k);
      PickEffect(s, t, k);
      PickOne(s, s', t, k);
    } else {
      assert SameWorkers(s, s') && s'.q == s.q;
      hide *;
      StillPlaces(s, s');
    }
  }

  lemma NotRunning(s: State, t: ThreadId, k: nat)
    requires Inv(s) && k == FirstEligible(s.q.tasks, t, ExecFibers(s.fibers)) < |s.q.tasks|
    ensures s.q.tasks[k].work.FiberWork? ==> !RunBySome(s, s.q.tasks[k].work.fiber)
  {
    RunsExec(s);
    hide RunBySome, Inv;
  }

  lemma PickEffect(s: State, t: ThreadId, k: nat)
    requires Enabled(s, PickTask(t)) && Safe(s, PickTask(t))
    requires k == FirstEligible(s.q.tasks, t, ExecFibers(s.fibers)) < |s.q.tasks|
    ensures var s' := Next(s, PickTask(t));
            && t in s.threads && t in s'.threads && s'.threads == s.threads[t := s'.threads[t]]
            && s'.q.tasks == s.q.tasks[..k] + s.q.tasks[k + 1..] && s.threads[t].phase == AtHead
            && s'.threads[t].phase == Got && s'.threads[t].task == Some(s.q.tasks[k])
  {
    hide *;
    PickNext(s, t);
    PickFound(s.q, t, ExecFibers(s.fibers));
  }

  lemma PickNext(s: State, t: ThreadId)
    requires Enabled(s, PickTask(t)) && Safe(s, PickTask(t))
    ensures t in s.threads && s.threads[t].phase == AtHead
    ensures var s', r := Next(s, PickTask(t)), Picked(s.q, t, ExecFibers(s.fibers));
            && t in s'.threads && s'.threads == s.threads[t := s'.threads[t]]
            && (r.1.Some? ==> s'.q == r.0 && s'.threads[t].phase == Got && s'.threads[t].task == r.1)
  {
    hide Picked;
  }

  lemma PickFound(q: Sched, t: ThreadId, exec: set<FiberId>)
    ensures var k := FirstEligible(q.tasks, t, exec);
            k < |q.tasks| ==>
              && Picked(q, t, exec).1 == Some(q.tasks[k])
              && Picked(q, t, exec).0.tasks == q.tasks[..k] + q.tasks[k + 1..]
  {
    hide Eligible;
  }

  lemma RunsExec(s: State)
    requires Inv(s)
    ensures forall f :: RunBySome(s, f) ==> f in s.fibers && s.fibers[f].state == EXEC
  {
    forall f | RunBySome(s, f)
      ensures f in s.fibers && s.fibers[f].state == EXEC
    {
      var u :| u in s.threads && s.threads[u].phase.Running? && s.threads[u].phase.fiber == f;
      assert ThreadOk(s, u, s.threads[u]);
    }
  }

  lemma PickOne(s: State, s': State, t: ThreadId, k: nat)
    requires k < |s.q.tasks| && s'.q.tasks == s.q.tasks[..k] + s.q.tasks[k + 1..]
    requires t in s.threads && t in s'.threads && s'.threads == s.threads[t := s'.threads[t]]
    requires s.threads[t].phase == AtHead
    requires s'.threads[t].phase == Got && s'.threads[t].task == Some(s.q.tasks[k])
    requires s.q.tasks[k].work.FiberWork? ==> !RunBySome(s, s.q.tasks[k].work.fiber)
    ensures KeepsPlaces(s, s')
  {
    var work := s.q.tasks[k].work;
    hide Queued, Waits, RunBySome, PickedBySome, InSomeHand, Claim, Holds, Unique;
    OneLess(s, s', k);
    RunSame(s, s', t);
    InHandNow(s, s', t, work);
    HandsKept(s, s', t);
    NothingHeld(s, t);
    if Unique(s) {
      UniqueTaken(s, s', t, k);
    }
  }

  lemma UniqueTaken(s: State, s': State, t: ThreadId, k: nat)
    requires Unique(s) && k < |s.q.tasks| && s'.q.tasks == s.q.tasks[..k] + s.q.tasks[k + 1..]
    requires t in s.threads && t in s'.threads && s'.threads == s.threads[t := s'.threads[t]]
    requires s'.threads[t].phase == Got && s'.threads[t].task == Some(s.q.tasks[k])
    ensures Unique(s')
  {
    var tasks, left := s.q.tasks, s'.q.tasks;
    assert forall j :: 0 <= j < |left| ==> left[j] == tasks[if j < k then j else j + 1];
    assert forall c :: Waits(s', c) ==> Waits(s, c) && tasks[k].work != CallbackWork(c);
    assert tasks[k].work.CallbackWork? ==> Waits(s, tasks[k].work.cb);
    hide Waits;
  }

  lemma NothingHeld(s: State, t: ThreadId)
    requires t in s.threads && s.threads[t].phase == AtHead
    ensures forall c :: !Holds(s.threads[t], c)
  {
  }

  lemma OneLess(s: State, s': State, k: nat)
    requires k < |s.q.tasks| && s'.q.tasks == s.q.tasks[..k] + s.q.tasks[k + 1..]
    ensures var work := s.q.tasks[k].work;
            && (forall f :: (Queued(s'.q, f) ==> Queued(s.q, f)) && (Queued(s.q, f) && work != FiberWork(f) ==>
                Queued(s'.q, f)))
            && (forall c :: Waits(s, c) && work != CallbackWork(c) ==> Waits(s', c))
            && (forall c :: Waits(s', c) ==> Waits(s, c))
            && (forall f :: work == FiberWork(f) ==> Queued(s.q, f))
            && (forall c :: work == CallbackWork(c) ==> Waits(s, c))
  {
    var tasks, left := s.q.tasks, s'.q.tasks;
    forall c | Waits(s', c)
      ensures Waits(s, c)
    {
      var j :| 0 <= j < |left| && left[j].work == CallbackWork(c);
      assert tasks[if j < k then j else j + 1] == left[j];
    }
    forall f | Queued(s'.q, f)
      ensures Queued(s.q, f)
    {
      var j :| 0 <= j < |left| && left[j].work == FiberWork(f);
      assert tasks[if j < k then j else j + 1] == left[j];
    }
    forall f | Queued(s.q, f) && tasks[k].work != FiberWork(f)
      ensures Queued(s'.q, f)
    {
      var j :| 0 <= j < |tasks| && tasks[j].work == FiberWork(f);
      assert left[if j < k then j else j - 1] == tasks[j];
    }
    forall c | Waits(s, c) && tasks[k].work != CallbackWork(c)
      ensures Waits(s', c)
    {
      var j :| 0 <= j < |tasks| && tasks[j].work == CallbackWork(c);
      assert left[if j < k then j else j - 1] == tasks[j];
    }
  }

  lemma InHandNow(s: State, s': State, t: ThreadId, work: Work)
    requires t in s.threads && t in s'.threads && s'.threads == s.threads[t := s'.threads[t]]
    requires s.threads[t].phase == AtHead
    requires s'.threads[t].phase == Got && s'.threads[t].task.Some? && s'.threads[t].task.value.work == work
    ensures forall f :: PickedBySome(s', f) <==> PickedBySome(s, f) || work == FiberWork(f)
    ensures forall c :: work == CallbackWork(c) ==> InSomeHand(s', c)
    ensures forall c :: Holds(s'.threads[t], c) ==> work == CallbackWork(c)
  {
    assert work.FiberWork? ==> Claim(s'.threads[t]) == Some(work.fiber);
    assert work.CallbackWork? ==> Holds(s'.threads[t], work.cb);
    forall f | PickedBySome(s, f)
      ensures PickedBySome(s', f)
    {
      PickedKept(s, s', f);
    }
  }

  lemma RunSame(s: State, s': State, t: ThreadId)
    requires t in s.threads && t in s'.threads && s'.threads == s.threads[t := s'.threads[t]]
    requires !s.threads[t].phase.Running? && !s'.threads[t].phase.Running?
    ensures forall g :: RunBySome(s', g) <==> RunBySome(s, g)
  {
    forall g | RunBySome(s, g)
      ensures RunBySome(s', g)
    {
      var u :| u in s.threads && s.threads[u].phase.Running? && s.threads[u].phase.fiber == g;
      assert u != t && s'.threads[u] == s.threads[u];
    }
  }

  // ---------- moves that schedule ----------

  predicate Queueing(s: State, s': State, work: Work, pin: Option<ThreadId>) {
    && s'.threads == s.threads && RolesGrow(s, s')
    && s'.q.tasks == s.q.tasks + [Task(s.q.tickets, work, pin)] && s'.q.stopping == s.q.stopping
  }

  lemma ScheduleQueues(s: State, who: Option<ThreadId>, work: Work, pin: Option<ThreadId>, moved: set<FiberId>)
    requires !work.NullWork? && Machine.Step(s, Schedule(who, Single(work, pin), moved)).Ok?
    ensures Queueing(s, Machine.Step(s, Schedule(who, Single(work, pin), moved)).state, work, pin)
  {
    var batch := Single(work, pin);
    assert batch[1..] == [] && batch[0] == (work, pin);
    assert ScheduleAll(ScheduleOne(s, work, pin), batch[1..]) == ScheduleOne(s, work, pin);
    assert ScheduleAll(s, batch) == ScheduleOne(s, work, pin);
    hide Enabled, Safe;
  }

  lemma CreateQueues(s: State, f: FiberId, who: Option<ThreadId>, pin: Option<ThreadId>)
    requires StepAll(s, [CreateFiber(f), Schedule(who, Single(FiberWork(f), pin), {f})]).Ok?
    ensures var s' := StepAll(s, [CreateFiber(f), Schedule(who, Single(FiberWork(f), pin), {f})]).state;
            Queueing(s, s', FiberWork(f), pin) && f in s'.roles && f !in s.roles
  {
    StepTwo(s, CreateFiber(f), Schedule(who, Single(FiberWork(f), pin), {f}));
    var s1 := Next(s, CreateFiber(f));
    assert s1.threads == s.threads && s1.roles == s.roles[f := TaskFiber] && s1.q == s.q && f !in s.roles;
    hide Enabled, Safe, Next;
    ScheduleQueues(s1, who, FiberWork(f), pin, {f});
  }

  // Where things are once `work` has joined the queue.
  ghost predicate Joined(s: State, s': State, work: Work) {
    && RolesGrow(s, s')
    && (forall f :: Placed(s', f) <==> Placed(s, f) || work == FiberWork(f))
    && (forall c :: CallbackPlaced(s', c) <==> CallbackPlaced(s, c) || work == CallbackWork(c))
    && (Unique(s) && (work.CallbackWork? ==> !CallbackPlaced(s, work.cb)) ==> Unique(s'))
    && (forall f :: work != FiberWork(f) ==> (Requeued(s', f) <==> Requeued(s, f)))
    && (forall f :: work == FiberWork(f) ==> (Requeued(s', f) <==> RunBySome(s, f)))
  }

  lemma QueueingPlaces(s: State, s': State, work: Work, pin: Option<ThreadId>)
    requires Queueing(s, s', work, pin)
    ensures Joined(s, s', work)
  {
    var n := |s.q.tasks|;
    assert forall j :: 0 <= j < n ==> s'.q.tasks[j] == s.q.tasks[j];
    assert s'.q.tasks[n].work == work;
    assert forall f :: Queued(s'.q, f) <==> Queued(s.q, f) || work == FiberWork(f);
    assert forall c :: Waits(s', c) <==> Waits(s, c) || work == CallbackWork(c);
    SamePlaces(s, s');
    if Unique(s) && (work.CallbackWork? ==> !CallbackPlaced(s, work.cb)) {
      UniqueJoined(s, s', work, pin);
    }
    hide Queued, Waits, PickedBySome, RunBySome, InSomeHand, Unique;
  }

  lemma UniqueJoined(s: State, s': State, work: Work, pin: Option<ThreadId>)
    requires Queueing(s, s', work, pin) && Unique(s) && (work.CallbackWork? ==> !CallbackPlaced(s, work.cb))
    ensures Unique(s')
  {
    var n := |s.q.tasks|;
    assert forall j :: 0 <= j < n ==> s'.q.tasks[j] == s.q.tasks[j];
    assert s'.q.tasks[n].work == work;
    assert forall c :: Waits(s', c) ==> Waits(s, c) || work == CallbackWork(c);
    assert work.CallbackWork? ==> forall j :: 0 <= j < n ==> s.q.tasks[j].work != work by {
      assert work.CallbackWork? ==> !Waits(s, work.cb);
    }
    assert work.CallbackWork? ==> forall t :: t in s.threads ==> Picks(s.threads[t]) != Some(work.cb) by {
      assert work.CallbackWork? ==> forall t :: t in s.threads ==> !Holds(s.threads[t], work.cb);
    }
    hide Waits;
  }

  // ---------- the link between the code and the machine ----------

  predicate Linked(x: Scripted) {
    && (forall f :: f in x.code ==> Placed(x.s, f) && NeverParks(x.code[f], Requeued(x.s, f)))
    && (forall c :: c in x.callbacks ==> CallbackPlaced(x.s, c) && NeverParks(x.callbacks[c], false))
  }

  // Everything that is queued, picked or running has code.
  ghost predicate Whole(x: Scripted) {
    && (forall f :: Placed(x.s, f) ==> f in x.code)
    && (forall c :: CallbackPlaced(x.s, c) ==> c in x.callbacks)
    && Unique(x.s)
  }

  // What is left of every script keeps the rule for clients.
  predicate Obeys(x: Scripted) {
    && (forall f :: f in x.code ==> Disciplined(x.code[f], Requeued(x.s, f)))
    && (forall c :: c in x.callbacks ==> Disciplined(x.callbacks[c], false))
  }

  // The links, for scripts that never park (p) and that keep the rule (d).
  ghost predicate Linkage(x: Scripted, p: bool, d: bool) {
    Named(x) && Whole(x) && (p ==> Linked(x)) && (d ==> Obeys(x))
  }

  ghost predicate Kept(x: Scripted, p: bool, d: bool) {
    Sound(x.s) && Linkage(x, p, d)
  }

  // A script that may be scheduled under these.
  predicate Fair(script: Script, queued: bool, p: bool, d: bool) {
    (p ==> NeverParks(script, queued)) && (d ==> Disciplined(script, queued))
  }

  lemma NewNotRun(s: State, f: FiberId)
    requires Inv(s) && f !in s.roles
    ensures !RunBySome(s, f)
  {
    RunsExec(s);
  }

  lemma QuietLink(x: Scripted, s': State, p: bool, d: bool)
    requires Linkage(x, p, d) && KeepsPlaces(x.s, s') && RolesGrow(x.s, s')
    ensures Linkage(x.(s := s'), p, d)
  {
    hide Placed, CallbackPlaced, Requeued, NeverParks, Disciplined, Unique;
  }

  lemma CallbackLink(x: Scripted, script: Script, s': State, p: bool, d: bool)
    requires Linkage(x, p, d) && Joined(x.s, s', CallbackWork(x.nextCallback)) && Fair(script, false, p, d)
    ensures Linkage(Added(x, script).(s := s'), p, d)
  {
    hide Placed, CallbackPlaced, Requeued, NeverParks, Disciplined, Unique;
  }

  lemma FiberLink(x: Scripted, f: FiberId, script: Script, s': State, p: bool, d: bool)
    requires Linkage(x, p, d) && Joined(x.s, s', FiberWork(f)) && Fair(script, false, p, d)
    requires f in s'.roles && !RunBySome(x.s, f)
    ensures Linkage(x.(code := x.code[f := script], s := s'), p, d)
  {
    hide Placed, CallbackPlaced, Requeued, NeverParks, Disciplined, Unique, RunBySome;
  }

  lemma RequeueLink(x: Scripted, f: FiberId, rest: Script, s': State, p: bool, d: bool)
    requires Linkage(x, p, d) && f in x.code && Joined(x.s, s', FiberWork(f))
    requires Fair(rest, true, p, d) && RunBySome(x.s, f)
    ensures Linkage(x.(code := x.code[f := rest], s := s'), p, d)
  {
    hide Placed, CallbackPlaced, Requeued, NeverParks, Disciplined, Unique, RunBySome;
  }

  lemma AdvanceLink(x: Scripted, f: FiberId, rest: Script, p: bool, d: bool)
    requires Linkage(x, p, d) && f in x.code && Fair(rest, Requeued(x.s, f), p, d)
    ensures Linkage(x.(code := x.code[f := rest]), p, d)
  {
    hide Placed, CallbackPlaced, Requeued, NeverParks, Disciplined, Unique;
  }

  lemma LinkQuietly(x: Scripted, m: Move, p: bool, d: bool)
    requires m.Quietly? && Kept(x, p, d) && Play(x, m).Ok?
    ensures Linkage(Play(x, m).state, p, d)
  {
    StepOne(x.s, m.act);
    assert Inv(x.s) && ExecOk(x.s) && Linkage(x, p, d);
    assert Play(x, m).state == x.(s := Next(x.s, m.act)) && IsQuiet(m.act) && Enabled(x.s, m.act) && Safe(x.s, m.act);
    hide *;
    QuietPlaces(x.s, m.act);
    QuietRoles(x.s, m.act);
    QuietLink(x, Next(x.s, m.act), p, d);
  }

  lemma QuietRoles(s: State, act: Act)
    requires Enabled(s, act) && Safe(s, act) && IsQuiet(act)
    ensures RolesGrow(s, Next(s, act))
  {
  }

  lemma LinkSubmit(x: Scripted, m: Move, p: bool, d: bool)
    requires (m.Submit? || m.SubmitFiber?) && Fair(m.script, false, p, d) && Kept(x, p, d) && Play(x, m).Ok?
    ensures Linkage(Play(x, m).state, p, d)
  {
    assert Linkage(x, p, d) && Inv(x.s);
    hide Kept, Sound, Inv, Linkage, Enabled, Safe, Next, Joined, NeverParks, RolesGrow;
    if m.Submit? {
      JoinCallback(x, None, m.pin);
      CallbackLink(x, m.script, StepAll(x.s, ActsOf(x, m)).state, p, d);
      GivenLink(Added(x, m.script).(s := StepAll(x.s, ActsOf(x, m)).state), m.script, p, d);
    } else {
      JoinFiber(x, m.f, None, m.pin);
      var y := x.(code := x.code[m.f := m.script], s := StepAll(x.s, ActsOf(x, m)).state);
      FiberLink(x, m.f, m.script, y.s, p, d);
      GivenLink(y, m.script, p, d);
    }
  }

  lemma GivenLink(x: Scripted, script: Script, p: bool, d: bool)
    requires Linkage(x, p, d)
    ensures Linkage(x.(given := x.given + [script]), p, d)
  {
    hide Placed, CallbackPlaced, Requeued, NeverParks, Disciplined, Unique;
  }

  lemma JoinCallback(x: Scripted, who: Option<ThreadId>, pin: Option<ThreadId>)
    requires StepAll(x.s, [Schedule(who, Single(CallbackWork(x.nextCallback), pin), {})]).Ok?
    ensures Joined(x.s, StepAll(x.s, [Schedule(who, Single(CallbackWork(x.nextCallback), pin), {})]).state,
        CallbackWork(x.nextCallback))
  {
    StepOne(x.s, Schedule(who, Single(CallbackWork(x.nextCallback), pin), {}));
    hide Enabled, Safe, Next, StepAll, Joined, Queueing;
    ScheduleQueues(x.s, who, CallbackWork(x.nextCallback), pin, {});
    QueueingPlaces(x.s, Machine.Step(x.s, Schedule(who, Single(CallbackWork(x.nextCallback), pin), {})).state,
        CallbackWork(x.nextCallback), pin);
  }

  lemma JoinFiber(x: Scripted, f: FiberId, who: Option<ThreadId>, pin: Option<ThreadId>)
    requires Inv(x.s) && StepAll(x.s, [CreateFiber(f), Schedule(who, Single(FiberWork(f), pin), {f})]).Ok?
    ensures var s' := StepAll(x.s, [CreateFiber(f), Schedule(who, Single(FiberWork(f), pin), {f})]).state;
            Joined(x.s, s', FiberWork(f)) && f in s'.roles && !RunBySome(x.s, f)
  {
    hide *;
    CreateQueues(x.s, f, who, pin);
    NewNotRun(x.s, f);
    QueueingPlaces(x.s, StepAll(x.s, [CreateFiber(f), Schedule(who, Single(FiberWork(f), pin), {f})]).state,
        FiberWork(f), pin);
  }

  // The code of the running fiber moves on; nothing else changes.
  lemma LinkEmit(x: Scripted, m: Move, p: bool, d: bool)
    requires m.DoEmit? && Kept(x, p, d) && Play(x, m).Ok?
    ensures Linkage(Play(x, m).state, p, d)
  {
    hide Sound, Placed, CallbackPlaced, Requeued;
  }

  lemma KeptParts(x: Scripted, p: bool, d: bool)
    requires Kept(x, p, d)
    ensures Sound(x.s) && Inv(x.s) && Linkage(x, p, d)
  {
    hide Inv, Linkage;
  }

  // What a running script has left is fair, as far as it has been.
  lemma LeftIsFair(x: Scripted, t: ThreadId, p: bool, d: bool)
    requires Linkage(x, p, d) && RunsCode(x, t)
    ensures var f := x.s.threads[t].phase.fiber; RunBySome(x.s, f) && Fair(CodeAt(x, t), Requeued(x.s, f), p, d)
  {
    hide Placed, CallbackPlaced, Requeued, NeverParks, Disciplined, Named, Whole;
  }

  lemma FairOn(script: Script, queued: bool, p: bool, d: bool)
    requires Fair(script, queued, p, d)
    ensures script.Spawn? ==> Fair(script.child, false, p, d) && Fair(script.rest, queued, p, d)
    ensures script.Requeue? ==> Fair(script.rest, true, p, d)
  {
  }

  lemma PlaySpawn(x: Scripted, m: Move)
    requires m.DoSpawn? && Play(x, m).Ok?
    ensures RunsCode(x, m.t) && CodeAt(x, m.t).Spawn?
    ensures var y, now := Advance(x, m.t), CodeAt(x, m.t);
            if now.asFiber then
              var o := StepAll(x.s, [CreateFiber(m.f), Schedule(Some(m.t), Single(FiberWork(m.f), m.pin), {m.f})]);
              o.Ok? && Play(x, m).state == y.(code := y.code[m.f := now.child], s := o.state)
            else
              var o := StepAll(x.s, [Schedule(Some(m.t), Single(CallbackWork(x.nextCallback), m.pin), {})]);
              o.Ok? && Play(x, m).state == Added(y, now.child).(s := o.state)
  {
    hide StepAll, Single;
  }

  lemma LinkSpawn(x: Scripted, m: Move, p: bool, d: bool)
    requires m.DoSpawn? && Kept(x, p, d) && Play(x, m).Ok?
    ensures Linkage(Play(x, m).state, p, d)
  {
    PlaySpawn(x, m);
    var now, f := CodeAt(x, m.t), x.s.threads[m.t].phase.fiber;
    assert f in x.code && x.code[f] == now && Advance(x, m.t) == x.(code := x.code[f := now.rest]);
    hide *;
    KeptParts(x, p, d);
    LeftIsFair(x, m.t, p, d);
    FairOn(now, Requeued(x.s, f), p, d);
    SpawnLink(x, f, now, m, p, d);
  }

  lemma SpawnLink(x: Scripted, f: FiberId, now: Script, m: Move, p: bool, d: bool)
    requires m.DoSpawn? && Inv(x.s) && Linkage(x, p, d) && f in x.code && x.code[f] == now && now.Spawn?
    requires Fair(now.child, false, p, d) && Fair(now.rest, Requeued(x.s, f), p, d)
    ensures var y := x.(code := x.code[f := now.rest]);
            if now.asFiber then
              var o := StepAll(x.s, [CreateFiber(m.f), Schedule(Some(m.t), Single(FiberWork(m.f), m.pin), {m.f})]);
              o.Ok? ==> Linkage(y.(code := y.code[m.f := now.child], s := o.state), p, d)
            else
              var o := StepAll(x.s, [Schedule(Some(m.t), Single(CallbackWork(x.nextCallback), m.pin), {})]);
              o.Ok? ==> Linkage(Added(y, now.child).(s := o.state), p, d)
  {
    hide *;
    var y := x.(code := x.code[f := now.rest]);
    AdvanceLink(x, f, now.rest, p, d);
    if now.asFiber {
      var o := StepAll(x.s, [CreateFiber(m.f), Schedule(Some(m.t), Single(FiberWork(m.f), m.pin), {m.f})]);
      if o.Ok? {
        JoinFiber(x, m.f, Some(m.t), m.pin);
        FiberLink(y, m.f, now.child, o.state, p, d);
      }
    } else {
      var o := StepAll(x.s, [Schedule(Some(m.t), Single(CallbackWork(x.nextCallback), m.pin), {})]);
      if o.Ok? {
        JoinCallback(x, Some(m.t), m.pin);
        CallbackLink(y, now.child, o.state, p, d);
      }
    }
  }

  lemma PlayRequeue(x: Scripted, m: Move)
    requires m.DoRequeue? && Play(x, m).Ok?
    ensures RunsCode(x, m.t) && CodeAt(x, m.t).Requeue?
    ensures var f := x.s.threads[m.t].phase.fiber; var act := Schedule(Some(m.t), Single(FiberWork(f), m.pin), {});
            && Machine.Step(x.s, act).Ok?
            && Play(x, m).state == x.(code := x.code[f := CodeAt(x, m.t).rest], s := Machine.Step(x.s, act).state)
  {
    StepOne(x.s, Schedule(Some(m.t), Single(FiberWork(x.s.threads[m.t].phase.fiber), m.pin), {}));
    hide StepAll, Single, Machine.Step;
  }

  lemma LinkRequeue(x: Scripted, m: Move, p: bool, d: bool)
    requires m.DoRequeue? && Kept(x, p, d) && Play(x, m).Ok?
    ensures Linkage(Play(x, m).state, p, d)
  {
    PlayRequeue(x, m);
    var now, f := CodeAt(x, m.t), x.s.threads[m.t].phase.fiber;
    assert f in x.code;
    hide *;
    KeptParts(x, p, d);
    LeftIsFair(x, m.t, p, d);
    FairOn(now, Requeued(x.s, f), p, d);
    var act := Schedule(Some(m.t), Single(FiberWork(f), m.pin), {});
    ScheduleQueues(x.s, Some(m.t), FiberWork(f), m.pin, {});
    QueueingPlaces(x.s, Machine.Step(x.s, act).state, FiberWork(f), m.pin);
    RequeueLink(x, f, now.rest, Machine.Step(x.s, act).state, p, d);
  }

  // ---------- moves that start and end a slice ----------

  // Thread t, which held callback c, now runs fiber f.
  ghost predicate Began(s: State, s': State, c: nat, f: FiberId) {
    && RolesGrow(s, s') && f in s'.roles && Placed(s', f)
    && (forall g :: Placed(s', g) <==> Placed(s, g) || g == f)
    && (forall d :: CallbackPlaced(s, d) && d != c ==> CallbackPlaced(s', d))
    && (forall d :: CallbackPlaced(s', d) ==> CallbackPlaced(s, d))
    && (forall g :: Requeued(s', g) <==> Requeued(s, g)) && !Requeued(s', f)
    && (Unique(s) ==> Unique(s') && !CallbackPlaced(s', c))
  }

  lemma BeginPlaces(s: State, t: ThreadId, f: FiberId, c: nat)
    requires Inv(s) && Machine.Step(s, StartCallback(t, f)).Ok? && Holds(s.threads[t], c)
    ensures Began(s, Next(s, StartCallback(t, f)), c, f)
  {
    var s' := Next(s, StartCallback(t, f));
    ActorBefore(s, StartCallback(t, f), t);
    StartedFibers(s, t, f);
    assert s'.threads[t].phase == Running(f, s.clock) && f !in s.roles;
    assert !Queued(s.q, f) && Claim(s.threads[t]) == None && s.threads[t].phase == Got;
    hide Next, Enabled, Safe, Inv, ThreadOk, FibersOk;
    CallbackToRun(s, s', t, f, c);
  }

  lemma CallbackToRun(s: State, s': State, t: ThreadId, f: FiberId, c: nat)
    requires t in s.threads && t in s'.threads && s'.threads == s.threads[t := s'.threads[t]] && s'.q == s.q
    requires s.threads[t].phase == Got && s'.threads[t].phase.Running? && s'.threads[t].phase.fiber == f
    requires !Queued(s.q, f)
    requires Claim(s.threads[t]) == None && Holds(s.threads[t], c) && s'.roles == s.roles[f := TaskFiber]
    requires f !in s.roles
    ensures Began(s, s', c, f)
  {
    RunGrows(s, s', t, f);
    HandsKept(s, s', t);
    forall g | PickedBySome(s, g)
      ensures PickedBySome(s', g)
    {
      PickedKept(s, s', g);
    }
    assert forall g :: PickedBySome(s', g) ==> PickedBySome(s, g);
    assert forall d :: Holds(s.threads[t], d) ==> d == c;
    assert forall d :: !Holds(s'.threads[t], d);
    assert forall d :: Waits(s', d) <==> Waits(s, d);
    if Unique(s) {
      UniqueBegan(s, s', t, c);
    }
    hide Queued, Waits, RunBySome, PickedBySome, InSomeHand, Claim, Holds, Unique;
  }

  lemma UniqueBegan(s: State, s': State, t: ThreadId, c: nat)
    requires Unique(s) && t in s.threads && t in s'.threads && s'.threads == s.threads[t := s'.threads[t]]
    requires s'.q == s.q && Holds(s.threads[t], c) && s'.threads[t].phase != Got
    ensures Unique(s') && !CallbackPlaced(s', c)
  {
    assert forall d :: Waits(s', d) <==> Waits(s, d);
    hide Waits;
  }

  // The slice of f is over.
  ghost predicate Over(s: State, s': State, f: FiberId) {
    && s'.roles == s.roles && (Placed(s', f) <==> Queued(s.q, f)) && !Requeued(s', f)
    && (forall g :: g != f ==> (Placed(s', g) <==> Placed(s, g)))
    && (forall c :: CallbackPlaced(s', c) <==> CallbackPlaced(s, c))
    && (forall g :: g != f ==> (Requeued(s', g) <==> Requeued(s, g)))
    && (Unique(s) ==> Unique(s'))
  }

  lemma EndPlaces(s: State, t: ThreadId, act: Act)
    requires Inv(s) && (act == Yield(t) || act == Finish(t)) && Machine.Step(s, act).Ok?
    ensures Over(s, Next(s, act), s.threads[t].phase.fiber)
  {
    var s', f := Next(s, act), s.threads[t].phase.fiber;
    ActorThreads(s, act, t);
    assert s'.q == s.q && s'.roles == s.roles && s'.threads[t].phase == Returned;
    RunnersApart(s, t);
    hide Next, Enabled, Safe, Inv;
    RunToBack(s, s', t, f);
  }

  lemma RunnersApart(s: State, t: ThreadId)
    requires Inv(s) && InSlice(s, t)
    ensures forall u :: u in s.threads && u != t ==> Claim(s.threads[u]) != Some(s.threads[t].phase.fiber)
  {
    assert ClaimsApart(s) && Claim(s.threads[t]) == Some(s.threads[t].phase.fiber);
    hide Inv;
  }

  lemma RunToBack(s: State, s': State, t: ThreadId, f: FiberId)
    requires t in s.threads && t in s'.threads && s'.threads == s.threads[t := s'.threads[t]] && s'.q == s.q
    requires s'.roles == s.roles
    requires s.threads[t].phase.Running? && s.threads[t].phase.fiber == f && s'.threads[t].phase == Returned
    requires forall u :: u in s.threads && u != t ==> Claim(s.threads[u]) != Some(f)
    ensures Over(s, s', f)
  {
    assert !PickedBySome(s', f) && !RunBySome(s', f);
    assert forall g :: PickedBySome(s', g) ==> PickedBySome(s, g);
    assert Unique(s) ==> Unique(s') by { hide Queued, PickedBySome, RunBySome, InSomeHand, Claim; }
    forall g | RunBySome(s, g) && g != f
      ensures RunBySome(s', g)
    {
      var u :| u in s.threads && s.threads[u].phase.Running? && s.threads[u].phase.fiber == g;
      assert u != t && s'.threads[u] == s.threads[u];
    }
    forall g | PickedBySome(s, g)
      ensures PickedBySome(s', g)
    {
      PickedKept(s, s', g);
    }
    HandsKept(s, s', t);
    assert !RunBySome(s', f);
    assert forall g :: RunBySome(s', g) ==> RunBySome(s, g);
    assert forall d :: Waits(s', d) <==> Waits(s, d);
    assert forall d :: !Holds(s.threads[t], d) && !Holds(s'.threads[t], d);
    hide Queued, Waits, RunBySome, PickedBySome, InSomeHand, Holds, Unique;
  }

  lemma BeginLink(x: Scripted, f: FiberId, c: nat, s': State, p: bool, d: bool)
    requires Linkage(x, p, d) && c in x.callbacks && f !in x.s.roles && Began(x.s, s', c, f)
    ensures Linkage(x.(code := x.code[f := x.callbacks[c]], callbacks := x.callbacks - {c}, s := s'), p, d)
  {
    hide Placed, CallbackPlaced, Requeued, NeverParks, Disciplined, Unique;
  }

  lemma SuspendLink(x: Scripted, f: FiberId, rest: Script, s': State, p: bool, d: bool)
    requires Linkage(x, p, d) && f in x.code && x.code[f] == Suspend(rest) && Over(x.s, s', f)
    ensures Linkage(x.(code := x.code[f := rest], s := s'), p, d)
  {
    assert p ==> Requeued(x.s, f) && NeverParks(rest, false) by { hide Placed, CallbackPlaced, Requeued; }
    assert d ==> Disciplined(rest, false) by { hide Placed, CallbackPlaced, Requeued; }
    assert p ==> Queued(x.s.q, f);
    hide Placed, CallbackPlaced, Requeued, NeverParks, Disciplined, Unique, Queued;
  }

  lemma ReturnLink(x: Scripted, f: FiberId, s': State, p: bool, d: bool)
    requires Linkage(x, p, d) && Over(x.s, s', f) && !Queued(x.s.q, f)
    ensures Linkage(x.(code := x.code - {f}, s := s'), p, d)
  {
    hide Placed, CallbackPlaced, Requeued, NeverParks, Disciplined, Unique, Queued;
  }

  // `slices` is nothing to the link.
  lemma SlicesLink(x: Scripted, n: nat, p: bool, d: bool)
    requires Linkage(x, p, d)
    ensures Linkage(x.(slices := n), p, d)
  {
    hide Placed, CallbackPlaced, Requeued, NeverParks, Disciplined, Unique;
  }

  lemma StepBegin(x: Scripted, m: Move)
    requires m.Begin? && Play(x, m).Ok?
    ensures var c := x.s.threads[m.t].task.value.work.cb; var act := StartCallback(m.t, m.f);
            && m.t in x.s.threads && Holds(x.s.threads[m.t], c) && c in x.callbacks && m.f !in x.s.roles
            && Machine.Step(x.s, act).Ok?
            && Play(x, m).state ==
               x.(code := x.code[m.f := x.callbacks[c]], callbacks := x.callbacks - {c}, s := Next(x.s, act))
  {
    StepOne(x.s, StartCallback(m.t, m.f));
    hide Next, Safe;
  }

  lemma LinkBegin(x: Scripted, m: Move, p: bool, d: bool)
    requires m.Begin? && Kept(x, p, d) && Play(x, m).Ok?
    ensures Linkage(Play(x, m).state, p, d)
  {
    assert Linkage(x, p, d) && Inv(x.s);
    StepBegin(x, m);
    hide *;
    var c := x.s.threads[m.t].task.value.work.cb;
    BeginPlaces(x.s, m.t, m.f, c);
    BeginLink(x, m.f, c, Next(x.s, StartCallback(m.t, m.f)), p, d);
  }

  function EndOf(m: Move): Act
    requires m.DoSuspend? || m.DoReturn?
  {
    if m.DoSuspend? then Yield(m.t) else Finish(m.t)
  }

  lemma StepEnd(x: Scripted, m: Move)
    requires (m.DoSuspend? || m.DoReturn?) && Play(x, m).Ok?
    ensures RunsCode(x, m.t) && Machine.Step(x.s, EndOf(m)).Ok?
    ensures m.DoReturn? ==> !Queued(x.s.q, x.s.threads[m.t].phase.fiber)
    ensures var f, s' := x.s.threads[m.t].phase.fiber, Next(x.s, EndOf(m));
            if m.DoSuspend? then
              && x.code[f].Suspend? && x.code[f] == Suspend(x.code[f].rest)
              && Play(x, m).state == x.(code := x.code[f := x.code[f].rest], s := s').(slices := x.slices + 1)
            else Play(x, m).state == x.(code := x.code - {f}, s := s').(slices := x.slices + 1)
  {
    StepOne(x.s, EndOf(m));
    hide Next, Safe;
  }

  lemma LinkEnd(x: Scripted, m: Move, p: bool, d: bool)
    requires (m.DoSuspend? || m.DoReturn?) && Kept(x, p, d) && Play(x, m).Ok?
    ensures Linkage(Play(x, m).state, p, d)
  {
    assert Linkage(x, p, d) && Inv(x.s);
    StepEnd(x, m);
    assert RunsCode(x, m.t) && InSlice(x.s, m.t) && (EndOf(m) == Yield(m.t) || EndOf(m) == Finish(m.t));
    var f, s' := x.s.threads[m.t].phase.fiber, Next(x.s, EndOf(m));
    assert f in x.code;
    hide *;
    EndPlaces(x.s, m.t, EndOf(m));
    if m.DoSuspend? {
      SuspendLink(x, f, x.code[f].rest, s', p, d);
      SlicesLink(x.(code := x.code[f := x.code[f].rest], s := s'), x.slices + 1, p, d);
    } else {
      ReturnLink(x, f, s', p, d);
      SlicesLink(x.(code := x.code - {f}, s := s'), x.slices + 1, p, d);
    }
  }

  // ---------- over runs ----------

  ghost predicate ScriptInv(x: Scripted) {
    Sound(x.s) && Balanced(x) && Linkage(x, NoneParks(x.given), AllDisciplined(x.given))
  }

  lemma {:induction false} StepAllSound(s: State, acts: seq<Act>)
    requires Sound(s)
    ensures !StepAll(s, acts).Crash?
    ensures StepAll(s, acts).Ok? ==> Sound(StepAll(s, acts).state)
    decreases |acts|
  {
    if acts != [] {
      var front, act := acts[..|acts| - 1], acts[|acts| - 1];
      StepAllSound(s, front);
      hide Sound, Enabled, Safe, Next;
      if StepAll(s, front).Ok? && Enabled(StepAll(s, front).state, act) {
        EnabledIsSafe(StepAll(s, front).state, act);
        KeepsSound(StepAll(s, front).state, act);
      }
    }
  }

  lemma MovesLink(x: Scripted, m: Move, p: bool, d: bool)
    requires Kept(x, p, d) && Play(x, m).Ok?
    requires (p ==> NoneParks(Effect(x, m).given)) && (d ==> AllDisciplined(Effect(x, m).given))
    ensures Linkage(Play(x, m).state, p, d)
  {
    assert m.Submit? || m.SubmitFiber? ==> Fair(m.script, false, p, d) by {
      var given := Effect(x, m).given;
      assert m.Submit? || m.SubmitFiber? ==> given[|x.given|] == m.script;
    }
    hide *;
    match m
    case Quietly(_) => LinkQuietly(x, m, p, d);
    case Submit(_, _) => LinkSubmit(x, m, p, d);
    case SubmitFiber(_, _, _) => LinkSubmit(x, m, p, d);
    case Begin(_, _) => LinkBegin(x, m, p, d);
    case DoEmit(_) => LinkEmit(x, m, p, d);
    case DoSpawn(_, _, _) => LinkSpawn(x, m, p, d);
    case DoRequeue(_, _) => LinkRequeue(x, m, p, d);
    case DoSuspend(_) => LinkEnd(x, m, p, d);
    case DoReturn(_) => LinkEnd(x, m, p, d);
  }

  lemma WeakerLinkage(x: Scripted, p: bool, d: bool, p': bool, d': bool)
    requires Linkage(x, p, d) && (p' ==> p) && (d' ==> d)
    ensures Linkage(x, p', d')
  {
    hide Named, Whole, Linked, Obeys;
  }

  lemma KeepsScriptInv(x: Scripted, m: Move)
    requires ScriptInv(x)
    ensures !Play(x, m).Crash?
    ensures Play(x, m).Ok? ==> ScriptInv(Play(x, m).state)
  {
    if Fits(x, m) {
      StepAllSound(x.s, ActsOf(x, m));
      if Play(x, m).Ok? {
        hide Sound, StepAll, Fits;
        forall f | Brings(x, m, f)
          ensures f !in x.s.roles
        {
          BroughtIsNew(x, m, f);
        }
        hide Brings;
        KeepsBalance(x, m);
        BalanceOnly(Effect(x, m), StepAll(x.s, ActsOf(x, m)).state);
        var p, d := NoneParks(Effect(x, m).given), AllDisciplined(Effect(x, m).given);
        GivenBefore(x, m);
        WeakerLinkage(x, NoneParks(x.given), AllDisciplined(x.given), p, d);
        MovesLink(x, m, p, d);
      }
    }
  }

  lemma BalanceOnly(x: Scripted, s: State)
    requires Balanced(x)
    ensures Balanced(x.(s := s))
  {
  }

  lemma GivenBefore(x: Scripted, m: Move)
    requires Fits(x, m)
    ensures NoneParks(Effect(x, m).given) ==> NoneParks(x.given)
    ensures AllDisciplined(Effect(x, m).given) ==> AllDisciplined(x.given)
  {
    assert forall i :: 0 <= i < |x.given| ==> Effect(x, m).given[i] == x.given[i];
  }

  lemma InitialScript(useCaller: bool)
    ensures ScriptInv(Scripted(Initial(useCaller), map[], map[], 0, [], 0, []))
  {
    InitialSound(useCaller);
    hide Sound;
  }

  // Scripts never drive the machine into a crash, whatever they are and in whatever order the
  // threads take their actions: a script that breaks the rule for clients is stopped at the
  // action that would break it.  That scripts which keep the rule are never stopped is proved
  // in ScriptedProgress.
  lemma {:induction false} ScriptsRunSafely(useCaller: bool, moves: seq<Move>)
    ensures !PlayAll(useCaller, moves).Crash?
    ensures PlayAll(useCaller, moves).Ok? ==> ScriptInv(PlayAll(useCaller, moves).state)
    decreases |moves|
  {
    if moves == [] {
      InitialScript(useCaller);
    } else {
      var front := moves[..|moves| - 1];
      ScriptsRunSafely(useCaller, front);
      hide ScriptInv, Play;
      if PlayAll(useCaller, front).Ok? {
        KeepsScriptInv(PlayAll(useCaller, front).state, moves[|moves| - 1]);
      }
    }
  }

  // Every run has at most as many slices as the given scripts have actions, and what it emits
  // is at every moment part of what they were to emit.
  lemma RunsAreBounded(useCaller: bool, moves: seq<Move>)
    requires PlayAll(useCaller, moves).Ok?
    ensures var x := PlayAll(useCaller, moves).state;
            x.slices <= Total(x.given) && multiset(x.trace) <= AllMarks(x.given)
  {
    ScriptsRunSafely(useCaller, moves);
    hide PlayAll, Sound;
  }

  // When stopping() holds, everything that the given scripts and all their descendants were to
  // emit has been emitted exactly once, under every interleaving, if every task queues itself
  // before it yields.
  lemma StoppingMeansEmitted(useCaller: bool, moves: seq<Move>)
    requires PlayAll(useCaller, moves).Ok?
    ensures var x := PlayAll(useCaller, moves).state;
            IsStopping(x.s.q) && NoneParks(x.given) ==>
              x.code == map[] && x.callbacks == map[] && multiset(x.trace) == AllMarks(x.given)
  {
    var x := PlayAll(useCaller, moves).state;
    ScriptsRunSafely(useCaller, moves);
    hide PlayAll;
    if IsStopping(x.s.q) && NoneParks(x.given) {
      assert Counts(x.s);
      hide Sound;
      StoppingIsQuiet(x.s);
      NothingLeft(x);
    }
  }

  lemma NothingLeft(x: Scripted)
    requires Quiet(x.s) && Linked(x)
    ensures x.code == map[] && x.callbacks == map[]
  {
    assert forall t :: t in x.s.threads ==> t !in BusySet(x.s.threads) && !BusyPhase(x.s.threads[t].phase);
    assert forall f :: !Placed(x.s, f);
    assert forall c :: !CallbackPlaced(x.s, c);
    hide Placed, CallbackPlaced, Requeued, NeverParks;
    assert x.code.Keys == {} && x.callbacks.Keys == {};
  }
}
