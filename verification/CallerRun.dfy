/**
 stop() when only the calling thread runs tasks (code/common/scheduler.cpp:74-112,125-214):
 the whole loop of run(), on the scheduler's own queue and on real fibers, emits exactly what
 the plain worklist emits, and ends.
 */
module CallerRuns {
  import opened Outcomes
  import opened Fibers
  import opened Scheduling
  import opened Worklists

  // ---------- the state as a value ----------

  // `code` is what the suspended fibers have left to run, `callbacks` the queued functions,
  // `resting` the idle fiber until it is resumed.
  datatype World = World(q: Sched, heap: Heap, locals: Locals,
                         code: map<FiberId, Script>, callbacks: map<nat, Script>, nextFiber: nat, nextCallback: nat,
                         resting: Option<FiberId>)

  function ScriptOf(code: map<FiberId, Script>, callbacks: map<nat, Script>, work: Work): Script {
    match work
    case FiberWork(f) => if f in code then code[f] else Return
    case CallbackWork(c) => if c in callbacks then callbacks[c] else Return
    case NullWork => Return
  }

  // The queue as a worklist.
  function Items(w: World): seq<Script> {
    seq(|w.q.tasks|, i requires 0 <= i < |w.q.tasks| => ScriptOf(w.code, w.callbacks, w.q.tasks[i].work))
  }

  predicate WorkOk(w: World, work: Work, running: Option<FiberId>) {
    match work
    case FiberWork(f) => f in w.code || running == Some(f)
    case CallbackWork(c) => c in w.callbacks
    case NullWork => false
  }

  predicate QueueOk(w: World, me: ThreadId, running: Option<FiberId>) {
    && (forall i :: 0 <= i < |w.q.tasks| ==>
          WorkOk(w, w.q.tasks[i].work, running) && (w.q.tasks[i].pin == None || w.q.tasks[i].pin == Some(me)))
    && (forall i, j :: 0 <= i < j < |w.q.tasks| && w.q.tasks[i].work.FiberWork? ==>
        w.q.tasks[i].work != w.q.tasks[j].work)
  }

  predicate CodeOk(w: World) {
    && (forall c :: c in w.callbacks ==> c < w.nextCallback && Disciplined(w.callbacks[c], false))
    && (forall f :: f in w.code ==>
          f in w.heap && w.heap[f].viaScheduler && w.heap[f].state == READY && Disciplined(w.code[f], false))
  }

  // The thread fiber and the root fiber, and at most one fiber that is running on them.
  predicate HeapOk(w: World, running: Option<FiberId>) {
    && (forall f :: f in w.heap ==> f < w.nextFiber)
    && w.locals.thread.Some? && w.locals.scheduler.Some? && w.locals.thread != w.locals.scheduler
    && w.locals.thread.value in w.heap && w.locals.scheduler.value in w.heap
    && w.heap[w.locals.scheduler.value].state == EXEC && !w.heap[w.locals.scheduler.value].viaScheduler
    && w.heap[w.locals.thread.value].state == EXEC && !w.heap[w.locals.thread.value].viaScheduler
    && (forall f :: f in w.heap && w.heap[f].state == EXEC ==>
          Some(f) == w.locals.thread || Some(f) == w.locals.scheduler || Some(f) == running)
    && (running.Some? ==>
          && running.value in w.heap && w.heap[running.value].viaScheduler && w.heap[running.value].state == EXEC
          && running.value !in w.code && w.locals.cur == running)
    && (w.resting.Some? ==>
          && w.resting.value in w.heap && w.resting.value !in w.code
          && w.heap[w.resting.value].viaScheduler && w.heap[w.resting.value].state == READY)
  }

  predicate Settled(w: World, me: ThreadId, running: Option<FiberId>) {
    QueueOk(w, me, running) && CodeOk(w) && HeapOk(w, running)
  }

  // ---------- one slice on values ----------

  // What is queued, with the running fiber itself as None.
  function Marked(tasks: seq<Task>, f: FiberId, code: map<FiberId, Script>, callbacks: map<nat,
      Script>): seq<Option<Script>> {
    seq(|tasks|, i requires 0 <= i < |tasks| =>
      if tasks[i].work == FiberWork(f) then None else Some(ScriptOf(code, callbacks, tasks[i].work)))
  }

  // What has been queued since the queue had length n.
  function Added(w: World, f: FiberId, n: nat): seq<Option<Script>>
    requires n <= |w.q.tasks|
  {
    Marked(w.q.tasks[n..], f, w.code, w.callbacks)
  }

  function Create(w: World, f: FiberId, script: Script): World {
    w.(heap := w.heap[f := NewFiber(true)], code := w.code[f := script], nextFiber := f + 1)
  }

  function Remember(w: World, c: nat, script: Script): World {
    w.(callbacks := w.callbacks[c := script], nextCallback := c + 1)
  }

  function Resume(w: World, f: FiberId, here: nat): World
    requires HasMain(w.heap, w.locals, f)
  {
    w.(heap := Resumed(w.heap, w.locals, f, here), locals := w.locals.(cur := Some(f)), code := w.code - {f})
  }

  function Suspended(w: World, f: FiberId, here: nat, rest: Script): World
    requires f in w.heap
  {
    w.(heap := Yielded(w.heap, f, here), locals := w.locals.(cur := w.locals.thread), code := w.code[f := rest])
  }

  function Finished(w: World, f: FiberId, here: nat): World
    requires f in w.heap
  {
    w.(heap := Yielded(Ended(w.heap, f), f, here), locals := w.locals.(cur := w.locals.thread))
  }

  function Enqueued(w: World, work: Work, pin: Option<ThreadId>): World {
    w.(q := Scheduled(w.q, work, pin))
  }

  // Nothing in the queue has changed its meaning.
  predicate SameScripts(w: World, w': World) {
    && w'.q.tasks == w.q.tasks
    && (forall i :: 0 <= i < |w.q.tasks| ==> ScriptOf(w'.code, w'.callbacks, w.q.tasks[i].work) == ScriptOf(w.code,
        w.callbacks, w.q.tasks[i].work))
  }

  lemma SameQueue(w: World, w': World, f: FiberId, n: nat)
    requires SameScripts(w, w') && n <= |w.q.tasks|
    ensures Items(w') == Items(w) && Added(w', f, n) == Added(w, f, n)
  {
  }

  lemma CreateSettled(w: World, me: ThreadId, running: Option<FiberId>, script: Script)
    requires Settled(w, me, running) && Disciplined(script, false)
    ensures var w' := Create(w, w.nextFiber, script);
            Settled(w', me, running) && SameScripts(w, w') && !Queued(w'.q, w.nextFiber)
  {
    var w' := Create(w, w.nextFiber, script);
    assert forall i :: 0 <= i < |w.q.tasks| ==> WorkOk(w, w.q.tasks[i].work, running);
    assert QueueOk(w', me, running) && SameScripts(w, w') && !Queued(w'.q, w.nextFiber) by {
      hide Disciplined;
      CreateQueue(w, me, running, script);
    }
    hide QueueOk, Queued, SameScripts;
    CreateHeap(w, running, script);
  }

  lemma CreateQueue(w: World, me: ThreadId, running: Option<FiberId>, script: Script)
    requires QueueOk(w, me, running) && CodeOk(w) && HeapOk(w, running)
    ensures var w' := Create(w, w.nextFiber, script);
            QueueOk(w', me, running) && SameScripts(w, w') && !Queued(w'.q, w.nextFiber)
  {
    assert forall i :: 0 <= i < |w.q.tasks| ==> WorkOk(w, w.q.tasks[i].work, running);
    assert w.nextFiber !in w.code && running != Some(w.nextFiber);
    hide HeapOk, CodeOk, Disciplined;
  }

  lemma CreateHeap(w: World, running: Option<FiberId>, script: Script)
    requires CodeOk(w) && HeapOk(w, running) && Disciplined(script, false)
    ensures var w' := Create(w, w.nextFiber, script); CodeOk(w') && HeapOk(w', running)
  {
  }

  lemma RememberSettled(w: World, me: ThreadId, running: Option<FiberId>, script: Script)
    requires Settled(w, me, running) && Disciplined(script, false)
    ensures var w' := Remember(w, w.nextCallback, script); Settled(w', me, running) && SameScripts(w, w')
  {
    assert forall i :: 0 <= i < |w.q.tasks| ==> WorkOk(w, w.q.tasks[i].work, running);
  }

  lemma EnqueuedSettled(w: World, me: ThreadId, f: FiberId, n: nat, work: Work, pin: Option<ThreadId>)
    requires Settled(w, me, Some(f)) && n <= |w.q.tasks| && WorkOk(w, work, Some(f)) && (pin == None || pin == Some(me))
    requires work.FiberWork? ==> !Queued(w.q, work.fiber)
    ensures var w' := Enqueued(w, work, pin);
            && Settled(w', me, Some(f)) && w'.q.tasks == w.q.tasks + [Task(w.q.tickets, work, pin)]
            && Added(w', f, n) == Added(w, f, n) + [if work == FiberWork(f) then None else Some(ScriptOf(w.code,
                w.callbacks, work))]
            && (Queued(w'.q, f) <==> Queued(w.q, f) || work == FiberWork(f))
  {
    var w', k := Enqueued(w, work, pin), |w.q.tasks|;
    assert w'.q.tasks[k].work == work && forall i :: 0 <= i < k ==> w'.q.tasks[i] == w.q.tasks[i];
    assert QueueOk(w', me, Some(f));
    assert w'.q.tasks[n..] == w.q.tasks[n..] + [Task(w.q.tickets, work, pin)];
    hide QueueOk, CodeOk, HeapOk, ScriptOf;
    MarkedSnoc(w.q.tasks[n..], Task(w.q.tickets, work, pin), f, w.code, w.callbacks);
  }

  lemma MarkedSnoc(tasks: seq<Task>, last: Task, f: FiberId, code: map<FiberId, Script>, callbacks: map<nat, Script>)
    ensures Marked(tasks + [last], f, code, callbacks) ==
            Marked(tasks, f, code, callbacks) + [if last.work == FiberWork(f) then None else Some(ScriptOf(code,
                callbacks, last.work))]
  {
    hide ScriptOf;
  }

  function Spawned(w: World, child: Script, asFiber: bool, pin: Option<ThreadId>): World {
    if asFiber then Enqueued(Create(w, w.nextFiber, child), FiberWork(w.nextFiber), pin)
    else Enqueued(Remember(w, w.nextCallback, child), CallbackWork(w.nextCallback), pin)
  }

  // What one scheduling call inside the slice of f comes to: the queue grows by one, marked
  // as given; what was there keeps its meaning.
  predicate Grows(w: World, w': World, f: FiberId, n: nat, mark: Option<Script>) {
    && n <= |w.q.tasks| && |w'.q.tasks| == |w.q.tasks| + 1 && w'.q.tasks[..n] == w.q.tasks[..n]
    && Items(w')[..n] == Items(w)[..n]
    && Added(w', f, n) == Added(w, f, n) + [mark]
    && (Queued(w'.q, f) <==> Queued(w.q, f) || mark == None)
    && w'.q == w.q.(tasks := w'.q.tasks, tickets := w'.q.tickets)
  }

  lemma SpawnedSettled(w: World, me: ThreadId, f: FiberId, n: nat, child: Script, asFiber: bool, pin: Option<ThreadId>)
    requires Settled(w, me, Some(f)) && n <= |w.q.tasks| && Disciplined(child, false) && (pin == None
        || pin == Some(me))
    ensures var w' := Spawned(w, child, asFiber, pin); Settled(w', me, Some(f)) && Grows(w, w', f, n, Some(child))
  {
    var w1 := if asFiber then Create(w, w.nextFiber, child) else Remember(w, w.nextCallback, child);
    var work := if asFiber then FiberWork(w.nextFiber) else CallbackWork(w.nextCallback);
    assert f < w.nextFiber && ScriptOf(w1.code, w1.callbacks, work) == child && WorkOk(w1, work, Some(f));
    if asFiber {
      CreateSettled(w, me, Some(f), child);
    } else {
      RememberSettled(w, me, Some(f), child);
    }
    hide Settled, SameScripts, Queued, WorkOk, Disciplined;
    EnqueueGrows(w, w1, me, f, n, work, pin);
  }

  lemma EnqueueGrows(w: World, w1: World, me: ThreadId, f: FiberId, n: nat, work: Work, pin: Option<ThreadId>)
    requires Settled(w1, me, Some(f)) && n <= |w.q.tasks| && SameScripts(w, w1) && w1.q == w.q
    requires WorkOk(w1, work, Some(f)) && (pin == None || pin == Some(me))
    requires work.FiberWork? ==> !Queued(w1.q, work.fiber)
    ensures var w' := Enqueued(w1, work, pin);
            && Settled(w', me, Some(f))
            && Grows(w, w', f, n, if work == FiberWork(f) then None else Some(ScriptOf(w1.code, w1.callbacks, work)))
  {
    SameQueue(w, w1, f, n);
    EnqueuedSettled(w1, me, f, n, work, pin);
    var w' := Enqueued(w1, work, pin);
    assert !work.NullWork?;
    hide Settled, SameScripts, Queued, WorkOk, Added, ScriptOf;
    assert Items(w')[..n] == Items(w1)[..n];
  }

  // What a part of the slice of f comes to.
  predicate Ran(w: World, w': World, f: FiberId, n: nat, added: seq<Option<Script>>) {
    && n == |w.q.tasks| && n <= |w'.q.tasks| && w'.q.tasks[..n] == w.q.tasks
    && Items(w')[..n] == Items(w) && Added(w', f, n) == added
    && w'.q == w.q.(tasks := w'.q.tasks, tickets := w'.q.tickets)
  }

  lemma RanOn(w0: World, w: World, w': World, f: FiberId, n: nat, added: seq<Option<Script>>, mark: Option<Script>)
    requires Ran(w0, w, f, n, added) && Grows(w, w', f, n, mark)
    ensures Ran(w0, w', f, n, added + [mark])
  {
    hide Items, Added, Queued;
  }

  lemma GrowsQueued(w: World, w': World, f: FiberId, n: nat, mark: Option<Script>)
    requires Grows(w, w', f, n, mark)
    ensures Queued(w'.q, f) <==> Queued(w.q, f) || mark == None
  {
    hide Queued;
  }

  lemma RanNothing(w: World, f: FiberId)
    ensures Ran(w, w, f, |w.q.tasks|, [])
  {
    assert w.q.tasks[..|w.q.tasks|] == w.q.tasks && Items(w)[..|w.q.tasks|] == Items(w);
  }

  lemma RanItems(w0: World, w1: World, w2: World, f: FiberId, n: nat, added: seq<Option<Script>>)
    requires SameScripts(w0, w1) && n == |w0.q.tasks| && Ran(w1, w2, f, n, added) && w1.q == w0.q && !Queued(w0.q, f)
    ensures n <= |w2.q.tasks| && Items(w2)[..n] == Items(w0) && Added(w2, f, n) == added
    ensures forall i :: 0 <= i < n ==> w2.q.tasks[i].work != FiberWork(f)
    ensures w2.q == w0.q.(tasks := w2.q.tasks, tickets := w2.q.tickets)
  {
    SameQueue(w0, w1, f, n);
    hide Items, Added;
  }

  // What is left of a slice, and what it has emitted and queued, make up the whole.
  predicate SoFar(before: seq<nat>, start: Script, trace: seq<nat>, done: seq<Option<Script>>, script: Script) {
    && Sliced(script).rest == Sliced(start).rest
    && trace + Sliced(script).trace == before + Sliced(start).trace
    && done + Sliced(script).added == Sliced(start).added
  }

  lemma EmitSoFar(before: seq<nat>, start: Script, trace: seq<nat>, done: seq<Option<Script>>, script: Script)
    requires SoFar(before, start, trace, done, script) && script.Emit?
    ensures SoFar(before, start, trace + [script.mark], done, script.rest)
  {
    assert trace + [script.mark] + Sliced(script.rest).trace == trace + ([script.mark] + Sliced(script.rest).trace);
  }

  lemma AddSoFar(before: seq<nat>, start: Script, trace: seq<nat>, done: seq<Option<Script>>, script: Script,
      mark: Option<Script>)
    requires SoFar(before, start, trace, done, script)
    requires (script.Spawn? && mark == Some(script.child)) || (script.Requeue? && mark == None)
    ensures SoFar(before, start, trace, done + [mark], script.rest)
  {
    assert done + [mark] + Sliced(script.rest).added == done + ([mark] + Sliced(script.rest).added);
  }

  lemma RanLength(w: World, w': World, f: FiberId, n: nat, added: seq<Option<Script>>)
    requires Ran(w, w', f, n, added)
    ensures n <= |w'.q.tasks|
  {
  }

  // One action of a script, as discipline and slice see it.
  lemma SliceUnfold(s: Script, queued: bool)
    requires Disciplined(s, queued)
    ensures s.Return? ==> !queued && Sliced(s) == Slice([], [], Return)
    ensures s.Suspend? ==> Disciplined(s.rest, false) && Sliced(s) == Slice([], [], s.rest)
    ensures s.Emit? ==>
              && Disciplined(s.rest, queued)
              && Sliced(s) == Sliced(s.rest).(trace := [s.mark] + Sliced(s.rest).trace)
    ensures s.Spawn? ==>
              && Disciplined(s.child, false) && Disciplined(s.rest, queued)
              && Sliced(s) == Sliced(s.rest).(added := [Some(s.child)] + Sliced(s.rest).added)
    ensures s.Requeue? ==>
              !queued && Disciplined(s.rest, true)
                  && Sliced(s) == Sliced(s.rest).(added := [None] + Sliced(s.rest).added)
  {
  }

  function Running(h: Heap): set<FiberId> {
    set f | f in h && h[f].state == EXEC
  }

  // The first task is always the one to pick.
  lemma PicksFirst(w: World, me: ThreadId)
    requires Settled(w, me, None)
    ensures NoNulls(w.q)
    ensures Picked(w.q, me, Running(w.heap)) ==
            if w.q.tasks == [] then (w.q, None)
            else (w.q.(tasks := w.q.tasks[1..], active := w.q.active + 1), Some(w.q.tasks[0]))
  {
    assert forall i :: 0 <= i < |w.q.tasks| ==> WorkOk(w, w.q.tasks[i].work, None);
    if w.q.tasks != [] {
      assert Eligible(w.q.tasks[0], me, Running(w.heap));
      assert w.q.tasks[..0] + w.q.tasks[1..] == w.q.tasks[1..];
    }
  }

  // The task in hand is to run the script.
  predicate Ready(w: World, work: Work, script: Script) {
    && !work.NullWork? && ScriptOf(w.code, w.callbacks, work) == script && Disciplined(script, false)
    && (work.FiberWork? ==> work.fiber in w.code && !Queued(w.q, work.fiber))
    && (work.CallbackWork? ==> work.cb in w.callbacks)
  }

  // With the first task in hand.
  lemma PickedSettled(w: World, w': World, me: ThreadId)
    requires Settled(w, me, None) && w.q.tasks != []
    requires w' == w.(q := w.q.(tasks := w.q.tasks[1..], active := w.q.active + 1))
    ensures Settled(w', me, None) && Items(w') == Items(w)[1..] && Ready(w', w.q.tasks[0].work, Items(w)[0])
  {
    assert WorkOk(w, w.q.tasks[0].work, None);
    assert forall i :: 0 <= i < |w'.q.tasks| ==> w'.q.tasks[i] == w.q.tasks[i + 1];
    assert QueueOk(w', me, None);
    hide QueueOk, HeapOk;
  }

  lemma ResumeSettled(w: World, me: ThreadId, f: FiberId, here: nat)
    requires Settled(w, me, None) && f in w.heap && w.heap[f].viaScheduler && w.heap[f].state == READY
    requires !Queued(w.q, f) && w.resting != Some(f)
    ensures CanResume(w.heap, w.locals, f) && Settled(Resume(w, f, here), me, Some(f))
    ensures forall i :: 0 <= i < |w.q.tasks| ==>
              ScriptOf(w.code - {f}, w.callbacks, w.q.tasks[i].work) == ScriptOf(w.code, w.callbacks, w.q.tasks[i].work)
  {
    assert forall i :: 0 <= i < |w.q.tasks| ==> WorkOk(w, w.q.tasks[i].work, None);
  }

  lemma RestingReady(w: World, w': World, me: ThreadId, idle: FiberId)
    requires Settled(w, me, None) && w.resting == Some(idle) && w' == w.(resting := None)
    ensures Settled(w', me, None) && idle in w.heap && w.heap[idle].viaScheduler && w.heap[idle].state == READY
    ensures !Queued(w.q, idle) && idle !in w.code
  {
    assert forall i :: 0 <= i < |w.q.tasks| ==> WorkOk(w, w.q.tasks[i].work, None);
  }

  lemma CodeReady(w: World, me: ThreadId, f: FiberId)
    requires Settled(w, me, None) && f in w.code
    ensures f in w.heap && w.heap[f].viaScheduler && w.heap[f].state == READY && w.resting != Some(f)
    ensures Disciplined(w.code[f], false)
  {
  }

  // The slice is over: what it queued is what the worklist says.
  lemma SliceItems(w: World, w': World, f: FiberId, n: nat, rest: Script)
    requires n <= |w.q.tasks| && w'.q.tasks == w.q.tasks
    requires forall i :: 0 <= i < n ==> w.q.tasks[i].work != FiberWork(f)
    requires forall i :: 0 <= i < |w.q.tasks| ==>
               ScriptOf(w'.code, w'.callbacks,
                   w.q.tasks[i].work) == if w.q.tasks[i].work == FiberWork(f) then rest else ScriptOf(w.code,
                   w.callbacks, w.q.tasks[i].work)
    ensures Items(w') == Items(w)[..n] + Filled(Added(w, f, n), rest)
  {
    var items, filled := Items(w'), Filled(Added(w, f, n), rest);
    FilledAt(Added(w, f, n), rest);
    hide ScriptOf;
    assert items[..n] == Items(w)[..n];
    assert items[n..] == filled;
  }

  lemma RunningCanYield(w: World, f: FiberId)
    requires HeapOk(w, Some(f))
    ensures CanYield(w.heap, w.locals, f) && MainFiber(w.heap[f], w.locals) != Some(f)
  {
  }

  lemma SuspendedSettled(w: World, me: ThreadId, f: FiberId, here: nat, rest: Script, n: nat)
    requires Settled(w, me, Some(f)) && Disciplined(rest, false) && n <= |w.q.tasks|
    requires forall i :: 0 <= i < n ==> w.q.tasks[i].work != FiberWork(f)
    ensures var w' := Suspended(w, f, here, rest);
            Settled(w', me, None) && Items(w') == Items(w)[..n] + Filled(Added(w, f, n), rest)
  {
    assert QueueOk(w, me, Some(f)) && CodeOk(w) && HeapOk(w, Some(f)) && f in w.heap;
    var w' := Suspended(w, f, here, rest);
    assert QueueOk(w', me, None) && CodeOk(w') && HeapOk(w', None) ==> Settled(w', me, None);
    hide *;
    SuspendedHeap(w, f, here, rest);
    SuspendedQueue(w, me, f, here, rest);
    SuspendedItems(w, f, here, rest, n);
  }

  lemma SuspendedItems(w: World, f: FiberId, here: nat, rest: Script, n: nat)
    requires f in w.heap && n <= |w.q.tasks| && forall i :: 0 <= i < n ==> w.q.tasks[i].work != FiberWork(f)
    ensures Items(Suspended(w, f, here, rest)) == Items(w)[..n] + Filled(Added(w, f, n), rest)
  {
    var w' := Suspended(w, f, here, rest);
    assert w'.q == w.q && w'.code == w.code[f := rest] && w'.callbacks == w.callbacks;
    hide Suspended, Items, Filled, Added;
    SliceItems(w, w', f, n, rest);
  }

  lemma SuspendedHeap(w: World, f: FiberId, here: nat, rest: Script)
    requires CodeOk(w) && HeapOk(w, Some(f)) && Disciplined(rest, false)
    ensures var w' := Suspended(w, f, here, rest); CodeOk(w') && HeapOk(w', None)
  {
  }

  lemma SuspendedQueue(w: World, me: ThreadId, f: FiberId, here: nat, rest: Script)
    requires f in w.heap && QueueOk(w, me, Some(f))
    ensures QueueOk(Suspended(w, f, here, rest), me, None)
  {
    assert forall i :: 0 <= i < |w.q.tasks| ==> WorkOk(w, w.q.tasks[i].work, Some(f));
  }

  lemma {:induction false} FilledAt(added: seq<Option<Script>>, self: Script)
    ensures |Filled(added, self)| == |added|
    ensures forall i :: 0 <= i < |added| ==> Filled(added, self)[i] == if added[i].Some? then added[i].value else self
  {
    if added != [] {
      FilledAt(added[1..], self);
    }
  }

  lemma FinishedSettled(w: World, me: ThreadId, f: FiberId, here: nat, n: nat)
    requires Settled(w, me, Some(f)) && !Queued(w.q, f) && n <= |w.q.tasks|
    ensures var w' := Finished(w, f, here);
            Settled(w', me, None) && Items(w') == Items(w)[..n] + Filled(Added(w, f, n), Return)
            && f in w'.heap && w'.heap[f].state == TERM
  {
    var w' := Finished(w, f, here);
    assert forall i :: 0 <= i < |w.q.tasks| ==> WorkOk(w, w.q.tasks[i].work, Some(f));
    assert forall i :: 0 <= i < |w.q.tasks| ==> w.q.tasks[i].work != FiberWork(f);
    assert QueueOk(w', me, None) && CodeOk(w') && HeapOk(w', None);
    assert CanYield(w.heap, w.locals, f) && MainFiber(w.heap[f], w.locals) != Some(f);
    hide QueueOk, CodeOk, HeapOk, Disciplined, CanYield, MainFiber, Yielded;
    SliceItems(w, w', f, n, Return);
  }

  // ---------- the idle fiber ----------

  function WithIdle(w: World): World {
    w.(heap := w.heap[w.nextFiber := NewFiber(true)], nextFiber := w.nextFiber + 1, resting := Some(w.nextFiber))
  }

  lemma WithIdleIs(w: World, w': World, idle: FiberId)
    requires idle == w.nextFiber
    requires w' == w.(heap := w.heap[idle := NewFiber(true)], nextFiber := idle + 1, resting := Some(idle))
    ensures w' == WithIdle(w)
  {
  }

  lemma WithIdleSettled(w: World, me: ThreadId)
    requires Settled(w, me, None) && w.resting == None
    ensures Settled(WithIdle(w), me, None) && Items(WithIdle(w)) == Items(w)
  {
    assert forall i :: 0 <= i < |w.q.tasks| ==> WorkOk(w, w.q.tasks[i].work, None);
  }

  lemma IdleCountAside(w: World, w': World, me: ThreadId)
    requires Settled(w, me, None) && w' == w.(q := w.q.(idle := w'.q.idle))
    ensures Settled(w', me, None)
  {
    assert forall i :: 0 <= i < |w.q.tasks| ==> WorkOk(w, w.q.tasks[i].work, None);
  }

  lemma EmptyStaysStopping(q: Sched)
    ensures IsStopping(q.(idle := q.idle + 1)) <==> IsStopping(q)
  {
  }

  lemma ItemsDisciplined(w: World, me: ThreadId)
    requires Settled(w, me, None)
    ensures AllDisciplined(Items(w))
  {
    assert forall i :: 0 <= i < |w.q.tasks| ==> WorkOk(w, w.q.tasks[i].work, None);
  }

  lemma EmptyQueue(w: World, me: ThreadId)
    ensures Items(w) == [] <==> w.q.tasks == []
    ensures Items(w) == [] && w.q.stopping && w.q.active == 0 ==> IsStopping(w.q)
    ensures Worklist([]) == []
  {
  }

  function RoundsLeft(w: World): nat {
    2 * Total(Items(w)) + if w.resting == None then 0 else 1
  }

  lemma IdleWaits(w: World, idle: FiberId)
    requires w.resting == Some(idle)
    ensures IdleOk(w, idle)
  {
  }

  // What has been emitted and what the worklist would still emit add up to the same.
  predicate Agrees(before: seq<nat>, items: seq<Script>, after: seq<nat>, items': seq<Script>) {
    AllDisciplined(items) && AllDisciplined(items') && after + Worklist(items') == before + Worklist(items)
  }

  lemma AgreesStep(w: World, me: ThreadId, before: seq<nat>)
    requires Settled(w, me, None)
    ensures var items := Items(w);
            && Agrees(before, items, before, items)
            && (items != [] ==>
                  var s := Sliced(items[0]); var next := items[1..] + Filled(s.added, s.rest);
                  Total(next) < Total(items) && Agrees(before, items, before + s.trace, next))
  {
    ItemsDisciplined(w, me);
    var items := Items(w);
    if items != [] {
      var s := Sliced(items[0]);
      var next := items[1..] + Filled(s.added, s.rest);
      WorklistStep(items);
      assert before + s.trace + Worklist(next) == before + (s.trace + Worklist(next));
    }
  }

  lemma AgreesOn(t0: seq<nat>, i0: seq<Script>, t1: seq<nat>, i1: seq<Script>, t2: seq<nat>, i2: seq<Script>)
    requires Agrees(t0, i0, t1, i1) && Agrees(t1, i1, t2, i2)
    ensures Agrees(t0, i0, t2, i2)
  {
  }

  lemma AgreesEnd(before: seq<nat>, items: seq<Script>, after: seq<nat>)
    requires Agrees(before, items, after, [])
    ensures AllDisciplined(items) && after == before + Worklist(items)
  {
    assert after + [] == after;
  }

  // The idle fiber is still to be resumed, or has ended with nothing left to do.
  predicate IdleOk(w: World, idle: FiberId) {
    w.resting == Some(idle) || (w.resting == None && idle in w.heap && w.heap[idle].state == TERM && Items(w) == [])
  }

  // ---------- before stop() ----------

  // The root fiber has not started; otherwise all is as in the loop.
  predicate Waiting(w: World, me: ThreadId) {
    && w.locals.scheduler.Some? && w.locals.scheduler.value in w.heap
    && w.heap[w.locals.scheduler.value].state == READY && !w.heap[w.locals.scheduler.value].viaScheduler
    && Settled(Rooted(w, w.locals.scheduler.value), me, None) && w.resting == None && w.q.active == 0
  }

  // Control is back in stop(), on the thread's own stack.
  predicate RootEnded(w: World) {
    && w.locals.scheduler.Some? && w.locals.scheduler.value in w.heap && w.heap[w.locals.scheduler.value].state == TERM
    && w.locals.cur == w.locals.thread
  }

  function NewWorld(): World {
    World(Sched([], 0, 0, 0, false), map[0 := THREAD_FIBER, 1 := NewFiber(false)],
          Locals(Some(0), Some(0), Some(1)), map[], map[], 2, 0, None)
  }

  lemma NewWaits(me: ThreadId)
    ensures Waiting(NewWorld(), me) && Items(NewWorld()) == []
  {
  }

  // How a call of stop() goes.
  datatype StopResult = ReturnedAtOnce | RanTasks | Failed

  lemma RootStates(w: World, me: ThreadId)
    requires Waiting(w, me) || RootEnded(w)
    ensures w.locals.scheduler.Some? && w.locals.scheduler.value in w.heap
    ensures w.heap[w.locals.scheduler.value].state == READY <==> Waiting(w, me)
    ensures w.heap[w.locals.scheduler.value].state != READY <==> RootEnded(w)
  {
    hide Settled;
  }

  // As if the root fiber were running.
  function Rooted(w: World, root: FiberId): World
    requires root in w.heap
  {
    w.(heap := w.heap[root := w.heap[root].(state := EXEC)])
  }

  function Entered(w: World, here: nat): World
    requires w.locals.scheduler.Some? && HasMain(w.heap, w.locals, w.locals.scheduler.value)
  {
    w.(q := w.q.(stopping := true), heap := Resumed(w.heap, w.locals, w.locals.scheduler.value, here),
       locals := w.locals.(cur := w.locals.scheduler))
  }

  lemma EnteredSettled(w: World, me: ThreadId, here: nat)
    requires Waiting(w, me)
    ensures CanResume(w.heap, w.locals, w.locals.scheduler.value)
    ensures Settled(Entered(w, here), me, None) && Items(Entered(w, here)) == Items(w)
  {
    var w1 := Rooted(w, w.locals.scheduler.value);
    assert HeapOk(w1, None) && CodeOk(w1);
    assert forall i :: 0 <= i < |w.q.tasks| ==> WorkOk(w1, w.q.tasks[i].work, None);
  }

  lemma SubmitSettled(w: World, me: ThreadId, child: Script, asFiber: bool, pin: Option<ThreadId>)
    requires Settled(w, me, None) && Disciplined(child, false) && (pin == None || pin == Some(me))
    ensures var w' := Spawned(w, child, asFiber, pin); Settled(w', me, None) && Items(w') == Items(w) + [child]
  {
    var w1 := if asFiber then Create(w, w.nextFiber, child) else Remember(w, w.nextCallback, child);
    var work := if asFiber then FiberWork(w.nextFiber) else CallbackWork(w.nextCallback);
    assert ScriptOf(w1.code, w1.callbacks, work) == child && WorkOk(w1, work, None);
    if asFiber {
      CreateSettled(w, me, None, child);
    } else {
      RememberSettled(w, me, None, child);
    }
    SameQueue(w, w1, 0, 0);
    hide CodeOk, HeapOk, Disciplined, SameScripts;
    AppendedSettled(w1, me, work, pin);
  }

  lemma AppendedSettled(w: World, me: ThreadId, work: Work, pin: Option<ThreadId>)
    requires Settled(w, me, None) && WorkOk(w, work, None) && (pin == None || pin == Some(me))
    requires work.FiberWork? ==> !Queued(w.q, work.fiber)
    ensures var w' := Enqueued(w, work, pin);
            Settled(w', me, None) && Items(w') == Items(w) + [ScriptOf(w.code, w.callbacks, work)]
  {
    var w', k := Enqueued(w, work, pin), |w.q.tasks|;
    assert w'.q.tasks[k].work == work && forall i :: 0 <= i < k ==> w'.q.tasks[i] == w.q.tasks[i];
    assert QueueOk(w', me, None);
    hide QueueOk, CodeOk, HeapOk, ScriptOf;
  }

  lemma RootedSpawned(w: World, root: FiberId, child: Script, asFiber: bool, pin: Option<ThreadId>)
    requires root in w.heap && root < w.nextFiber
    ensures root in Spawned(w, child, asFiber, pin).heap
    ensures Rooted(Spawned(w, child, asFiber, pin), root) == Spawned(Rooted(w, root), child, asFiber, pin)
    ensures Spawned(w, child, asFiber, pin).heap[root] == w.heap[root]
    ensures var w' := Spawned(w, child, asFiber, pin);
            w'.locals == w.locals && w'.resting == w.resting && w'.q.active == w.q.active
                && w'.q.stopping == w.q.stopping
  {
  }

  lemma SubmitWaits(w: World, me: ThreadId, child: Script, asFiber: bool, pin: Option<ThreadId>)
    requires Waiting(w, me) && Disciplined(child, false) && (pin == None || pin == Some(me))
    ensures var w' := Spawned(w, child, asFiber, pin);
            Waiting(w', me) && Items(w') == Items(w) + [child] && w'.q.stopping == w.q.stopping
    ensures w.nextFiber !in w.heap
  {
    var root := w.locals.scheduler.value;
    var w1, w' := Rooted(w, root), Spawned(w, child, asFiber, pin);
    assert HeapOk(w1, None) && w1.heap.Keys == w.heap.Keys;
    assert root < w.nextFiber;
    hide Settled, HeapOk, Disciplined;
    RootedSpawned(w, root, child, asFiber, pin);
    assert Items(w1) == Items(w) && Items(Rooted(w', root)) == Items(w');
    hide Items, Spawned;
    SubmitSettled(w1, me, child, asFiber, pin);
  }

  // ---------- the class ----------

  class Caller {
    const me: ThreadId
    const sched: Scheduler
    const tls: ThreadLocals
    var objects: map<FiberId, Fiber>
    var code: map<FiberId, Script>
    var callbacks: map<nat, Script>
    var nextFiber: nat
    var nextCallback: nat
    var clock: nat
    var trace: seq<nat>
    var idleResumes: nat
    ghost var resting: Option<FiberId>

    ghost function View(): World
      reads this`objects, this`code, this`callbacks, this`nextFiber, this`nextCallback, this`resting
      reads sched, tls, objects.Values
    {
      World(sched.View(), Snapshot(objects), tls.View(), code, callbacks, nextFiber, nextCallback, resting)
    }

    ghost predicate Linked()
      reads this`objects, tls`threadFiber, tls`schedulerFiber
    {
      && Registered(objects)
      && tls.threadFiber != null && Listed(objects, tls.threadFiber)
      && tls.schedulerFiber != null && Listed(objects, tls.schedulerFiber)
    }

    // Scheduler(1, true): the thread fiber is running, the root fiber waits for stop().
    constructor (me: ThreadId)
      ensures this.me == me && Linked() && fresh(sched) && fresh(tls) && fresh(objects.Values)
      ensures Waiting(View(), me) && Items(View()) == []
      ensures View() == NewWorld()
      ensures trace == [] && idleResumes == 0
    {
      hide Waiting, Items;
      var l := new ThreadLocals();
      var thread := GetThis(l, 0);
      var root := new Fiber(1, false);
      l.schedulerFiber := root;
      this.me := me;
      sched := new Scheduler(0);
      tls := l;
      objects := map[0 := thread, 1 := root];
      code, callbacks, nextFiber, nextCallback, clock, trace, idleResumes := map[], map[], 2, 0, 0, [], 0;
      resting := None;
      NewWaits(me);
      new;
      assert Snapshot(objects) == map[0 := THREAD_FIBER, 1 := NewFiber(false)];
    }

    method NewFiberFor(script: Script) returns (f: FiberId)
      requires Linked() && nextFiber !in View().heap
      modifies this`objects, this`code, this`nextFiber
      ensures Linked() && f == old(nextFiber)
      ensures View() == Create(old(View()), f, script)
      ensures fresh(objects.Values - old(objects.Values))
    {
      f := nextFiber;
      PlainFiber(f);
      code := code[f := script];
    }

    method SpawnChild(child: Script, asFiber: bool, pin: Option<ThreadId>)
      requires Linked() && nextFiber !in View().heap
      modifies this`objects, this`code, this`nextFiber, this`callbacks, this`nextCallback, sched`m_tasks, sched`tickets
      ensures Linked() && View() == Spawned(old(View()), child, asFiber, pin)
      ensures fresh(objects.Values - old(objects.Values))
    {
      var work := NewWork(child, asFiber);
      ghost var w := View();
      hide Create, Remember;
      sched.Schedule(work, pin);
      assert View() == Enqueued(w, work, pin);
    }

    // The fiber or the function that is to be scheduled.
    method NewWork(child: Script, asFiber: bool) returns (work: Work)
      requires Linked() && nextFiber !in View().heap
      modifies this`objects, this`code, this`nextFiber, this`callbacks, this`nextCallback
      ensures Linked() && fresh(objects.Values - old(objects.Values))
      ensures work == if asFiber then FiberWork(old(nextFiber)) else CallbackWork(old(nextCallback))
      ensures var w := old(View());
              View() == if asFiber then Create(w, w.nextFiber, child) else Remember(w, w.nextCallback, child)
    {
      if asFiber {
        var g := NewFiberFor(child);
        work := FiberWork(g);
      } else {
        callbacks := callbacks[nextCallback := child];
        work := CallbackWork(nextCallback);
        nextCallback := nextCallback + 1;
      }
    }

    method DoSpawn(f: FiberId, ghost n: nat, child: Script, asFiber: bool, pinned: bool)
      requires Linked() && Settled(View(), me, Some(f)) && n <= |View().q.tasks| && Disciplined(child, false)
      modifies this`objects, this`code, this`nextFiber, this`callbacks, this`nextCallback, sched`m_tasks, sched`tickets
      ensures Linked() && Settled(View(), me, Some(f)) && Grows(old(View()), View(), f, n, Some(child))
      ensures fresh(objects.Values - old(objects.Values))
    {
      ghost var w := View();
      var pin := if pinned then Some(me) else None;
      SpawnedSettled(w, me, f, n, child, asFiber, pin);
      SpawnChild(child, asFiber, pin);
    }

    method DoRequeue(f: FiberId, ghost n: nat, pinned: bool)
      requires Linked() && Settled(View(), me, Some(f)) && n <= |View().q.tasks| && !Queued(View().q, f)
      modifies sched`m_tasks, sched`tickets
      ensures Linked() && Settled(View(), me, Some(f)) && Grows(old(View()), View(), f, n, None)
    {
      ghost var w := View();
      var pin := if pinned then Some(me) else None;
      EnqueueGrows(w, w, me, f, n, FiberWork(f), pin);
      sched.Schedule(FiberWork(f), pin);
      assert View() == Enqueued(w, FiberWork(f), pin);
    }

    // The code of f between a resume and the next yield or return.
    method RunBody(f: FiberId, start: Script) returns (script: Script)
      requires Linked() && Settled(View(), me, Some(f)) && !Queued(View().q, f) && Disciplined(start, false)
      modifies this`objects, this`code, this`nextFiber, this`callbacks, this`nextCallback, this`trace
      modifies sched`m_tasks, sched`tickets
      ensures Linked() && Settled(View(), me, Some(f)) && fresh(objects.Values - old(objects.Values))
      ensures script == Return || (script.Suspend? && Disciplined(script.rest, false)
          && script.rest == Sliced(start).rest)
      ensures script == Return ==> !Queued(View().q, f) && Sliced(start).rest == Return
      ensures trace == old(trace) + Sliced(start).trace
      ensures Ran(old(View()), View(), f, |old(View()).q.tasks|, Sliced(start).added)
    {
      script := start;
      ghost var w0, before := View(), trace;
      hide *;
      BodyBegins(f, start);
      while !script.Return? && !script.Suspend?
        invariant BodyOk(w0, before, f, start, script) && fresh(objects.Values - old(objects.Values))
        decreases script
      {
        script := Action(w0, before, f, start, script);
      }
      BodyEnds(w0, before, f, start, script);
    }

    // What every action of the slice of f keeps, since it began in w0 with this trace.
    ghost predicate BodyOk(w0: World, before: seq<nat>, f: FiberId, start: Script, script: Script)
      reads this, sched, tls, objects.Values
    {
      && Linked() && Settled(View(), me, Some(f))
      && Disciplined(script, Queued(View().q, f))
      && exists done ::
           && Ran(w0, View(), f, |w0.q.tasks|, done)
           && SoFar(before, start, trace, done, script)
    }

    lemma BodyBegins(f: FiberId, start: Script)
      requires Linked() && Settled(View(), me, Some(f)) && !Queued(View().q, f) && Disciplined(start, false)
      ensures BodyOk(View(), trace, f, start, start)
    {
      hide Settled, Queued, Linked, Ran, View;
      RanNothing(View(), f);
      assert SoFar(trace, start, trace, [], start) by {
        assert [] + Sliced(start).added == Sliced(start).added;
      }
    }

    lemma BodyEnds(w0: World, before: seq<nat>, f: FiberId, start: Script, script: Script)
      requires BodyOk(w0, before, f, start, script) && (script.Return? || script.Suspend?)
      ensures Linked() && Settled(View(), me, Some(f))
      ensures script == Return || (script.Suspend? && Disciplined(script.rest, false)
          && script.rest == Sliced(start).rest)
      ensures script == Return ==> !Queued(View().q, f) && Sliced(start).rest == Return
      ensures trace == before + Sliced(start).trace
      ensures Ran(w0, View(), f, |w0.q.tasks|, Sliced(start).added)
    {
      hide Settled, Queued, Linked, Ran, View;
      SliceUnfold(script, Queued(View().q, f));
      var done :| Ran(w0, View(), f, |w0.q.tasks|, done) && SoFar(before, start, trace, done, script);
      assert done + [] == done && trace + [] == trace;
    }

    method Action(ghost w0: World, ghost before: seq<nat>, f: FiberId, ghost start: Script,
        script: Script) returns (rest: Script)
      requires BodyOk(w0, before, f, start, script) && !script.Return? && !script.Suspend?
      modifies this`objects, this`code, this`nextFiber, this`callbacks, this`nextCallback, this`trace
      modifies sched`m_tasks, sched`tickets
      ensures BodyOk(w0, before, f, start, rest) && fresh(objects.Values - old(objects.Values)) && rest < script
    {
      ghost var n := |w0.q.tasks|;
      ghost var w, t0 := View(), trace;
      hide Settled, Queued, Linked, Ran, View, Disciplined, Sliced, SoFar, Grows;
      SliceUnfold(script, Queued(w.q, f));
      ghost var done :| Ran(w0, w, f, n, done) && SoFar(before, start, trace, done, script);
      RanLength(w0, w, f, n, done);
      rest := script.rest;
      match script {
        case Emit(mark, _) =>
          trace := trace + [mark];
          EmitSoFar(before, start, t0, done, script);
        case Spawn(child, asFiber, pinned, _) =>
          DoSpawn(f, n, child, asFiber, pinned);
          RanOn(w0, w, View(), f, n, done, Some(child));
          GrowsQueued(w, View(), f, n, Some(child));
          AddSoFar(before, start, t0, done, script, Some(child));
        case Requeue(pinned, _) =>
          DoRequeue(f, n, pinned);
          RanOn(w0, w, View(), f, n, done, None);
          GrowsQueued(w, View(), f, n, None);
          AddSoFar(before, start, t0, done, script, None);
      }
    }

    // fiber->resume(), up to the return of control.
    method RunSlice(f: FiberId)
      requires Linked() && Settled(View(), me, None) && f in code && !Queued(View().q, f)
      modifies this`objects, this`code, this`nextFiber, this`callbacks, this`nextCallback, this`trace, this`clock
      modifies sched`m_tasks, sched`tickets, tls`tFiber, objects.Values
      ensures Linked() && Settled(View(), me, None) && fresh(objects.Values - old(objects.Values))
      ensures trace == old(trace) + Sliced(old(code[f])).trace
      ensures Items(View()) == old(Items(View())) + Filled(Sliced(old(code[f])).added, Sliced(old(code[f])).rest)
      ensures View().q == old(View()).q.(tasks := View().q.tasks, tickets := View().q.tickets)
    {
      ghost var w0 := View();
      ghost var n := |w0.q.tasks|;
      hide *;
      var start := BeginSlice(f);
      ghost var w1 := View();
      var script := RunBody(f, start);
      ghost var w2 := View();
      RanItems(w0, w1, w2, f, n, Sliced(start).added);
      LeaveSlice(f, script, n);
    }

    method BeginSlice(f: FiberId) returns (start: Script)
      requires Linked() && Settled(View(), me, None) && f in code && !Queued(View().q, f)
      modifies this`code, this`clock, tls`tFiber, objects.Values
      ensures Linked() && Settled(View(), me, Some(f))
      ensures SameScripts(old(View()), View()) && View().q == old(View()).q && !Queued(View().q, f)
      ensures start == old(code[f]) && Disciplined(start, false)
    {
      CodeReady(View(), me, f);
      assert f in View().heap && f in objects && View().code == code;
      start := code[f];
      hide *;
      ResumeCode(f);
    }

    // The last yield of a slice, from inside the code or after its end.
    method LeaveSlice(f: FiberId, script: Script, ghost n: nat)
      requires Linked() && Settled(View(), me, Some(f)) && n <= |View().q.tasks|
      requires forall i :: 0 <= i < n ==> View().q.tasks[i].work != FiberWork(f)
      requires script == Return || (script.Suspend? && Disciplined(script.rest, false))
      requires script == Return ==> !Queued(View().q, f)
      modifies this`code, this`clock, tls`tFiber, objects.Values
      ensures Linked() && Settled(View(), me, None) && View().q == old(View()).q
      ensures Items(View()) == old(Items(View()))[..n]
                               + Filled(old(Added(View(), f, n)), if script.Suspend? then script.rest else Return)
      ensures f in View().heap && (script == Return ==> View().heap[f].state == TERM)
    {
      ghost var w := View();
      ghost var here := clock;
      assert HeapOk(w, Some(f)) && f in w.heap && f in objects;
      if script.Suspend? {
        SuspendedSettled(w, me, f, here, script.rest, n);
        hide *;
        SuspendCode(f, script.rest);
      } else {
        FinishedSettled(w, me, f, here, n);
        hide *;
        FinishCode(f);
      }
    }

    method SuspendCode(f: FiberId, rest: Script)
      requires Linked() && f in objects && HeapOk(View(), Some(f))
      modifies this`code, this`clock, tls`tFiber, objects.Values
      ensures Linked() && View() == Suspended(old(View()), f, old(clock), rest)
    {
      ghost var w := View();
      RunningCanYield(w, f);
      var _ := objects[f].Yield(tls, clock, objects);
      code := code[f := rest];
      assert View() == Suspended(w, f, clock, rest);
      clock := clock + 1;
    }

    method FinishCode(f: FiberId)
      requires Linked() && f in objects && HeapOk(View(), Some(f))
      modifies this`clock, tls`tFiber, objects.Values
      ensures Linked() && View() == Finished(old(View()), f, old(clock))
    {
      ghost var w := View();
      RunningCanYield(w, f);
      var _ := objects[f].Finish(tls, clock, objects);
      assert View() == Finished(w, f, clock);
      clock := clock + 1;
    }

    method ResumeCode(f: FiberId)
      requires Linked() && Settled(View(), me, None) && f in objects && !Queued(View().q, f)
      requires View().heap[f].viaScheduler && View().heap[f].state == READY && resting != Some(f)
      modifies this`code, this`clock, tls`tFiber, objects.Values
      ensures Linked() && Settled(View(), me, Some(f)) && View() == Resume(old(View()), f, old(clock))
      ensures SameScripts(old(View()), View()) && View().q == old(View()).q && !Queued(View().q, f)
    {
      ghost var w := View();
      ResumeSettled(w, me, f, clock);
      assert forall i :: 0 <= i < |w.q.tasks| ==>
          ScriptOf(w.code - {f}, w.callbacks, w.q.tasks[i].work) == ScriptOf(w.code, w.callbacks, w.q.tasks[i].work);
      hide Settled, Queued, ScriptOf, Resumed, HasMain, CanResume;
      JumpTo(f);
    }

    method JumpTo(f: FiberId)
      requires Linked() && f in objects && CanResume(View().heap, View().locals, f)
      modifies this`code, this`clock, tls`tFiber, objects.Values
      ensures Linked() && View() == Resume(old(View()), f, old(clock))
    {
      ghost var w := View();
      assert HasMain(w.heap, w.locals, f);
      hide CanResume, HasMain, Resumed;
      var _ := objects[f].Resume(tls, clock, objects);
      code := code - {f};
      assert View() == Resume(w, f, clock);
      clock := clock + 1;
    }

    // resume() of the idle fiber: the loop of idle() ends at its first call of stopping().
    method RunIdle(idle: FiberId)
      requires Linked() && Settled(View(), me, None) && View().resting == Some(idle) && IsStopping(View().q)
      modifies this`code, this`clock, this`resting, tls`tFiber, objects.Values
      ensures Linked() && Settled(View(), me, None) && View().q == old(View()).q && View().resting == None
      ensures idle in View().heap && View().heap[idle].state == TERM
    {
      ghost var w := View();
      assert View().resting == resting && sched.View() == View().q;
      resting := None;
      RestingReady(w, View(), me, idle);
      assert idle in objects;
      hide Settled, Linked, Items, IsStopping, Queued, Added, Filled;
      ResumeCode(idle);
      var b := sched.Stopping();
      assert b;
      LeaveSlice(idle, Return, 0);
    }

    method PickFirst() returns (task: Option<Task>)
      requires Linked() && Settled(View(), me, None)
      modifies sched`m_tasks, sched`m_activeThreadCount
      ensures Linked() && Settled(View(), me, None)
      ensures task.None? <==> old(Items(View())) == []
      ensures task.None? ==> View() == old(View())
      ensures task.Some? ==>
                && Items(View()) == old(Items(View()))[1..] && Ready(View(), task.value.work, old(Items(View()))[0])
                && View().q == old(View()).q.(tasks := View().q.tasks, active := old(View()).q.active + 1)
    {
      ghost var w := View();
      PicksFirst(w, me);
      ghost var q := if w.q.tasks == [] then w.q else w.q.(tasks := w.q.tasks[1..], active := w.q.active + 1);
      assert w.(q := w.q) == w && (Items(w) == [] <==> w.q.tasks == []);
      if w.q.tasks != [] {
        PickedSettled(w, w.(q := q), me);
      }
      hide *;
      task := Scan();
    }

    method Scan() returns (task: Option<Task>)
      requires NoNulls(View().q)
      modifies sched`m_tasks, sched`m_activeThreadCount
      ensures (View().q, task) == Picked(old(View()).q, me, Running(old(View()).heap))
      ensures View() == old(View()).(q := View().q)
    {
      ghost var w := View();
      var exec := set i | i in objects && objects[i].state == EXEC;
      assert exec == Running(w.heap);
      task := sched.Pick(me, exec);
    }

    // The fiber to resume: the task's own, or a new one for its callback.
    method TaskFiber(work: Work, ghost script: Script) returns (f: FiberId)
      requires Linked() && Settled(View(), me, None) && Ready(View(), work, script)
      modifies this`objects, this`code, this`nextFiber
      ensures Linked() && Settled(View(), me, None) && fresh(objects.Values - old(objects.Values))
      ensures f in code && code[f] == script && !Queued(View().q, f)
      ensures Items(View()) == old(Items(View())) && View().q == old(View()).q
    {
      match work {
        case FiberWork(g) => f := g;
        case CallbackWork(c) =>
          ghost var w := View();
          CreateSettled(w, me, None, callbacks[c]);
          SameQueue(w, Create(w, w.nextFiber, callbacks[c]), 0, 0);
          hide Settled, Items;
          f := NewFiberFor(callbacks[c]);
      }
    }

    method EndTask()
      requires Linked() && Settled(View(), me, None) && View().q.active > 0
      modifies sched`m_activeThreadCount
      ensures Linked() && Settled(View(), me, None) && Items(View()) == old(Items(View()))
      ensures View().q == old(View()).q.(active := old(View()).q.active - 1)
    {
      sched.EndSlice();
    }

    // One round of the loop, if there is a task to run.
    method RunTask() returns (found: bool)
      requires Linked() && Settled(View(), me, None)
      modifies this`objects, this`code, this`nextFiber, this`callbacks, this`nextCallback, this`trace, this`clock
      modifies sched`m_tasks, sched`tickets, sched`m_activeThreadCount, tls`tFiber, objects.Values
      ensures Linked() && Settled(View(), me, None) && fresh(objects.Values - old(objects.Values))
      ensures found <==> old(Items(View())) != []
      ensures !found ==> trace == old(trace) && View() == old(View())
      ensures View().resting == old(View()).resting
      ensures found ==> var s := Sliced(old(Items(View()))[0]);
                        && trace == old(trace) + s.trace
                        && Items(View()) == old(Items(View()))[1..] + Filled(s.added, s.rest)
                        && View().q == old(View()).q.(tasks := View().q.tasks, tickets := View().q.tickets)
    {
      hide *;
      ghost var items := Items(View());
      RestingIs();
      var task := PickFirst();
      found := task.Some?;
      if found {
        var f := TaskFiber(task.value.work, items[0]);
        RunSlice(f);
        EndTask();
      }
      RestingIs();
    }

    lemma RestingIs()
      ensures View().resting == resting
    {
    }

    method NewIdle() returns (idle: FiberId)
      requires Linked() && Settled(View(), me, None) && View().resting == None
      modifies this`objects, this`nextFiber, this`resting
      ensures Linked() && Settled(View(), me, None) && fresh(objects.Values - old(objects.Values))
      ensures View().resting == Some(idle) && Items(View()) == old(Items(View())) && View().q == old(View()).q
    {
      ghost var w := View();
      idle := nextFiber;
      WithIdleSettled(w, me);
      assert idle !in w.heap && w.nextFiber == idle && w.resting == None;
      hide *;
      PlainFiber(idle);
      RememberIdle(idle);
      assert View() == WithIdle(w) by { WithIdleIs(w, View(), idle); }
    }

    ghost method RememberIdle(idle: FiberId)
      modifies this`resting
      ensures View() == old(View()).(resting := Some(idle))
    {
      resting := Some(idle);
    }

    method PlainFiber(f: FiberId)
      requires Linked() && f == nextFiber && f !in View().heap
      modifies this`objects, this`nextFiber
      ensures Linked() && View() == old(View()).(heap := old(View()).heap[f := NewFiber(true)], nextFiber := f + 1)
      ensures fresh(objects.Values - old(objects.Values))
    {
      var it := new Fiber(f, true);
      objects := objects[f := it];
      nextFiber := f + 1;
      assert Snapshot(objects) == old(Snapshot(objects))[f := NewFiber(true)];
    }

    method IdleRound(idle: FiberId)
      requires Linked() && Settled(View(), me, None) && View().resting == Some(idle) && IsStopping(View().q)
      modifies this`code, this`clock, this`resting, this`idleResumes, sched`m_idleThreadCount, tls`tFiber,
          objects.Values
      ensures Linked() && Settled(View(), me, None) && View().q == old(View()).q && View().resting == None
      ensures idle in View().heap && View().heap[idle].state == TERM && idleResumes == old(idleResumes) + 1
    {
      ghost var q := View().q;
      hide *;
      CountIdle();
      EmptyStaysStopping(q);
      RunIdle(idle);
      idleResumes := idleResumes + 1;
      UncountIdle();
    }

    method CountIdle()
      requires Linked() && Settled(View(), me, None)
      modifies sched`m_idleThreadCount
      ensures Linked() && Settled(View(), me, None)
      ensures View() == old(View()).(q := old(View()).q.(idle := old(View()).q.idle + 1))
    {
      ghost var w := View();
      sched.m_idleThreadCount := sched.m_idleThreadCount + 1;
      IdleCountAside(w, View(), me);
    }

    method UncountIdle()
      requires Linked() && Settled(View(), me, None) && View().q.idle > 0
      modifies sched`m_idleThreadCount
      ensures Linked() && Settled(View(), me, None)
      ensures View() == old(View()).(q := old(View()).q.(idle := old(View()).q.idle - 1))
    {
      ghost var w := View();
      sched.m_idleThreadCount := sched.m_idleThreadCount - 1;
      IdleCountAside(w, View(), me);
    }

    method IdleTerm(idle: FiberId) returns (b: bool)
      requires Linked() && Settled(View(), me, None) && IdleOk(View(), idle)
      ensures b <==> View().resting == None
      ensures View().resting.Some? ==> View().resting == Some(idle)
    {
      b := objects[idle].state == TERM;
    }

    // A round that finds a task does what the worklist does.
    method TaskRound() returns (found: bool)
      requires Linked() && Settled(View(), me, None)
      modifies this`objects, this`code, this`nextFiber, this`callbacks, this`nextCallback, this`trace, this`clock
      modifies sched`m_tasks, sched`tickets, sched`m_activeThreadCount, tls`tFiber, objects.Values
      ensures Linked() && Settled(View(), me, None) && fresh(objects.Values - old(objects.Values))
      ensures View().q == old(View()).q.(tasks := View().q.tasks, tickets := View().q.tickets)
      ensures View().resting == old(View()).resting
      ensures found <==> old(Items(View())) != []
      ensures if found then Total(Items(View())) < Total(old(Items(View()))) else View() == old(View())
      ensures Agrees(old(trace), old(Items(View())), trace, Items(View()))
    {
      AgreesStep(View(), me, trace);
      hide *;
      found := RunTask();
    }

    // A round that finds none resumes the idle fiber, or is the last.
    method IdleTurn(idle: FiberId) returns (over: bool)
      requires Linked() && Settled(View(), me, None) && IdleOk(View(), idle) && View().q.stopping
      requires View().q.active == 0
      requires Items(View()) == []
      modifies this`code, this`clock, this`resting, this`idleResumes, sched`m_idleThreadCount, tls`tFiber,
          objects.Values
      ensures Linked() && Settled(View(), me, None) && IdleOk(View(), idle)
      ensures View().q == old(View()).q && Items(View()) == [] && View().resting == None
      ensures over <==> old(View()).resting == None
      ensures idleResumes == old(idleResumes) + if over then 0 else 1
    {
      EmptyQueue(View(), me);
      hide Settled, Linked, Items, View, IsStopping;
      over := IdleTerm(idle);
      if !over {
        IdleRound(idle);
        EmptyQueue(View(), me);
      }
    }

    // The body of the loop in run().
    method Round(idle: FiberId) returns (over: bool)
      requires Linked() && Settled(View(), me, None) && IdleOk(View(), idle) && View().q.stopping
      requires View().q.active == 0
      modifies this`objects, this`code, this`nextFiber, this`callbacks, this`nextCallback, this`trace, this`clock
      modifies this`resting, this`idleResumes, sched`m_tasks, sched`tickets, sched`m_activeThreadCount
      modifies sched`m_idleThreadCount, tls`tFiber, objects.Values
      ensures Linked() && Settled(View(), me, None) && IdleOk(View(), idle)
      ensures fresh(objects.Values - old(objects.Values))
      ensures View().q == old(View()).q.(tasks := View().q.tasks, tickets := View().q.tickets)
      ensures Agrees(old(trace), old(Items(View())), trace, Items(View()))
      ensures over <==> old(View()).resting == None
      ensures idleResumes == old(idleResumes) + if View().resting == None && !over then 1 else 0
      ensures if over then View().resting == None
          && Items(View()) == [] else RoundsLeft(View()) < RoundsLeft(old(View()))
    {
      hide Settled, Linked, Items, Total, Agrees, View;
      var found := TaskRound();
      over := false;
      if !found {
        over := IdleTurn(idle);
      }
    }

    // What every round of the loop keeps, since it began with this trace and worklist.
    ghost predicate LoopOk(idle: FiberId, before: seq<nat>, items: seq<Script>, resumes: nat, over: bool)
      reads this, sched, tls, objects.Values
    {
      && Linked() && Settled(View(), me, None) && IdleOk(View(), idle)
      && View().q.stopping && View().q.active == 0
      && Agrees(before, items, trace, Items(View()))
      && idleResumes == resumes + (if View().resting == None then 1 else 0)
      && (over ==> View().resting == None && Items(View()) == [])
    }

    method NextRound(idle: FiberId, ghost before: seq<nat>, ghost items: seq<Script>,
        ghost resumes: nat) returns (over: bool)
      requires LoopOk(idle, before, items, resumes, false)
      modifies this`objects, this`code, this`nextFiber, this`callbacks, this`nextCallback, this`trace, this`clock
      modifies this`resting, this`idleResumes, sched`m_tasks, sched`tickets, sched`m_activeThreadCount
      modifies sched`m_idleThreadCount, tls`tFiber, objects.Values
      ensures LoopOk(idle, before, items, resumes, over) && fresh(objects.Values - old(objects.Values))
      ensures View().q.idle == old(View()).q.idle
      ensures !over ==> RoundsLeft(View()) < RoundsLeft(old(View()))
    {
      ghost var trace1, items1 := trace, Items(View());
      hide Settled, Linked, IdleOk, Agrees, Items, View, RoundsLeft;
      over := Round(idle);
      AgreesOn(before, items, trace1, items1, trace, Items(View()));
    }

    // The loop in run().
    method Loop(idle: FiberId, ghost items: seq<Script>)
      requires LoopOk(idle, trace, items, idleResumes, false)
      modifies this`objects, this`code, this`nextFiber, this`callbacks, this`nextCallback, this`trace, this`clock
      modifies this`resting, this`idleResumes, sched`m_tasks, sched`tickets, sched`m_activeThreadCount
      modifies sched`m_idleThreadCount, tls`tFiber, objects.Values
      ensures LoopOk(idle, old(trace), items, old(idleResumes), true) && fresh(objects.Values - old(objects.Values))
      ensures View().q.idle == old(View()).q.idle
    {
      hide *;
      var over := false;
      while !over
        invariant LoopOk(idle, old(trace), items, old(idleResumes), over) && fresh(objects.Values - old(objects.Values))
        invariant View().q.idle == old(View()).q.idle
        decreases if over then 0 else 1 + RoundsLeft(View())
      {
        over := NextRound(idle, old(trace), items, old(idleResumes));
      }
    }

    // run() on the root fiber.  The idle fiber is resumed exactly once, and what the tasks
    // emit is what the worklist emits.
    method Run()
      requires Linked() && Settled(View(), me, None) && View().resting == None && View().q.stopping
      requires View().q.active == 0
      modifies this`objects, this`code, this`nextFiber, this`callbacks, this`nextCallback, this`trace, this`clock
      modifies this`resting, this`idleResumes, sched`m_tasks, sched`tickets, sched`m_activeThreadCount
      modifies sched`m_idleThreadCount, tls`tFiber, objects.Values
      ensures Linked() && Settled(View(), me, None) && fresh(objects.Values - old(objects.Values))
      ensures View().resting == None
      ensures AllDisciplined(old(Items(View()))) && trace == old(trace) + Worklist(old(Items(View())))
      ensures idleResumes == old(idleResumes) + 1
      ensures IsStopping(View().q) && View().q.idle == old(View()).q.idle
    {
      ghost var items, before, resumes := Items(View()), trace, idleResumes;
      hide *;
      var idle := BeginRun();
      Loop(idle, items);
      LoopOver(idle, before, items, resumes);
    }

    method BeginRun() returns (idle: FiberId)
      requires Linked() && Settled(View(), me, None) && View().resting == None && View().q.stopping
      requires View().q.active == 0
      modifies this`objects, this`nextFiber, this`resting
      ensures LoopOk(idle, trace, old(Items(View())), idleResumes, false) && fresh(objects.Values - old(objects.Values))
      ensures View().q.idle == old(View()).q.idle
    {
      AgreesStep(View(), me, trace);
      hide Settled, Linked, Agrees, Items, View, IdleOk;
      idle := NewIdle();
      IdleWaits(View(), idle);
    }

    lemma LoopOver(idle: FiberId, before: seq<nat>, items: seq<Script>, resumes: nat)
      requires LoopOk(idle, before, items, resumes, true)
      ensures Linked() && Settled(View(), me, None) && View().resting == None && IsStopping(View().q)
      ensures AllDisciplined(items) && trace == before + Worklist(items) && idleResumes == resumes + 1
    {
      hide Settled, Linked, Agrees, Items, View, IdleOk, IsStopping;
      EmptyQueue(View(), me);
      AgreesEnd(before, items, trace);
    }

    // schedule(), before stop().
    method Submit(child: Script, asFiber: bool, pinned: bool)
      requires Linked() && Waiting(View(), me) && Disciplined(child, false)
      modifies this`objects, this`code, this`nextFiber, this`callbacks, this`nextCallback, sched`m_tasks, sched`tickets
      ensures Linked() && Waiting(View(), me) && fresh(objects.Values - old(objects.Values))
      ensures Items(View()) == old(Items(View())) + [child] && View().q.stopping == old(View()).q.stopping
    {
      ghost var w := View();
      var pin := if pinned then Some(me) else None;
      SubmitWaits(w, me, child, asFiber, pin);
      hide Waiting, Items;
      SpawnChild(child, asFiber, pin);
    }

    // stop(): what was submitted, and all that follows from it, runs as the worklist says.
    // Called again it returns at once if stopping() holds, and otherwise fails the assertion of
    // resume(), which is the one case where it does.
    method Stop() returns (r: StopResult)
      requires Linked() && (Waiting(View(), me) || RootEnded(View()))
      modifies this`objects, this`code, this`nextFiber, this`callbacks, this`nextCallback, this`trace, this`clock
      modifies this`resting, this`idleResumes, sched`m_tasks, sched`tickets, sched`m_activeThreadCount
      modifies sched`m_idleThreadCount, sched`m_stopping, tls`tFiber, objects.Values
      ensures r.ReturnedAtOnce? <==> IsStopping(old(View()).q)
      ensures r.Failed? <==> !IsStopping(old(View()).q) && RootEnded(old(View()))
      ensures !r.RanTasks? ==> trace == old(trace) && idleResumes == old(idleResumes)
      ensures r.ReturnedAtOnce? ==> View() == old(View()) && Linked()
      ensures r.RanTasks? ==>
                && Linked() && RootEnded(View())
                && AllDisciplined(old(Items(View()))) && trace == old(trace) + Worklist(old(Items(View())))
                && idleResumes == old(idleResumes) + 1 && IsStopping(View().q) && View().q.idle == old(View()).q.idle
    {
      var already := sched.BeginStop();
      if already {
        return ReturnedAtOnce;
      }
      ghost var w := old(View());
      assert View() == w.(q := w.q.(stopping := true));
      RootStates(w, me);
      var ready := tls.schedulerFiber.state == READY;
      hide *;
      if !ready {
        return Failed;
      }
      RunToEnd(w);
      r := RanTasks;
    }

    method RunToEnd(ghost w: World)
      requires Linked() && Waiting(w, me) && View() == w.(q := w.q.(stopping := true))
      modifies this`objects, this`code, this`nextFiber, this`callbacks, this`nextCallback, this`trace, this`clock
      modifies this`resting, this`idleResumes, sched`m_tasks, sched`tickets, sched`m_activeThreadCount
      modifies sched`m_idleThreadCount, tls`tFiber, objects.Values
      ensures AllDisciplined(Items(w)) && trace == old(trace) + Worklist(Items(w))
      ensures idleResumes == old(idleResumes) + 1 && IsStopping(View().q) && View().q.idle == w.q.idle
      ensures Linked() && RootEnded(View())
    {
      hide *;
      EnterRun(w);
      Run();
      LeaveRun();
    }

    // m_rootFiber->resume().
    method EnterRun(ghost w: World)
      requires Linked() && Waiting(w, me) && View() == w.(q := w.q.(stopping := true))
      modifies this`code, this`clock, tls`tFiber, objects.Values
      ensures Linked() && Settled(View(), me, None) && View().resting == None && View().q.stopping
      ensures View().q.active == 0
      ensures Items(View()) == Items(w) && View().q.idle == w.q.idle
    {
      ghost var here := clock;
      EnteredSettled(w, me, here);
      assert w.locals.scheduler == Some(tls.schedulerFiber.id) && w.resting == None && w.q.active == 0;
      hide Waiting, Settled, Items, CanResume;
      var _ := tls.schedulerFiber.Resume(tls, clock, objects);
      clock := clock + 1;
      hide Resumed, HasMain;
      assert View() == Entered(w, here);
    }

    // The end of MainFunc on the root fiber.
    method LeaveRun()
      requires Linked() && Settled(View(), me, None)
      modifies this`clock, tls`tFiber, objects.Values
      ensures Linked() && View().q == old(View()).q && RootEnded(View())
    {
      ghost var w := View();
      assert HeapOk(w, None);
      hide Settled;
      var _ := tls.schedulerFiber.Finish(tls, clock, objects);
      clock := clock + 1;
    }
  }
}
