/**
 The scheduler's guarantees, over every run: any threads, any tasks, any interleaving of the
 atomic steps, as long as clients keep to the rules.
 */
module MachineTheorems {
  import opened Outcomes
  import opened Fibers
  import opened Scheduling
  import opened Machine
  import opened MachineThreads
  import opened MachineOwnership
  import opened MachineCounts
  import opened MachineHistory
  import opened MachineSafety

  // No assertion of run() or of the fibers ever fails, not in a call of stop() either, no dead
  // fiber is touched, no queued pointer is null, no counter goes below zero and every jump
  // arrives where it should.
  lemma {:induction false} NeverCrashes(useCaller: bool, acts: seq<Act>)
    ensures !Exec(useCaller, acts).Crash?
    ensures Exec(useCaller, acts).Ok? ==> Sound(Exec(useCaller, acts).state)
    decreases |acts|
  {
    if acts == [] {
      InitialSound(useCaller);
    } else {
      var front, act := acts[..|acts| - 1], acts[|acts| - 1];
      NeverCrashes(useCaller, front);
      if Exec(useCaller, front).Ok? {
        var s := Exec(useCaller, front).state;
        hide Sound, Enabled, Safe, Next, Initial;
        if Enabled(s, act) {
          EnabledIsSafe(s, act);
          KeepsSound(s, act);
        }
      }
    }
  }

  lemma {:induction false} Prefixes(useCaller: bool, acts: seq<Act>, more: seq<Act>)
    requires Exec(useCaller, acts + more).Ok?
    ensures Exec(useCaller, acts).Ok?
    decreases |more|
  {
    if more != [] {
      LastStep(useCaller, acts, more);
      Prefixes(useCaller, acts, more[..|more| - 1]);
    } else {
      assert acts + more == acts;
    }
  }

  // The last step of a longer run.
  lemma LastStep(useCaller: bool, acts: seq<Act>, more: seq<Act>)
    requires more != [] && Exec(useCaller, acts + more).Ok?
    ensures var o := Exec(useCaller, acts + more[..|more| - 1]);
            && o.Ok? && Enabled(o.state, more[|more| - 1]) && Safe(o.state, more[|more| - 1])
            && Exec(useCaller, acts + more) == Ok(Next(o.state, more[|more| - 1]))
  {
    var all := acts + more;
    assert all[..|all| - 1] == acts + more[..|more| - 1];
    assert all[|all| - 1] == more[|more| - 1];
    hide Enabled, Safe, Next, Initial;
  }

  // What the rules allow goes through.
  lemma GoesOn(useCaller: bool, acts: seq<Act>, act: Act)
    requires Exec(useCaller, acts).Ok? && Enabled(Exec(useCaller, acts).state, act)
    ensures var s := Exec(useCaller, acts).state;
            Safe(s, act) && Exec(useCaller, acts + [act]) == Ok(Next(s, act))
  {
    NeverCrashes(useCaller, acts);
    hide Sound, Enabled, Safe, Next, Initial;
    EnabledIsSafe(Exec(useCaller, acts).state, act);
    assert (acts + [act])[..|acts + [act]| - 1] == acts;
  }

  // ---------- mutual exclusion ----------

  // No two threads run one fiber, and a task fiber is EXEC exactly while a thread runs it.
  lemma MutualExclusion(useCaller: bool, acts: seq<Act>)
    requires Exec(useCaller, acts).Ok?
    ensures var s := Exec(useCaller, acts).state;
            && (forall t, u :: t in s.threads && u in s.threads && t != u && InSlice(s, t) && InSlice(s, u) ==>
                  s.threads[t].phase.fiber != s.threads[u].phase.fiber)
            && (forall f :: HasRole(s, f, TaskFiber) ==> (s.fibers[f].state == EXEC <==> RunBySome(s, f)))
  {
    var s := Exec(useCaller, acts).state;
    NeverCrashes(useCaller, acts);
    assert Inv(s) && ExecOk(s) && FibersOk(s);
    hide Exec, Sound;
    forall f | HasRole(s, f, TaskFiber)
      ensures s.fibers[f].state == EXEC <==> RunBySome(s, f)
    {
      RunningIsExec(s, f);
    }
    hide Inv, ExecOk;
    forall t, u | t in s.threads && u in s.threads && t != u && InSlice(s, t) && InSlice(s, u)
      ensures s.threads[t].phase.fiber != s.threads[u].phase.fiber
    {
      RunningApart(s, t, u);
    }
  }

  lemma RunningIsExec(s: State, f: FiberId)
    requires Inv(s) && ExecOk(s) && f in s.fibers && f in s.roles && s.roles[f] == TaskFiber
    ensures s.fibers[f].state == EXEC <==> RunBySome(s, f)
  {
    if RunBySome(s, f) {
      var t :| t in s.threads && s.threads[t].phase.Running? && s.threads[t].phase.fiber == f;
      assert ThreadOk(s, t, s.threads[t]);
    }
  }

  lemma RunningApart(s: State, t: ThreadId, u: ThreadId)
    requires Inv(s) && t != u && InSlice(s, t) && InSlice(s, u)
    ensures s.threads[t].phase.fiber != s.threads[u].phase.fiber
  {
    assert Claim(s.threads[t]) == Some(s.threads[t].phase.fiber);
  }

  // ---------- transfer of control ----------

  // t_fiber is always set and always EXEC; it is the running task or idle fiber exactly
  // while that has control.  While the loop has control, no fiber of the thread is running.
  lemma CurrentFiber(useCaller: bool, acts: seq<Act>, t: ThreadId)
    requires Exec(useCaller, acts).Ok? && t in Exec(useCaller, acts).state.threads
    ensures var s := Exec(useCaller, acts).state; var th := s.threads[t];
            && th.locals.cur.Some? && th.locals.cur.value in s.fibers && s.fibers[th.locals.cur.value].state == EXEC
            && (th.phase.Running? ==> th.locals.cur == Some(th.phase.fiber))
            && (InIdle(th) ==> th.locals.cur == th.idle)
            && (!th.phase.Running? && !InIdle(th) ==>
                  && (th.locals.cur == th.locals.thread || th.locals.cur == th.locals.scheduler)
                  && (th.idle.Some? ==> th.idle.value in s.fibers && s.fibers[th.idle.value].state != EXEC)
                  && (forall f :: HasRole(s, f, TaskFiber) && s.fibers[f].state == EXEC ==>
                        exists u :: u in s.threads && u != t && InSlice(s, u) && s.threads[u].phase.fiber == f))
  {
    var s := Exec(useCaller, acts).state;
    NeverCrashes(useCaller, acts);
    assert Inv(s) && ExecOk(s);
    hide Exec, Sound;
    CurrentOk(s, t);
    hide Inv, ThreadOk, FibersOk;
    forall f | HasRole(s, f, TaskFiber) && s.fibers[f].state == EXEC && !s.threads[t].phase.Running?
      ensures exists u :: u in s.threads && u != t && InSlice(s, u) && s.threads[u].phase.fiber == f
    {
      assert RunBySome(s, f);
      var u :| u in s.threads && s.threads[u].phase.Running? && s.threads[u].phase.fiber == f;
      assert u != t && InSlice(s, u);
    }
  }

  lemma CurrentOk(s: State, t: ThreadId)
    requires Inv(s) && t in s.threads
    ensures var th := s.threads[t];
            && th.locals.cur.Some? && th.locals.cur.value in s.fibers && s.fibers[th.locals.cur.value].state == EXEC
            && (th.phase.Running? ==> th.locals.cur == Some(th.phase.fiber))
            && (InIdle(th) ==> th.locals.cur == th.idle)
            && (!th.phase.Running? && !InIdle(th) ==>
                  && (th.locals.cur == th.locals.thread || th.locals.cur == th.locals.scheduler)
                  && (th.idle.Some? ==> th.idle.value in s.fibers && s.fibers[th.idle.value].state != EXEC))
  {
    Before(s, t);
    hide Inv, SharedOk, ClaimsApart;
  }

  predicate Resumes(act: Act, t: ThreadId) {
    act == ResumeTask(t) || act == ResumeIdle(t) || (act.StartCallback? && act.t == t)
  }

  // Steps of others, of clients, and those of t that stay within its slice.
  predicate StaysInSlice(act: Act, t: ThreadId) {
    Actor(act) != Some(t) || act == CheckStopping(t)
  }

  predicate SameSlice(p: Phase, q: Phase) {
    if p.Running? then q == p
    else (p.Idling? || p.IdleKnows?) && (q.Idling? || q.IdleKnows?) && q.slice == p.slice
  }

  // However long a slice lasts and whatever the others do meanwhile, the fiber that was
  // resumed is still the current one, and its yield will jump to the very point saved by
  // the resume that started the slice.
  lemma SliceReturnsToItsResume(useCaller: bool, before: seq<Act>, resume: Act, during: seq<Act>, t: ThreadId)
    requires Resumes(resume, t) && (forall i :: 0 <= i < |during| ==> StaysInSlice(during[i], t))
    requires Exec(useCaller, before + [resume] + during).Ok?
    ensures Exec(useCaller, before).Ok? && Exec(useCaller, before + [resume]).Ok?
    ensures var s0, s1, s := Exec(useCaller, before).state, Exec(useCaller, before + [resume]).state,
                             Exec(useCaller, before + [resume] + during).state;
            && t in s1.threads && t in s.threads
            && s1.threads[t].locals.cur.Some? && s.threads[t].locals.cur == s1.threads[t].locals.cur
            && var f := s.threads[t].locals.cur.value;
            && CanYield(s.fibers, s.threads[t].locals, f)
            && MainFiber(s.fibers[f], s.threads[t].locals) != Some(f)
            && YieldsTo(s.fibers, s.threads[t].locals, f) == Saved(s0.clock)
  {
    Prefixes(useCaller, before + [resume], during);
    LastStep(useCaller, before, [resume]);
    assert before + [resume][..0] == before;
    var s0, s1 := Exec(useCaller, before).state, Exec(useCaller, before + [resume]).state;
    ResumeStarts(s0, resume, t);
    SliceLasts(useCaller, before + [resume], during, t);
    NeverCrashes(useCaller, before + [resume]);
    NeverCrashes(useCaller, before + [resume] + during);
    var s := Exec(useCaller, before + [resume] + during).state;
    hide Exec, Next, Safe, Enabled;
    assert Inv(s) && Inv(s1);
    hide Sound;
    SlicePoint(s, t);
    SlicePoint(s1, t);
  }

  lemma ResumeStarts(s: State, act: Act, t: ThreadId)
    requires Resumes(act, t) && Enabled(s, act) && Safe(s, act)
    ensures var s' := Next(s, act);
            && t in s'.threads && (s'.threads[t].phase.Running? || s'.threads[t].phase.Idling?)
            && s'.threads[t].phase.slice == s.clock
  {
  }

  lemma SlicePoint(s: State, t: ThreadId)
    requires Inv(s) && t in s.threads && (s.threads[t].phase.Running? || InIdle(s.threads[t]))
    ensures var th := s.threads[t];
            && th.locals.cur == (if th.phase.Running? then Some(th.phase.fiber) else th.idle)
            && th.locals.cur.Some?
            && var f := th.locals.cur.value;
            && CanYield(s.fibers, th.locals, f) && MainFiber(s.fibers[f], th.locals) != Some(f)
            && YieldsTo(s.fibers, th.locals, f) == Saved(th.phase.slice)
  {
    Before(s, t);
    hide Inv, ClaimsApart, QueueOk, ClientsOk;
  }

  lemma {:induction false} SliceLasts(useCaller: bool, acts: seq<Act>, during: seq<Act>, t: ThreadId)
    requires forall i :: 0 <= i < |during| ==> StaysInSlice(during[i], t)
    requires Exec(useCaller, acts).Ok? && Exec(useCaller, acts + during).Ok? && t in Exec(useCaller, acts).state.threads
    requires var p := Exec(useCaller, acts).state.threads[t].phase; p.Running? || p.Idling?
    ensures var s, s' := Exec(useCaller, acts).state, Exec(useCaller, acts + during).state;
            t in s'.threads && SameSlice(s.threads[t].phase, s'.threads[t].phase)
                && s'.threads[t].idle == s.threads[t].idle
    decreases |during|
  {
    if during == [] {
      assert acts + during == acts;
    } else {
      var front, act := during[..|during| - 1], during[|during| - 1];
      LastStep(useCaller, acts, during);
      SliceLasts(useCaller, acts, front, t);
      var s := Exec(useCaller, acts + front).state;
      assert StaysInSlice(act, t);
      NeverCrashes(useCaller, acts + front);
      assert Inv(s);
      hide Exec, Sound, Inv;
      SliceStep(s, act, t);
    }
  }

  lemma SliceStep(s: State, act: Act, t: ThreadId)
    requires Inv(s) && Enabled(s, act) && Safe(s, act) && StaysInSlice(act, t) && t in s.threads
    requires var p := s.threads[t].phase; p.Running? || p.Idling? || p.IdleKnows?
    ensures var s' := Next(s, act);
            t in s'.threads && SameSlice(s.threads[t].phase, s'.threads[t].phase)
                && s'.threads[t].idle == s.threads[t].idle
  {
    match Actor(act)
    case Some(u) =>
      ActorThreads(s, act, u);
      if act != CheckStopping(t) {
        hide *;
      } else {
        hide Inv;
      }
    case None =>
      hide Inv;
      QuietThreads(s, act);
  }

  // What becomes of the queue if a callback returns: every queued fiber can still be resumed
  // if and only if nobody queued the one that returns.
  lemma ReturnNeedsUnqueued(useCaller: bool, acts: seq<Act>, t: ThreadId)
    requires Exec(useCaller, acts).Ok? && InSlice(Exec(useCaller, acts).state, t)
    ensures var s := Exec(useCaller, acts).state; var f := s.threads[t].phase.fiber;
            f in s.fibers && (NoneEnded(SwitchBack(s, t, f, true, Returned)) <==> !Queued(s.q, f))
  {
    var s := Exec(useCaller, acts).state;
    NeverCrashes(useCaller, acts);
    assert Inv(s) && t in s.threads;
    hide Exec, Sound;
    Before(s, t);
    assert QueueOk(s);
    hide Inv, QueueOk, FibersOk, ClientsOk, ClaimsApart;
    assert s.threads[t].phase.fiber in s.fibers;
    hide ThreadOk;
    EndedInQueue(s, t, s.threads[t].phase.fiber);
  }

  lemma EndedInQueue(s: State, t: ThreadId, f: FiberId)
    requires QueueOk(s) && t in s.threads && f in s.fibers
    ensures NoneEnded(SwitchBack(s, t, f, true, Returned)) <==> !Queued(s.q, f)
  {
    var s' := SwitchBack(s, t, f, true, Returned);
    assert s'.q == s.q && s'.fibers[f].state == TERM;
    assert forall g :: g in s.fibers && g != f ==> g in s'.fibers && s'.fibers[g] == s.fibers[g];
    hide SwitchBack;
    if Queued(s.q, f) {
      var j :| 0 <= j < |s.q.tasks| && s.q.tasks[j].work == FiberWork(f);
      assert s'.q.tasks[j].work.fiber == f;
    } else {
      assert forall j :: 0 <= j < |s.q.tasks| ==> s.q.tasks[j].work != FiberWork(f);
    }
  }

  predicate NoneEnded(s: State) {
    forall j :: 0 <= j < |s.q.tasks| && s.q.tasks[j].work.FiberWork? ==>
      s.q.tasks[j].work.fiber in s.fibers && s.fibers[s.q.tasks[j].work.fiber].state != TERM
  }

  predicate Queues(act: Act, f: FiberId) {
    act.Schedule? && exists j :: 0 <= j < |act.batch| && act.batch[j].0 == FiberWork(f)
  }

  // A callback may return at any time, whatever the others do, if since its resume nobody has
  // queued its fiber.
  lemma ReturnIsFree(useCaller: bool, before: seq<Act>, resume: Act, during: seq<Act>, t: ThreadId, f: FiberId)
    requires Resumes(resume, t) && (forall i :: 0 <= i < |during| ==> StaysInSlice(during[i], t))
    requires Exec(useCaller, before + [resume] + during).Ok?
    requires var s := Exec(useCaller, before + [resume] + during).state; InSlice(s, t) && s.threads[t].phase.fiber == f
    requires forall i :: 0 <= i < |during| ==> !Queues(during[i], f)
    ensures Exec(useCaller, before + [resume] + during + [Finish(t)]).Ok?
  {
    var acts := before + [resume] + during;
    hide Exec;
    UnqueuedSince(useCaller, before, resume, during, t, f);
    assert Enabled(Exec(useCaller, acts).state, Finish(t));
    GoesOn(useCaller, acts, Finish(t));
  }

  lemma UnqueuedSince(useCaller: bool, before: seq<Act>, resume: Act, during: seq<Act>, t: ThreadId, f: FiberId)
    requires Resumes(resume, t) && (forall i :: 0 <= i < |during| ==> StaysInSlice(during[i], t))
    requires Exec(useCaller, before + [resume] + during).Ok?
    requires var s := Exec(useCaller, before + [resume] + during).state; InSlice(s, t) && s.threads[t].phase.fiber == f
    requires forall i :: 0 <= i < |during| ==> !Queues(during[i], f)
    ensures !Queued(Exec(useCaller, before + [resume] + during).state.q, f)
  {
    Prefixes(useCaller, before + [resume], during);
    LastStep(useCaller, before, [resume]);
    assert before + [resume][..0] == before;
    var s0 := Exec(useCaller, before).state;
    NeverCrashes(useCaller, before);
    assert Inv(s0);
    hide Exec, Sound, Inv, Enabled, Safe, Next, Queued, Queues;
    ResumeStarts(s0, resume, t);
    SliceLasts(useCaller, before + [resume], during, t);
    ResumesUnqueued(s0, resume, t, f);
    StaysUnqueued(useCaller, before + [resume], during, f);
  }

  lemma ResumesUnqueued(s: State, act: Act, t: ThreadId, f: FiberId)
    requires Inv(s) && Resumes(act, t) && Enabled(s, act) && Safe(s, act)
    requires var s' := Next(s, act); t in s'.threads && s'.threads[t].phase.Running? && s'.threads[t].phase.fiber == f
    ensures !Queued(Next(s, act).q, f)
  {
    ResumedFiber(s, act, t, f);
    hide Next, Safe, Enabled;
    ClaimUnqueued(s, t, f);
  }

  lemma ResumedFiber(s: State, act: Act, t: ThreadId, f: FiberId)
    requires Inv(s) && Resumes(act, t) && Enabled(s, act) && Safe(s, act)
    requires var s' := Next(s, act); t in s'.threads && s'.threads[t].phase.Running? && s'.threads[t].phase.fiber == f
    ensures Next(s, act).q.tasks == s.q.tasks && t in s.threads
    ensures (s.threads[t].phase == Got && Claim(s.threads[t]) == Some(f)) || f !in s.roles
  {
    hide Inv;
    if act.StartCallback? {
      CallbackFiber(s, act, t, f);
    }
  }

  lemma CallbackFiber(s: State, act: Act, t: ThreadId, f: FiberId)
    requires Inv(s) && act.StartCallback? && act.t == t && Enabled(s, act) && Safe(s, act)
    requires var s' := Next(s, act); t in s'.threads && s'.threads[t].phase.Running? && s'.threads[t].phase.fiber == f
    ensures Next(s, act).q.tasks == s.q.tasks && t in s.threads && f !in s.roles
  {
    hide Inv;
    ActorBefore(s, act, t);
    hide SystemOk, IdleOk, ControlOk, FibersOk;
  }

  lemma ClaimUnqueued(s: State, t: ThreadId, f: FiberId)
    requires Inv(s) && t in s.threads && ((s.threads[t].phase == Got && Claim(s.threads[t]) == Some(f))
        || f !in s.roles)
    ensures !Queued(s.q, f)
  {
    hide ThreadsOk, FibersOk, ClientsOk, ClaimsApart;
  }

  lemma {:induction false} StaysUnqueued(useCaller: bool, acts: seq<Act>, during: seq<Act>, f: FiberId)
    requires Exec(useCaller, acts).Ok? && Exec(useCaller, acts + during).Ok?
    requires !Queued(Exec(useCaller, acts).state.q, f)
    requires forall i :: 0 <= i < |during| ==> !Queues(during[i], f)
    ensures !Queued(Exec(useCaller, acts + during).state.q, f)
    decreases |during|
  {
    hide Exec, Queued, Queues, Enabled, Safe, Next;
    if during == [] {
      assert acts + during == acts;
    } else {
      var front, act := during[..|during| - 1], during[|during| - 1];
      assert !Queues(act, f);
      LastStep(useCaller, acts, during);
      StaysUnqueued(useCaller, acts, front, f);
      QueuesOnly(Exec(useCaller, acts + front).state, act, f);
    }
  }

  // Only scheduling a fiber puts it into the queue.
  lemma QueuesOnly(s: State, act: Act, f: FiberId)
    requires Enabled(s, act) && Safe(s, act) && !Queued(s.q, f) && !Queues(act, f)
    ensures !Queued(Next(s, act).q, f)
  {
    if !act.Schedule? {
      QueueShrinks(s, act);
    } else if Queued(Next(s, act).q, f) {
      QueuesAll(s, act.batch, f);
      assert false;
    }
  }

  lemma QueueShrinks(s: State, act: Act)
    requires Enabled(s, act) && Safe(s, act) && !act.Schedule?
    ensures forall j :: 0 <= j < |Next(s, act).q.tasks| ==> Next(s, act).q.tasks[j] in s.q.tasks
  {
  }

  lemma {:induction false} QueuesAll(s: State, batch: seq<(Work, Option<ThreadId>)>, f: FiberId)
    requires Queued(ScheduleAll(s, batch).q, f)
    ensures Queued(s.q, f) || exists j :: 0 <= j < |batch| && batch[j].0 == FiberWork(f)
    decreases |batch|
  {
    if batch != [] {
      var s1 := ScheduleOne(s, batch[0].0, batch[0].1);
      QueuesAll(s1, batch[1..], f);
      if Queued(s1.q, f) && batch[0].0 != FiberWork(f) {
        var j :| 0 <= j < |s1.q.tasks| && s1.q.tasks[j].work == FiberWork(f);
        assert j < |s.q.tasks| && s.q.tasks[j].work == FiberWork(f);
      }
    }
  }

  // ---------- ownership ----------

  // A fiber that has started and not finished is held by its own frame, whatever became of
  // the other handles; while it runs, its resumer holds it too.  Every fiber there ever was
  // either exists or was destroyed in its final state.
  lemma OwnsItself(useCaller: bool, acts: seq<Act>)
    requires Exec(useCaller, acts).Ok?
    ensures var s := Exec(useCaller, acts).state;
            && (forall f :: f in s.fibers && f in s.roles && !s.roles[f].ThreadFiber? ==> (f in s.frames <==>
                Unfinished(s.fibers[f])))
            && (forall t :: InSlice(s, t) ==>
                  s.threads[t].phase.fiber in s.frames && HeldBy(s.threads[t], s.threads[t].phase.fiber))
            && s.roles.Keys == s.fibers.Keys + s.destroyed.Keys && s.fibers.Keys !! s.destroyed.Keys
            && (forall f :: f in s.destroyed ==> s.destroyed[f] == TERM)
  {
    var s := Exec(useCaller, acts).state;
    NeverCrashes(useCaller, acts);
    assert Inv(s) && FramesOk(s) && DestroyedOk(s) && AllAccounted(s) && FibersOk(s);
    hide Exec, Sound;
    forall t | InSlice(s, t)
      ensures s.threads[t].phase.fiber in s.frames && HeldBy(s.threads[t], s.threads[t].phase.fiber)
    {
      Before(s, t);
      hide Inv, QueueOk, ClientsOk, ClaimsApart;
    }
    hide Inv;
  }

  // A task or idle fiber exists exactly as long as somebody holds it, so it is destroyed at
  // the very moment when its last handle goes.
  lemma ExistsWhileHeld(useCaller: bool, acts: seq<Act>, f: FiberId)
    requires Exec(useCaller, acts).Ok? && f in Exec(useCaller, acts).state.roles
    requires var r := Exec(useCaller, acts).state.roles[f]; r.TaskFiber? || r.IdleFiber?
    ensures var s := Exec(useCaller, acts).state; f in s.fibers <==> Held(s, f)
  {
    var s := Exec(useCaller, acts).state;
    NeverCrashes(useCaller, acts);
    assert Inv(s) && FramesOk(s) && HeldOk(s);
    hide Exec, Sound;
    if Held(s, f) {
      HeldExists(s, f);
    }
    hide Inv, FramesOk, Held;
  }

  lemma HeldExists(s: State, f: FiberId)
    requires Inv(s) && FramesOk(s) && Held(s, f)
    ensures f in s.fibers
  {
    if InHand(s.threads, f) {
      var t :| t in s.threads && HeldBy(s.threads[t], f);
      Before(s, t);
      hide ThreadsOk, QueueOk, ClientsOk, ClaimsApart;
    }
  }

  // ---------- termination detection ----------

  lemma ActiveCountIsExact(useCaller: bool, acts: seq<Act>)
    requires Exec(useCaller, acts).Ok?
    ensures var s := Exec(useCaller, acts).state;
            && s.q.active == |set t | t in s.threads && BusyPhase(s.threads[t].phase)|
            && s.q.idle == |set t | t in s.threads && InIdle(s.threads[t])|
  {
    var s := Exec(useCaller, acts).state;
    NeverCrashes(useCaller, acts);
    assert Counts(s);
    hide Exec, Sound;
    assert (set t | t in s.threads && BusyPhase(s.threads[t].phase)) == BusySet(s.threads);
    assert (set t | t in s.threads && InIdle(s.threads[t])) == IdleSet(s.threads);
  }

  // Once stopping() is true it is true for ever, and nothing is accepted any more.
  lemma {:induction false} StoppingIsFinal(useCaller: bool, acts: seq<Act>, more: seq<Act>)
    requires Exec(useCaller, acts + more).Ok?
    ensures Exec(useCaller, acts).Ok?
    ensures var s, s' := Exec(useCaller, acts).state, Exec(useCaller, acts + more).state;
            IsStopping(s.q) ==> IsStopping(s'.q) && s'.accepted == s.accepted && s'.done >= s.done
    decreases |more|
  {
    Prefixes(useCaller, acts, more);
    if more == [] {
      assert acts + more == acts;
    } else {
      var front, act := more[..|more| - 1], more[|more| - 1];
      LastStep(useCaller, acts, more);
      StoppingIsFinal(useCaller, acts, front);
      var s, s1 := Exec(useCaller, acts).state, Exec(useCaller, acts + front).state;
      var s' := Next(s1, act);
      NeverCrashes(useCaller, acts + front);
      NeverCrashes(useCaller, acts + more);
      assert Counts(s1) && Counts(s');
      hide Exec, Sound, Next, Enabled, Safe;
      if IsStopping(s.q) {
        StoppingIsQuiet(s1);
        StoppingIsQuiet(s');
        hide Quiet;
        QuietStays(s1, act);
      }
    }
  }

  // The slice of ticket i is over, even if its handle is still being dropped.
  predicate Executed(s: State, i: nat) {
    i in s.done || exists t :: t in s.threads && s.threads[t].phase == Dropping && s.threads[t].ticket == i
  }

  // When stopping() holds, every task that was ever accepted has been executed.
  lemma StoppingMeansDone(useCaller: bool, acts: seq<Act>)
    requires Exec(useCaller, acts).Ok? && IsStopping(Exec(useCaller, acts).state.q)
    ensures var s := Exec(useCaller, acts).state;
            && (forall i :: 0 <= i < |s.accepted| ==> Executed(s, i))
            && ((forall u :: u in s.threads ==> s.threads[u].phase == Left) ==>
                forall i :: 0 <= i < |s.accepted| ==> i in s.done)
  {
    var s := Exec(useCaller, acts).state;
    NeverCrashes(useCaller, acts);
    assert Counts(s) && Partitioned(HistOf(s));
    hide Exec, Sound;
    StoppingIsQuiet(s);
    forall i | 0 <= i < |s.accepted|
      ensures Executed(s, i)
      ensures (forall u :: u in s.threads ==> s.threads[u].phase == Left) ==> i in s.done
    {
      QuietIsExecuted(s, i);
    }
  }

  // A thread that has left run(), or is bound to, leaves an empty queue behind and every
  // accepted task executed, and so it is for ever after.
  lemma LeavesNothingBehind(useCaller: bool, acts: seq<Act>, more: seq<Act>, t: ThreadId)
    requires Exec(useCaller, acts + more).Ok?
    ensures Exec(useCaller, acts).Ok?
    ensures var s, s' := Exec(useCaller, acts).state, Exec(useCaller, acts + more).state;
            Knows(s, t) ==>
              && s'.q.tasks == [] && s'.q.active == 0 && s'.accepted == s.accepted
              && (forall i :: 0 <= i < |s'.accepted| ==> Executed(s', i))
  {
    StoppingIsFinal(useCaller, acts, more);
    var s := Exec(useCaller, acts).state;
    NeverCrashes(useCaller, acts);
    if Knows(s, t) {
      assert Quiet(s) && Counts(s);
      hide Exec, Sound, Knows, Executed;
      StoppingIsQuiet(s);
      StoppingMeansDone(useCaller, acts + more);
    }
  }

  lemma QuietIsExecuted(s: State, i: nat)
    requires Quiet(s) && Partitioned(HistOf(s)) && i < |s.accepted|
    ensures i in s.done || exists t :: t in s.threads && s.threads[t].phase == Dropping && s.threads[t].ticket == i
  {
    var h := HistOf(s);
    assert Waiting(h, i) || InHands(h, i) || i in h.done;
    if InHands(h, i) {
      var t :| t in h.hands && h.hands[t] == i;
      assert t !in BusySet(s.threads) && s.threads[t].phase == Dropping;
    }
  }

  // ---------- progress ----------

  // A thread inside run() can always take a step.
  lemma NeverStuck(useCaller: bool, acts: seq<Act>, t: ThreadId)
    requires Exec(useCaller, acts).Ok?
    requires t in Exec(useCaller, acts).state.threads && InRun(Exec(useCaller, acts).state.threads[t])
    ensures exists act :: Actor(act) == Some(t) && Exec(useCaller, acts + [act]).Ok?
  {
    var s := Exec(useCaller, acts).state;
    NeverCrashes(useCaller, acts);
    assert Inv(s);
    SomethingUnused(s.roles.Keys);
    var unused: FiberId :| unused !in s.roles.Keys;
    var act := OwnStep(s, t, unused);
    OwnStepEnabled(s, t, unused);
    hide Inv, Enabled, Next, OwnStep, Exec;
    GoesOn(useCaller, acts, act);
    assert Exec(useCaller, acts + [act]).Ok?;
  }

  lemma SomethingUnused(used: set<FiberId>)
    ensures exists f: FiberId :: f !in used
  {
    if used != {} {
      var top := Largest(used);
      assert top + 1 !in used;
    } else {
      assert 0 !in used;
    }
  }

  lemma {:induction false} Largest(used: set<FiberId>) returns (top: FiberId)
    requires used != {}
    ensures forall f :: f in used ==> f <= top
  {
    var f :| f in used;
    if used == {f} {
      top := f;
    } else {
      top := Largest(used - {f});
      top := if f > top then f else top;
      assert forall g :: g in used ==> g == f || g in used - {f};
    }
  }

  function OwnStep(s: State, t: ThreadId, unused: FiberId): Act
    requires t in s.threads
  {
    match s.threads[t].phase
    case AtHead => PickTask(t)
    case Got => if s.threads[t].task.Some?
        && s.threads[t].task.value.work.FiberWork? then ResumeTask(t) else StartCallback(t, unused)
    case Running(_, _) => Yield(t)
    case Returned => Decrement(t)
    case Dropping => Drop(t)
    case NoTask => if IdleEnded(s, t) then Exit(t) else ResumeIdle(t)
    case Idling(_) => CheckStopping(t)
    case IdleKnows(_, _) => LeaveIdle(t)
    case _ => EnterRun(t, unused)
  }

  lemma OwnStepEnabled(s: State, t: ThreadId, unused: FiberId)
    requires Inv(s) && t in s.threads && InRun(s.threads[t]) && unused !in s.roles
    ensures var act := OwnStep(s, t, unused); Enabled(s, act) && Actor(act) == Some(t)
  {
    hide OwnStep;
    Before(s, t);
    hide Inv, SharedOk, ClaimsApart;
    OwnStepIs(s, t, unused);
  }

  lemma OwnStepIs(s: State, t: ThreadId, unused: FiberId)
    requires t in s.threads && InRun(s.threads[t]) && unused !in s.roles && HandOk(s, t, s.threads[t])
    ensures var act := OwnStep(s, t, unused); Enabled(s, act) && Actor(act) == Some(t)
  {
    hide IdleEnded, InUse, HasRole;
  }

  // How many steps of its own a thread is from the end of run(), once stopping() holds.
  function StepsLeft(s: State, t: ThreadId): nat
    requires t in s.threads
  {
    match s.threads[t].phase
    case Left => 0
    case NoTask => if IdleEnded(s, t) then 1 else 5
    case AtHead => if IdleEnded(s, t) then 2 else 6
    case IdleKnows(_, stop) => if stop then 3 else 7
    case Idling(_) => 4
    case Outside => 7
    case _ => if IdleEnded(s, t) then 3 else 7
  }

  lemma StepsLeftBound(s: State, t: ThreadId)
    requires t in s.threads
    ensures StepsLeft(s, t) <= 7 && (StepsLeft(s, t) == 0 <==> s.threads[t].phase == Left)
  {
  }

  lemma QuietCounts(s: State, act: Act, t: ThreadId)
    requires Quiet(s) && IsStopping(s.q) && Inv(s) && Enabled(s, act) && Safe(s, act) && t in s.threads
    ensures var s' := Next(s, act); t in s'.threads && StepsLeft(s', t) + One(Actor(act) == Some(t)) <= StepsLeft(s, t)
  {
    NobodyBusy(s, act);
    var s' := Next(s, act);
    match Actor(act)
    case Some(u) =>
      ActorBefore(s, act, u);
      if u == t {
        hide Inv, FibersOk;
        OwnQuietStep(s, act, t);
      } else {
        ActorIsLocal(s, act, u);
        hide Enabled, Safe, Next, Quiet;
        OthersIdle(s, s', u, t);
      }
    case None =>
      QuietThreads(s, act);
      Before(s, t);
      hide Inv, SharedOk, ClaimsApart;
      QuietIdle(s, act, t);
  }

  lemma QuietIdle(s: State, act: Act, t: ThreadId)
    requires Enabled(s, act) && Safe(s, act) && Actor(act) == None && t in s.threads && ThreadOk(s, t, s.threads[t])
    requires t in Next(s, act).threads && Next(s, act).threads[t] == s.threads[t]
    ensures IdleEnded(Next(s, act), t) == IdleEnded(s, t)
  {
    if act.Schedule? {
      ScheduleAllSame(s, act.batch);
    }
  }

  lemma OthersIdle(s: State, s': State, u: ThreadId, t: ThreadId)
    requires Inv(s) && Local(s, s', u) && u != t && t in s.threads
    ensures t in s'.threads && s'.threads[t] == s.threads[t] && IdleEnded(s', t) == IdleEnded(s, t)
  {
    Before(s, t);
    hide QueueOk, ClientsOk, ClaimsApart, HandOk, ControlOk, ThreadsOk;
    assert s.threads[t].idle.Some? ==> HeldBy(s'.threads[t], s.threads[t].idle.value);
  }

  lemma OwnQuietStep(s: State, act: Act, t: ThreadId)
    requires IsStopping(s.q) && Enabled(s, act) && Safe(s, act) && Actor(act) == Some(t) && ThreadOk(s, t, s.threads[t])
    requires !act.ResumeTask? && !act.StartCallback? && !act.Yield? && !act.Finish? && !act.Decrement?
    ensures var s' := Next(s, act); t in s'.threads && StepsLeft(s', t) < StepsLeft(s, t)
  {
    if act.EnterRun? || act.PickTask? || act.Drop? {
      OwnHeadStep(s, act, t);
    } else {
      OwnIdleStep(s, act, t);
    }
  }

  lemma OwnHeadStep(s: State, act: Act, t: ThreadId)
    requires IsStopping(s.q) && Enabled(s, act) && Safe(s, act) && Actor(act) == Some(t) && ThreadOk(s, t, s.threads[t])
    requires act.EnterRun? || act.PickTask? || act.Drop?
    ensures var s' := Next(s, act); t in s'.threads && StepsLeft(s', t) < StepsLeft(s, t)
  {
  }

  lemma OwnIdleStep(s: State, act: Act, t: ThreadId)
    requires IsStopping(s.q) && Enabled(s, act) && Safe(s, act) && Actor(act) == Some(t) && ThreadOk(s, t, s.threads[t])
    requires act.ResumeIdle? || act.CheckStopping? || act.LeaveIdle? || act.Exit?
    ensures var s' := Next(s, act); t in s'.threads && StepsLeft(s', t) < StepsLeft(s, t)
  {
  }

  function OwnSteps(acts: seq<Act>, t: ThreadId): nat {
    if acts == [] then 0 else OwnSteps(acts[..|acts| - 1], t) + One(Actor(acts[|acts| - 1]) == Some(t))
  }

  // Once stopping() holds, a thread leaves run() after at most seven steps of its own,
  // whatever the others do.
  lemma {:induction false} LeavesSoon(useCaller: bool, acts: seq<Act>, more: seq<Act>, t: ThreadId)
    requires Exec(useCaller, acts + more).Ok? && Exec(useCaller, acts).Ok?
    requires IsStopping(Exec(useCaller, acts).state.q) && t in Exec(useCaller, acts).state.threads
    ensures var s, s' := Exec(useCaller, acts).state, Exec(useCaller, acts + more).state;
            && t in s'.threads && OwnSteps(more, t) <= 7
            && OwnSteps(more, t) + StepsLeft(s', t) <= StepsLeft(s, t)
            && (StepsLeft(s', t) == 0 <==> s'.threads[t].phase == Left)
    decreases |more|
  {
    if more == [] {
      assert acts + more == acts;
      hide Exec;
      StepsLeftBound(Exec(useCaller, acts).state, t);
    } else {
      var front, act := more[..|more| - 1], more[|more| - 1];
      LastStep(useCaller, acts, more);
      LeavesSoon(useCaller, acts, front, t);
      StoppingIsFinal(useCaller, acts, front);
      var s1 := Exec(useCaller, acts + front).state;
      NeverCrashes(useCaller, acts + front);
      assert Inv(s1) && Counts(s1);
      hide Exec, Sound, Next, Enabled, Safe;
      StoppingIsQuiet(s1);
      hide Quiet, StepsLeft;
      QuietCounts(s1, act, t);
      StepsLeftBound(Exec(useCaller, acts).state, t);
      StepsLeftBound(Next(s1, act), t);
    }
  }

  // And it can always get there: some steps of its own take it out of run().
  lemma {:induction false} CanLeave(useCaller: bool, acts: seq<Act>, t: ThreadId) returns (more: seq<Act>)
    requires Exec(useCaller, acts).Ok? && IsStopping(Exec(useCaller, acts).state.q)
    requires t in Exec(useCaller, acts).state.threads && Exec(useCaller, acts).state.threads[t].phase != Outside
    ensures Exec(useCaller, acts + more).Ok? && At(Exec(useCaller, acts + more).state, t, Left)
    ensures forall i :: 0 <= i < |more| ==> Actor(more[i]) == Some(t)
    decreases StepsLeft(Exec(useCaller, acts).state, t)
  {
    hide Exec, StepsLeft, Actor, IsStopping;
    var s := Exec(useCaller, acts).state;
    if s.threads[t].phase == Left {
      more := [];
      assert acts + more == acts;
    } else {
      var act := OneCloser(useCaller, acts, t);
      var acts' := acts + [act];
      var rest := CanLeave(useCaller, acts', t);
      more := [act] + rest;
      assert acts' + rest == acts + more;
    }
  }

  lemma OneCloser(useCaller: bool, acts: seq<Act>, t: ThreadId) returns (act: Act)
    requires Exec(useCaller, acts).Ok? && IsStopping(Exec(useCaller, acts).state.q)
    requires t in Exec(useCaller, acts).state.threads
    requires var p := Exec(useCaller, acts).state.threads[t].phase; p != Outside && p != Left
    ensures Actor(act) == Some(t) && Exec(useCaller, acts + [act]).Ok?
    ensures var s, s' := Exec(useCaller, acts).state, Exec(useCaller, acts + [act]).state;
            IsStopping(s'.q) && t in s'.threads && s'.threads[t].phase != Outside && StepsLeft(s', t) < StepsLeft(s, t)
  {
    NeverStuck(useCaller, acts, t);
    act :| Actor(act) == Some(t) && Exec(useCaller, acts + [act]).Ok?;
    hide Exec, StepsLeft, OwnSteps;
    LeavesSoon(useCaller, acts, [act], t);
    StoppingIsFinal(useCaller, acts, [act]);
    OneOwnStep(act, t);
    StaysInside(useCaller, acts, act, t);
  }

  lemma OneOwnStep(act: Act, t: ThreadId)
    ensures OwnSteps([act], t) == One(Actor(act) == Some(t))
  {
    assert [act][..0] == [];
  }

  // Nobody is outside run() after a step of its own.
  lemma StaysInside(useCaller: bool, acts: seq<Act>, act: Act, t: ThreadId)
    requires Exec(useCaller, acts + [act]).Ok? && Actor(act) == Some(t)
    ensures var s' := Exec(useCaller, acts + [act]).state; t in s'.threads && s'.threads[t].phase != Outside
  {
    LastStep(useCaller, acts, [act]);
    assert acts + [act][..0] == acts;
    hide Exec;
  }

  // ---------- conservation ----------

  // Every accepted task is in exactly one of three places, and those outside the queue were
  // picked exactly once, by a thread that was allowed to, which is the one that has it.
  lemma ExactlyOnce(useCaller: bool, acts: seq<Act>, i: nat)
    requires Exec(useCaller, acts).Ok? && i < |Exec(useCaller, acts).state.accepted|
    ensures var s := Exec(useCaller, acts).state; var h := HistOf(s);
            && s.accepted[i].ticket == i
            && One(Waiting(h, i)) + One(InHands(h, i)) + One(i in h.done) == 1
            && (Waiting(h, i) <==> s.accepted[i] in s.q.tasks)
            && (!Waiting(h, i) <==> exists k :: 0 <= k < |s.picks| && s.picks[k].task == s.accepted[i])
            && (forall k, l :: 0 <= k < l < |s.picks| ==> s.picks[k].task != s.picks[l].task)
            && (forall k :: 0 <= k < |s.picks| ==> var p := s.picks[k];
                  && (p.task.pin == None || p.task.pin == Some(p.thread))
                  && (p.task.work.FiberWork? ==> p.task.work.fiber !in p.exec))
            && (forall t, u :: t in h.hands && u in h.hands && h.hands[t] == i && h.hands[u] == i ==> t == u)
            && (forall t :: t in h.hands && h.hands[t] == i ==>
                  exists k :: 0 <= k < |s.picks| && s.picks[k].task == s.accepted[i] && s.picks[k].thread == t)
  {
    var s := Exec(useCaller, acts).state;
    NeverCrashes(useCaller, acts);
    assert HistInv(HistOf(s));
    hide Exec, Sound;
    PlaceOf(HistOf(s), i);
    PickOf(HistOf(s), i);
  }

  lemma PlaceOf(h: Hist, i: nat)
    requires HistInv(h) && i < |h.accepted|
    ensures One(Waiting(h, i)) + One(InHands(h, i)) + One(i in h.done) == 1
    ensures Waiting(h, i) <==> h.accepted[i] in h.tasks
  {
  }

  lemma PickOf(h: Hist, i: nat)
    requires TicketsOk(h) && PicksOk(h) && i < |h.accepted|
    ensures !Waiting(h, i) <==> exists k :: 0 <= k < |h.picks| && h.picks[k].task == h.accepted[i]
    ensures forall t :: t in h.hands && h.hands[t] == i ==>
              exists k :: 0 <= k < |h.picks| && h.picks[k].task == h.accepted[i] && h.picks[k].thread == t
  {
    hide Eligible;
    forall k | 0 <= k < |h.picks|
      ensures h.picks[k].task.ticket == i <==> h.picks[k].task == h.accepted[i]
    {
    }
    if !Waiting(h, i) {
      assert WasPicked(h, i);
      var k :| 0 <= k < |h.picks| && h.picks[k].task.ticket == i;
      assert h.picks[k].task == h.accepted[i];
    }
  }

  // ---------- order ----------

  // The queue is always in scheduling order, and a pick passes over an earlier task only if
  // that was pinned elsewhere or its fiber was running at that very scan.
  lemma PicksAreFair(useCaller: bool, acts: seq<Act>)
    requires Exec(useCaller, acts).Ok?
    ensures var s := Exec(useCaller, acts).state;
            && (forall j :: 0 <= j < |s.q.tasks| ==>
                  s.q.tasks[j].ticket < |s.accepted| && s.accepted[s.q.tasks[j].ticket] == s.q.tasks[j])
            && (forall i, j :: 0 <= i < j < |s.q.tasks| ==> s.q.tasks[i].ticket < s.q.tasks[j].ticket)
            && (forall k, i :: 0 <= k < |s.picks| && 0 <= i < s.picks[k].task.ticket ==>
                  && i < |s.accepted|
                  && (|| (exists l :: 0 <= l < k && s.picks[l].task == s.accepted[i])
                      || (s.accepted[i].pin.Some? && s.accepted[i].pin != Some(s.picks[k].thread))
                      || (s.accepted[i].work.FiberWork? && s.accepted[i].work.fiber in s.picks[k].exec)))
  {
    var s := Exec(useCaller, acts).state;
    NeverCrashes(useCaller, acts);
    assert HistInv(HistOf(s));
    hide Exec, Sound;
    forall k, i | 0 <= k < |s.picks| && 0 <= i < s.picks[k].task.ticket
      ensures i < |s.accepted|
      ensures || (exists l :: 0 <= l < k && s.picks[l].task == s.accepted[i])
              || (s.accepted[i].pin.Some? && s.accepted[i].pin != Some(s.picks[k].thread))
              || (s.accepted[i].work.FiberWork? && s.accepted[i].work.fiber in s.picks[k].exec)
    {
      PassedOver(HistOf(s), k, i);
    }
  }

  lemma PassedOver(h: Hist, k: nat, i: nat)
    requires HistInv(h) && k < |h.picks| && i < h.picks[k].task.ticket
    ensures i < |h.accepted|
    ensures || (exists l :: 0 <= l < k && h.picks[l].task == h.accepted[i])
            || (h.accepted[i].pin.Some? && h.accepted[i].pin != Some(h.picks[k].thread))
            || (h.accepted[i].work.FiberWork? && h.accepted[i].work.fiber in h.picks[k].exec)
  {
    if !Eligible(h.accepted[i], h.picks[k].thread, h.picks[k].exec) {
      EligibleIff(h.accepted[i], h.picks[k].thread, h.picks[k].exec);
    }
    hide Eligible;
    if Waiting(h, i) {
      var j :| 0 <= j < |h.tasks| && h.tasks[j].ticket == i;
      assert h.accepted[i] == h.tasks[j];
    } else {
      assert WasPicked(h, i);
      var l :| 0 <= l < |h.picks| && h.picks[l].task.ticket == i;
      assert h.picks[l].task == h.accepted[i];
    }
  }

  // Hence callbacks start in scheduling order: an unpinned one before everything that was
  // scheduled after it, a pinned one before everything pinned to the same thread.
  lemma CallbacksStartInOrder(useCaller: bool, acts: seq<Act>, i: nat, j: nat, k: nat)
    requires Exec(useCaller, acts).Ok?
    requires var s := Exec(useCaller, acts).state;
             && i < j < |s.accepted| && k < |s.picks| && s.picks[k].task == s.accepted[j]
             && s.accepted[i].work.CallbackWork? && (s.accepted[i].pin == None
                 || s.accepted[i].pin == s.accepted[j].pin)
    ensures var s := Exec(useCaller, acts).state; exists l :: 0 <= l < k && s.picks[l].task == s.accepted[i]
  {
    var s := Exec(useCaller, acts).state;
    NeverCrashes(useCaller, acts);
    assert HistInv(HistOf(s));
    hide Exec, Sound;
    assert s.accepted[j].ticket == j && Eligible(s.picks[k].task, s.picks[k].thread, s.picks[k].exec);
    PassedOver(HistOf(s), k, i);
  }

  // ---------- stop() once more ----------

  // In every reachable state a call of stop() gets through if and only if stopping() holds or
  // the root fiber, if there is one, has not been resumed yet.
  lemma StopOkIff(useCaller: bool, acts: seq<Act>)
    requires Exec(useCaller, acts).Ok?
    ensures var s := Exec(useCaller, acts).state;
            StopOk(s) <==>
              IsStopping(s.q) || forall u :: u in s.threads && s.threads[u].viaRoot ==> s.threads[u].phase == Outside
  {
    var s := Exec(useCaller, acts).state;
    NeverCrashes(useCaller, acts);
    assert Inv(s);
    hide Exec, Sound;
    forall u | u in s.threads && s.threads[u].viaRoot
      ensures RootReady(s, u) <==> s.threads[u].phase == Outside
    {
      Before(s, u);
      hide Inv, SharedOk, ClaimsApart;
      RootReadyIff(s, u);
    }
    hide Inv, RootReady;
  }

  // After stop() has returned to the calling thread, stopping() holds and the root fiber has
  // ended for good.  So a later stop() is harmless if and only if nothing but null tasks has
  // been scheduled in between.
  lemma SecondStop(useCaller: bool, acts: seq<Act>, t: ThreadId, late: seq<(Work, Option<ThreadId>)>)
    requires Exec(useCaller, acts).Ok? && At(Exec(useCaller, acts).state, t, Left)
    requires Exec(useCaller, acts).state.threads[t].viaRoot
    ensures var s := Exec(useCaller, acts).state;
            && IsStopping(s.q) && !RootReady(s, t)
            && (StopOk(ScheduleAll(s, late)) <==> forall j :: 0 <= j < |late| ==> late[j].0.NullWork?)
  {
    var s := Exec(useCaller, acts).state;
    NeverCrashes(useCaller, acts);
    assert Inv(s) && Counts(s) && Knows(s, t) && Quiet(s);
    hide Exec, Sound;
    Before(s, t);
    hide Inv, SharedOk, ClaimsApart;
    RootReadyIff(s, t);
    StoppingIsQuiet(s);
    ScheduleAllSame(s, late);
    LateTasks(s, late);
    var s' := ScheduleAll(s, late);
    assert RootReady(s', t) == RootReady(s, t) && t in s'.threads && s'.threads[t].viaRoot;
    hide Counts, Knows, Quiet, ScheduleAll, RootReady, ThreadOk;
  }

  lemma {:induction false} LateTasks(s: State, late: seq<(Work, Option<ThreadId>)>)
    ensures var q := ScheduleAll(s, late).q;
            && q.stopping == s.q.stopping && q.active == s.q.active
            && (q.tasks == [] <==> s.q.tasks == [] && forall j :: 0 <= j < |late| ==> late[j].0.NullWork?)
    decreases |late|
  {
    if late != [] {
      var s1 := ScheduleOne(s, late[0].0, late[0].1);
      LateTasks(s1, late[1..]);
      assert forall j :: 1 <= j < |late| ==> late[j] == late[1..][j - 1];
      assert s1.q.tasks == [] <==> s.q.tasks == [] && late[0].0.NullWork?;
      hide ScheduleOne;
    }
  }

  // A run after which one late callback makes stop() fail.
  lemma SecondStopFails() returns (acts: seq<Act>)
    ensures Exec(true, acts).Ok? && At(Exec(true, acts).state, 0, Left)
    ensures var s' := ScheduleAll(Exec(true, acts).state, [(CallbackWork(7), None)]); !StopOk(s')
  {
    var begin := [BeginStop, EnterRun(0, 2)];
    BeginAndEnter();
    var more := CanLeave(true, begin, 0);
    acts := begin + more;
    var s := Exec(true, acts).state;
    RootStays(true, begin, more);
    var late: seq<(Work, Option<ThreadId>)> := [(CallbackWork(7), None)];
    hide Exec;
    SecondStop(true, acts, 0, late);
    assert !late[0].0.NullWork?;
  }

  lemma BeginAndEnter()
    ensures var o := Exec(true, [BeginStop, EnterRun(0, 2)]);
            && o.Ok? && IsStopping(o.state.q) && 0 in o.state.threads
            && o.state.threads[0].phase == AtHead && o.state.threads[0].viaRoot
  {
    var a1, a2 := [BeginStop], [BeginStop, EnterRun(0, 2)];
    assert a1[..0] == [] && a2[..1] == a1;
    assert Exec(true, []) == Ok(Initial(true));
    GoesOn(true, [], BeginStop);
    assert [] + [BeginStop] == a1 && a1 + [EnterRun(0, 2)] == a2;
    GoesOn(true, a1, EnterRun(0, 2));
  }

  // Whether a thread runs on a root fiber never changes.
  lemma {:induction false} RootStays(useCaller: bool, acts: seq<Act>, more: seq<Act>)
    requires Exec(useCaller, acts + more).Ok?
    ensures Exec(useCaller, acts).Ok?
    ensures var s, s' := Exec(useCaller, acts).state, Exec(useCaller, acts + more).state;
            forall t :: t in s.threads ==> t in s'.threads && s'.threads[t].viaRoot == s.threads[t].viaRoot
    decreases |more|
  {
    Prefixes(useCaller, acts, more);
    if more == [] {
      assert acts + more == acts;
    } else {
      LastStep(useCaller, acts, more);
      RootStays(useCaller, acts, more[..|more| - 1]);
      hide Exec;
      RootStaysStep(Exec(useCaller, acts + more[..|more| - 1]).state, more[|more| - 1]);
    }
  }

  lemma RootStaysStep(s: State, act: Act)
    requires Enabled(s, act) && Safe(s, act)
    ensures forall t :: t in s.threads ==>
              t in Next(s, act).threads && Next(s, act).threads[t].viaRoot == s.threads[t].viaRoot
  {
    match Actor(act)
    case Some(u) => ActorThreads(s, act, u); RootStaysActor(s, act, u);
    case None => QuietThreads(s, act);
  }

  // A run after which a stop() called by a running callback fails: the root fiber that it
  // would resume is the one that the callback itself runs on.
  lemma NestedStopFails()
    ensures var acts := [SUBMIT, BeginStop, EnterRun(0, 2), PickTask(0), StartCallback(0, 3)];
            Exec(true, acts).Ok? && InSlice(Exec(true, acts).state, 0) && !StopOk(Exec(true, acts).state)
  {
    var a3 := [SUBMIT, BeginStop, EnterRun(0, 2)];
    var a4, a5 := a3 + [PickTask(0)], a3 + [PickTask(0)] + [StartCallback(0, 3)];
    hide *;
    FirstEntered();
    PickFirst(Exec(true, a3).state);
    GoesOn(true, a3, PickTask(0));
    var s4 := Exec(true, a4).state;
    GoesOn(true, a4, StartCallback(0, 3));
    CallbackRuns(s4);
    StopOkIff(true, a5);
    assert a5 == [SUBMIT, BeginStop, EnterRun(0, 2), PickTask(0), StartCallback(0, 3)];
  }

  lemma FirstEntered()
    ensures var o := Exec(true, [SUBMIT, BeginStop, EnterRun(0, 2)]); o.Ok? && Ready(o.state, AtHead)
  {
    var a1, a2, a3 := [SUBMIT], [SUBMIT, BeginStop], [SUBMIT, BeginStop, EnterRun(0, 2)];
    assert Exec(true, []) == Ok(Initial(true)) && [] + [SUBMIT] == a1 && a1 + [BeginStop] == a2
        && a2 + [EnterRun(0, 2)] == a3;
    hide *;
    SubmitFirst();
    GoesOn(true, [], SUBMIT);
    StopFirst(Exec(true, a1).state);
    GoesOn(true, a1, BeginStop);
    EnterFirst(Exec(true, a2).state);
    GoesOn(true, a2, EnterRun(0, 2));
  }

  const SUBMIT := Schedule(None, [(CallbackWork(7), None)], {})
  const FIRST := Task(0, CallbackWork(7), None)

  lemma SubmitFirst()
    ensures var s := Initial(true);
            && Enabled(s, SUBMIT)
            && (Safe(s, SUBMIT) ==>
                  Ready(Next(s, SUBMIT), Outside) && !Next(s, SUBMIT).q.stopping && 2 !in Next(s, SUBMIT).roles)
  {
    var batch: seq<(Work, Option<ThreadId>)> := [(CallbackWork(7), None)];
    var s := Initial(true);
    assert batch[1..] == [] && batch[0] == (CallbackWork(7), None);
    assert ScheduleAll(ScheduleOne(s, CallbackWork(7), None), batch[1..]) == ScheduleOne(s, CallbackWork(7), None);
  }

  // Thread 0 runs nothing, and one callback is in the queue.
  predicate Ready(s: State, phase: Phase) {
    && At(s, 0, phase) && s.threads[0].viaRoot && s.q.tasks == [FIRST] && 3 !in s.roles
  }

  lemma StopFirst(s: State)
    requires Ready(s, Outside) && !s.q.stopping && 2 !in s.roles
    ensures Enabled(s, BeginStop)
    ensures Safe(s, BeginStop) ==>
              && Ready(Next(s, BeginStop), Outside)
              && Next(s, BeginStop).q.stopping && 2 !in Next(s, BeginStop).roles
  {
  }

  lemma EnterFirst(s: State)
    requires Ready(s, Outside) && s.q.stopping && 2 !in s.roles
    ensures Enabled(s, EnterRun(0, 2))
    ensures Safe(s, EnterRun(0, 2)) ==> Ready(Next(s, EnterRun(0, 2)), AtHead)
  {
  }

  lemma PickFirst(s: State)
    requires Ready(s, AtHead)
    ensures Enabled(s, PickTask(0))
    ensures Safe(s, PickTask(0)) ==>
              && Enabled(Next(s, PickTask(0)), StartCallback(0, 3)) && Next(s, PickTask(0)).threads[0].viaRoot
              && Next(s, PickTask(0)).q.active > 0
  {
    assert Eligible(FIRST, 0, ExecFibers(s.fibers));
  }

  lemma CallbackRuns(s: State)
    requires Enabled(s, StartCallback(0, 3)) && Safe(s, StartCallback(0, 3)) && s.q.active > 0 && s.threads[0].viaRoot
    ensures var s' := Next(s, StartCallback(0, 3)); InSlice(s', 0) && s'.threads[0].viaRoot && !IsStopping(s'.q)
  {
  }

  // ---------- start() ----------

  // The threads that start() has created and stop() has not taken over, from the calls alone.
  function Unjoined(acts: seq<Act>): seq<ThreadId> {
    if acts == [] then []
    else
      var front := acts[..|acts| - 1];
      match acts[|acts| - 1]
      case Start(ids) => if BeginStop in front then ids else Unjoined(front)
      case TakePool => []
      case _ => Unjoined(front)
  }

  // The assertion of start() holds if and only if stop() has not been called yet, or every
  // thread of an earlier start() has been taken over.
  lemma StartOkIff(useCaller: bool, acts: seq<Act>)
    requires Exec(useCaller, acts).Ok?
    ensures StartOk(Exec(useCaller, acts).state) <==> BeginStop !in acts || Unjoined(acts) == []
  {
    PoolIsUnjoined(useCaller, acts);
  }

  lemma {:induction false} PoolIsUnjoined(useCaller: bool, acts: seq<Act>)
    requires Exec(useCaller, acts).Ok?
    ensures var s := Exec(useCaller, acts).state; s.pool == Unjoined(acts) && (s.q.stopping <==> BeginStop in acts)
  {
    if acts != [] {
      var front, act := acts[..|acts| - 1], acts[|acts| - 1];
      assert front + [act] == acts && [act][..0] == [] && front + [] == front;
      LastStep(useCaller, front, [act]);
      PoolIsUnjoined(useCaller, front);
      hide Exec;
      PoolStep(Exec(useCaller, front).state, act);
      assert BeginStop in acts <==> BeginStop in front || act == BeginStop;
    }
  }

  lemma PoolStep(s: State, act: Act)
    requires Enabled(s, act) && Safe(s, act)
    ensures var s' := Next(s, act);
            && (s'.q.stopping <==> s.q.stopping || act == BeginStop)
            && s'.pool == (if act.TakePool? then [] else if act.Start? && s.q.stopping then act.ids else s.pool)
  {
    if act.Schedule? {
      ScheduleAllSame(s, act.batch);
      LateTasks(s, act.batch);
    }
  }

  // Two calls of start() after stop(): the second fails.
  lemma SecondStartFails()
    ensures Exec(true, [BeginStop, Start([5])]).Ok? && !StartOk(Exec(true, [BeginStop, Start([5])]).state)
  {
    var a1, a2 := [BeginStop], [BeginStop, Start([5])];
    assert a1[..0] == [] && a2[..1] == a1 && [] + [BeginStop] == a1 && a1 + [Start([5])] == a2;
    assert Exec(true, []) == Ok(Initial(true));
    GoesOn(true, [], BeginStop);
    GoesOn(true, a1, Start([5]));
    assert BeginStop in a2 && Unjoined(a2) == [5];
    hide Exec;
    StartOkIff(true, a2);
  }

  // ---------- before stop() ----------

  predicate Early(useCaller: bool, s: State) {
    && (s.picks == [] ==> s.q.tasks == s.accepted)
    && (s.picks != [] ==> exists t :: t in s.threads && s.threads[t].phase != Outside)
    && (!s.q.stopping ==> s.created == {} && forall t :: t in s.threads ==> s.threads[t].phase == Outside)
    && (forall t :: t in s.threads ==> t in s.created || (useCaller && t == 0))
  }

  // Before stop() nothing is ever picked; and without a calling thread nothing is ever picked
  // unless start() is called after stop().  Everything that was accepted waits in the queue.
  lemma BeforeStopNothingRuns(useCaller: bool, acts: seq<Act>)
    requires Exec(useCaller, acts).Ok?
    ensures var s := Exec(useCaller, acts).state;
            && (BeginStop !in acts || (!useCaller && s.created == {}) ==> s.picks == [] && s.q.tasks == s.accepted)
            && (BeginStop !in acts ==> forall t :: t in s.threads ==> s.threads[t].phase == Outside)
  {
    StaysEarly(useCaller, acts);
    PoolIsUnjoined(useCaller, acts);
    hide Exec;
  }

  lemma {:induction false} StaysEarly(useCaller: bool, acts: seq<Act>)
    requires Exec(useCaller, acts).Ok?
    ensures Early(useCaller, Exec(useCaller, acts).state)
  {
    if acts != [] {
      var front, act := acts[..|acts| - 1], acts[|acts| - 1];
      assert front + [act] == acts && [act][..0] == [] && front + [] == front;
      LastStep(useCaller, front, [act]);
      StaysEarly(useCaller, front);
      hide Exec, Early;
      EarlyStep(useCaller, Exec(useCaller, front).state, act);
    }
  }

  lemma EarlyStep(useCaller: bool, s: State, act: Act)
    requires Early(useCaller, s) && Enabled(s, act) && Safe(s, act)
    ensures Early(useCaller, Next(s, act))
  {
    var s' := Next(s, act);
    PoolStep(s, act);
    EarlyHistory(s, act);
    EarlyThreads(s, act);
    match Actor(act)
    case Some(t) =>
      ActorThreads(s, act, t);
      hide Enabled, Safe, Next;
    case None =>
      QuietThreads(s, act);
      hide Enabled, Safe, Next;
  }

  lemma EarlyThreads(s: State, act: Act)
    requires Enabled(s, act) && Safe(s, act)
    ensures var s' := Next(s, act);
            && s.created <= s'.created && (!s.q.stopping ==> s'.created == s.created)
            && (forall t :: t in s'.threads ==> t in s.threads || t in s.created)
            && (Actor(act).Some? ==>
                  && (s.q.stopping || s.threads[Actor(act).value].phase != Outside)
                  && Actor(act).value in s'.threads && s'.threads[Actor(act).value].phase != Outside)
  {
    if act.Schedule? {
      ScheduleAllSame(s, act.batch);
    }
  }

  lemma EarlyHistory(s: State, act: Act)
    requires Enabled(s, act) && Safe(s, act)
    ensures var s' := Next(s, act);
            && s.picks <= s'.picks
            && (s'.picks == [] && s.q.tasks == s.accepted ==> s'.q.tasks == s'.accepted)
            && (s'.picks != s.picks ==> Actor(act).Some?)
  {
    if act.Schedule? {
      ScheduleAllSame(s, act.batch);
      AcceptedWait(s, act.batch);
    }
  }

  lemma {:induction false} AcceptedWait(s: State, batch: seq<(Work, Option<ThreadId>)>)
    ensures s.q.tasks == s.accepted ==> ScheduleAll(s, batch).q.tasks == ScheduleAll(s, batch).accepted
    decreases |batch|
  {
    if batch != [] {
      AcceptedWait(ScheduleOne(s, batch[0].0, batch[0].1), batch[1..]);
    }
  }
}
