/**
 Where control and tasks go, over every run, in terms of the fields themselves: a fiber goes
 on where it left, and a task is run by a thread that its pin allows.
 */
module MachineControl {
  import opened Outcomes
  import opened Fibers
  import opened Scheduling
  import opened Machine
  import opened MachineThreads
  import opened MachineOwnership
  import opened MachineCounts
  import opened MachineHistory
  import opened MachineSafety
  import opened MachineTheorems

  // ---------- a fiber goes on where it left ----------

  // The step makes f a new fiber: a client's, a callback's or an idle one.
  predicate Creates(act: Act, f: FiberId) {
    match act
    case CreateFiber(g) => g == f
    case EnterRun(_, idle) => idle == f
    case StartWorker(_, _, idle) => idle == f
    case _ => false
  }

  // The step gives control to f, whichever thread takes it.
  predicate ResumesFiber(s: State, act: Act, f: FiberId) {
    match act
    case ResumeTask(t) => t in s.threads && s.threads[t].task.Some? && s.threads[t].task.value.work == FiberWork(f)
    case StartCallback(t, g) => t in s.threads && f == if s.threads[t].cb.Some? then s.threads[t].cb.value else g
    case ResumeIdle(t) => t in s.threads && s.threads[t].idle == Some(f)
    case _ => false
  }

  // The step takes control from f, which has not returned.
  predicate YieldsFiber(s: State, act: Act, f: FiberId) {
    match act
    case Yield(t) => t in s.threads && s.threads[t].phase.Running? && s.threads[t].phase.fiber == f
    case LeaveIdle(t) => t in s.threads && s.threads[t].phase.IdleKnows? && s.threads[t].idle == Some(f)
    case _ => false
  }

  predicate NoResume(useCaller: bool, acts: seq<Act>, during: seq<Act>, f: FiberId) {
    forall i :: 0 <= i < |during| && Exec(useCaller, acts + during[..i]).Ok? ==>
      !ResumesFiber(Exec(useCaller, acts + during[..i]).state, during[i], f)
  }

  // A task or idle fiber that is not running, if it exists still, is as it was.
  predicate Rests(s: State, f: FiberId, r: Rec) {
    && f in s.roles && (s.roles[f].TaskFiber? || s.roles[f].IdleFiber?)
    && (f in s.fibers ==> s.fibers[f] == r)
  }

  // Whoever yielded it and whatever the others do in between, however many threads take part:
  // the next resume of a fiber finds the very point saved by the switch that left it.
  lemma ContinuesWhereItYielded(useCaller: bool, before: seq<Act>, leave: Act, during: seq<Act>, f: FiberId)
    requires Exec(useCaller, before + [leave] + during).Ok?
    requires Exec(useCaller, before).Ok? ==> YieldsFiber(Exec(useCaller, before).state, leave, f)
    requires NoResume(useCaller, before + [leave], during, f)
    ensures Exec(useCaller, before).Ok?
    ensures var s0, s := Exec(useCaller, before).state, Exec(useCaller, before + [leave] + during).state;
            f in s.fibers ==>
              && s.fibers[f].ctx == Saved(s0.clock)
              && (leave.Yield? ==> s.fibers[f].state == READY)
              && (leave.LeaveIdle? ==> s.fibers[f].state == if s0.threads[leave.t].phase.stop then TERM else READY)
  {
    Prefixes(useCaller, before + [leave], during);
    LastStep(useCaller, before, [leave]);
    assert before + [leave][..0] == before;
    var s0, s1 := Exec(useCaller, before).state, Exec(useCaller, before + [leave]).state;
    NeverCrashes(useCaller, before);
    assert Inv(s0);
    hide Exec, Sound, NoResume, Inv, Rests;
    var r := YieldSaves(s0, leave, f);
    StaysAtRest(useCaller, before + [leave], during, f, r);
    hide *;
    assert Rests(Exec(useCaller, before + [leave] + during).state, f, r);
  }

  lemma YieldSaves(s: State, act: Act, f: FiberId) returns (r: Rec)
    requires Inv(s) && Enabled(s, act) && Safe(s, act) && YieldsFiber(s, act, f)
    ensures r.ctx == Saved(s.clock) && r.state != EXEC
    ensures act.Yield? ==> r.state == READY
    ensures act.LeaveIdle? ==> r.state == if s.threads[act.t].phase.stop then TERM else READY
    ensures Rests(Next(s, act), f, r)
  {
    var t := act.t;
    Before(s, t);
    hide Inv, SharedOk, ClaimsApart;
    r := Next(s, act).fibers[f];
  }

  lemma {:induction false} StaysAtRest(useCaller: bool, acts: seq<Act>, during: seq<Act>, f: FiberId, r: Rec)
    requires Exec(useCaller, acts).Ok? && Exec(useCaller, acts + during).Ok? && NoResume(useCaller, acts, during, f)
    requires Rests(Exec(useCaller, acts).state, f, r) && r.state != EXEC
    ensures Rests(Exec(useCaller, acts + during).state, f, r)
    decreases |during|
  {
    if during == [] {
      assert acts + during == acts;
    } else {
      var front, act := during[..|during| - 1], during[|during| - 1];
      LastStep(useCaller, acts, during);
      assert NoResume(useCaller, acts, front, f) by { FewerResumes(useCaller, acts, during, f); }
      StaysAtRest(useCaller, acts, front, f, r);
      var s := Exec(useCaller, acts + front).state;
      assert !ResumesFiber(s, act, f);
      NeverCrashes(useCaller, acts + front);
      assert Inv(s);
      hide *;
      RestStep(s, act, f, r);
    }
  }

  lemma FewerResumes(useCaller: bool, acts: seq<Act>, during: seq<Act>, f: FiberId)
    requires during != [] && NoResume(useCaller, acts, during, f)
    ensures NoResume(useCaller, acts, during[..|during| - 1], f)
  {
    var front := during[..|during| - 1];
    hide Exec, ResumesFiber;
    forall i | 0 <= i < |front| && Exec(useCaller, acts + front[..i]).Ok?
      ensures !ResumesFiber(Exec(useCaller, acts + front[..i]).state, front[i], f)
    {
      assert front[..i] == during[..i];
    }
  }

  lemma RestStep(s: State, act: Act, f: FiberId, r: Rec)
    requires Inv(s) && Enabled(s, act) && Safe(s, act)
    requires Rests(s, f, r) && r.state != EXEC && !ResumesFiber(s, act, f)
    ensures Rests(Next(s, act), f, r)
  {
    match Actor(act)
    case Some(t) =>
      ActorThreads(s, act, t);
      Before(s, t);
      hide Inv, SharedOk, ClaimsApart, Enabled, Safe, Next, ThreadOk;
      RestOwn(s, act, t, f, r);
    case None =>
      hide Inv;
      RestQuiet(s, act, f, r);
  }

  lemma RestQuiet(s: State, act: Act, f: FiberId, r: Rec)
    requires Enabled(s, act) && Safe(s, act) && Actor(act) == None && Rests(s, f, r)
    ensures Rests(Next(s, act), f, r)
  {
    if act.Schedule? {
      ScheduleAllSame(s, act.batch);
    }
  }

  lemma RestOwn(s: State, act: Act, t: ThreadId, f: FiberId, r: Rec)
    requires Enabled(s, act) && Safe(s, act) && Actor(act) == Some(t)
    requires t in s.threads && ThreadOk(s, t, s.threads[t])
    requires Rests(s, f, r) && r.state != EXEC && !ResumesFiber(s, act, f)
    ensures Rests(Next(s, act), f, r)
  {
    if act.Exit? {
      RestExit(s, t, f, r);
      hide *;
    } else if act.StartCallback? {
      RestCallback(s, t, act.f, f, r);
      hide *;
    }
  }

  lemma RestCallback(s: State, t: ThreadId, g: FiberId, f: FiberId, r: Rec)
    requires Enabled(s, StartCallback(t, g)) && Safe(s, StartCallback(t, g))
    requires t in s.threads && ThreadOk(s, t, s.threads[t])
    requires Rests(s, f, r)
    ensures Rests(Next(s, StartCallback(t, g)), f, r)
  {
  }

  lemma RestExit(s: State, t: ThreadId, f: FiberId, r: Rec)
    requires Enabled(s, Exit(t)) && Safe(s, Exit(t))
    requires t in s.threads && ThreadOk(s, t, s.threads[t])
    requires Rests(s, f, r) && r.state != EXEC
    ensures Rests(Next(s, Exit(t)), f, r)
  {
  }

  // A fiber that was made and not resumed yet will be entered at its beginning.
  lemma FirstResumeEnters(useCaller: bool, before: seq<Act>, create: Act, during: seq<Act>, f: FiberId)
    requires Exec(useCaller, before + [create] + during).Ok? && Creates(create, f)
    requires NoResume(useCaller, before + [create], during, f)
    ensures var s := Exec(useCaller, before + [create] + during).state;
            f in s.fibers ==> s.fibers[f].ctx == Entry && s.fibers[f].state == READY && s.fibers[f].hasCb
  {
    Prefixes(useCaller, before + [create], during);
    LastStep(useCaller, before, [create]);
    assert before + [create][..0] == before;
    hide Exec, NoResume, Rests;
    NewRests(Exec(useCaller, before).state, create, f);
    StaysAtRest(useCaller, before + [create], during, f, NewFiber(true));
    hide *;
    assert Rests(Exec(useCaller, before + [create] + during).state, f, NewFiber(true));
  }

  lemma NewRests(s: State, act: Act, f: FiberId)
    requires Enabled(s, act) && Safe(s, act) && Creates(act, f)
    ensures Rests(Next(s, act), f, NewFiber(true)) && NewFiber(true).state != EXEC
  {
  }

  // Only a READY fiber is resumed and only an EXEC one yields; a callback gets a new fiber.
  // The fiber that a switch gives control to is the thread's current one; after a yield or an
  // end that is the thread's own.  Every switch has a number of its own.
  lemma SwitchesSetCurrent(useCaller: bool, acts: seq<Act>, act: Act, t: ThreadId)
    requires Exec(useCaller, acts + [act]).Ok? && Actor(act) == Some(t)
    ensures Exec(useCaller, acts).Ok?
    ensures var s, s' := Exec(useCaller, acts).state, Exec(useCaller, acts + [act]).state;
            && t in s.threads && t in s'.threads
            && (forall f: FiberId :: ResumesFiber(s, act, f) ==> s'.threads[t].locals.cur == Some(f))
            && (forall f: FiberId :: ResumesFiber(s, act, f) && !act.StartCallback? ==>
                  f in s.fibers && s.fibers[f].state == READY && f in s'.fibers && s'.fibers[f].state == EXEC)
            && (act.EnterRun? ==> s'.threads[t].locals.cur == s.threads[t].locals.scheduler)
            && (act.StartCallback? ==> act.f !in s.roles && s'.threads[t].locals.cur == Some(act.f))
            && (act.Yield? || act.Finish? || act.LeaveIdle? || (act.Exit? && s.threads[t].viaRoot) ==>
                  s'.threads[t].locals.cur == s.threads[t].locals.thread)
            && (act.Yield? || act.Finish? || act.LeaveIdle? ==>
                  var cur := s.threads[t].locals.cur;
                  cur.Some? && cur.value in s.fibers && s.fibers[cur.value].state == EXEC)
            && (act.PickTask? || act.Decrement? || act.Drop? || act.CheckStopping? ==>
                  s'.threads[t].locals == s.threads[t].locals)
            && s'.clock == s.clock + One(act.EnterRun? || act.ResumeTask? || act.StartCallback? || act.Yield?
                                         || act.Finish? || act.ResumeIdle? || act.LeaveIdle?
                                         || (act.Exit? && s.threads[t].viaRoot))
  {
    LastStep(useCaller, acts, [act]);
    assert acts + [act][..0] == acts;
    var s := Exec(useCaller, acts).state;
    NeverCrashes(useCaller, acts);
    assert Inv(s);
    hide Exec, Sound;
    Before(s, t);
    hide Inv, SharedOk, ClaimsApart, ThreadOk, Next, Enabled, Safe, ResumesFiber;
    SwitchSets(s, act, t);
  }

  lemma SwitchSets(s: State, act: Act, t: ThreadId)
    requires Enabled(s, act) && Safe(s, act) && Actor(act) == Some(t)
    requires t in s.threads && ThreadOk(s, t, s.threads[t])
    ensures var s' := Next(s, act);
            && t in s.threads && t in s'.threads
            && (forall f: FiberId :: ResumesFiber(s, act, f) ==> s'.threads[t].locals.cur == Some(f))
            && (forall f: FiberId :: ResumesFiber(s, act, f) && !act.StartCallback? ==>
                  f in s.fibers && s.fibers[f].state == READY && f in s'.fibers && s'.fibers[f].state == EXEC)
            && (act.EnterRun? ==> s'.threads[t].locals.cur == s.threads[t].locals.scheduler)
            && (act.StartCallback? ==> act.f !in s.roles && s'.threads[t].locals.cur == Some(act.f))
            && (act.Yield? || act.Finish? || act.LeaveIdle? || (act.Exit? && s.threads[t].viaRoot) ==>
                  s'.threads[t].locals.cur == s.threads[t].locals.thread)
            && (act.Yield? || act.Finish? || act.LeaveIdle? ==>
                  var cur := s.threads[t].locals.cur;
                  cur.Some? && cur.value in s.fibers && s.fibers[cur.value].state == EXEC)
            && (act.PickTask? || act.Decrement? || act.Drop? || act.CheckStopping? ==>
                  s'.threads[t].locals == s.threads[t].locals)
            && s'.clock == s.clock + One(act.EnterRun? || act.ResumeTask? || act.StartCallback? || act.Yield?
                                         || act.Finish? || act.ResumeIdle? || act.LeaveIdle?
                                         || (act.Exit? && s.threads[t].viaRoot))
  {
    Numbers(s, act, t);
  }

  lemma Numbers(s: State, act: Act, t: ThreadId)
    requires Enabled(s, act) && Safe(s, act) && Actor(act) == Some(t)
    ensures Next(s, act).clock ==
            s.clock + One(act.EnterRun? || act.ResumeTask? || act.StartCallback? || act.Yield? || act.Finish?
                          || act.ResumeIdle? || act.LeaveIdle? || (act.Exit? && s.threads[t].viaRoot))
  {
  }

  // ---------- who runs what ----------

  // What a thread has in hand is the task of its ticket.
  predicate HandsOk(s: State) {
    forall t :: t in s.threads && HandPhase(s.threads[t].phase) ==>
      && s.threads[t].ticket < |s.accepted|
      && var task := s.accepted[s.threads[t].ticket];
         if s.threads[t].task.Some? then s.threads[t].task.value == task else task.work.CallbackWork?
  }

  // A pinned task runs on the thread it is pinned to, whoever scheduled it and whatever the
  // order of steps, and no thread picks a fiber that was running during its scan.
  lemma PinsAreKept(useCaller: bool, acts: seq<Act>)
    requires Exec(useCaller, acts).Ok?
    ensures var s := Exec(useCaller, acts).state;
            && (forall k :: 0 <= k < |s.picks| ==> var p := s.picks[k];
                  && (p.task.pin == None || p.task.pin == Some(p.thread))
                  && (p.task.work.FiberWork? ==> p.task.work.fiber !in p.exec))
            && (forall t :: t in s.threads && HandPhase(s.threads[t].phase) ==>
                  && s.threads[t].ticket < |s.accepted|
                  && var task := s.accepted[s.threads[t].ticket];
                  && (if s.threads[t].task.Some? then s.threads[t].task.value == task else task.work.CallbackWork?)
                  && (task.pin == None || task.pin == Some(t)))
  {
    var s := Exec(useCaller, acts).state;
    NeverCrashes(useCaller, acts);
    HandsAreTickets(useCaller, acts);
    assert HistInv(HistOf(s));
    hide Exec, Sound, HandPhase;
    PickedAsPinned(HistOf(s));
    forall t | t in s.threads && HandPhase(s.threads[t].phase)
      ensures var i := s.threads[t].ticket;
              i < |s.accepted| && (s.accepted[i].pin == None || s.accepted[i].pin == Some(t))
    {
      assert t in HistOf(s).hands && HistOf(s).hands[t] == s.threads[t].ticket;
    }
  }

  lemma PickedAsPinned(h: Hist)
    requires TicketsOk(h) && PicksOk(h)
    ensures forall k :: 0 <= k < |h.picks| ==> var p := h.picks[k];
              && (p.task.pin == None || p.task.pin == Some(p.thread))
              && (p.task.work.FiberWork? ==> p.task.work.fiber !in p.exec)
    ensures forall t :: t in h.hands ==>
              && h.hands[t] < |h.accepted|
              && (h.accepted[h.hands[t]].pin == None || h.accepted[h.hands[t]].pin == Some(t))
  {
  }

  lemma {:induction false} HandsAreTickets(useCaller: bool, acts: seq<Act>)
    requires Exec(useCaller, acts).Ok?
    ensures HandsOk(Exec(useCaller, acts).state)
    decreases |acts|
  {
    if acts != [] {
      var front, act := acts[..|acts| - 1], acts[|acts| - 1];
      assert front + [act] == acts;
      LastStep(useCaller, front, [act]);
      assert front + [act][..0] == front;
      HandsAreTickets(useCaller, front);
      NeverCrashes(useCaller, front);
      var s := Exec(useCaller, front).state;
      assert HistInv(HistOf(s));
      hide Exec, Sound, HandsOk;
      HandsStep(s, act);
    }
  }

  lemma HandsStep(s: State, act: Act)
    requires HandsOk(s) && TicketsOk(HistOf(s)) && Enabled(s, act) && Safe(s, act)
    ensures HandsOk(Next(s, act))
  {
    match Actor(act)
    case Some(t) =>
      ActorThreads(s, act, t);
      OwnHand(s, act, t);
      hide *;
      HandsUpTo(s, Next(s, act), Some(t));
    case None =>
      AcceptedGrows(s, act);
      hide *;
      HandsUpTo(s, Next(s, act), None);
  }

  // Hands stay in order if all but that of `mover` are as before.
  lemma HandsUpTo(s: State, s': State, mover: Option<ThreadId>)
    requires HandsOk(s)
    requires |s.accepted| <= |s'.accepted| && s'.accepted[..|s.accepted|] == s.accepted
    requires forall t :: t in s'.threads && HandPhase(s'.threads[t].phase) ==>
               || (t in s.threads && s'.threads[t] == s.threads[t])
               || (mover == Some(t)
                   && s'.threads[t].ticket < |s'.accepted|
                   && var task := s'.accepted[s'.threads[t].ticket];
                      if s'.threads[t].task.Some? then s'.threads[t].task.value == task else task.work.CallbackWork?)
    ensures HandsOk(s')
  {
    hide HandPhase;
  }

  lemma OwnHand(s: State, act: Act, t: ThreadId)
    requires HandsOk(s) && TicketsOk(HistOf(s)) && Enabled(s, act) && Safe(s, act) && Actor(act) == Some(t)
    ensures var s' := Next(s, act);
            && s'.accepted == s.accepted && t in s'.threads
            && (HandPhase(s'.threads[t].phase) ==>
                  && s'.threads[t].ticket < |s.accepted|
                  && var task := s.accepted[s'.threads[t].ticket];
                     if s'.threads[t].task.Some? then s'.threads[t].task.value == task else task.work.CallbackWork?)
  {
    if act.PickTask? {
      hide HandsOk, TicketsOk;
      PickedHand(s, t);
    } else {
      hide TicketsOk, HistOf;
      KeptHand(s, act, t);
      hide Next, Enabled, Safe;
    }
  }

  lemma KeptHand(s: State, act: Act, t: ThreadId)
    requires Enabled(s, act) && Safe(s, act) && Actor(act) == Some(t) && !act.PickTask?
    ensures var s' := Next(s, act);
            && s'.accepted == s.accepted && t in s.threads && t in s'.threads
            && (HandPhase(s'.threads[t].phase) ==>
                  && HandPhase(s.threads[t].phase) && s'.threads[t].ticket == s.threads[t].ticket
                  && (|| s'.threads[t].task == s.threads[t].task
                      || (s'.threads[t].task == None && s.threads[t].task.Some?
                          && s.threads[t].task.value.work.CallbackWork?)))
  {
  }

  lemma PickedHand(s: State, t: ThreadId)
    requires TicketsOk(HistOf(s)) && Enabled(s, PickTask(t)) && Safe(s, PickTask(t))
    ensures var s' := Next(s, PickTask(t));
            && s'.accepted == s.accepted && t in s'.threads
            && (HandPhase(s'.threads[t].phase) ==>
                  && s'.threads[t].ticket < |s.accepted|
                  && s'.threads[t].task == Some(s.accepted[s'.threads[t].ticket]))
  {
    hide Hands;
    var k := FirstEligible(s.q.tasks, t, ExecFibers(s.fibers));
    assert HistOf(s).accepted == s.accepted && HistOf(s).tasks == s.q.tasks;
    if k < |s.q.tasks| {
      assert s.accepted[s.q.tasks[k].ticket] == s.q.tasks[k];
    }
    hide TicketsOk, HistOf;
  }

  // Nobody's hand changes, and a worker thread starts with an empty one.
  lemma AcceptedGrows(s: State, act: Act)
    requires Enabled(s, act) && Safe(s, act) && Actor(act) == None
    ensures var s' := Next(s, act);
            && |s.accepted| <= |s'.accepted| && s'.accepted[..|s.accepted|] == s.accepted
            && (forall t :: t in s'.threads && HandPhase(s'.threads[t].phase) ==>
                  t in s.threads && s'.threads[t] == s.threads[t])
  {
    if act.Schedule? {
      ScheduleAllSame(s, act.batch);
      PrefixAll(s, act.batch);
    }
  }

  lemma {:induction false} PrefixAll(s: State, batch: seq<(Work, Option<ThreadId>)>)
    ensures var s' := ScheduleAll(s, batch);
            |s.accepted| <= |s'.accepted| && s'.accepted[..|s.accepted|] == s.accepted
    decreases |batch|
  {
    if batch != [] {
      var s1 := ScheduleOne(s, batch[0].0, batch[0].1);
      PrefixAll(s1, batch[1..]);
      assert ScheduleAll(s, batch).accepted[..|s1.accepted|][..|s.accepted|] == s1.accepted[..|s.accepted|];
    }
  }

  // ---------- what a fiber has, by what it is ----------

  // A fiber has a callback until it ends, and only a thread's own fiber has neither stack nor
  // callback: the two cases that the destructor tells apart.
  predicate FieldsOk(s: State) {
    forall f :: f in s.fibers ==>
      && f in s.roles
      && var r := s.fibers[f];
      && (r.hasStack <==> !s.roles[f].ThreadFiber?)
      && (r.viaScheduler <==> s.roles[f].TaskFiber? || s.roles[f].IdleFiber?)
      && (r.hasCb <==> r.hasStack && r.state != TERM)
  }

  lemma {:induction false} FieldsFit(useCaller: bool, acts: seq<Act>)
    requires Exec(useCaller, acts).Ok?
    ensures FieldsOk(Exec(useCaller, acts).state)
    decreases |acts|
  {
    if acts != [] {
      var front, act := acts[..|acts| - 1], acts[|acts| - 1];
      assert front + [act] == acts;
      LastStep(useCaller, front, [act]);
      assert front + [act][..0] == front;
      FieldsFit(useCaller, front);
      NeverCrashes(useCaller, front);
      var s := Exec(useCaller, front).state;
      assert Inv(s);
      hide Exec, Sound, FieldsOk, Inv;
      FieldsStep(s, act);
    }
  }

  lemma FieldsStep(s: State, act: Act)
    requires Inv(s) && FieldsOk(s) && Enabled(s, act) && Safe(s, act)
    ensures FieldsOk(Next(s, act))
  {
    match Actor(act)
    case Some(t) =>
      ActorThreads(s, act, t);
      Before(s, t);
      hide Inv, SharedOk, ClaimsApart, FieldsOk, Enabled, Safe, Next, ThreadOk;
      FieldsOwn(s, act, t);
    case None =>
      hide Inv;
      FieldsQuiet(s, act);
  }

  lemma FieldsQuiet(s: State, act: Act)
    requires Enabled(s, act) && Safe(s, act) && Actor(act) == None && FieldsOk(s)
    ensures FieldsOk(Next(s, act))
  {
    if act.Schedule? {
      ScheduleAllSame(s, act.batch);
    }
  }

  lemma FieldsOwn(s: State, act: Act, t: ThreadId)
    requires Enabled(s, act) && Safe(s, act) && Actor(act) == Some(t) && FieldsOk(s)
    requires t in s.threads && ThreadOk(s, t, s.threads[t])
    ensures FieldsOk(Next(s, act))
  {
    if act.Exit? {
      FieldsExit(s, t);
      hide *;
    } else if act.StartCallback? {
      FieldsCallback(s, t, act.f);
      hide *;
    } else if act.EnterRun? {
      FieldsEnter(s, t, act.idle);
      hide *;
    } else if act.ResumeTask? || act.ResumeIdle? {
      FieldsResume(s, act, t);
      hide *;
    } else if act.Yield? || act.Finish? || act.LeaveIdle? {
      FieldsYield(s, act, t);
      hide *;
    }
  }

  lemma FieldsResume(s: State, act: Act, t: ThreadId)
    requires act == ResumeTask(t) || act == ResumeIdle(t)
    requires Enabled(s, act) && Safe(s, act) && FieldsOk(s)
    requires t in s.threads && ThreadOk(s, t, s.threads[t])
    ensures FieldsOk(Next(s, act))
  {
  }

  lemma FieldsYield(s: State, act: Act, t: ThreadId)
    requires act == Yield(t) || act == Finish(t) || act == LeaveIdle(t)
    requires Enabled(s, act) && Safe(s, act) && FieldsOk(s)
    requires t in s.threads && ThreadOk(s, t, s.threads[t])
    ensures FieldsOk(Next(s, act))
  {
  }

  lemma FieldsCallback(s: State, t: ThreadId, g: FiberId)
    requires Enabled(s, StartCallback(t, g)) && Safe(s, StartCallback(t, g)) && FieldsOk(s)
    requires t in s.threads && ThreadOk(s, t, s.threads[t])
    ensures FieldsOk(Next(s, StartCallback(t, g)))
  {
  }

  lemma FieldsEnter(s: State, t: ThreadId, idle: FiberId)
    requires Enabled(s, EnterRun(t, idle)) && Safe(s, EnterRun(t, idle)) && FieldsOk(s)
    requires t in s.threads && ThreadOk(s, t, s.threads[t])
    ensures FieldsOk(Next(s, EnterRun(t, idle)))
  {
  }

  lemma FieldsExit(s: State, t: ThreadId)
    requires Enabled(s, Exit(t)) && Safe(s, Exit(t)) && FieldsOk(s)
    requires t in s.threads && ThreadOk(s, t, s.threads[t])
    ensures FieldsOk(Next(s, Exit(t)))
  {
  }

  // ---------- what clients may do ----------

  // A fiber can be queued by whoever has a handle on it, or by itself, as long as it has not
  // ended and neither waits in the queue nor has been picked.
  predicate CanBeQueued(s: State, who: Option<ThreadId>, f: FiberId) {
    && f in s.roles && s.roles[f] == TaskFiber
    && (f in s.clients
        || (who.Some? && who.value in s.threads && s.threads[who.value].phase.Running?
            && s.threads[who.value].phase.fiber == f))
    && (f in s.fibers ==> s.fibers[f].state != TERM)
    && (forall j :: 0 <= j < |s.q.tasks| ==> s.q.tasks[j].work != FiberWork(f))
    && (forall t :: t in s.threads && s.threads[t].phase == Got && s.threads[t].task.Some? ==>
          s.threads[t].task.value.work != FiberWork(f))
  }

  // A call by a client or a task goes through, whatever came before, if and only if it keeps
  // the rule for that call: nothing else is asked of clients.
  lemma CallsGoThrough(useCaller: bool, acts: seq<Act>, act: Act)
    requires Exec(useCaller, acts).Ok?
    ensures var s := Exec(useCaller, acts).state; var ok := Exec(useCaller, acts + [act]).Ok?;
            && (act.CreateFiber? ==> (ok <==> act.f !in s.roles))
            && (act.ShareSelf? ==> (ok <==> act.t in s.threads && s.threads[act.t].phase.Running?))
            && (act.DropHandle? ==>
                  (ok <==> act.f in s.clients
                           && ((exists j :: 0 <= j < |s.accepted| && s.accepted[j].work == FiberWork(act.f))
                               || (act.f in s.fibers
                                   && (s.fibers[act.f].ctx.Saved? || s.fibers[act.f].state == EXEC)))))
            && (act.BeginStop? ==>
                  (ok <==> IsStopping(s.q) || !s.q.stopping
                           || forall u :: u in s.threads && s.threads[u].viaRoot ==> s.threads[u].phase == Left))
            && (act.EnterRun? ==>
                  (ok <==> At(s, act.t, Outside) && s.q.stopping && act.idle !in s.roles))
            && (act.StartWorker? ==>
                  (ok <==> act.t in s.created && act.t !in s.threads && act.threadFiber !in s.roles
                           && act.idle !in s.roles && act.idle != act.threadFiber))
  {
    var s := Exec(useCaller, acts).state;
    OkIffEnabled(useCaller, acts, act);
    hide Exec, Safe, Next;
  }

  lemma OkIffEnabled(useCaller: bool, acts: seq<Act>, act: Act)
    requires Exec(useCaller, acts).Ok?
    ensures Exec(useCaller, acts + [act]).Ok? <==> Enabled(Exec(useCaller, acts).state, act)
  {
    hide Enabled, Safe, Next;
    if Enabled(Exec(useCaller, acts).state, act) {
      GoesOn(useCaller, acts, act);
    } else {
      assert (acts + [act])[..|acts + [act]| - 1] == acts;
    }
  }

  // The same for scheduling one fiber or callback.
  lemma ScheduleGoesThrough(useCaller: bool, acts: seq<Act>, who: Option<ThreadId>, work: Work, pin: Option<ThreadId>)
    requires Exec(useCaller, acts).Ok?
    ensures var s := Exec(useCaller, acts).state;
            Exec(useCaller, acts + [Schedule(who, [(work, pin)], {})]).Ok? <==>
              && (if who.Some? then who.value in s.threads && s.threads[who.value].phase.Running? else !s.q.stopping)
              && (work.FiberWork? ==> CanBeQueued(s, who, work.fiber))
  {
    var s := Exec(useCaller, acts).state;
    var batch := [(work, pin)];
    OkIffEnabled(useCaller, acts, Schedule(who, batch, {}));
    hide Exec;
    assert batch[1..] == [];
    assert MayScheduleAll(s, who, batch) <==> MaySchedule(s, who, work) by {
      hide MaySchedule;
    }
    hide MayScheduleAll;
    QueueRule(s, who, work);
    hide MaySchedule, CanBeQueued;
  }

  lemma QueueRule(s: State, who: Option<ThreadId>, work: Work)
    ensures MaySchedule(s, who, work) <==> (work.FiberWork? ==> CanBeQueued(s, who, work.fiber))
  {
  }

  // What a call leaves behind: whose handles there are, what is queued, whether stop() has
  // been called, and who is in the pool.
  lemma CallsDo(useCaller: bool, acts: seq<Act>, act: Act)
    requires Exec(useCaller, acts + [act]).Ok?
    ensures Exec(useCaller, acts).Ok?
    ensures var s, s' := Exec(useCaller, acts).state, Exec(useCaller, acts + [act]).state;
            && (act.ShareSelf? ==> act.t in s.threads && s.threads[act.t].phase.Running?)
            && s'.clients == (if act.CreateFiber? then s.clients + {act.f}
                              else if act.DropHandle? then s.clients - {act.f}
                              else if act.ShareSelf? then s.clients + {s.threads[act.t].phase.fiber}
                              else if act.Schedule? then s.clients - act.moved
                              else s.clients)
            && s'.q.stopping == (s.q.stopping || act.BeginStop?)
            && s'.pool == (if act.Start? && s.q.stopping then act.ids else if act.TakePool? then [] else s.pool)
            && (forall t :: t in s'.created <==> t in s.created || (act.Start? && s.q.stopping && t in act.ids))
  {
    LastStep(useCaller, acts, [act]);
    assert acts + [act][..0] == acts;
    var s := Exec(useCaller, acts).state;
    hide Exec;
    if act.Schedule? {
      ScheduleAllSame(s, act.batch);
    } else {
      OtherCalls(s, act);
      hide Enabled, Safe, Next;
    }
  }

  lemma OtherCalls(s: State, act: Act)
    requires Enabled(s, act) && Safe(s, act) && !act.Schedule?
    ensures var s' := Next(s, act);
            && (act.ShareSelf? ==> act.t in s.threads && s.threads[act.t].phase.Running?)
            && s'.clients == (if act.CreateFiber? then s.clients + {act.f}
                              else if act.DropHandle? then s.clients - {act.f}
                              else if act.ShareSelf? then s.clients + {s.threads[act.t].phase.fiber}
                              else s.clients)
            && s'.q.stopping == (s.q.stopping || act.BeginStop?)
            && s'.pool == (if act.Start? && s.q.stopping then act.ids else if act.TakePool? then [] else s.pool)
            && (forall t :: t in s'.created <==> t in s.created || (act.Start? && s.q.stopping && t in act.ids))
  {
  }

  // A task that is scheduled stands at the end of the queue with its work and its pin.
  lemma ScheduleDoes(useCaller: bool, acts: seq<Act>, who: Option<ThreadId>, work: Work, pin: Option<ThreadId>,
                     moved: set<FiberId>)
    requires Exec(useCaller, acts + [Schedule(who, [(work, pin)], moved)]).Ok?
    ensures Exec(useCaller, acts).Ok?
    ensures var s := Exec(useCaller, acts).state;
            var s' := Exec(useCaller, acts + [Schedule(who, [(work, pin)], moved)]).state;
            var tasks := if work.NullWork? then [] else [Task(|s.accepted|, work, pin)];
            s'.q.tasks == s.q.tasks + tasks && s'.accepted == s.accepted + tasks
  {
    hide *;
    var act := Schedule(who, [(work, pin)], moved);
    LastStep(useCaller, acts, [act]);
    assert acts + [act][..0] == acts;
    var s := Exec(useCaller, acts).state;
    NeverCrashes(useCaller, acts);
    TicketsCount(s);
    OneScheduled(s, who, work, pin, moved);
  }

  lemma TicketsCount(s: State)
    requires Sound(s)
    ensures s.q.tickets == |s.accepted|
  {
    assert TicketsOk(HistOf(s));
  }

  lemma OneScheduled(s: State, who: Option<ThreadId>, work: Work, pin: Option<ThreadId>, moved: set<FiberId>)
    requires Enabled(s, Schedule(who, [(work, pin)], moved)) && Safe(s, Schedule(who, [(work, pin)], moved))
    ensures var s' := Next(s, Schedule(who, [(work, pin)], moved));
            var tasks := if work.NullWork? then [] else [Task(s.q.tickets, work, pin)];
            s'.q.tasks == s.q.tasks + tasks && s'.accepted == s.accepted + tasks
  {
    hide Enabled, Safe;
    var batch := [(work, pin)];
    assert batch[1..] == [];
    assert ScheduleAll(s, batch) == ScheduleOne(s, work, pin);
  }

  // Everything in the queue can be run: no null, no fiber that is gone or has ended, and no
  // fiber twice.
  lemma QueueIsSound(useCaller: bool, acts: seq<Act>)
    requires Exec(useCaller, acts).Ok?
    ensures var s := Exec(useCaller, acts).state;
            forall j :: 0 <= j < |s.q.tasks| ==> var work := s.q.tasks[j].work;
              && !work.NullWork?
              && (work.FiberWork? ==>
                    && work.fiber in s.fibers && s.fibers[work.fiber].state != TERM
                    && forall i :: 0 <= i < |s.q.tasks| && i != j ==> s.q.tasks[i].work != work)
  {
    NeverCrashes(useCaller, acts);
    var s := Exec(useCaller, acts).state;
    assert Inv(s) && QueueOk(s);
    hide Exec, Sound, Inv;
  }
}
