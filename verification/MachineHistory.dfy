/**
 Conservation and order: what happened to every task that was ever accepted.

 A ticket is the position of a task in scheduling order.  A `Hist` is the part of the
 machine's state that tells a ticket's fate; only scheduling, picking and dropping touch it.
 */
module MachineHistory {
  import opened Outcomes
  import opened Fibers
  import opened Scheduling
  import opened Machine
  import opened MachineCounts

  datatype Hist = Hist(accepted: seq<Task>, tasks: seq<Task>, tickets: nat, picks: seq<Pick>, done: set<nat>,
                       hands: map<ThreadId, nat>)

  predicate HandPhase(p: Phase) {
    p == Got || p.Running? || p == Returned || p == Dropping
  }

  // The tickets in hand, by thread: picked, and the slice not yet over.
  function Hands(threads: map<ThreadId, Thread>): map<ThreadId, nat> {
    map t | t in threads && HandPhase(threads[t].phase) :: threads[t].ticket
  }

  function HistOf(s: State): Hist {
    Hist(s.accepted, s.q.tasks, s.q.tickets, s.picks, s.done, Hands(s.threads))
  }

  // ---------- the steps of a history ----------

  function Accept(h: Hist, work: Work, pin: Option<ThreadId>): Hist {
    if work.NullWork? then h
    else
      var task := Task(h.tickets, work, pin);
      h.(accepted := h.accepted + [task], tasks := h.tasks + [task], tickets := h.tickets + 1)
  }

  function AcceptAll(h: Hist, batch: seq<(Work, Option<ThreadId>)>): Hist
    decreases |batch|
  {
    if batch == [] then h else AcceptAll(Accept(h, batch[0].0, batch[0].1), batch[1..])
  }

  function Take(h: Hist, t: ThreadId, exec: set<FiberId>): Hist {
    var k := FirstEligible(h.tasks, t, exec);
    if k == |h.tasks| then h
    else h.(tasks := h.tasks[..k] + h.tasks[k + 1..], picks := h.picks + [Pick(h.tasks[k], t, exec)],
            hands := h.hands[t := h.tasks[k].ticket])
  }

  function PutDown(h: Hist, t: ThreadId): Hist
    requires t in h.hands
  {
    h.(done := h.done + {h.hands[t]}, hands := h.hands - {t})
  }

  // ---------- tickets ----------

  predicate TicketsOk(h: Hist) {
    && h.tickets == |h.accepted|
    && (forall i :: 0 <= i < |h.accepted| ==> h.accepted[i].ticket == i)
    && (forall j :: 0 <= j < |h.tasks| ==>
          h.tasks[j].ticket < |h.accepted| && h.accepted[h.tasks[j].ticket] == h.tasks[j])
    && (forall i, j :: 0 <= i < j < |h.tasks| ==> h.tasks[i].ticket < h.tasks[j].ticket)
  }

  predicate Waiting(h: Hist, i: nat) {
    exists j :: 0 <= j < |h.tasks| && h.tasks[j].ticket == i
  }

  predicate InHands(h: Hist, i: nat) {
    exists t :: t in h.hands && h.hands[t] == i
  }

  predicate WasPicked(h: Hist, i: nat) {
    exists k :: 0 <= k < |h.picks| && h.picks[k].task.ticket == i
  }

  // Every accepted task is in exactly one place: queued, in one thread's hand, or done.
  predicate Partitioned(h: Hist) {
    && (forall i :: 0 <= i < |h.accepted| ==> Waiting(h, i) || InHands(h, i) || i in h.done)
    && (forall t :: t in h.hands ==> h.hands[t] < |h.accepted| && !Waiting(h, h.hands[t]) && h.hands[t] !in h.done)
    && (forall t, u :: t in h.hands && u in h.hands && h.hands[t] == h.hands[u] ==> t == u)
    && (forall i :: i in h.done ==> i < |h.accepted| && !Waiting(h, i))
  }

  // Every task outside the queue was picked once, by a thread that was allowed to take it.
  predicate PicksOk(h: Hist) {
    && (forall k :: 0 <= k < |h.picks| ==>
          var p := h.picks[k];
          && p.task.ticket < |h.accepted| && h.accepted[p.task.ticket] == p.task && !Waiting(h, p.task.ticket)
          && Eligible(p.task, p.thread, p.exec))
    && (forall k, l :: 0 <= k < l < |h.picks| ==> h.picks[k].task.ticket != h.picks[l].task.ticket)
    && (forall i :: 0 <= i < |h.accepted| ==> Waiting(h, i) || WasPicked(h, i))
    && (forall t :: t in h.hands ==>
          exists k :: 0 <= k < |h.picks| && h.picks[k].thread == t && h.picks[k].task.ticket == h.hands[t])
  }

  // A pick may pass over a task only if the thread was not allowed to take it then.
  predicate Fair(h: Hist) {
    && (forall k, j :: 0 <= k < |h.picks| && 0 <= j < |h.tasks| && h.tasks[j].ticket < h.picks[k].task.ticket ==>
          !Eligible(h.tasks[j], h.picks[k].thread, h.picks[k].exec))
    && (forall k, l :: 0 <= k < l < |h.picks| && h.picks[l].task.ticket < h.picks[k].task.ticket ==>
          !Eligible(h.picks[l].task, h.picks[k].thread, h.picks[k].exec))
  }

  predicate HistInv(h: Hist) {
    TicketsOk(h) && Partitioned(h) && PicksOk(h) && Fair(h)
  }

  // ---------- accepting ----------

  lemma AcceptWaiting(h: Hist, work: Work, pin: Option<ThreadId>)
    requires !work.NullWork?
    ensures forall i: nat :: Waiting(Accept(h, work, pin), i) <==> Waiting(h, i) || i == h.tickets
  {
    var h' := Accept(h, work, pin);
    var n := |h.tasks|;
    assert forall j :: 0 <= j < n ==> h'.tasks[j] == h.tasks[j];
    assert h'.tasks[n].ticket == h.tickets;
  }

  lemma KeepsAccept(h: Hist, work: Work, pin: Option<ThreadId>)
    requires HistInv(h)
    ensures HistInv(Accept(h, work, pin))
  {
    if !work.NullWork? {
      var h' := Accept(h, work, pin);
      AcceptWaiting(h, work, pin);
      AcceptTickets(h, work, pin);
      assert Partitioned(h') && PicksOk(h') by { AcceptPlaces(h, work, pin); }
      assert Fair(h') by { AcceptFair(h, work, pin); }
    }
  }

  lemma AcceptTickets(h: Hist, work: Work, pin: Option<ThreadId>)
    requires TicketsOk(h)
    ensures TicketsOk(Accept(h, work, pin))
  {
  }

  lemma AcceptPlaces(h: Hist, work: Work, pin: Option<ThreadId>)
    requires HistInv(h) && !work.NullWork?
    ensures var h' := Accept(h, work, pin); Partitioned(h') && PicksOk(h')
  {
    var h' := Accept(h, work, pin);
    AcceptWaiting(h, work, pin);
    assert forall i: nat :: InHands(h', i) <==> InHands(h, i);
    assert forall i: nat :: WasPicked(h', i) <==> WasPicked(h, i);
    assert h'.picks == h.picks && h'.hands == h.hands && h'.done == h.done && |h'.accepted| == |h.accepted| + 1;
    assert forall i :: 0 <= i < |h.accepted| ==> h'.accepted[i] == h.accepted[i];
    assert h.tickets == |h.accepted|;
    hide Waiting, InHands, WasPicked, TicketsOk, Fair, Accept;
  }

  lemma AcceptFair(h: Hist, work: Work, pin: Option<ThreadId>)
    requires TicketsOk(h) && PicksOk(h) && Fair(h)
    ensures Fair(Accept(h, work, pin))
  {
  }

  lemma {:induction false} KeepsAcceptAll(h: Hist, batch: seq<(Work, Option<ThreadId>)>)
    requires HistInv(h)
    ensures HistInv(AcceptAll(h, batch))
    decreases |batch|
  {
    if batch != [] {
      KeepsAccept(h, batch[0].0, batch[0].1);
      hide HistInv, Accept;
      KeepsAcceptAll(Accept(h, batch[0].0, batch[0].1), batch[1..]);
    }
  }

  // ---------- taking ----------

  lemma TakeWaiting(h: Hist, t: ThreadId, exec: set<FiberId>)
    requires TicketsOk(h) && FirstEligible(h.tasks, t, exec) < |h.tasks|
    ensures var x := h.tasks[FirstEligible(h.tasks, t, exec)].ticket;
            forall i: nat :: Waiting(Take(h, t, exec), i) <==> Waiting(h, i) && i != x
  {
    var k, h' := FirstEligible(h.tasks, t, exec), Take(h, t, exec);
    var x := h.tasks[k].ticket;
    assert forall j :: 0 <= j < |h'.tasks| ==> h'.tasks[j] == h.tasks[if j < k then j else j + 1];
    forall i: nat | Waiting(h, i) && i != x
      ensures Waiting(h', i)
    {
      var j :| 0 <= j < |h.tasks| && h.tasks[j].ticket == i;
      assert h'.tasks[if j < k then j else j - 1] == h.tasks[j];
    }
  }

  lemma KeepsTake(h: Hist, t: ThreadId, exec: set<FiberId>)
    requires HistInv(h) && t !in h.hands
    ensures HistInv(Take(h, t, exec))
  {
    if FirstEligible(h.tasks, t, exec) < |h.tasks| {
      TakeTickets(h, t, exec);
      TakePartition(h, t, exec);
      TakePicks(h, t, exec);
      TakeFair(h, t, exec);
      hide TicketsOk, Partitioned, PicksOk, Fair;
    }
  }

  lemma TakeTickets(h: Hist, t: ThreadId, exec: set<FiberId>)
    requires TicketsOk(h)
    ensures TicketsOk(Take(h, t, exec))
  {
    var k, h' := FirstEligible(h.tasks, t, exec), Take(h, t, exec);
    if k < |h.tasks| {
      assert forall j :: 0 <= j < |h'.tasks| ==> h'.tasks[j] == h.tasks[if j < k then j else j + 1];
    }
  }

  lemma TakePartition(h: Hist, t: ThreadId, exec: set<FiberId>)
    requires TicketsOk(h) && Partitioned(h) && t !in h.hands && FirstEligible(h.tasks, t, exec) < |h.tasks|
    ensures Partitioned(Take(h, t, exec))
  {
    var k, h' := FirstEligible(h.tasks, t, exec), Take(h, t, exec);
    var x := h.tasks[k].ticket;
    TakeWaiting(h, t, exec);
    assert Waiting(h, x) && x < |h.accepted|;
    assert h'.hands == h.hands[t := x] && h'.done == h.done && h'.accepted == h.accepted;
    assert forall i: nat :: InHands(h, i) ==> InHands(h', i) by {
      forall i: nat | InHands(h, i)
        ensures InHands(h', i)
      {
        var u :| u in h.hands && h.hands[u] == i;
        assert u in h'.hands && h'.hands[u] == i;
      }
    }
    assert InHands(h', x) by { assert t in h'.hands && h'.hands[t] == x; }
    hide Waiting, InHands, TicketsOk, Take, FirstEligible;
  }

  lemma TakePicks(h: Hist, t: ThreadId, exec: set<FiberId>)
    requires TicketsOk(h) && PicksOk(h) && t !in h.hands && FirstEligible(h.tasks, t, exec) < |h.tasks|
    ensures PicksOk(Take(h, t, exec))
  {
    var h', p := Take(h, t, exec), Pick(h.tasks[FirstEligible(h.tasks, t, exec)], t, exec);
    TakeWaiting(h, t, exec);
    assert Waiting(h, p.task.ticket) && p.task.ticket < |h.accepted| && h.accepted[p.task.ticket] == p.task;
    assert Eligible(p.task, t, exec);
    assert h'.picks == h.picks + [p] && h'.hands == h.hands[t := p.task.ticket] && h'.accepted == h.accepted;
    hide *;
    PicksOkSnoc(h, h', p);
  }

  lemma PicksOkSnoc(h: Hist, h': Hist, p: Pick)
    requires PicksOk(h) && h'.picks == h.picks + [p] && h'.hands == h.hands[p.thread := p.task.ticket]
    requires h'.accepted == h.accepted && p.task.ticket < |h.accepted| && h.accepted[p.task.ticket] == p.task
    requires Eligible(p.task, p.thread, p.exec) && Waiting(h, p.task.ticket)
    requires forall i: nat :: Waiting(h', i) <==> Waiting(h, i) && i != p.task.ticket
    ensures PicksOk(h')
  {
    var n := |h.picks|;
    assert forall k :: 0 <= k < n ==> h'.picks[k] == h.picks[k];
    assert h'.picks[n] == p;
    assert forall i: nat :: WasPicked(h, i) ==> WasPicked(h', i);
    assert WasPicked(h', p.task.ticket);
    hide Waiting, WasPicked, Eligible;
    forall u | u in h'.hands
      ensures exists l :: 0 <= l < |h'.picks| && h'.picks[l].thread == u && h'.picks[l].task.ticket == h'.hands[u]
    {
      if u == p.thread {
        assert h'.picks[n].thread == u;
      } else {
        var l :| 0 <= l < n && h.picks[l].thread == u && h.picks[l].task.ticket == h.hands[u];
        assert h'.picks[l] == h.picks[l];
      }
    }
  }

  lemma TakeFair(h: Hist, t: ThreadId, exec: set<FiberId>)
    requires TicketsOk(h) && Fair(h) && FirstEligible(h.tasks, t, exec) < |h.tasks|
    ensures Fair(Take(h, t, exec))
  {
    var k, h' := FirstEligible(h.tasks, t, exec), Take(h, t, exec);
    assert forall j :: 0 <= j < |h'.tasks| ==> h'.tasks[j] == h.tasks[if j < k then j else j + 1];
    assert h'.picks == h.picks + [Pick(h.tasks[k], t, exec)];
    hide Eligible, Take, FirstEligible;
    FairSnoc(h, h', k, Pick(h.tasks[k], t, exec));
  }

  lemma FairSnoc(h: Hist, h': Hist, k: nat, p: Pick)
    requires Fair(h) && k < |h.tasks| && h.tasks[k] == p.task && h'.picks == h.picks + [p]
    requires |h'.tasks| == |h.tasks| - 1
    requires forall j :: 0 <= j < |h'.tasks| ==> h'.tasks[j] == h.tasks[if j < k then j else j + 1]
    requires forall j :: 0 <= j < k ==> !Eligible(h.tasks[j], p.thread, p.exec)
    requires forall i, j :: 0 <= i < j < |h.tasks| ==> h.tasks[i].ticket < h.tasks[j].ticket
    ensures Fair(h')
  {
    hide Eligible;
    var n := |h.picks|;
    assert forall l :: 0 <= l < n ==> h'.picks[l] == h.picks[l];
    assert h'.picks[n] == p;
  }

  // ---------- putting down ----------

  lemma KeepsPutDown(h: Hist, t: ThreadId)
    requires HistInv(h) && t in h.hands
    ensures HistInv(PutDown(h, t))
  {
    var h' := PutDown(h, t);
    assert forall i: nat :: Waiting(h', i) <==> Waiting(h, i);
    assert forall i: nat :: WasPicked(h', i) <==> WasPicked(h, i);
    assert TicketsOk(h') && Fair(h');
    hide TicketsOk, Waiting, WasPicked, Eligible, Fair, Partitioned;
    assert PicksOk(h');
    hide PicksOk;
    assert Partitioned(h') by { PutDownPartition(h, t); }
  }

  lemma PutDownPartition(h: Hist, t: ThreadId)
    requires Partitioned(h) && t in h.hands
    ensures Partitioned(PutDown(h, t))
  {
    var h' := PutDown(h, t);
    assert forall i: nat :: Waiting(h', i) <==> Waiting(h, i);
    forall i: nat | InHands(h, i) && i != h.hands[t]
      ensures InHands(h', i)
    {
      var u :| u in h.hands && h.hands[u] == i;
      assert u in h'.hands && h'.hands[u] == i;
    }
    hide Waiting, InHands;
  }

  // ---------- the machine ----------

  lemma {:induction false} ScheduleAllHist(s: State, batch: seq<(Work, Option<ThreadId>)>)
    ensures HistOf(ScheduleAll(s, batch)) == AcceptAll(HistOf(s), batch)
    decreases |batch|
  {
    if batch != [] {
      var s1 := ScheduleOne(s, batch[0].0, batch[0].1);
      assert HistOf(s1) == Accept(HistOf(s), batch[0].0, batch[0].1) by { ScheduleOneHist(s, batch[0].0, batch[0].1); }
      hide HistOf, ScheduleOne, Accept;
      ScheduleAllHist(s1, batch[1..]);
    }
  }

  lemma ScheduleOneHist(s: State, work: Work, pin: Option<ThreadId>)
    ensures HistOf(ScheduleOne(s, work, pin)) == Accept(HistOf(s), work, pin)
  {
  }

  lemma HandsUpdated(threads: map<ThreadId, Thread>, t: ThreadId, th: Thread)
    ensures Hands(threads[t := th]) ==
            if HandPhase(th.phase) then Hands(threads)[t := th.ticket] else Hands(threads) - {t}
  {
  }

  // What a step is, seen from the history.
  function HistNext(s: State, act: Act): Hist
    requires act.Drop? ==> act.t in Hands(s.threads)
  {
    match act
    case Schedule(_, batch, _) => AcceptAll(HistOf(s), batch)
    case PickTask(t) => Take(HistOf(s), t, ExecFibers(s.fibers))
    case Drop(t) => PutDown(HistOf(s), t)
    case _ => HistOf(s)
  }

  lemma HistStep(s: State, act: Act)
    requires Enabled(s, act) && Safe(s, act)
    ensures act.Drop? ==> act.t in Hands(s.threads)
    ensures HistOf(Next(s, act)) == HistNext(s, act)
  {
    match act
    case Schedule(_, batch, moved) =>
      ScheduleAllHist(s, batch);
      assert Next(s, act) == ScheduleAll(s, batch).(clients := s.clients - moved);
      hide Enabled, Safe, Next, ScheduleAll, AcceptAll;
    case PickTask(t) => HistPick(s, t);
    case Drop(t) => HistDrop(s, t);
    case _ => HistOther(s, act);
  }

  lemma HistPick(s: State, t: ThreadId)
    requires Enabled(s, PickTask(t)) && Safe(s, PickTask(t))
    ensures HistOf(Next(s, PickTask(t))) == Take(HistOf(s), t, ExecFibers(s.fibers))
  {
    var s' := Next(s, PickTask(t));
    HandsUpdated(s.threads, t, s'.threads[t]);
    assert s'.threads == s.threads[t := s'.threads[t]];
    assert t !in Hands(s.threads);
    assert s'.threads[t].phase == NoTask ==> Hands(s.threads) - {t} == Hands(s.threads);
    hide Hands;
  }

  lemma HistDrop(s: State, t: ThreadId)
    requires Enabled(s, Drop(t)) && Safe(s, Drop(t))
    ensures t in Hands(s.threads) && HistOf(Next(s, Drop(t))) == PutDown(HistOf(s), t)
  {
    var s' := Next(s, Drop(t));
    HandsUpdated(s.threads, t, s'.threads[t]);
    assert s'.threads == s.threads[t := s'.threads[t]] && s'.threads[t].phase == AtHead;
    assert t in Hands(s.threads) && Hands(s.threads)[t] == s.threads[t].ticket;
    hide Hands;
  }

  lemma HistOther(s: State, act: Act)
    requires !act.Schedule? && !act.PickTask? && !act.Drop? && Enabled(s, act) && Safe(s, act)
    ensures HistOf(Next(s, act)) == HistOf(s)
  {
    var s' := Next(s, act);
    match Actor(act)
    case Some(t) =>
      ActorThreads(s, act, t);
      HistOtherActor(s, act, t);
      hide Enabled, Safe, Next;
      HandsSame(s.threads, t, s'.threads[t]);
    case None =>
      if act.StartWorker? {
        HandsUpdated(s.threads, act.t, s'.threads[act.t]);
        assert Hands(s.threads) - {act.t} == Hands(s.threads);
      }
  }

  lemma HandsSame(threads: map<ThreadId, Thread>, t: ThreadId, th: Thread)
    requires t in threads && HandPhase(threads[t].phase) == HandPhase(th.phase) && th.ticket == threads[t].ticket
    ensures Hands(threads[t := th]) == Hands(threads)
  {
  }

  lemma HistOtherActor(s: State, act: Act, t: ThreadId)
    requires !act.Schedule? && !act.PickTask? && !act.Drop? && Enabled(s, act) && Safe(s, act) && Actor(act) == Some(t)
    ensures var s' := Next(s, act);
            && t in s.threads && t in s'.threads
            && s'.accepted == s.accepted && s'.q.tasks == s.q.tasks && s'.q.tickets == s.q.tickets
            && s'.picks == s.picks && s'.done == s.done
            && s'.threads[t].ticket == s.threads[t].ticket
            && HandPhase(s.threads[t].phase) == HandPhase(s'.threads[t].phase)
  {
  }

  lemma KeepsHist(s: State, act: Act)
    requires HistInv(HistOf(s)) && Enabled(s, act) && Safe(s, act)
    ensures HistInv(HistOf(Next(s, act)))
  {
    HistStep(s, act);
    match act
    case Schedule(_, batch, _) =>
      hide Enabled, Safe, Next, HistInv;
      KeepsAcceptAll(HistOf(s), batch);
    case PickTask(t) =>
      assert t !in Hands(s.threads);
      hide Enabled, Safe, Next, HistInv;
      KeepsTake(HistOf(s), t, ExecFibers(s.fibers));
    case Drop(t) =>
      hide Enabled, Safe, Next, HistInv;
      KeepsPutDown(HistOf(s), t);
    case _ =>
  }

  lemma InitialHist(useCaller: bool)
    ensures HistInv(HistOf(Initial(useCaller)))
  {
  }
}
