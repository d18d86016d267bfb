/**
 The scheduler's shared queue and counters, and its lock-protected blocks
 (code/common/scheduler.h:74-142, code/common/scheduler.cpp:59-72,141-175,221-224).

 `Sched` is the state as a value with a function for each block; the class `Scheduler` has
 the source's fields and is proved against those functions.  Every accepted task carries a
 ticket, its position in scheduling order: history that the code itself does not keep.
 */
module Scheduling {
  import opened Outcomes
  import opened Fibers

  // What a task holds: a fiber, a callback, or (a null pointer was scheduled) nothing.
  datatype Work =
    | FiberWork(fiber: FiberId)
    | CallbackWork(cb: nat)
    | NullWork

  datatype Task = Task(ticket: nat, work: Work, pin: Option<ThreadId>)

  datatype Sched = Sched(tasks: seq<Task>, tickets: nat, active: nat, idle: nat, stopping: bool)

  // ---------- scheduling ----------

  // Null tasks are dropped without a word.
  function Scheduled(q: Sched, work: Work, pin: Option<ThreadId>): Sched {
    if work.NullWork? then q
    else q.(tasks := q.tasks + [Task(q.tickets, work, pin)], tickets := q.tickets + 1)
  }

  // The range overload: unpinned, under one lock.
  function ScheduledAll(q: Sched, works: seq<Work>): Sched {
    if works == [] then q
    else Scheduled(ScheduledAll(q, works[..|works| - 1]), works[|works| - 1], None)
  }

  function Stamped(works: seq<Work>, ticket: nat): seq<Task> {
    if works == [] then []
    else if works[0].NullWork? then Stamped(works[1..], ticket)
    else [Task(ticket, works[0], None)] + Stamped(works[1..], ticket + 1)
  }

  lemma {:induction false} StampedSnoc(works: seq<Work>, last: Work, ticket: nat)
    ensures Stamped(works + [last], ticket) ==
            Stamped(works, ticket) +
            if last.NullWork? then [] else [Task(ticket + |Stamped(works, ticket)|, last, None)]
  {
    if works != [] {
      assert (works + [last])[1..] == works[1..] + [last];
      StampedSnoc(works[1..], last, if works[0].NullWork? then ticket else ticket + 1);
    }
  }

  // A range is added as one contiguous block, in its own order, without its nulls.
  lemma {:induction false} RangeIsContiguous(q: Sched, works: seq<Work>)
    ensures var block := Stamped(works, q.tickets);
            ScheduledAll(q, works) == q.(tasks := q.tasks + block, tickets := q.tickets + |block|)
  {
    if works == [] {
      assert q.tasks + [] == q.tasks;
    } else {
      var front, last := works[..|works| - 1], works[|works| - 1];
      RangeIsContiguous(q, front);
      StampedSnoc(front, last, q.tickets);
      assert front + [last] == works;
      if last.NullWork? {
        assert Stamped(front, q.tickets) + [] == Stamped(front, q.tickets);
      }
    }
  }

  // ---------- picking ----------

  // Whether thread t may take the task, given the fibers that are running somewhere.
  predicate Eligible(task: Task, t: ThreadId, exec: set<FiberId>) {
    && (task.pin == None || task.pin == Some(t))
    && !(task.work.FiberWork? && task.work.fiber in exec)
  }

  // The same in the words of the scan: it skips a task that is pinned to another thread, and
  // one whose fiber is running.
  lemma EligibleIff(task: Task, t: ThreadId, exec: set<FiberId>)
    ensures !Eligible(task, t, exec) <==>
              || (task.pin.Some? && task.pin.value != t)
              || (task.work.FiberWork? && task.work.fiber in exec)
  {
  }

  // The first task that is neither pinned elsewhere nor running.
  function FirstEligible(tasks: seq<Task>, t: ThreadId, exec: set<FiberId>): (k: nat)
    ensures k <= |tasks|
    ensures forall j :: 0 <= j < k ==> !Eligible(tasks[j], t, exec)
    ensures k < |tasks| ==> Eligible(tasks[k], t, exec)
  {
    if tasks == [] || Eligible(tasks[0], t, exec) then 0
    else
      assert forall j :: 1 <= j < |tasks| ==> tasks[j] == tasks[1..][j - 1];
      1 + FirstEligible(tasks[1..], t, exec)
  }

  function Picked(q: Sched, t: ThreadId, exec: set<FiberId>): (r: (Sched, Option<Task>))
  {
    var k := FirstEligible(q.tasks, t, exec);
    if k == |q.tasks| then (q, None)
    else (q.(tasks := q.tasks[..k] + q.tasks[k + 1..], active := q.active + 1), Some(q.tasks[k]))
  }

  // A pick takes the first task that is not pinned to another thread and whose fiber, if it is
  // one, runs nowhere; it counts the thread as active and leaves the others in order.
  lemma PickedIs(q: Sched, t: ThreadId, exec: set<FiberId>)
    ensures var r, task := Picked(q, t, exec).0, Picked(q, t, exec).1;
            if task.None? then
              && r == q
              && forall j :: 0 <= j < |q.tasks| ==>
                   || (q.tasks[j].pin.Some? && q.tasks[j].pin.value != t)
                   || (q.tasks[j].work.FiberWork? && q.tasks[j].work.fiber in exec)
            else
              && r.active == q.active + 1
              && (task.value.pin == None || task.value.pin == Some(t))
              && (task.value.work.FiberWork? ==> task.value.work.fiber !in exec)
              && exists k :: 0 <= k < |q.tasks| && q.tasks[k] == task.value
                    && r.tasks == q.tasks[..k] + q.tasks[k + 1..]
                    && forall j :: 0 <= j < k ==>
                         || (q.tasks[j].pin.Some? && q.tasks[j].pin.value != t)
                         || (q.tasks[j].work.FiberWork? && q.tasks[j].work.fiber in exec)
  {
    var k := FirstEligible(q.tasks, t, exec);
    forall j | 0 <= j < |q.tasks|
      ensures !Eligible(q.tasks[j], t, exec) <==>
                || (q.tasks[j].pin.Some? && q.tasks[j].pin.value != t)
                || (q.tasks[j].work.FiberWork? && q.tasks[j].work.fiber in exec)
    {
      EligibleIff(q.tasks[j], t, exec);
    }
  }

  // The assertion in the scan: no task in the queue is empty.
  predicate NoNulls(q: Sched) {
    forall j :: 0 <= j < |q.tasks| ==> !q.tasks[j].work.NullWork?
  }

  predicate Queued(q: Sched, f: FiberId) {
    exists j :: 0 <= j < |q.tasks| && q.tasks[j].work == FiberWork(f)
  }

  predicate IsStopping(q: Sched) {
    q.stopping && q.tasks == [] && q.active == 0
  }

  // ---------- the class ----------

  class Scheduler {
    const threadCount: nat
    var m_tasks: seq<Task>
    var m_activeThreadCount: nat
    var m_idleThreadCount: nat
    var m_stopping: bool
    var m_threads: seq<ThreadId>
    var tickets: nat           // history

    ghost function View(): Sched
      reads this
    {
      Sched(m_tasks, tickets, m_activeThreadCount, m_idleThreadCount, m_stopping)
    }

    constructor (threadCount: nat)
      ensures View() == Sched([], 0, 0, 0, false) && this.threadCount == threadCount && m_threads == []
    {
      this.threadCount := threadCount;
      m_tasks, tickets, m_activeThreadCount, m_idleThreadCount, m_stopping, m_threads := [], 0, 0, 0, false, [];
    }

    // start() returns at once until stop() has been called.
    method Start(ids: seq<ThreadId>)
      requires m_stopping ==> m_threads == [] && |ids| == threadCount
      modifies this`m_threads
      ensures m_threads == if m_stopping then ids else old(m_threads)
    {
      if !m_stopping {
        return;
      }
      for i := 0 to threadCount
        invariant m_threads == ids[..i]
      {
        m_threads := m_threads + [ids[i]];
      }
    }

    method ScheduleNoLock(work: Work, pin: Option<ThreadId>) returns (needTickle: bool)
      modifies this`m_tasks, this`tickets
      ensures View() == Scheduled(old(View()), work, pin)
      ensures m_tasks == old(m_tasks) + if work.NullWork? then [] else [Task(old(tickets), work, pin)]
      ensures needTickle <==> old(m_tasks) == []
    {
      needTickle := m_tasks == [];
      if !work.NullWork? {
        m_tasks := m_tasks + [Task(tickets, work, pin)];
        tickets := tickets + 1;
      }
    }

    method Schedule(work: Work, pin: Option<ThreadId>)
      modifies this`m_tasks, this`tickets
      ensures View() == Scheduled(old(View()), work, pin)
      ensures m_tasks == old(m_tasks) + if work.NullWork? then [] else [Task(old(tickets), work, pin)]
    {
      var _ := ScheduleNoLock(work, pin);
    }

    method ScheduleRange(works: seq<Work>)
      modifies this`m_tasks, this`tickets
      ensures View() == ScheduledAll(old(View()), works)
    {
      var needTickle := false;
      for i := 0 to |works|
        invariant View() == ScheduledAll(old(View()), works[..i])
      {
        var need := ScheduleNoLock(works[i], None);
        needTickle := need || needTickle;
        assert works[..i + 1][..i] == works[..i];
      }
      assert works[..|works|] == works;
    }

    // The locked block at the top of the loop in run(), on thread t.
    method Pick(t: ThreadId, exec: set<FiberId>) returns (task: Option<Task>)
      requires NoNulls(View())
      modifies this`m_tasks, this`m_activeThreadCount
      ensures (View(), task) == Picked(old(View()), t, exec)
      ensures task.Some? ==>
                && (task.value.pin == None || task.value.pin == Some(t))
                && (task.value.work.FiberWork? ==> task.value.work.fiber !in exec)
      ensures task.None? ==> m_tasks == old(m_tasks)
      ensures task.None? ==> forall j :: 0 <= j < |m_tasks| ==>
                || (m_tasks[j].pin.Some? && m_tasks[j].pin.value != t)
                || (m_tasks[j].work.FiberWork? && m_tasks[j].work.fiber in exec)
    {
      task := None;
      ghost var k := FirstEligible(m_tasks, t, exec);
      var it := 0;
      while it < |m_tasks|
        invariant it <= k && m_tasks == old(m_tasks) && task == None && View() == old(View())
        decreases |m_tasks| - it
      {
        if m_tasks[it].pin != None && m_tasks[it].pin != Some(t) {
          it := it + 1;
          continue;
        }
        assert !m_tasks[it].work.NullWork?;
        if m_tasks[it].work.FiberWork? && m_tasks[it].work.fiber in exec {
          it := it + 1;
          continue;
        }
        task := Some(m_tasks[it]);
        m_tasks := m_tasks[..it] + m_tasks[it + 1..];
        m_activeThreadCount := m_activeThreadCount + 1;
        break;
      }
    }

    method EndSlice()
      requires m_activeThreadCount > 0
      modifies this`m_activeThreadCount
      ensures View() == old(View()).(active := old(View()).active - 1)
    {
      m_activeThreadCount := m_activeThreadCount - 1;
    }

    method Stopping() returns (b: bool)
      ensures b <==> IsStopping(View())
    {
      b := m_stopping && m_tasks == [] && m_activeThreadCount == 0;
    }

    // The start of stop(), up to the resume of the root fiber.
    method BeginStop() returns (already: bool)
      modifies this`m_stopping
      ensures already <==> IsStopping(old(View()))
      ensures View() == if already then old(View()) else old(View()).(stopping := true)
    {
      already := Stopping();
      if !already {
        m_stopping := true;
      }
    }
  }
}
