/**
 Stackful coroutines (code/common/fiber.cpp, code/common/fiber.h).

 A saved machine context is a token: `Entry` is a context made for MainFunc, `Saved(k)` the
 point at which the k-th context switch left.  A switch stores a token and jumps to one, so
 where control goes is a value that can be reasoned about.  `Rec` and `Locals` are the
 fields of a fiber and the thread-local variables as values; the functions on them say what
 resume() and yield() do to all the fibers at once, and the classes are proved against them.
 */
module Fibers {
  import opened Outcomes

  type FiberId = nat         // stands for the address of the object
  type ThreadId = nat

  datatype FiberState = READY | EXEC | TERM

  datatype Context = Unset | Entry | Saved(point: nat)

  // m_state, m_ctx, m_scheduler, whether there is an m_stack, whether there is an m_cb
  datatype Rec = Rec(state: FiberState, ctx: Context, viaScheduler: bool, hasStack: bool, hasCb: bool)

  // t_fiber, t_thread_fiber, and the scheduler's t_scheduler_fiber
  datatype Locals = Locals(cur: Option<FiberId>, thread: Option<FiberId>, scheduler: Option<FiberId>)

  type Heap = map<FiberId, Rec>

  const THREAD_FIBER := Rec(EXEC, Unset, false, false, false)

  function NewFiber(viaScheduler: bool): Rec {
    Rec(READY, Entry, viaScheduler, true, true)
  }

  // The fiber whose context a resume saves into and a yield jumps to.
  function MainFiber(r: Rec, l: Locals): Option<FiberId> {
    if r.viaScheduler then l.scheduler else l.thread
  }

  predicate HasMain(h: Heap, l: Locals, f: FiberId) {
    f in h && MainFiber(h[f], l).Some? && MainFiber(h[f], l).value in h
  }

  // ---------- resume ----------

  predicate CanResume(h: Heap, l: Locals, f: FiberId) {
    HasMain(h, l, f) && h[f].state == READY
  }

  function Resumed(h: Heap, l: Locals, f: FiberId, here: nat): Heap
    requires HasMain(h, l, f)
  {
    var h1 := h[f := h[f].(state := EXEC)];
    var m := MainFiber(h[f], l).value;
    h1[m := h1[m].(ctx := Saved(here))]
  }

  // ---------- yield ----------

  predicate CanYield(h: Heap, l: Locals, f: FiberId) {
    HasMain(h, l, f) && h[f].state != READY
  }

  function Yielded(h: Heap, f: FiberId, here: nat): Heap
    requires f in h
  {
    h[f := h[f].(state := if h[f].state == TERM then TERM else READY, ctx := Saved(here))]
  }

  function YieldsTo(h: Heap, l: Locals, f: FiberId): Context
    requires HasMain(h, l, f) && MainFiber(h[f], l) != Some(f)
  {
    h[MainFiber(h[f], l).value].ctx
  }

  // MainFunc after a callback that returned normally, up to its last yield.
  function Ended(h: Heap, f: FiberId): Heap
    requires f in h
  {
    h[f := h[f].(hasCb := false, state := TERM)]
  }

  // ---------- the classes ----------

  class ThreadLocals {
    var tFiber: Fiber?
    var threadFiber: Fiber?
    var schedulerFiber: Fiber?

    constructor ()
      ensures View() == Locals(None, None, None)
    {
      tFiber, threadFiber, schedulerFiber := null, null, null;
    }

    ghost function View(): Locals
      reads this
    {
      Locals(Id(tFiber), Id(threadFiber), Id(schedulerFiber))
    }
  }

  function Id(f: Fiber?): Option<FiberId> {
    if f == null then None else Some(f.id)
  }

  // The fiber objects that exist, by identity.
  ghost predicate Registered(objects: map<FiberId, Fiber>) {
    forall i :: i in objects ==> objects[i].id == i
  }

  ghost function Snapshot(objects: map<FiberId, Fiber>): Heap
    reads objects.Values
  {
    map i | i in objects :: objects[i].View()
  }

  ghost predicate Listed(objects: map<FiberId, Fiber>, f: Fiber?) {
    f != null ==> f.id in objects && objects[f.id] == f
  }

  class Fiber {
    const id: FiberId
    const viaScheduler: bool
    const hasStack: bool
    var state: FiberState
    var ctx: Context
    var hasCb: bool

    ghost function View(): Rec
      reads this
    {
      Rec(state, ctx, viaScheduler, hasStack, hasCb)
    }

    // The private constructor: a thread's own stack, already running.
    constructor OfThread(id: FiberId, tls: ThreadLocals)
      modifies tls`tFiber
      ensures this.id == id && View() == THREAD_FIBER && tls.tFiber == this
    {
      this.id, viaScheduler, hasStack := id, false, false;
      state, ctx, hasCb := EXEC, Unset, false;
      new;
      tls.tFiber := this;
    }

    constructor (id: FiberId, runInScheduler: bool)
      ensures this.id == id && View() == NewFiber(runInScheduler)
    {
      this.id, viaScheduler, hasStack := id, runInScheduler, true;
      state, ctx, hasCb := READY, Entry, true;
    }

    // The destructor's assertions, and what it does to the thread-local pointer.
    method Destroy(tls: ThreadLocals)
      requires if hasStack then state == TERM else !hasCb && state == EXEC
      modifies tls`tFiber
      ensures tls.tFiber == if !hasStack && old(tls.tFiber) == this then null else old(tls.tFiber)
    {
      if !hasStack {
        if tls.tFiber == this {
          tls.tFiber := null;
        }
      }
    }

    method Reset()
      requires hasStack && state == TERM
      modifies this
      ensures View() == NewFiber(viaScheduler)
    {
      hasCb := true;
      ctx := Entry;
      state := READY;
    }

    // Saves the current point in the main fiber and returns the context jumped to.
    method Resume(tls: ThreadLocals, here: nat, ghost objects: map<FiberId, Fiber>) returns (to: Context)
      requires Registered(objects) && Listed(objects, this)
      requires Listed(objects, tls.threadFiber) && Listed(objects, tls.schedulerFiber)
      requires CanResume(Snapshot(objects), tls.View(), id)
      modifies this, tls`tFiber, tls.threadFiber, tls.schedulerFiber
      ensures to == old(ctx) && state == EXEC
      ensures (if viaScheduler then tls.schedulerFiber else tls.threadFiber).ctx == Saved(here)
      ensures Snapshot(objects) == Resumed(old(Snapshot(objects)), old(tls.View()), id, here)
      ensures tls.View() == old(tls.View()).(cur := Some(id))
    {
      ghost var h := Snapshot(objects);
      tls.tFiber := this;
      state := EXEC;
      to := ctx;
      ghost var h1 := Snapshot(objects);
      assert h1 == h[id := h[id].(state := EXEC)];
      var main := if viaScheduler then tls.schedulerFiber else tls.threadFiber;
      main.SaveHere(here, objects);
    }

    method SaveHere(here: nat, ghost objects: map<FiberId, Fiber>)
      requires Registered(objects) && Listed(objects, this)
      modifies this`ctx
      ensures ctx == Saved(here)
      ensures var h := old(Snapshot(objects));
              Snapshot(objects) == h[id := h[id].(ctx := Saved(here))]
    {
      ctx := Saved(here);
    }

    // Saves the current point in this fiber and returns the context jumped to.  The state
    // and the context change in one step here, as seen from other threads.
    method Yield(tls: ThreadLocals, here: nat, ghost objects: map<FiberId, Fiber>) returns (to: Context)
      requires Registered(objects) && Listed(objects, this)
      requires Listed(objects, tls.threadFiber) && Listed(objects, tls.schedulerFiber)
      requires CanYield(Snapshot(objects), tls.View(), id) && MainFiber(View(), tls.View()) != Some(id)
      modifies this, tls`tFiber
      ensures to == YieldsTo(old(Snapshot(objects)), old(tls.View()), id)
      ensures ctx == Saved(here) && state == (if old(state) == TERM then TERM else READY)
      ensures Snapshot(objects) == Yielded(old(Snapshot(objects)), id, here)
      ensures tls.View() == old(tls.View()).(cur := old(tls.View()).thread)
    {
      tls.tFiber := tls.threadFiber;
      if state != TERM {
        state := READY;
      }
      to := if viaScheduler then tls.schedulerFiber.ctx else tls.threadFiber.ctx;
      ctx := Saved(here);
    }

    // What MainFunc does once the callback has returned.
    method Finish(tls: ThreadLocals, here: nat, ghost objects: map<FiberId, Fiber>) returns (to: Context)
      requires Registered(objects) && Listed(objects, this)
      requires Listed(objects, tls.threadFiber) && Listed(objects, tls.schedulerFiber)
      requires CanYield(Snapshot(objects), tls.View(), id) && MainFiber(View(), tls.View()) != Some(id)
      modifies this, tls`tFiber
      ensures to == YieldsTo(old(Snapshot(objects)), old(tls.View()), id)
      ensures ctx == Saved(here) && state == TERM && !hasCb
      ensures Snapshot(objects) == Yielded(Ended(old(Snapshot(objects)), id), id, here)
      ensures tls.View() == old(tls.View()).(cur := old(tls.View()).thread)
    {
      ghost var h := Snapshot(objects);
      hasCb := false;
      state := TERM;
      assert Snapshot(objects) == Ended(h, id);
      to := Yield(tls, here, objects);
    }
  }

  // GetThis(): the current fiber, or else a new fiber for the thread itself.
  method GetThis(tls: ThreadLocals, fresh': FiberId) returns (f: Fiber)
    modifies tls
    ensures tls.tFiber == f && tls.schedulerFiber == old(tls.schedulerFiber)
    ensures old(tls.tFiber) != null ==> f == old(tls.tFiber) && tls.threadFiber == old(tls.threadFiber)
    ensures old(tls.tFiber) == null ==> fresh(f) && f.id == fresh' && f.View() == THREAD_FIBER && tls.threadFiber == f
  {
    if tls.tFiber != null {
      return tls.tFiber;
    }
    f := new Fiber.OfThread(fresh', tls);
    assert tls.tFiber == f;
    tls.threadFiber := f;
  }
}
