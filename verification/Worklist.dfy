/**
 What stop() comes to when only the calling thread runs tasks: a plain first-in-first-out
 worklist of scripts, with no fibers, no states, no counters and no idle loop.
 */
module Worklists {
  import opened Outcomes

  // The code of a task, as far as the scheduler can tell.
  datatype Script =
    | Return
    | Emit(mark: nat, rest: Script)
    | Spawn(child: Script, asFiber: bool, pinned: bool, rest: Script)  // schedule(child), perhaps on this thread
    | Requeue(pinned: bool, rest: Script)                              // schedule(GetThis())
    | Suspend(rest: Script)                                            // GetThis()->yield()

  // The rule for clients: a task that has queued itself yields before it does so again and
  // before it returns.
  predicate Disciplined(s: Script, queued: bool) {
    match s
    case Return => !queued
    case Emit(_, rest) => Disciplined(rest, queued)
    case Spawn(child, _, _, rest) => Disciplined(child, false) && Disciplined(rest, queued)
    case Requeue(_, rest) => !queued && Disciplined(rest, true)
    case Suspend(rest) => Disciplined(rest, false)
  }

  // One slice: what is emitted, what is queued (None is the task itself), what is left.
  datatype Slice = Slice(trace: seq<nat>, added: seq<Option<Script>>, rest: Script)

  function Sliced(s: Script): Slice {
    match s
    case Return => Slice([], [], Return)
    case Emit(mark, rest) => var r := Sliced(rest); r.(trace := [mark] + r.trace)
    case Spawn(child, _, _, rest) => var r := Sliced(rest); r.(added := [Some(child)] + r.added)
    case Requeue(_, rest) => var r := Sliced(rest); r.(added := [None] + r.added)
    case Suspend(rest) => Slice([], [], rest)
  }

  function Filled(added: seq<Option<Script>>, self: Script): seq<Script> {
    if added == [] then []
    else [if added[0].Some? then added[0].value else self] + Filled(added[1..], self)
  }

  predicate AllDisciplined(items: seq<Script>) {
    forall i :: 0 <= i < |items| ==> Disciplined(items[i], false)
  }

  function Worklist(items: seq<Script>): seq<nat>
    requires AllDisciplined(items)
    decreases Total(items)
  {
    if items == [] then []
    else
      var s := Sliced(items[0]);
      var next := items[1..] + Filled(s.added, s.rest);
      WorklistStep(items);
      s.trace + Worklist(next)
  }

  // ---------- why it ends ----------

  function Size(s: Script): nat {
    match s
    case Return => 1
    case Emit(_, rest) => 1 + Size(rest)
    case Spawn(child, _, _, rest) => 1 + Size(child) + Size(rest)
    case Requeue(_, rest) => 1 + Size(rest)
    case Suspend(rest) => 1 + Size(rest)
  }

  function Total(items: seq<Script>): nat {
    if items == [] then 0 else Size(items[0]) + Total(items[1..])
  }

  lemma {:induction false} TotalAppend(a: seq<Script>, b: seq<Script>)
    ensures Total(a + b) == Total(a) + Total(b)
  {
    if a == [] {
      assert a + b == b;
    } else {
      assert (a + b)[1..] == a[1..] + b;
      TotalAppend(a[1..], b);
    }
  }

  // What a slice queues is smaller than what it ran, even counting a task that had already
  // queued itself.
  lemma {:induction false} SliceShrinks(s: Script, queued: bool)
    requires Disciplined(s, queued)
    ensures var r := Sliced(s);
            && Total(Filled(r.added, r.rest)) + (if queued then Size(r.rest) else 0) < Size(s)
            && AllDisciplined(Filled(r.added, r.rest)) && Disciplined(r.rest, false)
            && (queued ==> None !in r.added)
  {
    match s
    case Return =>
    case Emit(_, rest) => SliceShrinks(rest, queued);
    case Spawn(child, _, _, rest) =>
      SliceShrinks(rest, queued);
      FilledCons(Some(child), Sliced(rest).added, Sliced(rest).rest);
    case Requeue(_, rest) =>
      SliceShrinks(rest, true);
      FilledCons(None, Sliced(rest).added, Sliced(rest).rest);
    case Suspend(rest) =>
  }

  lemma FilledCons(first: Option<Script>, added: seq<Option<Script>>, self: Script)
    ensures Filled([first] + added, self) == [if first.Some? then first.value else self] + Filled(added, self)
    ensures Total(Filled([first] + added,
        self)) == Size(if first.Some? then first.value else self) + Total(Filled(added, self))
  {
    assert ([first] + added)[1..] == added;
    var x := if first.Some? then first.value else self;
    assert ([x] + Filled(added, self))[1..] == Filled(added, self);
  }

  lemma WorklistStep(items: seq<Script>)
    requires AllDisciplined(items) && items != []
    ensures var s := Sliced(items[0]); var next := items[1..] + Filled(s.added, s.rest);
            AllDisciplined(next) && Total(next) < Total(items)
  {
    var s := Sliced(items[0]);
    SliceShrinks(items[0], false);
    TotalAppend(items[1..], Filled(s.added, s.rest));
  }

  // ---------- nothing is lost ----------

  // A task that always queues itself before it yields.
  predicate NeverParks(s: Script, queued: bool) {
    match s
    case Return => true
    case Emit(_, rest) => NeverParks(rest, queued)
    case Spawn(child, _, _, rest) => NeverParks(child, false) && NeverParks(rest, queued)
    case Requeue(_, rest) => NeverParks(rest, true)
    case Suspend(rest) => queued && NeverParks(rest, false)
  }

  predicate NoneParks(items: seq<Script>) {
    forall i :: 0 <= i < |items| ==> NeverParks(items[i], false)
  }

  function Marks(s: Script): multiset<nat> {
    match s
    case Return => multiset{}
    case Emit(mark, rest) => multiset{mark} + Marks(rest)
    case Spawn(child, _, _, rest) => Marks(child) + Marks(rest)
    case Requeue(_, rest) => Marks(rest)
    case Suspend(rest) => Marks(rest)
  }

  function AllMarks(items: seq<Script>): multiset<nat> {
    if items == [] then multiset{} else Marks(items[0]) + AllMarks(items[1..])
  }

  lemma {:induction false} AllMarksAppend(a: seq<Script>, b: seq<Script>)
    ensures AllMarks(a + b) == AllMarks(a) + AllMarks(b)
  {
    if a == [] {
      assert a + b == b;
    } else {
      assert (a + b)[1..] == a[1..] + b;
      AllMarksAppend(a[1..], b);
    }
  }

  lemma {:induction false} SliceKeepsMarks(s: Script, queued: bool)
    requires Disciplined(s, queued) && NeverParks(s, queued)
    ensures var r := Sliced(s);
            multiset(r.trace) + AllMarks(Filled(r.added,
                r.rest)) + (if queued then Marks(r.rest) else multiset{}) == Marks(s)
  {
    match s
    case Return =>
    case Emit(mark, rest) =>
      var r, r' := Sliced(rest), Sliced(s);
      SliceKeepsMarks(rest, queued);
      assert multiset([mark] + r.trace) == multiset{mark} + multiset(r.trace);
      assert r' == r.(trace := [mark] + r.trace) && Marks(s) == multiset{mark} + Marks(rest);
      hide *;
    case Spawn(child, _, _, rest) =>
      var r, r' := Sliced(rest), Sliced(s);
      SliceKeepsMarks(rest, queued);
      FilledMarks(Some(child), r.added, r.rest);
      assert r' == r.(added := [Some(child)] + r.added) && Marks(s) == Marks(child) + Marks(rest);
      hide *;
      Regroup(multiset(r.trace), Marks(child), AllMarks(Filled(r.added, r.rest)),
          if queued then Marks(r.rest) else multiset{});
    case Requeue(_, rest) =>
      var r, r' := Sliced(rest), Sliced(s);
      SliceKeepsMarks(rest, true);
      FilledMarks(None, r.added, r.rest);
      assert r' == r.(added := [None] + r.added) && Marks(s) == Marks(rest) && !queued;
      hide *;
      Regroup(multiset(r.trace), Marks(r.rest), AllMarks(Filled(r.added, r.rest)), multiset{});
    case Suspend(rest) =>
  }

  lemma Regroup(a: multiset<nat>, b: multiset<nat>, c: multiset<nat>, d: multiset<nat>)
    ensures a + (b + c) + d == b + (a + c + d)
  {
  }

  lemma {:induction false} SliceNeverParks(s: Script, queued: bool)
    requires Disciplined(s, queued) && NeverParks(s, queued)
    ensures var r := Sliced(s); NoneParks(Filled(r.added, r.rest)) && (queued || None in r.added ==>
        NeverParks(r.rest, false))
  {
    match s
    case Return =>
    case Emit(_, rest) => SliceNeverParks(rest, queued);
    case Spawn(child, _, _, rest) =>
      SliceNeverParks(rest, queued);
      FilledCons(Some(child), Sliced(rest).added, Sliced(rest).rest);
    case Requeue(_, rest) =>
      SliceNeverParks(rest, true);
      FilledCons(None, Sliced(rest).added, Sliced(rest).rest);
    case Suspend(rest) =>
  }

  lemma FilledMarks(first: Option<Script>, added: seq<Option<Script>>, self: Script)
    ensures var x := if first.Some? then first.value else self;
            && Filled([first] + added, self) == [x] + Filled(added, self)
            && AllMarks(Filled([first] + added, self)) == Marks(x) + AllMarks(Filled(added, self))
  {
    FilledCons(first, added, self);
    var x := if first.Some? then first.value else self;
    assert ([x] + Filled(added, self))[1..] == Filled(added, self);
  }

  // If every task queues itself before it yields, everything that the tasks and all their
  // descendants were to emit is emitted, exactly once.
  lemma {:induction false} EverythingRuns(items: seq<Script>)
    requires AllDisciplined(items) && NoneParks(items)
    ensures multiset(Worklist(items)) == AllMarks(items)
    decreases Total(items)
  {
    if items != [] {
      var s := Sliced(items[0]);
      var next := items[1..] + Filled(s.added, s.rest);
      WorklistStep(items);
      SliceKeepsMarks(items[0], false);
      SliceNeverParks(items[0], false);
      AllMarksAppend(items[1..], Filled(s.added, s.rest));
      EverythingRuns(next);
      assert multiset(s.trace + Worklist(next)) == multiset(s.trace) + multiset(Worklist(next));
    }
  }
}
