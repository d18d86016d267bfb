/**
 Setters that race (code/common/config.h:272-284): setValue() compares and notifies under the
 lock, lets go of it, and stores under the lock again, so another setter can come in between.

 What follows is one variable as one listener sees it that is registered throughout.
 */
module ConfigRaces {
  import opened Outcomes

  // `pending` holds what each setter that has notified is about to store.
  datatype Race<T> = Race(val: T, pending: map<nat, T>, seen: seq<(T, T)>)

  datatype Act<T> =
    | Notify(setter: nat, value: T)      // the first locked block
    | Store(setter: nat)                 // the second

  // A notification that calls the listeners.
  predicate Tells<T(==)>(r: Race<T>, act: Act<T>) {
    act.Notify? && act.setter !in r.pending && act.value != r.val
  }

  function Step<T(==)>(r: Race<T>, act: Act<T>): Race<T> {
    if Tells(r, act) then
      r.(pending := r.pending[act.setter := act.value], seen := r.seen + [(r.val, act.value)])
    else if act.Store? && act.setter in r.pending then
      r.(val := r.pending[act.setter], pending := r.pending - {act.setter})
    else r
  }

  function Run<T(==)>(v: T, acts: seq<Act<T>>): Race<T> {
    if acts == [] then Race(v, map[], []) else Step(Run(v, acts[..|acts| - 1]), acts[|acts| - 1])
  }

  // Some setter has notified while another was between its notification and its store.
  predicate Overlap<T(==)>(v: T, acts: seq<Act<T>>) {
    acts != [] &&
    var front, act := acts[..|acts| - 1], acts[|acts| - 1];
    Overlap(v, front) || (Tells(Run(v, front), act) && Run(v, front).pending != map[])
  }

  // Each old value is the new value of the call before.
  predicate Chained<T(==)>(v: T, seen: seq<(T, T)>) {
    && (seen != [] ==> seen[0].0 == v)
    && (forall k :: 0 < k < |seen| ==> seen[k].0 == seen[k - 1].1)
  }

  // Where the chain stands while no two setters have overlapped.
  predicate Upto<T(==)>(v: T, r: Race<T>) {
    if r.pending == map[] then
      r.val == if r.seen == [] then v else r.seen[|r.seen| - 1].1
    else
      && r.seen != [] && r.seen[|r.seen| - 1].0 == r.val != r.seen[|r.seen| - 1].1
      && exists i :: i in r.pending && r.pending == map[i := r.seen[|r.seen| - 1].1]
  }

  lemma {:induction false} ChainWhileApart<T>(v: T, acts: seq<Act<T>>)
    ensures Chained(v, Run(v, acts).seen) <==> !Overlap(v, acts)
    ensures !Overlap(v, acts) ==> Upto(v, Run(v, acts))
  {
    if acts != [] {
      var front, act := acts[..|acts| - 1], acts[|acts| - 1];
      ChainWhileApart(v, front);
      hide Run, Overlap;
      ChainStep(v, Run(v, front), act);
    }
  }

  lemma ChainStep<T>(v: T, r: Race<T>, act: Act<T>)
    requires Chained(v, r.seen) ==> Upto(v, r)
    ensures var apart := Chained(v, r.seen) && !(Tells(r, act) && r.pending != map[]);
            && (Chained(v, Step(r, act).seen) <==> apart)
            && (apart ==> Upto(v, Step(r, act)))
  {
    var s, n := Step(r, act), |r.seen|;
    assert forall k :: 0 <= k < n ==> s.seen[k] == r.seen[k];
    if Tells(r, act) {
      assert s.seen[n] == (r.val, act.value);
      if r.pending == map[] {
        assert s.pending == map[act.setter := act.value] && act.setter in s.pending;
      }
    } else if act.Store? && act.setter in r.pending {
      assert Chained(v, r.seen) ==> s.pending == map[];
    }
  }

  // The listener sees an unbroken chain if and only if no setter notifies while another is
  // between its notification and its store; when all have stored, the chain ends at the value.
  lemma ChainIff<T>(v: T, acts: seq<Act<T>>)
    ensures Chained(v, Run(v, acts).seen) <==> !Overlap(v, acts)
    ensures var r := Run(v, acts);
            !Overlap(v, acts) && r.pending == map[] ==> r.val == if r.seen == [] then v else r.seen[|r.seen| - 1].1
  {
    ChainWhileApart(v, acts);
    hide Run, Overlap, Chained;
  }

  // Two setters that notify one after the other before either stores.
  lemma ChainFails()
    ensures var acts := [Notify(1, 10), Notify(2, 20), Store(1), Store(2)];
            Run(0, acts).seen == [(0, 10), (0, 20)] && !Chained(0, Run(0, acts).seen)
  {
    var a4 := [Notify(1, 10), Notify(2, 20), Store(1), Store(2)];
    var a1, a2, a3 := a4[..1], a4[..2], a4[..3];
    assert a1[..0] == [] && a2[..1] == a1 && a3[..2] == a2 && a4[..3] == a3;
    assert Run(0, a1) == Race(0, map[1 := 10], [(0, 10)]);
    assert Run(0, a2) == Race(0, map[1 := 10, 2 := 20], [(0, 10), (0, 20)]);
    assert Run(0, a3).seen == Run(0, a2).seen && Run(0, a4).seen == Run(0, a3).seen;
    assert Run(0, a4).seen[1] == (0, 20);
  }
}
