/**
 Configuration variables and their change listeners (code/common/config.h:236-315).

 Listeners are known by the ids that addListener() hands out; calling one is recorded as
 a `Notice` at the end of the variable's log.  Operations run one after the other, and a
 listener does not call back into its variable.
 */
module ConfigVars {
  import opened Outcomes

  datatype Notice<T> = Notice(listener: nat, before: T, after: T)

  // A variable: its value, the keys of m_callbacks in map order, the calls made so far,
  // and, for every listener ever added, the value the variable had at that moment.
  datatype Var<T> = Var(val: T, listeners: seq<nat>, log: seq<Notice<T>>, start: map<nat, T>)

  function Calls<T>(listeners: seq<nat>, before: T, after: T): (s: seq<Notice<T>>)
    ensures |s| == |listeners|
  {
    seq(|listeners|, j requires 0 <= j < |listeners| => Notice(listeners[j], before, after))
  }

  function SetStep<T(==)>(v: Var<T>, value: T): Var<T> {
    if value == v.val then v
    else v.(val := value, log := v.log + Calls(v.listeners, v.val, value))
  }

  function AddStep<T>(v: Var<T>, id: nat): Var<T> {
    v.(listeners := v.listeners + [id], start := v.start[id := v.val])
  }

  // std::map::erase: the other keys keep their order.
  function Without(listeners: seq<nat>, key: int): (r: seq<nat>)
    ensures forall id :: id in r <==> id in listeners && id != key
  {
    if listeners == [] then []
    else if listeners[0] == key then Without(listeners[1..], key)
    else [listeners[0]] + Without(listeners[1..], key)
  }

  function DelStep<T>(v: Var<T>, key: int): Var<T> {
    v.(listeners := Without(v.listeners, key))
  }

  // ---------- the class ----------

  // The counter that the variables of one type share: `s_fun_id`.
  class ListenerIds {
    var last: nat

    constructor ()
      ensures last == 0
    {
      last := 0;
    }
  }

  class ConfigVar<T(==)> {
    const fromStr: string -> Option<T>
    var val: T
    var listeners: seq<nat>
    var log: seq<Notice<T>>
    ghost var start: map<nat, T>

    ghost function View(): Var<T>
      reads this
    {
      Var(val, listeners, log, start)
    }

    constructor (value: T, fromStr: string -> Option<T>)
      ensures View() == Var(value, [], [], map[]) && this.fromStr == fromStr
    {
      val, listeners, log, start := value, [], [], map[];
      this.fromStr := fromStr;
    }

    method SetValue(value: T)
      modifies this`val, this`log
      ensures View() == SetStep(old(View()), value)
    {
      if value == val {
        return;
      }
      for i := 0 to |listeners|
        invariant listeners == old(listeners) && val == old(val)
        invariant log == old(log) + Calls(listeners, val, value)[..i]
      {
        log := log + [Notice(listeners[i], val, value)];
      }
      assert Calls(listeners, val, value)[..|listeners|] == Calls(listeners, val, value);
      val := value;
    }

    method FromString(str: string) returns (ok: bool)
      modifies this`val, this`log
      ensures ok == fromStr(str).Some?
      ensures View() == match fromStr(str) case Some(v) => SetStep(old(View()), v) case None => old(View())
    {
      match fromStr(str)
      case Some(v) =>
        SetValue(v);
        ok := true;
      case None =>
        ok := false;
    }

    method AddListener(ids: ListenerIds) returns (id: nat)
      modifies this`listeners, this`start, ids
      ensures id == old(ids.last) + 1 == ids.last
      ensures View() == AddStep(old(View()), id)
    {
      ids.last := ids.last + 1;
      id := ids.last;
      listeners := listeners + [id];
      start := start[id := val];
    }

    method DelListener(key: int)
      modifies this`listeners
      ensures View() == DelStep(old(View()), key)
    {
      listeners := Without(listeners, key);
    }

    method ClearListener()
      modifies this`listeners
      ensures View() == old(View()).(listeners := [])
    {
      listeners := [];
    }
  }

  // ---------- runs over all the variables of one type ----------

  datatype Act<T> =
    | Set(name: string, value: T)
    | Add(name: string)
    | Del(name: string, key: int)
    | ClearAll(name: string)

  datatype Vars<T> = Vars(vars: map<string, Var<T>>, last: nat)

  function Step<T(==)>(s: Vars<T>, act: Act<T>): Vars<T> {
    if act.name !in s.vars then s
    else
      var v := s.vars[act.name];
      match act
      case Set(name, value) => s.(vars := s.vars[name := SetStep(v, value)])
      case Add(name) => s.(vars := s.vars[name := AddStep(v, s.last + 1)], last := s.last + 1)
      case Del(name, key) => s.(vars := s.vars[name := DelStep(v, key)])
      case ClearAll(name) => s.(vars := s.vars[name := v.(listeners := [])])
  }

  function Run<T(==)>(s: Vars<T>, acts: seq<Act<T>>): Vars<T> {
    if acts == [] then s else Step(Run(s, acts[..|acts| - 1]), acts[|acts| - 1])
  }

  // What one listener has been told, in order.
  function Seen<T>(log: seq<Notice<T>>, id: nat): seq<(T, T)> {
    if log == [] then []
    else
      var n := |log| - 1;
      Seen(log[..n], id) + if log[n].listener == id then [(log[n].before, log[n].after)] else []
  }

  // The pairs lead from v to w without a gap, and each of them is a change.
  ghost predicate Chain<T>(v: T, pairs: seq<(T, T)>, w: T) {
    if pairs == [] then v == w
    else
      var n := |pairs| - 1;
      pairs[n].0 != pairs[n].1 && pairs[n].1 == w && Chain(v, pairs[..n], pairs[n].0)
  }

  lemma {:induction false} SeenConcat<T>(a: seq<Notice<T>>, b: seq<Notice<T>>, id: nat)
    ensures Seen(a + b, id) == Seen(a, id) + Seen(b, id)
  {
    if b == [] {
      assert a + b == a;
    } else {
      assert (a + b)[..|a + b| - 1] == a + b[..|b| - 1];
      SeenConcat(a, b[..|b| - 1], id);
    }
  }

  predicate NoRepeats(ids: seq<nat>) {
    forall i, j :: 0 <= i < j < |ids| ==> ids[i] < ids[j]
  }

  // A change calls every listener exactly once.
  lemma {:induction false} SeenCalls<T>(ids: seq<nat>, before: T, after: T, id: nat)
    requires NoRepeats(ids)
    ensures Seen(Calls(ids, before, after), id) == if id in ids then [(before, after)] else []
  {
    if ids != [] {
      var n := |ids| - 1;
      var calls := Calls(ids, before, after);
      assert calls[..n] == Calls(ids[..n], before, after);
      SeenCalls(ids[..n], before, after, id);
      assert ids == ids[..n] + [ids[n]];
      assert ids[n] == id ==> id !in ids[..n];
    }
  }

  ghost predicate VarInv<T>(v: Var<T>, last: nat) {
    && NoRepeats(v.listeners)
    && (forall id :: id in v.listeners ==> id <= last && id in v.start)
    && (forall id :: id in v.start ==> id <= last)
    && (forall j :: 0 <= j < |v.log| ==> v.log[j].listener <= last)
    && (forall id :: id in v.listeners && id in v.start ==> Chain(v.start[id], Seen(v.log, id), v.val))
  }

  ghost predicate Inv<T>(s: Vars<T>) {
    && (forall name :: name in s.vars ==> VarInv(s.vars[name], s.last))
    && (forall a, b, id :: a in s.vars && b in s.vars && id in s.vars[a].start && id in s.vars[b].start ==> a == b)
  }

  lemma SetKeepsVar<T>(v: Var<T>, value: T, last: nat)
    requires VarInv(v, last)
    ensures VarInv(SetStep(v, value), last)
  {
    if value != v.val {
      var w := SetStep(v, value);
      var calls := Calls(v.listeners, v.val, value);
      assert forall j :: 0 <= j < |calls| ==> calls[j].listener == v.listeners[j] && v.listeners[j] in v.listeners;
      forall id | id in w.listeners && id in w.start
        ensures Chain(w.start[id], Seen(w.log, id), w.val)
      {
        SeenConcat(v.log, calls, id);
        SeenCalls(v.listeners, v.val, value, id);
        var pairs := Seen(v.log, id);
        assert (pairs + [(v.val, value)])[..|pairs|] == pairs;
      }
    }
  }

  lemma {:induction false} SeenNothing<T>(log: seq<Notice<T>>, id: nat)
    requires forall j :: 0 <= j < |log| ==> log[j].listener != id
    ensures Seen(log, id) == []
  {
    if log != [] {
      SeenNothing(log[..|log| - 1], id);
    }
  }

  lemma AddKeepsVar<T>(v: Var<T>, last: nat)
    requires VarInv(v, last)
    ensures VarInv(AddStep(v, last + 1), last + 1)
  {
    SeenNothing(v.log, last + 1);
    assert forall j :: 0 <= j < |v.listeners| ==> v.listeners[j] in v.listeners;
  }

  lemma {:induction false} WithoutIncreases(ids: seq<nat>, key: int)
    requires NoRepeats(ids)
    ensures NoRepeats(Without(ids, key))
  {
    if ids != [] {
      WithoutIncreases(ids[1..], key);
      var rest := Without(ids[1..], key);
      assert forall j :: 0 <= j < |rest| ==> rest[j] in rest;
      assert forall id :: id in ids[1..] ==> ids[0] < id;
    }
  }

  lemma DelKeepsVar<T>(v: Var<T>, key: int, last: nat)
    requires VarInv(v, last)
    ensures VarInv(DelStep(v, key), last)
  {
    WithoutIncreases(v.listeners, key);
  }

  lemma StepKeepsInv<T>(s: Vars<T>, act: Act<T>)
    requires Inv(s)
    ensures Inv(Step(s, act))
  {
    if act.name in s.vars {
      var v := s.vars[act.name];
      match act {
        case Set(name, value) => SetKeepsVar(v, value, s.last);
        case Add(name) => AddKeepsVar(v, s.last);
        case Del(name, key) => DelKeepsVar(v, key, s.last);
        case ClearAll(name) =>
      }
    }
  }

  lemma {:induction false} RunKeepsInv<T>(s: Vars<T>, acts: seq<Act<T>>)
    requires Inv(s)
    ensures Inv(Run(s, acts))
  {
    if acts != [] {
      RunKeepsInv(s, acts[..|acts| - 1]);
      StepKeepsInv(Run(s, acts[..|acts| - 1]), acts[|acts| - 1]);
    }
  }

  predicate Fresh<T>(s: Vars<T>) {
    forall name :: name in s.vars ==>
      s.vars[name].listeners == [] && s.vars[name].log == [] && s.vars[name].start == map[]
  }

  // After any run, what a listener still registered has been told is an unbroken chain of
  // real changes from the value at its registration to the current value.
  lemma ListenersSeeChains<T>(s: Vars<T>, acts: seq<Act<T>>, name: string, id: nat)
    requires Fresh(s) && name in Run(s, acts).vars && id in Run(s, acts).vars[name].listeners
    ensures var v := Run(s, acts).vars[name];
            id in v.start && Chain(v.start[id], Seen(v.log, id), v.val)
  {
    RunKeepsInv(s, acts);
  }

  // The id handed out by addListener() was never handed out before, to any variable of the
  // type, and no earlier call carries it.
  lemma IdsAreNew<T>(s: Vars<T>, acts: seq<Act<T>>, name: string)
    requires Fresh(s) && name in Run(s, acts).vars
    ensures var t := Run(s, acts);
            && t.last + 1 in Step(t, Add(name)).vars[name].listeners
            && (forall other :: other in t.vars ==>
                 && t.last + 1 !in t.vars[other].start && t.last + 1 !in t.vars[other].listeners
                 && forall j :: 0 <= j < |t.vars[other].log| ==> t.vars[other].log[j].listener != t.last + 1)
  {
    RunKeepsInv(s, acts);
    var t := Run(s, acts);
    var w := Step(t, Add(name)).vars[name];
    assert w.listeners[|w.listeners| - 1] == t.last + 1;
  }

  // The starting point of a chain is the value at the moment of registration, and later
  // operations do not rewrite it.
  lemma {:induction false} StartIsRegistration<T>(s: Vars<T>, before: seq<Act<T>>, name: string, later: seq<Act<T>>)
    requires Fresh(s) && name in Run(s, before).vars
    ensures var t, u := Run(s, before), Run(s, before + [Add(name)] + later);
            name in u.vars && t.last + 1 in u.vars[name].start && u.vars[name].start[t.last + 1] == t.vars[name].val
    decreases |later|
  {
    var acts := before + [Add(name)] + later;
    var n := |acts| - 1;
    if later == [] {
      assert acts[..n] == before;
    } else {
      assert acts[..n] == before + [Add(name)] + later[..|later| - 1];
      StartIsRegistration(s, before, name, later[..|later| - 1]);
      AddRaisesLast(s, before, name, later[..|later| - 1]);
      assert Run(s, acts) == Step(Run(s, acts[..n]), acts[n]);
      hide Run, Fresh;
      StartStays(Run(s, acts[..n]), acts[n], name, Run(s, before).last + 1);
    }
  }

  lemma StartStays<T>(s: Vars<T>, act: Act<T>, name: string, id: nat)
    requires name in s.vars && id in s.vars[name].start && id <= s.last
    ensures name in Step(s, act).vars && id in Step(s, act).vars[name].start
    ensures Step(s, act).vars[name].start[id] == s.vars[name].start[id]
  {
  }

  lemma {:induction false} LastGrows<T>(s: Vars<T>, before: seq<Act<T>>, later: seq<Act<T>>)
    ensures Run(s, before).last <= Run(s, before + later).last
    decreases |later|
  {
    if later == [] {
      assert before + later == before;
    } else {
      var acts := before + later;
      assert acts[..|acts| - 1] == before + later[..|later| - 1];
      LastGrows(s, before, later[..|later| - 1]);
    }
  }

  lemma AddRaisesLast<T>(s: Vars<T>, before: seq<Act<T>>, name: string, later: seq<Act<T>>)
    requires name in Run(s, before).vars
    ensures Run(s, before).last < Run(s, before + [Add(name)] + later).last
  {
    var acts := before + [Add(name)];
    assert acts[..|acts| - 1] == before;
    LastGrows(s, acts, later);
  }

  // A listener that was registered once and is so no longer, be it that it was deleted or
  // that all were, is never registered and never called again.
  lemma {:induction false} RemovedHearsNothing<T>(s: Vars<T>, before: seq<Act<T>>, later: seq<Act<T>>,
      name: string, id: nat)
    requires Fresh(s) && name in Run(s, before).vars
    requires var v := Run(s, before).vars[name]; id in v.start && id !in v.listeners
    ensures name in Run(s, before + later).vars
    ensures var v, w := Run(s, before).vars[name], Run(s, before + later).vars[name];
            id in w.start && id !in w.listeners && Seen(w.log, id) == Seen(v.log, id)
    decreases |later|
  {
    var acts := before + later;
    if later == [] {
      assert acts == before;
    } else {
      var n := |acts| - 1;
      assert acts[..n] == before + later[..|later| - 1];
      RemovedHearsNothing(s, before, later[..|later| - 1], name, id);
      RunKeepsInv(s, acts[..n]);
      hide Run;
      SilentStep(Run(s, acts[..n]), acts[n], name, id);
    }
  }

  lemma SilentStep<T>(s: Vars<T>, act: Act<T>, name: string, id: nat)
    requires Inv(s) && name in s.vars && id in s.vars[name].start && id !in s.vars[name].listeners
    ensures name in Step(s, act).vars
    ensures var w := Step(s, act).vars[name];
            id in w.start && id !in w.listeners && Seen(w.log, id) == Seen(s.vars[name].log, id)
  {
    var v := s.vars[name];
    assert VarInv(v, s.last);
    hide Inv, Seen, Chain;
    if act.Set? && act.name == name && act.value != v.val {
      SeenConcat(v.log, Calls(v.listeners, v.val, act.value), id);
      SeenCalls(v.listeners, v.val, act.value, id);
      assert Seen(v.log, id) + [] == Seen(v.log, id);
    }
  }

  // ---------- one more operation, after any run ----------

  // Who is registered afterwards: addListener() adds its new id, delListener() takes away its
  // key and no other, clearing takes all, and nothing else touches the list.  It stays in the
  // order of the ids.
  lemma RegisteredAfter<T>(s: Vars<T>, acts: seq<Act<T>>, act: Act<T>, name: string)
    requires Fresh(s) && name in Run(s, acts).vars
    ensures name in Step(Run(s, acts), act).vars
    ensures var was, now := Run(s, acts).vars[name].listeners, Step(Run(s, acts), act).vars[name].listeners;
            && (forall i, j :: 0 <= i < j < |now| ==> now[i] < now[j])
            && (act == Add(name) ==> forall id :: id in now <==> id in was || id == Run(s, acts).last + 1)
            && (act.Del? && act.name == name ==> forall id :: id in now <==> id in was && id != act.key)
            && (act == ClearAll(name) ==> now == [])
            && (act.Set? || act.name != name ==> now == was)
  {
    RunKeepsInv(s, acts);
    StepKeepsInv(Run(s, acts), act);
    hide Run;
  }

  // What is said afterwards: an assignment of another value tells every listener once, in the
  // order of the list, what was and what is; nothing else tells anybody anything.
  lemma ToldAfter<T>(s: Vars<T>, act: Act<T>, name: string)
    requires name in s.vars
    ensures name in Step(s, act).vars
    ensures var v, w := s.vars[name], Step(s, act).vars[name];
            if act.Set? && act.name == name && act.value != v.val then
              && w.val == act.value && |w.log| == |v.log| + |v.listeners|
              && (forall j :: 0 <= j < |v.log| ==> w.log[j] == v.log[j])
              && (forall j :: 0 <= j < |v.listeners| ==>
                    w.log[|v.log| + j] == Notice(v.listeners[j], v.val, act.value))
            else
              w.val == v.val && w.log == v.log
  {
  }
}
