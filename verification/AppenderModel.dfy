/**
 The double-buffered asynchronous appender as a machine over its atomic steps
 (code/common/log.cpp:397-493, code/common/log.h:274-310).

 A `Pool` holds what every buffer pointer points to (None is a null unique_ptr), the
 position of the backend thread, and the bytes written to the file so far.  Producers
 take `Append`; the backend takes `CheckRun` (reading m_run at the loop head), `Swap`
 (the locked block, after however long the timed wait lasted), `WriteOne` for each
 buffer, and `Recycle`.  A schedule is any sequence of these.
 */
module AppenderModel {
  import opened Outcomes
  import opened FixBuffers

  datatype BackendPc =
    | LoopHead
    | Waiting                // saw m_run, and has not finished the locked block
    | Writing(next: nat)     // about to write BufferToWrite[next], or to recycle
    | Exited

  datatype Pool = Pool(
    cur: Option<string>,            // m_curBuffer
    spare: Option<string>,          // m_nextBuffer
    full: seq<Option<string>>,      // m_buffers
    back1: Option<string>,          // replaceBuffer1
    back2: Option<string>,          // replaceBuffer2
    toWrite: seq<Option<string>>,   // BufferToWrite
    pc: BackendPc,
    run: bool,                      // m_run
    file: string)

  datatype Act =
    | Append(log: string, len: int32)
    | CheckRun
    | Swap
    | WriteOne
    | Recycle
    | Stop

  const INITIAL := Pool(Some(""), Some(""), [], Some(""), Some(""), [], LoopHead, true, "")

  // ---------- the steps ----------

  function Put(size: BufferSize, b: Option<string>, log: string, len: int32): Option<string>
    requires b.Some? && |b.value| <= size && len <= |log|
  {
    Some(Appended(size, b.value, log, ToSizeT(len)))
  }

  function AppendStep(size: BufferSize, p: Pool, log: string, len: int32): Pool
    requires p.cur.Some? && |p.cur.value| <= size && len <= |log|
    requires p.spare.Some? ==> |p.spare.value| <= size
  {
    if size - |p.cur.value| > len then
      p.(cur := Put(size, p.cur, log, len))
    else
      var fresh' := if p.spare.Some? then p.spare else Some("");
      p.(full := p.full + [p.cur], cur := Put(size, fresh', log, len), spare := None)
  }

  function CheckRunStep(p: Pool): Pool {
    p.(pc := if p.run then Waiting else Exited)
  }

  function SwapStep(p: Pool): Pool {
    var takesSecond := p.spare.None?;
    Pool(p.back1, if takesSecond then p.back2 else p.spare, p.toWrite,
         None, if takesSecond then None else p.back2, p.full + [p.cur],
         Writing(0), p.run, p.file)
  }

  predicate CanWrite(p: Pool) {
    p.pc.Writing? && p.pc.next < |p.toWrite|
  }

  function WriteStep(p: Pool): Pool
    requires CanWrite(p) && p.toWrite[p.pc.next].Some?
  {
    p.(file := p.file + p.toWrite[p.pc.next].value, pc := Writing(p.pc.next + 1))
  }

  // back() and reset() need a buffer for each replacement that is gone.
  predicate CanRecycle(p: Pool) {
    var kept := if |p.toWrite| > 2 then p.toWrite[..2] else p.toWrite;
    var needed := (if p.back1.None? then 1 else 0) + (if p.back2.None? then 1 else 0);
    needed <= |kept| && forall j :: |kept| - needed <= j < |kept| ==> kept[j].Some?
  }

  function RecycleStep(p: Pool): Pool {
    p.(back1 := if p.back1.None? then Some("") else p.back1,
       back2 := if p.back2.None? then Some("") else p.back2,
       toWrite := [], pc := LoopHead)
  }

  function Step(size: BufferSize, p: Pool, act: Act): Outcome<Pool> {
    match act
    case Append(log, len) =>
      if |log| < len then Blocked
      else if p.cur.None? || |p.cur.value| > size || (p.spare.Some? && |p.spare.value| > size) then Crash
      else Ok(AppendStep(size, p, log, len))
    case CheckRun => if p.pc.LoopHead? then Ok(CheckRunStep(p)) else Blocked
    case Swap => if p.pc.Waiting? then Ok(SwapStep(p)) else Blocked
    case WriteOne =>
      if !CanWrite(p) then Blocked else if p.toWrite[p.pc.next].None? then Crash else Ok(WriteStep(p))
    case Recycle =>
      if !(p.pc.Writing? && p.pc.next == |p.toWrite|) then Blocked
      else if !CanRecycle(p) then Crash else Ok(RecycleStep(p))
    case Stop => Ok(p.(run := false))
  }

  function Exec(size: BufferSize, acts: seq<Act>): Outcome<Pool> {
    if acts == [] then Ok(INITIAL)
    else
      match Exec(size, acts[..|acts| - 1])
      case Ok(p) => Step(size, p, acts[|acts| - 1])
      case o => o
  }

  // ---------- the pool invariant ----------

  predicate Filled(size: BufferSize, bs: seq<Option<string>>) {
    forall j :: 0 <= j < |bs| ==> bs[j].Some? && |bs[j].value| < size
  }

  predicate Inv(size: BufferSize, p: Pool) {
    && p.cur.Some? && |p.cur.value| < size
    && Filled(size, p.full)
    && (if p.full == [] then p.spare == Some("") else p.spare == None)
    && (if p.pc.Writing? then
          && p.back1 == None
          && (p.back2 == Some("") || (p.back2 == None && |p.toWrite| >= 2))
          && 0 < |p.toWrite| && p.pc.next <= |p.toWrite|
          && Filled(size, p.toWrite)
        else
          p.back1 == Some("") && p.back2 == Some("") && p.toWrite == [])
  }

  lemma StepKeepsInv(size: BufferSize, p: Pool, act: Act)
    requires Inv(size, p)
    ensures !Step(size, p, act).Crash?
    ensures Step(size, p, act).Ok? ==> Inv(size, Step(size, p, act).state)
  {
  }

  lemma SwapKeepsInv(size: BufferSize, p: Pool)
    requires Inv(size, p) && p.pc.Waiting?
    ensures Inv(size, SwapStep(p))
  {
    StepKeepsInv(size, p, Swap);
  }

  // No schedule ever dereferences a null buffer or takes from an empty vector.
  lemma {:induction false} NeverCrashes(size: BufferSize, acts: seq<Act>)
    ensures !Exec(size, acts).Crash?
    ensures Exec(size, acts).Ok? ==> Inv(size, Exec(size, acts).state)
  {
    if acts != [] {
      NeverCrashes(size, acts[..|acts| - 1]);
      var before := Exec(size, acts[..|acts| - 1]);
      if before.Ok? {
        StepKeepsInv(size, before.state, acts[|acts| - 1]);
      }
    }
  }

  function Present(b: Option<string>): nat {
    if b.Some? then 1 else 0
  }

  function PresentIn(bs: seq<Option<string>>): nat {
    if bs == [] then 0 else Present(bs[0]) + PresentIn(bs[1..])
  }

  function Live(p: Pool): nat {
    Present(p.cur) + Present(p.spare) + Present(p.back1) + Present(p.back2) +
    PresentIn(p.full) + PresentIn(p.toWrite)
  }

  lemma {:induction false} AllPresent(bs: seq<Option<string>>)
    requires forall j :: 0 <= j < |bs| ==> bs[j].Some?
    ensures PresentIn(bs) == |bs|
  {
    if bs != [] {
      AllPresent(bs[1..]);
    }
  }

  // How many buffers exist whenever the backend is not between its swap and its recycling.
  lemma LiveAtLoopHead(size: BufferSize, acts: seq<Act>)
    requires Exec(size, acts).Ok? && !Exec(size, acts).state.pc.Writing?
    ensures var p := Exec(size, acts).state;
            Live(p) == 3 + if |p.full| == 0 then 1 else |p.full|
  {
    NeverCrashes(size, acts);
    AllPresent(Exec(size, acts).state.full);
  }

  // ---------- one append-only stream ----------

  function Cat(ss: seq<string>): string {
    if ss == [] then "" else Cat(ss[..|ss| - 1]) + ss[|ss| - 1]
  }

  function Values(bs: seq<Option<string>>): (ss: seq<string>)
    ensures |ss| == |bs|
  {
    seq(|bs|, j requires 0 <= j < |bs| => if bs[j].Some? then bs[j].value else "")
  }

  // The buffers the producers have filled since the last swap, oldest first.
  function Chain(p: Pool): (ss: seq<string>)
    ensures |ss| == |p.full| + 1
  {
    Values(p.full) + [if p.cur.Some? then p.cur.value else ""]
  }

  function Unwritten(p: Pool): seq<string> {
    if p.pc.Writing? && p.pc.next <= |p.toWrite| then Values(p.toWrite[p.pc.next..]) else []
  }

  // What the backend has taken over: written, or still to be written from BufferToWrite.
  function TakenOver(p: Pool): string {
    p.file + Cat(Unwritten(p))
  }

  // A record is kept exactly when its length, as an int, is not negative and less than the
  // buffer size; everything else is dropped whole.
  function Record(size: BufferSize, act: Act): seq<string> {
    match act
    case Append(log, len) => if 0 <= len < size && len <= |log| then [log[..len]] else []
    case _ => []
  }

  function Accepted(size: BufferSize, acts: seq<Act>): seq<string> {
    if acts == [] then [] else Accepted(size, acts[..|acts| - 1]) + Record(size, acts[|acts| - 1])
  }

  // How many of the actions come before or with the last swap.
  function LastSwap(acts: seq<Act>): (k: nat)
    ensures k <= |acts|
  {
    if acts == [] then 0
    else if acts[|acts| - 1].Swap? then |acts|
    else LastSwap(acts[..|acts| - 1])
  }

  function BeforeSwap(acts: seq<Act>): seq<Act> {
    acts[..LastSwap(acts)]
  }

  function SinceSwap(acts: seq<Act>): seq<Act> {
    acts[LastSwap(acts)..]
  }

  lemma {:induction false} CatConcat(a: seq<string>, b: seq<string>)
    ensures Cat(a + b) == Cat(a) + Cat(b)
  {
    if b == [] {
      assert a + b == a;
    } else {
      assert (a + b)[..|a + b| - 1] == a + b[..|b| - 1];
      CatConcat(a, b[..|b| - 1]);
      assert Cat(a) + Cat(b) == Cat(a) + Cat(b[..|b| - 1]) + b[|b| - 1];
    }
  }

  lemma CatOne(s: string)
    ensures Cat([s]) == s
  {
    assert [s][..0] == [];
    assert Cat([s]) == Cat([]) + s;
  }

  lemma {:induction false} AcceptedConcat(size: BufferSize, a: seq<Act>, b: seq<Act>)
    ensures Accepted(size, a + b) == Accepted(size, a) + Accepted(size, b)
  {
    if b == [] {
      assert a + b == a;
    } else {
      assert (a + b)[..|a + b| - 1] == a + b[..|b| - 1];
      AcceptedConcat(size, a, b[..|b| - 1]);
    }
  }

  // The record that an append leaves in a buffer it fits into.
  lemma RecordFits(size: BufferSize, contents: string, log: string, len: int32)
    requires |contents| < size && len <= |log| && (len < size - |contents| || contents == "")
    ensures Appended(size, contents, log, ToSizeT(len)) == contents + Cat(Record(size, Append(log, len)))
  {
    if 0 <= len < size {
      CatOne(log[..len]);
    } else {
      assert contents + "" == contents;
    }
  }

  lemma CatChain(p: Pool)
    requires p.cur.Some?
    ensures Cat(Chain(p)) == Cat(Values(p.full)) + p.cur.value
  {
    CatConcat(Values(p.full), [p.cur.value]);
    CatOne(p.cur.value);
  }

  // An append adds its record at the end of the chain and touches nothing else.
  lemma AppendToChain(size: BufferSize, p: Pool, log: string, len: int32)
    requires Inv(size, p) && len <= |log|
    ensures var q := AppendStep(size, p, log, len);
            && Cat(Chain(q)) == Cat(Chain(p)) + Cat(Record(size, Append(log, len)))
            && TakenOver(q) == TakenOver(p)
  {
    if size - |p.cur.value| > len {
      AppendFits(size, p, log, len);
    } else {
      AppendRotates(size, p, log, len);
    }
    assert TakenOver(AppendStep(size, p, log, len)) == TakenOver(p) by { hide Cat, Chain, Record, Inv; }
    hide Cat, Chain, Record, Inv, AppendStep, TakenOver;
  }

  lemma AppendFits(size: BufferSize, p: Pool, log: string, len: int32)
    requires Inv(size, p) && len <= |log| && size - |p.cur.value| > len
    ensures Cat(Chain(AppendStep(size, p, log, len))) == Cat(Chain(p)) + Cat(Record(size, Append(log, len)))
  {
    var q, r := AppendStep(size, p, log, len), Cat(Record(size, Append(log, len)));
    RecordFits(size, p.cur.value, log, len);
    assert q.full == p.full && q.cur == Some(p.cur.value + r);
    hide AppendStep, Record, Inv, Chain;
    CatChain(p);
    CatChain(q);
    assert Cat(Values(p.full)) + (p.cur.value + r) == Cat(Values(p.full)) + p.cur.value + r;
  }

  lemma AppendRotates(size: BufferSize, p: Pool, log: string, len: int32)
    requires Inv(size, p) && len <= |log| && size - |p.cur.value| <= len
    ensures Cat(Chain(AppendStep(size, p, log, len))) == Cat(Chain(p)) + Cat(Record(size, Append(log, len)))
  {
    var q, r := AppendStep(size, p, log, len), Cat(Record(size, Append(log, len)));
    RecordFits(size, "", log, len);
    assert "" + r == r;
    assert q.cur == Some(r) && Values(q.full) == Chain(p);
    hide AppendStep, Record, Inv, Chain;
    CatChain(q);
  }

  // A swap takes over the whole chain and starts an empty one.
  lemma SwapTakesChain(size: BufferSize, p: Pool)
    requires Inv(size, p) && p.pc.Waiting?
    ensures Cat(Chain(SwapStep(p))) == ""
    ensures TakenOver(SwapStep(p)) == TakenOver(p) + Cat(Chain(p))
  {
    var q := SwapStep(p);
    CatOne("");
    assert Chain(q) == [""];
    assert q.toWrite[0..] == p.full + [p.cur];
    assert Unwritten(q) == Chain(p);
    assert p.file + "" == p.file;
  }

  lemma WriteMoves(size: BufferSize, p: Pool)
    requires Inv(size, p) && CanWrite(p)
    ensures TakenOver(WriteStep(p)) == TakenOver(p) && Chain(WriteStep(p)) == Chain(p)
  {
    var q := WriteStep(p);
    var b := p.toWrite[p.pc.next].value;
    assert p.toWrite[p.pc.next..] == [p.toWrite[p.pc.next]] + q.toWrite[q.pc.next..];
    assert Unwritten(p) == [b] + Unwritten(q);
    CatConcat([b], Unwritten(q));
    CatOne(b);
    assert p.file + (b + Cat(Unwritten(q))) == p.file + b + Cat(Unwritten(q));
  }

  lemma StepStream(size: BufferSize, p: Pool, act: Act)
    requires Inv(size, p) && Step(size, p, act).Ok?
    ensures var q := Step(size, p, act).state;
            if act.Swap? then TakenOver(q) == TakenOver(p) + Cat(Chain(p)) && Cat(Chain(q)) == ""
            else TakenOver(q) == TakenOver(p) && Cat(Chain(q)) == Cat(Chain(p)) + Cat(Record(size, act))
  {
    assert forall s: string :: s + "" == s;
    match act
    case Append(log, len) => AppendToChain(size, p, log, len);
    case Swap => SwapTakesChain(size, p);
    case WriteOne => WriteMoves(size, p);
    case Recycle => assert p.toWrite[p.pc.next..] == [];
    case _ =>
  }

  // In every reachable state of every interleaving, what the backend has taken over is
  // exactly the records accepted up to the last swap, and what the producers hold is
  // exactly the records accepted since: nothing lost, doubled, reordered or stale.
  lemma {:induction false} RefinesStream(size: BufferSize, acts: seq<Act>)
    requires Exec(size, acts).Ok?
    ensures var p := Exec(size, acts).state;
            && TakenOver(p) == Cat(Accepted(size, BeforeSwap(acts)))
            && Cat(Chain(p)) == Cat(Accepted(size, SinceSwap(acts)))
            && TakenOver(p) + Cat(Chain(p)) == Cat(Accepted(size, acts))
  {
    if acts == [] {
      CatOne("");
      assert Chain(INITIAL) == [""];
      assert BeforeSwap(acts) == [] && SinceSwap(acts) == [];
    } else {
      var before := acts[..|acts| - 1];
      var p, act := Exec(size, before).state, acts[|acts| - 1];
      RefinesStream(size, before);
      NeverCrashes(size, before);
      assert Exec(size, acts) == Step(size, p, act);
      hide *;
      StepStream(size, p, act);
      SplitAtSwap(size, acts);
    }
    SwapSplits(size, acts);
  }

  lemma SwapSplits(size: BufferSize, acts: seq<Act>)
    ensures Cat(Accepted(size, acts)) == Cat(Accepted(size, BeforeSwap(acts))) + Cat(Accepted(size, SinceSwap(acts)))
  {
    assert acts == BeforeSwap(acts) + SinceSwap(acts);
    AcceptedConcat(size, BeforeSwap(acts), SinceSwap(acts));
    CatConcat(Accepted(size, BeforeSwap(acts)), Accepted(size, SinceSwap(acts)));
  }

  // How one more action moves the boundary at the last swap.
  lemma SplitAtSwap(size: BufferSize, acts: seq<Act>)
    requires acts != []
    ensures var before, act := acts[..|acts| - 1], acts[|acts| - 1];
            if act.Swap? then
              Accepted(size, BeforeSwap(acts)) == Accepted(size, before) && Accepted(size, SinceSwap(acts)) == []
            else
              && BeforeSwap(acts) == BeforeSwap(before)
              && Accepted(size, SinceSwap(acts)) == Accepted(size, SinceSwap(before)) + Record(size, act)
              && Cat(Accepted(size, SinceSwap(acts))) ==
                 Cat(Accepted(size, SinceSwap(before))) + Cat(Record(size, act))
    ensures var before, act := acts[..|acts| - 1], acts[|acts| - 1];
            act.Swap? ==> Cat(Accepted(size, BeforeSwap(acts))) ==
                          Cat(Accepted(size, BeforeSwap(before))) + Cat(Accepted(size, SinceSwap(before)))
  {
    var before, act := acts[..|acts| - 1], acts[|acts| - 1];
    if act.Swap? {
      assert BeforeSwap(acts) == acts && SinceSwap(acts) == [];
      assert Accepted(size, acts) == Accepted(size, before) + [];
      SwapSplits(size, before);
    } else {
      assert BeforeSwap(acts) == BeforeSwap(before);
      var since := SinceSwap(acts);
      assert since[..|since| - 1] == SinceSwap(before) && since[|since| - 1] == act;
      CatConcat(Accepted(size, SinceSwap(before)), Record(size, act));
    }
  }

  // ---------- the backend's loop ----------

  // Nothing but stop() clears m_run.
  lemma {:induction false} RunsUntilStopped(size: BufferSize, acts: seq<Act>)
    requires Exec(size, acts).Ok?
    ensures Exec(size, acts).state.run <==> Stop !in acts
  {
    if acts != [] {
      var before, act := acts[..|acts| - 1], acts[|acts| - 1];
      RunsUntilStopped(size, before);
      assert acts == before + [act];
      var p := Exec(size, before).state;
      assert Exec(size, acts) == Step(size, p, act);
      hide *;
      RunStep(size, p, act);
    }
  }

  lemma RunStep(size: BufferSize, p: Pool, act: Act)
    requires Step(size, p, act).Ok?
    ensures Step(size, p, act).state.run <==> p.run && act != Stop
    ensures Step(size, p, act).state.pc.Exited? ==> p.pc.Exited? || (act == CheckRun && !p.run)
  {
    hide Appended;
  }

  // The backend leaves its loop only after stop().
  lemma {:induction false} ExitsOnlyWhenStopped(size: BufferSize, acts: seq<Act>)
    requires Exec(size, acts).Ok? && Exec(size, acts).state.pc.Exited?
    ensures Stop in acts
  {
    var before, act := acts[..|acts| - 1], acts[|acts| - 1];
    var p := Exec(size, before).state;
    assert Exec(size, acts) == Step(size, p, act);
    hide *;
    RunStep(size, p, act);
    if p.pc.Exited? {
      ExitsOnlyWhenStopped(size, before);
    } else {
      RunsUntilStopped(size, before);
    }
  }

  predicate ByBackend(act: Act) {
    act == CheckRun || act == Swap || act == WriteOne || act == Recycle
  }

  lemma OneMore(size: BufferSize, acts: seq<Act>, act: Act)
    requires Exec(size, acts).Ok?
    ensures Exec(size, acts + [act]) == Step(size, Exec(size, acts).state, act)
  {
    assert (acts + [act])[..|acts + [act]| - 1] == acts;
  }

  // What is left to write in this round.
  function Left(p: Pool): nat {
    if CanWrite(p) then |p.toWrite| - p.pc.next else 0
  }

  predicate Written(p: Pool, q: Pool) {
    && q.pc.LoopHead? && q.run == p.run && q.file == TakenOver(p)
    && q.cur == p.cur && q.spare == p.spare && q.full == p.full
  }

  lemma WritesOne(size: BufferSize, p: Pool)
    requires Inv(size, p) && p.pc.Writing? && CanWrite(p)
    ensures Step(size, p, WriteOne).Ok?
    ensures var q := Step(size, p, WriteOne).state;
            && q.pc.Writing? && Left(q) < Left(p)
            && TakenOver(q) == TakenOver(p) && q.(file := p.file, pc := p.pc) == p
  {
    WriteMoves(size, p);
    hide TakenOver, Chain;
  }

  lemma Recycles(size: BufferSize, p: Pool)
    requires Inv(size, p) && p.pc.Writing? && !CanWrite(p)
    ensures Step(size, p, Recycle).Ok? && Written(p, Step(size, p, Recycle).state)
  {
    assert p.toWrite[p.pc.next..] == [];
    assert TakenOver(p) == p.file + "" == p.file;
  }

  // Between its swap and the loop head the backend never waits, and it writes all it has taken.
  lemma {:induction false} WritesAll(size: BufferSize, acts: seq<Act>) returns (more: seq<Act>)
    requires Exec(size, acts).Ok? && Exec(size, acts).state.pc.Writing?
    ensures forall i :: 0 <= i < |more| ==> ByBackend(more[i])
    ensures Exec(size, acts + more).Ok? && Written(Exec(size, acts).state, Exec(size, acts + more).state)
    decreases Left(Exec(size, acts).state)
  {
    hide *;
    var p := Exec(size, acts).state;
    NeverCrashes(size, acts);
    if CanWrite(p) {
      OneMore(size, acts, WriteOne);
      WritesOne(size, p);
      var rest := WritesAll(size, acts + [WriteOne]);
      WrittenToo(p, Exec(size, acts + [WriteOne]).state, Exec(size, acts + [WriteOne] + rest).state);
      Backend([WriteOne], rest);
      more := [WriteOne] + rest;
      assert acts + more == acts + [WriteOne] + rest;
    } else {
      OneMore(size, acts, Recycle);
      Recycles(size, p);
      Backend([Recycle], []);
      more := [Recycle];
      assert [Recycle] + [] == more;
    }
  }

  lemma Backend(a: seq<Act>, b: seq<Act>)
    requires |a| <= 1 && (a != [] ==> a[0] == CheckRun || a[0] == Swap || a[0] == WriteOne || a[0] == Recycle)
    requires forall i :: 0 <= i < |b| ==> ByBackend(b[i])
    ensures forall i :: 0 <= i < |a + b| ==> ByBackend((a + b)[i])
  {
  }

  lemma WrittenToo(p: Pool, q: Pool, r: Pool)
    requires Written(q, r) && TakenOver(q) == TakenOver(p) && q.(file := p.file, pc := p.pc) == p
    ensures Written(p, r)
  {
    hide TakenOver;
  }

  lemma Swaps(size: BufferSize, p: Pool)
    requires p.pc.Waiting?
    ensures Step(size, p, Swap) == Ok(SwapStep(p)) && SwapStep(p).pc.Writing?
  {
  }

  lemma SwapsAndWrites(size: BufferSize, acts: seq<Act>) returns (more: seq<Act>)
    requires Exec(size, acts).Ok? && Exec(size, acts).state.pc.Waiting?
    ensures forall i :: 0 <= i < |more| ==> ByBackend(more[i])
    ensures Exec(size, acts + more).Ok? && Exec(size, acts + more).state.pc.LoopHead?
    ensures var p := Exec(size, acts).state; Exec(size, acts + more).state.file == TakenOver(p) + Cat(Chain(p))
  {
    hide *;
    var p := Exec(size, acts).state;
    NeverCrashes(size, acts);
    OneMore(size, acts, Swap);
    Swaps(size, p);
    SwapTakesChain(size, p);
    var rest := WritesAll(size, acts + [Swap]);
    WrittenFile(SwapStep(p), Exec(size, acts + [Swap] + rest).state);
    Backend([Swap], rest);
    more := [Swap] + rest;
    assert acts + more == acts + [Swap] + rest;
  }

  lemma WrittenFile(p: Pool, q: Pool)
    requires Written(p, q)
    ensures q.pc.LoopHead? && q.run == p.run && q.file == TakenOver(p)
    ensures TakenOver(q) == TakenOver(p) && Chain(q) == Chain(p)
  {
    assert TakenOver(q) == q.file + "" == q.file;
    hide TakenOver;
  }

  lemma PassesTest(size: BufferSize, p: Pool)
    requires p.run && p.pc.LoopHead?
    ensures Step(size, p, CheckRun).Ok? && Step(size, p, CheckRun).state == p.(pc := Waiting)
    ensures TakenOver(p.(pc := Waiting)) == TakenOver(p) && Chain(p.(pc := Waiting)) == Chain(p)
  {
  }

  // Up to the test of m_run, and through it.
  lemma ComesToWait(size: BufferSize, acts: seq<Act>) returns (more: seq<Act>)
    requires Exec(size, acts).Ok? && Exec(size, acts).state.run && !Exec(size, acts).state.pc.Exited?
    ensures forall i :: 0 <= i < |more| ==> ByBackend(more[i])
    ensures Exec(size, acts + more).Ok? && Exec(size, acts + more).state.pc.Waiting?
    ensures var p, q := Exec(size, acts).state, Exec(size, acts + more).state;
            TakenOver(q) == TakenOver(p) && Chain(q) == Chain(p)
    decreases Exec(size, acts).state.pc.Writing?
  {
    hide *;
    var p := Exec(size, acts).state;
    if p.pc.Writing? {
      var back := WritesAll(size, acts);
      WrittenFile(p, Exec(size, acts + back).state);
      var rest := ComesToWait(size, acts + back);
      more := back + rest;
      assert acts + more == acts + back + rest;
    } else if p.pc.LoopHead? {
      OneMore(size, acts, CheckRun);
      PassesTest(size, p);
      Backend([CheckRun], []);
      more := [CheckRun];
      assert [CheckRun] + [] == more;
    } else {
      more := [];
      assert acts + more == acts;
    }
  }

  // As long as stop() has not been called, wherever the backend is and whatever the producers
  // have appended, the backend alone can bring every accepted record into the file.
  lemma CanFlush(size: BufferSize, acts: seq<Act>) returns (more: seq<Act>)
    requires Exec(size, acts).Ok? && Stop !in acts
    ensures forall i :: 0 <= i < |more| ==> ByBackend(more[i])
    ensures Exec(size, acts + more).Ok? && Exec(size, acts + more).state.pc.LoopHead?
    ensures Exec(size, acts + more).state.file == Cat(Accepted(size, acts))
  {
    hide *;
    RunsUntilStopped(size, acts);
    if Exec(size, acts).state.pc.Exited? {
      ExitsOnlyWhenStopped(size, acts);
    }
    RefinesStream(size, acts);
    var front := ComesToWait(size, acts);
    var rest := SwapsAndWrites(size, acts + front);
    more := front + rest;
    assert acts + more == acts + front + rest;
  }

  // ---------- the shutdown boundary ----------

  // When the backend has left its loop the file holds the records accepted up to its last
  // swap; the records still in m_buffers and m_curBuffer are the ones missing from it.
  lemma ShutdownBoundary(size: BufferSize, acts: seq<Act>)
    requires Exec(size, acts).Ok? && Exec(size, acts).state.pc.Exited?
    ensures var p := Exec(size, acts).state;
            && p.file == Cat(Accepted(size, BeforeSwap(acts)))
            && Cat(Accepted(size, acts)) == p.file + Cat(Chain(p))
            && (p.file == Cat(Accepted(size, acts)) <==> Cat(Accepted(size, SinceSwap(acts))) == "")
  {
    var p := Exec(size, acts).state;
    RefinesStream(size, acts);
    assert p.file + "" == p.file;
    assert |p.file + Cat(Chain(p))| == |p.file| + |Cat(Chain(p))|;
  }

  // What stop() saves.  From a state p0 in which m_run is cleared, the backend swaps once more
  // if it had already seen m_run set, and otherwise never again.
  predicate SinceStop(p0: Pool, p: Pool) {
    && !p.run
    && (if p.pc.Waiting? then
          p0.pc.Waiting? && TakenOver(p) == TakenOver(p0) && Cat(Chain(p0)) <= Cat(Chain(p))
        else if p0.pc.Waiting? then
          TakenOver(p0) + Cat(Chain(p0)) <= TakenOver(p)
        else
          TakenOver(p) == TakenOver(p0))
  }

  lemma StepSinceStop(size: BufferSize, p0: Pool, p: Pool, act: Act)
    requires Inv(size, p) && Step(size, p, act).Ok? && SinceStop(p0, p)
    ensures SinceStop(p0, Step(size, p, act).state)
  {
    var q := Step(size, p, act).state;
    assert !p.run;
    hide *;
    StepStopped(size, p, act);
    StepStream(size, p, act);
    StreamSinceStop(p0, p, q, act.Swap?, Cat(Record(size, act)));
  }

  // After stop() the backend never passes its test of m_run again.
  lemma StepStopped(size: BufferSize, p: Pool, act: Act)
    requires Step(size, p, act).Ok? && !p.run
    ensures var q := Step(size, p, act).state;
            !q.run && (q.pc.Waiting? <==> p.pc.Waiting? && !act.Swap?) && (act.Swap? ==> p.pc.Waiting?)
  {
    hide Appended;
  }

  lemma StreamSinceStop(p0: Pool, p: Pool, q: Pool, swaps: bool, r: string)
    requires SinceStop(p0, p) && !q.run && (q.pc.Waiting? <==> p.pc.Waiting? && !swaps) && (swaps ==> p.pc.Waiting?)
    requires if swaps then TakenOver(q) == TakenOver(p) + Cat(Chain(p))
             else TakenOver(q) == TakenOver(p) && Cat(Chain(q)) == Cat(Chain(p)) + r
    ensures SinceStop(p0, q)
  {
    hide TakenOver, Chain, Cat;
  }

  lemma {:induction false} RunSinceStop(size: BufferSize, before: seq<Act>, after: seq<Act>)
    requires Exec(size, before + [Stop] + after).Ok?
    ensures Exec(size, before).Ok?
    ensures SinceStop(Exec(size, before).state, Exec(size, before + [Stop] + after).state)
    decreases |after|
  {
    var acts := before + [Stop] + after;
    var front := acts[..|acts| - 1];
    NeverCrashes(size, front);
    if after == [] {
      assert front == before && acts[|acts| - 1] == Stop;
      var p := Exec(size, before).state;
      assert Chain(p.(run := false)) == Chain(p) && TakenOver(p.(run := false)) == TakenOver(p);
    } else {
      assert front == before + [Stop] + after[..|after| - 1];
      var act := acts[|acts| - 1];
      assert Exec(size, acts) == Step(size, Exec(size, front).state, act);
      hide *;
      RunSinceStop(size, before, after[..|after| - 1]);
      StepSinceStop(size, Exec(size, before).state, Exec(size, front).state, act);
    }
  }

  // Hence everything accepted before a call of stop() reaches the file if and only if, at the
  // call, the backend is past its test of m_run or the producers' buffers hold nothing.
  lemma StopSaves(size: BufferSize, before: seq<Act>, after: seq<Act>)
    requires Exec(size, before + [Stop] + after).Ok? && Exec(size, before + [Stop] + after).state.pc.Exited?
    ensures Exec(size, before).Ok?
    ensures var p0, p := Exec(size, before).state, Exec(size, before + [Stop] + after).state;
            Cat(Accepted(size, before)) <= p.file <==> p0.pc.Waiting? || Cat(Chain(p0)) == ""
  {
    RunSinceStop(size, before, after);
    var p0, p := Exec(size, before).state, Exec(size, before + [Stop] + after).state;
    RefinesStream(size, before);
    assert TakenOver(p) == p.file + "" == p.file;
    assert TakenOver(p0) + "" == TakenOver(p0);
    hide Exec, Accepted, TakenOver, Chain;
    assert |TakenOver(p0) + Cat(Chain(p0))| == |TakenOver(p0)| + |Cat(Chain(p0))|;
  }

  // A run that loses a record: stop() comes before the backend's first test of m_run.
  lemma StopCanLose()
    ensures var acts := [Append("x", 1), Stop, CheckRun];
            && Exec(10, acts).Ok? && Exec(10, acts).state.pc.Exited?
            && Exec(10, acts).state.file == "" && Accepted(10, acts) == ["x"]
  {
    var a1, a2, a3 := [Append("x", 1)], [Append("x", 1), Stop], [Append("x", 1), Stop, CheckRun];
    assert a1[..0] == [] && a2[..1] == a1 && a3[..2] == a2;
    assert Exec(10, a1) == Step(10, INITIAL, Append("x", 1));
    assert Exec(10, a2) == Ok(Exec(10, a1).state.(run := false));
    assert Exec(10, a3) == Ok(Exec(10, a2).state.(pc := Exited));
    assert "x"[..1] == "x";
    assert Accepted(10, a1) == ["x"] && Accepted(10, a2) == ["x"] + [] && Accepted(10, a3) == ["x"] + [] + [];
  }

  // ---------- whole records, and how full the buffers are ----------

  // The records in each buffer of the chain.
  function Groups(size: BufferSize, acts: seq<Act>): (gs: seq<seq<string>>)
    ensures |gs| > 0
  {
    if acts == [] then [[]]
    else
      var n := |acts| - 1;
      var gs, act := Groups(size, acts[..n]), acts[n];
      if act.Swap? then [[]]
      else if act.Append? && Exec(size, acts[..n]).Ok? && Rotates(size, Exec(size, acts[..n]).state, act.len) then
        gs + [Record(size, act)]
      else
        gs[|gs| - 1 := gs[|gs| - 1] + Record(size, act)]
  }

  predicate Rotates(size: BufferSize, p: Pool, len: int32) {
    p.cur.Some? && size - |p.cur.value| <= len
  }

  predicate Holds(gs: seq<seq<string>>, chain: seq<string>) {
    |gs| == |chain| && forall j :: 0 <= j < |gs| ==> Cat(gs[j]) == chain[j]
  }

  function Join(gs: seq<seq<string>>): seq<string> {
    if gs == [] then [] else Join(gs[..|gs| - 1]) + gs[|gs| - 1]
  }

  lemma JoinEmpty()
    ensures Join([[]]) == []
  {
    var one: seq<seq<string>> := [[]];
    assert one[..0] == [];
  }

  // Every buffer holds whole records: a record is never split over two buffers.
  lemma {:induction false} WholeRecords(size: BufferSize, acts: seq<Act>)
    requires Exec(size, acts).Ok?
    ensures Holds(Groups(size, acts), Chain(Exec(size, acts).state))
    ensures Join(Groups(size, acts)) == Accepted(size, SinceSwap(acts))
    ensures forall j :: 0 <= j < |Groups(size, acts)| ==> |Cat(Groups(size, acts)[j])| < size
  {
    NeverCrashes(size, acts);
    if acts != [] {
      var n := |acts| - 1;
      var before, act := acts[..n], acts[n];
      var p := Exec(size, before).state;
      WholeRecords(size, before);
      NeverCrashes(size, before);
      StepGroups(size, p, act, Groups(size, before));
      GroupsJoin(size, acts);
    } else {
      JoinEmpty();
      assert Chain(INITIAL) == [""];
    }
    ChainFits(size, Exec(size, acts).state);
  }

  lemma ChainFits(size: BufferSize, p: Pool)
    requires Inv(size, p)
    ensures forall j :: 0 <= j < |Chain(p)| ==> |Chain(p)[j]| < size
  {
  }

  lemma StepGroups(size: BufferSize, p: Pool, act: Act, gs: seq<seq<string>>)
    requires Inv(size, p) && Step(size, p, act).Ok? && Holds(gs, Chain(p)) && gs != []
    ensures var q, last := Step(size, p, act).state, |gs| - 1;
            Holds(if act.Swap? then [[]]
                  else if act.Append? && Rotates(size, p, act.len) then gs + [Record(size, act)]
                  else gs[last := gs[last] + Record(size, act)], Chain(q))
  {
    var q, last := Step(size, p, act).state, |gs| - 1;
    CatConcat(gs[last], Record(size, act));
    if act.Append? && 0 <= act.len < size {
      CatOne(act.log[..act.len]);
    }
    if act.Append? && Rotates(size, p, act.len) {
      assert Values(q.full) == Chain(p);
    } else if !act.Swap? {
      assert q.full == p.full;
      assert Record(size, act) == [] ==> gs[last] + [] == gs[last];
    }
  }

  lemma GroupsJoin(size: BufferSize, acts: seq<Act>)
    requires acts != []
    requires Join(Groups(size, acts[..|acts| - 1])) == Accepted(size, SinceSwap(acts[..|acts| - 1]))
    ensures Join(Groups(size, acts)) == Accepted(size, SinceSwap(acts))
  {
    var before, act := acts[..|acts| - 1], acts[|acts| - 1];
    SplitAtSwap(size, acts);
    if act.Swap? {
      JoinEmpty();
    } else {
      JoinGrows(Groups(size, before), Record(size, act));
    }
  }

  lemma JoinGrows(gs: seq<seq<string>>, r: seq<string>)
    requires gs != []
    ensures Join(gs + [r]) == Join(gs) + r
    ensures Join(gs[|gs| - 1 := gs[|gs| - 1] + r]) == Join(gs) + r
  {
    var last := |gs| - 1;
    var grown := gs[last := gs[last] + r];
    assert (gs + [r])[..|gs|] == gs;
    assert grown[..last] == gs[..last];
    assert Join(gs[..last]) + (gs[last] + r) == Join(gs[..last]) + gs[last] + r;
  }

  predicate ShortRecords(size: BufferSize, acts: seq<Act>) {
    forall j :: 0 <= j < |acts| && acts[j].Append? ==> 0 <= acts[j].len < size
  }

  predicate Dense(size: BufferSize, chain: seq<string>) {
    forall j :: 0 <= j < |chain| - 1 ==> |chain[j]| + |chain[j + 1]| >= size
  }

  lemma StepDense(size: BufferSize, p: Pool, act: Act)
    requires Inv(size, p) && Step(size, p, act).Ok? && Dense(size, Chain(p))
    requires act.Append? ==> 0 <= act.len < size
    ensures Dense(size, Chain(Step(size, p, act).state))
  {
    var q := Step(size, p, act).state;
    if act.Append? && Rotates(size, p, act.len) {
      assert Values(q.full) == Chain(p);
      assert Chain(p)[|p.full|] == p.cur.value;
    } else if !act.Swap? {
      assert q.full == p.full;
      assert forall j :: 0 <= j < |Chain(p)| ==> |Chain(p)[j]| <= |Chain(q)[j]|;
    }
  }

  lemma {:induction false} ChainIsDense(size: BufferSize, acts: seq<Act>)
    requires Exec(size, acts).Ok? && ShortRecords(size, acts)
    ensures Dense(size, Chain(Exec(size, acts).state))
  {
    if acts != [] {
      var before := acts[..|acts| - 1];
      ChainIsDense(size, before);
      NeverCrashes(size, before);
      StepDense(size, Exec(size, before).state, acts[|acts| - 1]);
    }
  }

  lemma CatTwo(chain: seq<string>)
    requires |chain| >= 2
    ensures var n := |chain|;
            |Cat(chain)| == |Cat(chain[..n - 2])| + |chain[n - 2]| + |chain[n - 1]|
  {
    var n := |chain|;
    assert chain[..n - 1][..n - 2] == chain[..n - 2];
  }

  lemma Half(n: nat, size: nat)
    requires n >= 2
    ensures n / 2 * size == (n - 2) / 2 * size + size
  {
    assert n / 2 == (n - 2) / 2 + 1;
  }

  lemma {:induction false} DenseFills(size: BufferSize, chain: seq<string>)
    requires Dense(size, chain)
    ensures |chain| / 2 * size <= |Cat(chain)|
  {
    var n := |chain|;
    if n >= 2 {
      assert |chain[n - 2]| + |chain[n - 2 + 1]| >= size;
      DenseFills(size, chain[..n - 2]);
      CatTwo(chain);
      Half(n, size);
    } else {
      assert n / 2 == 0;
    }
  }

  // If no record is too long for a buffer, the queue of buffers that waits for the backend
  // is at most twice as long as the bytes in it need.
  lemma OccupancyBound(size: BufferSize, acts: seq<Act>)
    requires Exec(size, acts).Ok? && ShortRecords(size, acts)
    ensures var p := Exec(size, acts).state;
            (|p.full| + 1) / 2 * size <= |Cat(Accepted(size, SinceSwap(acts)))|
  {
    ChainIsDense(size, acts);
    DenseFills(size, Chain(Exec(size, acts).state));
    RefinesStream(size, acts);
  }

  // ---------- the length that log() passes ----------

  // What is kept of a string that log() hands over, whose length is converted to an int.
  function Kept(size: BufferSize, log: string): seq<string> {
    Record(size, Append(log, ToInt32(|log|)))
  }

  // A string comes through whole exactly if it is shorter than the buffer.
  lemma KeptWhole(size: BufferSize, log: string)
    ensures Kept(size, log) == [log] <==> |log| < size
  {
    if Kept(size, log) == [log] {
      var len := ToInt32(|log|);
      assert 0 <= len < size;
      assert log[..len] == log;
      assert |log[..len]| == len;
    }
    assert log[..|log|] == log;
  }
}
