/**
 The asynchronous appender over real buffers (code/common/log.cpp:397-493).

 Its fields are those of `AsycLogAppender` together with the locals of `backendThread`.
 Each method is one atomic step, on buffer objects that move between the slots, are
 allocated when the pool runs dry and are emptied for reuse; each is proved to do to the
 buffers' contents what the machine of `AppenderModel` does, so everything proved there
 about all schedules holds of these objects.
 */
module AsyncAppenders {
  import opened Outcomes
  import opened FixBuffers
  import opened AppenderModel

  ghost function Storage(b: FixBuffer?): set<object> {
    if b == null then {} else {b.data}
  }

  ghost function StorageOf(bs: seq<FixBuffer?>): set<object> {
    set b | b in bs && b != null :: b.data
  }

  ghost predicate Sound(b: FixBuffer?, size: BufferSize)
    reads b
  {
    b != null ==> b.Valid() && b.size == size
  }

  ghost function Val(b: FixBuffer?): Option<string>
    requires b != null ==> b.Valid()
    reads b, Storage(b)
  {
    if b == null then None else Some(b.Contents())
  }

  ghost function Vals(bs: seq<FixBuffer?>): (r: seq<Option<string>>)
    requires forall j :: 0 <= j < |bs| && bs[j] != null ==> bs[j].Valid()
    reads bs, StorageOf(bs)
    ensures |r| == |bs|
  {
    seq(|bs|, j requires 0 <= j < |bs| && (bs[j] != null ==> bs[j].Valid()) reads bs, StorageOf(bs) => Val(bs[j]))
  }

  // Two slots do not own the same buffer, nor two buffers the same storage.
  ghost predicate Apart(a: FixBuffer?, b: FixBuffer?) {
    a != null && b != null ==> a != b && a.data != b.data
  }

  ghost predicate ApartFrom(a: FixBuffer?, bs: seq<FixBuffer?>) {
    forall j :: 0 <= j < |bs| ==> Apart(a, bs[j])
  }

  ghost predicate AllApart(bs: seq<FixBuffer?>) {
    forall i, j :: 0 <= i < j < |bs| ==> Apart(bs[i], bs[j])
  }

  ghost predicate AllApartFrom(as_: seq<FixBuffer?>, bs: seq<FixBuffer?>) {
    forall i, j :: 0 <= i < |as_| && 0 <= j < |bs| ==> Apart(as_[i], bs[j])
  }

  predicate CanTake(p: Pool) {
    p.toWrite != [] && p.toWrite[|p.toWrite| - 1].Some?
  }

  // Every place that can own a buffer.
  datatype Slots = Slots(cur: FixBuffer?, next: FixBuffer?, back1: FixBuffer?, back2: FixBuffer?,
                         full: seq<FixBuffer?>, out: seq<FixBuffer?>)

  // No buffer is owned twice.
  ghost predicate Distinct(s: Slots) {
    && Apart(s.cur, s.next) && Apart(s.cur, s.back1) && Apart(s.cur, s.back2)
    && Apart(s.next, s.back1) && Apart(s.next, s.back2) && Apart(s.back1, s.back2)
    && ApartFrom(s.cur, s.full) && ApartFrom(s.next, s.full)
    && ApartFrom(s.back1, s.full) && ApartFrom(s.back2, s.full)
    && ApartFrom(s.cur, s.out) && ApartFrom(s.next, s.out)
    && ApartFrom(s.back1, s.out) && ApartFrom(s.back2, s.out)
    && AllApart(s.full) && AllApart(s.out) && AllApartFrom(s.full, s.out)
  }

  lemma DistinctRotate(s: Slots)
    requires Distinct(s)
    ensures Distinct(Slots(s.next, null, s.back1, s.back2, s.full + [s.cur], s.out))
  {
  }

  lemma DistinctNew(s: Slots, b: FixBuffer)
    requires Distinct(s) && s.cur == null
    requires Apart(b, s.next) && Apart(b, s.back1) && Apart(b, s.back2) && ApartFrom(b, s.full) && ApartFrom(b, s.out)
    ensures Distinct(s.(cur := b))
  {
  }

  lemma DistinctSwap(s: Slots)
    requires Distinct(s)
    ensures Distinct(Slots(s.back1, s.next, null, s.back2, s.out, s.full + [s.cur]))
    ensures Distinct(Slots(s.back1, s.back2, null, null, s.out, s.full + [s.cur]))
  {
  }

  lemma DistinctClear(s: Slots)
    requires Distinct(s)
    ensures Distinct(s.(out := []))
  {
  }

  lemma DistinctRecycle(s: Slots, n: nat)
    requires Distinct(s) && n < |s.out|
    ensures Distinct(s.(back1 := s.out[n], out := s.out[..n]))
    ensures Distinct(s.(back2 := s.out[n], out := s.out[..n]))
    ensures Distinct(s.(out := s.out[..n]))
  {
  }

  class AsyncAppender {
    const size: BufferSize
    var curBuffer: FixBuffer?
    var nextBuffer: FixBuffer?
    var buffers: seq<FixBuffer?>
    var run: bool
    // the locals of the backend thread, its position, and the file it writes
    var replaceBuffer1: FixBuffer?
    var replaceBuffer2: FixBuffer?
    var bufferToWrite: seq<FixBuffer?>
    var pc: BackendPc
    var file: string

    ghost function Objects(): set<object?>
      reads this
    {
      {this, curBuffer, nextBuffer, replaceBuffer1, replaceBuffer2} +
      Storage(curBuffer) + Storage(nextBuffer) + Storage(replaceBuffer1) + Storage(replaceBuffer2) +
      (set b | b in buffers) + StorageOf(buffers) + (set b | b in bufferToWrite) + StorageOf(bufferToWrite)
    }

    ghost predicate BuffersSound()
      reads this, Objects()
    {
      && Sound(curBuffer, size) && Sound(nextBuffer, size)
      && Sound(replaceBuffer1, size) && Sound(replaceBuffer2, size)
      && (forall j :: 0 <= j < |buffers| ==> Sound(buffers[j], size))
      && (forall j :: 0 <= j < |bufferToWrite| ==> Sound(bufferToWrite[j], size))
    }

    ghost function Owners(): Slots
      reads this
    {
      Slots(curBuffer, nextBuffer, replaceBuffer1, replaceBuffer2, buffers, bufferToWrite)
    }

    ghost predicate Unshared()
      reads this
    {
      Distinct(Owners())
    }

    ghost function View(): Pool
      requires BuffersSound()
      reads this, Objects()
    {
      Pool(Val(curBuffer), Val(nextBuffer), Vals(buffers), Val(replaceBuffer1), Val(replaceBuffer2),
           Vals(bufferToWrite), pc, run, file)
    }

    ghost predicate Valid()
      reads this, Objects()
    {
      BuffersSound() && Unshared() && Inv(size, View())
    }

    constructor (size: BufferSize)
      ensures Valid() && this.size == size && View() == INITIAL
    {
      this.size := size;
      curBuffer := new FixBuffer(size);
      nextBuffer := new FixBuffer(size);
      buffers := [];
      run := true;
      replaceBuffer1 := new FixBuffer(size);
      replaceBuffer2 := new FixBuffer(size);
      bufferToWrite := [];
      pc := LoopHead;
      file := "";
      new;
      assert View() == INITIAL;
    }

    method PutCurrent(log: string, len: int32)
      requires BuffersSound() && Unshared() && curBuffer != null && len <= |log|
      modifies curBuffer, Storage(curBuffer)
      ensures BuffersSound() && Unshared()
      ensures var p := old(View()); View() == p.(cur := Put(size, p.cur, log, len))
    {
      ghost var p := View();
      curBuffer.Append(log, ToSizeT(len));
      assert Vals(buffers) == p.full;
      assert Vals(bufferToWrite) == p.toWrite;
    }

    // What the producer does when the record does not fit: the current buffer joins the full ones
    // and the spare, or else a new buffer, takes its place.
    method Rotate()
      requires Valid()
      modifies this`buffers, this`curBuffer, this`nextBuffer
      ensures BuffersSound() && Unshared()
      ensures curBuffer != null
      ensures curBuffer == old(nextBuffer) || (fresh(curBuffer) && fresh(curBuffer.data))
      ensures var p := old(View());
              View() == p.(full := p.full + [p.cur], cur := Some(""), spare := None)
    {
      ghost var p, owners := View(), Owners();
      assert nextBuffer != null ==> Val(nextBuffer) == Some("");
      DistinctRotate(owners);
      hide Inv;
      buffers := buffers + [curBuffer];
      if nextBuffer != null {
        curBuffer := nextBuffer;
        nextBuffer := null;
      } else {
        curBuffer := new FixBuffer(size);
        DistinctNew(Slots(null, null, owners.back1, owners.back2, owners.full + [owners.cur], owners.out), curBuffer);
      }
      hide Distinct;
      assert Vals(buffers) == p.full + [p.cur];
      assert Vals(bufferToWrite) == p.toWrite;
    }

    method Append(log: string, len: int32)
      requires Valid() && len <= |log|
      modifies this, curBuffer, Storage(curBuffer), nextBuffer, Storage(nextBuffer)
      ensures Valid() && View() == AppendStep(size, old(View()), log, len)
    {
      ghost var p := View();
      StepKeepsInv(size, p, AppenderModel.Append(log, len));
      if curBuffer.Avail() <= len {
        Rotate();
      }
      PutCurrent(log, len);
      assert View() == AppendStep(size, p, log, len);
    }

    method CheckRun()
      requires Valid() && pc == LoopHead
      modifies this`pc
      ensures Valid() && View() == CheckRunStep(old(View()))
      ensures pc == if run then Waiting else Exited
    {
      ghost var p := View();
      pc := if run then Waiting else Exited;
      assert View() == CheckRunStep(p);
      StepKeepsInv(size, p, AppenderModel.CheckRun);
    }

    method Swap()
      requires Valid() && pc == Waiting
      modifies this
      ensures Valid() && View() == SwapStep(old(View()))
    {
      ghost var p := View();
      DistinctSwap(Owners());
      hide Distinct;
      buffers := buffers + [curBuffer];
      curBuffer := replaceBuffer1;
      replaceBuffer1 := null;
      bufferToWrite, buffers := buffers, bufferToWrite;
      if nextBuffer == null {
        nextBuffer := replaceBuffer2;
        replaceBuffer2 := null;
      }
      pc := Writing(0);
      assert Vals(bufferToWrite) == p.full + [p.cur];
      assert View() == SwapStep(p);
      hide View, SwapStep;
      SwapKeepsInv(size, p);
    }

    method WriteOne()
      requires Valid() && pc.Writing? && pc.next < |bufferToWrite|
      modifies this`pc, this`file
      ensures Valid() && View() == WriteStep(old(View()))
    {
      ghost var p := View();
      var buffer := bufferToWrite[pc.next];
      assert Val(buffer) == p.toWrite[pc.next];
      file := file + buffer.data[..buffer.Length()];
      pc := Writing(pc.next + 1);
      assert View() == WriteStep(p);
      StepKeepsInv(size, p, AppenderModel.WriteOne);
    }

    // back(), pop_back() and reset().
    method TakeLast() returns (b: FixBuffer)
      requires BuffersSound() && Unshared()
      requires bufferToWrite != [] && bufferToWrite[|bufferToWrite| - 1] != null
      modifies this`bufferToWrite, bufferToWrite[|bufferToWrite| - 1]
      ensures b == old(bufferToWrite)[|old(bufferToWrite)| - 1] && b.Valid() && b.size == size && b.Contents() == ""
      ensures bufferToWrite == old(bufferToWrite)[..|old(bufferToWrite)| - 1]
      ensures BuffersSound() && Distinct(Owners().(back1 := b)) && Distinct(Owners().(back2 := b))
      ensures var p := old(View()); View() == p.(toWrite := p.toWrite[..|p.toWrite| - 1])
    {
      ghost var p := View();
      var n := |bufferToWrite| - 1;
      DistinctRecycle(Owners(), n);
      b := bufferToWrite[n];
      bufferToWrite := bufferToWrite[..n];
      b.Reset();
      assert Vals(buffers) == p.full;
      assert Vals(bufferToWrite) == p.toWrite[..n];
    }

    method Truncate()
      requires BuffersSound() && Unshared()
      modifies this`bufferToWrite
      ensures BuffersSound() && Unshared()
      ensures bufferToWrite <= old(bufferToWrite)
      ensures var p := old(View());
              View() == p.(toWrite := if |p.toWrite| > 2 then p.toWrite[..2] else p.toWrite)
    {
      if |bufferToWrite| > 2 {
        DistinctRecycle(Owners(), 2);
        bufferToWrite := bufferToWrite[..2];
      }
    }

    method RefillFirst()
      requires BuffersSound() && Unshared()
      requires CanTake(View()) || View().back1.Some?
      modifies this`bufferToWrite, this`replaceBuffer1, bufferToWrite
      ensures BuffersSound() && Unshared()
      ensures bufferToWrite <= old(bufferToWrite)
      ensures var p := old(View());
              View() == if p.back1.Some? then p else p.(back1 := Some(""), toWrite := p.toWrite[..|p.toWrite| - 1])
    {
      assert |bufferToWrite| > 0 ==> Val(bufferToWrite[|bufferToWrite| - 1]) == View().toWrite[|bufferToWrite| - 1];
      if replaceBuffer1 == null {
        replaceBuffer1 := TakeLast();
      }
    }

    method RefillSecond()
      requires BuffersSound() && Unshared()
      requires CanTake(View()) || View().back2.Some?
      modifies this`bufferToWrite, this`replaceBuffer2, bufferToWrite
      ensures BuffersSound() && Unshared()
      ensures var p := old(View());
              View() == if p.back2.Some? then p else p.(back2 := Some(""), toWrite := p.toWrite[..|p.toWrite| - 1])
    {
      assert |bufferToWrite| > 0 ==> Val(bufferToWrite[|bufferToWrite| - 1]) == View().toWrite[|bufferToWrite| - 1];
      if replaceBuffer2 == null {
        replaceBuffer2 := TakeLast();
      }
    }

    method Clear()
      requires BuffersSound() && Unshared()
      modifies this`bufferToWrite, this`pc
      ensures BuffersSound() && Unshared() && View() == old(View()).(toWrite := [], pc := LoopHead)
    {
      DistinctClear(Owners());
      bufferToWrite := [];
      pc := LoopHead;
    }

    method Recycle()
      requires Valid() && pc.Writing? && pc.next == |bufferToWrite|
      modifies this, bufferToWrite
      ensures Valid() && View() == RecycleStep(old(View()))
    {
      ghost var p := View();
      StepKeepsInv(size, p, AppenderModel.Recycle);
      Truncate();
      RefillFirst();
      RefillSecond();
      Clear();
      assert View() == RecycleStep(p);
    }

    method Stop()
      requires Valid()
      modifies this`run
      ensures Valid() && View() == old(View()).(run := false)
    {
      ghost var p := View();
      run := false;
      assert View() == p.(run := false);
      StepKeepsInv(size, p, AppenderModel.Stop);
    }
  }
}
