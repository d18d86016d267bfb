/**
 The bounded byte buffer of the asynchronous log (code/common/fixbuffer.hpp).
 */
module FixBuffers {

  const INT_MAX := 0x7fff_ffff
  const TWO_TO_THE_64 := 0x1_0000_0000_0000_0000

  type int32 = x: int | -0x8000_0000 <= x <= INT_MAX
  // The template parameter SIZE: a positive int.
  type BufferSize = x: int | 0 < x <= INT_MAX witness 1

  // An int converted to size_t, as where the appender hands its length to the buffer.
  function ToSizeT(n: int32): (r: nat)
    ensures n >= 0 ==> r == n
    ensures n < 0 ==> r > INT_MAX
    ensures r < TWO_TO_THE_64 && (r - n) % TWO_TO_THE_64 == 0
  {
    if n >= 0 then n else n + TWO_TO_THE_64
  }

  // A length converted to int, as where log() hands its string to the appender.
  function ToInt32(n: nat): (r: int32)
    ensures n <= INT_MAX ==> r == n
    ensures r <= n && exists k: nat :: n == r + k * 0x1_0000_0000
  {
    var q := n / 0x1_0000_0000;
    var m := n - q * 0x1_0000_0000;
    if m <= INT_MAX then
      assert n == m + q * 0x1_0000_0000;
      m
    else
      assert n == m - 0x1_0000_0000 + (q + 1) * 0x1_0000_0000;
      m - 0x1_0000_0000
  }

  // What a buffer with the given contents holds after append(buf, len).
  function Appended(size: BufferSize, contents: string, buf: string, len: nat): (r: string)
    requires |contents| <= size
    requires len < size - |contents| ==> len <= |buf|
    ensures |contents| <= |r| <= size
    ensures |contents| < size ==> |r| < size
  {
    if len < size - |contents| then contents + buf[..len] else contents
  }

  class FixBuffer {
    const size: BufferSize
    const data: array<char>
    var cur: nat               // m_cur - m_data

    ghost predicate Valid()
      reads this
    {
      data.Length == size && cur <= size
    }

    // The bytes that count; what lies behind the cursor is stale.
    ghost function Contents(): (s: string)
      requires Valid()
      reads this, data
      ensures |s| == cur
    {
      data[..cur]
    }

    constructor (size: BufferSize)
      ensures Valid() && fresh(data) && this.size == size && Contents() == ""
    {
      this.size := size;
      data := new char[size](_ => '\0');
      cur := 0;
    }

    function Length(): nat
      reads this
    {
      cur
    }

    function Avail(): (r: int)
      requires Valid()
      reads this
      ensures 0 <= r <= size
    {
      size - cur
    }

    // A string that does not fit with one byte to spare is dropped without a trace.
    method Append(buf: string, len: nat)
      requires Valid()
      requires len < Avail() ==> len <= |buf|
      modifies this, data
      ensures Valid()
      ensures Contents() == Appended(size, old(Contents()), buf, len)
    {
      if Avail() > len {
        forall j | 0 <= j < len {
          data[cur + j] := buf[j];
        }
        cur := cur + len;
        assert data[..cur] == old(data[..cur]) + buf[..len];
      }
    }

    method Reset()
      requires Valid()
      modifies this
      ensures Valid() && Contents() == ""
    {
      cur := 0;
    }
  }
}
