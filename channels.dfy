/**
 The two persistence channels: the test's `Store`, a fixed 20-byte buffer with a
 cursor that saves and loads in place, and the size profiler, which only counts
 the bytes a save pass would write.
 */
module Channels {
  import opened Format

  /** `char buffer[20]`. */
  const BufferSize: nat := 20

  /** The constructor fills the buffer with this byte. */
  const Blank: Byte := 0xFF

  /** `buf` with `data` written over it from offset `at`; every other byte kept. */
  function Overwrite(buf: seq<Byte>, at: nat, data: seq<Byte>): (r: seq<Byte>)
    requires at + |data| <= |buf|
    ensures |r| == |buf|
    ensures forall k :: 0 <= k < |data| ==> r[at + k] == data[k]
    ensures forall k :: 0 <= k < |buf| && !(at <= k < at + |data|) ==> r[k] == buf[k]
  {
    buf[..at] + data + buf[at + |data|..]
  }

  /** Two consecutive saves write the same bytes as one save of both. */
  lemma OverwriteConsecutive(buf: seq<Byte>, at: nat, a: seq<Byte>, b: seq<Byte>)
    requires at + |a| + |b| <= |buf|
    ensures Overwrite(Overwrite(buf, at, a), at + |a|, b) == Overwrite(buf, at, a + b)
  {
  }

  /** Saving again from the same offset hides what an earlier, no longer save wrote there. */
  lemma OverwriteSupersedes(buf: seq<Byte>, at: nat, x: seq<Byte>, y: seq<Byte>)
    requires |x| <= |y| && at + |y| <= |buf|
    ensures Overwrite(Overwrite(buf, at, x), at, y) == Overwrite(buf, at, y)
  {
  }

  /** The test's `Store`: a persistence over `char buffer[20]` and a cursor `index`. */
  class Store {
    const buffer: array<Byte>
    var index: nat

    ghost predicate Valid()
    {
      buffer.Length == BufferSize
    }

    /** The cursor starts at 0 and every buffer byte is 0xFF. */
    constructor ()
      ensures Valid() && fresh(buffer)
      ensures index == 0
      ensures forall k :: 0 <= k < BufferSize ==> buffer[k] == Blank
    {
      buffer := new Byte[BufferSize](_ => Blank);
      index := 0;
    }

    /** Rewinds the cursor to the start of the buffer. */
    method Start()
      modifies this`index
      ensures index == 0
    {
      index := 0;
    }

    /** Moves the cursor forward by n. */
    method Step(n: nat)
      modifies this`index
      ensures index == old(index) + n
    {
      index := index + n;
    }

    /** Copies `data` into the buffer at the cursor and moves the cursor past it. */
    method Save(data: seq<Byte>)
      requires Valid() && index + |data| <= BufferSize
      modifies this`index, buffer
      ensures buffer[..] == Overwrite(old(buffer[..]), old(index), data)
      ensures index == old(index) + |data|
    {
      var length, next := |data|, 0;
      while length != 0
        invariant 0 <= next && 0 <= length && next + length == |data|
        invariant index == old(index) + next
        invariant buffer[..] == Overwrite(old(buffer[..]), old(index), data[..next])
      {
        length := length - 1;
        buffer[index] := data[next];
        index, next := index + 1, next + 1;
      }
      assert data[..next] == data;
    }

    /** Copies `length` bytes out of the buffer at the cursor and moves the cursor past them. */
    method Load(length: nat) returns (data: seq<Byte>)
      requires Valid() && index + length <= BufferSize
      modifies this`index
      ensures data == buffer[old(index)..old(index) + length]
      ensures index == old(index) + length
    {
      var remaining := length;
      data := [];
      while remaining != 0
        invariant 0 <= remaining && |data| + remaining == length
        invariant index == old(index) + |data|
        invariant data == buffer[old(index)..index]
      {
        remaining := remaining - 1;
        data := data + [buffer[index]];
        index := index + 1;
      }
    }
  }

  /** `persistence_profiler`: saving only adds the length to a running size. */
  class Profiler {
    var size: nat

    constructor ()
      ensures size == 0
    {
      size := 0;
    }

    method Save(data: seq<Byte>)
      modifies this
      ensures size == old(size) + |data|
    {
      size := size + |data|;
    }
  }
}
