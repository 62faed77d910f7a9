/**
 The growing, compacting byte queue of base/src/Buffer.cpp.  Bytes are modelled as `char`.
 `Contents()` is what a client sees; the contracts say that every operation acts on it as on a
 plain sequence, whichever of compaction, growth or overflow happens underneath.
 */
module Buffers {

  const DEFAULT_SIZE: nat := 1024
  const DEFAULT_PRE_SIZE: nat := 8
  /** Size of the stack buffer that catches what `readv` cannot place in the free tail. */
  const EXTRA_SIZE: nat := 65536

  /** What one `readv` call did: an error, or the bytes it delivered (none at end of stream). */
  datatype ReadOutcome = ReadError | ReadBytes(bytes: seq<char>)

  function Max(a: nat, b: nat): nat {
    if a < b then b else a
  }

  /** The capacity that a run with largest demand `peak` is allowed to reach. */
  function CapacityBound(peak: nat): nat {
    Max(DEFAULT_SIZE + DEFAULT_PRE_SIZE, 2 * peak + DEFAULT_PRE_SIZE)
  }

  /** 1032 bytes, or twice the largest demand and 8 more. */
  lemma CapacityBoundIs(peak: nat)
    ensures CapacityBound(peak) == if 2 * peak + 8 >= 1032 then 2 * peak + 8 else 1032
  {}

  class Buffer {
    var data: array<char>
    var readIndex: nat
    var writeIndex: nat
    /** Largest `readable + requested` seen by any append so far. */
    ghost var peak: nat

    ghost predicate Valid()
      reads this
    {
      && DEFAULT_PRE_SIZE <= readIndex <= writeIndex <= data.Length
      && data.Length <= CapacityBound(peak)
    }

    ghost function Contents(): seq<char>
      requires Valid()
      reads this, data
    {
      data[readIndex..writeIndex]
    }

    constructor ()
      ensures Valid() && fresh(data)
      ensures Contents() == [] && peak == 0
      ensures data.Length == 1032 && readIndex == 8
    {
      data := new char[DEFAULT_SIZE + DEFAULT_PRE_SIZE](_ => '\0');
      readIndex := DEFAULT_PRE_SIZE;
      writeIndex := DEFAULT_PRE_SIZE;
      peak := 0;
    }

    method ReadableBytes() returns (n: nat)
      requires Valid()
      ensures n == |Contents()|
    {
      n := writeIndex - readIndex;
    }

    /** `*(peek() + index)`. */
    method Peek(index: nat) returns (c: char)
      requires Valid() && index < |Contents()|
      ensures c == Contents()[index]
    {
      c := data[readIndex + index];
    }

    method Retrieve(len: nat)
      requires Valid() && len <= |Contents()|
      modifies this`readIndex
      ensures Valid()
      ensures Contents() == old(Contents())[len..]
    {
      readIndex := readIndex + len;
    }

    /** Overwrites a CR LF pair by two NUL bytes, so that the line before it is a C string. */
    method ReplaceCrLf(index: nat)
      requires Valid() && index + 1 < |Contents()|
      requires Contents()[index] == '\r' && Contents()[index + 1] == '\n'
      modifies data
      ensures Valid()
      ensures Contents() == old(Contents())[index := '\0'][index + 1 := '\0']
    {
      data[readIndex + index] := '\0';
      data[readIndex + index + 1] := '\0';
    }

    method Append(bytes: seq<char>)
      requires Valid()
      modifies this, data
      ensures Valid() && (data == old(data) || fresh(data))
      ensures Contents() == old(Contents()) + bytes
      ensures peak == Max(old(peak), |old(Contents())| + |bytes|)
      ensures |bytes| <= old(data.Length - writeIndex) ==> data == old(data) && readIndex == old(readIndex)
      ensures data.Length <= Max(old(data.Length), Max(1032, 2 * (|old(Contents())| + |bytes|) + 8))
    {
      EnsureRoom(|bytes|);
      CopyIn(bytes);
      writeIndex := writeIndex + |bytes|;
    }

    method EnsureRoom(len: nat)
      requires Valid()
      modifies this, data
      ensures Valid() && writeIndex + len <= data.Length
      ensures data == old(data) || fresh(data)
      ensures data[readIndex..writeIndex] == old(Contents())
      ensures peak == Max(old(peak), |old(Contents())| + len)
      ensures len <= old(data.Length - writeIndex) ==> data == old(data) && readIndex == old(readIndex)
      ensures data.Length <= Max(old(data.Length), CapacityBound(|old(Contents())| + len))
    {
      if len > data.Length - writeIndex {
        MakeSpace(len);
      }
      peak := Max(peak, writeIndex - readIndex + len);
    }

    /** Makes room for `len` more bytes, by moving the readable bytes forward when that is enough
        and by growing the storage otherwise. */
    method MakeSpace(len: nat)
      requires Valid() && len > data.Length - writeIndex
      modifies this, data
      ensures DEFAULT_PRE_SIZE <= readIndex <= writeIndex && writeIndex + len <= data.Length
      ensures data.Length <= Max(old(data.Length), CapacityBound(writeIndex - readIndex + len))
      ensures data == old(data) || fresh(data)
      ensures data[readIndex..writeIndex] == old(Contents())
      ensures peak == old(peak)
      // the bytes are moved to the front when that makes room enough, else the storage grows by what is missing
      ensures old(data.Length - writeIndex + readIndex) - 8 >= len ==> data == old(data) && readIndex == 8
      ensures old(data.Length - writeIndex + readIndex) - 8 < len ==>
                fresh(data) && data.Length == old(writeIndex) + len && readIndex == old(readIndex)
    {
      if data.Length - writeIndex + readIndex - DEFAULT_PRE_SIZE >= len {
        MoveDown();
        writeIndex := writeIndex - readIndex + DEFAULT_PRE_SIZE;
        readIndex := DEFAULT_PRE_SIZE;
      } else {
        Resize(writeIndex + len);
      }
    }

    /** The overlapping forward `std::copy` of the readable bytes to the start of the storage. */
    method MoveDown()
      requires Valid()
      modifies data
      ensures data[DEFAULT_PRE_SIZE..DEFAULT_PRE_SIZE + (writeIndex - readIndex)] == old(Contents())
    {
      ghost var was := Contents();
      var n, i := writeIndex - readIndex, 0;
      while i < n
        invariant 0 <= i <= n
        invariant forall k :: 0 <= k < i ==> data[DEFAULT_PRE_SIZE + k] == was[k]
        invariant forall k :: i <= k < n ==> data[readIndex + k] == was[k]
      {
        data[DEFAULT_PRE_SIZE + i] := data[readIndex + i];
        i := i + 1;
      }
    }

    /** `std::vector::resize` to a larger size. */
    method Resize(size: nat)
      requires readIndex <= writeIndex <= data.Length <= size
      modifies this`data
      ensures fresh(data) && data.Length == size
      ensures data[readIndex..writeIndex] == old(data[readIndex..writeIndex])
    {
      var before := data;
      var grown := new char[size](i requires 0 <= i reads before => if i < before.Length then before[i] else '\0');
      data := grown;
    }

    /** Places `bytes` in the free tail without publishing them. */
    method CopyIn(bytes: seq<char>)
      requires readIndex <= writeIndex && writeIndex + |bytes| <= data.Length
      modifies data
      ensures data[readIndex..writeIndex + |bytes|] == old(data[readIndex..writeIndex]) + bytes
    {
      var i := 0;
      while i < |bytes|
        invariant 0 <= i <= |bytes|
        invariant forall k :: 0 <= k < i ==> data[writeIndex + k] == bytes[k]
        invariant forall k :: readIndex <= k < writeIndex ==> data[k] == old(data[k])
      {
        data[writeIndex + i] := bytes[i];
        i := i + 1;
      }
    }

    /** The kernel fills the free tail first and the extra buffer with the rest; it never delivers
        more than both together hold. */
    method ReadFd(outcome: ReadOutcome) returns (n: int)
      requires Valid()
      requires outcome.ReadBytes? ==> |outcome.bytes| <= data.Length - writeIndex + EXTRA_SIZE
      modifies this, data
      ensures Valid() && (data == old(data) || fresh(data))
      ensures outcome.ReadError? ==> n < 0 && Contents() == old(Contents())
      ensures outcome.ReadBytes? ==> n == |outcome.bytes| && Contents() == old(Contents()) + outcome.bytes
      ensures peak == if outcome.ReadBytes? && n > old(data.Length - writeIndex)
                      then Max(old(peak), |Contents()|) else old(peak)
    {
      if outcome.ReadError? {
        return -1;
      }
      n := |outcome.bytes|;
      var room := data.Length - writeIndex;
      if n <= room {
        CopyIn(outcome.bytes);
        writeIndex := writeIndex + n;
      } else {
        var direct, extra := outcome.bytes[..room], outcome.bytes[room..];
        CopyIn(direct);
        writeIndex := data.Length;
        assert Contents() == old(Contents()) + direct;
        Append(extra);
        assert direct + extra == outcome.bytes;
      }
    }
  }
}
