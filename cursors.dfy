/** The byte stream the readers share: an immutable byte sequence and a
    position, with the seek/tell/read behaviour of a buffered binary reader. */
module Cursors {
  import opened Bytes
  import opened Wrappers

  /** What read(n) returns at position p: up to n bytes, fewer at the end of the data. */
  function ReadAt(data: seq<byte>, p: nat, n: nat): (r: seq<byte>)
    ensures |r| == if p + n <= |data| then n else if p < |data| then |data| - p else 0
    ensures forall i :: 0 <= i < |r| ==> r[i] == data[p + i]
  {
    if p >= |data| then [] else if p + n <= |data| then data[p..p + n] else data[p..]
  }

  /** Where a seek to target lands: any non-negative position, also past the end. */
  function SeekTarget(target: int): (r: Result<nat>)
    ensures r.Ok? <==> target >= 0
    ensures r.Ok? ==> r.value == target
    ensures r.Err? ==> r.error == NegativeSeek
  {
    if target < 0 then Err(NegativeSeek) else Ok(target)
  }

  /** The reference point of a seek: whence 0 (start of the stream) or 1 (current position). */
  datatype Whence = FromStart | FromCurrent

  /** The position a seek asks for, before it is checked. */
  function SeekFrom(pos: nat, offset: int, whence: Whence): int
  {
    if whence == FromStart then offset else pos + offset
  }

  class Cursor {
    const data: seq<byte>
    var pos: nat

    constructor (data: seq<byte>, pos: nat)
      ensures this.data == data && this.pos == pos
    {
      this.data := data;
      this.pos := pos;
    }

    method Tell() returns (p: nat)
      ensures p == pos
    {
      p := pos;
    }

    /** Moves to offset relative to whence and returns the new position;
        a negative target fails and leaves the position alone. */
    method Seek(offset: int, whence: Whence) returns (r: Result<nat>)
      modifies this
      ensures r == SeekTarget(SeekFrom(old(pos), offset, whence))
      ensures pos == if r.Ok? then r.value else old(pos)
    {
      var target := SeekFrom(pos, offset, whence);
      if target < 0 {
        return Err(NegativeSeek);
      }
      pos := target;
      return Ok(target);
    }

    /** Returns up to n bytes and moves past the bytes returned. */
    method Read(n: nat) returns (b: seq<byte>)
      modifies this
      ensures b == ReadAt(data, old(pos), n)
      ensures pos == old(pos) + |b|
    {
      if pos >= |data| {
        b := [];
      } else if pos + n <= |data| {
        b := data[pos..pos + n];
      } else {
        b := data[pos..];
      }
      pos := pos + |b|;
    }
  }
}
