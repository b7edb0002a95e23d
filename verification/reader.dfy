/** The bounds-checked read head over an in-memory byte buffer. */
module Reader {
  import opened Wrappers
  import opened Frames

  class ReplayReader {
    var data: seq<byte>
    var pos: nat

    ghost predicate Valid()
      reads this
    {
      pos <= |data|
    }

    constructor (data: seq<byte>)
      ensures Valid() && this.data == data && pos == 0
    {
      this.data := data;
      pos := 0;
    }

    function Size(): nat
      reads this
    {
      |data|
    }

    function Offset(): nat
      reads this
    {
      pos
    }

    /** Returns the next `n` bytes and moves past them, or nothing if fewer than `n` remain. */
    method Read(n: nat) returns (r: Option<seq<byte>>)
      requires Valid()
      modifies this`pos
      ensures Valid()
      ensures r.Some? <==> old(pos) + n <= |data|
      ensures r.Some? ==> pos == old(pos) + n && r.value == data[old(pos)..pos]
      ensures r.None? ==> pos == old(pos)
    {
      if pos + n <= |data| {
        r := Some(data[pos..pos + n]);
        pos := pos + n;
      } else {
        r := None;
      }
    }
  }
}
