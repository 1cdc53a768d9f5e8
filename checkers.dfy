/**
 * `diff_checker` (include/checkers.hpp): compares what is left on two input streams character by
 * character. A stream is its characters, a read position and its eof and fail bits.
 */
module Checkers {

  /** A `std::istream` as far as `get(char&)`, `eof()` and `fail()` see it. */
  class IStream {
    const data: seq<char>
    var pos: nat
    var eof: bool
    var fail: bool

    /** The read position is inside the data, and eof is only ever set at the end of it. */
    predicate Valid() reads this {
      pos <= |data| && (eof ==> pos == |data|)
    }

    predicate Good() reads this { !eof && !fail }

    /** The characters not yet extracted. */
    function Rest(): seq<char>
      requires pos <= |data|
      reads this
    {
      data[pos..]
    }

    constructor (data: seq<char>)
      ensures this.data == data && pos == 0 && !eof && !fail && Valid()
    {
      this.data := data;
      pos := 0;
      eof := false;
      fail := false;
    }

    /**
     * get(c): on a stream that is not good, sets failbit and leaves `c` alone; otherwise extracts
     * one character, or, at the end, sets eofbit and failbit and leaves `c` alone. `c0` is what
     * `c` held before the call.
     */
    method Get(c0: char) returns (c: char)
      requires Valid()
      modifies this
      ensures Valid()
      ensures old(Good()) && old(pos) < |data| ==> c == data[old(pos)] && pos == old(pos) + 1 && Good()
      ensures old(Good()) && old(pos) == |data| ==> c == c0 && pos == old(pos) && eof && fail
      ensures !old(Good()) ==> c == c0 && pos == old(pos) && eof == old(eof) && fail
    {
      c := c0;
      if !Good() {
        fail := true;
        return;
      }
      if pos == |data| {
        eof := true;
        fail := true;
        return;
      }
      c := data[pos];
      pos := pos + 1;
    }
  }

  /**
   * diff_checker(a, b): false on a stream that has already failed; otherwise one `get` on each
   * stream per round until one reaches eof, false as soon as two read characters differ, and in
   * the end whether both streams reached eof. The two chars are uninitialised locals: when a
   * `get` finds the end it leaves an arbitrary value there. The two references may be the same stream.
   */
  method DiffChecker(a: IStream, b: IStream) returns (r: bool)
    requires a.Valid() && b.Valid()
    modifies a, b
    ensures a.Valid() && b.Valid()
    ensures old(a.fail) || old(b.fail) ==> !r
    ensures r ==> a.eof && b.eof
    ensures r ==> old(a.Rest()) == old(b.Rest())
  {
    if a.fail || b.fail {
      return false;
    }
    ghost var a0, b0 := a.pos, b.pos;
    while !a.eof && !b.eof
      invariant a.Valid() && b.Valid()
      invariant a0 <= a.pos && b0 <= b.pos
      invariant a != b && a.eof == b.eof ==> a.pos - a0 == b.pos - b0 && a.data[a0..a.pos] == b.data[b0..b.pos]
      invariant a != b ==> (a.fail ==> a.eof) && (b.fail ==> b.eof)
      decreases |a.data| - a.pos + (if a.eof then 0 else 1)
    {
      if a.fail || b.fail {
        return false;
      }
      var ca: char := *;
      var cb: char := *;
      ghost var pa, pb := a.pos, b.pos;
      ca := a.Get(ca);
      cb := b.Get(cb);
      if ca != cb {
        return false;
      }
      if a != b && !a.eof && !b.eof {
        assert a.data[a0..a.pos] == a.data[a0..pa] + [ca];
        assert b.data[b0..b.pos] == b.data[b0..pb] + [cb];
      }
    }
    r := a.eof && b.eof;
    if r && a != b {
      assert a.data[a0..] == a.data[a0..a.pos] && b.data[b0..] == b.data[b0..b.pos];
    }
  }
}
