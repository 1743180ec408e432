/** Read cursors over a byte buffer, and the loader's stack of them.

    The decoder reads from two kinds of cursor. The top-level input is a
    Python binary stream: a short read returns whatever bytes are left and
    `seek` works. Every nested cursor is a `_ReadonlyBytesIO`: a short read
    returns nothing at all and jumps to the end, and there is no `seek`. */
module Cursor {
  import opened Wire

  datatype Mode = Stream | Slice

  /** The observable state of a cursor: its buffer, its offset, its kind.
      A nested cursor's buffer is the whole parent block: it is not cut to
      the record it was made for. */
  datatype View = View(buf: Bytes, idx: nat, mode: Mode) {

    /** Whether `n` bytes can be read in full from here. */
    predicate Fits(n: int)
    {
      0 <= n && idx + n <= |buf|
    }

    /** `read(n)`: the cursor afterwards and the bytes returned. */
    function Read(n: int): (r: (View, Bytes))
      ensures r.0.buf == buf && r.0.mode == mode
      ensures Fits(n) ==> r == (this.(idx := idx + n), buf[idx..idx + n])
      ensures !Fits(n) && mode == Slice ==> r == (this.(idx := |buf|), [])
      ensures !Fits(n) && mode == Stream && idx <= |buf| ==> r == (this.(idx := |buf|), buf[idx..])
    {
      match mode
      case Slice =>
        if n < 0 || |buf| - idx < n then (this.(idx := |buf|), [])
        else (this.(idx := idx + n), buf[idx..idx + n])
      case Stream =>
        if idx > |buf| then (this, [])
        else if n < 0 || |buf| - idx < n then (this.(idx := |buf|), buf[idx..])
        else (this.(idx := idx + n), buf[idx..idx + n])
    }

    /** `seek(-4, SEEK_CUR)`. */
    function SeekBack4(): (r: SeekOutcome)
      ensures r.Moved? <==> mode == Stream && idx >= 4
      ensures r.Moved? ==> r.after == this.(idx := idx - 4)
    {
      match mode
      case Slice => NoSeek
      case Stream => if idx >= 4 then Moved(this.(idx := idx - 4)) else BeforeStart
    }
  }

  /** What `seek(-4, SEEK_CUR)` does: moves, finds no `seek` attribute on a
      `_ReadonlyBytesIO`, or is refused a position before the start. */
  datatype SeekOutcome = Moved(after: View) | NoSeek | BeforeStart

  /** Two reads that both fit cost the same as one read of their total and
      return the same bytes. */
  lemma ReadSplit(v: View, a: nat, b: nat)
    requires v.Fits(a + b)
    ensures var (v1, x) := v.Read(a);
            var (v2, y) := v1.Read(b);
            v.Read(a + b) == (v2, x + y)
  {
    var (v1, x) := v.Read(a);
    var (v2, y) := v1.Read(b);
    assert v.buf[v.idx..v.idx + a + b] == v.buf[v.idx..v.idx + a] + v.buf[v.idx + a..v.idx + a + b];
  }

  /** After a short read a nested cursor sits at the end, so every later
      read of a positive count returns nothing. */
  lemma ShortReadSticks(v: View, n: int, m: int)
    requires v.mode == Slice && !v.Fits(n) && m > 0
    ensures v.Read(n).0.Read(m) == (v.Read(n).0, [])
  {
  }

  /** A readable cursor: the current buffer and offset. */
  class InFile {
    const buf: Bytes
    const mode: Mode
    var idx: nat

    function State(): View
      reads this
    {
      View(buf, idx, mode)
    }

    /** `_ReadonlyBytesIO(buf, idx)`, or the top-level stream when `mode` is
        Stream. */
    constructor (buf: Bytes, idx: nat, mode: Mode)
      ensures State() == View(buf, idx, mode)
    {
      this.buf := buf;
      this.idx := idx;
      this.mode := mode;
    }

    method Read(n: int) returns (b: Bytes)
      modifies this
      ensures (State(), b) == old(State()).Read(n)
    {
      var r := State().Read(n);
      idx := r.0.idx;
      b := r.1;
    }

    method SeekBack4() returns (r: SeekOutcome)
      modifies this
      ensures r == old(State()).SeekBack4()
      ensures State() == if r.Moved? then r.after else old(State())
    {
      r := State().SeekBack4();
      if r.Moved? {
        idx := r.after.idx;
      }
    }
  }

  /** The loader's cursors: the current one and, below it, those it will
      return to (`infile` and `infile_stack`). */
  datatype CursorStack<C> = CursorStack(current: C, saved: seq<C>)

  /** `push_infile(c)`. */
  function Push<C>(s: CursorStack<C>, c: C): (r: CursorStack<C>)
    ensures r.current == c && r.saved == s.saved + [s.current]
  {
    CursorStack(c, s.saved + [s.current])
  }

  /** `pop_infile()`: the cursor given up and the stack afterwards, or None
      for the IndexError of popping an empty list. */
  function Pop<C>(s: CursorStack<C>): (r: Option<(C, CursorStack<C>)>)
    ensures r.Some? <==> |s.saved| > 0
    ensures r.Some? ==> r.value.0 == s.current
    ensures r.Some? ==> r.value.1 == CursorStack(s.saved[|s.saved| - 1], s.saved[..|s.saved| - 1])
  {
    if |s.saved| == 0 then None
    else Some((s.current, CursorStack(s.saved[|s.saved| - 1], s.saved[..|s.saved| - 1])))
  }

  /** A pop undoes a push: it returns the cursor pushed and restores both
      the current cursor and the saved ones. */
  lemma PopPush<C>(s: CursorStack<C>, c: C)
    ensures Pop(Push(s, c)) == Some((c, s))
  {
    assert (s.saved + [s.current])[..|s.saved|] == s.saved;
  }

  /** A push of the popped cursor undoes a pop. */
  lemma PushPop<C>(s: CursorStack<C>)
    requires |s.saved| > 0
    ensures Push(Pop(s).value.1, Pop(s).value.0) == s
  {
    assert s.saved[..|s.saved| - 1] + [s.saved[|s.saved| - 1]] == s.saved;
  }
}
