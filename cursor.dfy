/** The byte cursor that both `mixChunk` variants keep into the background track:
    before each two-byte read it goes back to 0 if it has reached the end of the
    track, and after the read it moves on by 2. */
module Cursor {
  import opened Pcm

  /** A cursor into a non-empty track of even byte length: even, and at most the length. */
  predicate CursorOk(len: int, off: int)
  {
    len > 0 && len % 2 == 0 && 0 <= off <= len && off % 2 == 0
  }

  /** The offset of the next read: the cursor, wrapped to 0 once it has reached the end.
      Both bytes of the read lie inside the track. */
  function ReadPos(off: int, len: int): (p: int)
    requires CursorOk(len, off)
    ensures 0 <= p && p + 1 < len && p % 2 == 0
  {
    if off >= len then 0 else off
  }

  /** The cursor after n reads starting from `off`. */
  function CursorAfter(off: int, n: nat, len: int): (r: int)
    requires CursorOk(len, off)
    ensures CursorOk(len, r)
    ensures n > 0 ==> r >= 2
  {
    if n == 0 then off else ReadPos(CursorAfter(off, n - 1, len), len) + 2
  }

  /** The byte offset of the k-th read (from 0) after a cursor at `off`, counted in
      two-byte samples: sample (off / 2 + k) mod (len / 2). */
  function SamplePos(off: int, k: nat, len: int): (p: int)
    requires CursorOk(len, off)
    ensures 0 <= p && p + 1 < len && p % 2 == 0
  {
    2 * ((off / 2 + k) % (len / 2))
  }

  /** Stepping an index by 1 modulo h. */
  lemma ModStep(a: int, h: int)
    requires a >= 0 && h > 0
    ensures (a + 1) % h == if a % h + 1 == h then 0 else a % h + 1
  {
    var t, r := a / h, a % h;
    assert a == h * t + r;
    if r + 1 == h {
      DivModUnique(a + 1, h, t + 1, 0);
    } else {
      DivModUnique(a + 1, h, t, r + 1);
    }
  }

  /** Closed form of the cursor, in two-byte samples: with h = len / 2 samples in the
      track, the k-th read (from 0) is at sample (off / 2 + k) mod h, and after n > 0
      reads the cursor is one sample past the last read. */
  lemma {:induction false} ReadPositions(off: int, n: nat, len: int)
    requires CursorOk(len, off)
    ensures ReadPos(CursorAfter(off, n, len), len) == SamplePos(off, n, len)
    ensures n > 0 ==> CursorAfter(off, n, len) == SamplePos(off, n - 1, len) + 2
  {
    var h := len / 2;
    if n > 0 {
      ReadPositions(off, n - 1, len);
      ModStep(off / 2 + n - 1, h);
    } else if off == len {
      DivModUnique(off / 2, h, 1, 0);
    } else {
      DivModUnique(off / 2, h, 0, off / 2);
    }
  }
}
