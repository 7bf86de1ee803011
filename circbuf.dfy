/** The growable ring buffer of ints behind the legacy scanner (circbuf.c).

    The storage `buf` holds `siz` slots; the elements written and not yet
    read run from `read` up to `write`, wrapping past the last slot. The
    ring is never left full: a write that fills it doubles the storage. */
module CircBuf {

  /** CIRCBUF_DEFAULT_SIZE, the capacity `circbuf_init` starts with. */
  const DefaultSize: nat := 8

  class CircBuf {
    var buf: array<int>
    var siz: int
    var write: int
    var read: int

    /** Both indices are slots of the storage, whose length is `siz`. */
    predicate Valid()
      reads this, buf
    {
      buf.Length == siz && siz >= DefaultSize && 0 <= read < siz && 0 <= write < siz
    }

    /** The elements written and not yet read, front first. */
    function Contents(): seq<int>
      reads this, buf
      requires Valid()
    {
      if read <= write then buf[read..write] else buf[read..] + buf[..write]
    }

    /** The storage rotated so that the front is at slot 0. */
    function Rotated(): seq<int>
      reads this, buf
      requires Valid()
    {
      buf[read..] + buf[..read]
    }

    /** The contents are the first elements of the rotated storage, so
        fewer than `siz` elements are ever held. */
    lemma ContentsInRotated()
      requires Valid()
      ensures |Contents()| < siz
      ensures Contents() == Rotated()[..|Contents()|]
      ensures |Contents()| == if write >= read then write - read else write - read + siz
    {
      if read <= write {
        assert Rotated()[..write - read] == buf[read..write];
      } else {
        assert Rotated()[..siz - read + write] == buf[read..] + buf[..write];
      }
    }

    /** `circbuf_init`: an empty ring of the default capacity, storage zeroed. */
    constructor ()
      ensures Valid() && fresh(buf)
      ensures siz == DefaultSize && read == 0 && write == 0
      ensures buf[..] == seq(DefaultSize, _ => 0)
      ensures Contents() == []
    {
      buf := new int[DefaultSize](_ => 0);
      siz := DefaultSize;
      write := 0;
      read := 0;
    }

    /** `circbuf_normalize`: rotate the storage so that the front is at slot 0. */
    method Normalize()
      requires Valid()
      modifies this, buf
      ensures Valid() && buf == old(buf) && siz == old(siz) && read == 0
      ensures buf[..] == old(Rotated())
      ensures write == if old(write) >= old(read) then old(write) - old(read)
                       else old(write) - old(read) + siz
      ensures Contents() == old(Contents())
    {
      ContentsInRotated();
      var tmpbuf := buf[read..] + buf[..read];
      // The C code then also subtracts `siz` while the index is at least
      // `siz`; since -siz < write - read < siz that loop never runs.
      var newWrite := write - read;
      while newWrite < 0
        invariant newWrite == write - read || newWrite == write - read + siz
        invariant newWrite < siz
        decreases -newWrite
      {
        newWrite := newWrite + siz;
      }
      forall i | 0 <= i < siz {
        buf[i] := tmpbuf[i];
      }
      read := 0;
      write := newWrite;
      assert buf[..] == tmpbuf;
      assert Contents() == tmpbuf[..newWrite];
    }

    /** `circbuf_resize`: twice the storage, the old one copied in rotated
        order to its first half. The new half is unspecified in C; it is zero here. */
    method Resize()
      requires Valid()
      modifies this, buf
      ensures Valid() && fresh(buf) && siz == 2 * old(siz) && read == 0
      ensures buf[..old(siz)] == old(Rotated())
      ensures write == if old(write) >= old(read) then old(write) - old(read)
                       else old(write) - old(read) + old(siz)
    {
      var newsiz := siz * 2;
      var newbuf := new int[newsiz](_ => 0);
      Normalize();
      forall i | 0 <= i < siz {
        newbuf[i] := buf[i];
      }
      assert newbuf[..siz] == buf[..];
      siz := newsiz;
      buf := newbuf;
    }

    /** `circbuf_write`: append at the back, doubling the storage when the
        ring fills; the storage then holds the contents from slot 0. */
    method Write(ch: int)
      requires Valid()
      modifies this, buf
      ensures Valid() && Contents() == old(Contents()) + [ch]
      ensures buf == old(buf) || fresh(buf)
      ensures |old(Contents())| + 1 < old(siz) ==> siz == old(siz) && buf == old(buf)
      ensures |old(Contents())| + 1 == old(siz) ==>
        siz == 2 * old(siz) && fresh(buf) && read == 0 && write == old(siz)
    {
      ContentsInRotated();
      ghost var before := Contents();
      buf[write] := ch;
      write := write + 1;
      if write == siz {
        write := 0;
      }
      if read == write {
        FullRing(before, ch);
        var oldsiz := siz;
        Resize();
        write := oldsiz;
        assert Contents() == buf[..oldsiz];
      } else {
        Appended(before, ch);
      }
    }

    /** After the store of `ch` made the ring full, the rotated storage is
        the old contents with `ch` at the back. */
    lemma FullRing(before: seq<int>, ch: int)
      requires Valid() && read == write && |before| == siz - 1
      requires write == 0 ==> buf[siz - 1] == ch && before == buf[read..siz - 1]
      requires write > 0 ==> buf[write - 1] == ch && before == buf[read..] + buf[..write - 1]
      ensures Rotated() == before + [ch]
    {
      if write == 0 {
        assert buf[read..] == buf[read..siz - 1] + [ch];
      } else {
        assert buf[..read] == buf[..write - 1] + [ch];
      }
    }

    /** After the store of `ch` with room left, the contents end with `ch`. */
    lemma Appended(before: seq<int>, ch: int)
      requires Valid() && read != write
      requires write == 0 ==> buf[siz - 1] == ch && before == (if read <= siz - 1 then buf[read..siz - 1] else [])
      requires write > 0 ==>
        buf[write - 1] == ch
        && before == (if read <= write - 1 then buf[read..write - 1] else buf[read..] + buf[..write - 1])
      ensures Contents() == before + [ch]
    {
      if write == 0 {
        assert buf[read..] == buf[read..siz - 1] + [ch];
      } else if read <= write - 1 {
        assert buf[read..write] == buf[read..write - 1] + [ch];
      } else {
        assert buf[..write] == buf[..write - 1] + [ch];
      }
    }

    /** `circbuf_read`: take the front; -1 and no change when empty. */
    method Read() returns (ch: int)
      requires Valid()
      modifies this
      ensures Valid() && buf == old(buf) && siz == old(siz)
      ensures old(Contents()) == [] ==> ch == -1 && read == old(read) && write == old(write)
      ensures old(Contents()) != [] ==> ch == old(Contents())[0] && Contents() == old(Contents())[1..]
    {
      if read == write {
        return -1;
      }
      ch := buf[read];
      read := read + 1;
      if read == siz {
        read := 0;
      }
    }

    /** `circbuf_peek`: the front, or -1 when empty. */
    method Peek() returns (ch: int)
      requires Valid()
      ensures Contents() == [] ==> ch == -1
      ensures Contents() != [] ==> ch == Contents()[0]
    {
      if read == write {
        return -1;
      }
      return buf[read];
    }

    /** `circbuf_peekfar`: the element `off` places behind the front, the
        offset taken modulo the capacity; -1 when that is past the back. */
    method PeekFar(off: nat) returns (ch: int)
      requires Valid()
      ensures off % siz < |Contents()| ==> ch == Contents()[off % siz]
      ensures off % siz >= |Contents()| ==> ch == -1
    {
      ContentsInRotated();
      if read == write {
        return -1;
      }
      var target := read + off;
      while target >= siz
        invariant 0 <= target && Wrap(target, siz) == Wrap(read + off, siz)
        decreases target
      {
        target := target - siz;
      }
      WrapShift(off, read, siz);
      WrapIsMod(off, siz);
      SlotOfOffset(Wrap(off, siz), target);
      if write > read {
        if target >= read && target < write {
          return buf[target];
        }
      } else {
        if target >= read || target < write {
          return buf[target];
        }
      }
      return -1;
    }

    /** The slots `circbuf_peekfar` reads are exactly those that hold contents. */
    predicate Readable(target: int)
      reads this
    {
      if write > read then read <= target < write else target >= read || target < write
    }

    /** Offset `j` behind the front lives in slot `target`, which is readable
        exactly when `j` is within the contents. */
    lemma SlotOfOffset(j: int, target: int)
      requires Valid() && read != write && 0 <= j < siz
      requires target == if read + j < siz then read + j else read + j - siz
      ensures 0 <= target < siz
      ensures Readable(target) <==> j < |Contents()|
      ensures j < |Contents()| ==> buf[target] == Contents()[j]
    {
      ContentsInRotated();
      assert Rotated()[j] == buf[target];
    }

    /** `x` reduced below `m` by repeated subtraction, as `circbuf_peekfar` does. */
    static function Wrap(x: nat, m: nat): (r: nat)
      requires m > 0
      ensures r < m
      decreases x
    {
      if x < m then x else Wrap(x - m, m)
    }

    /** Repeated subtraction computes the remainder. */
    static lemma {:induction false} WrapIsMod(x: nat, m: nat)
      requires m > 0
      ensures Wrap(x, m) == x % m
      decreases x
    {
      if x >= m {
        WrapIsMod(x - m, m);
        var d := (x - m) / m;
        assert x == (d + 1) * m + (x - m) % m;
        ModUnique(x, d + 1, (x - m) % m, m);
      }
    }

    /** The remainder is the one value in range that differs from `x` by a multiple of `m`. */
    static lemma ModUnique(x: int, q: int, r: int, m: int)
      requires m > 0 && 0 <= r < m && x == q * m + r
      ensures x % m == r
    {
      var d := x / m;
      assert (q - d) * m == x % m - r;
      MultipleInRange(q - d, m);
    }

    /** The only multiple of `m` strictly between -m and m is 0. */
    static lemma MultipleInRange(k: int, m: int)
      requires m > 0 && -m < k * m < m
      ensures k == 0
    {
      MultipleSign(k, m);
    }

    /** A nonzero multiple of `m` is at least `m` away from 0. */
    static lemma MultipleSign(k: int, m: int)
      requires m > 0
      ensures k >= 1 ==> k * m >= m
      ensures k <= -1 ==> k * m <= -m
    {
    }

    /** Starting `s` slots on wraps to `s` past the wrapped offset, once more reduced. */
    static lemma {:induction false} WrapShift(x: nat, s: nat, m: nat)
      requires 0 <= s < m
      ensures Wrap(s + x, m) == if s + Wrap(x, m) < m then s + Wrap(x, m) else s + Wrap(x, m) - m
      decreases x
    {
      if x >= m {
        WrapShift(x - m, s, m);
        assert Wrap(s + x, m) == Wrap(s + x - m, m);
      }
    }

    /** `circbuf_empty`. */
    method Empty() returns (e: bool)
      requires Valid()
      ensures e <==> Contents() == []
    {
      return read == write;
    }

    /** `circbuf_bufsiz`: the number of elements held, (write - read) mod siz. */
    method Bufsiz() returns (n: nat)
      requires Valid()
      ensures n == |Contents()| && n < siz
      ensures n == (write - read) % siz
    {
      ContentsInRotated();
      if write < read {
        ModUnique(write - read, -1, (write + siz) - read, siz);
        return (write + siz) - read;
      }
      ModUnique(write - read, 0, write - read, siz);
      return write - read;
    }
  }
}
