/** The byte ring that keeps the tail of a stream (utils/ringbuf.go), over any element type. */
module RingBuffer {

  /** The last `n` elements of `s`, or all of them. */
  function Tail<T>(s: seq<T>, n: nat): seq<T> {
    if |s| <= n then s else s[|s| - n..]
  }

  function Concat<T>(chunks: seq<seq<T>>): seq<T> {
    if chunks == [] then [] else chunks[0] + Concat(chunks[1..])
  }

  lemma TailOfTail<T>(s: seq<T>, p: seq<T>, n: nat)
    ensures Tail(Tail(s, n) + p, n) == Tail(s + p, n)
  {
  }

  lemma TailOfLong<T>(s: seq<T>, p: seq<T>, n: nat)
    requires n <= |p|
    ensures Tail(s + p, n) == p[|p| - n..]
  {
  }

  /** What a buffer with content `s`, write position `head` and flag `full` holds, oldest first. */
  function View<T>(s: seq<T>, head: nat, full: bool): seq<T>
    requires head <= |s|
  {
    if full then s[head..] + s[..head] else s[..head]
  }

  /** A write that reaches the end of the buffer neither before nor exactly. */
  lemma FlatWrite<T>(s: seq<T>, h: nat, full: bool, p: seq<T>)
    requires h + |p| < |s|
    ensures View(s[..h] + p + s[h + |p|..], h + |p|, full) == Tail(View(s, h, full) + p, |s|)
  {
    var t := s[..h] + p + s[h + |p|..];
    assert t[..h + |p|] == s[..h] + p;
    assert t[h + |p|..] == s[h + |p|..];
  }

  /** A write that wraps round at the end of the buffer, `k` elements before and the rest after. */
  lemma WrappedWrite<T>(s: seq<T>, h: nat, full: bool, p: seq<T>, k: nat)
    requires h < |s| && k == |s| - h && k <= |p| < |s|
    ensures View(p[k..] + s[|p| - k..h] + p[..k], |p| - k, true) == Tail(View(s, h, full) + p, |s|)
  {
    var t, m := p[k..] + s[|p| - k..h] + p[..k], |p| - k;
    assert t[..m] == p[k..] && t[m..] == s[m..h] + p[..k];
    assert View(t, m, true) == s[m..h] + p;
    if full {
      assert View(s, h, full) + p == s[h..] + s[..m] + (s[m..h] + p);
    } else {
      assert View(s, h, full) + p == s[..m] + (s[m..h] + p);
    }
  }

  /** Go's copy of `x` to position `at`. */
  function Spliced<T>(s: seq<T>, at: nat, x: seq<T>): seq<T>
    requires at + |x| <= |s|
  {
    s[..at] + x + s[at + |x|..]
  }

  function Fits<T>(s: seq<T>, at: nat, x: seq<T>): nat
    requires at <= |s|
  {
    if |x| <= |s| - at then |x| else |s| - at
  }

  /** The two copies of a write that fits into the buffer. */
  function CopiedRound<T>(s: seq<T>, h: nat, p: seq<T>): seq<T>
    requires h <= |s| && |p| <= |s|
  {
    var k := Fits(s, h, p);
    Spliced(Spliced(s, h, p[..k]), 0, p[k..])
  }

  lemma WriteFlat<T>(s: seq<T>, h: nat, full: bool, p: seq<T>)
    requires h + |p| < |s|
    ensures View(CopiedRound(s, h, p), h + |p|, full) == Tail(View(s, h, full) + p, |s|)
  {
    FlatWrite(s, h, full, p);
    assert p[..|p|] == p;
    assert CopiedRound(s, h, p) == s[..h] + p + s[h + |p|..];
  }

  /** A write that reaches the end of the buffer leaves its first part there and the rest in front. */
  lemma SplicedRound<T>(s: seq<T>, h: nat, x: seq<T>, y: seq<T>)
    requires h + |x| == |s| && |y| <= h
    ensures Spliced(Spliced(s, h, x), 0, y) == y + s[|y|..h] + x
  {
    var u := Spliced(s, h, x);
    assert u == s[..h] + x;
    assert u[|y|..] == s[|y|..h] + x;
  }

  lemma WriteWrapped<T>(s: seq<T>, h: nat, full: bool, p: seq<T>)
    requires h < |s| && |p| < |s| && h + |p| >= |s|
    ensures View(CopiedRound(s, h, p), h + |p| - |s|, true) == Tail(View(s, h, full) + p, |s|)
  {
    var k := |s| - h;
    SplicedRound(s, h, p[..k], p[k..]);
    WrappedWrite(s, h, full, p, k);
  }

  lemma ModOnce(a: nat, n: nat)
    requires a < 2 * n
    ensures a % n == if a < n then a else a - n
  {
  }

  lemma WriteRound<T>(s: seq<T>, h: nat, full: bool, p: seq<T>, h': nat)
    requires h < |s| && |p| < |s| && h' == (h + |p|) % |s|
    ensures h' < |s| && View(CopiedRound(s, h, p), h', full || h' < |p|) == Tail(View(s, h, full) + p, |s|)
  {
    ModOnce(h + |p|, |s|);
    if h + |p| < |s| {
      WriteFlat(s, h, full, p);
    } else {
      WriteWrapped(s, h, full, p);
    }
  }

  class RingBuffer<T(0)> {
    var buf: array<T>
    var head: nat
    var full: bool

    ghost predicate Valid()
      reads this
    {
      0 < buf.Length && head < buf.Length
    }

    /** The buffered elements, oldest first. */
    ghost function Contents(): seq<T>
      requires Valid()
      reads this, buf
    {
      View(buf[..], head, full)
    }

    constructor (capacity: int)
      ensures Valid() && fresh(buf) && Contents() == []
      ensures buf.Length == if capacity <= 0 then 4096 else capacity
    {
      buf := new T[if capacity <= 0 then 4096 else capacity];
      head, full := 0, false;
    }

    /** Go's copy into the buffer from position `at` on. */
    method CopyTo(at: nat, src: seq<T>) returns (n: nat)
      requires at <= buf.Length
      modifies buf
      ensures n == Fits(old(buf[..]), at, src)
      ensures buf[..] == Spliced(old(buf[..]), at, src[..n])
    {
      n := if |src| <= buf.Length - at then |src| else buf.Length - at;
      for i := 0 to n
        invariant buf[..] == Spliced(old(buf[..]), at, src[..i])
      {
        buf[at + i] := src[i];
      }
    }

    method CopyRound(p: seq<T>)
      requires Valid() && |p| < buf.Length
      modifies buf
      ensures buf[..] == CopiedRound(old(buf[..]), head, p)
    {
      var written := CopyTo(head, p);
      if written < |p| {
        var n := CopyTo(0, p[written..]);
        assert p[written..][..n] == p[written..];
      }
    }

    /** A write of at least the whole buffer. */
    method Overwrite(p: seq<T>)
      requires Valid() && |p| == buf.Length
      modifies this`head, this`full, buf
      ensures Valid() && Contents() == p
    {
      var n := CopyTo(0, p);
      assert p[..n] == p && buf[..] == p;
      head, full := 0, true;
    }

    /** A shorter write, at the write position and round the end. */
    method WriteShort(p: seq<T>)
      requires Valid() && |p| < buf.Length
      modifies this`head, this`full, buf
      ensures Valid() && Contents() == Tail(old(Contents()) + p, buf.Length)
    {
      ghost var before, h, wasFull := buf[..], head, full;
      CopyRound(p);
      head := (head + |p|) % buf.Length;
      if !full && head < |p| {
        full := true;
      }
      WriteRound(before, h, wasFull, p, head);
    }

    method Write(p: seq<T>) returns (n: nat)
      requires Valid()
      modifies this`head, this`full, buf
      ensures Valid() && n == |p|
      ensures Contents() == Tail(old(Contents()) + p, buf.Length)
    {
      n := |p|;
      if n == 0 {
        assert old(Contents()) + p == Contents();
        return;
      }
      var capN := buf.Length;
      if n >= capN {
        TailOfLong(Contents(), p, capN);
        Overwrite(p[n - capN..]);
        return;
      }
      WriteShort(p);
    }

    /** A copy of the buffered tail. */
    method Snapshot() returns (out: seq<T>)
      requires Valid()
      ensures out == Contents()
    {
      if !full {
        return buf[..head];
      }
      out := buf[head..] + buf[..head];
    }
  }

  /** The ring refines a log: after any sequence of writes of any sizes a snapshot is exactly the last
      min(capacity, total) elements of what was written. */
  method WriteAll<T(0)>(capacity: int, chunks: seq<seq<T>>) returns (out: seq<T>)
    ensures out == Tail(Concat(chunks), if capacity <= 0 then 4096 else capacity)
  {
    var r := new RingBuffer<T>(capacity);
    for i := 0 to |chunks|
      invariant fresh(r) && fresh(r.buf) && r.Valid() && r.buf.Length == if capacity <= 0 then 4096 else capacity
      invariant r.Contents() == Tail(Concat(chunks[..i]), r.buf.Length)
    {
      var _ := r.Write(chunks[i]);
      LogGrows(chunks, i, r.buf.Length);
    }
    assert chunks[..|chunks|] == chunks;
    out := r.Snapshot();
  }

  lemma LogGrows<T>(chunks: seq<seq<T>>, i: nat, n: nat)
    requires i < |chunks|
    ensures Tail(Tail(Concat(chunks[..i]), n) + chunks[i], n) == Tail(Concat(chunks[..i + 1]), n)
  {
    TailOfTail(Concat(chunks[..i]), chunks[i], n);
    ConcatPlus(chunks[..i], chunks[i]);
    assert chunks[..i + 1] == chunks[..i] + [chunks[i]];
  }

  lemma {:induction false} ConcatPlus<T>(chunks: seq<seq<T>>, c: seq<T>)
    ensures Concat(chunks + [c]) == Concat(chunks) + c
  {
    if chunks == [] {
      assert Concat([c]) == c + Concat([c][1..]);
    } else {
      ConcatPlus(chunks[1..], c);
      assert (chunks + [c])[1..] == chunks[1..] + [c];
    }
  }
}
