/** The line splitter for ffmpeg's stderr (io/shell_reader.go). A byte is modelled as a char. */
module LineSplitter {

  type Bytes = seq<char>

  const MAX_PENDING := 8 * 1024

  function Tail(s: Bytes, n: nat): Bytes {
    if |s| <= n then s else s[|s| - n..]
  }

  predicate IsSuffix(a: Bytes, b: Bytes) {
    |a| <= |b| && b[|b| - |a|..] == a
  }

  /** Position of the first newline, or the length. */
  function Newline(s: Bytes): (n: nat)
    ensures n <= |s| && (n < |s| ==> s[n] == '\n')
  {
    if s == [] then 0 else if s[0] == '\n' then 0 else 1 + Newline(s[1..])
  }

  lemma {:induction false} NewlineIs(s: Bytes, n: nat)
    requires n <= |s| && '\n' !in s[..n] && (n < |s| ==> s[n] == '\n')
    ensures Newline(s) == n
  {
    if n > 0 {
      assert s[0] == s[..n][0];
      assert s[1..][..n - 1] == s[..n][1..];
      NewlineIs(s[1..], n - 1);
    }
  }

  /** A stream cut at its newlines: the lines that are terminated, and what follows the last newline. */
  datatype Cut = Cut(lines: seq<Bytes>, rest: Bytes)

  /** The cut of `s` when `cur` has been read of the current line. */
  function Split(s: Bytes, cur: Bytes): Cut
    decreases |s|
  {
    if s == [] then Cut([], cur)
    else if s[0] == '\n' then
      var later := Split(s[1..], []);
      Cut([cur] + later.lines, later.rest)
    else Split(s[1..], cur + [s[0]])
  }

  /** The terminated lines of a stream, without their newlines. */
  function Lines(s: Bytes): seq<Bytes> { Split(s, []).lines }

  /** What follows the last newline. */
  function Unterminated(s: Bytes): Bytes { Split(s, []).rest }

  lemma {:induction false} CutAtNewline(s: Bytes, cur: Bytes)
    requires Newline(s) < |s|
    ensures var n := Newline(s);
            Split(s, cur) == Cut([cur + s[..n]] + Lines(s[n + 1..]), Unterminated(s[n + 1..]))
    decreases |s|
  {
    if s[0] == '\n' {
      assert cur + s[..0] == cur;
    } else {
      var n := Newline(s[1..]);
      CutAtNewline(s[1..], cur + [s[0]]);
      assert cur + [s[0]] + s[1..][..n] == cur + s[..n + 1];
      assert s[1..][n + 1..] == s[n + 2..];
    }
  }

  lemma {:induction false} NothingToCut(s: Bytes, cur: Bytes)
    requires Newline(s) == |s|
    ensures Split(s, cur) == Cut([], cur + s)
    decreases |s|
  {
    if s == [] {
      assert cur + s == cur;
    } else {
      NothingToCut(s[1..], cur + [s[0]]);
      assert cur + [s[0]] + s[1..] == cur + s;
    }
  }

  /** A line without its carriage return. */
  function Trimmed(line: Bytes): Bytes {
    if |line| > 0 && line[|line| - 1] == '\r' then line[..|line| - 1] else line
  }

  /** What is logged of one raw line: nothing if it is empty. */
  function LoggedLine(line: Bytes): seq<Bytes> {
    if Trimmed(line) == [] then [] else [Trimmed(line)]
  }

  function Logged(lines: seq<Bytes>): seq<Bytes> {
    if lines == [] then [] else LoggedLine(lines[0]) + Logged(lines[1..])
  }

  function Concat(chunks: seq<Bytes>): Bytes {
    if chunks == [] then [] else chunks[0] + Concat(chunks[1..])
  }

  lemma LoggedHead(line: Bytes, rest: seq<Bytes>)
    ensures Logged([line] + rest) == LoggedLine(line) + Logged(rest)
  {
    assert ([line] + rest)[1..] == rest;
  }

  lemma Associates<T>(a: seq<T>, b: seq<T>, c: seq<T>)
    ensures (a + b) + c == a + (b + c)
  {
  }

  /** The lines put together again, with their newlines. */
  function Rejoined(lines: seq<Bytes>): Bytes {
    if lines == [] then [] else lines[0] + ['\n'] + Rejoined(lines[1..])
  }

  predicate NoNewlines(lines: seq<Bytes>) { forall i | 0 <= i < |lines| :: '\n' !in lines[i] }

  /** The cut loses nothing: the lines with their newlines, then the rest, are the stream; and there is no
      newline left in any of them. */
  lemma {:induction false} CutRejoins(s: Bytes, cur: Bytes)
    requires '\n' !in cur
    ensures Rejoined(Split(s, cur).lines) + Split(s, cur).rest == cur + s
    ensures NoNewlines(Split(s, cur).lines) && '\n' !in Split(s, cur).rest
    decreases |s|
  {
    if s == [] {
      assert cur + s == cur;
    } else if s[0] == '\n' {
      CutRejoins(s[1..], []);
      var later := Split(s[1..], []);
      assert ([cur] + later.lines)[1..] == later.lines;
      assert cur + s == cur + ['\n'] + ([] + s[1..]);
      Associates(cur + ['\n'], Rejoined(later.lines), later.rest);
    } else {
      CutRejoins(s[1..], cur + [s[0]]);
      assert cur + [s[0]] + s[1..] == cur + s;
    }
  }

  /** What of each line is logged: an empty line, or a lone carriage return, is not; of any other line a
      carriage return at its end goes. */
  lemma LoggedLineIs(line: Bytes)
    ensures LoggedLine(line) == [] <==> line == [] || line == ['\r']
    ensures line != [] && line != ['\r'] && line[|line| - 1] == '\r' ==> LoggedLine(line) == [line[..|line| - 1]]
    ensures line != [] && line[|line| - 1] != '\r' ==> LoggedLine(line) == [line]
  {
    if line != [] && line != ['\r'] && line[|line| - 1] == '\r' {
      assert |line| > 1;
    }
  }

  // ---------------------------------------------------------------- the writer

  class Writer {
    var pending: Bytes
    var logged: seq<Bytes>

    constructor ()
      ensures pending == [] && logged == []
    {
      pending, logged := [], [];
    }

    method FindNewline() returns (idx: int)
      ensures idx == if Newline(pending) == |pending| then -1 else Newline(pending)
    {
      for i := 0 to |pending|
        invariant '\n' !in pending[..i]
      {
        if pending[i] == '\n' {
          NewlineIs(pending, i);
          return i;
        }
      }
      NewlineIs(pending, |pending|);
      idx := -1;
    }

    method LogLine(raw: Bytes)
      modifies this`logged
      ensures logged == old(logged) + LoggedLine(raw)
    {
      var line := raw;
      if |line| > 0 && line[|line| - 1] == '\r' {
        line := line[..|line| - 1];
      }
      if |line| > 0 {
        logged := logged + [line];
      }
    }

    /** One pass of the loop: log the line that ends at `idx` and take it off. */
    method CutLine(idx: nat)
      requires idx == Newline(pending) < |pending|
      modifies this
      ensures pending == old(pending)[idx + 1..]
      ensures logged + Logged(Lines(pending)) == old(logged) + Logged(Lines(old(pending)))
      ensures Unterminated(pending) == Unterminated(old(pending))
    {
      ghost var line, rest := pending[..idx], Lines(pending[idx + 1..]);
      CutAtNewline(pending, []);
      assert [] + line == line;
      LoggedHead(line, rest);
      LogLine(pending[..idx]);
      pending := pending[idx + 1..];
      Associates(old(logged), LoggedLine(line), Logged(rest));
    }

    method Write(p: Bytes) returns (n: nat)
      modifies this
      ensures n == |p|
      ensures pending == Tail(Unterminated(old(pending) + p), MAX_PENDING)
      ensures logged == old(logged) + Logged(Lines(old(pending) + p))
    {
      pending := pending + p;
      while true
        invariant Unterminated(pending) == Unterminated(old(pending) + p)
        invariant logged + Logged(Lines(pending)) == old(logged) + Logged(Lines(old(pending) + p))
        decreases |pending|
      {
        var idx := FindNewline();
        if idx < 0 {
          break;
        }
        CutLine(idx);
      }
      NothingToCut(pending, []);
      assert [] + pending == pending;
      if |pending| > MAX_PENDING {
        pending := pending[|pending| - MAX_PENDING..];
      }
      n := |p|;
    }
  }

  // ---------------------------------------------------------------- any stream in any chunks

  /** The writer's pending bytes, and the raw lines it has cut out, after some chunks. */
  function PendingAfter(chunks: seq<Bytes>): Bytes {
    if chunks == [] then []
    else Tail(Unterminated(PendingAfter(chunks[..|chunks| - 1]) + chunks[|chunks| - 1]), MAX_PENDING)
  }

  function CutAfter(chunks: seq<Bytes>): seq<Bytes> {
    if chunks == [] then []
    else CutAfter(chunks[..|chunks| - 1]) + Lines(PendingAfter(chunks[..|chunks| - 1]) + chunks[|chunks| - 1])
  }

  lemma {:induction false} LoggedPlus(a: seq<Bytes>, b: seq<Bytes>)
    ensures Logged(a + b) == Logged(a) + Logged(b)
  {
    if a == [] {
      assert a + b == b;
    } else {
      HeadFirst(a, b);
      LoggedPlus(a[1..], b);
      LoggedHead(a[0], a[1..] + b);
      Chain(LoggedLine(a[0]), Logged(a[1..]), Logged(b), Logged(a), Logged(a + b));
    }
  }

  lemma HeadFirst<T>(a: seq<T>, b: seq<T>)
    requires a != []
    ensures a + b == [a[0]] + (a[1..] + b)
  {
  }

  /** The real writer over a stream in chunks. */
  method WriteAll(chunks: seq<Bytes>) returns (pending: Bytes, logged: seq<Bytes>)
    ensures pending == PendingAfter(chunks) && logged == Logged(CutAfter(chunks))
  {
    var w := new Writer();
    for i := 0 to |chunks|
      invariant fresh(w) && w.pending == PendingAfter(chunks[..i]) && w.logged == Logged(CutAfter(chunks[..i]))
    {
      assert chunks[..i + 1][..i] == chunks[..i];
      LoggedPlus(CutAfter(chunks[..i]), Lines(w.pending + chunks[i]));
      var _ := w.Write(chunks[i]);
    }
    assert chunks[..|chunks|] == chunks;
    pending, logged := w.pending, w.logged;
  }

  /** `raw` is what is left of the true line `line` when old bytes may be lost. */
  predicate Rendition(raw: Bytes, line: Bytes) {
    IsSuffix(raw, line) && (|raw| == |line| || |raw| >= MAX_PENDING)
  }

  predicate Renditions(raws: seq<Bytes>, lines: seq<Bytes>) {
    |raws| == |lines| && forall i | 0 <= i < |raws| :: Rendition(raws[i], lines[i])
  }

  lemma {:induction false} SplitOn(s: Bytes, p: Bytes, cur: Bytes)
    ensures var first := Split(s, cur);
            var later := Split(p, first.rest);
            Split(s + p, cur) == Cut(first.lines + later.lines, later.rest)
    decreases |s|
  {
    if s == [] {
      assert s + p == p;
    } else {
      assert (s + p)[1..] == s[1..] + p;
      if s[0] == '\n' {
        SplitOn(s[1..], p, []);
        var first := Split(s[1..], []);
        Associates([cur], first.lines, Split(p, first.rest).lines);
      } else {
        SplitOn(s[1..], p, cur + [s[0]]);
      }
    }
  }

  lemma Chain<T>(a: seq<T>, b: seq<T>, c: seq<T>, ab: seq<T>, abc: seq<T>)
    requires ab == a + b && abc == a + (b + c)
    ensures abc == ab + c
  {
  }

  /** Reading on from an unterminated tail is reading the tail first. */
  lemma TailFirst(tail: Bytes, p: Bytes)
    requires '\n' !in tail
    ensures Split(tail + p, []) == Split(p, tail)
  {
    NewlineIs(tail, |tail|);
    NothingToCut(tail, []);
    SplitOn(tail, p, []);
    assert [] + tail == tail;
  }

  lemma SplitPlus(s: Bytes, p: Bytes)
    ensures Lines(s + p) == Lines(s) + Lines(Unterminated(s) + p)
    ensures Unterminated(s + p) == Unterminated(Unterminated(s) + p)
  {
    SplitOn(s, p, []);
    NoNewlineLeft(s, []);
    TailFirst(Unterminated(s), p);
  }

  lemma {:induction false} NoNewlineLeft(s: Bytes, cur: Bytes)
    requires '\n' !in cur
    ensures '\n' !in Split(s, cur).rest
    decreases |s|
  {
    if s != [] {
      NoNewlineLeft(s[1..], if s[0] == '\n' then [] else cur + [s[0]]);
    }
  }

  /** An unterminated tail followed by `p`, whose first newline is at `n`. */
  lemma TailThen(tail: Bytes, p: Bytes)
    requires '\n' !in tail
    ensures var n := Newline(p);
            && (n == |p| ==> Lines(tail + p) == [] && Unterminated(tail + p) == tail + p)
            && (n < |p| ==>
                  && Lines(tail + p) == [tail + p[..n]] + Lines(p[n + 1..])
                  && Unterminated(tail + p) == Unterminated(p[n + 1..]))
  {
    TailFirst(tail, p);
    if Newline(p) < |p| {
      CutAtNewline(p, tail);
    } else {
      NothingToCut(p, tail);
    }
  }

  lemma TailOfTail(s: Bytes, p: Bytes, n: nat)
    ensures Tail(Tail(s, n) + p, n) == Tail(s + p, n)
  {
  }

  lemma CappedLine(tail: Bytes, q: Bytes)
    ensures Rendition(Tail(tail, MAX_PENDING) + q, tail + q)
  {
  }

  lemma ConsRenditions(raw: Bytes, line: Bytes, rest: seq<Bytes>)
    requires Rendition(raw, line)
    ensures Renditions([raw] + rest, [line] + rest)
  {
  }

  /** Losing old bytes of an unterminated tail only shortens the line that it becomes part of. */
  lemma CappedTail(tail: Bytes, p: Bytes)
    requires '\n' !in tail
    ensures var kept := Tail(tail, MAX_PENDING);
            && Renditions(Lines(kept + p), Lines(tail + p))
            && Tail(Unterminated(kept + p), MAX_PENDING) == Tail(Unterminated(tail + p), MAX_PENDING)
  {
    var kept, n := Tail(tail, MAX_PENDING), Newline(p);
    TailThen(tail, p);
    TailThen(kept, p);
    if n < |p| {
      CappedLine(tail, p[..n]);
      ConsRenditions(kept + p[..n], tail + p[..n], Lines(p[n + 1..]));
    } else {
      TailOfTail(tail, p, MAX_PENDING);
    }
  }

  lemma {:induction false} ConcatFront(chunks: seq<Bytes>)
    requires chunks != []
    ensures Concat(chunks) == Concat(chunks[..|chunks| - 1]) + chunks[|chunks| - 1]
  {
    var n := |chunks| - 1;
    if n > 0 {
      ConcatFront(chunks[1..]);
      assert chunks[1..][..n - 1] == chunks[..n][1..];
    } else {
      assert Concat(chunks) == chunks[0] + Concat(chunks[1..]);
    }
  }

  /** Any stream in any chunks: pending is always the last min(8192, n) bytes of the n bytes after the
      last newline, and every line cut out is the true line, or its last 8192 or more bytes. */
  lemma {:induction false} AnyChunks(chunks: seq<Bytes>)
    ensures PendingAfter(chunks) == Tail(Unterminated(Concat(chunks)), MAX_PENDING)
    ensures Renditions(CutAfter(chunks), Lines(Concat(chunks)))
  {
    if chunks != [] {
      var front, last := chunks[..|chunks| - 1], chunks[|chunks| - 1];
      AnyChunks(front);
      ConcatFront(chunks);
      OneMoreChunk(Concat(front), last);
      JoinRenditions(CutAfter(front), Lines(Concat(front)), Lines(PendingAfter(front) + last),
                     Lines(Unterminated(Concat(front)) + last));
    }
  }

  lemma OneMoreChunk(stream: Bytes, p: Bytes)
    ensures var kept, tail := Tail(Unterminated(stream), MAX_PENDING), Unterminated(stream);
            && Lines(stream + p) == Lines(stream) + Lines(tail + p)
            && Renditions(Lines(kept + p), Lines(tail + p))
            && Tail(Unterminated(kept + p), MAX_PENDING) == Tail(Unterminated(stream + p), MAX_PENDING)
  {
    SplitPlus(stream, p);
    NoNewlineLeft(stream, []);
    CappedTail(Unterminated(stream), p);
  }

  lemma JoinRenditions(a: seq<Bytes>, b: seq<Bytes>, c: seq<Bytes>, d: seq<Bytes>)
    requires Renditions(a, b) && Renditions(c, d)
    ensures Renditions(a + c, b + d)
  {
  }

  /** Lines of at most 8192 bytes are logged whole and alike, however the stream is cut into chunks. */
  lemma ShortLinesUnaffected(chunks: seq<Bytes>)
    requires forall i | 0 <= i < |Lines(Concat(chunks))| :: |Lines(Concat(chunks))[i]| <= MAX_PENDING
    ensures Logged(CutAfter(chunks)) == Logged(Lines(Concat(chunks)))
  {
    AnyChunks(chunks);
    var raws, lines := CutAfter(chunks), Lines(Concat(chunks));
    forall i | 0 <= i < |raws|
      ensures raws[i] == lines[i]
    {
      assert Rendition(raws[i], lines[i]);
    }
    assert raws == lines;
  }
}
