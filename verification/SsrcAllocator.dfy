/** The SSRC allocator of a factory (wrtc/native/factory.go) and the pair a stack declares for its video
    (wrtc/native/signaling.go). The counter is a 32-bit word; 0 is never handed out. */
module SsrcAllocator {
  const WRAP := 0x1_0000_0000

  type Word = n: nat | n < WRAP

  function Wrapped(n: nat): Word { n % WRAP }

  datatype Error = Closed | NoCert

  /** What a stack sends with; `video` is 0 when it has none. */
  datatype Stack = Stack(audio: Word, video: Word)

  datatype Result = Ok(stack: Stack) | Err(error: Error)

  /** The retransmission SSRC declared together with the video one. */
  function Declared(video: Word): Word { Wrapped(video + 1) }

  /** Every SSRC a stack sends with or declares. */
  function Claimed(s: Stack): set<Word> {
    if s.video == 0 then {s.audio} else {s.audio, s.video, Declared(s.video)}
  }

  function Next(c: Word): Word { if c == WRAP - 1 then 1 else c + 1 }

  function StackFrom(c: Word, withVideo: bool): Stack {
    Stack(Next(c), if withVideo then Next(Next(c)) else 0)
  }

  function CounterAfter(c: Word, withVideo: bool): Word {
    if withVideo then Next(Next(Next(c))) else Next(c)
  }

  class Factory {
    var ssrcCounter: Word
    var closed: bool

    constructor (seed: Word)
      ensures !closed && ssrcCounter == (if seed % 2 == 0 then seed + 1 else seed)
    {
      ssrcCounter := if seed % 2 == 0 then seed + 1 else seed;
      closed := false;
    }

    method AllocateSSRC() returns (v: Word)
      modifies this`ssrcCounter
      ensures v == Next(old(ssrcCounter)) && v != 0 && ssrcCounter == v
      ensures v == if old(ssrcCounter) == 0xFFFF_FFFF then 1 else old(ssrcCounter) + 1
    {
      while true
        invariant ssrcCounter == old(ssrcCounter) || (ssrcCounter == 0 && old(ssrcCounter) == WRAP - 1)
        decreases if ssrcCounter == WRAP - 1 then 1 else 0
      {
        ssrcCounter := Wrapped(ssrcCounter + 1);
        if ssrcCounter != 0 {
          return ssrcCounter;
        }
      }
    }

    /** `certTaken` is whether the certificate pool had one in time. */
    method NewStack(withVideo: bool, certTaken: bool) returns (r: Result)
      modifies this`ssrcCounter
      ensures closed ==> r == Err(Closed)
      ensures !closed && !certTaken ==> r == Err(NoCert)
      ensures r.Err? ==> ssrcCounter == old(ssrcCounter)
      ensures !closed && certTaken ==>
                && r == Ok(StackFrom(old(ssrcCounter), withVideo))
                && ssrcCounter == CounterAfter(old(ssrcCounter), withVideo)
                && var c := old(ssrcCounter);
                   && r.stack.audio == c % 0xFFFF_FFFF + 1
                   && r.stack.video == (if withVideo then (c + 1) % 0xFFFF_FFFF + 1 else 0)
                   && ssrcCounter == (if withVideo then c + 2 else c) % 0xFFFF_FFFF + 1
    {
      if closed {
        return Err(Closed);
      }
      if !certTaken {
        return Err(NoCert);
      }
      var audio := AllocateSSRC();
      var video: Word := 0;
      if withVideo {
        video := AllocateSSRC();
        var _ := AllocateSSRC();
      }
      r := Ok(Stack(audio, video));
    }

    method Close()
      modifies this`closed
      ensures closed
    {
      closed := true;
    }
  }

  // ---------------------------------------------------------------- the allocations of one factory

  /** The `k`-th allocation from counter `c` on. */
  function Nth(c: Word, k: nat): Word {
    if k == 0 then Next(c) else Next(Nth(c, k - 1))
  }

  /** A closed form: the counter runs through the words but 0, in a circle. */
  lemma {:induction false} NthIs(c: Word, k: nat)
    ensures Nth(c, k) == (c + k) % (WRAP - 1) + 1
  {
    if k > 0 {
      NthIs(c, k - 1);
    }
  }

  /** Two allocations give the same SSRC exactly if they are whole circles apart; so any 2^32 - 1 in a row
      are pairwise distinct, and none is 0. */
  lemma SameExactly(c: Word, i: nat, j: nat)
    requires i <= j
    ensures Nth(c, i) == Nth(c, j) <==> (j - i) % (WRAP - 1) == 0
    ensures Nth(c, i) != 0
  {
    NthIs(c, i);
    NthIs(c, j);
  }

  /** Any 2^32 - 1 allocations in a row differ. */
  lemma DifferInCircle(c: Word, i: nat, j: nat)
    requires i < j < i + WRAP - 1
    ensures Nth(c, i) != Nth(c, j) && Nth(c, i) != 0 && Nth(c, j) != 0
  {
    SameExactly(c, i, j);
    SameExactly(c, j, j);
  }

  lemma {:induction false} NthPlus(c: Word, i: nat, k: nat)
    ensures Nth(Nth(c, i), k) == Nth(c, i + 1 + k)
  {
    if k > 0 {
      NthPlus(c, i, k - 1);
    }
  }

  // ---------------------------------------------------------------- one stack after the other

  function Slots(withVideo: bool): nat { if withVideo then 3 else 1 }

  function Total(wants: seq<bool>): nat {
    if wants == [] then 0 else Slots(wants[0]) + Total(wants[1..])
  }

  /** The stacks made from counter `c` on by calls that do not overlap. */
  function Stacks(c: Word, wants: seq<bool>): (r: seq<Stack>)
    ensures |r| == |wants|
    decreases |wants|
  {
    if wants == [] then []
    else [StackFrom(c, wants[0])] + Stacks(CounterAfter(c, wants[0]), wants[1..])
  }

  /** What a stack claims is among the slots it took, or is the wrapped 0 instead of its third. */
  ghost predicate Within(c: Word, s: Stack, from: nat, to: nat) {
    forall v | v in Claimed(s) ::
      (v == 0 && s.video == WRAP - 1) || exists k :: from <= k < to && v == Nth(c, k)
  }

  lemma StackIsWithin(c: Word, withVideo: bool)
    ensures Within(c, StackFrom(c, withVideo), 0, Slots(withVideo))
    ensures CounterAfter(c, withVideo) == Nth(c, Slots(withVideo) - 1)
  {
    assert Nth(c, 1) == Next(Nth(c, 0)) && Nth(c, 2) == Next(Nth(c, 1));
    var s := StackFrom(c, withVideo);
    if withVideo && s.video != WRAP - 1 {
      assert Declared(s.video) == Nth(c, 2);
    }
  }

  lemma WithinShifts(c: Word, s: Stack, by': nat, from: nat, to: nat)
    requires by' > 0 && Within(Nth(c, by' - 1), s, from, to)
    ensures Within(c, s, by' + from, by' + to)
  {
    forall v | v in Claimed(s) && !(v == 0 && s.video == WRAP - 1)
      ensures exists k :: by' + from <= k < by' + to && v == Nth(c, k)
    {
      var k :| from <= k < to && v == Nth(Nth(c, by' - 1), k);
      NthPlus(c, by' - 1, k);
      assert v == Nth(c, by' + k);
    }
  }

  /** Each stack claims within slots of its own. */
  lemma {:induction false} StacksAreWithin(c: Word, wants: seq<bool>, i: nat)
    requires i < |wants|
    ensures Total(wants[..i]) + Slots(wants[i]) <= Total(wants)
    ensures Within(c, Stacks(c, wants)[i], Total(wants[..i]), Total(wants[..i]) + Slots(wants[i]))
    decreases |wants|
  {
    if i == 0 {
      StackIsWithin(c, wants[0]);
    } else {
      StackIsWithin(c, wants[0]);
      var c' := CounterAfter(c, wants[0]);
      StacksAreWithin(c', wants[1..], i - 1);
      assert wants[..i][1..] == wants[1..][..i - 1];
      var n := Total(wants[1..][..i - 1]);
      WithinShifts(c, Stacks(c', wants[1..])[i - 1], Slots(wants[0]), n, n + Slots(wants[i]));
    }
  }

  lemma {:induction false} TotalGrows(wants: seq<bool>, i: nat, j: nat)
    requires i < j <= |wants|
    ensures Total(wants[..i]) + Slots(wants[i]) <= Total(wants[..j])
  {
    assert wants[..j][1..] == wants[1..][..j - 1];
    if i > 0 {
      assert wants[..i][1..] == wants[1..][..i - 1];
      TotalGrows(wants[1..], i - 1, j - 1);
    }
  }

  lemma VideosDiffer(c: Word, s: Stack, from: nat, to: nat, s': Stack, from': nat, to': nat)
    requires Within(c, s, from, to) && Within(c, s', from', to')
    requires to <= from' && to' - from <= WRAP - 1
    ensures !(s.video == WRAP - 1 && s'.video == WRAP - 1)
  {
    if s.video == WRAP - 1 && s'.video == WRAP - 1 {
      assert s.video in Claimed(s) && s'.video in Claimed(s');
      var k :| from <= k < to && s.video == Nth(c, k);
      var k' :| from' <= k' < to' && s'.video == Nth(c, k');
      DifferInCircle(c, k, k');
    }
  }

  lemma SlotsApart(c: Word, s: Stack, from: nat, to: nat, s': Stack, from': nat, to': nat)
    requires Within(c, s, from, to) && Within(c, s', from', to')
    requires to <= from' && to' - from <= WRAP - 1
    requires !(s.video == WRAP - 1 && s'.video == WRAP - 1)
    ensures Claimed(s) !! Claimed(s')
  {
    forall v | v in Claimed(s) && v in Claimed(s')
      ensures false
    {
      if v == 0 {
        if s.video != WRAP - 1 {
          var k: nat :| from <= k < to && v == Nth(c, k);
          DifferInCircle(c, k, k + 1);
        } else {
          var k: nat :| from' <= k < to' && v == Nth(c, k);
          DifferInCircle(c, k, k + 1);
        }
      } else {
        var i :| from <= i < to && v == Nth(c, i);
        var j :| from' <= j < to' && v == Nth(c, j);
        DifferInCircle(c, i, j);
      }
    }
  }

  /** Stacks made one after the other within one circle of the counter never share an SSRC, sent or
      declared. */
  lemma SerialStacksAreDisjoint(c: Word, wants: seq<bool>, i: nat, j: nat)
    requires i < j < |wants| && Total(wants) <= WRAP - 1
    ensures Claimed(Stacks(c, wants)[i]) !! Claimed(Stacks(c, wants)[j])
  {
    var s, s' := Stacks(c, wants)[i], Stacks(c, wants)[j];
    var from, from' := Total(wants[..i]), Total(wants[..j]);
    StacksAreWithin(c, wants, i);
    StacksAreWithin(c, wants, j);
    TotalGrows(wants, i, j);
    VideosDiffer(c, s, from, from + Slots(wants[i]), s', from', from' + Slots(wants[j]));
    SlotsApart(c, s, from, from + Slots(wants[i]), s', from', from' + Slots(wants[j]));
  }

  /** A stack without video claims its audio. The three of one with video are its audio, its video and the
      next word after that; they differ, and the declared one is the reserved 0 exactly at the end of the
      circle. */
  lemma OneStack(c: Word)
    ensures Claimed(StackFrom(c, false)) == {StackFrom(c, false).audio}
    ensures var s := StackFrom(c, true);
            && Claimed(s) == {s.audio, s.video, (s.video + 1) % 0x1_0000_0000} && |Claimed(s)| == 3
            && 0 !in {s.audio, s.video}
            && (Declared(s.video) == 0 <==> s.video == WRAP - 1)
            && (s.video == WRAP - 1 <==> c == WRAP - 3)
  {
    var s := StackFrom(c, true);
    assert s.audio != s.video && s.video != Declared(s.video) && s.audio != Declared(s.video);
    assert Claimed(s) - {s.audio} == {s.video, Declared(s.video)};
  }

  // ---------------------------------------------------------------- stacks made at the same time

  /** The counter is advanced by stacks in any order: `run[k]` is the stack whose advance is the `k`-th. */
  function Value(c: Word, k: nat): Word { Wrapped(c + k + 1) }

  /** Each advance adds one to the word before it, and wraps. */
  lemma ValuesAdvance(c: Word, k: nat)
    ensures Value(c, 0) == (c + 1) % 0x1_0000_0000
    ensures Value(c, k + 1) == (Value(c, k) + 1) % 0x1_0000_0000
  {
  }

  /** How many SSRCs stack `t` has got; an advance that hit 0 is tried again. */
  function Granted(c: Word, run: seq<nat>, t: nat): nat {
    if run == [] then 0
    else
      var k := |run| - 1;
      Granted(c, run[..k], t) + if run[k] == t && Value(c, k) != 0 then 1 else 0
  }

  /** Stack `t` wants a video exactly if `t in videos`; it stops once it has what it wants. */
  ghost predicate IsRun(c: Word, run: seq<nat>, videos: set<nat>) {
    forall k | 0 <= k < |run| :: Granted(c, run[..k], run[k]) < Slots(run[k] in videos)
  }

  /** The `k`-th advance gave its stack an SSRC to send with: its audio, or its video. */
  ghost predicate IsSent(c: Word, run: seq<nat>, k: nat) {
    k < |run| && Value(c, k) != 0 && Granted(c, run[..k], run[k]) < 2
  }

  ghost predicate IsVideo(c: Word, run: seq<nat>, k: nat) {
    IsSent(c, run, k) && Granted(c, run[..k], run[k]) == 1
  }

  /** All audio and video SSRCs differ, in whatever order the stacks advanced the counter. */
  lemma SentAreDistinct(c: Word, run: seq<nat>, i: nat, j: nat)
    requires |run| <= WRAP && i < j && IsSent(c, run, i) && IsSent(c, run, j)
    ensures Value(c, i) != Value(c, j)
  {
    assert 0 < j - i < WRAP;
  }

  /** Some stack sends with the SSRC that the stack of the `k`-th advance declares with its video. */
  ghost predicate Clashes(c: Word, run: seq<nat>, k: nat) {
    exists q :: IsSent(c, run, q) && Value(c, q) == Declared(Value(c, k))
  }

  /** The declared SSRC is another stack's exactly if that stack made the very next advance, for an SSRC to
      send with. */
  lemma ClashesExactly(c: Word, run: seq<nat>, k: nat)
    requires |run| < WRAP && IsVideo(c, run, k)
    ensures Clashes(c, run, k) <==> IsSent(c, run, k + 1) && run[k + 1] != run[k]
  {
    if Clashes(c, run, k) {
      ClashIsNext(c, run, k);
    } else if IsSent(c, run, k + 1) {
      DeclaredIsNext(c, k, k + 1);
    }
  }

  lemma ClashIsNext(c: Word, run: seq<nat>, k: nat)
    requires |run| < WRAP && IsVideo(c, run, k) && Clashes(c, run, k)
    ensures IsSent(c, run, k + 1) && run[k + 1] != run[k]
  {
    var q: nat :| IsSent(c, run, q) && Value(c, q) == Declared(Value(c, k));
    DeclaredIsNext(c, k, q);
    if run[k + 1] == run[k] {
      SameStackSkips(c, run, k);
    }
  }

  lemma DeclaredIsNext(c: Word, k: nat, q: nat)
    requires k < WRAP - 1 && q < WRAP - 1
    ensures Value(c, q) == Declared(Value(c, k)) <==> q == k + 1
  {
    assert Declared(Value(c, k)) == Value(c, k + 1);
  }

  /** The stack itself would spend that advance on the slot it skips. */
  lemma SameStackSkips(c: Word, run: seq<nat>, k: nat)
    requires IsVideo(c, run, k) && k + 1 < |run| && run[k + 1] == run[k]
    ensures !IsSent(c, run, k + 1)
  {
    assert run[..k + 1][..k] == run[..k];
  }

  /** Two stacks made at the same time: the second gets as its audio what the first declares. */
  lemma DeclaredCanClash(c: Word)
    requires c + 4 < WRAP
    ensures var run, videos := [0, 0, 1, 0], {0};
            IsRun(c, run, videos) && IsVideo(c, run, 1) && Clashes(c, run, 1)
  {
    var run: seq<nat>, videos: set<nat> := [0, 0, 1, 0], {0};
    assert run[..0] == [] && run[..1] == [0] && run[..2] == [0, 0] && run[..3] == [0, 0, 1];
    assert run[..1][..0] == [] && run[..2][..1] == run[..1] && run[..3][..2] == run[..2];
    assert Granted(c, run[..0], 0) == 0;
    assert Granted(c, run[..1], 0) == 1;
    assert Granted(c, run[..2], 0) == 2;
    assert Granted(c, run[..0], 1) == Granted(c, run[..1], 1) == Granted(c, run[..2], 1) == 0;
    assert Granted(c, run[..3], 0) == 2;
    assert IsSent(c, run, 2) && Value(c, 2) == Declared(Value(c, 1));
  }
}
