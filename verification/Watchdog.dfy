/** The monitor that force-closes peer connections stuck outside Connected (wrtc/keepalive.go). Times are
    clock readings in nanoseconds. */
module Watchdog {
  const CHECKING_TIMEOUT := 15_000_000_000
  const KEEPALIVE_EVERY := 2

  type Pc = nat

  /** What a tick sees of one connection. */
  datatype Seen = Seen(now: int, connected: bool, hasVideo: bool)

  /** The timer after a tick; 0 is "not running". */
  function TimerAfter(timer: int, s: Seen): int {
    if s.connected then 0 else if timer == 0 then s.now else timer
  }

  predicate Expires(timer: int, s: Seen) {
    !s.connected && timer != 0 && s.now - timer > CHECKING_TIMEOUT
  }

  class Entry {
    var checkingNs: int

    constructor ()
      ensures checkingNs == 0
    {
      checkingNs := 0;
    }

    /** `close` asks for the connection to be closed, `pad` for a keepalive packet. */
    method Tick(s: Seen, doKeepalive: bool) returns (close: bool, pad: bool)
      modifies this
      ensures checkingNs == TimerAfter(old(checkingNs), s)
      ensures close == Expires(old(checkingNs), s)
      ensures pad == (s.connected && doKeepalive && s.hasVideo)
    {
      close, pad := false, false;
      if !s.connected {
        var start := checkingNs;
        if start == 0 {
          checkingNs := s.now;
        } else if s.now - start > CHECKING_TIMEOUT {
          close := true;
        }
        return;
      }
      checkingNs := 0;
      if doKeepalive && s.hasVideo {
        pad := true;
      }
    }
  }

  /** One round of the loop, by what it sees of each registered connection. */
  type Round = map<Pc, Seen>

  /** The timers of the registered connections. */
  type Timers = map<Pc, int>

  ghost function ClosedBy(timers: Timers, seen: Round): set<Pc>
    requires timers.Keys <= seen.Keys
  {
    set p | p in timers && Expires(timers[p], seen[p])
  }

  ghost function PaddedBy(timers: Timers, seen: Round): set<Pc>
    requires timers.Keys <= seen.Keys
  {
    set p | p in timers && seen[p].connected && seen[p].hasVideo
  }

  /** A connection that is closed leaves the working set. */
  ghost function TimersAfter(timers: Timers, seen: Round): Timers
    requires timers.Keys <= seen.Keys
  {
    map p | p in timers && !Expires(timers[p], seen[p]) :: TimerAfter(timers[p], seen[p])
  }

  class Monitor {
    var entries: map<Pc, Entry>
    var tick: nat

    ghost predicate Valid()
      reads this
    {
      forall p, q | p in entries && q in entries && p != q :: entries[p] != entries[q]
    }

    ghost function Timing(): (r: Timers)
      reads this, entries.Values
      ensures r.Keys == entries.Keys
    {
      map p | p in entries :: entries[p].checkingNs
    }

    constructor ()
      ensures Valid() && Timing() == map[] && tick == 0
    {
      entries := map[];
      tick := 0;
    }

    method Register(p: Pc)
      requires Valid()
      modifies this`entries
      ensures Valid() && p in entries && fresh(entries[p])
      ensures Timing() == old(Timing())[p := 0]
    {
      var e := new Entry();
      entries := entries[p := e];
    }

    method Unregister(p: Pc)
      requires Valid()
      modifies this`entries
      ensures Valid() && entries == old(entries) - {p} && Timing() == old(Timing()) - {p}
    {
      entries := entries - {p};
    }

    /** Ticks the entries of a snapshot one after the other. */
    method TickAll(snapshot: map<Pc, Entry>, seen: Round, doKeepalive: bool)
      returns (closed: set<Pc>, padded: set<Pc>)
      requires forall p, q | p in snapshot && q in snapshot && p != q :: snapshot[p] != snapshot[q]
      requires snapshot.Keys <= seen.Keys
      modifies this`entries, snapshot.Values
      ensures entries == old(entries) - closed
      ensures forall p | p in snapshot ::
                snapshot[p].checkingNs == TimerAfter(old(snapshot[p].checkingNs), seen[p])
      ensures forall p :: p in closed <==> p in snapshot && Expires(old(snapshot[p].checkingNs), seen[p])
      ensures forall p :: p in padded <==> p in snapshot && doKeepalive && seen[p].connected && seen[p].hasVideo
    {
      closed, padded := {}, {};
      var todo := snapshot.Keys;
      while todo != {}
        invariant todo <= snapshot.Keys && entries == old(entries) - closed
        invariant forall p | p in todo :: snapshot[p].checkingNs == old(snapshot[p].checkingNs)
        invariant forall p | p in snapshot && p !in todo ::
                    snapshot[p].checkingNs == TimerAfter(old(snapshot[p].checkingNs), seen[p])
        invariant forall p :: p in closed <==>
                              p in snapshot && p !in todo && Expires(old(snapshot[p].checkingNs), seen[p])
        invariant forall p :: p in padded <==>
                              p in snapshot && p !in todo && doKeepalive && seen[p].connected && seen[p].hasVideo
      {
        var p :| p in todo;
        var close, pad := snapshot[p].Tick(seen[p], doKeepalive);
        todo := todo - {p};
        if close {
          entries := entries - {p};
          closed := closed + {p};
        }
        if pad {
          padded := padded + {p};
        }
      }
    }

    /** One tick of the ticker. */
    method Poll(seen: Round) returns (closed: set<Pc>, padded: set<Pc>)
      requires Valid() && entries.Keys <= seen.Keys
      modifies this, entries.Values
      ensures Valid() && entries.Values <= old(entries.Values)
      ensures tick == old(tick) + 1
      ensures Timing() == TimersAfter(old(Timing()), seen)
      ensures closed == ClosedBy(old(Timing()), seen)
      ensures padded == if tick % KEEPALIVE_EVERY == 0 then PaddedBy(old(Timing()), seen) else {}
    {
      ghost var timers := Timing();
      tick := tick + 1;
      closed, padded := TickAll(entries, seen, tick % KEEPALIVE_EVERY == 0);
      assert closed == ClosedBy(timers, seen);
      assert forall p | p in entries :: entries[p].checkingNs == TimerAfter(timers[p], seen[p]);
    }

    /** The ticker loop over any number of rounds. A connection whose timer was off when it started is still
        there at the end exactly if none of its ticks ends a spell out of Connected that is too long. */
    method Run(rounds: seq<Round>)
      requires Valid()
      requires forall r | r in rounds :: entries.Keys <= r.Keys
      requires forall p | p in entries :: entries[p].checkingNs == 0
      modifies this, entries.Values
      ensures Valid() && entries.Keys <= old(entries.Keys)
      ensures forall p | p in old(entries) ::
                p in entries <==> forall k | 0 <= k < |rounds| :: !Overdue(TraceOf(rounds, p), k)
    {
      ghost var all := entries.Keys;
      for i := 0 to |rounds|
        invariant Valid() && entries.Keys <= all && entries.Values <= old(entries.Values)
        invariant Tracks(Timing(), rounds[..i], all)
      {
        TracksOn(Timing(), rounds[..i], all, rounds[i]);
        var _, _ := Poll(rounds[i]);
        assert rounds[..i + 1] == rounds[..i] + [rounds[i]];
      }
      assert rounds[..|rounds|] == rounds;
      TracksExactly(Timing(), rounds, all);
    }
  }

  // ---------------------------------------------------------------- one connection over all its ticks

  type Trace = seq<Seen>

  function TraceOf(rounds: seq<Round>, p: Pc): Trace
    requires forall r | r in rounds :: p in r
  {
    seq(|rounds|, i requires 0 <= i < |rounds| => rounds[i][p])
  }

  function Timer(t: Trace): int {
    if t == [] then 0 else TimerAfter(Timer(t[..|t| - 1]), t[|t| - 1])
  }

  /** Still registered: no tick so far closed it. */
  predicate Survives(t: Trace) {
    t == [] || var n := |t| - 1; Survives(t[..n]) && !Expires(Timer(t[..n]), t[n])
  }

  /** Out of Connected at every tick from `j` to `k`. */
  ghost predicate Down(t: Trace, j: nat, k: nat) {
    k < |t| && forall i | j <= i <= k :: !t[i].connected
  }

  /** Tick `j` began the spell out of Connected that tick `k` is in. (A clock reading of 0 cannot begin one:
      the code uses it for "not running".) */
  ghost predicate Began(t: Trace, j: nat, k: nat) {
    && j <= k && Down(t, j, k) && t[j].now != 0
    && forall i: nat | i < j && Down(t, i, k) :: t[i].now == 0
  }

  /** Tick `k` ends a spell of more than 15 s out of Connected. */
  ghost predicate Overdue(t: Trace, k: nat) {
    exists j: nat :: Began(t, j, k) && t[k].now - t[j].now > CHECKING_TIMEOUT
  }

  ghost predicate TimerIsAt(t: Trace, k: nat)
    requires k < |t|
  {
    if Timer(t[..k + 1]) == 0 then forall i: nat | i <= k && Down(t, i, k) :: t[i].now == 0
    else exists j: nat :: Began(t, j, k) && Timer(t[..k + 1]) == t[j].now
  }

  /** The timer is the time at which the present spell began, and off if there is none. */
  lemma {:induction false} TimerIsTheSpell(t: Trace, k: nat)
    requires k < |t|
    ensures TimerIsAt(t, k)
  {
    assert t[..k + 1][..k] == t[..k];
    if t[k].connected {
      assert forall i: nat | i <= k :: !Down(t, i, k);
    } else {
      if k > 0 {
        TimerIsTheSpell(t, k - 1);
        DownSpreads(t, k);
      }
      if Timer(t[..k]) == 0 {
        if t[k].now != 0 {
          assert Began(t, k, k);
        }
      } else {
        var j: nat :| Began(t, j, k - 1) && Timer(t[..k]) == t[j].now;
        assert Began(t, j, k);
      }
    }
  }

  lemma DownSpreads(t: Trace, k: nat)
    requires 0 < k < |t| && !t[k].connected
    ensures forall i: nat | i < k :: Down(t, i, k) <==> Down(t, i, k - 1)
  {
  }

  lemma BeganIsUnique(t: Trace, j: nat, j': nat, k: nat)
    requires Began(t, j, k) && Began(t, j', k)
    ensures j == j'
  {
  }

  /** A tick closes exactly if it ends a spell that is too long. */
  lemma ExpiresExactly(t: Trace, k: nat)
    requires k < |t|
    ensures Expires(Timer(t[..k]), t[k]) <==> Overdue(t, k)
  {
    TimerIsTheSpell(t, k);
    assert t[..k + 1][..k] == t[..k];
    if Expires(Timer(t[..k]), t[k]) {
      var j: nat :| Began(t, j, k) && Timer(t[..k + 1]) == t[j].now;
    }
    if Overdue(t, k) {
      var j: nat :| Began(t, j, k) && t[k].now - t[j].now > CHECKING_TIMEOUT;
      if Timer(t[..k + 1]) != 0 {
        var j': nat :| Began(t, j', k) && Timer(t[..k + 1]) == t[j'].now;
        BeganIsUnique(t, j, j', k);
      }
    }
  }

  lemma OverdueIsPast(t: Trace, n: nat, k: nat)
    requires k < n <= |t|
    ensures Overdue(t[..n], k) <==> Overdue(t, k)
  {
    forall j: nat
      ensures Began(t[..n], j, k) <==> Began(t, j, k)
    {
      assert forall i: nat :: Down(t[..n], i, k) <==> Down(t, i, k);
    }
    if Overdue(t, k) {
      var j: nat :| Began(t, j, k) && t[k].now - t[j].now > CHECKING_TIMEOUT;
      assert Began(t[..n], j, k);
    }
    if Overdue(t[..n], k) {
      var j: nat :| Began(t[..n], j, k) && t[k].now - t[j].now > CHECKING_TIMEOUT;
      assert Began(t, j, k);
    }
  }

  /** A connection is closed at the first tick that ends a spell of more than 15 s out of Connected, and
      never otherwise. */
  lemma {:induction false} SurvivesExactly(t: Trace)
    ensures Survives(t) <==> forall k | 0 <= k < |t| :: !Overdue(t, k)
  {
    if t != [] {
      var n := |t| - 1;
      SurvivesExactly(t[..n]);
      ExpiresExactly(t, n);
      forall k: nat | k < n
        ensures Overdue(t[..n], k) <==> Overdue(t, k)
      {
        OverdueIsPast(t, n, k);
      }
    }
  }

  /** With ticks at most `gap` apart, the one that closes a connection comes no later than 15 s and `gap`
      after the first of its spell. */
  lemma ClosedInTime(t: Trace, j: nat, k: nat, gap: nat)
    requires k < |t| && Survives(t[..k]) && Began(t, j, k) && Overdue(t, k)
    requires forall i | 0 < i < |t| :: t[i].now - t[i - 1].now <= gap
    ensures t[k].now - t[j].now <= CHECKING_TIMEOUT + gap
  {
    if j < k {
      BeganBefore(t, j, k);
      SurvivesExactly(t[..k]);
      OverdueIsPast(t, k, k - 1);
    }
  }

  lemma BeganBefore(t: Trace, j: nat, k: nat)
    requires j < k && Began(t, j, k)
    ensures Began(t, j, k - 1)
  {
    DownSpreads(t, k);
  }

  /** Two ticks out of Connected: the second closes if it is more than 15 s after the first, and not if it is
      exactly 15 s. */
  lemma FifteenSecondsAreAllowed(now: int, d: nat)
    requires now > 0
    ensures Overdue([Seen(now, false, false), Seen(now + d, false, false)], 1) <==> d > 15_000_000_000
  {
    var t := [Seen(now, false, false), Seen(now + d, false, false)];
    assert Began(t, 0, 1);
    if Overdue(t, 1) {
      var j: nat :| Began(t, j, 1) && t[1].now - t[j].now > CHECKING_TIMEOUT;
      BeganIsUnique(t, 0, j, 1);
    }
  }

  // ---------------------------------------------------------------- the wall clock

  /** How far the wall clock is ahead of a clock that never steps, whose readings are `steady`. */
  function Skew(t: Trace, steady: seq<int>, k: nat): int
    requires |t| == |steady| && k < |t|
  {
    t[k].now - steady[k]
  }

  /** The readings are of the wall clock. A tick of a spell that began at `j` closes exactly if the time that
      has really passed, and the steps of the wall clock in the meantime, come to more than 15 s. */
  lemma WallClockExactly(t: Trace, steady: seq<int>, j: nat, k: nat)
    requires |t| == |steady| && Began(t, j, k)
    ensures Overdue(t, k) <==> steady[k] - steady[j] + (Skew(t, steady, k) - Skew(t, steady, j)) > CHECKING_TIMEOUT
  {
    if Overdue(t, k) {
      var j': nat :| Began(t, j', k) && t[k].now - t[j'].now > CHECKING_TIMEOUT;
      BeganIsUnique(t, j, j', k);
    }
  }

  /** A wall clock set forward by 15 s closes a connection one second after it left Connected; set back by
      15 s, it leaves one open that has been stuck for 16 s. */
  lemma ClockStepMisleads()
    ensures var s := 1_000_000_000;
            var forward := [Seen(100 * s, false, false), Seen(116 * s, false, false)];
            var back := [Seen(100 * s, false, false), Seen(101 * s, false, false)];
            && Overdue(forward, 1) && Skew(forward, [0, s], 1) - Skew(forward, [0, s], 0) == 15 * s
            && !Overdue(back, 1) && Skew(back, [0, 16 * s], 1) - Skew(back, [0, 16 * s], 0) == -15 * s
  {
    var s := 1_000_000_000;
    var forward := [Seen(100 * s, false, false), Seen(116 * s, false, false)];
    var back := [Seen(100 * s, false, false), Seen(101 * s, false, false)];
    assert Began(forward, 0, 1) && Began(back, 0, 1);
    WallClockExactly(forward, [0, s], 0, 1);
    WallClockExactly(back, [0, 16 * s], 0, 1);
  }

  // ---------------------------------------------------------------- all connections over all rounds

  ghost predicate Tracks(timers: Timers, rounds: seq<Round>, all: set<Pc>) {
    && (forall r | r in rounds :: all <= r.Keys)
    && forall p | p in all ::
         && (p in timers <==> Survives(TraceOf(rounds, p)))
         && (p in timers ==> timers[p] == Timer(TraceOf(rounds, p)))
  }

  lemma TracksOn(timers: Timers, rounds: seq<Round>, all: set<Pc>, seen: Round)
    requires Tracks(timers, rounds, all) && timers.Keys <= all <= seen.Keys
    ensures Tracks(TimersAfter(timers, seen), rounds + [seen], all)
  {
    forall p | p in all
      ensures TraceOf(rounds + [seen], p)[..|rounds|] == TraceOf(rounds, p)
    {
    }
  }

  lemma TracksExactly(timers: Timers, rounds: seq<Round>, all: set<Pc>)
    requires Tracks(timers, rounds, all)
    ensures forall p | p in all :: p in timers <==> forall k | 0 <= k < |rounds| :: !Overdue(TraceOf(rounds, p), k)
  {
    forall p | p in all
      ensures p in timers <==> forall k | 0 <= k < |rounds| :: !Overdue(TraceOf(rounds, p), k)
    {
      SurvivesExactly(TraceOf(rounds, p));
    }
  }
}
