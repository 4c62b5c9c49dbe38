/** The pacing loop of a streamer (media/streamer.go). Times are nanoseconds of a monotone clock. One
    `Turn` is what one pass through the loop meets: the clock readings, the sample, and how it ends. */
module StreamerPacing {

  const MILLISECOND := 1_000_000
  const CATCH_UP := 100 * MILLISECOND

  datatype Outcome = Goes | ContextDone | GateClosed | ReadFails | WriteFails | WaitCancelled

  /** `wake` is read after the gate, `now` by time.Until, `reset` when the deadline is reset; `fired`
      is when the timer fires. */
  datatype Turn = Turn(outcome: Outcome, wake: int, dur: nat, muted: bool, now: int, reset: int, fired: int)

  function Max(a: int, b: int): int { if a > b then a else b }

  /** The deadline of the sample of turn `t`. */
  function Deadline(next: int, t: Turn): int { Max(next, t.wake) + t.dur }

  /** `next` after the turn, with or without the catch-up reset. */
  function NextOf(resets: bool, next: int, t: Turn): int {
    var n := Deadline(next, t);
    if resets && n - t.now < -CATCH_UP then t.reset else n
  }

  /** When the turn is over: at the timer, at the reset, or at once. */
  function Over(next: int, t: Turn): int {
    var wait := Deadline(next, t) - t.now;
    if wait < -CATCH_UP then t.reset else if wait <= 0 then t.now else t.fired
  }

  /** The readings of a monotone clock with a timer that never fires early. */
  predicate Clocked(since: int, next: int, turns: seq<Turn>)
    decreases |turns|
  {
    turns != [] ==>
      var t := turns[0];
      && since <= t.wake <= t.now <= t.reset
      && (t.outcome.Goes? && Deadline(next, t) > t.now ==> Deadline(next, t) <= t.fired)
      && (t.outcome.Goes? ==> Clocked(Over(next, t), NextOf(true, next, t), turns[1..]))
  }

  // ---------------------------------------------------------------- what the loop does

  /** What the loop makes of the turns it meets: those whose sample it hands over and counts, and
      whether it has ended. A cancelled context is noticed in a wait only if there is a wait. */
  datatype Trace = Trace(counted: seq<Turn>, ended: bool)

  predicate EndsEarly(o: Outcome) { o.ContextDone? || o.GateClosed? || o.ReadFails? || o.WriteFails? }

  function Play(next: int, turns: seq<Turn>): Trace
    decreases |turns|
  {
    if turns == [] then Trace([], false)
    else
      var t := turns[0];
      if EndsEarly(t.outcome) then Trace([], true)
      else if t.outcome.WaitCancelled? && Deadline(next, t) > t.now then Trace([t], true)
      else
        var rest := Play(NextOf(true, next, t), turns[1..]);
        Trace([t] + rest.counted, rest.ended)
  }

  function MsSum(turns: seq<Turn>): nat {
    if turns == [] then 0 else turns[0].dur / MILLISECOND + MsSum(turns[1..])
  }

  function DurSum(turns: seq<Turn>): nat {
    if turns == [] then 0 else turns[0].dur + DurSum(turns[1..])
  }

  /** The waits that the loop asks its timer for, zero where it does not wait. */
  function Waits(resets: bool, next: int, turns: seq<Turn>): seq<nat>
    decreases |turns|
  {
    if turns == [] then []
    else [Max(0, Deadline(next, turns[0]) - turns[0].now)] + Waits(resets, NextOf(resets, next, turns[0]), turns[1..])
  }

  function Written(turns: seq<Turn>): seq<bool> {
    if turns == [] then [] else [!turns[0].muted] + Written(turns[1..])
  }

  /** What the loop has to show for itself: the milliseconds counted, for each sample whether it was
      written, the waits, and the calls of fireEnd. */
  datatype Tally = Tally(msSent: nat, written: seq<bool>, waits: seq<nat>, ends: nat)

  function Plus(a: Tally, b: Tally): Tally {
    Tally(a.msSent + b.msSent, a.written + b.written, a.waits + b.waits, a.ends + b.ends)
  }

  function TallyOf(next: int, turns: seq<Turn>): Tally
    decreases |turns|
  {
    if turns == [] then Tally(0, [], [], 0)
    else
      var t := turns[0];
      var wait := Deadline(next, t) - t.now;
      if EndsEarly(t.outcome) then Tally(0, [], [], 1)
      else if t.outcome.WaitCancelled? && wait > 0 then Tally(t.dur / MILLISECOND, [!t.muted], [wait], 1)
      else
        Plus(Tally(t.dur / MILLISECOND, [!t.muted], [Max(0, wait)], 0), TallyOf(NextOf(true, next, t), turns[1..]))
  }

  /** The tally is that of the counted samples, and fireEnd is called once, when the loop ends. */
  lemma {:induction false} TallyIsOfPlay(next: int, turns: seq<Turn>)
    ensures var p := Play(next, turns);
            TallyOf(next, turns)
            == Tally(MsSum(p.counted), Written(p.counted), Waits(true, next, p.counted), if p.ended then 1 else 0)
    decreases |turns|
  {
    if turns != [] {
      TallyIsOfPlay(NextOf(true, next, turns[0]), turns[1..]);
      assert [turns[0]][1..] == [];
    }
  }

  lemma PlusAssociates(a: Tally, b: Tally, c: Tally)
    ensures Plus(Plus(a, b), c) == Plus(a, Plus(b, c))
  {
  }

  /** What one turn adds when the loop goes on, or ends in the wait. */
  function Sent(next: int, t: Turn): Tally {
    Tally(t.dur / MILLISECOND, [!t.muted], [Max(0, Deadline(next, t) - t.now)], 0)
  }

  lemma TurnEndsEarly(next: int, turns: seq<Turn>)
    requires turns != [] && EndsEarly(turns[0].outcome)
    ensures TallyOf(next, turns) == Tally(0, [], [], 1)
  {
  }

  lemma TurnEndsInWait(next: int, turns: seq<Turn>)
    requires turns != [] && turns[0].outcome.WaitCancelled? && Deadline(next, turns[0]) > turns[0].now
    ensures TallyOf(next, turns) == Sent(next, turns[0]).(ends := 1)
  {
  }

  lemma TurnGoesOn(next: int, turns: seq<Turn>)
    requires turns != [] && !EndsEarly(turns[0].outcome)
    requires !(turns[0].outcome.WaitCancelled? && Deadline(next, turns[0]) > turns[0].now)
    ensures TallyOf(next, turns) == Plus(Sent(next, turns[0]), TallyOf(NextOf(true, next, turns[0]), turns[1..]))
  {
  }

  /** The loop so far has tallied `r`, and goes on at `next` with the turns from `k` on. */
  ghost predicate Tallied(start: int, turns: seq<Turn>, r: Tally, next: int, k: nat)
    requires k <= |turns|
  {
    TallyOf(start, turns) == Plus(r, TallyOf(next, turns[k..]))
  }

  lemma TalliedOn(start: int, turns: seq<Turn>, r: Tally, next: int, k: nat)
    requires k < |turns| && Tallied(start, turns, r, next, k) && !EndsEarly(turns[k].outcome)
    requires !(turns[k].outcome.WaitCancelled? && Deadline(next, turns[k]) > turns[k].now)
    ensures Tallied(start, turns, Plus(r, Sent(next, turns[k])), NextOf(true, next, turns[k]), k + 1)
  {
    TurnGoesOn(next, turns[k..]);
    assert turns[k..][1..] == turns[k + 1..];
    PlusAssociates(r, Sent(next, turns[k]), TallyOf(NextOf(true, next, turns[k]), turns[k + 1..]));
  }

  /** The loop of Streamer.run over the turns it meets. */
  method Run(start: int, turns: seq<Turn>) returns (r: Tally)
    ensures r == TallyOf(start, turns)
    ensures AsTold(start, turns, r)
  {
    TallyIsAsTold(start, turns);
    var next := start;
    r := Tally(0, [], [], 0);
    var k := 0;
    while k < |turns|
      invariant 0 <= k <= |turns|
      invariant Tallied(start, turns, r, next, k)
    {
      var t := turns[k];
      if t.outcome.ContextDone? || t.outcome.GateClosed? {
        TurnEndsEarly(next, turns[k..]);
        return Plus(r, Tally(0, [], [], 1));
      }
      ghost var before := next;
      if t.wake > next {
        next := t.wake;
      }
      if t.outcome.ReadFails? || t.outcome.WriteFails? {
        TurnEndsEarly(before, turns[k..]);
        return Plus(r, Tally(0, [], [], 1));
      }
      next := next + t.dur;
      var wait := next - t.now;
      var sent := Tally(t.dur / MILLISECOND, [!t.muted], [if wait <= 0 then 0 else wait], 0);
      if wait < -CATCH_UP {
        next := t.reset;
      } else if wait > 0 {
        if t.outcome.WaitCancelled? {
          TurnEndsInWait(before, turns[k..]);
          return Plus(r, sent.(ends := 1));
        }
      }
      TalliedOn(start, turns, r, before, k);
      r := Plus(r, sent);
      k := k + 1;
    }
    assert Plus(r, Tally(0, [], [], 0)) == r;
  }

  // ---------------------------------------------------------------- the tally, by the turns alone

  predicate AllGo(turns: seq<Turn>) {
    forall i | 0 <= i < |turns| :: turns[i].outcome.Goes?
  }

  predicate StopsHere(o: Outcome) { o == ContextDone || o == GateClosed || o == ReadFails || o == WriteFails }

  predicate StopsInWait(t: Turn) { t.outcome == WaitCancelled && t.wake + t.dur > t.now }

  /** The tally of a loop that has handed over exactly the samples of `turns`: the whole milliseconds of each
      are counted, all but the muted ones are written, and each is followed by a wait until its duration has
      passed since its own wake-up. */
  ghost predicate Handed(r: Tally, turns: seq<Turn>, ends: nat) {
    && r.ends == ends
    && r.msSent == MsSum(turns)
    && |r.written| == |turns| && |r.waits| == |turns|
    && (forall k | 0 <= k < |turns| :: r.written[k] <==> !turns[k].muted)
    && forall k | 0 <= k < |turns| ::
         r.waits[k] == var due := turns[k].wake + turns[k].dur; if due > turns[k].now then due - turns[k].now else 0
  }

  /** On a monotone clock: if no turn ends the loop all samples are handed over; if turn `k` is the first to
      end it the samples before it are, and its own too if what ends is the wait for it. */
  ghost predicate AsTold(start: int, turns: seq<Turn>, r: Tally) {
    Clocked(start, start, turns) ==>
      && (AllGo(turns) ==> Handed(r, turns, 0))
      && forall k {:trigger turns[..k]} | 0 <= k < |turns| && AllGo(turns[..k]) ::
           && (StopsHere(turns[k].outcome) ==> Handed(r, turns[..k], 1))
           && (StopsInWait(turns[k]) ==> Handed(r, turns[..k + 1], 1))
  }

  lemma HandedNothing(ends: nat)
    ensures Handed(Tally(0, [], [], ends), [], ends)
  {
  }

  /** One more sample in front; its wait is its own, because the deadline before it has passed. */
  lemma HandedOneMore(next: int, t: Turn, r: Tally, rest: seq<Turn>, ends: nat)
    requires Handed(r, rest, ends) && next <= t.wake
    ensures Handed(Plus(Sent(next, t), r), [t] + rest, ends)
  {
    assert ([t] + rest)[1..] == rest;
  }

  /** However many samples go before turn `k`: they are handed over, and the loop goes on after them. */
  lemma {:induction false} TallyOfGoing(since: int, next: int, turns: seq<Turn>, k: nat)
    requires Clocked(since, next, turns) && next <= since && k <= |turns| && AllGo(turns[..k])
    requires k < |turns| ==> StopsHere(turns[k].outcome)
    ensures Handed(TallyOf(next, turns), turns[..k], if k < |turns| then 1 else 0)
    decreases k
  {
    if k == 0 {
      if turns != [] {
        TurnEndsEarly(next, turns);
      }
      HandedNothing(if turns == [] then 0 else 1);
      assert turns[..0] == [];
    } else {
      var t, rest := turns[0], turns[1..];
      GoingHead(since, next, turns, k);
      TallyOfGoing(Over(next, t), NextOf(true, next, t), rest, k - 1);
      TurnGoesOn(next, turns);
      HandedOneMore(next, t, TallyOf(NextOf(true, next, t), rest), rest[..k - 1], if k < |turns| then 1 else 0);
      assert turns[..k] == [t] + rest[..k - 1];
    }
  }

  lemma GoingHead(since: int, next: int, turns: seq<Turn>, k: nat)
    requires Clocked(since, next, turns) && next <= since && 0 < k <= |turns| && AllGo(turns[..k])
    ensures var t := turns[0];
            && t.outcome.Goes? && next <= t.wake
            && Clocked(Over(next, t), NextOf(true, next, t), turns[1..]) && NextOf(true, next, t) <= Over(next, t)
            && AllGo(turns[1..][..k - 1])
  {
    assert turns[0] == turns[..k][0];
    assert forall i | 0 <= i < k - 1 :: turns[1..][i] == turns[..k][i + 1];
    ClockedHead(since, next, turns);
    DeadlinePasses(since, next, turns[0]);
  }

  lemma {:induction false} TallyOfCancelledWait(since: int, next: int, turns: seq<Turn>, k: nat)
    requires Clocked(since, next, turns) && next <= since && k < |turns| && AllGo(turns[..k])
    requires StopsInWait(turns[k])
    ensures Handed(TallyOf(next, turns), turns[..k + 1], 1)
    decreases k
  {
    var t, rest := turns[0], turns[1..];
    if k == 0 {
      TurnEndsInWait(next, turns);
      HandedNothing(1);
      HandedOneMore(next, t, Tally(0, [], [], 1), [], 1);
      assert turns[..1] == [t] + [];
    } else {
      GoingHead(since, next, turns, k);
      TallyOfCancelledWait(Over(next, t), NextOf(true, next, t), rest, k - 1);
      TurnGoesOn(next, turns);
      HandedOneMore(next, t, TallyOf(NextOf(true, next, t), rest), rest[..k], 1);
      assert turns[..k + 1] == [t] + rest[..k];
    }
  }

  lemma TallyIsAsTold(start: int, turns: seq<Turn>)
    ensures AsTold(start, turns, TallyOf(start, turns))
  {
    if Clocked(start, start, turns) {
      if AllGo(turns) {
        assert turns[..|turns|] == turns;
        TallyOfGoing(start, start, turns, |turns|);
      }
      forall k | 0 <= k < |turns| && AllGo(turns[..k])
        ensures StopsHere(turns[k].outcome) ==> Handed(TallyOf(start, turns), turns[..k], 1)
        ensures StopsInWait(turns[k]) ==> Handed(TallyOf(start, turns), turns[..k + 1], 1)
      {
        if StopsHere(turns[k].outcome) {
          TallyOfGoing(start, start, turns, k);
        } else if StopsInWait(turns[k]) {
          TallyOfCancelledWait(start, start, turns, k);
        }
      }
    }
  }

  // ---------------------------------------------------------------- pacing

  /** A deadline never lies after the next reading of the clock, whether or not it was reset. */
  lemma DeadlinePasses(since: int, next: int, t: Turn)
    requires Clocked(since, next, [t]) && t.outcome.Goes?
    ensures Deadline(next, t) <= Over(next, t)
    ensures NextOf(true, next, t) <= Over(next, t) && NextOf(false, next, t) <= Over(next, t)
  {
  }

  lemma ClockedHead(since: int, next: int, turns: seq<Turn>)
    requires Clocked(since, next, turns) && turns != [] && turns[0].outcome.Goes?
    ensures Clocked(since, next, [turns[0]])
  {
    assert [turns[0]][1..] == [];
    assert Clocked(Over(next, turns[0]), NextOf(true, next, turns[0]), []);
  }

  /** Pacing never runs ahead: the samples handed over before turn `k` last no longer than the time
      between the first wake-up and the one of turn `k`. */
  lemma {:induction false} NeverRunsAhead(since: int, next: int, turns: seq<Turn>, k: nat)
    requires Clocked(since, next, turns) && k < |turns| && AllGo(turns[..k])
    ensures DurSum(turns[..k]) <= turns[k].wake - turns[0].wake
    decreases k
  {
    if k > 0 {
      var t, rest := turns[0], turns[1..];
      assert t == turns[..k][0];
      ClockedHead(since, next, turns);
      DeadlinePasses(since, next, t);
      assert AllGo(rest[..k - 1]) by {
        assert forall i | 0 <= i < k - 1 :: rest[i] == turns[..k][i + 1];
      }
      NeverRunsAhead(Over(next, t), NextOf(true, next, t), rest, k - 1);
      assert turns[..k][1..] == rest[..k - 1];
      assert t.wake + t.dur <= Deadline(next, t) <= rest[0].wake;
    }
  }

  /** The catch-up reset changes nothing that can be seen: from any two deadlines that have passed, the
      loop asks for the same waits with it and without it. */
  lemma {:induction false} ResetIsRedundant(since: int, next: int, other: int, turns: seq<Turn>)
    requires Clocked(since, next, turns) && AllGo(turns) && next <= since && other <= since
    ensures Waits(true, next, turns) == Waits(false, other, turns)
    decreases |turns|
  {
    if turns != [] {
      var t := turns[0];
      ClockedHead(since, next, turns);
      DeadlinePasses(since, next, t);
      assert Deadline(next, t) == Deadline(other, t);
      ResetIsRedundant(Over(next, t), NextOf(true, next, t), NextOf(false, other, t), turns[1..]);
    }
  }

  /** The millisecond counter loses less than a millisecond per sample. */
  lemma {:induction false} MsSentUndercounts(turns: seq<Turn>)
    ensures MsSum(turns) * MILLISECOND <= DurSum(turns)
    ensures turns != [] ==> DurSum(turns) < (MsSum(turns) + |turns|) * MILLISECOND
  {
    if turns != [] {
      MsSentUndercounts(turns[1..]);
    }
  }

  // ---------------------------------------------------------------- drift

  /** How far behind real time turn `k` starts. */
  function Drift(turns: seq<Turn>, k: nat): int
    requires k < |turns|
  {
    turns[k].wake - turns[0].wake - DurSum(turns[..k])
  }

  lemma {:induction false} DurSumPlus(turns: seq<Turn>, t: Turn)
    ensures DurSum(turns + [t]) == DurSum(turns) + t.dur
  {
    if turns != [] {
      DurSumPlus(turns[1..], t);
      assert (turns + [t])[1..] == turns[1..] + [t];
    } else {
      assert [t][1..] == [];
    }
  }

  lemma DriftStep(turns: seq<Turn>, k: nat)
    requires k + 1 < |turns|
    ensures Drift(turns, k + 1) == Drift(turns, k) + (turns[k + 1].wake - turns[k].wake - turns[k].dur)
  {
    DurSumPlus(turns[..k], turns[k]);
    assert turns[..k + 1] == turns[..k] + [turns[k]];
  }

  lemma {:induction false} ClockedFrom(since: int, next: int, turns: seq<Turn>, k: nat)
    returns (since': int, next': int)
    requires Clocked(since, next, turns) && AllGo(turns) && k <= |turns|
    ensures Clocked(since', next', turns[k..])
    decreases k
  {
    since', next' := since, next;
    if k > 0 {
      var t := turns[0];
      since', next' := ClockedFrom(Over(next, t), NextOf(true, next, t), turns[1..], k - 1);
      assert turns[1..][k - 1..] == turns[k..];
    }
  }

  /** Lateness is forgiven and never made up for: drift starts at zero and only grows. */
  lemma {:induction false} DriftAccumulates(since: int, next: int, turns: seq<Turn>, j: nat, k: nat)
    requires Clocked(since, next, turns) && AllGo(turns) && j <= k < |turns|
    ensures 0 <= Drift(turns, j) <= Drift(turns, k)
    decreases k
  {
    NeverRunsAhead(since, next, turns, j);
    if j < k {
      DriftAccumulates(since, next, turns, j, k - 1);
      DriftStep(turns, k - 1);
      var since', next' := ClockedFrom(since, next, turns, k - 1);
      NeverRunsAhead(since', next', turns[k - 1..], 1);
      assert turns[k - 1..][..1] == [turns[k - 1]];
      assert DurSum([turns[k - 1]]) == turns[k - 1].dur + DurSum([turns[k - 1]][1..]);
    }
  }

  /** There is no drift at turn `k` exactly when every turn before it was followed on time. */
  lemma {:induction false} NoDriftExactly(since: int, next: int, turns: seq<Turn>, k: nat)
    requires Clocked(since, next, turns) && AllGo(turns) && k < |turns|
    ensures Drift(turns, k) == 0 <==> forall i | 0 <= i < k :: turns[i + 1].wake == turns[i].wake + turns[i].dur
    decreases k
  {
    if k > 0 {
      NoDriftExactly(since, next, turns, k - 1);
      DriftStep(turns, k - 1);
      DriftAccumulates(since, next, turns, k - 1, k);
    }
  }

  /** How late turn `t` hands its sample over, beyond the sample's own duration. */
  function Lateness(t: Turn): nat { Max(0, t.now - t.wake - t.dur) }

  function LatenessSum(turns: seq<Turn>): nat {
    if turns == [] then 0 else LatenessSum(turns[..|turns| - 1]) + Lateness(turns[|turns| - 1])
  }

  /** Every wait takes as long as the loop asked for, and the next turn begins at once. */
  predicate Punctual(turns: seq<Turn>, waits: seq<nat>) {
    |waits| == |turns| && forall i | 0 <= i < |turns| - 1 :: turns[i + 1].wake == turns[i].now + waits[i]
  }

  /** With punctual timers the drift is what the samples were late in sum: no more, and none if each was
      handed over within its duration. */
  lemma {:induction false} DriftIsLateness(turns: seq<Turn>, r: Tally, k: nat)
    requires k < |turns| && Handed(r, turns, 0) && Punctual(turns, r.waits)
    ensures Drift(turns, k) == LatenessSum(turns[..k])
    ensures (forall i | 0 <= i < k :: turns[i].now <= turns[i].wake + turns[i].dur) ==> Drift(turns, k) == 0
  {
    if k > 0 {
      DriftIsLateness(turns, r, k - 1);
      DriftStep(turns, k - 1);
      assert turns[..k][..k - 1] == turns[..k - 1];
    }
  }

  /** One sample handed over 30 ms late, and the next one on time after it: the 30 ms are never made up. */
  lemma LatenessStays()
    ensures var ms := MILLISECOND;
            var first := Turn(Goes, 0, 20 * ms, false, 0, 0, 50 * ms);
            var second := Turn(Goes, 50 * ms, 20 * ms, false, 50 * ms, 50 * ms, 70 * ms);
            var third := Turn(Goes, 70 * ms, 20 * ms, false, 70 * ms, 70 * ms, 90 * ms);
            Clocked(0, 0, [first, second, third]) && Drift([first, second, third], 2) == 30 * ms
  {
    var ms := MILLISECOND;
    var first := Turn(Goes, 0, 20 * ms, false, 0, 0, 50 * ms);
    var second := Turn(Goes, 50 * ms, 20 * ms, false, 50 * ms, 50 * ms, 70 * ms);
    var third := Turn(Goes, 70 * ms, 20 * ms, false, 70 * ms, 70 * ms, 90 * ms);
    var turns := [first, second, third];
    assert turns[1..] == [second, third] && [second, third][1..] == [third] && [third][1..] == [];
    assert Clocked(70 * ms, 70 * ms, [third]);
    assert Clocked(50 * ms, 20 * ms, [second, third]);
    assert turns[..2] == [first, second] && [first, second][1..] == [second] && [second][1..] == [];
    assert DurSum([second]) == 20 * ms;
  }
}
