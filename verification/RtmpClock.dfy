/** The playback clock of an RTMP call (instances/rtmp_call.go): what ElapsedMs reads over a whole run of
    pauses, resumes and seeks, and where a single call makes the reading jump. */
module RtmpClock {
  import opened Options
  import opened RtmpCall

  datatype Event =
    | Pause(at: int)
    | Resume(at: int)
    | SeekBy(at: int, delta: int)

  /** Every spawn succeeds at once. */
  function Step(f: Fields, e: Event): Fields
    requires Follows(f, e.at)
  {
    match e
    case Pause(at) => Paused(f, at)
    case Resume(at) => Resumed(f, at, true)
    case SeekBy(at, delta) => Sought(f, delta, at, true)
  }

  function Last(es: seq<Event>): Event
    requires es != []
  {
    es[|es| - 1]
  }

  function Init(es: seq<Event>): seq<Event>
    requires es != []
  {
    es[..|es| - 1]
  }

  /** When the last event was, or the start. */
  function Latest(t0: int, es: seq<Event>): int { if es == [] then t0 else Last(es).at }

  predicate Monotone(t0: int, es: seq<Event>) {
    es == [] || (Monotone(t0, Init(es)) && Latest(t0, Init(es)) <= Last(es).at)
  }

  function After(t0: int, f: Fields, es: seq<Event>): (r: Fields)
    requires Monotone(t0, es) && Follows(f, t0)
    ensures Follows(r, Latest(t0, es))
  {
    if es == [] then f else Step(After(t0, f, Init(es)), Last(es))
  }

  /** No seek goes below zero. */
  predicate NoUnderflow(t0: int, f: Fields, es: seq<Event>)
    requires Monotone(t0, es) && Follows(f, t0)
  {
    es == [] ||
    (&& NoUnderflow(t0, f, Init(es))
     && (Last(es).SeekBy? ==> Elapsed(After(t0, f, Init(es)), Last(es).at) + Last(es).delta >= 0))
  }

  // ---------------------------------------------------------------- what the clock should say

  /** Paused and running, by the toggles alone. */
  predicate IsPaused(es: seq<Event>) {
    es != [] && (Last(es).Pause? || (Last(es).SeekBy? && IsPaused(Init(es))))
  }

  /** The wall time in nanoseconds, from `t0` to `now`, during which the call was not paused. */
  function Unpaused(t0: int, es: seq<Event>, now: int): int {
    var d := if IsPaused(es) then 0 else now - Latest(t0, es);
    if es == [] then d else Unpaused(t0, Init(es), Last(es).at) + d
  }

  function Deltas(es: seq<Event>): int {
    if es == [] then 0 else Deltas(Init(es)) + if Last(es).SeekBy? then Last(es).delta else 0
  }

  /** The events that cut the clock to whole milliseconds: a pause or a seek of a running call. */
  function Cuts(es: seq<Event>): nat {
    if es == [] then 0
    else Cuts(Init(es)) + if !Last(es).Resume? && !IsPaused(Init(es)) then 1 else 0
  }

  function Ideal(t0: int, es: seq<Event>, now: int): int { Unpaused(t0, es, now) + Deltas(es) * MS }

  // ---------------------------------------------------------------- conservation

  /** The position in nanoseconds. */
  function Position(f: Fields, now: int): int {
    if f.paused || f.startedAt.None? then f.resumeMs * MS else now - f.startedAt.value
  }

  ghost predicate Near(ideal: int, position: int, cuts: nat) {
    0 <= ideal - position <= cuts * (MS - 1)
  }

  /** A call as SetSource leaves it at time `t0`, not paused. */
  predicate Started(f: Fields, t0: int) {
    f.running && f.hasSource && !f.paused && f.startedAt == Some(t0)
  }

  lemma SetSourceStarts(f: Fields, t0: int)
    requires !f.paused
    ensures Started(Sourced(f, t0, true), t0)
  {
  }

  ghost predicate Ticking(f: Fields, paused: bool) {
    f.hasSource && f.paused == paused && (paused || (f.running && f.startedAt.Some?))
  }

  /** One event loses less than a millisecond, and only if it cuts. */
  lemma StepIsNear(f: Fields, e: Event, paused: bool, ideal: int, cuts: nat)
    requires Follows(f, e.at) && Ticking(f, paused) && Near(ideal, Position(f, e.at), cuts)
    requires e.SeekBy? ==> Elapsed(f, e.at) + e.delta >= 0
    ensures Ticking(Step(f, e), e.Pause? || (e.SeekBy? && paused))
    ensures var d := if e.SeekBy? then e.delta else 0;
            Near(ideal + d * MS, Position(Step(f, e), e.at), cuts + if !e.Resume? && !paused then 1 else 0)
  {
    if !e.Resume? && !paused {
      CutLosesLittle(e.at - f.startedAt.value);
    }
  }

  lemma CutLosesLittle(d: int)
    ensures 0 <= d - d / MS * MS <= MS - 1
  {
  }

  lemma {:induction false} PositionIsNear(t0: int, f: Fields, es: seq<Event>, now: int)
    requires Started(f, t0) && Monotone(t0, es) && NoUnderflow(t0, f, es) && Latest(t0, es) <= now
    ensures Ticking(After(t0, f, es), IsPaused(es))
    ensures Near(Ideal(t0, es, now), Position(After(t0, f, es), now), Cuts(es))
    decreases |es|
  {
    if es != [] {
      var e, init := Last(es), Init(es);
      PositionIsNear(t0, f, init, e.at);
      StepIsNear(After(t0, f, init), e, IsPaused(init), Ideal(t0, init, e.at), Cuts(init));
    }
  }

  /** Over any run since SetSource, ElapsedMs is never above the unpaused wall time plus the seek deltas,
      and less than one millisecond below it per pause and seek, and one more for the reading itself. */
  lemma ElapsedIsConserved(t0: int, f: Fields, es: seq<Event>, now: int)
    requires Started(f, t0) && Monotone(t0, es) && NoUnderflow(t0, f, es) && Latest(t0, es) <= now
    ensures var ms := Elapsed(After(t0, f, es), now) * MS;
            ms <= Ideal(t0, es, now) < ms + (Cuts(es) + 1) * MS
  {
    PositionIsNear(t0, f, es, now);
    var g := After(t0, f, es);
    if !g.paused {
      CutLosesLittle(now - g.startedAt.value);
    }
  }

  /** Between events the reading stands still exactly while paused: over any whole millisecond it moves on
      by one otherwise. */
  lemma ElapsedStandsStillExactly(t0: int, f: Fields, es: seq<Event>, now: int)
    requires Started(f, t0) && Monotone(t0, es) && NoUnderflow(t0, f, es) && Latest(t0, es) <= now
    ensures var g := After(t0, f, es);
            Elapsed(g, now + MS) == Elapsed(g, now) + if IsPaused(es) then 0 else 1
  {
    PositionIsNear(t0, f, es, now);
    var g := After(t0, f, es);
    if !g.paused {
      var d := now - g.startedAt.value;
      assert (d + MS) / MS == d / MS + 1;
    }
  }

  // ---------------------------------------------------------------- one call at a time

  /** Pause keeps the reading exactly if ffmpeg is running, or the stale start happens to read zero. */
  lemma PauseIsContinuousExactly(f: Fields, now: int)
    requires Valid(f) && Follows(f, now) && !f.paused
    ensures Elapsed(Paused(f, now), now) == Elapsed(f, now) <==> f.running || SinceStart(f, now) == 0
  {
  }

  /** After a seek below zero the reading is 0; a pause an hour after the start makes it an hour. */
  lemma PauseReadsStaleStart(t0: int)
    ensures var hour := 3_600_000;
            var f := Sourced(NEW_CALL, t0, true);
            var g := Sought(f, -1, t0, true);
            && Elapsed(g, t0 + hour * MS) == 0
            && Elapsed(Paused(g, t0 + hour * MS), t0 + hour * MS) == hour
  {
  }

  /** A pause before any source reads 292 years. */
  lemma PauseReadsNoStart(now: int)
    ensures Elapsed(Paused(NEW_CALL, now), now) == SINCE_NEVER == 9_223_372_036_854
  {
  }

  /** Resume keeps the reading exactly if ffmpeg starts, or there was nothing to keep. */
  lemma ResumeIsContinuousExactly(f: Fields, now: int, ok: bool)
    requires Valid(f) && Follows(f, now) && f.paused
    ensures var g := Resumed(f, now, ok);
            && Follows(g, now)
            && (Elapsed(g, now) == Elapsed(f, now) <==> (f.hasSource && ok) || f.resumeMs == 0)
  {
  }

  /** SeekBy moves the reading by its delta, stopping at zero, exactly if ffmpeg starts, or need not. */
  lemma SeekMovesExactly(f: Fields, delta: int, now: int, ok: bool)
    requires Valid(f) && Follows(f, now) && f.hasSource
    ensures var g, target := Sought(f, delta, now, ok), Elapsed(f, now) + delta;
            && Follows(g, now)
            && (Elapsed(g, now) == (if target < 0 then 0 else target) <==> f.paused || ok || target <= 0)
  {
  }
}
