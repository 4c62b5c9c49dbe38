/** Single runs of an RTMP call (instances/rtmp_call.go) that show what it reports and what it does not, and
    what can still happen to a call after Stop. */
module RtmpRuns {
  import opened RtmpCall
  import opened RtmpEnds

  // ---------------------------------------------------------------- single runs

  predicate Leads(steps: seq<Step>, s: State) { IsRun(INITIAL, steps) && After(INITIAL, steps) == s }

  ghost predicate Reachable(s: State) { exists steps :: Leads(steps, s) }

  lemma {:induction false} RunAppend(s: State, steps: seq<Step>, step: Step)
    requires IsRun(s, steps) && Enabled(After(s, steps), step)
    ensures IsRun(s, steps + [step]) && After(s, steps + [step]) == Apply(After(s, steps), step)
    decreases |steps|
  {
    if steps == [] {
      assert [step][1..] == [] && IsRun(Apply(s, step), []);
    } else {
      RunAppend(Apply(s, steps[0]), steps[1..], step);
      assert (steps + [step])[1..] == steps[1..] + [step];
    }
  }

  lemma Go(s: State, step: Step) returns (t: State)
    requires Reachable(s) && Enabled(s, step)
    ensures Reachable(t) && t == Apply(s, step)
  {
    t := Apply(s, step);
    var steps :| Leads(steps, s);
    RunAppend(INITIAL, steps, step);
    assert Leads(steps + [step], t);
  }

  lemma FirstStarted() returns (t: State)
    ensures Reachable(t)
    ensures t == State(Sourced(NEW_CALL, 0, true), false, Hooking, CurrentState(NEW_CALL), [Proc(true, false)], [])
  {
    assert Leads([], INITIAL);
    t := Go(INITIAL, Enter(SetSource, 0));
    t := Go(t, Proceed(true));
  }

  /** A pause is reported as the end of the stream, and only then as a pause. */
  lemma PauseIsReportedAsEnd() returns (t: State)
    ensures Reachable(t) && t.mu.Free? && t.f.paused && t.f.resumeMs == 1
    ensures t.events == [End(0), Upgrade(MediaState(false, true, false, true))]
  {
    t := FirstStarted();
    t := Go(t, Hook);
    t := Go(t, Enter(Pause, MS));
    t := Go(t, Exits(0));
    t := Go(t, Join);
    t := Go(t, Proceed(true));
  }

  /** A process that exits before it is hooked is never reported: the call is open and at rest, points to
      the dead process, and has submitted nothing. */
  lemma ExitBeforeHookIsLost() returns (t: State)
    ensures Reachable(t) && t.mu.Free? && !t.closed && t.f.running
    ensures t.procs == [Proc(false, true)] && t.events == []
  {
    t := FirstStarted();
    t := Go(t, Exits(0));
    t := Go(t, Hook);
  }

  // ---------------------------------------------------------------- after Stop

  predicate Idle(s: State) {
    !s.f.hasSource && !s.f.running && (s.mu.Free? || (!s.mu.Hooking? && !s.mu.op.SetSource?))
  }

  lemma IdleStep(s: State, step: Step)
    requires Idle(s) && Enabled(s, step) && !(step.Enter? && step.op.SetSource?)
    ensures Idle(Apply(s, step)) && |Apply(s, step).procs| == |s.procs|
  {
  }

  /** Once Stop has had the lock, no process is started unless a SetSource that looked at `closed` too early
      still gets the lock. */
  lemma {:induction false} NothingStartsAfterStop(s: State, steps: seq<Step>)
    requires Idle(s) && IsRun(s, steps)
    requires forall i | 0 <= i < |steps| :: !(steps[i].Enter? && steps[i].op.SetSource?)
    ensures Idle(After(s, steps)) && |After(s, steps).procs| == |s.procs|
    decreases |steps|
  {
    if steps != [] {
      IdleStep(s, steps[0]);
      var rest := steps[1..];
      assert forall i | 0 <= i < |rest| :: rest[i] == steps[i + 1];
      NothingStartsAfterStop(Apply(s, steps[0]), rest);
    }
  }

  lemma StopLeavesIdle(s: State, ok: bool)
    requires s.mu.Ready? && s.mu.op.Stop? && Enabled(s, Proceed(ok))
    ensures Idle(Apply(s, Proceed(ok)))
  {
  }

  /** Such a SetSource does start one, and the call that was stopped goes on pushing. */
  lemma LateSetSourceRuns(s: State, now: int) returns (t: State)
    requires Reachable(s) && Idle(s) && s.mu.Free? && s.closed && !s.f.paused && Follows(s.f, now)
    ensures Reachable(t) && t.mu.Free? && t.closed && t.f.running
    ensures t.procs == s.procs + [Proc(true, true)]
  {
    t := Go(s, Enter(SetSource, now));
    t := Go(t, Proceed(true));
    t := Go(t, Hook);
  }

  /** Every call can be stopped, and is then in the state that the late SetSource needs. */
  lemma StopEnds(s: State, now: int) returns (t: State)
    requires Reachable(s) && s.mu.Free? && Follows(s.f, now)
    ensures Reachable(t) && Idle(t) && t.mu.Free? && t.closed && !t.f.paused && Follows(t.f, now)
    ensures LastIsDead(t.procs)
  {
    var steps :| Leads(steps, s);
    RunKeepsInv(INITIAL, steps);
    t := Go(s, Closes);
    t := Go(t, Enter(Stop, now));
    if t.mu.Killing? {
      if !LastIsDead(t.procs) {
        t := Go(t, Exits(|t.procs| - 1));
      }
      t := Go(t, Join);
    }
    t := Go(t, Proceed(true));
  }
}
