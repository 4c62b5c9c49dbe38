/** The pause gate of a streamer (media/streamer.go): a flag, a one-slot wake channel, any number of
    goroutines calling SetPaused, and the loop goroutine inside gate(). */
module StreamerGate {

  /** Where the loop goroutine is in gate(). */
  datatype Loop = Outside | Loaded | Testing | Blocked | Returned(ok: bool)

  /** `senders` counts the SetPaused(false) calls between their compare-and-swap and their send. */
  datatype State = State(paused: bool, token: bool, senders: nat, cancelled: bool, loop: Loop)

  const INITIAL := State(false, false, 0, false, Outside)

  datatype Step =
    | Pause
    | Resume
    | Send
    | Cancel
    | Enter
    | Drain
    | Test
    | WakeByToken
    | WakeByCancel

  predicate Enabled(s: State, step: Step) {
    match step
    case Pause => true
    case Resume => true
    case Send => s.senders > 0
    case Cancel => true
    case Enter => s.loop.Outside? || s.loop.Returned?
    case Drain => s.loop.Loaded?
    case Test => s.loop.Testing?
    case WakeByToken => s.loop.Blocked? && s.token
    case WakeByCancel => s.loop.Blocked? && s.cancelled
  }

  function Apply(s: State, step: Step): State
    requires Enabled(s, step)
  {
    match step
    case Pause => s.(paused := true)
    case Resume => if s.paused then s.(paused := false, senders := s.senders + 1) else s
    case Send => s.(senders := s.senders - 1, token := true)
    case Cancel => s.(cancelled := true)
    case Enter => s.(loop := if s.paused then Loaded else Returned(!s.cancelled))
    case Drain => s.(token := false, loop := Testing)
    case Test => s.(loop := if s.paused then Blocked else Returned(!s.cancelled))
    case WakeByToken => s.(token := false, loop := Testing)
    case WakeByCancel => s.(loop := Returned(false))
  }

  predicate IsRun(s: State, run: seq<Step>)
    decreases |run|
  {
    run == [] || (Enabled(s, run[0]) && IsRun(Apply(s, run[0]), run[1..]))
  }

  function After(s: State, run: seq<Step>): State
    requires IsRun(s, run)
    decreases |run|
  {
    if run == [] then s else After(Apply(s, run[0]), run[1..])
  }

  // ---------------------------------------------------------------- no lost wake-up

  /** A loop that waits although the flag is clear will be woken. */
  predicate WillWake(s: State) {
    s.loop.Blocked? && !s.paused ==> s.token || s.senders > 0
  }

  lemma {:induction false} WillWakeKept(s: State, run: seq<Step>)
    requires WillWake(s) && IsRun(s, run)
    ensures WillWake(After(s, run))
    decreases |run|
  {
    if run != [] {
      WillWakeKept(Apply(s, run[0]), run[1..]);
    }
  }

  /** With any number of togglers, whenever the loop is blocked and the flag is clear, a token is
      queued or some caller is between its compare-and-swap and its send. */
  lemma NoLostWakeUp(run: seq<Step>)
    requires IsRun(INITIAL, run)
    ensures var s := After(INITIAL, run); s.loop.Blocked? && !s.paused ==> s.token || s.senders > 0
  {
    WillWakeKept(INITIAL, run);
  }

  // ---------------------------------------------------------------- gate returns

  predicate InGate(l: Loop) { l.Loaded? || l.Testing? || l.Blocked? }

  /** The steps that resuming depends on: a pending send, or the loop inside gate(). */
  predicate Working(step: Step) {
    step.Send? || step.Drain? || step.Test? || step.WakeByToken? || step.WakeByCancel?
  }

  function Rank(l: Loop): nat {
    match l
    case Loaded => 2
    case Blocked => 2
    case Testing => 1
    case _ => 0
  }

  function Measure(s: State): nat { s.senders + Rank(s.loop) }

  function CountWorking(run: seq<Step>): nat {
    if run == [] then 0 else (if Working(run[0]) then 1 else 0) + CountWorking(run[1..])
  }

  /** No new gate() call and no more pauses. */
  predicate Calm(run: seq<Step>) {
    forall i | 0 <= i < |run| :: !run[i].Pause? && !run[i].Enter?
  }

  lemma {:induction false} CalmBound(s: State, run: seq<Step>)
    requires IsRun(s, run) && Calm(run) && !s.paused
    ensures !After(s, run).paused
    ensures CountWorking(run) + Measure(After(s, run)) <= Measure(s)
    decreases |run|
  {
    if run != [] {
      CalmBound(Apply(s, run[0]), run[1..]);
    }
  }

  /** Once no more pauses arrive, gate() returns: at most `Measure` working steps can be taken, and as
      long as the loop is inside gate() one of them can be taken. Unless the streamer is cancelled it has
      then returned true. */
  lemma GateReturns(run: seq<Step>, rest: seq<Step>)
    requires IsRun(INITIAL, run) && !After(INITIAL, run).paused
    requires IsRun(After(INITIAL, run), rest) && Calm(rest)
    ensures var s := After(INITIAL, run);
            var t := After(s, rest);
            && CountWorking(rest) <= Measure(s)
            && (InGate(t.loop) ==> exists step :: Working(step) && Enabled(t, step))
            && (t.loop.Returned? && !t.cancelled ==> t.loop == Returned(true))
  {
    WillWakeKept(INITIAL, run);
    FalseIsCancelledKept(INITIAL, run);
    var s := After(INITIAL, run);
    FalseIsCancelledKept(s, rest);
    WillWakeKept(s, rest);
    CalmBound(s, rest);
    if InGate(After(s, rest).loop) {
      Progress(After(s, rest));
    }
  }

  lemma Progress(s: State)
    requires WillWake(s) && !s.paused && InGate(s.loop)
    ensures exists step :: Working(step) && Enabled(s, step)
  {
    var step := match s.loop
                case Loaded => Drain
                case Testing => Test
                case _ => if s.token then WakeByToken else Send;
    assert Working(step) && Enabled(s, step);
  }

  // ---------------------------------------------------------------- what gate returns

  /** gate() says false only to a cancelled streamer. */
  predicate FalseIsCancelled(s: State) { s.loop == Returned(false) ==> s.cancelled }

  lemma {:induction false} FalseIsCancelledKept(s: State, run: seq<Step>)
    requires FalseIsCancelled(s) && IsRun(s, run)
    ensures FalseIsCancelled(After(s, run))
    decreases |run|
  {
    if run != [] {
      FalseIsCancelledKept(Apply(s, run[0]), run[1..]);
    }
  }

  predicate ComesBack(s: State, step: Step, ok: bool)
    requires Enabled(s, step)
  {
    InGate(s.loop) && Apply(s, step).loop == Returned(ok)
  }

  /** What gate() returns, in every run: false only if the streamer has been cancelled, and true exactly if
      its last test of the flag found it clear and the streamer not cancelled. A step that leaves gate() with
      false is that test by a cancelled streamer, or the wake-up by the cancel itself. */
  lemma GateSaysExactly(run: seq<Step>, step: Step)
    requires IsRun(INITIAL, run) && Enabled(After(INITIAL, run), step)
    ensures var s := After(INITIAL, run);
            && (s.loop == Returned(false) ==> s.cancelled)
            && (ComesBack(s, step, true) <==> step.Test? && !s.paused && !s.cancelled)
            && (ComesBack(s, step, false) <==> (step.Test? && !s.paused && s.cancelled) || step.WakeByCancel?)
            && (step.Enter? ==> (Apply(s, step).loop == Returned(true) <==> !s.paused && !s.cancelled))
            && (step.Enter? ==> (Apply(s, step).loop == Returned(false) <==> !s.paused && s.cancelled))
  {
    FalseIsCancelledKept(INITIAL, run);
  }

  // ---------------------------------------------------------------- stale tokens

  function CountWakes(run: seq<Step>): nat {
    if run == [] then 0 else (if run[0].WakeByToken? then 1 else 0) + CountWakes(run[1..])
  }

  function CountSends(run: seq<Step>): nat {
    if run == [] then 0 else (if run[0].Send? then 1 else 0) + CountSends(run[1..])
  }

  lemma {:induction false} WakesTakeSends(s: State, run: seq<Step>)
    requires IsRun(s, run)
    ensures CountWakes(run) <= CountSends(run) + if s.token then 1 else 0
    decreases |run|
  {
    if run != [] {
      WakesTakeSends(Apply(s, run[0]), run[1..]);
    }
  }

  /** A token left over from before is drained first: every wake-up in a pass through gate() takes a send of
      its own, made after the drain. */
  lemma StaleTokensWakeNobody(s: State, run: seq<Step>)
    requires Enabled(s, Drain) && IsRun(Apply(s, Drain), run)
    ensures CountWakes(run) <= CountSends(run)
  {
    WakesTakeSends(Apply(s, Drain), run);
  }

  // ---------------------------------------------------------------- a paused gate holds

  predicate Held(s: State) { s.paused && s.loop != Returned(true) }

  /** While the flag stays set gate() lets nothing through, whatever stale tokens are about. */
  lemma {:induction false} PausedGateHolds(s: State, run: seq<Step>)
    requires Held(s) && IsRun(s, run) && forall i | 0 <= i < |run| :: !run[i].Resume?
    ensures Held(After(s, run))
    decreases |run|
  {
    if run != [] {
      PausedGateHolds(Apply(s, run[0]), run[1..]);
    }
  }

  // ---------------------------------------------------------------- the object

  /** The streamer's fields; `at` is the program counter of its goroutine inside gate(). */
  class Gate {
    var pausedGate: bool
    var resume: bool
    var cancelled: bool
    var at: Loop
    ghost var senders: nat

    ghost function View(): State
      reads this
    {
      State(pausedGate, resume, senders, cancelled, at)
    }

    constructor ()
      ensures View() == INITIAL
    {
      pausedGate, resume, cancelled, at, senders := false, false, false, Outside, 0;
    }

    /** The first action of SetPaused; `won` says whether a send is due. */
    method Toggle(p: bool) returns (won: bool)
      modifies this
      ensures View() == Apply(old(View()), if p then Pause else Resume)
      ensures won == (!p && old(pausedGate))
    {
      if p {
        pausedGate := true;
        return false;
      }
      won := pausedGate;
      if won {
        pausedGate := false;
        senders := senders + 1;
      }
    }

    /** The second action of a SetPaused(false) that won: the non-blocking send. */
    method Wake()
      requires senders > 0
      modifies this
      ensures View() == Apply(old(View()), Send)
    {
      if !resume {
        resume := true;
      }
      senders := senders - 1;
    }

    /** SetPaused with nobody in between. */
    method SetPaused(p: bool)
      modifies this
      ensures pausedGate == p && senders == old(senders) && at == old(at) && cancelled == old(cancelled)
      ensures resume == (old(resume) || (!p && old(pausedGate)))
    {
      var won := Toggle(p);
      if won {
        Wake();
      }
    }

    /** The next action of the loop goroutine in gate(); a blocked loop needs a token or a cancel. */
    method Advance(preferToken: bool) returns (step: Step)
      requires at.Blocked? ==> resume || cancelled
      modifies this
      ensures !step.Pause? && !step.Resume? && !step.Send? && !step.Cancel?
      ensures Enabled(old(View()), step) && View() == Apply(old(View()), step)
      ensures pausedGate == old(pausedGate) && cancelled == old(cancelled)
      ensures match old(at)
              case Loaded => at == Testing && !resume
              case Blocked =>
                || (at == Testing && old(resume) && !resume)
                || (at == Returned(false) && cancelled && resume == old(resume))
              case Testing => at == (if pausedGate then Blocked else Returned(!cancelled)) && resume == old(resume)
              case _ => at == (if pausedGate then Loaded else Returned(!cancelled)) && resume == old(resume)
    {
      if at.Outside? || at.Returned? {
        step := Enter;
        at := if pausedGate then Loaded else Returned(!cancelled);
      } else if at.Loaded? {
        step := Drain;
        resume, at := false, Testing;
      } else if at.Testing? {
        step := Test;
        at := if pausedGate then Blocked else Returned(!cancelled);
      } else if resume && (preferToken || !cancelled) {
        step := WakeByToken;
        resume, at := false, Testing;
      } else {
        step := WakeByCancel;
        at := Returned(false);
      }
    }
  }
}
