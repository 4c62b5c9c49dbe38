/** Who is responsible for an open source handle of a group call, and the one step that loses it. */
module GroupCallHandles {
  import opened Options
  import opened GroupCallProtocol
  import opened GroupCallInvariant
  import opened GroupCallSteps
  import opened GroupCallTheorems

  /** Where the lock's holder is about to overwrite the handle, there is none. */
  predicate FilesInv(s: State) {
    && (forall h | h in s.files.open :: h < s.files.next)
    && (s.mu.Held? && (s.mu.at.AtInstall? || s.mu.at.AtClear? || (s.mu.at.AtOpen? && s.mu.job.SeekJob?)) ==>
          s.f.streams.None?)
  }

  lemma CallKeepsFiles(s: State, op: nat, c: CallStep)
    requires FilesInv(s) && CanCall(s, op, c)
    ensures FilesInv(DoCall(s, op, c))
  {
  }

  lemma LockKeepsFiles(s: State, op: nat, l: LockStep)
    requires FilesInv(s) && CanLock(s, op, l)
    ensures FilesInv(DoLock(s, op, l))
  {
  }

  lemma HeldKeepsFiles(s: State, h: HeldStep)
    requires FilesInv(s) && CanHeld(s, h)
    ensures FilesInv(DoHeld(s, h))
  {
  }

  lemma RestKeepsFiles(s: State, step: Step)
    requires FilesInv(s) && Enabled(s, step) && (step.End? || step.Disp?)
    ensures FilesInv(Apply(s, step))
  {
  }

  lemma {:induction false} RunKeepsFiles(s: State, run: seq<Step>)
    requires FilesInv(s) && IsRun(s, run)
    ensures FilesInv(After(s, run))
    decreases |run|
  {
    if run != [] {
      match run[0] {
        case Call(op, c) => CallKeepsFiles(s, op, c);
        case Lock(op, l) => LockKeepsFiles(s, op, l);
        case Inside(h) => HeldKeepsFiles(s, h);
        case End(_, _) => RestKeepsFiles(s, run[0]);
        case Disp(_) => RestKeepsFiles(s, run[0]);
      }
      RunKeepsFiles(Apply(s, run[0]), run[1..]);
    }
  }

  /** A SetSource call that has not installed its source yet carries the handle. */
  predicate Carries(s: State, op: nat, h: nat) {
    && op in s.ops
    && ((s.ops[op].SourceWaiting? && s.ops[op].p.handle == h)
        || (s.mu.Held? && s.mu.op == Some(op) && s.mu.job.InstallJob? && BeforeInstall(s.mu.at)
            && s.mu.job.p.handle == h))
  }

  ghost predicate Owned(s: State, h: nat) {
    s.f.streams == Some(h) || exists op :: Carries(s, op, h)
  }

  /** The step leaves the handle open with nobody to close it. */
  ghost predicate Loses(s: State, step: Step, h: nat)
    requires Enabled(s, step)
  {
    Owned(s, h) && h in Apply(s, step).files.open && !Owned(Apply(s, step), h)
  }

  lemma CarrierKeepsCall(s: State, caller: nat, c: CallStep, op: nat, h: nat)
    requires CallsInv(s) && CanCall(s, caller, c) && Carries(s, op, h) && h in DoCall(s, caller, c).files.open
    ensures Carries(DoCall(s, caller, c), op, h)
  {
  }

  lemma CarrierKeepsLock(s: State, caller: nat, l: LockStep, op: nat, h: nat)
    requires CallsInv(s) && CanLock(s, caller, l) && Carries(s, op, h)
    ensures Carries(DoLock(s, caller, l), op, h)
  {
  }

  lemma CarrierKeepsHeld(s: State, step: HeldStep, op: nat, h: nat)
    requires CallsInv(s) && CanHeld(s, step) && Carries(s, op, h) && h in DoHeld(s, step).files.open
    ensures Carries(DoHeld(s, step), op, h) || DoHeld(s, step).f.streams == Some(h)
  {
  }

  lemma CarrierKeeps(s: State, step: Step, op: nat, h: nat)
    requires CallsInv(s) && Enabled(s, step) && Carries(s, op, h) && h in Apply(s, step).files.open
    ensures Owned(Apply(s, step), h)
  {
    match step
    case Call(caller, c) => CarrierKeepsCall(s, caller, c, op, h);
    case Lock(caller, l) => CarrierKeepsLock(s, caller, l, op, h);
    case Inside(held) => CarrierKeepsHeld(s, held, op, h);
    case End(_, _) => assert Carries(Apply(s, step), op, h);
    case Disp(_) => assert Carries(Apply(s, step), op, h);
  }

  lemma HolderKeepsStop(s: State, step: HeldStep, h: nat)
    requires CanHeld(s, step) && Stopping(step) && s.f.streams == Some(h)
    requires h in DoHeld(s, step).files.open
    ensures DoHeld(s, step).f.streams == Some(h)
  {
  }

  lemma HolderKeepsLeave(s: State, step: HeldStep, h: nat)
    requires CanHeld(s, step) && Leaving(step) && s.f.streams == Some(h)
    requires h in DoHeld(s, step).files.open && FilesInv(s)
    ensures DoHeld(s, step).f.streams == Some(h)
  {
  }

  lemma HolderKeepsStart(s: State, step: HeldStep, h: nat)
    requires CanHeld(s, step) && Starting(step) && s.f.streams == Some(h)
    requires h in DoHeld(s, step).files.open && FilesInv(s)
    ensures DoHeld(s, step).f.streams == Some(h)
  {
  }

  lemma HolderKeepsReopen(s: State, step: HeldStep)
    requires CanHeld(s, step) && (step.ReopenFail? || step.MakeAudio? || step.MakeVideo?)
    ensures DoHeld(s, step).f.streams == s.f.streams
  {
  }

  lemma HolderKeepsArm(s: State, h: nat)
    requires CanHeld(s, ArmCycle) && s.f.streams == Some(h) && h in DoHeld(s, ArmCycle).files.open
    ensures DoHeld(s, ArmCycle).f.streams == Some(h)
  {
  }

  lemma HolderKeepsCalls(s: State, op: nat, c: CallStep)
    requires CanCall(s, op, c)
    ensures DoCall(s, op, c).f.streams == s.f.streams
  {
  }

  lemma HolderKeepsLocks(s: State, op: nat, l: LockStep)
    requires CanLock(s, op, l)
    ensures DoLock(s, op, l).f.streams == s.f.streams
  {
    match l
    case DoResume => HolderKeepsResume(s, op);
    case _ =>
  }

  lemma HolderKeepsResume(s: State, op: nat)
    requires CanLock(s, op, DoResume)
    ensures DoLock(s, op, DoResume).f.streams == s.f.streams
  {
  }

  lemma HolderKeepsRest(s: State, step: Step)
    requires Enabled(s, step) && (step.End? || step.Disp?)
    ensures Apply(s, step).f.streams == s.f.streams
  {
  }

  lemma HolderKeeps(s: State, step: Step, h: nat)
    requires CallsInv(s) && FilesInv(s) && Enabled(s, step) && s.f.streams == Some(h)
    requires h in Apply(s, step).files.open && step != Inside(ReopenOk)
    ensures Apply(s, step).f.streams == Some(h)
  {
    match step
    case Call(op, c) => HolderKeepsCalls(s, op, c);
    case Lock(op, l) => HolderKeepsLocks(s, op, l);
    case Inside(held) =>
      if Stopping(held) {
        HolderKeepsStop(s, held, h);
      } else if Leaving(held) {
        HolderKeepsLeave(s, held, h);
      } else if held.ArmCycle? {
        HolderKeepsArm(s, h);
      } else if Reopening(held) {
        HolderKeepsReopen(s, held);
      } else {
        HolderKeepsStart(s, held, h);
      }
    case End(_, _) => HolderKeepsRest(s, step);
    case Disp(_) => HolderKeepsRest(s, step);
  }

  /** An owned handle is lost by one step only: Resume reopening the source of a call that still has
      the handle of a source whose streamers ended on their own. */
  lemma HandleLostExactly(run: seq<Step>, step: Step, h: nat)
    requires IsRun(INITIAL, run) && Enabled(After(INITIAL, run), step)
    requires var s := After(INITIAL, run); h in s.files.open && (forall op :: !Carries(s, op, h))
    ensures var s := After(INITIAL, run);
            Loses(s, step, h) <==> step == Inside(ReopenOk) && s.mu.job.ResumeJob? && s.f.streams == Some(h)
  {
    Reached(run);
    RunKeepsFiles(INITIAL, run);
    LosesExactly(After(INITIAL, run), step, h);
  }

  lemma LosesExactly(s: State, step: Step, h: nat)
    requires CallsInv(s) && FilesInv(s) && Enabled(s, step)
    requires h in s.files.open && (forall op :: !Carries(s, op, h))
    ensures Loses(s, step, h) <==> step == Inside(ReopenOk) && s.mu.job.ResumeJob? && s.f.streams == Some(h)
  {
    if step == Inside(ReopenOk) {
      assert forall op :: Carries(Apply(s, step), op, h) ==> Carries(s, op, h);
    } else if s.f.streams == Some(h) && h in Apply(s, step).files.open {
      HolderKeeps(s, step, h);
    }
  }

  /** A handle carried by a SetSource call is never lost. */
  lemma CarriedHandleIsKept(run: seq<Step>, step: Step, op: nat, h: nat)
    requires IsRun(INITIAL, run) && Enabled(After(INITIAL, run), step) && Carries(After(INITIAL, run), op, h)
    ensures !Loses(After(INITIAL, run), step, h)
  {
    Reached(run);
    var s := After(INITIAL, run);
    if h in Apply(s, step).files.open {
      CarrierKeeps(s, step, op, h);
    }
  }
}
