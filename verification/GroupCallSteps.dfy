/** Every step of the group-call protocol keeps the invariant, part by part. Each part needs only
    the parts named in its lemmas' preconditions. */
module GroupCallSteps {
  import opened GroupCallProtocol
  import opened GroupCallInvariant

  /** The steps of the lock's holder, by what they are for. */
  predicate Stopping(h: HeldStep) {
    h.CheckClosed? || h.SetSwitching? || h.StopAudio? || h.StopVideo? || h.CloseStreams?
  }

  predicate Starting(h: HeldStep) { h.InstallFields? || h.StartAudio? || h.StartVideo? }

  predicate Reopening(h: HeldStep) { h.ReopenFail? || h.ReopenOk? || h.MakeAudio? || h.MakeVideo? || h.ArmCycle? }

  predicate Leaving(h: HeldStep) { h.ClearCall? || h.Leave? }

  // ---------------------------------------------------------------- the calls in flight

  lemma CallKeepsCalls(s: State, op: nat, c: CallStep)
    requires CallsInv(s) && CanCall(s, op, c)
    ensures CallsInv(DoCall(s, op, c))
  {
  }

  lemma ToggleKeepsCalls(s: State, op: nat, l: LockStep)
    requires CallsInv(s) && CanLock(s, op, l)
    requires l.DoPause? || l.DoMute? || l.DoResume?
    ensures CallsInv(DoLock(s, op, l))
  {
  }

  lemma AcquireKeepsCalls(s: State, op: nat, l: LockStep)
    requires CallsInv(s) && CanLock(s, op, l)
    requires l.LockInstall? || l.LockSeek? || l.LockStop?
    ensures CallsInv(DoLock(s, op, l))
  {
  }

  lemma LockKeepsCalls(s: State, op: nat, l: LockStep)
    requires CallsInv(s) && CanLock(s, op, l)
    ensures CallsInv(DoLock(s, op, l))
  {
    if l.DoPause? || l.DoMute? || l.DoResume? {
      ToggleKeepsCalls(s, op, l);
    } else {
      AcquireKeepsCalls(s, op, l);
    }
  }

  lemma StopKeepsCalls(s: State, h: HeldStep)
    requires CallsInv(s) && CanHeld(s, h)
    requires Stopping(h)
    ensures CallsInv(DoHeld(s, h))
  {
  }

  lemma InstallKeepsCalls(s: State, h: HeldStep)
    requires CallsInv(s) && CanHeld(s, h)
    requires h.InstallFields?
    ensures CallsInv(DoHeld(s, h))
  {
  }

  lemma StartAudioKeepsCalls(s: State, h: HeldStep)
    requires SlotsInv(s) && CallsInv(s) && CanHeld(s, h)
    requires h.StartAudio?
    ensures CallsInv(DoHeld(s, h))
  {
  }

  lemma StartVideoKeepsCalls(s: State, h: HeldStep)
    requires SlotsInv(s) && CallsInv(s) && CanHeld(s, h)
    requires h.StartVideo?
    ensures CallsInv(DoHeld(s, h))
  {
  }

  lemma ReopenKeepsCalls(s: State, h: HeldStep)
    requires CallsInv(s) && CanHeld(s, h)
    requires h.ReopenFail? || h.ReopenOk?
    ensures CallsInv(DoHeld(s, h))
  {
  }

  lemma MakeKeepsCalls(s: State, h: HeldStep)
    requires CallsInv(s) && CanHeld(s, h)
    requires h.MakeAudio? || h.MakeVideo?
    ensures CallsInv(DoHeld(s, h))
  {
  }

  lemma ArmKeepsCalls(s: State, h: HeldStep)
    requires CallsInv(s) && CanHeld(s, h)
    requires h.ArmCycle?
    ensures CallsInv(DoHeld(s, h))
  {
  }

  lemma LeaveKeepsCalls(s: State, h: HeldStep)
    requires CallsInv(s) && CanHeld(s, h)
    requires Leaving(h)
    ensures CallsInv(DoHeld(s, h))
  {
  }

  lemma HeldKeepsCalls(s: State, h: HeldStep)
    requires SlotsInv(s) && CallsInv(s) && CanHeld(s, h)
    ensures CallsInv(DoHeld(s, h))
  {
    if Stopping(h) {
      StopKeepsCalls(s, h);
    } else if h.InstallFields? {
      InstallKeepsCalls(s, h);
    } else if h.StartAudio? {
      StartAudioKeepsCalls(s, h);
    } else if h.StartVideo? {
      StartVideoKeepsCalls(s, h);
    } else if h.ReopenFail? || h.ReopenOk? {
      ReopenKeepsCalls(s, h);
    } else if h.MakeAudio? || h.MakeVideo? {
      MakeKeepsCalls(s, h);
    } else if h.ArmCycle? {
      ArmKeepsCalls(s, h);
    } else {
      LeaveKeepsCalls(s, h);
    }
  }

  lemma EndKeepsCalls(s: State, id: nat, e: EndStep)
    requires CallsInv(s) && CanEnd(s, id, e)
    ensures CallsInv(DoEnd(s, id, e))
  {
  }

  lemma DispKeepsCalls(s: State, d: DispStep)
    requires CallsInv(s) && CanDisp(s, d)
    ensures CallsInv(DoDisp(s, d))
  {
  }

  // ---------------------------------------------------------------- the installed streamers

  lemma CallKeepsSlots(s: State, op: nat, c: CallStep)
    requires SlotsInv(s) && CanCall(s, op, c)
    ensures SlotsInv(DoCall(s, op, c))
  {
  }

  lemma ToggleKeepsSlots(s: State, op: nat, l: LockStep)
    requires SlotsInv(s) && CanLock(s, op, l) && (l.DoPause? || l.DoMute?)
    ensures SlotsInv(DoLock(s, op, l))
  {
  }

  lemma ResumeKeepsSlots(s: State, op: nat, l: LockStep)
    requires SlotsInv(s) && CanLock(s, op, l) && l.DoResume?
    ensures SlotsInv(DoLock(s, op, l))
  {
  }

  lemma LockKeepsSlots(s: State, op: nat, l: LockStep)
    requires SlotsInv(s) && CanLock(s, op, l)
    ensures SlotsInv(DoLock(s, op, l))
  {
    if l.DoPause? || l.DoMute? {
      ToggleKeepsSlots(s, op, l);
    } else if l.DoResume? {
      ResumeKeepsSlots(s, op, l);
    }
  }

  lemma StopKeepsSlots(s: State, h: HeldStep)
    requires SlotsInv(s) && CanHeld(s, h)
    requires Stopping(h)
    ensures SlotsInv(DoHeld(s, h))
  {
  }

  lemma InstallKeepsSlots(s: State, h: HeldStep)
    requires CallsInv(s) && SlotsInv(s) && CanHeld(s, h)
    requires h.InstallFields?
    ensures SlotsInv(DoHeld(s, h))
  {
  }

  lemma StartAudioKeepsSlots(s: State, h: HeldStep)
    requires CallsInv(s) && SlotsInv(s) && CanHeld(s, h)
    requires h.StartAudio?
    ensures SlotsInv(DoHeld(s, h))
  {
  }

  lemma StartVideoKeepsSlots(s: State, h: HeldStep)
    requires CallsInv(s) && SlotsInv(s) && CanHeld(s, h)
    requires h.StartVideo?
    ensures SlotsInv(DoHeld(s, h))
  {
  }

  lemma ReopenKeepsSlots(s: State, h: HeldStep)
    requires SlotsInv(s) && CanHeld(s, h)
    requires h.ReopenFail? || h.ReopenOk?
    ensures SlotsInv(DoHeld(s, h))
  {
  }

  lemma MakeAudioKeepsSlots(s: State, h: HeldStep)
    requires SlotsInv(s) && CanHeld(s, h)
    requires h.MakeAudio?
    ensures SlotsInv(DoHeld(s, h))
  {
  }

  lemma MakeVideoKeepsSlots(s: State, h: HeldStep)
    requires SlotsInv(s) && CanHeld(s, h)
    requires h.MakeVideo?
    ensures SlotsInv(DoHeld(s, h))
  {
  }

  lemma ArmKeepsSlots(s: State, h: HeldStep)
    requires SlotsInv(s) && CanHeld(s, h)
    requires h.ArmCycle?
    ensures SlotsInv(DoHeld(s, h))
  {
    if s.f.audio.None? && s.f.video.None? {
    } else {
    }
  }

  lemma ClearKeepsSlots(s: State, h: HeldStep)
    requires SlotsInv(s) && CanHeld(s, h)
    requires h.ClearCall?
    ensures SlotsInv(DoHeld(s, h))
  {
  }

  lemma LeaveKeepsSlots(s: State, h: HeldStep)
    requires SlotsInv(s) && CanHeld(s, h)
    requires h.Leave?
    ensures SlotsInv(DoHeld(s, h))
  {
  }

  lemma HeldKeepsSlots(s: State, h: HeldStep)
    requires CallsInv(s) && SlotsInv(s) && CanHeld(s, h)
    ensures SlotsInv(DoHeld(s, h))
  {
    if Stopping(h) {
      StopKeepsSlots(s, h);
    } else if h.InstallFields? {
      InstallKeepsSlots(s, h);
    } else if h.StartAudio? {
      StartAudioKeepsSlots(s, h);
    } else if h.StartVideo? {
      StartVideoKeepsSlots(s, h);
    } else if h.ReopenFail? || h.ReopenOk? {
      ReopenKeepsSlots(s, h);
    } else if h.MakeAudio? {
      MakeAudioKeepsSlots(s, h);
    } else if h.MakeVideo? {
      MakeVideoKeepsSlots(s, h);
    } else if h.ArmCycle? {
      ArmKeepsSlots(s, h);
    } else if h.ClearCall? {
      ClearKeepsSlots(s, h);
    } else {
      LeaveKeepsSlots(s, h);
    }
  }

  lemma EndKeepsSlots(s: State, id: nat, e: EndStep)
    requires SlotsInv(s) && CanEnd(s, id, e)
    ensures SlotsInv(DoEnd(s, id, e))
  {
  }

  lemma DispKeepsSlots(s: State, d: DispStep)
    requires SlotsInv(s) && CanDisp(s, d)
    ensures SlotsInv(DoDisp(s, d))
  {
  }

  // ---------------------------------------------------------------- streamers, closures and the dispatcher

  lemma CallKeepsStreamers(s: State, op: nat, c: CallStep)
    requires StreamersInv(s) && CanCall(s, op, c)
    ensures StreamersInv(DoCall(s, op, c))
  {
  }

  lemma LockKeepsStreamers(s: State, op: nat, l: LockStep)
    requires StreamersInv(s) && CanLock(s, op, l)
    ensures StreamersInv(DoLock(s, op, l))
  {
  }

  lemma StopKeepsStreamers(s: State, h: HeldStep)
    requires StreamersInv(s) && CanHeld(s, h)
    requires Stopping(h)
    ensures StreamersInv(DoHeld(s, h))
  {
  }

  lemma InstallKeepsStreamers(s: State, h: HeldStep)
    requires CallsInv(s) && SlotsInv(s) && StreamersInv(s) && CanHeld(s, h)
    requires h.InstallFields?
    ensures StreamersInv(DoHeld(s, h))
  {
  }

  lemma StartAudioKeepsStreamers(s: State, h: HeldStep)
    requires SlotsInv(s) && OrderInv(s) && StreamersInv(s) && CanHeld(s, h)
    requires h.StartAudio?
    ensures StreamersInv(DoHeld(s, h))
  {
  }

  lemma StartVideoKeepsStreamers(s: State, h: HeldStep)
    requires SlotsInv(s) && OrderInv(s) && StreamersInv(s) && CanHeld(s, h)
    requires h.StartVideo?
    ensures StreamersInv(DoHeld(s, h))
  {
  }

  lemma ReopenKeepsStreamers(s: State, h: HeldStep)
    requires StreamersInv(s) && CanHeld(s, h)
    requires h.ReopenFail? || h.ReopenOk?
    ensures StreamersInv(DoHeld(s, h))
  {
  }

  lemma MakeAudioKeepsStreamers(s: State, h: HeldStep)
    requires SlotsInv(s) && StreamersInv(s) && CanHeld(s, h)
    requires h.MakeAudio?
    ensures StreamersInv(DoHeld(s, h))
  {
  }

  lemma MakeVideoKeepsStreamers(s: State, h: HeldStep)
    requires SlotsInv(s) && StreamersInv(s) && CanHeld(s, h)
    requires h.MakeVideo?
    ensures StreamersInv(DoHeld(s, h))
  {
  }

  lemma ArmKeepsStreamers(s: State, h: HeldStep)
    requires SlotsInv(s) && StreamersInv(s) && CanHeld(s, h)
    requires h.ArmCycle?
    ensures StreamersInv(DoHeld(s, h))
  {
  }

  lemma LeaveKeepsStreamers(s: State, h: HeldStep)
    requires CallsInv(s) && SlotsInv(s) && StreamersInv(s) && CanHeld(s, h)
    requires Leaving(h)
    ensures StreamersInv(DoHeld(s, h))
  {
  }

  lemma HeldKeepsStreamers(s: State, h: HeldStep)
    requires CallsInv(s) && SlotsInv(s) && OrderInv(s) && StreamersInv(s) && CanHeld(s, h)
    ensures StreamersInv(DoHeld(s, h))
  {
    if Stopping(h) {
      StopKeepsStreamers(s, h);
    } else if h.InstallFields? {
      InstallKeepsStreamers(s, h);
    } else if h.StartAudio? {
      StartAudioKeepsStreamers(s, h);
    } else if h.StartVideo? {
      StartVideoKeepsStreamers(s, h);
    } else if h.ReopenFail? || h.ReopenOk? {
      ReopenKeepsStreamers(s, h);
    } else if h.MakeAudio? {
      MakeAudioKeepsStreamers(s, h);
    } else if h.MakeVideo? {
      MakeVideoKeepsStreamers(s, h);
    } else if h.ArmCycle? {
      ArmKeepsStreamers(s, h);
    } else {
      LeaveKeepsStreamers(s, h);
    }
  }

  lemma EndKeepsStreamers(s: State, id: nat, e: EndStep)
    requires StreamersInv(s) && CanEnd(s, id, e)
    ensures StreamersInv(DoEnd(s, id, e))
  {
  }

  lemma EndingKeepsStreamers(s: State, d: DispStep)
    requires SlotsInv(s) && StreamersInv(s) && CanDisp(s, d)
    requires d.DispEnd? || d.DispStopSibling?
    ensures StreamersInv(DoDisp(s, d))
  {
  }

  lemma DispKeepsStreamers(s: State, d: DispStep)
    requires SlotsInv(s) && StreamersInv(s) && CanDisp(s, d)
    ensures StreamersInv(DoDisp(s, d))
  {
    if d.DispEnd? || d.DispStopSibling? {
      EndingKeepsStreamers(s, d);
    }
  }

  // ---------------------------------------------------------------- the order of the reported cycles

  lemma CallKeepsOrder(s: State, op: nat, c: CallStep)
    requires OrderInv(s) && CanCall(s, op, c)
    ensures OrderInv(DoCall(s, op, c))
  {
  }

  lemma LockKeepsOrder(s: State, op: nat, l: LockStep)
    requires OrderInv(s) && CanLock(s, op, l)
    ensures OrderInv(DoLock(s, op, l))
  {
  }

  lemma StopKeepsOrder(s: State, h: HeldStep)
    requires OrderInv(s) && CanHeld(s, h)
    requires Stopping(h)
    ensures OrderInv(DoHeld(s, h))
  {
  }

  lemma StartKeepsOrder(s: State, h: HeldStep)
    requires OrderInv(s) && CanHeld(s, h)
    requires Starting(h)
    ensures OrderInv(DoHeld(s, h))
  {
  }

  lemma ReopenKeepsOrder(s: State, h: HeldStep)
    requires OrderInv(s) && CanHeld(s, h)
    requires Reopening(h) && !h.ArmCycle?
    ensures OrderInv(DoHeld(s, h))
  {
  }

  lemma ArmKeepsOrder(s: State, h: HeldStep)
    requires OrderInv(s) && CanHeld(s, h)
    requires h.ArmCycle?
    ensures OrderInv(DoHeld(s, h))
  {
  }

  lemma LeaveKeepsOrder(s: State, h: HeldStep)
    requires OrderInv(s) && CanHeld(s, h)
    requires Leaving(h)
    ensures OrderInv(DoHeld(s, h))
  {
  }

  lemma HeldKeepsOrder(s: State, h: HeldStep)
    requires OrderInv(s) && CanHeld(s, h)
    ensures OrderInv(DoHeld(s, h))
  {
    if Stopping(h) {
      StopKeepsOrder(s, h);
    } else if Starting(h) {
      StartKeepsOrder(s, h);
    } else if Reopening(h) && !h.ArmCycle? {
      ReopenKeepsOrder(s, h);
    } else if h.ArmCycle? {
      ArmKeepsOrder(s, h);
    } else {
      LeaveKeepsOrder(s, h);
    }
  }

  lemma EndKeepsOrder(s: State, id: nat, e: EndStep)
    requires OrderInv(s) && CanEnd(s, id, e)
    ensures OrderInv(DoEnd(s, id, e))
  {
  }

  lemma DispKeepsOrder(s: State, d: DispStep)
    requires StreamersInv(s) && OrderInv(s) && CanDisp(s, d)
    ensures OrderInv(DoDisp(s, d))
  {
  }

  // ---------------------------------------------------------------- the callbacks are the reports

  lemma CallKeepsFlat(s: State, op: nat, c: CallStep)
    requires FlatInv(s) && CanCall(s, op, c)
    ensures FlatInv(DoCall(s, op, c))
  {
  }

  lemma LockKeepsFlat(s: State, op: nat, l: LockStep)
    requires FlatInv(s) && CanLock(s, op, l)
    ensures FlatInv(DoLock(s, op, l))
  {
  }

  lemma {:induction false} FlattenGrows(cycles: seq<Tracks>, blocks: seq<nat>, t: Tracks)
    requires Increasing(blocks, |cycles|)
    ensures Flatten(cycles + [t], blocks) == Flatten(cycles, blocks)
  {
    if blocks != [] {
      FlattenGrows(cycles, blocks[..|blocks| - 1], t);
    }
  }

  lemma HeldKeepsFlat(s: State, h: HeldStep)
    requires CallsInv(s) && OrderInv(s) && FlatInv(s) && CanHeld(s, h)
    ensures FlatInv(DoHeld(s, h))
  {
    var r, r' := s.reports, DoHeld(s, h).reports;
    if r' != r {
      FlattenGrows(r.cycles, r.blocks, r'.cycles[|r.cycles|]);
    }
  }

  lemma EndKeepsFlat(s: State, id: nat, e: EndStep)
    requires FlatInv(s) && CanEnd(s, id, e)
    ensures FlatInv(DoEnd(s, id, e))
  {
  }

  lemma DispEndKeepsFlat(s: State, d: DispStep)
    requires StreamersInv(s) && OrderInv(s) && FlatInv(s) && CanDisp(s, d) && d.DispEnd?
    ensures FlatInv(DoDisp(s, d))
  {
  }

  lemma DispFireKeepsFlat(s: State, d: DispStep)
    requires FlatInv(s) && CanDisp(s, d) && d.DispFire?
    ensures FlatInv(DoDisp(s, d))
  {
  }

  lemma DispKeepsFlat(s: State, d: DispStep)
    requires StreamersInv(s) && OrderInv(s) && FlatInv(s) && CanDisp(s, d)
    ensures FlatInv(DoDisp(s, d))
  {
    if d.DispEnd? {
      DispEndKeepsFlat(s, d);
    } else if d.DispFire? {
      DispFireKeepsFlat(s, d);
    }
  }

  // ---------------------------------------------------------------- the mirrored state, and Stop

  lemma CallKeepsMirror(s: State, op: nat, c: CallStep)
    requires MirrorInv(s) && CanCall(s, op, c)
    ensures MirrorInv(DoCall(s, op, c))
  {
  }

  lemma LockKeepsMirror(s: State, op: nat, l: LockStep)
    requires CallsInv(s) && MirrorInv(s) && CanLock(s, op, l)
    ensures MirrorInv(DoLock(s, op, l))
  {
  }

  lemma StopKeepsMirror(s: State, h: HeldStep)
    requires MirrorInv(s) && CanHeld(s, h)
    requires Stopping(h)
    ensures MirrorInv(DoHeld(s, h))
  {
  }

  lemma StartKeepsMirror(s: State, h: HeldStep)
    requires MirrorInv(s) && CanHeld(s, h)
    requires Starting(h)
    ensures MirrorInv(DoHeld(s, h))
  {
  }

  lemma ReopenKeepsMirror(s: State, h: HeldStep)
    requires CallsInv(s) && MirrorInv(s) && CanHeld(s, h)
    requires Reopening(h) && !h.ArmCycle?
    ensures MirrorInv(DoHeld(s, h))
  {
  }

  lemma ArmKeepsMirror(s: State, h: HeldStep)
    requires CallsInv(s) && MirrorInv(s) && CanHeld(s, h)
    requires h.ArmCycle?
    ensures MirrorInv(DoHeld(s, h))
  {
  }

  lemma LeaveKeepsMirror(s: State, h: HeldStep)
    requires CallsInv(s) && SlotsInv(s) && MirrorInv(s) && CanHeld(s, h)
    requires Leaving(h)
    ensures MirrorInv(DoHeld(s, h))
  {
  }

  lemma HeldKeepsMirror(s: State, h: HeldStep)
    requires CallsInv(s) && SlotsInv(s) && MirrorInv(s) && CanHeld(s, h)
    ensures MirrorInv(DoHeld(s, h))
  {
    if Stopping(h) {
      StopKeepsMirror(s, h);
    } else if Starting(h) {
      StartKeepsMirror(s, h);
    } else if Reopening(h) && !h.ArmCycle? {
      ReopenKeepsMirror(s, h);
    } else if h.ArmCycle? {
      ArmKeepsMirror(s, h);
    } else {
      LeaveKeepsMirror(s, h);
    }
  }

  lemma EndKeepsMirror(s: State, id: nat, e: EndStep)
    requires MirrorInv(s) && CanEnd(s, id, e)
    ensures MirrorInv(DoEnd(s, id, e))
  {
  }

  lemma DispKeepsMirror(s: State, d: DispStep)
    requires MirrorInv(s) && CanDisp(s, d)
    ensures MirrorInv(DoDisp(s, d))
  {
  }

  // ---------------------------------------------------------------- all parts together

  lemma CallKeepsInv(s: State, op: nat, c: CallStep)
    requires Inv(s) && CanCall(s, op, c)
    ensures Inv(DoCall(s, op, c))
  {
    CallKeepsCalls(s, op, c);
    CallKeepsSlots(s, op, c);
    CallKeepsStreamers(s, op, c);
    CallKeepsOrder(s, op, c);
    CallKeepsFlat(s, op, c);
    CallKeepsMirror(s, op, c);
  }

  lemma LockKeepsInv(s: State, op: nat, l: LockStep)
    requires Inv(s) && CanLock(s, op, l)
    ensures Inv(DoLock(s, op, l))
  {
    LockKeepsCalls(s, op, l);
    LockKeepsSlots(s, op, l);
    LockKeepsStreamers(s, op, l);
    LockKeepsOrder(s, op, l);
    LockKeepsFlat(s, op, l);
    LockKeepsMirror(s, op, l);
  }

  lemma HeldKeepsInv(s: State, h: HeldStep)
    requires Inv(s) && CanHeld(s, h)
    ensures Inv(DoHeld(s, h))
  {
    HeldKeepsCalls(s, h);
    HeldKeepsSlots(s, h);
    HeldKeepsStreamers(s, h);
    HeldKeepsOrder(s, h);
    HeldKeepsFlat(s, h);
    HeldKeepsMirror(s, h);
  }

  lemma EndKeepsInv(s: State, id: nat, e: EndStep)
    requires Inv(s) && CanEnd(s, id, e)
    ensures Inv(DoEnd(s, id, e))
  {
    EndKeepsCalls(s, id, e);
    EndKeepsSlots(s, id, e);
    EndKeepsStreamers(s, id, e);
    EndKeepsOrder(s, id, e);
    EndKeepsFlat(s, id, e);
    EndKeepsMirror(s, id, e);
  }

  lemma DispKeepsInv(s: State, d: DispStep)
    requires Inv(s) && CanDisp(s, d)
    ensures Inv(DoDisp(s, d))
  {
    DispKeepsCalls(s, d);
    DispKeepsSlots(s, d);
    DispKeepsStreamers(s, d);
    DispKeepsOrder(s, d);
    DispKeepsFlat(s, d);
    DispKeepsMirror(s, d);
  }

  lemma StepKeepsInv(s: State, step: Step)
    requires Inv(s) && Enabled(s, step)
    ensures Inv(Apply(s, step))
  {
    match step
    case Call(op, c) => CallKeepsInv(s, op, c);
    case Lock(op, l) => LockKeepsInv(s, op, l);
    case Inside(h) => HeldKeepsInv(s, h);
    case End(id, e) => EndKeepsInv(s, id, e);
    case Disp(d) => DispKeepsInv(s, d);
  }

  lemma InitialInv()
    ensures Inv(INITIAL)
  {
  }

  /** Every state that any run reaches satisfies the invariant. */
  lemma {:induction false} RunKeepsInv(s: State, run: seq<Step>)
    requires Inv(s) && IsRun(s, run)
    ensures Inv(After(s, run))
    decreases |run|
  {
    if run != [] {
      StepKeepsInv(s, run[0]);
      RunKeepsInv(Apply(s, run[0]), run[1..]);
    }
  }
}
