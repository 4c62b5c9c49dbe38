/** The critical sections of the group-call protocol, run from lock to release without interference of
    other callers, do to the fields what the methods of the call object do. The streamers that a section
    stops may be at any point of their lives; they end while it waits for them. */
module GroupCallSections {
  import opened Options
  import opened GroupCallFields
  import opened GroupCallProtocol
  import opened GroupCallInvariant
  import opened GroupCallTheorems
  import opened GroupCallGaps

  lemma ReachableInv(s: State)
    requires Reachable(s)
    ensures Inv(s)
  {
    var run :| Leads(run, s);
    Reached(run);
  }

  /** What a section submits that found the call as `f` and left it as `f'`. */
  function Submitted(f: Fields, f': Fields): seq<Upgrade> {
    if CurrentState(f') == CurrentState(f) then [] else [Upgrade(CurrentState(f), CurrentState(f'))]
  }

  // ---------------------------------------------------------------- waiting for streamers

  /** Streamers have moved on and may have submitted their ends; nothing else has changed. */
  predicate OnlyEnds(s: State, t: State) {
    && t == s.(streamers := t.streamers, queue := t.queue) && |t.streamers| == |s.streamers|
    && forall i | 0 <= i < |s.streamers| :: s.streamers[i].life.Done? ==> t.streamers[i].life.Done?
  }

  lemma EndStepOf(s: State, id: nat, e: EndStep) returns (t: State)
    requires Reachable(s) && CanEnd(s, id, e)
    ensures Reachable(t) && t == DoEnd(s, id, e) && OnlyEnds(s, t)
  {
    Extend(s, End(id, e));
    t := DoEnd(s, id, e);
  }

  lemma Joins(s: State, id: nat) returns (t: State)
    requires Reachable(s) && id < |s.streamers| && Started(s.streamers[id].life)
    ensures Reachable(t) && OnlyEnds(s, t) && IsLife(t.streamers, id, Done)
  {
    t := s;
    if t.streamers[id].life.Running? {
      t := EndStepOf(t, id, EndReadClosed);
    }
    if t.streamers[id].life.SawOpen? {
      t := EndStepOf(t, id, EndReadSwitching);
    }
    if t.streamers[id].life.Submitting? {
      t := EndStepOf(t, id, EndSubmit);
    }
    if t.streamers[id].life.Exiting? {
      t := EndStepOf(t, id, EndExit);
    }
  }

  lemma JoinsSlot(s: State, slot: Option<Installed>) returns (t: State)
    requires Reachable(s)
    requires slot.Some? ==> slot.value.id < |s.streamers| && Started(s.streamers[slot.value.id].life)
    ensures Reachable(t) && OnlyEnds(s, t) && Joined(t, IdOf(slot))
  {
    t := s;
    if slot.Some? {
      t := Joins(s, slot.value.id);
    }
  }

  lemma StopFirst(s: State) returns (t: State)
    requires Reachable(s) && s.mu.Held? && s.mu.at == AtStopAudio
    ensures Reachable(t) && |t.streamers| == |s.streamers| && Joined(t, IdOf(s.f.audio))
    ensures t == s.(f := s.f.(audio := None), mu := s.mu.(at := AtStopVideo), streamers := t.streamers,
                    queue := t.queue)
  {
    ReachableInv(s);
    t := JoinsSlot(s, s.f.audio);
    t := Advance(t, StopAudio);
  }

  lemma StopSecond(s: State) returns (t: State)
    requires Reachable(s) && s.mu.Held? && s.mu.at == AtStopVideo
    ensures Reachable(t) && |t.streamers| == |s.streamers| && Joined(t, IdOf(s.f.video))
    ensures t == s.(f := s.f.(video := None), mu := s.mu.(at := AtClose), streamers := t.streamers, queue := t.queue)
    ensures forall i | 0 <= i < |s.streamers| :: s.streamers[i].life.Done? ==> t.streamers[i].life.Done?
  {
    ReachableInv(s);
    t := JoinsSlot(s, s.f.video);
    t := Advance(t, StopVideo);
  }

  /** stopStreamersLocked as far as the streamers go. */
  lemma StopBoth(s: State) returns (t: State)
    requires Reachable(s) && s.mu.Held? && s.mu.at == AtStopAudio
    ensures Reachable(t)
    ensures t == s.(f := s.f.(audio := None, video := None), mu := s.mu.(at := AtClose),
                    streamers := t.streamers, queue := t.queue)
    ensures |t.streamers| == |s.streamers| && Joined(t, IdOf(s.f.audio)) && Joined(t, IdOf(s.f.video))
  {
    t := StopFirst(s);
    t := StopSecond(t);
  }

  /** Until its section closes the streams, a call has stopped them all. */
  lemma StopAll(s: State) returns (t: State)
    requires Reachable(s) && s.mu.Held? && s.mu.at == AtStopAudio && s.mu.job != SeekJob(true)
    ensures Reachable(t)
    ensures t == s.(f := DropStreamers(s.f), mu := s.mu.(at := AfterClose(s.mu.job)),
                    files := Closed(s.files, s.f.streams), streamers := t.streamers, queue := t.queue)
    ensures |t.streamers| == |s.streamers| && Joined(t, IdOf(s.f.audio)) && Joined(t, IdOf(s.f.video))
  {
    t := StopBoth(s);
    t := Advance(t, CloseStreams);
  }

  // ---------------------------------------------------------------- SetSource

  lemma SetSourceStops(s: State, op: nat) returns (t: State)
    requires Reachable(s) && s.mu.Free? && !s.flags.closed && op in s.ops && s.ops[op].SourceWaiting?
    ensures Reachable(t) && t.mu == Held(Some(op), InstallJob(s.ops[op].p), AtInstall, CurrentState(s.f))
    ensures t.f == DropStreamers(s.f) && t.flags == s.flags.(switching := true)
    ensures t.upgrades == s.upgrades && t.ops == s.ops[op := InLock]
    ensures Joined(t, IdOf(s.f.audio)) && Joined(t, IdOf(s.f.video))
  {
    Extend(s, Lock(op, LockInstall));
    t := DoLock(s, op, LockInstall);
    t := Advance(t, CheckClosed);
    t := Advance(t, SetSwitching);
    t := StopAll(t);
  }

  /** SetSource of an open call. */
  lemma SetSourceSection(s: State, op: nat) returns (t: State)
    requires Reachable(s) && s.mu.Free? && !s.flags.closed && op in s.ops && s.ops[op].SourceWaiting?
    ensures Reachable(t) && t.mu.Free?
    ensures var p := s.ops[op].p; t.f == Switched(s.f, p.src, p.handle, p.audio, p.video)
    ensures t.flags == s.flags.(switching := false) && t.upgrades == s.upgrades && t.ops == s.ops - {op}
    ensures Joined(t, IdOf(s.f.audio)) && Joined(t, IdOf(s.f.video))
  {
    var u := SetSourceStops(s, op);
    ReachableInv(u);
    t := InstallAndStart(u, op);
    StillJoined(u, t, IdOf(s.f.audio));
    StillJoined(u, t, IdOf(s.f.video));
    t := Release(t, op);
  }

  /** The streamers that SetSource starts are not those that it has stopped. */
  lemma StillJoined(u: State, t: State, id: Option<nat>)
    requires Inv(u) && u.mu.Held? && u.mu.job.InstallJob? && u.mu.op.Some? && u.mu.at == AtInstall && Joined(u, id)
    requires var i := InstallCall(u); t.streamers == Begin(Begin(i.streamers, i.f.audio), i.f.video)
    ensures Joined(t, id)
  {
    assert PrepOk(u.streamers, u.mu.job.p, u.mu.op.value);
  }

  /** SetSource of a call that has been closed in the meantime closes what it had opened. */
  lemma LateSetSourceSection(s: State, op: nat) returns (t: State)
    requires Reachable(s) && s.mu.Free? && s.flags.closed && op in s.ops && s.ops[op].SourceWaiting?
    ensures Reachable(t) && t.mu.Free? && t.f == s.f && t.upgrades == s.upgrades && t.ops == s.ops - {op}
    ensures t.files.open == s.files.open - {s.ops[op].p.handle}
  {
    Extend(s, Lock(op, LockInstall));
    t := DoLock(s, op, LockInstall);
    t := Advance(t, CheckClosed);
  }

  // ---------------------------------------------------------------- Pause, Mute, Resume

  lemma PauseSection(s: State, op: nat) returns (t: State)
    requires Reachable(s) && s.mu.Free? && op in s.ops && s.ops[op].PauseEntered?
    ensures Reachable(t) && t.mu.Free? && t.ops == s.ops - {op}
    ensures t.f == (if s.f.paused then s.f else SetPaused(s.f, true))
    ensures t.upgrades == s.upgrades + Submitted(s.f, t.f)
  {
    Extend(s, Lock(op, DoPause));
    t := DoLock(s, op, DoPause);
  }

  lemma MuteSection(s: State, op: nat) returns (t: State)
    requires Reachable(s) && s.mu.Free? && op in s.ops && s.ops[op].MuteEntered?
    ensures Reachable(t) && t.mu.Free? && t.ops == s.ops - {op}
    ensures t.f == (if s.f.muted == s.ops[op].on then s.f else SetMuted(s.f, s.ops[op].on))
    ensures t.upgrades == s.upgrades + Submitted(s.f, t.f)
  {
    Extend(s, Lock(op, DoMute));
    t := DoLock(s, op, DoMute);
  }

  /** Resume of a call that is not paused, has streamers, or has no source. */
  lemma UngateSection(s: State, op: nat) returns (t: State)
    requires Reachable(s) && s.mu.Free? && op in s.ops && s.ops[op].ResumeEntered? && !MustReopen(s.f)
    ensures Reachable(t) && t.mu.Free? && t.ops == s.ops - {op}
    ensures t.f == (if s.f.paused then SetPaused(s.f, false) else s.f)
    ensures t.upgrades == s.upgrades + Submitted(s.f, t.f)
  {
    Extend(s, Lock(op, DoResume));
    t := DoLock(s, op, DoResume);
  }

  /** Resume of a call that has no streamers and opens its source again, or fails to. */
  lemma ResumeSection(s: State, op: nat, opens: bool, a: bool, v: bool) returns (t: State)
    requires Reachable(s) && s.mu.Free? && op in s.ops && s.ops[op].ResumeEntered? && MustReopen(s.f)
    ensures Reachable(t) && t.mu.Free?
    ensures t.f == Restarted(SetPaused(s.f, false), if opens then Some(s.files.next) else None, a, v, |s.streamers|)
    ensures t.upgrades == s.upgrades + Submitted(s.f, t.f)
  {
    Extend(s, Lock(op, DoResume));
    t := DoLock(s, op, DoResume);
    t := Reopen(t, opens, a, v);
    t := Advance(t, Leave);
  }

  /** startLocked. */
  lemma Reopen(s: State, opens: bool, a: bool, v: bool) returns (t: State)
    requires Reachable(s) && s.mu.Held? && s.mu.at == AtOpen && s.f.src.Some? && NoStreamers(s.f)
    ensures Reachable(t) && t.mu == s.mu.(at := AtLeave) && t.upgrades == s.upgrades && t.ops == s.ops
    ensures t.flags == s.flags
    ensures t.f == Restarted(s.f, if opens then Some(s.files.next) else None, a, v, |s.streamers|)
  {
    if opens {
      t := ReopenFound(s, a, v);
    } else {
      t := Advance(s, ReopenFail);
    }
  }

  lemma ReopenFound(s: State, a: bool, v: bool) returns (t: State)
    requires Reachable(s) && s.mu.Held? && s.mu.at == AtOpen && s.f.src.Some? && NoStreamers(s.f)
    ensures Reachable(t) && t.mu == s.mu.(at := AtLeave) && t.upgrades == s.upgrades && t.ops == s.ops
    ensures t.flags == s.flags && t.f == Restarted(s.f, Some(s.files.next), a, v, |s.streamers|)
  {
    t := Advance(s, ReopenOk);
    t := MakeTracks(t, a, v);
    t := Advance(t, ArmCycle);
  }

  /** startLocked makes and starts the streamers. */
  lemma MakeTracks(s: State, a: bool, v: bool) returns (t: State)
    requires Reachable(s) && s.mu.Held? && s.mu.at == AtMakeAudio
    ensures Reachable(t) && t.mu == s.mu.(at := AtArm) && t.upgrades == s.upgrades && t.ops == s.ops
    ensures t.flags == s.flags
    ensures var n := |s.streamers|;
            t.f == s.f.(audio := if a then Some(Installed(n, s.f.paused, s.f.muted)) else s.f.audio,
                        video := if v then Some(Installed(if a then n + 1 else n, s.f.paused, false)) else s.f.video)
  {
    t := Advance(s, MakeAudio(a));
    t := Advance(t, MakeVideo(v));
  }

  // ---------------------------------------------------------------- SeekBy

  predicate Seekable(f: Fields) { f.src.Some? && f.src.value.seekable }

  /** SeekBy without a seekable source, or by zero. */
  lemma NoSeekSection(s: State, op: nat, zero: bool, underflow: bool) returns (t: State)
    requires Reachable(s) && s.mu.Free? && op in s.ops && s.ops[op].SeekEntered? && (zero || !Seekable(s.f))
    ensures Reachable(t) && t == s.(ops := s.ops - {op})
  {
    Extend(s, Lock(op, LockSeek(zero, underflow)));
    t := DoLock(s, op, LockSeek(zero, underflow));
  }

  /** SeekBy to before the start. */
  lemma UnderflowSection(s: State, op: nat) returns (t: State)
    requires Reachable(s) && s.mu.Free? && op in s.ops && s.ops[op].SeekEntered? && Seekable(s.f)
    ensures Reachable(t) && t.mu.Free? && t.f == DropStreamers(s.f) && t.upgrades == s.upgrades
    ensures t.flags == s.flags && t.ops == s.ops - {op}
    ensures Joined(t, IdOf(s.f.audio)) && Joined(t, IdOf(s.f.video))
  {
    Extend(s, Lock(op, LockSeek(false, true)));
    t := DoLock(s, op, LockSeek(false, true));
    t := StopBoth(t);
    t := Advance(t, CloseStreams);
    assert t.ops == s.ops - {op};
  }

  lemma SeekStops(s: State, op: nat) returns (t: State)
    requires Reachable(s) && s.mu.Free? && op in s.ops && s.ops[op].SeekEntered? && Seekable(s.f)
    ensures Reachable(t) && t.mu == Held(Some(op), SeekJob(false), AtOpen, CurrentState(s.f))
    ensures t.f == DropStreamers(s.f) && t.flags == s.flags.(switching := true) && t.upgrades == s.upgrades
    ensures t.ops == s.ops[op := InLock] && |t.streamers| == |s.streamers| && t.files.next == s.files.next
  {
    Extend(s, Lock(op, LockSeek(false, false)));
    t := DoLock(s, op, LockSeek(false, false));
    t := Advance(t, SetSwitching);
    t := StopAll(t);
  }

  /** Any other SeekBy, whether or not the source opens again. */
  lemma SeekSection(s: State, op: nat, opens: bool, a: bool, v: bool) returns (t: State)
    requires Reachable(s) && s.mu.Free? && op in s.ops && s.ops[op].SeekEntered? && Seekable(s.f)
    ensures Reachable(t) && t.mu.Free?
    ensures t.f == Restarted(DropStreamers(s.f), if opens then Some(s.files.next) else None, a, v, |s.streamers|)
    ensures t.flags == s.flags.(switching := false) && t.upgrades == s.upgrades && t.ops == s.ops - {op}
  {
    t := SeekStops(s, op);
    t := Reopen(t, opens, a, v);
    t := Advance(t, Leave);
    assert t.ops - {op} == s.ops - {op};
    Extend(t, Call(op, ClearSwitching));
    t := DoCall(t, op, ClearSwitching);
  }

  // ---------------------------------------------------------------- Stop, the lost connection, a stream's end

  lemma StopSection(s: State, op: nat) returns (t: State)
    requires Reachable(s) && s.mu.Free? && op in s.ops && s.ops[op].StopEntered?
    ensures Reachable(t) && t.mu.Free? && t.f == Cleared(s.f) && t.upgrades == s.upgrades && t.flags.stopped
    ensures Joined(t, IdOf(s.f.audio)) && Joined(t, IdOf(s.f.video)) && t.ops == s.ops - {op}
  {
    Extend(s, Lock(op, LockStop));
    t := DoLock(s, op, LockStop);
    t := StopAll(t);
    t := Advance(t, ClearCall);
    assert t.ops == s.ops - {op};
  }

  lemma ConnectionLostSection(s: State) returns (t: State)
    requires Reachable(s) && s.mu.Free? && s.disp.PcWaiting?
    ensures Reachable(t) && t.mu.Free? && t.disp.Idle? && t.f == DropStreamers(s.f)
    ensures t.upgrades == s.upgrades + Submitted(s.f, t.f)
    ensures Joined(t, IdOf(s.f.audio)) && Joined(t, IdOf(s.f.video))
  {
    Extend(s, Disp(PcLock));
    t := DoDisp(s, PcLock);
    t := StopAll(t);
    t := Advance(t, Leave);
  }

  lemma EndSection(s: State) returns (t: State)
    requires Reachable(s) && CanDisp(s, DispEnd)
    ensures var r := HandleEnd(s.f, s.streamers[s.disp.id].kind, s.disp.id);
            && Reachable(t) && t.mu.Free? && t.f == r.fields && t.upgrades == s.upgrades
            && (r.fired <==> t.disp.EndStopping?)
            && (r.fired ==> t.disp.sibling == r.sibling)
  {
    Extend(s, Disp(DispEnd));
    t := DoDisp(s, DispEnd);
  }
}
