/** Runs of the group-call protocol that show where the code does less than its comments say. */
module GroupCallGaps {
  import opened Options
  import opened GroupCallFields
  import opened GroupCallProtocol
  import opened GroupCallInvariant

  predicate Leads(run: seq<Step>, s: State) {
    IsRun(INITIAL, run) && After(INITIAL, run) == s
  }

  ghost predicate Reachable(s: State) {
    exists run :: Leads(run, s)
  }

  lemma {:induction false} RunAppend(s: State, run: seq<Step>, step: Step)
    requires IsRun(s, run) && Enabled(After(s, run), step)
    ensures IsRun(s, run + [step]) && After(s, run + [step]) == Apply(After(s, run), step)
    decreases |run|
  {
    if run == [] {
      assert [step][1..] == [];
      assert IsRun(Apply(s, step), []);
    } else {
      RunAppend(Apply(s, run[0]), run[1..], step);
      assert (run + [step])[1..] == run[1..] + [step];
    }
  }

  lemma Extend(s: State, step: Step)
    requires Reachable(s) && Enabled(s, step)
    ensures Reachable(Apply(s, step))
  {
    var run :| Leads(run, s);
    RunAppend(INITIAL, run, step);
    assert Leads(run + [step], Apply(s, step));
  }

  lemma InitialReachable()
    ensures Reachable(INITIAL)
  {
    assert Leads([], INITIAL);
  }

  const SRC := Source(true)

  /** A quiet call: nobody holds the lock and the installed streamers, if any, have exited. */
  predicate Quiet(s: State) {
    s.mu.Free? && !s.flags.closed && Joined(s, IdOf(s.f.audio)) && Joined(s, IdOf(s.f.video))
  }

  /** SetSource up to its place in the queue for the lock. */
  lemma Prepare(s: State, op: nat, a: bool, v: bool) returns (t: State)
    requires Reachable(s) && s.mu.Free? && !s.flags.closed && op !in s.ops && (a || v)
    ensures Reachable(t) && op in t.ops
    ensures var o := SourceOpening(SRC, s.f.muted, s.mutes.toggles);
            t == OpenSource(s.(ops := s.ops[op := o]), op, o, a, v)
  {
    var o := SourceOpening(SRC, s.f.muted, s.mutes.toggles);
    Extend(s, Call(op, Enter(SourceEntered(SRC))));
    var s1 := s.(ops := s.ops[op := SourceEntered(SRC)]);
    Extend(s1, Call(op, Snapshot));
    var s2 := s.(ops := s.ops[op := o]);
    assert s1.ops[op := o] == s2.ops;
    Extend(s2, Call(op, OpenOk(a, v)));
    t := OpenSource(s2, op, o, a, v);
  }

  /** One step of the lock's holder. */
  lemma Advance(s: State, h: HeldStep) returns (t: State)
    requires Reachable(s) && CanHeld(s, h)
    ensures Reachable(t) && t == DoHeld(s, h)
  {
    Extend(s, Inside(h));
    t := DoHeld(s, h);
  }

  /** SetSource takes the lock and tears the old streamers down. */
  lemma TearDown(s: State, op: nat) returns (t: State)
    requires Reachable(s) && Quiet(s) && op in s.ops && s.ops[op].SourceWaiting?
    ensures Reachable(t)
    ensures t == s.(f := DropStreamers(s.f), flags := s.flags.(switching := true),
                    files := Closed(s.files, s.f.streams),
                    ops := s.ops[op := InLock],
                    mu := Held(Some(op), InstallJob(s.ops[op].p), AtInstall, CurrentState(s.f)))
  {
    Extend(s, Lock(op, LockInstall));
    t := DoLock(s, op, LockInstall);
    t := Advance(t, CheckClosed);
    t := Advance(t, SetSwitching);
    t := Advance(t, StopAudio);
    t := Advance(t, StopVideo);
    t := Advance(t, CloseStreams);
  }

  /** SetSource installs and starts what it has prepared; it still holds the lock. */
  lemma InstallAndStart(s: State, op: nat) returns (t: State)
    requires Reachable(s) && s.mu.Held? && s.mu.op == Some(op) && s.mu.job.InstallJob? && s.mu.at == AtInstall
    ensures Reachable(t)
    ensures var u := InstallCall(s);
            t == Goto(u, AtLeave).(f := u.f.(audio := StartGate(u.f.audio, u.f.paused),
                                             video := StartGate(u.f.video, u.f.paused)),
                                   streamers := Begin(Begin(u.streamers, u.f.audio), u.f.video))
  {
    t := Advance(s, InstallFields);
    t := Advance(t, StartAudio);
    t := Advance(t, StartVideo);
  }

  /** A streamer's loop ends and its end callback returns, with `l` as outcome of each test. */
  lemma StreamerEnds(s: State, id: nat) returns (t: State)
    requires Reachable(s) && id < |s.streamers| && s.streamers[id].life == Running && !s.flags.closed
    ensures Reachable(t)
    ensures t == WithLife(s, id, Done).(queue := if s.flags.switching then s.queue else s.queue + [EndClosure(id)])
  {
    Extend(s, End(id, EndReadClosed));
    t := DoEnd(s, id, EndReadClosed);
    Extend(t, End(id, EndReadSwitching));
    t := DoEnd(t, id, EndReadSwitching);
    if !s.flags.switching {
      Extend(t, End(id, EndSubmit));
      t := DoEnd(t, id, EndSubmit);
    }
    Extend(t, End(id, EndExit));
    t := DoEnd(t, id, EndExit);
  }

  /** SetSource lets go of the lock and then of the switching flag. */
  lemma Release(s: State, op: nat) returns (t: State)
    requires Reachable(s) && s.mu.Held? && s.mu.op == Some(op) && s.mu.job.InstallJob? && s.mu.at == AtLeave
    ensures Reachable(t)
    ensures t == Finish(s, op).(mu := Free, flags := s.flags.(switching := false))
  {
    t := Advance(s, Leave);
    Extend(t, Call(op, ClearSwitching));
    assert t.ops - {op} == s.ops - {op};
    t := DoCall(t, op, ClearSwitching);
  }

  /** The call after a first SetSource that found the tracks `a`, `v`. */
  function Playing(a: bool, v: bool): State {
    INITIAL.(
      f := Install(NEW_CALL, SRC, 0, NewStreamer(a, 0, false), NewStreamer(v, if a then 1 else 0, false)),
      streamers := (if a then [Streamer(Audio, 1, Running)] else [])
               + (if v then [Streamer(Video, 1, Running)] else []),
      files := Handles(1, {0}),
      reports := Reports([Tracks(a, v)], [], []))
  }

  lemma FirstPrepared(a: bool, v: bool) returns (t: State)
    requires a || v
    ensures Reachable(t)
    ensures var p := Prep(SRC, 0, NewStreamer(a, 0, false), NewStreamer(v, if a then 1 else 0, false), 0);
            t == INITIAL.(streamers := (if a then [Streamer(Audio, 0, Prepared(0))] else [])
                                     + (if v then [Streamer(Video, 0, Prepared(0))] else []),
                          files := Handles(1, {0}), ops := map[0 := SourceWaiting(p)])
  {
    InitialReachable();
    t := Prepare(INITIAL, 0, a, v);
  }

  lemma FirstAudio()
    ensures Reachable(Playing(true, false))
  {
    var t := FirstPrepared(true, false);
    t := TearDown(t, 0);
    t := InstallAndStart(t, 0);
    t := Release(t, 0);
    assert t == Playing(true, false);
  }

  lemma FirstBoth()
    ensures Reachable(Playing(true, true))
  {
    var t := FirstPrepared(true, true);
    t := TearDown(t, 0);
    t := InstallAndStart(t, 0);
    t := Release(t, 0);
    assert t == Playing(true, true);
  }

  // ---------------------------------------------------------------- the gaps

  /** Nothing is going on and nothing will: no call in flight, no closure, an idle dispatcher. */
  predicate Settled(s: State) {
    s.mu.Free? && s.ops == map[] && s.queue == [] && s.disp.Idle?
  }

  /** A new streamer that ends while SetSource is still switching is never reported: the call has
      settled with a finished streamer installed and no callback made. */
  lemma InstantEndIsSwallowed() returns (t: State)
    ensures Reachable(t) && Settled(t) && !t.flags.closed
    ensures Holds(t.f.audio, 0) && t.streamers == [Streamer(Audio, 1, Done)] && t.reports.ends == []
  {
    t := FirstSwitching();
    t := StreamerEnds(t, 0);
    t := Release(t, 0);
  }

  /** A first SetSource has started its audio streamer and still holds the lock. */
  lemma FirstSwitching() returns (t: State)
    ensures Reachable(t) && t.mu.Held? && t.mu.job.InstallJob?
    ensures t == Playing(true, false).(flags := Flags(false, true, false), ops := map[0 := InLock],
                                       mu := Held(Some(0), t.mu.job, AtLeave, CurrentState(NEW_CALL)))
  {
    t := FirstPrepared(true, false);
    t := TearDown(t, 0);
    t := InstallAndStart(t, 0);
  }

  /** The dispatcher runs a queued end closure up to its critical section. */
  lemma RunEndClosure(s: State, id: nat) returns (t: State)
    requires Reachable(s) && s.mu.Free? && s.disp.Idle? && s.queue == [EndClosure(id)]
    requires !s.flags.closed && !s.flags.switching && id < |s.streamers|
    ensures Reachable(t) && t == EndCall(s.(queue := [], disp := EndAtLock(id)))
  {
    Extend(s, Disp(Take));
    t := DoDisp(s, Take);
    Extend(t, Disp(DispReadClosed));
    t := DoDisp(t, DispReadClosed);
    Extend(t, Disp(DispReadSwitching));
    t := DoDisp(t, DispReadSwitching);
    Extend(t, Disp(DispEnd));
    t := DoDisp(t, DispEnd);
  }

  /** An audio source ends, is replaced by a video source, and the late end event takes the new
      video streamer down: it is about to be stopped while it runs, and cycle 2 is reported ended. */
  lemma StaleEndStopsNewCycle() returns (t: State)
    ensures Reachable(t) && SiblingIs(t.disp, 1) && t.reports.blocks == [2]
    ensures |t.streamers| == 2 && t.streamers[1] == Streamer(Video, 2, Running)
  {
    FirstAudio();
    t := StreamerEnds(Playing(true, false), 0);
    t := Prepare(t, 0, false, true);
    t := TearDown(t, 0);
    t := InstallAndStart(t, 0);
    t := Release(t, 0);
    t := RunEndClosure(t, 0);
  }

  /** The sibling is stopped outside the lock, so SetSource can start a video streamer while the old
      one still runs. */
  lemma TwoVideoStreamersRun() returns (t: State)
    ensures Reachable(t) && |t.streamers| == 3
    ensures t.streamers[1] == Streamer(Video, 1, Running) && t.streamers[2] == Streamer(Video, 2, Running)
  {
    FirstBoth();
    t := StreamerEnds(Playing(true, true), 0);
    t := RunEndClosure(t, 0);
    t := Prepare(t, 0, false, true);
    t := TearDown(t, 0);
    t := InstallAndStart(t, 0);
  }

  /** Mute while a source is being opened: the new streamer is installed unmuted. */
  lemma MuteIsMissed() returns (t: State)
    ensures Reachable(t) && t.mu.Free? && t.f.muted && t.f.audio.Some? && !t.f.audio.value.mute && t.mutes.raced
  {
    t := FirstPrepared(true, false);
    Extend(t, Call(1, Enter(MuteEntered(true))));
    t := DoCall(t, 1, Enter(MuteEntered(true)));
    Extend(t, Lock(1, DoMute));
    t := DoLock(t, 1, DoMute);
    t := TearDown(t, 0);
    t := InstallAndStart(t, 0);
    t := Release(t, 0);
  }

  /** Resume after a natural end opens the source again without closing the old handle: the call
      refers to handle 1 only, and handle 0 stays open. */
  lemma HandleIsLost() returns (t: State)
    ensures Reachable(t) && Settled(t.(queue := [])) && t.f.streams == Some(1) && t.files.open == {0, 1}
  {
    FirstAudio();
    t := StreamerEnds(Playing(true, false), 0);
    t := RunEndClosure(t, 0);
    Extend(t, Disp(DispStopSibling));
    t := DoDisp(t, DispStopSibling);
    Extend(t, Disp(DispFire));
    t := DoDisp(t, DispFire);
    Extend(t, Disp(DispFire));
    t := DoDisp(t, DispFire);
    t := PauseThenReopen(t);
  }

  lemma PauseThenReopen(s: State) returns (t: State)
    requires Reachable(s) && s.mu.Free? && s.ops == map[] && !s.flags.closed && s.disp.Idle?
    requires NoStreamers(s.f) && s.f.src.Some? && !s.f.paused
    ensures Reachable(t) && t.mu.Free? && t.ops == map[] && t.disp.Idle?
    ensures t.f.streams == Some(s.files.next) && t.files.open == s.files.open + {s.files.next}
  {
    Extend(s, Call(0, Enter(PauseEntered)));
    t := DoCall(s, 0, Enter(PauseEntered));
    Extend(t, Lock(0, DoPause));
    t := DoLock(t, 0, DoPause);
    assert t.ops == map[];
    t := ReopenByResume(t);
  }

  lemma ReopenByResume(s: State) returns (t: State)
    requires Reachable(s) && s.mu.Free? && s.ops == map[] && !s.flags.closed && MustReopen(s.f)
    ensures Reachable(t) && t.mu.Free? && t.ops == map[] && t.disp == s.disp
    ensures t.f.streams == Some(s.files.next) && t.files.open == s.files.open + {s.files.next}
  {
    Extend(s, Call(0, Enter(ResumeEntered)));
    t := DoCall(s, 0, Enter(ResumeEntered));
    Extend(t, Lock(0, DoResume));
    t := DoLock(t, 0, DoResume);
    t := Advance(t, ReopenOk);
    t := Advance(t, MakeAudio(true));
    t := Advance(t, MakeVideo(false));
    t := Advance(t, ArmCycle);
    t := Advance(t, Leave);
    assert t.ops == map[];
  }

  /** `switching` is one flag for all calls: the end of one SetSource clears it while another is
      tearing streamers down. */
  lemma SwitchingIsClearedEarly() returns (t: State)
    ensures Reachable(t) && t.mu.Held? && t.mu.job.InstallJob? && t.mu.at == AtStopAudio && !t.flags.switching
  {
    t := FirstPrepared(true, false);
    t := Prepare(t, 1, true, false);
    t := TearDown(t, 0);
    t := InstallAndStart(t, 0);
    t := Advance(t, Leave);
    Extend(t, Lock(1, LockInstall));
    t := DoLock(t, 1, LockInstall);
    t := Advance(t, CheckClosed);
    t := Advance(t, SetSwitching);
    Extend(t, Call(0, ClearSwitching));
    t := DoCall(t, 0, ClearSwitching);
  }

  /** The video leg ends and the end is reported, but the state last submitted still says that there is
      video. */
  lemma VideoEndIsNotAnnounced() returns (t: State)
    ensures Reachable(t) && Settled(t) && t.reports.ends == [EndEvent(Video, 1), EndEvent(Audio, 1)]
    ensures t.f.video.None? && !LastUpgrade(t.upgrades).videoStopped && t.upgrades != []
  {
    t := PausedThenVideoEnds();
    t := ReportVideoEnd(t);
    t := StopSiblingAndFire(t);
  }

  /** Both legs play, the call is paused and so announced, and the video leg ends. */
  lemma PausedThenVideoEnds() returns (t: State)
    ensures Reachable(t) && t.mu.Free? && t.ops == map[] && t.queue == [EndClosure(1)] && t.disp.Idle?
    ensures t.streamers == [Streamer(Audio, 1, Running), Streamer(Video, 1, Done)]
    ensures t.f == SetPaused(Playing(true, true).f, true) && t.flags == Flags(false, false, false)
    ensures t.reports == Reports([Tracks(true, true)], [], [])
    ensures |t.upgrades| == 1 && t.upgrades[0].state == CurrentState(t.f)
  {
    FirstBoth();
    t := Playing(true, true);
    Extend(t, Call(0, Enter(PauseEntered)));
    t := DoCall(t, 0, Enter(PauseEntered));
    Extend(t, Lock(0, DoPause));
    t := DoLock(t, 0, DoPause);
    assert t.ops == map[];
    t := StreamerEnds(t, 1);
    Extend(t, Disp(Take));
    t := DoDisp(t, Take);
    assert t.queue == [EndClosure(1)];
  }

  lemma ReportVideoEnd(s: State) returns (t: State)
    requires Reachable(s) && s.mu.Free? && s.queue == [EndClosure(1)] && s.disp.Idle?
    requires s.streamers == [Streamer(Audio, 1, Running), Streamer(Video, 1, Done)]
    requires s.f == SetPaused(Playing(true, true).f, true) && s.flags == Flags(false, false, false)
    requires s.reports == Reports([Tracks(true, true)], [], [])
    ensures Reachable(t) && t.f == HandleEnd(s.f, Video, 1).fields && t.reports.ends == []
    ensures t.disp == EndStopping(Some(0), [EndEvent(Video, 1), EndEvent(Audio, 1)])
    ensures t.mu == s.mu && t.ops == s.ops && t.queue == [] && t.flags == s.flags && t.upgrades == s.upgrades
    ensures t.streamers == s.streamers
  {
    t := RunEndClosure(s, 1);
  }

  /** The audio leg is stopped as the sibling, its own end reads an open call and is dropped as reported
      already, and both callbacks are made. */
  lemma StopSiblingAndFire(s: State) returns (t: State)
    requires Reachable(s) && s.mu.Free? && s.ops == map[] && s.queue == [] && s.flags == Flags(false, false, false)
    requires s.disp == EndStopping(Some(0), [EndEvent(Video, 1), EndEvent(Audio, 1)]) && s.reports.ends == []
    requires s.f.endedOnce && |s.streamers| == 2 && s.streamers[0].life == Running && NoStreamers(s.f)
    ensures Reachable(t) && Settled(t) && t.f == s.f && t.upgrades == s.upgrades
    ensures t.reports.ends == [EndEvent(Video, 1), EndEvent(Audio, 1)]
  {
    t := StreamerEnds(s, 0);
    Extend(t, Disp(DispStopSibling));
    t := DoDisp(t, DispStopSibling);
    Extend(t, Disp(DispFire));
    t := DoDisp(t, DispFire);
    Extend(t, Disp(DispFire));
    t := DoDisp(t, DispFire);
    Extend(t, Disp(DispFire));
    t := DoDisp(t, DispFire);
    assert t.queue == [EndClosure(0)];
    t := RunEndClosure(t, 0);
  }
}
