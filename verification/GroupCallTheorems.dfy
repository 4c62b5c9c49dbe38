/** What the group-call protocol guarantees over all of its runs, and exactly when it does not. */
module GroupCallTheorems {
  import opened Options
  import opened GroupCallFields
  import opened GroupCallProtocol
  import opened GroupCallInvariant
  import opened GroupCallSteps

  /** Every reachable state satisfies the invariant. */
  lemma Reached(run: seq<Step>)
    requires IsRun(INITIAL, run)
    ensures Inv(After(INITIAL, run))
  {
    InitialInv();
    RunKeepsInv(INITIAL, run);
  }

  // ---------------------------------------------------------------- OnStreamEnd

  /** `earlier` may be reported before `later`: in an earlier cycle, or the video of the same one. */
  predicate Before(earlier: EndEvent, later: EndEvent) {
    earlier.cycle < later.cycle || (earlier.cycle == later.cycle && earlier.kind == Video && later.kind == Audio)
  }

  predicate Ordered(es: seq<EndEvent>) {
    forall i, j | 0 <= i < j < |es| :: Before(es[i], es[j])
  }

  /** Every event is of a cycle up to `limit`, and of a track that the cycle had. */
  predicate Genuine(es: seq<EndEvent>, cycles: seq<Tracks>, limit: nat)
    requires limit <= |cycles|
  {
    forall i | 0 <= i < |es| :: 1 <= es[i].cycle <= limit && HasKind(cycles[es[i].cycle - 1], es[i].kind)
  }

  lemma AppendOrdered(front: seq<EndEvent>, cycles: seq<Tracks>, cycle: nat, limit: nat)
    requires 1 <= cycle <= limit <= |cycles|
    requires Ordered(front) && Genuine(front, cycles, cycle - 1)
    ensures var es := front + BlockEvents(cycles, cycle); Ordered(es) && Genuine(es, cycles, limit)
  {
  }

  lemma {:induction false} FlattenOrdered(cycles: seq<Tracks>, blocks: seq<nat>, limit: nat)
    requires Increasing(blocks, limit) && limit <= |cycles|
    ensures Ordered(Flatten(cycles, blocks)) && Genuine(Flatten(cycles, blocks), cycles, limit)
  {
    if blocks != [] {
      var n := |blocks| - 1;
      FlattenOrdered(cycles, blocks[..n], blocks[n] - 1);
      AppendOrdered(Flatten(cycles, blocks[..n]), cycles, blocks[n], limit);
    }
  }

  lemma JoinedMembers<T>(a: seq<T>, b: seq<T>, x: T)
    ensures x in a + b <==> x in a || x in b
  {
  }

  lemma BlockMembers(cycles: seq<Tracks>, cycle: nat, k: Kind, c: nat)
    requires 1 <= cycle <= |cycles|
    ensures EndEvent(k, c) in BlockEvents(cycles, cycle) <==>
              c == cycle && if k == Audio then cycles[c - 1].audio else cycles[c - 1].video
  {
    var t := cycles[cycle - 1];
    JoinedMembers(if t.video then [EndEvent(Video, cycle)] else [], if t.audio then [EndEvent(Audio, cycle)] else [],
                  EndEvent(k, c));
  }

  lemma {:induction false} FlattenMembers(cycles: seq<Tracks>, blocks: seq<nat>, k: Kind, c: nat)
    requires forall i | 0 <= i < |blocks| :: 1 <= blocks[i] <= |cycles|
    ensures EndEvent(k, c) in Flatten(cycles, blocks) <==>
              c in blocks && if k == Audio then cycles[c - 1].audio else cycles[c - 1].video
  {
    if blocks != [] {
      var n := |blocks| - 1;
      FlattenMembers(cycles, blocks[..n], k, c);
      BlockMembers(cycles, blocks[n], k, c);
      JoinedMembers(Flatten(cycles, blocks[..n]), BlockEvents(cycles, blocks[n]), EndEvent(k, c));
      JoinedMembers(blocks[..n], [blocks[n]], c);
      assert blocks == blocks[..n] + [blocks[n]];
    }
  }

  /** The callbacks `es` report exactly the tracks of the cycles `blocks`. */
  ghost predicate Reported(es: seq<EndEvent>, cycles: seq<Tracks>, blocks: seq<nat>) {
    && (forall i | 0 <= i < |blocks| :: 1 <= blocks[i] <= |cycles|)
    && (forall i, j | 0 <= i < j < |blocks| :: blocks[i] < blocks[j])
    && (forall c: nat :: EndEvent(Video, c) in es <==> c in blocks && cycles[c - 1].video)
    && (forall c: nat :: EndEvent(Audio, c) in es <==> c in blocks && cycles[c - 1].audio)
  }

  /** In every run the OnStreamEnd callbacks, with those the running end closure has still to make, report
      some cycles: each of its tracks for every one of them, and nothing else; no event twice, cycles in
      increasing order, and video before audio. */
  lemma EndReports(run: seq<Step>)
    requires IsRun(INITIAL, run)
    ensures var s := After(INITIAL, run);
            var es := s.reports.ends + Todo(s.disp);
            Ordered(es) && Reported(es, s.reports.cycles, s.reports.blocks)
  {
    Reached(run);
    var s := After(INITIAL, run);
    FlattenOrdered(s.reports.cycles, s.reports.blocks, |s.reports.cycles|);
    forall c: nat, k: Kind
      ensures EndEvent(k, c) in s.reports.ends + Todo(s.disp) <==>
                c in s.reports.blocks
                && if k == Audio then s.reports.cycles[c - 1].audio else s.reports.cycles[c - 1].video
    {
      FlattenMembers(s.reports.cycles, s.reports.blocks, k, c);
    }
  }

  /** Read off the callbacks themselves: nothing is reported twice, cycles never go backwards, video
      comes before audio, and only tracks that the cycle had are reported. */
  lemma EndsAreOrdered(run: seq<Step>)
    requires IsRun(INITIAL, run)
    ensures var r := After(INITIAL, run).reports; Ordered(r.ends) && Genuine(r.ends, r.cycles, |r.cycles|)
  {
    Reached(run);
    var s := After(INITIAL, run);
    FlattenOrdered(s.reports.cycles, s.reports.blocks, |s.reports.cycles|);
    PrefixOrdered(s.reports.ends, Todo(s.disp), s.reports.cycles, |s.reports.cycles|);
  }

  lemma PrefixOrdered(es: seq<EndEvent>, more: seq<EndEvent>, cycles: seq<Tracks>, limit: nat)
    requires limit <= |cycles| && Ordered(es + more) && Genuine(es + more, cycles, limit)
    ensures Ordered(es) && Genuine(es, cycles, limit)
  {
    assert forall i | 0 <= i < |es| :: es[i] == (es + more)[i];
  }

  // ---------------------------------------------------------------- no streamer is lost

  /** Every streamer that was started and has not ended is installed, or is the one sibling that the
      end closure on the dispatcher goroutine is about to stop. */
  lemma NoStreamerIsLost(run: seq<Step>, id: nat)
    requires IsRun(INITIAL, run)
    requires id < |After(INITIAL, run).streamers| && Live(After(INITIAL, run).streamers[id].life)
    ensures var s := After(INITIAL, run);
            Holds(s.f.audio, id) || Holds(s.f.video, id) || SiblingIs(s.disp, id)
  {
    Reached(run);
    var s := After(INITIAL, run);
    assert Accounted(s.streamers[id], id, s.f, s.disp);
  }

  /** Streamer.Stop would wait for ever on a streamer that was never started; no caller does that. */
  lemma StopOnlyWaitsForStarted(run: seq<Step>, id: nat)
    requires IsRun(INITIAL, run)
    requires var s := After(INITIAL, run);
             || (s.mu.Held? && s.mu.at == AtStopAudio && Holds(s.f.audio, id))
             || (s.mu.Held? && s.mu.at == AtStopVideo && Holds(s.f.video, id))
             || SiblingIs(s.disp, id)
    ensures var s := After(INITIAL, run); id < |s.streamers| && Started(s.streamers[id].life)
  {
    Reached(run);
  }

  predicate WasStarted(s: State, id: nat) { id < |s.streamers| && Started(s.streamers[id].life) }

  lemma NoStartAfterStopHeld(s: State, h: HeldStep, id: nat)
    requires MirrorInv(s) && CallsInv(s) && s.flags.stopped && CanHeld(s, h)
    requires WasStarted(DoHeld(s, h), id)
    ensures WasStarted(s, id)
  {
    assert s.mu.job.PcJob? || s.mu.job.StopJob? || h.CheckClosed?;
    assert h.CheckClosed? || h.StopAudio? || h.StopVideo? || h.CloseStreams? || h.ClearCall? || h.Leave?;
  }

  lemma NoStartAfterStopStep(s: State, step: Step, id: nat)
    requires Inv(s) && s.flags.stopped && Enabled(s, step) && WasStarted(Apply(s, step), id)
    ensures WasStarted(s, id)
  {
    match step
    case Call(op, c) =>
    case Lock(op, l) =>
    case Inside(h) => NoStartAfterStopHeld(s, h, id);
    case End(i, e) =>
    case Disp(d) =>
  }

  lemma StoppedByHolder(s: State, h: HeldStep)
    requires s.flags.stopped && CanHeld(s, h)
    ensures DoHeld(s, h).flags.stopped
  {
  }

  lemma StoppedByLock(s: State, op: nat, l: LockStep)
    requires s.flags.stopped && CanLock(s, op, l)
    ensures DoLock(s, op, l).flags.stopped
  {
  }

  lemma StoppedForGood(s: State, step: Step)
    requires s.flags.stopped && Enabled(s, step)
    ensures Apply(s, step).flags.stopped
  {
    match step
    case Call(op, c) =>
    case Lock(op, l) => StoppedByLock(s, op, l);
    case Inside(h) => StoppedByHolder(s, h);
    case End(i, e) =>
    case Disp(d) =>
  }

  /** Once Stop has released the lock nothing starts a streamer any more, whatever was in flight. */
  lemma {:induction false} NothingStartsAfterStop(s: State, run: seq<Step>, id: nat)
    requires Inv(s) && s.flags.stopped && IsRun(s, run)
    requires WasStarted(After(s, run), id)
    ensures WasStarted(s, id)
    decreases |run|
  {
    if run != [] {
      StepKeepsInv(s, run[0]);
      StoppedForGood(s, run[0]);
      NothingStartsAfterStop(Apply(s, run[0]), run[1..], id);
      NoStartAfterStopStep(s, run[0], id);
    }
  }

  // ---------------------------------------------------------------- cycles and their streamers

  /** Whenever the lock is free the fields hold all of the newest cycle's streamers or none of them,
      and each of them follows the pause flag. */
  lemma InstalledTogether(run: seq<Step>)
    requires IsRun(INITIAL, run) && After(INITIAL, run).mu.Free?
    ensures var s := After(INITIAL, run);
            && Whole(s.f)
            && (s.f.audio.Some? ==> IsOn(s.streamers, s.f.audio.value.id, Audio, |s.reports.cycles|))
            && (s.f.video.Some? ==> IsOn(s.streamers, s.f.video.value.id, Video, |s.reports.cycles|))
  {
    Reached(run);
  }

  lemma GatesFollowPause(run: seq<Step>)
    requires IsRun(INITIAL, run) && After(INITIAL, run).mu.Free?
    ensures var f := After(INITIAL, run).f;
            && (f.audio.Some? ==> f.audio.value.gate == f.paused)
            && (f.video.Some? ==> f.video.value.gate == f.paused)
  {
    Reached(run);
  }

  /** The installed audio streamer is muted exactly as the call is, in every run in which no
      installation came after a change of the mute flag that its snapshot had missed. */
  lemma MuteFollowsCall(run: seq<Step>)
    requires IsRun(INITIAL, run) && After(INITIAL, run).mu.Free? && !After(INITIAL, run).mutes.raced
    ensures var f := After(INITIAL, run).f; f.audio.Some? ==> f.audio.value.mute == f.muted
  {
    Reached(run);
  }

  /** An installation finds the audio streamer's flag right exactly when the mute flag has changed an
      even number of times since SetSource looked at it. */
  lemma MuteAtInstallExactly(run: seq<Step>)
    requires IsRun(INITIAL, run) && CanHeld(After(INITIAL, run), InstallFields)
    requires After(INITIAL, run).mu.job.p.audio.Some?
    ensures var s := After(INITIAL, run);
            var f := DoHeld(s, InstallFields).f;
            && f.audio.Some? && s.mu.job.p.toggles <= s.mutes.toggles
            && (f.audio.value.mute == f.muted <==> (s.mutes.toggles - s.mu.job.p.toggles) % 2 == 0)
  {
    Reached(run);
    var s := After(INITIAL, run);
    assert CallsInv(s);
    assert CarriedOk(s.mu, s.streamers, s.mutes);
  }

  predicate Unmuted(slot: Option<Installed>) { slot.Some? ==> !slot.value.mute }

  /** No video streamer is muted, installed or on its way. */
  predicate VideoUnmuted(f: Fields, ops: map<nat, Op>, mu: Mutex) {
    && Unmuted(f.video)
    && (forall op {:trigger ops[op]} | op in ops && ops[op].SourceWaiting? :: Unmuted(ops[op].p.video))
    && (mu.Held? && mu.job.InstallJob? ==> Unmuted(mu.job.p.video))
  }

  lemma CallKeepsVideo(s: State, op: nat, c: CallStep)
    requires VideoUnmuted(s.f, s.ops, s.mu) && CanCall(s, op, c)
    ensures var t := DoCall(s, op, c); VideoUnmuted(t.f, t.ops, t.mu)
  {
  }

  lemma LockKeepsVideo(s: State, op: nat, l: LockStep)
    requires VideoUnmuted(s.f, s.ops, s.mu) && CanLock(s, op, l)
    ensures var t := DoLock(s, op, l); VideoUnmuted(t.f, t.ops, t.mu)
  {
  }

  lemma HeldKeepsVideo(s: State, h: HeldStep)
    requires VideoUnmuted(s.f, s.ops, s.mu) && CanHeld(s, h)
    ensures var t := DoHeld(s, h); VideoUnmuted(t.f, t.ops, t.mu)
  {
  }

  lemma {:induction false} RunKeepsUnmuted(s: State, run: seq<Step>)
    requires VideoUnmuted(s.f, s.ops, s.mu) && IsRun(s, run)
    ensures VideoUnmuted(After(s, run).f, After(s, run).ops, After(s, run).mu)
    decreases |run|
  {
    if run != [] {
      match run[0] {
        case Call(op, c) => CallKeepsVideo(s, op, c);
        case Lock(op, l) => LockKeepsVideo(s, op, l);
        case Inside(h) => HeldKeepsVideo(s, h);
        case End(_, _) =>
        case Disp(_) =>
      }
      RunKeepsUnmuted(Apply(s, run[0]), run[1..]);
    }
  }

  /** Muting a call mutes its audio only: no run ever installs or leaves a muted video streamer. */
  lemma VideoIsNeverMuted(run: seq<Step>)
    requires IsRun(INITIAL, run) && After(INITIAL, run).f.video.Some?
    ensures !After(INITIAL, run).f.video.value.mute
  {
    RunKeepsUnmuted(INITIAL, run);
  }

  /** Does this end closure take the installed streamers of another cycle down? */
  predicate TakesDownLaterCycle(s: State)
    requires CanDisp(s, DispEnd)
  {
    && s.streamers[s.disp.id].cycle < |s.reports.cycles|
    && !NoStreamers(s.f)
    && NoStreamers(DoDisp(s, DispEnd).f)
  }

  /** The stale check fails to protect a later cycle exactly when that cycle is still going and has
      no streamer of the kind that ended. */
  lemma StaleEndExactly(run: seq<Step>)
    requires IsRun(INITIAL, run) && CanDisp(After(INITIAL, run), DispEnd)
    ensures var s := After(INITIAL, run);
            var r := s.streamers[s.disp.id];
            TakesDownLaterCycle(s) <==>
            && r.cycle < |s.reports.cycles|
            && !s.f.endedOnce
            && (if r.kind == Audio then s.f.audio.None? && s.f.video.Some? else s.f.video.None? && s.f.audio.Some?)
  {
    Reached(run);
  }

  predicate Uniform(cycles: seq<Tracks>) {
    forall i, j | 0 <= i < |cycles| && 0 <= j < |cycles| :: cycles[i] == cycles[j]
  }

  /** When all cycles have had the same tracks, the end event of an earlier cycle leaves the
      installed streamers as they are. */
  lemma StaleEndHarmless(run: seq<Step>)
    requires IsRun(INITIAL, run) && CanDisp(After(INITIAL, run), DispEnd)
    requires var s := After(INITIAL, run);
             Uniform(s.reports.cycles) && s.streamers[s.disp.id].cycle < |s.reports.cycles|
    ensures var s := After(INITIAL, run);
            DoDisp(s, DispEnd).f.audio == s.f.audio && DoDisp(s, DispEnd).f.video == s.f.video
  {
    Reached(run);
    var s := After(INITIAL, run);
    var r := s.streamers[s.disp.id];
    assert RecordOk(r, s.disp.id, s.reports.cycles, s.f, Arming(s.mu));
    assert s.reports.cycles[r.cycle - 1] == s.reports.cycles[|s.reports.cycles| - 1];
  }

  // ---------------------------------------------------------------- OnUpgrade

  /** Until Stop, whenever the lock is free, the state last submitted to OnUpgrade (initially all false) says
      of the call that it is muted exactly if it is, and that it is paused, in both senses, exactly if it is
      muted or paused. */
  lemma UpgradesMirrorTheCall(run: seq<Step>)
    requires IsRun(INITIAL, run) && !After(INITIAL, run).flags.stopped && After(INITIAL, run).mu.Free?
    ensures var s := After(INITIAL, run);
            var last := if s.upgrades == [] then MediaState(false, false, false, false)
                        else s.upgrades[|s.upgrades| - 1].state;
            && last.muted == s.f.muted
            && last.paused == (s.f.muted || s.f.paused)
            && last.presentationPaused == (s.f.muted || s.f.paused)
  {
    Reached(run);
  }

  /** No submission repeats the state its own critical section started from. */
  lemma UpgradesAreChanges(run: seq<Step>, i: nat)
    requires IsRun(INITIAL, run) && i < |After(INITIAL, run).upgrades|
    ensures var u := After(INITIAL, run).upgrades[i]; u.before != u.state
  {
    Reached(run);
  }
}
