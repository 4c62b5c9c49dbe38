/** When the group call reports an end, and exactly when it does not: what becomes of every streamer's end
    in every run, how far `switching` can be trusted, and when two streamers of a kind run. */
module GroupCallEnds {
  import opened Options
  import opened GroupCallFields
  import opened GroupCallProtocol
  import opened GroupCallInvariant
  import opened GroupCallSteps
  import opened GroupCallTheorems
  import opened GroupCallHistory

  // ---------------------------------------------------------------- what every step keeps

  /** Once a cycle's end has been reported its streamers are no longer installed. */
  predicate OnceOk(f: Fields, mu: Mutex) { f.endedOnce && !Arming(mu) ==> NoStreamers(f) }

  /** A streamer whose end has reached its critical section is not installed any more. */
  predicate HandledOk(f: Fields, handled: set<nat>) {
    forall id | id in handled :: !Holds(f.audio, id) && !Holds(f.video, id)
  }

  ghost predicate GuardInv(s: State, past: Past) { OnceOk(s.f, s.mu) && HandledOk(s.f, past.handled) }

  ghost predicate FullInv(s: State, past: Past) {
    && Inv(s) && EndsInv(s, past) && GuardInv(s, past)
    && SwitchOwned(s.ops, s.mu, s.flags.switching)
    && ClearersOk(s.mu, s.flags.switching, past.clearers)
  }

  lemma HandledAreFinished(s: State, past: Past, id: nat)
    requires EndsInv(s, past) && id in past.handled
    ensures id < |s.streamers| && Finished(s.streamers[id].life)
  {
    assert Settled(past, id);
    assert PlaceOk(s.streamers[id].life, Pending(s.queue, s.disp, id), Settled(past, id));
  }

  lemma CallKeepsGuard(s: State, past: Past, op: nat, c: CallStep)
    requires GuardInv(s, past) && CanCall(s, op, c)
    ensures GuardInv(DoCall(s, op, c), past)
  {
  }

  predicate SameSlots(f: Fields, f': Fields) {
    IdOf(f'.audio) == IdOf(f.audio) && IdOf(f'.video) == IdOf(f.video)
  }

  lemma ResumeKeepsSlots(s: State, op: nat)
    requires CanLock(s, op, DoResume)
    ensures SameSlots(s.f, DoLock(s, op, DoResume).f)
  {
  }

  lemma LockKeepsSlots(s: State, op: nat, l: LockStep)
    requires CanLock(s, op, l)
    ensures SameSlots(s.f, DoLock(s, op, l).f)
  {
    if l.DoResume? {
      ResumeKeepsSlots(s, op);
    }
  }

  lemma LockKeepsOnce(s: State, op: nat, l: LockStep)
    requires OnceOk(s.f, s.mu) && CanLock(s, op, l)
    ensures OnceOk(DoLock(s, op, l).f, DoLock(s, op, l).mu)
  {
  }

  lemma LockKeepsGuard(s: State, past: Past, op: nat, l: LockStep)
    requires GuardInv(s, past) && CanLock(s, op, l)
    ensures GuardInv(DoLock(s, op, l), past)
  {
    LockKeepsOnce(s, op, l);
    LockKeepsSlots(s, op, l);
    var f := DoLock(s, op, l).f;
    assert forall id :: Holds(f.audio, id) ==> Holds(s.f.audio, id);
    assert forall id :: Holds(f.video, id) ==> Holds(s.f.video, id);
  }

  lemma InstallKeepsGuard(s: State, past: Past)
    requires CallsInv(s) && EndsInv(s, past) && GuardInv(s, past) && CanHeld(s, InstallFields)
    ensures GuardInv(DoHeld(s, InstallFields), past)
  {
    assert CarriedOk(s.mu, s.streamers, s.mutes);
    forall id | id in past.handled
      ensures !Holds(DoHeld(s, InstallFields).f.audio, id) && !Holds(DoHeld(s, InstallFields).f.video, id)
    {
      HandledAreFinished(s, past, id);
    }
  }

  lemma MakeKeepsGuard(s: State, past: Past, h: HeldStep)
    requires EndsInv(s, past) && GuardInv(s, past) && CanHeld(s, h) && (h.MakeAudio? || h.MakeVideo?)
    ensures GuardInv(DoHeld(s, h), past)
  {
    forall id | id in past.handled
      ensures !Holds(DoHeld(s, h).f.audio, id) && !Holds(DoHeld(s, h).f.video, id)
    {
      HandledAreFinished(s, past, id);
    }
  }

  lemma ArmKeepsGuard(s: State, past: Past)
    requires GuardInv(s, past) && CanHeld(s, ArmCycle)
    ensures GuardInv(DoHeld(s, ArmCycle), past)
  {
  }

  lemma RestKeepsGuard(s: State, past: Past, h: HeldStep)
    requires GuardInv(s, past) && CanHeld(s, h)
    requires !h.InstallFields? && !h.MakeAudio? && !h.MakeVideo? && !h.ArmCycle?
    ensures GuardInv(DoHeld(s, h), past)
  {
  }

  lemma HeldKeepsGuard(s: State, past: Past, h: HeldStep)
    requires CallsInv(s) && EndsInv(s, past) && GuardInv(s, past) && CanHeld(s, h)
    ensures GuardInv(DoHeld(s, h), past)
  {
    match h
    case InstallFields => InstallKeepsGuard(s, past);
    case MakeAudio(_) => MakeKeepsGuard(s, past, h);
    case MakeVideo(_) => MakeKeepsGuard(s, past, h);
    case ArmCycle => ArmKeepsGuard(s, past);
    case _ => RestKeepsGuard(s, past, h);
  }

  lemma DispKeepsGuard(s: State, past: Past, d: DispStep)
    requires SlotsInv(s) && GuardInv(s, past) && CanDisp(s, d)
    ensures GuardInv(DoDisp(s, d), NoteDisp(s, past, d))
  {
  }

  lemma StepKeepsGuard(s: State, past: Past, step: Step)
    requires CallsInv(s) && SlotsInv(s) && EndsInv(s, past) && GuardInv(s, past) && Enabled(s, step)
    ensures GuardInv(Apply(s, step), Note(s, past, step))
  {
    match step
    case Call(op, c) => CallKeepsGuard(s, past, op, c);
    case Lock(op, l) => LockKeepsGuard(s, past, op, l);
    case Inside(h) => HeldKeepsGuard(s, past, h);
    case End(_, _) =>
    case Disp(d) => DispKeepsGuard(s, past, d);
  }

  lemma StepKeepsAll(s: State, past: Past, step: Step)
    requires FullInv(s, past) && Enabled(s, step)
    ensures FullInv(Apply(s, step), Note(s, past, step))
  {
    StepKeepsInv(s, step);
    StepKeepsEnds(s, past, step);
    StepKeepsGuard(s, past, step);
    StepKeepsOwned(s, step);
    StepKeepsClearers(s, past, step);
  }

  lemma {:induction false} RunKeepsAll(s: State, past: Past, run: seq<Step>)
    requires FullInv(s, past) && IsRun(s, run)
    ensures FullInv(After(s, run), PastAfter(s, past, run))
    decreases |run|
  {
    if run != [] {
      StepKeepsAll(s, past, run[0]);
      RunKeepsAll(Apply(s, run[0]), Note(s, past, run[0]), run[1..]);
    }
  }

  lemma InitialAll()
    ensures FullInv(INITIAL, NOTHING)
  {
    InitialInv();
  }

  lemma ReachedAll(run: seq<Step>)
    requires IsRun(INITIAL, run)
    ensures FullInv(After(INITIAL, run), PastAfter(INITIAL, NOTHING, run))
  {
    InitialAll();
    RunKeepsAll(INITIAL, NOTHING, run);
  }

  // ---------------------------------------------------------------- `switching`

  /** Whenever `switching` is set some call has set it and not yet cleared it. */
  lemma SwitchingIsOwned(run: seq<Step>)
    requires IsRun(INITIAL, run) && After(INITIAL, run).flags.switching
    ensures var s := After(INITIAL, run); exists op :: PastSwitch(s.ops, s.mu, op)
  {
    ReachedAll(run);
  }

  /** The converse fails exactly so: in a section that has set `switching` it is clear if and only if
      another call has cleared it since. */
  lemma SwitchingIsClearExactly(run: seq<Step>)
    requires IsRun(INITIAL, run) && InSwitch(After(INITIAL, run).mu)
    ensures var s, past := After(INITIAL, run), PastAfter(INITIAL, NOTHING, run);
            && s.mu.op.value !in past.clearers
            && (!s.flags.switching <==> past.clearers != {})
  {
    ReachedAll(run);
  }

  // ---------------------------------------------------------------- every end is accounted for

  /** The streamer's end has come and its closure has not reached its critical section, nor will it. */
  predicate LostEnd(past: Past, id: nat) { id in past.missed || id in past.dropped || id in past.turnedAway }

  /** The end of every streamer is in exactly one place once it has come, and in none before. */
  lemma EndsAreAccountedFor(run: seq<Step>, id: nat)
    requires IsRun(INITIAL, run) && id < |After(INITIAL, run).streamers|
    ensures var s, past := After(INITIAL, run), PastAfter(INITIAL, NOTHING, run);
            var pending := Pending(s.queue, s.disp, id);
            && (Finished(s.streamers[id].life) <==> pending || LostEnd(past, id) || id in past.handled)
            && !(pending && LostEnd(past, id)) && !(pending && id in past.handled)
            && !(LostEnd(past, id) && id in past.handled)
  {
    ReachedAll(run);
    var s, past := After(INITIAL, run), PastAfter(INITIAL, NOTHING, run);
    assert PlaceOk(s.streamers[id].life, Pending(s.queue, s.disp, id), Settled(past, id));
  }

  /** While its streamer is installed, an end that has come is still on its way if and only if it read
      neither flag, was not dropped, and was not turned away by the dispatcher. */
  lemma InstalledEndIsPendingExactly(run: seq<Step>, id: nat)
    requires IsRun(INITIAL, run)
    requires var f := After(INITIAL, run).f; Holds(f.audio, id) || Holds(f.video, id)
    requires id < |After(INITIAL, run).streamers| && Finished(After(INITIAL, run).streamers[id].life)
    ensures var s, past := After(INITIAL, run), PastAfter(INITIAL, NOTHING, run);
            Pending(s.queue, s.disp, id) <==> !LostEnd(past, id)
  {
    ReachedAll(run);
    EndsAreAccountedFor(run, id);
  }

  function SlotOf(f: Fields, k: Kind): Option<Installed> { if k == Audio then f.audio else f.video }

  lemma InstalledIsCurrent(s: State, id: nat)
    requires SlotsInv(s) && StreamersInv(s) && s.mu.Free? && id < |s.streamers|
    requires Holds(s.f.audio, id) || Holds(s.f.video, id)
    ensures |s.reports.cycles| > 0
    ensures Holds(SlotOf(s.f, s.streamers[id].kind), id)
  {
    assert RecordOk(s.streamers[id], id, s.reports.cycles, s.f, Arming(s.mu));
  }

  lemma InstalledFires(f: Fields, k: Kind, id: nat)
    requires Holds(SlotOf(f, k), id) && !f.endedOnce
    ensures HandleEnd(f, k, id).fired
  {
  }

  /** When the end of an installed streamer reaches its critical section it is always reported, as the end
      of the newest cycle and of all its tracks. */
  lemma InstalledEndIsReported(run: seq<Step>)
    requires IsRun(INITIAL, run) && CanDisp(After(INITIAL, run), DispEnd)
    requires var s := After(INITIAL, run); Holds(s.f.audio, s.disp.id) || Holds(s.f.video, s.disp.id)
    ensures var s := After(INITIAL, run); ReportsNewest(s, EndCall(s))
  {
    ReachedAll(run);
    ReportedAt(After(INITIAL, run), PastAfter(INITIAL, NOTHING, run));
  }

  /** The newest cycle is reported: the callbacks to come are the video's if it has video, then the audio's
      if it has audio. */
  predicate ReportsNewest(s: State, t: State) {
    var n := |s.reports.cycles|;
    && n > 0 && t.reports.blocks == s.reports.blocks + [n] && t.disp.EndStopping?
    && var tracks := s.reports.cycles[n - 1];
       && (tracks.video && tracks.audio ==> t.disp.todo == [EndEvent(Video, n), EndEvent(Audio, n)])
       && (tracks.video && !tracks.audio ==> t.disp.todo == [EndEvent(Video, n)])
       && (!tracks.video && tracks.audio ==> t.disp.todo == [EndEvent(Audio, n)])
       && (tracks.video || tracks.audio)
  }

  lemma ReportedAt(s: State, past: Past)
    requires SlotsInv(s) && StreamersInv(s) && OrderInv(s) && GuardInv(s, past) && CanDisp(s, DispEnd)
    requires Holds(s.f.audio, s.disp.id) || Holds(s.f.video, s.disp.id)
    ensures ReportsNewest(s, EndCall(s))
  {
    InstalledIsCurrent(s, s.disp.id);
    InstalledFires(s.f, s.streamers[s.disp.id].kind, s.disp.id);
  }

  /** Nothing is left that could still report anything: no closure waits and the dispatcher is idle. */
  predicate Drained(s: State) { s.mu.Free? && s.queue == [] && s.disp.Idle? }

  /** So the end of a streamer has been swallowed exactly if the call has come to rest with the streamer
      still installed. */
  lemma SwallowedExactly(run: seq<Step>, id: nat)
    requires IsRun(INITIAL, run) && Drained(After(INITIAL, run))
    requires id < |After(INITIAL, run).streamers| && Finished(After(INITIAL, run).streamers[id].life)
    ensures var s, past := After(INITIAL, run), PastAfter(INITIAL, NOTHING, run);
            && (id in past.handled <==> !LostEnd(past, id))
            && (Holds(s.f.audio, id) || Holds(s.f.video, id) ==> LostEnd(past, id))
  {
    ReachedAll(run);
    EndsAreAccountedFor(run, id);
  }

  // ---------------------------------------------------------------- two streamers of a kind

  predicate LiveOf(s: State, id: nat, k: Kind) {
    id < |s.streamers| && Live(s.streamers[id].life) && s.streamers[id].kind == k
  }

  /** Two streamers of a kind run at the same time if and only if one is installed and the other is the
      sibling that the end closure has still to stop. */
  lemma TwoRunExactly(run: seq<Step>, i: nat, j: nat, k: Kind)
    requires IsRun(INITIAL, run) && i != j
    ensures var s := After(INITIAL, run);
            LiveOf(s, i, k) && LiveOf(s, j, k) <==>
            && i < |s.streamers| && Live(s.streamers[i].life) && j < |s.streamers| && Live(s.streamers[j].life)
            && s.streamers[i].kind == s.streamers[j].kind
            && (|| (Holds(SlotOf(s.f, k), i) && SiblingIs(s.disp, j))
                || (Holds(SlotOf(s.f, k), j) && SiblingIs(s.disp, i)))
  {
    Reached(run);
    var s := After(INITIAL, run);
    if LiveOf(s, i, k) && LiveOf(s, j, k) {
      assert Accounted(s.streamers[i], i, s.f, s.disp) && Accounted(s.streamers[j], j, s.f, s.disp);
    }
  }

  // ---------------------------------------------------------------- VideoStopped

  /** How often a video streamer has come or gone since a state was last submitted to OnUpgrade. */
  function VideoChanges(s: State, n: nat, run: seq<Step>): nat
    requires IsRun(s, run)
    decreases |run|
  {
    if run == [] then n
    else VideoChanges(Apply(s, run[0]), ChangesAfter(s, n, Apply(s, run[0])), run[1..])
  }

  function ChangesAfter(s: State, n: nat, t: State): nat {
    if t.upgrades != s.upgrades then 0 else if t.f.video.Some? != s.f.video.Some? then n + 1 else n
  }

  /** The VideoStopped last submitted, false before the first submission, is right. */
  predicate Told(s: State) {
    (if s.upgrades == [] then false else s.upgrades[|s.upgrades| - 1].state.videoStopped) == s.f.video.None?
  }

  predicate VideoOk(s: State, n: nat) { Told(s) <==> (s.upgrades != [] <==> n % 2 == 0) }

  predicate Submits(s: State, t: State) {
    t.upgrades == s.upgrades
    || (t.upgrades != [] && t.upgrades[|t.upgrades| - 1].state == CurrentState(t.f))
  }

  lemma HeldSubmits(s: State, h: HeldStep)
    requires CanHeld(s, h)
    ensures Submits(s, DoHeld(s, h))
  {
  }

  lemma LockSubmits(s: State, op: nat, l: LockStep)
    requires CanLock(s, op, l)
    ensures Submits(s, DoLock(s, op, l))
  {
  }

  lemma StepSubmits(s: State, step: Step)
    requires Enabled(s, step)
    ensures Submits(s, Apply(s, step))
  {
    match step
    case Call(_, _) =>
    case Lock(op, l) => LockSubmits(s, op, l);
    case Inside(h) => HeldSubmits(s, h);
    case End(_, _) =>
    case Disp(_) =>
  }

  lemma SubmitsKeepsVideo(s: State, n: nat, t: State)
    requires VideoOk(s, n) && Submits(s, t)
    ensures VideoOk(t, ChangesAfter(s, n, t))
  {
  }

  lemma StepKeepsVideo(s: State, n: nat, step: Step)
    requires VideoOk(s, n) && Enabled(s, step)
    ensures VideoOk(Apply(s, step), ChangesAfter(s, n, Apply(s, step)))
  {
    StepSubmits(s, step);
    SubmitsKeepsVideo(s, n, Apply(s, step));
  }

  lemma {:induction false} RunKeepsVideo(s: State, n: nat, run: seq<Step>)
    requires VideoOk(s, n) && IsRun(s, run)
    ensures VideoOk(After(s, run), VideoChanges(s, n, run))
    decreases |run|
  {
    if run != [] {
      StepKeepsVideo(s, n, run[0]);
      RunKeepsVideo(Apply(s, run[0]), ChangesAfter(s, n, Apply(s, run[0])), run[1..]);
    }
  }

  /** The VideoStopped last submitted is the call's if and only if a video streamer has come or gone an even
      number of times since; before the first submission, an odd number of times, because a new call has
      no video and listeners begin with all false. */
  lemma VideoStoppedExactly(run: seq<Step>)
    requires IsRun(INITIAL, run)
    ensures var s := After(INITIAL, run);
            Told(s) <==> (s.upgrades != [] <==> VideoChanges(INITIAL, 0, run) % 2 == 0)
  {
    RunKeepsVideo(INITIAL, 0, run);
  }

  /** No end is announced by OnUpgrade, also not one that takes the video away. */
  lemma EndIsNotAnnounced(s: State)
    requires CanDisp(s, DispEnd)
    ensures var t := DoDisp(s, DispEnd);
            && t.upgrades == s.upgrades
            && (Told(s) && s.f.video.Some? ==>
                  (Told(t) <==> !HandleEnd(s.f, s.streamers[s.disp.id].kind, s.disp.id).fired))
  {
  }
}
