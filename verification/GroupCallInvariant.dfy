/** What every step of the group-call protocol keeps. The predicates take only the parts of the
    state they speak of, so that a step that leaves those parts alone keeps them for nothing. */
module GroupCallInvariant {
  import opened Options
  import opened GroupCallFields
  import opened GroupCallProtocol

  predicate Started(l: Life) { !l.Prepared? }

  /** Started, and its end callback has not returned yet. */
  predicate Live(l: Life) { l.Running? || l.SawOpen? || l.Submitting? }

  predicate HasKind(t: Tracks, k: Kind) { if k == Audio then t.audio else t.video }

  // ---------------------------------------------------------------- calls in flight

  predicate Odd(n: nat) { n % 2 == 1 }

  /** The mute flag changes with every toggle, and so do its snapshots. */
  predicate SnapshotOk(mute: bool, toggles: nat, m: Mutes) {
    toggles <= m.toggles && mute == Odd(toggles)
  }

  predicate PrepSnapshotOk(p: Prep, m: Mutes) {
    p.audio.Some? ==> SnapshotOk(p.audio.value.mute, p.toggles, m)
  }

  predicate OpSnapshotOk(o: Op, m: Mutes) {
    && (o.SourceOpening? ==> SnapshotOk(o.muted, o.toggles, m))
    && (o.SourceWaiting? ==> PrepSnapshotOk(o.p, m))
  }

  predicate SnapshotsOk(ops: map<nat, Op>, muted: bool, m: Mutes) {
    && muted == Odd(m.toggles)
    && forall op {:trigger ops[op]} | op in ops :: OpSnapshotOk(ops[op], m)
  }

  /** The streamer was made for `slot` by call `op` and has not been started. */
  predicate Unstarted(streamers: seq<Streamer>, slot: Option<Installed>, k: Kind, op: nat) {
    slot.Some? ==>
      && slot.value.id < |streamers|
      && streamers[slot.value.id].kind == k
      && streamers[slot.value.id].life == Prepared(op)
      && !slot.value.gate
  }

  predicate PrepOk(streamers: seq<Streamer>, p: Prep, op: nat) {
    && Unstarted(streamers, p.audio, Audio, op)
    && Unstarted(streamers, p.video, Video, op)
    && (p.audio.Some? || p.video.Some?)
  }

  predicate OpPrepOk(streamers: seq<Streamer>, o: Op, op: nat) {
    o.SourceWaiting? ==> PrepOk(streamers, o.p, op)
  }

  predicate PrepsOk(ops: map<nat, Op>, streamers: seq<Streamer>) {
    forall op {:trigger ops[op]} | op in ops :: OpPrepOk(streamers, ops[op], op)
  }

  predicate OpCallOk(o: Op, op: nat, mu: Mutex, closed: bool) {
    && (o.StopEntered? ==> closed)
    && (o.InLock? ==> mu.Held? && mu.op == Some(op))
  }

  predicate CallsOk(ops: map<nat, Op>, mu: Mutex, closed: bool) {
    forall op {:trigger ops[op]} | op in ops :: OpCallOk(ops[op], op, mu, closed)
  }

  // ---------------------------------------------------------------- the lock

  predicate JobFits(job: Job, at: Point) {
    match at
    case AtCheck => job.InstallJob?
    case AtSwitch => job.InstallJob? || job == SeekJob(false)
    case AtStopAudio => !job.ResumeJob?
    case AtStopVideo => !job.ResumeJob?
    case AtClose => !job.ResumeJob?
    case AtInstall => job.InstallJob?
    case AtStartAudio => job.InstallJob?
    case AtStartVideo => job.InstallJob?
    case AtClear => job.StopJob?
    case AtLeave => !job.StopJob? && job != SeekJob(true)
    case _ => job.ResumeJob? || job == SeekJob(false)
  }

  predicate MutexOk(mu: Mutex, ops: map<nat, Op>, disp: Disp) {
    && (disp.PcHolding? <==> mu.Held? && mu.job.PcJob?)
    && (mu.Held? ==>
          && JobFits(mu.job, mu.at)
          && (mu.op.Some? <==> !mu.job.PcJob?)
          && (mu.op.Some? ==> mu.op.value in ops && ops[mu.op.value].InLock?))
  }

  predicate BeforeInstall(at: Point) {
    at.AtCheck? || at.AtSwitch? || at.AtStopAudio? || at.AtStopVideo? || at.AtClose? || at.AtInstall?
  }

  /** What an installer carries is still good. */
  predicate CarriedOk(mu: Mutex, streamers: seq<Streamer>, m: Mutes) {
    mu.Held? && mu.job.InstallJob? && mu.op.Some? && BeforeInstall(mu.at) ==>
      PrepOk(streamers, mu.job.p, mu.op.value) && PrepSnapshotOk(mu.job.p, m)
  }

  // ---------------------------------------------------------------- the installed streamers

  /** What a field may hold: nothing, a streamer about to be started, or a started streamer of the
      newest cycle (or of the one about to be armed). */
  datatype Phase = Gone | Poised | On(next: bool)

  function AudioPhase(mu: Mutex): Phase {
    if mu.Free? then On(false) else
      match mu.at
      case AtStartAudio => Poised
      case AtMakeVideo => On(true)
      case AtArm => On(true)
      case AtStopVideo => Gone
      case AtClose => Gone
      case AtInstall => Gone
      case AtOpen => Gone
      case AtMakeAudio => Gone
      case AtClear => Gone
      case _ => On(false)
  }

  function VideoPhase(mu: Mutex): Phase {
    if mu.Free? then On(false) else
      match mu.at
      case AtStartAudio => Poised
      case AtStartVideo => Poised
      case AtArm => On(true)
      case AtClose => Gone
      case AtInstall => Gone
      case AtOpen => Gone
      case AtMakeAudio => Gone
      case AtMakeVideo => Gone
      case AtClear => Gone
      case _ => On(false)
  }

  predicate MuteOk(i: Installed, k: Kind, muted: bool, raced: bool) {
    k == Audio && !raced ==> i.mute == muted
  }

  predicate IsOn(streamers: seq<Streamer>, id: nat, k: Kind, cycle: nat) {
    && id < |streamers|
    && Started(streamers[id].life)
    && streamers[id].kind == k
    && streamers[id].cycle == cycle
  }

  predicate SlotOk(slot: Option<Installed>, phase: Phase, k: Kind, op: Option<nat>, streamers: seq<Streamer>,
                   n: nat, paused: bool, muted: bool, raced: bool)
  {
    slot.Some? ==>
      && phase != Gone
      && MuteOk(slot.value, k, muted, raced)
      && (phase.Poised? ==>
            && 1 <= n
            && op.Some?
            && Unstarted(streamers, slot, k, op.value)
            && streamers[slot.value.id].cycle == n)
      && (phase.On? ==>
            && IsOn(streamers, slot.value.id, k, if phase.next then n + 1 else n)
            && slot.value.gate == paused)
  }

  function Holder(mu: Mutex): Option<nat> { if mu.Held? then mu.op else None }

  predicate SlotsOk(f: Fields, mu: Mutex, streamers: seq<Streamer>, n: nat, raced: bool) {
    && SlotOk(f.audio, AudioPhase(mu), Audio, Holder(mu), streamers, n, f.paused, f.muted, raced)
    && SlotOk(f.video, VideoPhase(mu), Video, Holder(mu), streamers, n, f.paused, f.muted, raced)
  }

  predicate NoStreamers(f: Fields) { f.audio.None? && f.video.None? }

  /** The fields hold the newest cycle's streamers, all of them or none. */
  predicate Whole(f: Fields) {
    NoStreamers(f) || (f.audio.Some? == f.hadAudio && f.video.Some? == f.hadVideo)
  }

  predicate WholeNow(f: Fields, mu: Mutex) {
    AudioPhase(mu) != On(true) && !(mu.Held? && mu.at.AtStopVideo?) ==> Whole(f)
  }

  // ---------------------------------------------------------------- streamers, closures, the dispatcher

  predicate Arming(mu: Mutex) { mu.Held? && (mu.at.AtMakeVideo? || mu.at.AtArm?) }

  predicate RecordOk(r: Streamer, id: int, cycles: seq<Tracks>, f: Fields, arming: bool) {
    Started(r.life) ==>
      && 1 <= r.cycle <= |cycles| + 1
      && (r.cycle <= |cycles| ==> HasKind(cycles[r.cycle - 1], r.kind))
      && (r.cycle > |cycles| ==> arming && (Holds(f.audio, id) || Holds(f.video, id)))
  }

  predicate RecordsOk(streamers: seq<Streamer>, cycles: seq<Tracks>, f: Fields, arming: bool) {
    forall id {:trigger streamers[id]} | 0 <= id < |streamers| :: RecordOk(streamers[id], id, cycles, f, arming)
  }

  predicate SiblingIs(d: Disp, id: int) { d.EndStopping? && d.sibling.Some? && d.sibling.value == id }

  predicate Accounted(r: Streamer, id: int, f: Fields, d: Disp) {
    Live(r.life) ==> Holds(f.audio, id) || Holds(f.video, id) || SiblingIs(d, id)
  }

  predicate AllAccounted(streamers: seq<Streamer>, f: Fields, d: Disp) {
    forall id {:trigger streamers[id]} | 0 <= id < |streamers| :: Accounted(streamers[id], id, f, d)
  }

  predicate Ended(streamers: seq<Streamer>, id: nat) {
    id < |streamers| && (streamers[id].life.Exiting? || streamers[id].life.Done?)
  }

  predicate ClosureOk(streamers: seq<Streamer>, c: Closure) { c.EndClosure? ==> Ended(streamers, c.id) }

  predicate QueueOk(queue: seq<Closure>, streamers: seq<Streamer>) {
    forall i {:trigger queue[i]} | 0 <= i < |queue| :: ClosureOk(streamers, queue[i])
  }

  predicate DispOk(disp: Disp, streamers: seq<Streamer>) {
    && (disp.EndAtClosed? || disp.EndAtSwitching? || disp.EndAtLock? ==> Ended(streamers, disp.id))
    && (disp.EndStopping? && disp.sibling.Some? ==>
          disp.sibling.value < |streamers| && Started(streamers[disp.sibling.value].life))
  }

  // ---------------------------------------------------------------- the reports of ended cycles

  function BlockEvents(cycles: seq<Tracks>, cycle: nat): seq<EndEvent> {
    if 1 <= cycle <= |cycles| then EventsOf(cycles[cycle - 1], cycle) else []
  }

  /** The reports of `blocks`, one after the other. */
  function Flatten(cycles: seq<Tracks>, blocks: seq<nat>): seq<EndEvent> {
    if blocks == [] then []
    else Flatten(cycles, blocks[..|blocks| - 1]) + BlockEvents(cycles, blocks[|blocks| - 1])
  }

  function Todo(d: Disp): seq<EndEvent> {
    if d.EndStopping? || d.EndFiring? then d.todo else []
  }

  predicate Increasing(blocks: seq<nat>, limit: nat) {
    && (forall i | 0 <= i < |blocks| :: 1 <= blocks[i] <= limit)
    && (forall i, j | 0 <= i < j < |blocks| :: blocks[i] < blocks[j])
  }

  /** Every callback made or still to be made is in the report of a block, in order. */
  predicate FlatOk(r: Reports, todo: seq<EndEvent>) {
    r.ends + todo == Flatten(r.cycles, r.blocks)
  }

  predicate GuardOk(endedOnce: bool, had: Tracks, r: Reports) {
    && (|r.cycles| > 0 ==> r.cycles[|r.cycles| - 1] == had)
    && (!endedOnce && |r.blocks| > 0 ==> r.blocks[|r.blocks| - 1] < |r.cycles|)
  }

  // ---------------------------------------------------------------- the mirrored state and Stop

  const ALL_FALSE := MediaState(false, false, false, false)

  function LastUpgrade(upgrades: seq<Upgrade>): MediaState {
    if upgrades == [] then ALL_FALSE else upgrades[|upgrades| - 1].state
  }

  predicate Agree(a: MediaState, b: MediaState) {
    a.muted == b.muted && a.paused == b.paused && a.presentationPaused == b.presentationPaused
  }

  predicate MirrorOk(f: Fields, upgrades: seq<Upgrade>, mu: Mutex, stopped: bool) {
    && (!stopped ==> Agree(LastUpgrade(upgrades), if mu.Held? && mu.job.ResumeJob? then mu.prev else CurrentState(f)))
    && (forall i | 0 <= i < |upgrades| :: upgrades[i].before != upgrades[i].state)
  }

  /** After Stop only a PC cleanup, or a SetSource about to see that the call is closed, holds the lock. */
  predicate StopOk(f: Fields, flags: Flags, mu: Mutex) {
    && (mu.Held? && mu.job.StopJob? ==> flags.closed)
    && (flags.stopped ==> flags.closed && f.src.None? && NoStreamers(f))
    && (flags.stopped && mu.Held? ==> mu.job.PcJob? || mu.job.StopJob? || mu.at.AtCheck?)
  }

  predicate CallsInv(s: State) {
    && SnapshotsOk(s.ops, s.f.muted, s.mutes)
    && PrepsOk(s.ops, s.streamers)
    && CallsOk(s.ops, s.mu, s.flags.closed)
    && MutexOk(s.mu, s.ops, s.disp)
    && CarriedOk(s.mu, s.streamers, s.mutes)
  }

  predicate SlotsInv(s: State) {
    && SlotsOk(s.f, s.mu, s.streamers, |s.reports.cycles|, s.mutes.raced)
    && WholeNow(s.f, s.mu)
  }

  predicate StreamersInv(s: State) {
    && RecordsOk(s.streamers, s.reports.cycles, s.f, Arming(s.mu))
    && AllAccounted(s.streamers, s.f, s.disp)
    && QueueOk(s.queue, s.streamers)
    && DispOk(s.disp, s.streamers)
  }

  predicate OrderInv(s: State) {
    && GuardOk(s.f.endedOnce, Tracks(s.f.hadAudio, s.f.hadVideo), s.reports)
    && Increasing(s.reports.blocks, |s.reports.cycles|)
  }

  predicate FlatInv(s: State) {
    FlatOk(s.reports, Todo(s.disp))
  }

  predicate MirrorInv(s: State) {
    MirrorOk(s.f, s.upgrades, s.mu, s.flags.stopped) && StopOk(s.f, s.flags, s.mu)
  }

  predicate Inv(s: State) {
    CallsInv(s) && SlotsInv(s) && StreamersInv(s) && OrderInv(s) && FlatInv(s) && MirrorInv(s)
  }
}
