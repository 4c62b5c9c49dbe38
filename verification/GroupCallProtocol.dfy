/** The group-call lifecycle as a transition system (instances/group_call.go).

    Any number of API calls are in flight; a call is known by a number and `ops` says how far it
    has come before or after its critical section. The critical sections that other goroutines can
    watch (they block in Streamer.Stop, open a source, or start a streamer) are run one step at a
    time while `mu` is held; the others touch nothing that can be seen without the lock and are one
    step. Streamers end on their own goroutines; closures wait in the dispatcher's queue, which may
    drop any of them, and are run one at a time by the dispatcher's goroutine. */
module GroupCallProtocol {
  import opened Options
  import opened GroupCallFields

  /** The life of a streamer's goroutine. `Exiting` is after the end callback has returned and
      before the `done` channel is closed. */
  datatype Life = Prepared(op: nat) | Running | SawOpen | Submitting | Exiting | Done

  datatype Streamer = Streamer(kind: Kind, cycle: nat, life: Life)

  /** What SetSource carries to its critical section; `toggles` is the number of changes of the
      mute flag at the moment it was snapshotted. */
  datatype Prep = Prep(src: Source, handle: nat, audio: Option<Installed>, video: Option<Installed>, toggles: nat)

  datatype Op =
    | SourceEntered(src: Source)
    | SourceOpening(src: Source, muted: bool, toggles: nat)
    | SourceWaiting(p: Prep)
    | PauseEntered
    | ResumeEntered
    | MuteEntered(on: bool)
    | SeekEntered
    | StopEntered
    | InLock
    | ClearingSwitching

  datatype Job = InstallJob(p: Prep) | ResumeJob | SeekJob(underflow: bool) | StopJob | PcJob

  datatype Point = AtCheck | AtSwitch | AtStopAudio | AtStopVideo | AtClose | AtInstall | AtStartAudio | AtStartVideo
                 | AtOpen | AtMakeAudio | AtMakeVideo | AtArm | AtClear | AtLeave

  /** Who holds the call's mutex (`None` is the dispatcher goroutine), where it is, and the media
      state it found on entry. */
  datatype Mutex = Free | Held(op: Option<nat>, job: Job, at: Point, prev: MediaState)

  datatype Closure = EndClosure(id: nat) | PcClosure | UpgradeClosure(state: MediaState)

  datatype EndEvent = EndEvent(kind: Kind, cycle: nat)

  datatype Disp =
    | Idle
    | EndAtClosed(id: nat)
    | EndAtSwitching(id: nat)
    | EndAtLock(id: nat)
    | EndStopping(sibling: Option<nat>, todo: seq<EndEvent>)
    | EndFiring(todo: seq<EndEvent>)
    | PcWaiting
    | PcHolding

  datatype Tracks = Tracks(audio: bool, video: bool)

  datatype Upgrade = Upgrade(before: MediaState, state: MediaState)

  datatype Flags = Flags(closed: bool, switching: bool, stopped: bool)

  /** The source handles opened so far, and those still open. */
  datatype Handles = Handles(next: nat, open: set<nat>)

  /** History: the tracks of every source cycle that was armed, the cycles whose end was reported,
      and the OnStreamEnd callbacks made. */
  datatype Reports = Reports(cycles: seq<Tracks>, blocks: seq<nat>, ends: seq<EndEvent>)

  /** History: how often the mute flag changed, and whether some installation found that it had. */
  datatype Mutes = Mutes(toggles: nat, raced: bool)

  datatype State = State(
    f: Fields,
    flags: Flags,
    mu: Mutex,
    ops: map<nat, Op>,
    streamers: seq<Streamer>,
    files: Handles,
    queue: seq<Closure>,
    disp: Disp,
    reports: Reports,
    upgrades: seq<Upgrade>,
    mutes: Mutes)

  const INITIAL := State(NEW_CALL, Flags(false, false, false), Free, map[], [], Handles(0, {}), [], Idle,
                         Reports([], [], []), [], Mutes(0, false))

  /** API calls outside the lock. */
  datatype CallStep =
    | Enter(what: Op)
    | EnterStop
    | Snapshot
    | OpenFail
    | OpenOk(a: bool, v: bool)
    | GateFail
    | ClearSwitching

  /** API calls that take the lock; Pause, Mute and Unmute are all of their critical section. */
  datatype LockStep =
    | LockInstall
    | LockSeek(zero: bool, underflow: bool)
    | LockStop
    | DoPause
    | DoMute
    | DoResume

  /** Steps of the holder of the lock. */
  datatype HeldStep =
    | CheckClosed
    | SetSwitching
    | StopAudio
    | StopVideo
    | CloseStreams
    | InstallFields
    | StartAudio
    | StartVideo
    | ReopenFail
    | ReopenOk
    | MakeAudio(ok: bool)
    | MakeVideo(ok: bool)
    | ArmCycle
    | ClearCall
    | Leave

  /** Steps of a streamer's goroutine after its loop has ended, on its own or because it was
      stopped: handleStreamerEnd, then the exit of the goroutine. */
  datatype EndStep = EndReadClosed | EndReadSwitching | EndSubmit | EndExit

  /** Submissions from outside, losses in the queue, and the dispatcher's goroutine. */
  datatype DispStep =
    | PcFailed
    | DropClosure(at: nat)
    | Take
    | DispReadClosed
    | DispReadSwitching
    | DispEnd
    | DispStopSibling
    | DispFire
    | PcLock

  datatype Step = Call(op: nat, call: CallStep) | Lock(op: nat, lock: LockStep) | Inside(held: HeldStep)
                | End(id: nat, end: EndStep) | Disp(disp: DispStep)

  // ---------------------------------------------------------------- API calls outside the lock

  predicate IsEntry(o: Op) {
    o.SourceEntered? || o.PauseEntered? || o.ResumeEntered? || o.MuteEntered? || o.SeekEntered?
  }

  predicate CanCall(s: State, op: nat, c: CallStep) {
    match c
    case Enter(what) => op !in s.ops && IsEntry(what) && !s.flags.closed
    case EnterStop => op !in s.ops && !s.flags.closed
    case Snapshot => op in s.ops && s.ops[op].SourceEntered? && s.mu.Free?
    case OpenFail => op in s.ops && s.ops[op].SourceOpening?
    case OpenOk(a, v) => op in s.ops && s.ops[op].SourceOpening? && (a || v)
    case GateFail => op in s.ops && s.ops[op].SourceWaiting?
    case ClearSwitching => op in s.ops && s.ops[op].ClearingSwitching?
  }

  function Finish(s: State, op: nat): State {
    s.(ops := s.ops - {op})
  }

  function NewStreamer(want: bool, id: nat, mute: bool): Option<Installed> {
    if want then Some(Installed(id, false, mute)) else None
  }

  /** The end of the prepare phase: the audio streamer, then the video streamer, neither started. */
  function OpenSource(s: State, op: nat, o: Op, a: bool, v: bool): State
    requires o.SourceOpening?
  {
    var n := |s.streamers|;
    var p := Prep(o.src, s.files.next, NewStreamer(a, n, o.muted), NewStreamer(v, if a then n + 1 else n, false),
                  o.toggles);
    s.(streamers := s.streamers + (if a then [Streamer(Audio, 0, Prepared(op))] else [])
                                + (if v then [Streamer(Video, 0, Prepared(op))] else []),
       files := Handles(s.files.next + 1, s.files.open + {s.files.next}),
       ops := s.ops[op := SourceWaiting(p)])
  }

  function Closed(files: Handles, h: Option<nat>): Handles {
    if h.Some? then files.(open := files.open - {h.value}) else files
  }

  function DoCall(s: State, op: nat, c: CallStep): State
    requires CanCall(s, op, c)
  {
    match c
    case Enter(what) => s.(ops := s.ops[op := what])
    case EnterStop => s.(flags := s.flags.(closed := true), ops := s.ops[op := StopEntered])
    case Snapshot => s.(ops := s.ops[op := SourceOpening(s.ops[op].src, s.f.muted, s.mutes.toggles)])
    case OpenFail => Finish(s, op)
    case OpenOk(a, v) => OpenSource(s, op, s.ops[op], a, v)
    case GateFail => Finish(s, op).(files := Closed(s.files, Some(s.ops[op].p.handle)))
    case ClearSwitching => Finish(s, op).(flags := s.flags.(switching := false))
  }

  // ---------------------------------------------------------------- API calls that take the lock

  predicate CanLock(s: State, op: nat, l: LockStep) {
    && s.mu.Free?
    && op in s.ops
    && match l
       case LockInstall => s.ops[op].SourceWaiting?
       case LockSeek(_, _) => s.ops[op].SeekEntered?
       case LockStop => s.ops[op].StopEntered?
       case DoPause => s.ops[op].PauseEntered?
       case DoMute => s.ops[op].MuteEntered?
       case DoResume => s.ops[op].ResumeEntered?
  }

  function Acquire(s: State, op: nat, job: Job, at: Point): State {
    s.(mu := Held(Some(op), job, at, CurrentState(s.f)), ops := s.ops[op := InLock])
  }

  /** fireUpgradeIfChangedLocked. */
  function FireUpgrade(s: State, prev: MediaState): State {
    var cur := CurrentState(s.f);
    s.(queue := if prev == cur then s.queue else s.queue + [UpgradeClosure(cur)],
       upgrades := if prev == cur then s.upgrades else s.upgrades + [Upgrade(prev, cur)])
  }

  function PauseCall(s: State): State {
    if s.f.paused then s else FireUpgrade(s.(f := SetPaused(s.f, true)), CurrentState(s.f))
  }

  function MuteCall(s: State, on: bool): State {
    if s.f.muted == on then s
    else FireUpgrade(s.(f := SetMuted(s.f, on), mutes := s.mutes.(toggles := s.mutes.toggles + 1)), CurrentState(s.f))
  }

  function ResumeCall(s: State, op: nat): State {
    if !s.f.paused then Finish(s, op)
    else if MustReopen(s.f) then Acquire(s, op, ResumeJob, AtOpen).(f := SetPaused(s.f, false))
    else FireUpgrade(Finish(s, op).(f := SetPaused(s.f, false)), CurrentState(s.f))
  }

  function SeekCall(s: State, op: nat, zero: bool, underflow: bool): State {
    if s.f.src.None? || !s.f.src.value.seekable || zero then Finish(s, op)
    else Acquire(s, op, SeekJob(underflow), if underflow then AtStopAudio else AtSwitch)
  }

  function DoLock(s: State, op: nat, l: LockStep): State
    requires CanLock(s, op, l)
  {
    match l
    case LockInstall => Acquire(s, op, InstallJob(s.ops[op].p), AtCheck)
    case LockSeek(zero, underflow) => SeekCall(s, op, zero, underflow)
    case LockStop => Acquire(s, op, StopJob, AtStopAudio)
    case DoPause => PauseCall(Finish(s, op))
    case DoMute => MuteCall(Finish(s, op), s.ops[op].on)
    case DoResume => ResumeCall(s, op)
  }

  // ---------------------------------------------------------------- the holder of the lock

  predicate IsLife(streamers: seq<Streamer>, id: nat, l: Life) { id < |streamers| && streamers[id].life == l }

  /** Streamer.Stop has returned, or there is nothing to stop. */
  predicate Joined(s: State, id: Option<nat>) {
    id.Some? ==> IsLife(s.streamers, id.value, Done)
  }

  predicate CanHeld(s: State, h: HeldStep) {
    && s.mu.Held?
    && match h
       case CheckClosed => s.mu.at == AtCheck && s.mu.job.InstallJob? && s.mu.op.Some?
       case SetSwitching => s.mu.at == AtSwitch
       case StopAudio => s.mu.at == AtStopAudio && Joined(s, IdOf(s.f.audio))
       case StopVideo => s.mu.at == AtStopVideo && Joined(s, IdOf(s.f.video))
       case CloseStreams => s.mu.at == AtClose && (s.mu.job == SeekJob(true) ==> s.mu.op.Some?)
       case InstallFields => s.mu.at == AtInstall && s.mu.job.InstallJob?
       case StartAudio => s.mu.at == AtStartAudio
       case StartVideo => s.mu.at == AtStartVideo
       case ReopenFail => s.mu.at == AtOpen
       case ReopenOk => s.mu.at == AtOpen
       case MakeAudio(_) => s.mu.at == AtMakeAudio
       case MakeVideo(_) => s.mu.at == AtMakeVideo
       case ArmCycle => s.mu.at == AtArm
       case ClearCall => s.mu.at == AtClear && s.mu.op.Some?
       case Leave => s.mu.at == AtLeave && (s.mu.op.Some? <==> !s.mu.job.PcJob?)
  }

  function Goto(s: State, at: Point): State
    requires s.mu.Held?
  {
    s.(mu := s.mu.(at := at))
  }

  function AbortInstall(s: State): State
    requires s.mu.Held? && s.mu.job.InstallJob? && s.mu.op.Some?
  {
    Finish(s, s.mu.op.value).(mu := Free, files := Closed(s.files, Some(s.mu.job.p.handle)))
  }

  function AfterClose(job: Job): Point {
    match job
    case InstallJob(_) => AtInstall
    case SeekJob(_) => AtOpen
    case StopJob => AtClear
    case _ => AtLeave
  }

  function CloseCall(s: State): State
    requires s.mu.Held? && (s.mu.job == SeekJob(true) ==> s.mu.op.Some?)
  {
    var t := s.(f := s.f.(streams := None), files := Closed(s.files, s.f.streams));
    if s.mu.job == SeekJob(true) then Finish(t, s.mu.op.value).(mu := Free) else Goto(t, AfterClose(s.mu.job))
  }

  function InCycle(streamers: seq<Streamer>, slot: Option<Installed>, cycle: nat): seq<Streamer> {
    if slot.Some? && slot.value.id < |streamers|
    then streamers[slot.value.id := streamers[slot.value.id].(cycle := cycle)]
    else streamers
  }

  function InstallCall(s: State): State
    requires s.mu.Held? && s.mu.job.InstallJob?
  {
    var p := s.mu.job.p;
    var n := |s.reports.cycles| + 1;
    Goto(s, AtStartAudio).(
      f := Install(s.f, p.src, p.handle, p.audio, p.video),
      reports := s.reports.(cycles := s.reports.cycles + [Tracks(p.audio.Some?, p.video.Some?)]),
      streamers := InCycle(InCycle(s.streamers, p.audio, n), p.video, n),
      mutes := s.mutes.(raced := s.mutes.raced || p.toggles != s.mutes.toggles))
  }

  function Begin(streamers: seq<Streamer>, slot: Option<Installed>): seq<Streamer> {
    if slot.Some? && slot.value.id < |streamers|
    then streamers[slot.value.id := streamers[slot.value.id].(life := Running)]
    else streamers
  }

  function Make(s: State, k: Kind, ok: bool): State {
    var n := |s.streamers|;
    s.(streamers := if ok then s.streamers + [Streamer(k, |s.reports.cycles| + 1, Running)] else s.streamers,
       f := s.f.(audio := if ok && k == Audio then Some(Installed(n, s.f.paused, s.f.muted)) else s.f.audio,
                 video := if ok && k == Video then Some(Installed(n, s.f.paused, false)) else s.f.video))
  }

  function ReopenCall(s: State): State
    requires s.mu.Held?
  {
    Goto(s, AtMakeAudio).(f := s.f.(streams := Some(s.files.next)),
                          files := Handles(s.files.next + 1, s.files.open + {s.files.next}))
  }

  function ArmCall(s: State): State
    requires s.mu.Held?
  {
    var a, v := s.f.audio.Some?, s.f.video.Some?;
    Goto(s, AtLeave).(
      f := Arm(s.f, a, v),
      reports := if a || v then s.reports.(cycles := s.reports.cycles + [Tracks(a, v)]) else s.reports,
      files := if a || v then s.files else Closed(s.files, s.f.streams))
  }

  function ClearTheCall(s: State): State
    requires s.mu.Held? && s.mu.op.Some?
  {
    Finish(s, s.mu.op.value).(f := Cleared(s.f), mu := Free, flags := s.flags.(stopped := true),
                              mutes := if s.f.muted then s.mutes.(toggles := s.mutes.toggles + 1) else s.mutes)
  }

  function LeaveCall(s: State): State
    requires s.mu.Held? && (s.mu.op.Some? <==> !s.mu.job.PcJob?)
  {
    var t := if s.mu.job.PcJob? || s.mu.job.ResumeJob? then FireUpgrade(s, s.mu.prev) else s;
    t.(mu := Free,
       disp := if s.mu.job.PcJob? then Idle else s.disp,
       ops := match s.mu.job
         case PcJob => s.ops
         case ResumeJob => s.ops - {s.mu.op.value}
         case _ => s.ops[s.mu.op.value := ClearingSwitching])
  }

  function DoHeld(s: State, h: HeldStep): State
    requires CanHeld(s, h)
  {
    match h
    case CheckClosed => if s.flags.closed then AbortInstall(s) else Goto(s, AtSwitch)
    case SetSwitching => Goto(s, AtStopAudio).(flags := s.flags.(switching := true))
    case StopAudio => Goto(s, AtStopVideo).(f := s.f.(audio := None))
    case StopVideo => Goto(s, AtClose).(f := s.f.(video := None))
    case CloseStreams => CloseCall(s)
    case InstallFields => InstallCall(s)
    case StartAudio =>
      Goto(s, AtStartVideo).(f := s.f.(audio := StartGate(s.f.audio, s.f.paused)),
                             streamers := Begin(s.streamers, s.f.audio))
    case StartVideo =>
      Goto(s, AtLeave).(f := s.f.(video := StartGate(s.f.video, s.f.paused)),
                        streamers := Begin(s.streamers, s.f.video))
    case ReopenFail => Goto(s, AtLeave)
    case ReopenOk => ReopenCall(s)
    case MakeAudio(ok) => Goto(Make(s, Audio, ok), AtMakeVideo)
    case MakeVideo(ok) => Goto(Make(s, Video, ok), AtArm)
    case ArmCycle => ArmCall(s)
    case ClearCall => ClearTheCall(s)
    case Leave => LeaveCall(s)
  }

  // ---------------------------------------------------------------- a streamer's goroutine

  predicate CanEnd(s: State, id: nat, e: EndStep) {
    && id < |s.streamers|
    && match e
       case EndReadClosed => s.streamers[id].life == Running
       case EndReadSwitching => s.streamers[id].life == SawOpen
       case EndSubmit => s.streamers[id].life == Submitting
       case EndExit => s.streamers[id].life == Exiting
  }

  function WithLife(s: State, id: nat, l: Life): State
    requires id < |s.streamers|
  {
    s.(streamers := s.streamers[id := s.streamers[id].(life := l)])
  }

  function DoEnd(s: State, id: nat, e: EndStep): State
    requires CanEnd(s, id, e)
  {
    match e
    case EndReadClosed => WithLife(s, id, if s.flags.closed then Exiting else SawOpen)
    case EndReadSwitching => WithLife(s, id, if s.flags.switching then Exiting else Submitting)
    case EndSubmit => WithLife(s, id, Exiting).(queue := s.queue + [EndClosure(id)])
    case EndExit => WithLife(s, id, Done)
  }

  // ---------------------------------------------------------------- the dispatcher

  predicate CanDisp(s: State, d: DispStep) {
    match d
    case PcFailed => true
    case DropClosure(at) => at < |s.queue|
    case Take => s.disp.Idle? && |s.queue| > 0
    case DispReadClosed => s.disp.EndAtClosed?
    case DispReadSwitching => s.disp.EndAtSwitching?
    case DispEnd => s.disp.EndAtLock? && s.mu.Free? && s.disp.id < |s.streamers|
    case DispStopSibling => s.disp.EndStopping? && Joined(s, s.disp.sibling)
    case DispFire => s.disp.EndFiring?
    case PcLock => s.disp.PcWaiting? && s.mu.Free?
  }

  function TakeClosure(s: State): State
    requires |s.queue| > 0
  {
    var t := s.(queue := s.queue[1..]);
    match s.queue[0]
    case EndClosure(id) => t.(disp := EndAtClosed(id))
    case PcClosure => t.(disp := PcWaiting)
    case UpgradeClosure(_) => t
  }

  /** The two callbacks of a cycle's end, in their fixed order. */
  function EventsOf(t: Tracks, cycle: nat): seq<EndEvent> {
    (if t.video then [EndEvent(Video, cycle)] else []) + (if t.audio then [EndEvent(Audio, cycle)] else [])
  }

  /** The end closure's critical section: the report is that of the cycle now current. */
  function EndCall(s: State): State
    requires s.disp.EndAtLock? && s.disp.id < |s.streamers|
  {
    var r := HandleEnd(s.f, s.streamers[s.disp.id].kind, s.disp.id);
    if !r.fired then s.(disp := Idle)
    else
      var cycle := |s.reports.cycles|;
      s.(f := r.fields,
         reports := s.reports.(blocks := s.reports.blocks + [cycle]),
         disp := EndStopping(r.sibling, EventsOf(Tracks(s.f.hadAudio, s.f.hadVideo), cycle)))
  }

  function Fire(s: State): State
    requires s.disp.EndFiring?
  {
    if s.disp.todo == [] then s.(disp := Idle)
    else s.(reports := s.reports.(ends := s.reports.ends + [s.disp.todo[0]]), disp := EndFiring(s.disp.todo[1..]))
  }

  function DoDisp(s: State, d: DispStep): State
    requires CanDisp(s, d)
  {
    match d
    case PcFailed => s.(queue := s.queue + [PcClosure])
    case DropClosure(at) => s.(queue := s.queue[..at] + s.queue[at + 1..])
    case Take => TakeClosure(s)
    case DispReadClosed => s.(disp := if s.flags.closed then Idle else EndAtSwitching(s.disp.id))
    case DispReadSwitching => s.(disp := if s.flags.switching then Idle else EndAtLock(s.disp.id))
    case DispEnd => EndCall(s)
    case DispStopSibling => s.(disp := EndFiring(s.disp.todo))
    case DispFire => Fire(s)
    case PcLock => s.(disp := PcHolding, mu := Held(None, PcJob, AtStopAudio, CurrentState(s.f)))
  }

  // ---------------------------------------------------------------- steps and runs

  predicate Enabled(s: State, step: Step) {
    match step
    case Call(op, c) => CanCall(s, op, c)
    case Lock(op, l) => CanLock(s, op, l)
    case Inside(h) => CanHeld(s, h)
    case End(id, e) => CanEnd(s, id, e)
    case Disp(d) => CanDisp(s, d)
  }

  function Apply(s: State, step: Step): State
    requires Enabled(s, step)
  {
    match step
    case Call(op, c) => DoCall(s, op, c)
    case Lock(op, l) => DoLock(s, op, l)
    case Inside(h) => DoHeld(s, h)
    case End(id, e) => DoEnd(s, id, e)
    case Disp(d) => DoDisp(s, d)
  }

  /** `run` is a run of the system from `s`. */
  predicate IsRun(s: State, run: seq<Step>)
    decreases |run|
  {
    run == [] || (Enabled(s, run[0]) && IsRun(Apply(s, run[0]), run[1..]))
  }

  /** Where a run ends. */
  function After(s: State, run: seq<Step>): State
    requires IsRun(s, run)
    decreases |run|
  {
    if run == [] then s else After(Apply(s, run[0]), run[1..])
  }
}
