/** The fields of a group call that its mutex protects (instances/group_call.go), as a value,
    and what each critical section makes of them.

    A streamer is known by its number; the pause gate and the mute flag of an installed streamer
    are kept with the field that points to it, because only the call's own methods set them. */
module GroupCallFields {
  import opened Options

  datatype Kind = Audio | Video

  datatype MediaState = MediaState(muted: bool, paused: bool, videoStopped: bool, presentationPaused: bool)

  datatype Source = Source(seekable: bool)

  datatype Installed = Installed(id: nat, gate: bool, mute: bool)

  datatype Fields = Fields(
    src: Option<Source>,
    streams: Option<nat>,
    audio: Option<Installed>,
    video: Option<Installed>,
    paused: bool,
    muted: bool,
    endedOnce: bool,
    hadAudio: bool,
    hadVideo: bool)

  const NEW_CALL := Fields(None, None, None, None, false, false, false, false, false)

  /** Does the field `slot` point to streamer `id`? */
  predicate Holds(slot: Option<Installed>, id: int) {
    slot.Some? && slot.value.id == id
  }

  function IdOf(slot: Option<Installed>): Option<nat> {
    if slot.Some? then Some(slot.value.id) else None
  }

  function CurrentState(f: Fields): MediaState {
    var silent := f.muted || f.paused;
    MediaState(f.muted, silent, f.video.None?, silent)
  }

  function Gated(slot: Option<Installed>, p: bool): Option<Installed> {
    if slot.Some? then Some(slot.value.(gate := p)) else None
  }

  function MutedAs(slot: Option<Installed>, m: bool): Option<Installed> {
    if slot.Some? then Some(slot.value.(mute := m)) else None
  }

  /** Pause, and the first half of Resume: the flag and the gates of the installed streamers. */
  function SetPaused(f: Fields, p: bool): Fields {
    f.(paused := p, audio := Gated(f.audio, p), video := Gated(f.video, p))
  }

  function SetMuted(f: Fields, m: bool): Fields {
    f.(muted := m, audio := MutedAs(f.audio, m))
  }

  /** SetSource's installation, up to but not including the start of the streamers. */
  function Install(f: Fields, src: Source, handle: nat, a: Option<Installed>, v: Option<Installed>): Fields {
    f.(src := Some(src), streams := Some(handle), audio := a, video := v,
       endedOnce := false, hadAudio := a.Some?, hadVideo := v.Some?)
  }

  /** An installed streamer is started with its gate closed exactly when the call is paused. */
  function StartGate(slot: Option<Installed>, paused: bool): Option<Installed> {
    if slot.Some? && paused then Some(slot.value.(gate := true)) else slot
  }

  /** The end of startLocked: give up when neither track is playable, else arm the end guard. */
  function Arm(f: Fields, a: bool, v: bool): Fields {
    if !a && !v then f.(streams := None)
    else f.(endedOnce := false, hadAudio := a, hadVideo := v)
  }

  function DropStreamers(f: Fields): Fields {
    f.(audio := None, video := None, streams := None)
  }

  /** What Stop leaves behind. */
  function Cleared(f: Fields): Fields {
    DropStreamers(f).(src := None, paused := false, muted := false)
  }

  /** SetSource's whole critical section on an open call. */
  function Switched(f: Fields, src: Source, handle: nat, a: Option<Installed>, v: Option<Installed>): Fields {
    var g := Install(DropStreamers(f), src, handle, a, v);
    g.(audio := StartGate(a, f.paused), video := StartGate(v, f.paused))
  }

  /** startLocked: `reopened` is the new handle if the source opens, `a` and `v` say which tracks are
      playable, and the new streamers are numbered from `n`. */
  function Restarted(f: Fields, reopened: Option<nat>, a: bool, v: bool, n: nat): Fields {
    if f.src.None? || reopened.None? then f
    else
      Arm(f.(streams := reopened,
             audio := if a then Some(Installed(n, f.paused, f.muted)) else f.audio,
             video := if v then Some(Installed(if a then n + 1 else n, f.paused, false)) else f.video), a, v)
  }

  /** Resume opens the source again when no streamer is installed. */
  predicate MustReopen(f: Fields) { f.paused && f.audio.None? && f.video.None? && f.src.Some? }

  /** What fireUpgradeIfChangedLocked submits in state `f` when the section started in state `prev`. */
  function Announced(f: Fields, prev: MediaState): seq<MediaState> {
    if CurrentState(f) == prev then [] else [CurrentState(f)]
  }

  /** The guard of the end closure: has the streamer that ended been replaced by another? */
  predicate Stale(f: Fields, k: Kind, id: nat) {
    || (k == Audio && f.audio.Some? && f.audio.value.id != id)
    || (k == Video && f.video.Some? && f.video.value.id != id)
  }

  datatype EndResult = EndResult(fields: Fields, fired: bool, sibling: Option<nat>)

  /** The critical section of the end closure for streamer `id` of kind `k`. */
  function HandleEnd(f: Fields, k: Kind, id: nat): EndResult {
    if Stale(f, k, id) || f.endedOnce then EndResult(f, false, None)
    else EndResult(f.(endedOnce := true, audio := None, video := None), true,
                   if k == Video then IdOf(f.audio) else IdOf(f.video))
  }
}
