/** The RTMP call (instances/rtmp_call.go): one ffmpeg process pushes the source, and the position is
    read off a clock. Times are nanoseconds of a monotone clock, positions are milliseconds.

    The sections under the lock are functions on the fields; the class runs them. Whether ffmpeg can be
    started is an input. */
module RtmpCall {
  import opened Options

  const MS := 1_000_000

  /** time.Since saturates when the call has never started ffmpeg. */
  const SINCE_NEVER := 0x7FFF_FFFF_FFFF_FFFF / MS

  datatype Error = Closed | WrongMode | NoSource | SpawnFailed

  datatype MediaState = MediaState(muted: bool, paused: bool, videoStopped: bool, presentationPaused: bool)

  datatype Fields = Fields(
    startedAt: Option<int>,
    resumeMs: nat,
    running: bool,
    hasSource: bool,
    paused: bool,
    muted: bool)

  const NEW_CALL := Fields(None, 0, false, false, false, false)

  predicate Valid(f: Fields) {
    && (f.running ==> f.hasSource && f.startedAt.Some? && !f.paused)
  }

  /** The clock has not gone back behind the start. */
  predicate Follows(f: Fields, now: int) { f.startedAt.Some? ==> f.startedAt.value <= now }

  function CurrentState(f: Fields): MediaState {
    var silent := f.muted || f.paused;
    MediaState(f.muted, silent, false, silent)
  }

  function SinceStart(f: Fields, now: int): nat
    requires Follows(f, now)
  {
    if f.startedAt.Some? then (now - f.startedAt.value) / MS else SINCE_NEVER
  }

  function Elapsed(f: Fields, now: int): nat
    requires Follows(f, now)
  {
    if f.paused then f.resumeMs else if f.running then SinceStart(f, now) else 0
  }

  // ---------------------------------------------------------------- the sections under the lock

  function Spawned(f: Fields, seekMs: nat, now: int, ok: bool): Fields {
    if f.hasSource && ok then f.(running := true, startedAt := Some(now - seekMs * MS)) else f
  }

  function Sourced(f: Fields, now: int, ok: bool): Fields {
    var g := f.(running := false, hasSource := true, resumeMs := 0);
    if f.paused then g else Spawned(g, 0, now, ok)
  }

  function Paused(f: Fields, now: int): Fields
    requires Follows(f, now)
  {
    if f.paused then f else f.(paused := true, resumeMs := SinceStart(f, now), running := false)
  }

  function Resumed(f: Fields, now: int, ok: bool): Fields {
    if !f.paused then f else Spawned(f.(paused := false), f.resumeMs, now, ok)
  }

  function Sought(f: Fields, delta: int, now: int, ok: bool): Fields
    requires Follows(f, now)
  {
    var target := Elapsed(f, now) + delta;
    if !f.hasSource then f
    else if target < 0 then f.(running := false, resumeMs := 0)
    else
      var g := f.(running := false, resumeMs := target);
      if f.paused then g else Spawned(g, target, now, ok)
  }

  function Stopped(f: Fields): Fields { Fields(f.startedAt, 0, false, false, false, false) }

  function Announced(f: Fields, prev: MediaState): seq<MediaState> {
    if CurrentState(f) == prev then [] else [CurrentState(f)]
  }

  // ---------------------------------------------------------------- the call

  class Process {
    var hooked: bool
    var killed: bool

    constructor ()
      ensures hooked && !killed
    {
      hooked, killed := true, false;
    }
  }

  class RTMPCall {
    var startedAt: Option<int>
    var resumeMs: nat
    var cmd: Process?
    var hasSource: bool
    var paused: bool
    var muted: bool
    var closed: bool
    var submitted: seq<MediaState>

    function F(): Fields
      reads this
    {
      Fields(startedAt, resumeMs, cmd != null, hasSource, paused, muted)
    }

    ghost function Running(): set<Process>
      reads this
    {
      if cmd == null then {} else {cmd}
    }

    /** The state last submitted, all false before the first submission, is that of the call. */
    ghost predicate Mirrored()
      reads this
    {
      MediaState(muted, muted || paused, false, muted || paused)
      == if submitted == [] then MediaState(false, false, false, false) else submitted[|submitted| - 1]
    }

    constructor ()
      ensures F() == NEW_CALL && !closed && submitted == [] && Mirrored()
    {
      startedAt, resumeMs, cmd, hasSource, paused, muted := None, 0, null, false, false, false;
      closed, submitted := false, [];
    }

    method StopFFmpegLocked()
      modifies this`cmd, Running()
      ensures F() == old(F()).(running := false)
      ensures old(cmd) != null ==> old(cmd).killed && old(cmd).hooked == old(cmd.hooked)
    {
      if cmd != null {
        cmd.killed := true;
        cmd := null;
      }
    }

    method SpawnLocked(seekMs: nat, now: int, ok: bool) returns (err: Option<Error>)
      requires cmd == null
      modifies this`cmd, this`startedAt
      ensures F() == Spawned(old(F()), seekMs, now, ok)
      ensures cmd != null ==> fresh(cmd) && cmd.hooked && !cmd.killed
      ensures err == if hasSource && !ok then Some(SpawnFailed) else None
    {
      if !hasSource {
        return None;
      }
      if !ok {
        return Some(SpawnFailed);
      }
      cmd := new Process();
      startedAt := Some(now - seekMs * MS);
      err := None;
    }

    method FireUpgradeIfChangedLocked(prev: MediaState)
      modifies this`submitted
      ensures submitted == old(submitted) + Announced(F(), prev)
      ensures old(submitted) == [] && prev == CurrentState(NEW_CALL) ==> Mirrored()
      ensures old(submitted) != [] && prev == old(submitted)[|old(submitted)| - 1] ==> Mirrored()
    {
      var cur := CurrentState(F());
      if prev == cur {
        return;
      }
      submitted := submitted + [cur];
    }

    /** `pathed` is whether the source has a path ffmpeg can read. The process that was running is killed
        with its exit hook still set. */
    method SetSource(pathed: bool, now: int, ok: bool) returns (err: Option<Error>)
      requires Valid(F())
      modifies this, Running()
      ensures Valid(F()) && closed == old(closed) && submitted == old(submitted)
      ensures closed || !pathed ==> F() == old(F()) && err == Some(if closed then Closed else WrongMode)
      ensures !closed && pathed ==>
                && F() == Sourced(old(F()), now, ok)
                && hasSource && resumeMs == 0 && paused == old(paused) && muted == old(muted)
                && (cmd != null <==> !paused && ok)
                && startedAt == (if cmd != null then Some(now) else old(startedAt))
                && err == (if paused || ok then None else Some(SpawnFailed))
                && (old(cmd) != null ==> old(cmd).killed && old(cmd).hooked == old(cmd.hooked))
    {
      if closed {
        return Some(Closed);
      }
      if !pathed {
        return Some(WrongMode);
      }
      StopFFmpegLocked();
      hasSource, resumeMs := true, 0;
      if paused {
        return None;
      }
      err := SpawnLocked(0, now, ok);
    }

    /** The process is killed with its exit hook still set. */
    method Pause(now: int) returns (changed: bool, err: Option<Error>)
      requires Valid(F()) && Follows(F(), now)
      modifies this, Running()
      ensures Valid(F()) && closed == old(closed) && (old(Mirrored()) ==> Mirrored())
      ensures closed ==> F() == old(F()) && !changed && err == Some(Closed)
      ensures !closed ==>
                && F() == Paused(old(F()), now) && changed == !old(paused) && err == None
                && paused && muted == old(muted) && hasSource == old(hasSource) && startedAt == old(startedAt)
                && (changed ==> cmd == null)
                && resumeMs == (if !changed then old(resumeMs)
                                else if startedAt.Some? then (now - startedAt.value) / MS else SINCE_NEVER)
                && submitted == old(submitted) +
                     (if changed && !muted then [MediaState(false, true, false, true)] else [])
                && (changed && old(cmd) != null ==> old(cmd).killed && old(cmd).hooked == old(cmd.hooked))
    {
      if closed {
        return false, Some(Closed);
      }
      if paused {
        return false, None;
      }
      var prev := CurrentState(F());
      paused := true;
      resumeMs := SinceStart(F(), now);
      StopFFmpegLocked();
      FireUpgradeIfChangedLocked(prev);
      return true, None;
    }

    method Resume(now: int, ok: bool) returns (changed: bool, err: Option<Error>)
      requires Valid(F())
      modifies this
      ensures Valid(F()) && closed == old(closed) && (old(Mirrored()) ==> Mirrored())
      ensures closed ==> F() == old(F()) && !changed && err == Some(Closed)
      ensures !closed ==>
                && F() == Resumed(old(F()), now, ok) && changed == old(paused)
                && !paused && muted == old(muted) && hasSource == old(hasSource) && resumeMs == old(resumeMs)
                && (if changed && hasSource && ok then cmd != null && startedAt == Some(now - resumeMs * MS)
                    else cmd == old(cmd) && startedAt == old(startedAt))
                && err == (if changed && hasSource && !ok then Some(SpawnFailed) else None)
                && submitted == old(submitted) +
                     (if changed && !muted then [MediaState(false, false, false, false)] else [])
    {
      if closed {
        return false, Some(Closed);
      }
      if !paused {
        return false, None;
      }
      var prev := CurrentState(F());
      paused := false;
      err := SpawnLocked(resumeMs, now, ok);
      FireUpgradeIfChangedLocked(prev);
      changed := true;
    }

    /** Mute and Unmute; they do not look at `closed`. */
    method SetMute(target: bool) returns (changed: bool)
      requires Valid(F())
      modifies this`muted, this`submitted
      ensures Valid(F()) && F() == old(F()).(muted := target) && changed == (old(muted) != target)
      ensures submitted == old(submitted) +
                if changed then [MediaState(target, target || paused, false, target || paused)] else []
      ensures old(Mirrored()) ==> Mirrored()
    {
      if muted == target {
        return false;
      }
      var prev := CurrentState(F());
      muted := target;
      FireUpgradeIfChangedLocked(prev);
      changed := true;
    }

    /** Only a seek that does not underflow takes the exit hook off the process it kills. */
    method SeekBy(delta: int, now: int, ok: bool) returns (err: Option<Error>)
      requires Valid(F()) && Follows(F(), now)
      modifies this, Running()
      ensures Valid(F()) && closed == old(closed) && submitted == old(submitted)
      ensures closed ==> F() == old(F()) && err == Some(Closed)
      ensures !closed ==>
                && F() == Sought(old(F()), delta, now, ok)
                && hasSource == old(hasSource) && paused == old(paused) && muted == old(muted)
                && (hasSource ==>
                      var at := if paused then old(resumeMs)
                                else if old(cmd) != null then (now - old(startedAt).value) / MS else 0;
                      && resumeMs == (if at + delta < 0 then 0 else at + delta)
                      && (cmd != null <==> !paused && ok && at + delta >= 0)
                      && startedAt == (if cmd != null then Some(now - resumeMs * MS) else old(startedAt)))
                && err == (if !hasSource then Some(NoSource)
                           else if paused || ok || Elapsed(old(F()), now) + delta < 0 then None else Some(SpawnFailed))
                && (old(cmd) != null ==>
                      && old(cmd).killed
                      && old(cmd).hooked == (old(cmd.hooked) && Elapsed(old(F()), now) + delta < 0))
    {
      if closed {
        return Some(Closed);
      }
      if !hasSource {
        return Some(NoSource);
      }
      var cur := 0;
      if paused {
        cur := resumeMs;
      } else if cmd != null {
        cur := SinceStart(F(), now);
      }
      var target := cur + delta;
      if target < 0 {
        StopFFmpegLocked();
        resumeMs := 0;
        return None;
      }
      if cmd != null {
        cmd.hooked := false;
      }
      StopFFmpegLocked();
      resumeMs := target;
      if paused {
        return None;
      }
      err := SpawnLocked(resumeMs, now, ok);
    }

    method Stop()
      modifies this, Running()
      ensures closed && submitted == old(submitted)
      ensures F() == if old(closed) then old(F()) else Stopped(old(F()))
      ensures !old(closed) ==> cmd == null && !hasSource && resumeMs == 0 && !paused && !muted
      ensures !old(closed) && old(cmd) != null ==> old(cmd).killed && old(cmd).hooked == old(cmd.hooked)
    {
      if closed {
        return;
      }
      closed := true;
      StopFFmpegLocked();
      hasSource, resumeMs, paused, muted := false, 0, false, false;
    }

    method ElapsedMs(now: int) returns (ms: nat)
      requires Follows(F(), now)
      ensures ms == Elapsed(F(), now)
      ensures paused ==> ms == resumeMs
      ensures !paused && cmd == null ==> ms == 0
      ensures !paused && cmd != null && startedAt.Some? ==> ms == (now - startedAt.value) / MS
    {
      if paused {
        return resumeMs;
      }
      if cmd == null {
        return 0;
      }
      ms := SinceStart(F(), now);
    }

    method State() returns (state: MediaState)
      ensures state == CurrentState(F()) && state == MediaState(muted, muted || paused, false, muted || paused)
    {
      var silent := muted || paused;
      state := MediaState(muted, silent, false, silent);
    }
  }
}
