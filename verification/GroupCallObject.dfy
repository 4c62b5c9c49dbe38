/** The call object and its critical sections (instances/group_call.go), each run under the lock
    without interference and proved against the value-level functions that the transition system is
    made of. Source opening is an input: whether it succeeds and which tracks are playable. */
module GroupCallObject {
  import opened Options
  import opened GroupCallFields

  /** What the call sees of a streamer. */
  class Streamer {
    const id: nat
    var gate: bool
    var mute: bool
    var started: bool
    var joined: bool
    var msSent: nat

    constructor (id: nat, mute: bool)
      ensures this.id == id && this.mute == mute && !gate && !started && !joined && msSent == 0
    {
      this.id, this.mute, gate, started, joined, msSent := id, mute, false, false, false, 0;
    }

    method Start()
      requires !started
      modifies this`started
      ensures started
    {
      started := true;
    }

    /** A new streamer starts with its gate closed when the call is paused. */
    method StartGated(paused: bool)
      requires !started
      modifies this`started, this`gate
      ensures started && gate == (old(gate) || paused)
    {
      if paused {
        gate := true;
      }
      Start();
    }

    /** Blocks until the streamer's goroutine has exited, so it must have been started. */
    method Stop()
      requires started
      modifies this`joined
      ensures joined
    {
      joined := true;
    }
  }

  function Slot(s: Streamer?): Option<Installed>
    reads s
  {
    if s == null then None else Some(Installed(s.id, s.gate, s.mute))
  }

  function Sent(s: Streamer?): nat
    reads s
  {
    if s == null then 0 else s.msSent
  }

  function Both(a: Streamer?, v: Streamer?): set<Streamer> {
    (if a == null then {} else {a}) + (if v == null then {} else {v})
  }

  class GroupCall {
    var src: Option<Source>
    var streams: Option<nat>
    var audioStr: Streamer?
    var videoStr: Streamer?
    var paused: bool
    var muted: bool
    var endedOnce: bool
    var hadAudio: bool
    var hadVideo: bool
    var closed: bool
    var resumeMs: nat
    var submitted: seq<MediaState>

    ghost function Streamers(): set<Streamer>
      reads this
    {
      Both(audioStr, videoStr)
    }

    ghost predicate Valid()
      reads this, audioStr, videoStr
    {
      && (audioStr != null ==> audioStr.started)
      && (videoStr != null ==> videoStr.started)
      && (audioStr != null && videoStr != null ==> audioStr != videoStr)
    }

    function F(): Fields
      reads this, audioStr, videoStr
    {
      Fields(src, streams, Slot(audioStr), Slot(videoStr), paused, muted, endedOnce, hadAudio, hadVideo)
    }

    /** ElapsedMs: the seek offset plus what the audio (else the video) streamer has sent. */
    function Elapsed(): nat
      reads this, audioStr, videoStr
    {
      resumeMs + Sent(if audioStr != null then audioStr else videoStr)
    }

    constructor ()
      ensures Valid() && F() == NEW_CALL && !closed && resumeMs == 0 && submitted == []
    {
      src, streams, audioStr, videoStr := None, None, null, null;
      paused, muted, endedOnce, hadAudio, hadVideo, closed := false, false, false, false, false, false;
      resumeMs, submitted := 0, [];
    }

    method FireUpgradeIfChangedLocked(prev: MediaState)
      modifies this`submitted
      ensures submitted == old(submitted) + Announced(F(), prev)
    {
      var cur := CurrentState(F());
      if prev != cur {
        submitted := submitted + [cur];
      }
    }

    method StopStreamersLocked()
      requires Valid()
      modifies this`audioStr, this`videoStr, this`streams, Streamers()`joined
      ensures Valid() && F() == DropStreamers(old(F()))
      ensures audioStr == null && videoStr == null && streams == None
      ensures old(audioStr) != null ==> old(audioStr).joined
      ensures old(videoStr) != null ==> old(videoStr).joined
    {
      if audioStr != null {
        audioStr.Stop();
        audioStr := null;
      }
      if videoStr != null {
        videoStr.Stop();
        videoStr := null;
      }
      if streams.Some? {
        streams := None;
      }
    }

    /** Start what SetSource has just put into the fields, audio first. */
    method StartInstalled()
      requires audioStr != null ==> !audioStr.started && audioStr != videoStr
      requires videoStr != null ==> !videoStr.started
      modifies Streamers()`started, Streamers()`gate
      ensures Valid()
      ensures F() == old(F()).(audio := StartGate(old(F()).audio, paused), video := StartGate(old(F()).video, paused))
    {
      if audioStr != null {
        audioStr.StartGated(paused);
      }
      if videoStr != null {
        videoStr.StartGated(paused);
      }
    }

    method InstallLocked(source: Source, handle: nat, a: Streamer?, v: Streamer?)
      modifies this`src, this`resumeMs, this`streams, this`audioStr, this`videoStr, this`endedOnce
      modifies this`hadAudio, this`hadVideo
      ensures F() == Install(old(F()), source, handle, Slot(a), Slot(v))
      ensures src == Some(source) && streams == Some(handle) && audioStr == a && videoStr == v && resumeMs == 0
      ensures !endedOnce && hadAudio == (a != null) && hadVideo == (v != null)
    {
      src, resumeMs, streams := Some(source), 0, Some(handle);
      audioStr, videoStr := a, v;
      endedOnce, hadAudio, hadVideo := false, a != null, v != null;
    }

    /** SetSource from the second check of `closed` on; `a` and `v` are what the prepare phase made. */
    method SetSourceLocked(source: Source, handle: nat, a: Streamer?, v: Streamer?) returns (ok: bool)
      requires Valid() && (a != null || v != null)
      requires a != null ==> !a.started && a != v
      requires v != null ==> !v.started
      modifies this, Streamers()`joined, Both(a, v)`started, Both(a, v)`gate
      ensures Valid() && ok == !old(closed) && submitted == old(submitted) && closed == old(closed)
      ensures F() == if ok then Switched(old(F()), source, handle, old(Slot(a)), old(Slot(v))) else old(F())
      ensures resumeMs == if ok then 0 else old(resumeMs)
      ensures ok ==>
                && src == Some(source) && streams == Some(handle) && audioStr == a && videoStr == v
                && paused == old(paused) && muted == old(muted)
                && !endedOnce && hadAudio == (a != null) && hadVideo == (v != null)
      ensures ok && a != null ==> a.started && a.gate == (old(a.gate) || paused)
      ensures ok && v != null ==> v.started && v.gate == (old(v.gate) || paused)
      ensures ok && old(audioStr) != null ==> old(audioStr).joined
      ensures ok && old(videoStr) != null ==> old(videoStr).joined
    {
      if closed {
        return false;
      }
      StopStreamersLocked();
      InstallLocked(source, handle, a, v);
      StartInstalled();
      ok := true;
    }

    method StartLocked(reopened: Option<nat>, a: bool, v: bool, n: nat) returns (ok: bool)
      requires Valid() && audioStr == null && videoStr == null
      modifies this
      ensures Valid() && F() == Restarted(old(F()), reopened, a, v, n)
      ensures ok == (old(src).None? || (reopened.Some? && (a || v)))
      ensures closed == old(closed) && resumeMs == old(resumeMs) && submitted == old(submitted)
      ensures src == old(src) && paused == old(paused) && muted == old(muted)
      ensures src.None? || reopened.None? ==>
                && audioStr == null && videoStr == null && streams == old(streams)
                && endedOnce == old(endedOnce) && hadAudio == old(hadAudio) && hadVideo == old(hadVideo)
      ensures src.Some? && reopened.Some? ==>
                && (audioStr != null <==> a) && (videoStr != null <==> v)
                && streams == (if a || v then reopened else None)
                && (a || v ==> !endedOnce && hadAudio == a && hadVideo == v)
                && (!a && !v ==> endedOnce == old(endedOnce) && hadAudio == old(hadAudio) && hadVideo == old(hadVideo))
      ensures audioStr != null ==> fresh(audioStr) && audioStr.started
      ensures audioStr != null ==> audioStr.gate == paused && audioStr.mute == muted
      ensures videoStr != null ==> fresh(videoStr) && videoStr.started && videoStr.gate == paused && !videoStr.mute
      ensures (audioStr != null ==> audioStr.msSent == 0) && (videoStr != null ==> videoStr.msSent == 0)
    {
      if src.None? {
        return true;
      }
      if reopened.None? {
        return false;
      }
      streams := reopened;
      if a {
        var s := new Streamer(n, muted);
        s.StartGated(paused);
        audioStr := s;
      }
      if v {
        var s := new Streamer(if a then n + 1 else n, false);
        s.StartGated(paused);
        videoStr := s;
      }
      if !a && !v {
        streams := None;
        return false;
      }
      endedOnce, hadAudio, hadVideo := false, a, v;
      ok := true;
    }

    method Pause() returns (changed: bool)
      requires Valid()
      modifies this`paused, this`submitted, Streamers()`gate
      ensures Valid() && changed == (!closed && !old(paused))
      ensures F() == if changed then SetPaused(old(F()), true) else old(F())
      ensures paused == (old(paused) || !closed)
      ensures audioStr != null ==> audioStr.gate == (if changed then true else old(audioStr.gate))
      ensures videoStr != null ==> videoStr.gate == (if changed then true else old(videoStr.gate))
      ensures submitted == old(submitted) +
                if changed && !muted then [MediaState(false, true, videoStr == null, true)] else []
    {
      if closed || paused {
        return false;
      }
      var prev := CurrentState(F());
      paused := true;
      if audioStr != null {
        audioStr.gate := true;
      }
      if videoStr != null {
        videoStr.gate := true;
      }
      FireUpgradeIfChangedLocked(prev);
      changed := true;
    }

    method Resume(reopened: Option<nat>, a: bool, v: bool, n: nat) returns (changed: bool, ok: bool)
      requires Valid()
      modifies this, Streamers()`gate
      ensures Valid() && changed == (!old(closed) && old(paused))
      ensures F() == if !changed then old(F())
                     else if MustReopen(old(F())) then Restarted(SetPaused(old(F()), false), reopened, a, v, n)
                     else SetPaused(old(F()), false)
      ensures paused == (old(paused) && closed) && muted == old(muted) && src == old(src)
      ensures closed == old(closed) && resumeMs == old(resumeMs)
      ensures old(audioStr) != null || old(videoStr) != null ==> audioStr == old(audioStr) && videoStr == old(videoStr)
      ensures old(audioStr) != null ==> audioStr.gate == (if changed then false else old(audioStr.gate))
      ensures old(videoStr) != null ==> videoStr.gate == (if changed then false else old(videoStr.gate))
      ensures changed && old(audioStr) == null && old(videoStr) == null && src.Some? ==>
                && ok == (reopened.Some? && (a || v))
                && (audioStr != null <==> reopened.Some? && a) && (videoStr != null <==> reopened.Some? && v)
                && (audioStr != null ==> audioStr.started && !audioStr.gate && audioStr.mute == muted)
                && (videoStr != null ==> videoStr.started && !videoStr.gate && !videoStr.mute)
      ensures submitted == old(submitted) +
                if changed && (!muted || (videoStr == null) != (old(videoStr) == null))
                then [MediaState(muted, muted, videoStr == null, muted)] else []
    {
      if closed || !paused {
        return false, !closed;
      }
      var prev := CurrentState(F());
      paused := false;
      ok := true;
      if audioStr != null || videoStr != null {
        if audioStr != null {
          audioStr.gate := false;
        }
        if videoStr != null {
          videoStr.gate := false;
        }
      } else if src.Some? {
        ok := StartLocked(reopened, a, v, n);
      }
      FireUpgradeIfChangedLocked(prev);
      changed := true;
    }

    /** Mute and Unmute. */
    method SetMute(on: bool) returns (changed: bool)
      requires Valid()
      modifies this`muted, this`submitted, Streamers()`mute
      ensures Valid() && changed == (!closed && old(muted) != on)
      ensures F() == if changed then SetMuted(old(F()), on) else old(F())
      ensures muted == if changed then on else old(muted)
      ensures audioStr != null ==> audioStr.mute == (if changed then on else old(audioStr.mute))
      ensures videoStr != null ==> videoStr.mute == old(videoStr.mute)
      ensures submitted == old(submitted) +
                if changed then [MediaState(on, on || paused, videoStr == null, on || paused)] else []
    {
      if closed || muted == on {
        return false;
      }
      var prev := CurrentState(F());
      muted := on;
      if audioStr != null {
        audioStr.mute := on;
      }
      FireUpgradeIfChangedLocked(prev);
      changed := true;
    }

    /** A seek that is made moves the elapsed time by exactly `delta`, even when the source then fails
        to open; a seek to before the start stops the streamers and leaves the offset alone. */
    method SeekBy(delta: int, reopened: Option<nat>, a: bool, v: bool, n: nat) returns (sought: bool)
      requires Valid()
      modifies this, Streamers()`joined
      ensures Valid() && submitted == old(submitted) && closed == old(closed)
      ensures sought == (!old(closed) && old(src).Some? && old(src).value.seekable && delta != 0)
      ensures !sought ==> F() == old(F()) && resumeMs == old(resumeMs) && Elapsed() == old(Elapsed())
      ensures sought && old(Elapsed()) + delta < 0 ==>
                && F() == DropStreamers(old(F())) && Elapsed() == old(resumeMs)
                && audioStr == null && videoStr == null && streams == None && resumeMs == old(resumeMs)
      ensures sought && old(Elapsed()) + delta >= 0 ==>
                && F() == Restarted(DropStreamers(old(F())), reopened, a, v, n) && Elapsed() == old(Elapsed()) + delta
                && (audioStr != null <==> reopened.Some? && a) && (videoStr != null <==> reopened.Some? && v)
                && resumeMs == delta + old(resumeMs) + (if old(audioStr) != null then old(audioStr.msSent)
                                                        else if old(videoStr) != null then old(videoStr.msSent) else 0)
      ensures src == old(src) && paused == old(paused) && muted == old(muted)
      ensures sought && old(audioStr) != null ==> old(audioStr).joined
      ensures sought && old(videoStr) != null ==> old(videoStr).joined
    {
      if closed || src.None? || !src.value.seekable || delta == 0 {
        return false;
      }
      sought := true;
      var streamerMs := if audioStr != null then audioStr.msSent else if videoStr != null then videoStr.msSent else 0;
      var target := resumeMs + streamerMs + delta;
      if target < 0 {
        StopStreamersLocked();
        return;
      }
      StopStreamersLocked();
      resumeMs := target;
      var _ := StartLocked(reopened, a, v, n);
    }

    method Stop() returns (first: bool)
      requires Valid()
      modifies this, Streamers()`joined
      ensures Valid() && closed && first == !old(closed) && submitted == old(submitted)
      ensures F() == if first then Cleared(old(F())) else old(F())
      ensures first ==>
                && Elapsed() == 0 && audioStr == null && videoStr == null && streams == None && src == None
                && !paused && !muted && resumeMs == 0
      ensures first && old(audioStr) != null ==> old(audioStr).joined
      ensures first && old(videoStr) != null ==> old(videoStr).joined
    {
      if closed {
        return false;
      }
      closed := true;
      StopStreamersLocked();
      src, resumeMs, paused, muted := None, 0, false, false;
      first := true;
    }

    /** The end closure's critical section for streamer `str` of kind `k`: whether it reports, and the
        sibling that it must stop after releasing the lock. */
    method HandleStreamerEnd(k: Kind, str: Streamer) returns (fired: bool, sibling: Streamer?)
      requires Valid()
      requires k == Audio && audioStr != null && audioStr.id == str.id ==> audioStr == str
      requires k == Video && videoStr != null && videoStr.id == str.id ==> videoStr == str
      modifies this`endedOnce, this`audioStr, this`videoStr
      ensures Valid()
      ensures HandleEnd(old(F()), k, str.id)
           == EndResult(F(), fired, if sibling == null then None else Some(sibling.id))
      ensures sibling != null ==> sibling.started
      ensures fired <==>
                && !old(endedOnce)
                && (k == Audio ==> old(audioStr) == null || old(audioStr) == str)
                && (k == Video ==> old(videoStr) == null || old(videoStr) == str)
      ensures fired ==>
                && endedOnce && audioStr == null && videoStr == null
                && sibling == (if k == Video then old(audioStr) else old(videoStr))
      ensures !fired ==>
                endedOnce == old(endedOnce) && audioStr == old(audioStr) && videoStr == old(videoStr) && sibling == null
    {
      var isStale := (k == Audio && audioStr != null && audioStr != str)
                  || (k == Video && videoStr != null && videoStr != str);
      if isStale || endedOnce {
        return false, null;
      }
      endedOnce := true;
      sibling := if k == Video then audioStr else videoStr;
      audioStr, videoStr := null, null;
      fired := true;
    }

    /** The dispatched cleanup after the connection has failed or closed. */
    method ConnectionLost()
      requires Valid()
      modifies this`audioStr, this`videoStr, this`streams, this`submitted, Streamers()`joined
      ensures Valid() && F() == DropStreamers(old(F()))
      ensures audioStr == null && videoStr == null && streams == None
      ensures submitted == old(submitted) +
                if old(videoStr) == null then [] else [MediaState(muted, muted || paused, true, muted || paused)]
      ensures old(audioStr) != null ==> old(audioStr).joined
      ensures old(videoStr) != null ==> old(videoStr).joined
    {
      var prev := CurrentState(F());
      StopStreamersLocked();
      FireUpgradeIfChangedLocked(prev);
    }

    method ElapsedMs() returns (ms: nat)
      ensures ms == Elapsed()
      ensures audioStr != null ==> ms == resumeMs + audioStr.msSent
      ensures audioStr == null && videoStr != null ==> ms == resumeMs + videoStr.msSent
      ensures audioStr == null && videoStr == null ==> ms == resumeMs
    {
      ms := resumeMs;
      if audioStr != null {
        ms := ms + audioStr.msSent;
      } else if videoStr != null {
        ms := ms + videoStr.msSent;
      }
    }

    method State() returns (state: MediaState)
      ensures state == CurrentState(F())
      ensures state == MediaState(muted, muted || paused, videoStr == null, muted || paused)
    {
      var silent := muted || paused;
      state := MediaState(muted, silent, videoStr == null, silent);
    }
  }
}
