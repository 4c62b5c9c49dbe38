/** Which ffmpeg exits an RTMP call reports as stream ends (instances/rtmp_call.go, io/shell_reader.go), over
    every interleaving of its operations, process exits and Stop. A section under the lock that kills the
    running process waits for its reaper, which runs the exit hook first; one that starts a process hooks it
    only afterwards. An operation looks at `closed` before it takes the lock, so its section can still run
    after Stop's. */
module RtmpEnds {
  import opened RtmpCall

  datatype Op = SetSource | Pause | Resume | SeekBy(delta: int) | SetMute(target: bool) | Stop

  /** What a whole section makes of the fields. */
  function Section(f: Fields, op: Op, now: int, ok: bool): Fields
    requires Follows(f, now)
  {
    match op
    case SetSource => Sourced(f, now, ok)
    case Pause => Paused(f, now)
    case Resume => Resumed(f, now, ok)
    case SeekBy(delta) => Sought(f, delta, now, ok)
    case SetMute(target) => f.(muted := target)
    case Stop => Stopped(f)
  }

  /** A seek that does not underflow takes the hook off the process it finds. */
  predicate Silences(f: Fields, op: Op, now: int)
    requires Follows(f, now)
  {
    op.SeekBy? && f.hasSource && Elapsed(f, now) + op.delta >= 0
  }

  /** The section kills the running process. */
  predicate Kills(f: Fields, op: Op) { f.running && (op.SetSource? || op.Pause? || op.SeekBy? || op.Stop?) }

  /** The section starts a process. */
  predicate Starts(f: Fields, op: Op, now: int, ok: bool)
    requires Follows(f, now)
  {
    match op
    case SetSource => !f.paused && ok
    case Resume => f.paused && f.hasSource && ok
    case SeekBy(delta) => !f.paused && ok && Silences(f, op, now)
    case _ => false
  }

  /** A process runs after a section exactly if the section started it or left it alone. */
  lemma RunningExactly(f: Fields, op: Op, now: int, ok: bool)
    requires Valid(f) && Follows(f, now)
    ensures Valid(Section(f, op, now, ok)) && Follows(Section(f, op, now, ok), now)
    ensures Section(f, op, now, ok).running <==> Starts(f, op, now, ok) || (f.running && !Kills(f, op))
  {
  }

  // ---------------------------------------------------------------- runs

  datatype Proc = Proc(alive: bool, hooked: bool)

  /** The holder of the lock waits for the reaper of the process it has killed; has nothing to wait for any
      more; or has started a process that it has not hooked yet. */
  datatype Mutex =
    | Free
    | Killing(op: Op, now: int)
    | Ready(op: Op, now: int)
    | Hooking

  /** What is submitted to the dispatcher. */
  datatype Event = End(p: nat) | Upgrade(state: MediaState)

  /** The process the call points to is always the one started last. `prev` is the media state that the
      holder of the lock found. */
  datatype State = State(f: Fields, closed: bool, mu: Mutex, prev: MediaState, procs: seq<Proc>, events: seq<Event>)

  datatype Step =
    | Enter(op: Op, now: int)
    | Join
    | Proceed(ok: bool)
    | Hook
    | Closes
    | Exits(p: nat)

  const INITIAL := State(NEW_CALL, false, Free, CurrentState(NEW_CALL), [], [])

  predicate LastIsDead(procs: seq<Proc>) { procs == [] || !procs[|procs| - 1].alive }

  predicate Enabled(s: State, step: Step) {
    match step
    case Enter(_, now) => s.mu.Free? && Follows(s.f, now)
    case Join => s.mu.Killing? && LastIsDead(s.procs)
    case Proceed(_) => s.mu.Ready? && Follows(s.f, s.mu.now)
    case Hook => s.mu.Hooking? && s.procs != []
    case Closes => true
    case Exits(p) => p < |s.procs| && s.procs[p].alive
  }

  function HookLast(procs: seq<Proc>, hooked: bool): seq<Proc> {
    if procs == [] then [] else procs[|procs| - 1 := procs[|procs| - 1].(hooked := hooked)]
  }

  /** Pause, Resume, Mute and Unmute submit the new state; a Stop that changes it does not. */
  function Upgrades(op: Op, f: Fields, prev: MediaState): seq<Event> {
    if op.Stop? || CurrentState(f) == prev then [] else [Upgrade(CurrentState(f))]
  }

  function EnterSection(s: State, op: Op, now: int): State
    requires Follows(s.f, now)
  {
    s.(mu := if Kills(s.f, op) then Killing(op, now) else Ready(op, now),
       prev := CurrentState(s.f),
       procs := if Kills(s.f, op) && Silences(s.f, op, now) then HookLast(s.procs, false) else s.procs)
  }

  function ProceedSection(s: State, ok: bool): State
    requires s.mu.Ready? && Follows(s.f, s.mu.now)
  {
    var g := Section(s.f, s.mu.op, s.mu.now, ok);
    var starts := Starts(s.f, s.mu.op, s.mu.now, ok);
    s.(f := g,
       mu := if starts then Hooking else Free,
       procs := if starts then s.procs + [Proc(true, false)] else s.procs,
       events := if starts then s.events else s.events + Upgrades(s.mu.op, g, s.prev))
  }

  /** The code submits nothing for SetSource and SeekBy; their sections leave the media state alone. */
  function HookSection(s: State): State {
    s.(mu := Free, procs := HookLast(s.procs, true),
       events := if CurrentState(s.f) == s.prev then s.events else s.events + [Upgrade(CurrentState(s.f))])
  }

  function Exit(s: State, p: nat): State
    requires p < |s.procs|
  {
    s.(procs := s.procs[p := s.procs[p].(alive := false)],
       events := if s.procs[p].hooked && !s.closed then s.events + [End(p)] else s.events)
  }

  function Apply(s: State, step: Step): State
    requires Enabled(s, step)
  {
    match step
    case Enter(op, now) => EnterSection(s, op, now)
    case Join => s.(mu := Ready(s.mu.op, s.mu.now))
    case Proceed(ok) => ProceedSection(s, ok)
    case Hook => HookSection(s)
    case Closes => s.(closed := true)
    case Exits(p) => Exit(s, p)
  }

  predicate IsRun(s: State, steps: seq<Step>)
    decreases |steps|
  {
    steps == [] || (Enabled(s, steps[0]) && IsRun(Apply(s, steps[0]), steps[1..]))
  }

  function After(s: State, steps: seq<Step>): State
    requires IsRun(s, steps)
    decreases |steps|
  {
    if steps == [] then s else After(Apply(s, steps[0]), steps[1..])
  }

  // ---------------------------------------------------------------- the invariant

  /** The lock is held by a seek that has taken the hook off the process it waits for. */
  predicate Silencing(s: State) {
    s.mu.Killing? && Follows(s.f, s.mu.now) && Silences(s.f, s.mu.op, s.mu.now)
  }

  predicate LockOk(s: State) {
    && (s.mu.Killing? ==> Kills(s.f, s.mu.op) && Follows(s.f, s.mu.now))
    && (s.mu.Ready? ==> Follows(s.f, s.mu.now) && (Kills(s.f, s.mu.op) ==> LastIsDead(s.procs)))
    && (s.mu.Hooking? ==> s.procs != [])
  }

  predicate ProcsOk(s: State) {
    && (forall p {:trigger s.procs[p]} | 0 <= p < |s.procs| :: s.procs[p].alive ==>
          && p == |s.procs| - 1 && s.f.running
          && (s.procs[p].hooked <==> !s.mu.Hooking? && !Silencing(s)))
  }

  predicate EventsOk(s: State) {
    && (forall i {:trigger s.events[i]} | 0 <= i < |s.events| && s.events[i].End? ::
          s.events[i].p < |s.procs| && !s.procs[s.events[i].p].alive)
    && (forall i, j | 0 <= i < j < |s.events| && s.events[i].End? :: s.events[i] != s.events[j])
  }

  predicate Inv(s: State) { Valid(s.f) && LockOk(s) && ProcsOk(s) && EventsOk(s) }

  lemma EnterKeepsInv(s: State, op: Op, now: int)
    requires Inv(s) && Enabled(s, Enter(op, now))
    ensures Inv(EnterSection(s, op, now))
  {
  }

  lemma ProceedKeepsProcs(s: State, ok: bool)
    requires Inv(s) && Enabled(s, Proceed(ok))
    ensures var t := ProceedSection(s, ok); Valid(t.f) && LockOk(t) && ProcsOk(t)
  {
    RunningExactly(s.f, s.mu.op, s.mu.now, ok);
  }

  lemma ProceedKeepsEvents(s: State, ok: bool)
    requires Inv(s) && Enabled(s, Proceed(ok))
    ensures EventsOk(ProceedSection(s, ok))
  {
  }

  lemma HookKeepsInv(s: State)
    requires Inv(s) && Enabled(s, Hook)
    ensures Inv(HookSection(s))
  {
  }

  lemma ExitKeepsInv(s: State, p: nat)
    requires Inv(s) && Enabled(s, Exits(p))
    ensures Inv(Exit(s, p))
  {
  }

  lemma StepKeepsInv(s: State, step: Step)
    requires Inv(s) && Enabled(s, step)
    ensures Inv(Apply(s, step))
  {
    match step
    case Enter(op, now) => EnterKeepsInv(s, op, now);
    case Join =>
    case Proceed(ok) =>
      ProceedKeepsProcs(s, ok);
      ProceedKeepsEvents(s, ok);
    case Hook => HookKeepsInv(s);
    case Closes =>
    case Exits(p) => ExitKeepsInv(s, p);
  }

  lemma {:induction false} RunKeepsInv(s: State, steps: seq<Step>)
    requires Inv(s) && IsRun(s, steps)
    ensures Inv(After(s, steps))
    decreases |steps|
  {
    if steps != [] {
      StepKeepsInv(s, steps[0]);
      RunKeepsInv(Apply(s, steps[0]), steps[1..]);
    }
  }

  // ---------------------------------------------------------------- the state mirror

  /** The state last submitted, all false before the first submission. */
  function LastUpgrade(events: seq<Event>): MediaState {
    if events == [] then MediaState(false, false, false, false)
    else
      var e := events[|events| - 1];
      if e.Upgrade? then e.state else LastUpgrade(events[..|events| - 1])
  }

  function StateOf(f: Fields): MediaState { MediaState(f.muted, f.muted || f.paused, false, f.muted || f.paused) }

  /** The last submission mirrors the call, or, while the lock is held, what its holder found. */
  predicate MirrorOk(s: State) {
    && LastUpgrade(s.events) == (if s.mu.Free? then StateOf(s.f) else s.prev)
    && (s.mu.Killing? || s.mu.Ready? ==> s.prev == StateOf(s.f) && !s.mu.op.Stop?)
  }

  lemma LastUpgradePlus(events: seq<Event>, e: Event)
    ensures LastUpgrade(events + [e]) == if e.Upgrade? then e.state else LastUpgrade(events)
  {
    assert (events + [e])[..|events|] == events;
  }

  lemma StepKeepsMirror(s: State, step: Step)
    requires MirrorOk(s) && Enabled(s, step) && !(step.Enter? && step.op.Stop?)
    ensures MirrorOk(Apply(s, step))
  {
    assert s.events + [] == s.events;
    match step
    case Proceed(ok) => LastUpgradePlus(s.events, Upgrade(StateOf(Section(s.f, s.mu.op, s.mu.now, ok))));
    case Hook => LastUpgradePlus(s.events, Upgrade(StateOf(s.f)));
    case Exits(p) => LastUpgradePlus(s.events, End(p));
    case _ =>
  }

  lemma {:induction false} RunKeepsMirror(s: State, steps: seq<Step>)
    requires MirrorOk(s) && IsRun(s, steps)
    requires forall i | 0 <= i < |steps| :: !(steps[i].Enter? && steps[i].op.Stop?)
    ensures MirrorOk(After(s, steps))
    decreases |steps|
  {
    if steps != [] {
      StepKeepsMirror(s, steps[0]);
      var rest := steps[1..];
      assert forall i | 0 <= i < |rest| :: rest[i] == steps[i + 1];
      RunKeepsMirror(Apply(s, steps[0]), rest);
    }
  }

  /** Until Stop, whenever the lock is free, the state last submitted says of the call that it is muted exactly
      if it is, that it is paused, in both senses, exactly if it is muted or paused, and never that its video
      is stopped. */
  lemma UpgradesMirrorTheCall(steps: seq<Step>)
    requires IsRun(INITIAL, steps) && forall i | 0 <= i < |steps| :: !(steps[i].Enter? && steps[i].op.Stop?)
    requires After(INITIAL, steps).mu.Free?
    ensures var s := After(INITIAL, steps);
            LastUpgrade(s.events)
            == MediaState(s.f.muted, s.f.muted || s.f.paused, false, s.f.muted || s.f.paused)
  {
    RunKeepsMirror(INITIAL, steps);
  }

  /** A state is submitted as a section lets go of the lock, and only then: the state then, exactly if it is
      not the one that the section found when it took the lock, and never by Stop. */
  lemma UpgradesAreChanges(steps: seq<Step>, step: Step, m: MediaState)
    requires IsRun(INITIAL, steps) && Enabled(After(INITIAL, steps), step)
    ensures var s := After(INITIAL, steps);
            var t := Apply(s, step);
            && (t.events == s.events + [Upgrade(m)] <==>
                  && !s.mu.Free? && t.mu.Free? && !(s.mu.Ready? && s.mu.op.Stop?)
                  && m == MediaState(t.f.muted, t.f.muted || t.f.paused, false, t.f.muted || t.f.paused)
                  && m != s.prev)
            && t.prev == if step.Enter? then CurrentState(s.f) else s.prev
  {
    var s := After(INITIAL, steps);
    var t := Apply(s, step);
    if t.events == s.events + [Upgrade(m)] {
      assert t.events[|s.events|] == Upgrade(m);
    }
  }

  // ---------------------------------------------------------------- what holds in every run

  /** At most one process is alive at any time: the one started last, and the call points to it. */
  lemma OneProcessAtMost(steps: seq<Step>, p: nat)
    requires IsRun(INITIAL, steps)
    requires p < |After(INITIAL, steps).procs| && After(INITIAL, steps).procs[p].alive
    ensures var s := After(INITIAL, steps); p == |s.procs| - 1 && s.f.running
  {
    RunKeepsInv(INITIAL, steps);
  }

  /** An exit now would be reported: the call is open, the process is hooked already, and it is not a seek
      that is killing it. */
  predicate Heard(s: State) { !s.closed && !s.mu.Hooking? && !Silencing(s) }

  /** In every run an exit is reported exactly then; so a process that Pause, SetSource or a seek below zero
      kills counts as a stream end, and one that exits before it is hooked does not. */
  lemma ExitReportsExactly(steps: seq<Step>, p: nat)
    requires IsRun(INITIAL, steps) && Enabled(After(INITIAL, steps), Exits(p))
    ensures var s := After(INITIAL, steps);
            Apply(s, Exits(p)).events == s.events + if Heard(s) then [End(p)] else []
  {
    RunKeepsInv(INITIAL, steps);
  }

  lemma {:induction false} RunInit(s: State, steps: seq<Step>)
    requires IsRun(s, steps) && steps != []
    ensures var n := |steps| - 1;
            && IsRun(s, steps[..n])
            && Enabled(After(s, steps[..n]), steps[n])
            && After(s, steps) == Apply(After(s, steps[..n]), steps[n])
    decreases |steps|
  {
    var n := |steps| - 1;
    if n > 0 {
      RunInit(Apply(s, steps[0]), steps[1..]);
      assert steps[1..][..n - 1] == steps[..n][1..];
    } else {
      assert steps[1..] == [] && steps[..0] == [];
    }
  }

  lemma {:induction false} RunPrefix(s: State, steps: seq<Step>, k: nat)
    requires IsRun(s, steps) && k <= |steps|
    ensures IsRun(s, steps[..k])
    decreases |steps|
  {
    if k < |steps| {
      RunInit(s, steps);
      RunPrefix(s, steps[..|steps| - 1], k);
      assert steps[..|steps| - 1][..k] == steps[..k];
    } else {
      assert steps[..k] == steps;
    }
  }

  /** Step `k` of the run is the exit of process `p`, and is heard. */
  predicate HeardAt(steps: seq<Step>, p: nat, k: int) {
    0 <= k < |steps| && steps[k] == Exits(p) && IsRun(INITIAL, steps[..k]) && Heard(After(INITIAL, steps[..k]))
  }

  /** A process is dead exactly if the run has its exit, and its end is among the events exactly if that exit
      was heard; it is there once. */
  lemma {:induction false} ProcessesAreAccountedFor(steps: seq<Step>, p: nat)
    requires IsRun(INITIAL, steps) && p < |After(INITIAL, steps).procs|
    ensures var s := After(INITIAL, steps);
            && (!s.procs[p].alive <==> Exits(p) in steps)
            && (End(p) in s.events <==> exists k :: HeardAt(steps, p, k))
            && (forall i, j | 0 <= i < j < |s.events| && s.events[i].End? :: s.events[i] != s.events[j])
    decreases |steps|
  {
    RunKeepsInv(INITIAL, steps);
    if steps != [] {
      var n := |steps| - 1;
      var init, s := steps[..n], After(INITIAL, steps);
      RunInit(INITIAL, steps);
      RunKeepsInv(INITIAL, init);
      var before := After(INITIAL, init);
      assert steps == init + [steps[n]];
      HeardGrows(steps, p);
      if p < |before.procs| {
        ProcessesAreAccountedFor(init, p);
        AliveStep(before, steps[n], p);
        EventStep(before, steps[n], p);
      } else {
        NewProcess(init, p);
        assert End(p) !in s.events && s.procs[p].alive;
      }
    }
  }

  lemma HeardGrows(steps: seq<Step>, p: nat)
    requires steps != []
    ensures var n := |steps| - 1;
            (exists k :: HeardAt(steps, p, k)) <==> HeardAt(steps, p, n) || exists k :: HeardAt(steps[..n], p, k)
  {
    var n := |steps| - 1;
    forall k | 0 <= k < n
      ensures HeardAt(steps, p, k) <==> HeardAt(steps[..n], p, k)
    {
      assert steps[..n][..k] == steps[..k];
    }
    if exists k :: HeardAt(steps, p, k) {
      var k :| HeardAt(steps, p, k);
      assert k == n || HeardAt(steps[..n], p, k);
    }
    if exists k :: HeardAt(steps[..n], p, k) {
      var k :| HeardAt(steps[..n], p, k);
      assert HeardAt(steps, p, k);
    }
  }

  lemma AliveStep(s: State, step: Step, p: nat)
    requires Enabled(s, step) && p < |s.procs|
    ensures p < |Apply(s, step).procs|
    ensures !Apply(s, step).procs[p].alive <==> !s.procs[p].alive || step == Exits(p)
  {
  }

  lemma EventStep(s: State, step: Step, p: nat)
    requires Inv(s) && Enabled(s, step) && p < |s.procs|
    ensures End(p) in Apply(s, step).events <==> End(p) in s.events || (step == Exits(p) && Heard(s))
  {
  }

  /** A process that has not been started yet has neither exited nor ended. */
  lemma {:induction false} NewProcess(steps: seq<Step>, p: nat)
    requires IsRun(INITIAL, steps) && p >= |After(INITIAL, steps).procs|
    ensures Exits(p) !in steps && End(p) !in After(INITIAL, steps).events
    decreases |steps|
  {
    RunKeepsInv(INITIAL, steps);
    if steps != [] {
      var n := |steps| - 1;
      RunInit(INITIAL, steps);
      NewProcess(steps[..n], p);
      assert steps == steps[..n] + [steps[n]];
    }
  }

  /** When the section of a Pause comes to submit the new state no process is alive any more; whatever end
      there is to report has been submitted before. */
  lemma PauseReportsEndFirst(steps: seq<Step>, ok: bool)
    requires IsRun(INITIAL, steps) && After(INITIAL, steps).mu.Ready? && After(INITIAL, steps).mu.op.Pause?
    ensures var s := After(INITIAL, steps);
            && (forall p | 0 <= p < |s.procs| :: !s.procs[p].alive)
            && Enabled(s, Proceed(ok))
            && Apply(s, Proceed(ok)).mu.Free?
            && Apply(s, Proceed(ok)).events == s.events + Upgrades(Pause, Paused(s.f, s.mu.now), s.prev)
  {
    RunKeepsInv(INITIAL, steps);
  }
}
