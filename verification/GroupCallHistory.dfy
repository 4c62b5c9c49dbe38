/** What must be remembered of a run to say when the group call loses an end: which calls cleared
    `switching`, and how far the end of each streamer came. A history is read off the steps of a run; the
    protocol itself does not depend on it. */
module GroupCallHistory {
  import opened Options
  import opened GroupCallFields
  import opened GroupCallProtocol
  import opened GroupCallInvariant
  import opened GroupCallSteps

  /** `clearers` are the calls that have cleared `switching` since it was last set. The others are sets of
      streamers: their end read `closed` or `switching` and was not submitted; their closure was dropped
      from the queue; it read one of the two flags on the dispatcher; it reached its critical section. */
  datatype Past = Past(clearers: set<nat>, missed: set<nat>, dropped: set<nat>, turnedAway: set<nat>, handled: set<nat>)

  const NOTHING := Past({}, {}, {}, {}, {})

  function Note(s: State, past: Past, step: Step): Past
    requires Enabled(s, step)
  {
    match step
    case Call(op, c) => if c.ClearSwitching? then past.(clearers := past.clearers + {op}) else past
    case Lock(_, _) => past
    case Inside(h) => if h.SetSwitching? then past.(clearers := {}) else past
    case End(id, e) =>
      if (e.EndReadClosed? && s.flags.closed) || (e.EndReadSwitching? && s.flags.switching)
      then past.(missed := past.missed + {id}) else past
    case Disp(d) => NoteDisp(s, past, d)
  }

  function NoteDisp(s: State, past: Past, d: DispStep): Past
    requires CanDisp(s, d)
  {
    match d
    case DropClosure(at) =>
      if s.queue[at].EndClosure? then past.(dropped := past.dropped + {s.queue[at].id}) else past
    case DispReadClosed => if s.flags.closed then past.(turnedAway := past.turnedAway + {s.disp.id}) else past
    case DispReadSwitching => if s.flags.switching then past.(turnedAway := past.turnedAway + {s.disp.id}) else past
    case DispEnd => past.(handled := past.handled + {s.disp.id})
    case _ => past
  }

  function PastAfter(s: State, past: Past, run: seq<Step>): Past
    requires IsRun(s, run)
    decreases |run|
  {
    if run == [] then past else PastAfter(Apply(s, run[0]), Note(s, past, run[0]), run[1..])
  }

  // ---------------------------------------------------------------- who has set `switching`

  predicate Switches(job: Job) { job.InstallJob? || job == SeekJob(false) }

  /** The holder of the lock has set `switching` and means it to be set. */
  predicate InSwitch(mu: Mutex) {
    mu.Held? && mu.op.Some? && Switches(mu.job) && !mu.at.AtCheck? && !mu.at.AtSwitch?
  }

  /** Call `op` has set `switching` and not cleared it. */
  predicate PastSwitch(ops: map<nat, Op>, mu: Mutex, op: nat) {
    op in ops && (ops[op].ClearingSwitching? || (ops[op].InLock? && InSwitch(mu) && mu.op == Some(op)))
  }

  ghost predicate SwitchOwned(ops: map<nat, Op>, mu: Mutex, switching: bool) {
    switching ==> exists op :: PastSwitch(ops, mu, op)
  }

  lemma HeldKeepsOwner(s: State, h: HeldStep, op: nat)
    requires CallsInv(s) && CanHeld(s, h) && PastSwitch(s.ops, s.mu, op)
    ensures PastSwitch(DoHeld(s, h).ops, DoHeld(s, h).mu, op)
  {
  }

  lemma LockKeepsOwner(s: State, caller: nat, l: LockStep, op: nat)
    requires CanLock(s, caller, l) && PastSwitch(s.ops, s.mu, op)
    ensures PastSwitch(DoLock(s, caller, l).ops, DoLock(s, caller, l).mu, op)
  {
  }

  lemma CallKeepsOwner(s: State, caller: nat, c: CallStep, op: nat)
    requires CallsInv(s) && CanCall(s, caller, c) && PastSwitch(s.ops, s.mu, op) && !c.ClearSwitching?
    ensures PastSwitch(DoCall(s, caller, c).ops, DoCall(s, caller, c).mu, op)
  {
  }

  lemma DispKeepsOwner(s: State, d: DispStep, op: nat)
    requires CanDisp(s, d) && PastSwitch(s.ops, s.mu, op)
    ensures PastSwitch(DoDisp(s, d).ops, DoDisp(s, d).mu, op)
  {
  }

  lemma SwitchSteps(s: State, step: Step)
    requires Enabled(s, step) && Apply(s, step).flags.switching
    ensures s.flags.switching || step == Inside(SetSwitching)
    ensures !(step.Call? && step.call.ClearSwitching?)
  {
    match step
    case Call(op, c) =>
    case Lock(op, l) => SwitchKeptByLock(s, op, l);
    case Inside(h) =>
      if !h.SetSwitching? {
        SwitchKeptByHolder(s, h);
      }
    case End(_, _) =>
    case Disp(_) =>
  }

  lemma SwitchKeptByLock(s: State, op: nat, l: LockStep)
    requires CanLock(s, op, l)
    ensures DoLock(s, op, l).flags == s.flags
  {
  }

  lemma SwitchKeptByHolder(s: State, h: HeldStep)
    requires CanHeld(s, h) && !h.SetSwitching?
    ensures DoHeld(s, h).flags.switching == s.flags.switching
  {
  }

  lemma StepKeepsOwned(s: State, step: Step)
    requires CallsInv(s) && SwitchOwned(s.ops, s.mu, s.flags.switching) && Enabled(s, step)
    ensures var t := Apply(s, step); SwitchOwned(t.ops, t.mu, t.flags.switching)
  {
    var t := Apply(s, step);
    if t.flags.switching {
      SwitchSteps(s, step);
      if step == Inside(SetSwitching) {
        assert PastSwitch(t.ops, t.mu, s.mu.op.value);
      } else {
        var op :| PastSwitch(s.ops, s.mu, op);
        match step
        case Call(caller, c) => CallKeepsOwner(s, caller, c, op);
        case Lock(caller, l) => LockKeepsOwner(s, caller, l, op);
        case Inside(h) => HeldKeepsOwner(s, h, op);
        case End(_, _) => assert PastSwitch(t.ops, t.mu, op);
        case Disp(d) => DispKeepsOwner(s, d, op);
      }
    }
  }

  /** In a section that has set `switching` it is clear exactly if some other call has cleared it since. */
  predicate ClearersOk(mu: Mutex, switching: bool, clearers: set<nat>) {
    InSwitch(mu) ==> (switching <==> clearers == {}) && mu.op.value !in clearers
  }

  lemma HeldKeepsSection(s: State, h: HeldStep)
    requires CallsInv(s) && CanHeld(s, h) && !h.SetSwitching? && InSwitch(DoHeld(s, h).mu)
    ensures InSwitch(s.mu) && s.mu.op == DoHeld(s, h).mu.op
  {
  }

  lemma LockBeginsNoSection(s: State, op: nat, l: LockStep)
    requires CanLock(s, op, l)
    ensures !InSwitch(DoLock(s, op, l).mu)
  {
  }

  lemma StepKeepsClearers(s: State, past: Past, step: Step)
    requires CallsInv(s) && ClearersOk(s.mu, s.flags.switching, past.clearers) && Enabled(s, step)
    ensures var t := Apply(s, step); ClearersOk(t.mu, t.flags.switching, Note(s, past, step).clearers)
  {
    match step
    case Call(op, c) =>
    case Lock(op, l) => LockBeginsNoSection(s, op, l);
    case Inside(h) =>
      if h.SetSwitching? {
      } else if InSwitch(DoHeld(s, h).mu) {
        HeldKeepsSection(s, h);
        SwitchKeptByHolder(s, h);
      }
    case End(_, _) =>
    case Disp(d) =>
  }

  // ---------------------------------------------------------------- how far each end came

  predicate Finished(l: Life) { l.Exiting? || l.Done? }

  predicate OnDisp(d: Disp, id: nat) { (d.EndAtClosed? || d.EndAtSwitching? || d.EndAtLock?) && d.id == id }

  /** The end closure of the streamer is queued, or the dispatcher has taken it and is before its section. */
  predicate Pending(queue: seq<Closure>, d: Disp, id: nat) { EndClosure(id) in queue || OnDisp(d, id) }

  predicate Settled(past: Past, id: nat) {
    id in past.missed || id in past.dropped || id in past.turnedAway || id in past.handled
  }

  /** Each end that has come is in exactly one place. */
  predicate PlaceOk(l: Life, pending: bool, settled: bool) {
    if Finished(l) then pending != settled else !pending && !settled
  }

  ghost predicate PlacesOk(streamers: seq<Streamer>, queue: seq<Closure>, d: Disp, past: Past) {
    && (forall id: nat {:trigger Settled(past, id)} | Settled(past, id) :: id < |streamers|)
    && (forall id: nat {:trigger Pending(queue, d, id)} | Pending(queue, d, id) :: id < |streamers|)
    && (forall id {:trigger streamers[id]} | 0 <= id < |streamers| ::
          PlaceOk(streamers[id].life, Pending(queue, d, id), Settled(past, id)))
  }

  predicate NoneTwice(queue: seq<Closure>) {
    forall i, j | 0 <= i < j < |queue| && queue[i].EndClosure? :: queue[i] != queue[j]
  }

  /** No end is waiting twice. */
  predicate OnceOnly(queue: seq<Closure>, d: Disp) {
    && NoneTwice(queue)
    && (forall i | 0 <= i < |queue| && queue[i].EndClosure? :: !OnDisp(d, queue[i].id))
  }

  /** No end has gone two ways. */
  predicate Apart(past: Past) {
    past.missed !! past.dropped !! past.turnedAway !! past.handled
  }

  ghost predicate EndsInv(s: State, past: Past) {
    PlacesOk(s.streamers, s.queue, s.disp, past) && OnceOnly(s.queue, s.disp) && Apart(past)
  }

  /** Streamers are made or move on before their end, and closures that are not ends join the queue. */
  predicate Grows(streamers: seq<Streamer>, streamers': seq<Streamer>, queue: seq<Closure>, queue': seq<Closure>) {
    && |streamers| <= |streamers'| && |queue| <= |queue'| && queue == queue'[..|queue|]
    && (forall id {:trigger streamers'[id]} | 0 <= id < |streamers'| ::
          Finished(streamers'[id].life) <==> id < |streamers| && Finished(streamers[id].life))
    && forall i | |queue| <= i < |queue'| :: !queue'[i].EndClosure?
  }

  lemma PendingGrows(queue: seq<Closure>, queue': seq<Closure>, d: Disp, id: nat)
    requires |queue| <= |queue'| && queue == queue'[..|queue|]
    requires forall i | |queue| <= i < |queue'| :: !queue'[i].EndClosure?
    ensures Pending(queue', d, id) <==> Pending(queue, d, id)
  {
    if EndClosure(id) in queue' {
      var i :| 0 <= i < |queue'| && queue'[i] == EndClosure(id);
      assert queue[i] == queue'[i];
    }
    if EndClosure(id) in queue {
      var i :| 0 <= i < |queue| && queue[i] == EndClosure(id);
      assert queue[i] == queue'[i];
    }
  }

  lemma GrowthKeeps(streamers: seq<Streamer>, streamers': seq<Streamer>, queue: seq<Closure>, queue': seq<Closure>,
                    d: Disp, past: Past)
    requires PlacesOk(streamers, queue, d, past) && OnceOnly(queue, d) && Grows(streamers, streamers', queue, queue')
    ensures PlacesOk(streamers', queue', d, past) && OnceOnly(queue', d)
  {
    forall id: nat
      ensures Pending(queue', d, id) <==> Pending(queue, d, id)
    {
      PendingGrows(queue, queue', d, id);
    }
    assert forall i | 0 <= i < |queue| :: queue[i] == queue'[i];
    forall id | 0 <= id < |streamers'|
      ensures PlaceOk(streamers'[id].life, Pending(queue', d, id), Settled(past, id))
    {
      assert id < |streamers| ==> PlaceOk(streamers[id].life, Pending(queue, d, id), Settled(past, id));
    }
  }

  // ---------------------------------------------------------------- the steps of an end

  /** Only the end of streamer `id` moves from one place to another. */
  lemma OneMoves(s: State, past: Past, s': State, past': Past, id: nat)
    requires PlacesOk(s.streamers, s.queue, s.disp, past) && id < |s.streamers| == |s'.streamers|
    requires forall x | 0 <= x < |s.streamers| && x != id :: s'.streamers[x] == s.streamers[x]
    requires forall x: nat | x != id :: Settled(past', x) <==> Settled(past, x)
    requires forall x: nat | x != id :: Pending(s'.queue, s'.disp, x) <==> Pending(s.queue, s.disp, x)
    requires PlaceOk(s'.streamers[id].life, Pending(s'.queue, s'.disp, id), Settled(past', id))
    ensures PlacesOk(s'.streamers, s'.queue, s'.disp, past')
  {
  }

  lemma EndKeepsEnds(s: State, past: Past, id: nat, e: EndStep)
    requires EndsInv(s, past) && CanEnd(s, id, e)
    ensures EndsInv(DoEnd(s, id, e), Note(s, past, End(id, e)))
  {
    var t, past' := DoEnd(s, id, e), Note(s, past, End(id, e));
    assert PlaceOk(s.streamers[id].life, Pending(s.queue, s.disp, id), Settled(past, id));
    if e.EndSubmit? {
      forall x: nat
        ensures EndClosure(x) in t.queue <==> EndClosure(x) in s.queue || x == id
      {
        JoinsQueue(s.queue, EndClosure(id), EndClosure(x));
      }
    }
    OneMoves(s, past, t, past', id);
  }

  lemma JoinsQueue(queue: seq<Closure>, c: Closure, x: Closure)
    ensures x in queue + [c] <==> x in queue || x == c
  {
  }

  /** A closure leaves the queue. */
  lemma LeavesQueue(queue: seq<Closure>, at: nat, c: Closure)
    requires at < |queue|
    ensures var rest := queue[..at] + queue[at + 1..];
            && (c != queue[at] ==> (c in rest <==> c in queue))
            && (NoneTwice(queue) && c.EndClosure? && c == queue[at] ==> c !in rest)
  {
    var rest := queue[..at] + queue[at + 1..];
    assert queue == queue[..at] + [queue[at]] + queue[at + 1..];
    if c in rest {
      var i :| 0 <= i < |rest| && rest[i] == c;
      assert queue[if i < at then i else i + 1] == c;
    }
  }

  lemma RestOnceOnly(queue: seq<Closure>, d: Disp, at: nat)
    requires at < |queue| && OnceOnly(queue, d)
    ensures OnceOnly(queue[..at] + queue[at + 1..], d)
  {
    var rest := queue[..at] + queue[at + 1..];
    assert forall i | 0 <= i < |rest| :: rest[i] == queue[if i < at then i else i + 1];
  }

  lemma DropKeepsEnds(s: State, past: Past, at: nat)
    requires EndsInv(s, past) && at < |s.queue|
    ensures EndsInv(DoDisp(s, DropClosure(at)), NoteDisp(s, past, DropClosure(at)))
  {
    var t, past' := DoDisp(s, DropClosure(at)), NoteDisp(s, past, DropClosure(at));
    RestOnceOnly(s.queue, s.disp, at);
    forall x: nat
      ensures EndClosure(x) in t.queue <==> EndClosure(x) in s.queue && EndClosure(x) != s.queue[at]
    {
      LeavesQueue(s.queue, at, EndClosure(x));
    }
    if s.queue[at].EndClosure? {
      var id := s.queue[at].id;
      assert Pending(s.queue, s.disp, id);
      assert PlaceOk(s.streamers[id].life, true, Settled(past, id));
      OneMoves(s, past, t, past', id);
    } else {
      assert forall x: nat :: Pending(t.queue, t.disp, x) <==> Pending(s.queue, s.disp, x);
    }
  }

  lemma TakeKeepsEnds(s: State, past: Past)
    requires EndsInv(s, past) && CanDisp(s, Take)
    ensures EndsInv(DoDisp(s, Take), past)
  {
    var t := DoDisp(s, Take);
    assert t.queue == s.queue[..0] + s.queue[1..];
    RestOnceOnly(s.queue, s.disp, 0);
    forall x: nat
      ensures EndClosure(x) in t.queue <==> EndClosure(x) in s.queue && EndClosure(x) != s.queue[0]
    {
      LeavesQueue(s.queue, 0, EndClosure(x));
    }
    assert forall x: nat :: Pending(t.queue, t.disp, x) <==> Pending(s.queue, s.disp, x);
    assert forall i | 0 <= i < |t.queue| :: t.queue[i] == s.queue[i + 1];
  }

  lemma TurnKeepsEnds(s: State, past: Past, d: DispStep)
    requires EndsInv(s, past) && CanDisp(s, d) && (d.DispReadClosed? || d.DispReadSwitching? || d.DispEnd?)
    ensures EndsInv(DoDisp(s, d), NoteDisp(s, past, d))
  {
    var t, past', id := DoDisp(s, d), NoteDisp(s, past, d), s.disp.id;
    assert Pending(s.queue, s.disp, id) && EndClosure(id) !in s.queue;
    assert PlaceOk(s.streamers[id].life, true, Settled(past, id));
    assert t.queue == s.queue && t.streamers == s.streamers;
    OneMoves(s, past, t, past', id);
  }

  lemma DispKeepsEnds(s: State, past: Past, d: DispStep)
    requires EndsInv(s, past) && CanDisp(s, d)
    ensures EndsInv(DoDisp(s, d), NoteDisp(s, past, d))
  {
    match d
    case DropClosure(at) => DropKeepsEnds(s, past, at);
    case Take => TakeKeepsEnds(s, past);
    case PcFailed => GrowthKeeps(s.streamers, s.streamers, s.queue, s.queue + [PcClosure], s.disp, past);
    case DispReadClosed => TurnKeepsEnds(s, past, d);
    case DispReadSwitching => TurnKeepsEnds(s, past, d);
    case DispEnd => TurnKeepsEnds(s, past, d);
    case _ => SameEnds(s, DoDisp(s, d), past);
  }

  lemma SameEnds(s: State, t: State, past: Past)
    requires EndsInv(s, past) && t.streamers == s.streamers && t.queue == s.queue
    requires forall x: nat :: OnDisp(t.disp, x) <==> OnDisp(s.disp, x)
    ensures EndsInv(t, past)
  {
    assert forall x: nat :: Pending(t.queue, t.disp, x) <==> Pending(s.queue, s.disp, x);
  }

  // ---------------------------------------------------------------- the steps of the calls

  lemma CallGrows(s: State, op: nat, c: CallStep)
    requires CanCall(s, op, c)
    ensures var t := DoCall(s, op, c); Grows(s.streamers, t.streamers, s.queue, t.queue) && t.disp == s.disp
  {
  }

  lemma LockGrows(s: State, op: nat, l: LockStep)
    requires CanLock(s, op, l)
    ensures var t := DoLock(s, op, l); Grows(s.streamers, t.streamers, s.queue, t.queue) && t.disp == s.disp
  {
  }

  lemma BeginGrows(streamers: seq<Streamer>, slot: Option<Installed>, queue: seq<Closure>)
    requires slot.Some? && slot.value.id < |streamers| ==> !Finished(streamers[slot.value.id].life)
    ensures Grows(streamers, Begin(streamers, slot), queue, queue)
  {
  }

  lemma InstallGrows(s: State)
    requires CanHeld(s, InstallFields)
    ensures var t := DoHeld(s, InstallFields); Grows(s.streamers, t.streamers, s.queue, t.queue) && t.disp == s.disp
  {
  }

  lemma StartGrows(s: State, h: HeldStep)
    requires SlotsInv(s) && CanHeld(s, h) && (h.StartAudio? || h.StartVideo?)
    ensures var t := DoHeld(s, h); Grows(s.streamers, t.streamers, s.queue, t.queue) && t.disp == s.disp
  {
    BeginGrows(s.streamers, if h.StartAudio? then s.f.audio else s.f.video, s.queue);
  }

  lemma MakeGrows(s: State, h: HeldStep)
    requires CanHeld(s, h) && Reopening(h)
    ensures var t := DoHeld(s, h); Grows(s.streamers, t.streamers, s.queue, t.queue) && t.disp == s.disp
  {
  }

  lemma StopGrows(s: State, h: HeldStep)
    requires CanHeld(s, h) && (Stopping(h) || h.ClearCall?)
    ensures var t := DoHeld(s, h); Grows(s.streamers, t.streamers, s.queue, t.queue) && t.disp == s.disp
  {
  }

  lemma LeaveGrows(s: State)
    requires CallsInv(s) && CanHeld(s, Leave)
    ensures var t := DoHeld(s, Leave);
            && Grows(s.streamers, t.streamers, s.queue, t.queue)
            && forall x: nat :: OnDisp(t.disp, x) <==> OnDisp(s.disp, x)
  {
  }

  lemma HeldGrows(s: State, h: HeldStep)
    requires CallsInv(s) && SlotsInv(s) && CanHeld(s, h)
    ensures var t := DoHeld(s, h);
            && Grows(s.streamers, t.streamers, s.queue, t.queue)
            && forall x: nat :: OnDisp(t.disp, x) <==> OnDisp(s.disp, x)
  {
    if h.InstallFields? {
      InstallGrows(s);
    } else if h.StartAudio? || h.StartVideo? {
      StartGrows(s, h);
    } else if Reopening(h) {
      MakeGrows(s, h);
    } else if h.Leave? {
      LeaveGrows(s);
    } else {
      StopGrows(s, h);
    }
  }

  lemma GrowthKeepsEnds(s: State, t: State, past: Past, past': Past)
    requires EndsInv(s, past) && Grows(s.streamers, t.streamers, s.queue, t.queue)
    requires forall x: nat :: OnDisp(t.disp, x) <==> OnDisp(s.disp, x)
    requires past' == past.(clearers := past'.clearers)
    ensures EndsInv(t, past')
  {
    GrowthKeeps(s.streamers, t.streamers, s.queue, t.queue, s.disp, past);
    var u := s.(streamers := t.streamers, queue := t.queue);
    assert forall x: nat :: Settled(past', x) <==> Settled(past, x);
    assert forall x: nat :: Pending(t.queue, t.disp, x) <==> Pending(t.queue, s.disp, x);
  }

  lemma StepKeepsEnds(s: State, past: Past, step: Step)
    requires CallsInv(s) && SlotsInv(s) && EndsInv(s, past) && Enabled(s, step)
    ensures EndsInv(Apply(s, step), Note(s, past, step))
  {
    var t, past' := Apply(s, step), Note(s, past, step);
    match step
    case Call(op, c) =>
      CallGrows(s, op, c);
      GrowthKeepsEnds(s, t, past, past');
    case Lock(op, l) =>
      LockGrows(s, op, l);
      GrowthKeepsEnds(s, t, past, past');
    case Inside(h) =>
      HeldGrows(s, h);
      GrowthKeepsEnds(s, t, past, past');
    case End(id, e) => EndKeepsEnds(s, past, id, e);
    case Disp(d) => DispKeepsEnds(s, past, d);
  }
}
