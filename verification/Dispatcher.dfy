/** The callback dispatcher (utils/synccallback.go): a bounded queue that drops its oldest event when
    full. Submit is three separate channel operations that race with other producers, the consumer
    and Close. Events are numbered in the order in which their Submit calls began. */
module Dispatcher {
  import opened Options

  /** What has become of an event. A producer in `Retrying` has made room and will try once more;
      `mark` is how many events had been enqueued when it made room. */
  datatype Fate = Trying | Full | Retrying(mark: nat) | Queued | Running | Executed | DroppedOld | DroppedNew | Lost

  /** `log` records the enqueued events in order, `taken` how many have left the queue again. */
  datatype State = State(
    cap: nat,
    queue: seq<nat>,
    running: Option<nat>,
    executed: seq<nat>,
    closed: bool,
    chClosed: bool,
    fates: seq<Fate>,
    log: seq<nat>,
    taken: nat)

  function Initial(cap: nat): State {
    State(cap, [], None, [], false, false, [], [], 0)
  }

  datatype Step =
    | Begin
    | TrySend(e: nat)
    | TryDrop(e: nat)
    | TryAgain(e: nat)
    | Take
    | Finish
    | CloseFlag
    | CloseChannel

  predicate HasFate(s: State, e: nat, f: Fate) { e < |s.fates| && s.fates[e] == f }

  predicate IsRetrying(s: State, e: nat) { e < |s.fates| && s.fates[e].Retrying? }

  predicate Enabled(s: State, step: Step) {
    match step
    case Begin => true
    case TrySend(e) => HasFate(s, e, Trying)
    case TryDrop(e) => HasFate(s, e, Full)
    case TryAgain(e) => IsRetrying(s, e)
    case Take => s.running.None? && s.queue != [] && s.queue[0] < |s.fates|
    case Finish => s.running.Some? && s.running.value < |s.fates|
    case CloseFlag => !s.closed
    case CloseChannel => s.closed && !s.chClosed
  }

  function WithFate(s: State, e: nat, f: Fate): State
    requires e < |s.fates|
  {
    s.(fates := s.fates[e := f])
  }

  function Enqueue(s: State, e: nat): State
    requires e < |s.fates|
  {
    WithFate(s, e, Queued).(queue := s.queue + [e], log := s.log + [e])
  }

  /** The head leaves the queue with fate `f`. */
  function Pop(s: State, f: Fate): State
    requires s.queue != [] && s.queue[0] < |s.fates|
  {
    WithFate(s, s.queue[0], f).(queue := s.queue[1..], taken := s.taken + 1)
  }

  function Apply(s: State, step: Step): State
    requires Enabled(s, step)
  {
    match step
    case Begin => s.(fates := s.fates + [if s.closed then Lost else Trying])
    case TrySend(e) =>
      if s.chClosed then WithFate(s, e, Lost)
      else if |s.queue| < s.cap then Enqueue(s, e)
      else WithFate(s, e, Full)
    case TryDrop(e) =>
      WithFate(if s.queue != [] && s.queue[0] < |s.fates| then Pop(s, DroppedOld) else s, e, Retrying(|s.log|))
    case TryAgain(e) =>
      if s.chClosed then WithFate(s, e, Lost)
      else if |s.queue| < s.cap then Enqueue(s, e)
      else WithFate(s, e, DroppedNew)
    case Take => Pop(s, Running).(running := Some(s.queue[0]))
    case Finish => WithFate(s, s.running.value, Executed).(executed := s.executed + [s.running.value], running := None)
    case CloseFlag => s.(closed := true)
    case CloseChannel => s.(chClosed := true)
  }

  predicate IsRun(s: State, run: seq<Step>)
    decreases |run|
  {
    run == [] || (Enabled(s, run[0]) && IsRun(Apply(s, run[0]), run[1..]))
  }

  function After(s: State, run: seq<Step>): State
    requires IsRun(s, run)
    decreases |run|
  {
    if run == [] then s else After(Apply(s, run[0]), run[1..])
  }

  // ---------------------------------------------------------------- accounting

  /** Out of the queue and not dropped. */
  predicate Handed(f: Fate) { f.Running? || f.Executed? }

  predicate Left(f: Fate) { Handed(f) || f.DroppedOld? }

  /** The events of `log` that were handed to the consumer, in order. */
  function HandedOf(log: seq<nat>, fates: seq<Fate>): seq<nat> {
    if log == [] then []
    else
      var e := log[|log| - 1];
      HandedOf(log[..|log| - 1], fates) + (if e < |fates| && Handed(fates[e]) then [e] else [])
  }

  predicate Distinct(s: seq<nat>) {
    forall i, j | 0 <= i < j < |s| :: s[i] != s[j]
  }

  function RunningSeq(r: Option<nat>): seq<nat> {
    if r.Some? then [r.value] else []
  }

  predicate LogOk(s: State) {
    && s.taken <= |s.log|
    && s.queue == s.log[s.taken..]
    && Distinct(s.log)
    && (forall i {:trigger s.log[i]} | 0 <= i < |s.log| ::
          s.log[i] < |s.fates| && (if i < s.taken then Left(s.fates[s.log[i]]) else s.fates[s.log[i]].Queued?))
    && (forall e {:trigger s.fates[e]} | 0 <= e < |s.fates| ::
          Left(s.fates[e]) || s.fates[e].Queued? ==> e in s.log)
  }

  predicate HandedOk(s: State) {
    && s.taken <= |s.log|
    && s.executed + RunningSeq(s.running) == HandedOf(s.log[..s.taken], s.fates)
    && (forall e {:trigger s.fates[e]} | 0 <= e < |s.fates| :: s.fates[e].Running? <==> s.running == Some(e))
    && (s.running.Some? ==> s.running.value < |s.fates|)
  }

  predicate RoomOk(s: State) {
    && |s.queue| <= s.cap && 0 < s.cap
    && (s.chClosed ==> s.closed)
    && (forall e {:trigger s.fates[e]} | 0 <= e < |s.fates| ::
          s.fates[e].Retrying? ==> s.fates[e].mark <= |s.log| && (s.fates[e].mark == |s.log| ==> |s.queue| < s.cap))
  }

  predicate Inv(s: State) { LogOk(s) && HandedOk(s) && RoomOk(s) }

  lemma {:induction false} HandedOfFrame(log: seq<nat>, fates: seq<Fate>, fates': seq<Fate>)
    requires forall i | 0 <= i < |log| ::
               log[i] < |fates| && log[i] < |fates'| && (Handed(fates[log[i]]) <==> Handed(fates'[log[i]]))
    ensures HandedOf(log, fates) == HandedOf(log, fates')
  {
    if log != [] {
      HandedOfFrame(log[..|log| - 1], fates, fates');
    }
  }

  lemma EnqueueLog(s: State, e: nat)
    requires LogOk(s) && e < |s.fates| && (s.fates[e].Trying? || s.fates[e].Retrying?)
    ensures LogOk(Enqueue(s, e))
  {
    assert forall i | 0 <= i < |s.log| :: s.log[i] != e;
    assert forall x | x in s.log :: x in s.log + [e];
  }

  lemma EnqueueKeeps(s: State, e: nat)
    requires Inv(s) && e < |s.fates| && (s.fates[e].Trying? || s.fates[e].Retrying?) && |s.queue| < s.cap
    ensures Inv(Enqueue(s, e))
  {
    var t := Enqueue(s, e);
    EnqueueLog(s, e);
    assert t.log[..t.taken] == s.log[..s.taken];
    HandedOfFrame(s.log[..s.taken], s.fates, t.fates);
  }

  /** A producer that has not enqueued its event changes nothing but the event's fate. */
  lemma ProducerKeeps(s: State, e: nat, f: Fate)
    requires Inv(s) && e < |s.fates| && (s.fates[e].Trying? || s.fates[e].Full? || s.fates[e].Retrying?)
    requires f.Full? || f.DroppedNew? || f.Lost? || (f == Retrying(|s.log|) && |s.queue| < s.cap)
    ensures Inv(WithFate(s, e, f))
  {
    HandedOfFrame(s.log[..s.taken], s.fates, s.fates[e := f]);
  }

  lemma PopLog(s: State, f: Fate)
    requires LogOk(s) && s.queue != [] && Left(f)
    ensures s.queue[0] < |s.fates| && s.queue[0] == s.log[s.taken] && LogOk(Pop(s, f))
    ensures HandedOf(Pop(s, f).log[..s.taken + 1], Pop(s, f).fates)
         == HandedOf(s.log[..s.taken], s.fates) + (if Handed(f) then [s.queue[0]] else [])
  {
    var t := Pop(s, f);
    assert s.log[..s.taken + 1][..s.taken] == s.log[..s.taken];
    HandedOfFrame(s.log[..s.taken], s.fates, t.fates);
  }

  lemma DropKeeps(s: State)
    requires Inv(s) && s.queue != []
    ensures s.queue[0] < |s.fates| && Inv(Pop(s, DroppedOld)) && |Pop(s, DroppedOld).queue| < s.cap
  {
    PopLog(s, DroppedOld);
  }

  lemma TakeKeeps(s: State)
    requires Inv(s) && Enabled(s, Take)
    ensures Inv(Apply(s, Take))
  {
    PopLog(s, Running);
  }

  lemma FinishKeepsLog(s: State)
    requires LogOk(s) && HandedOk(s) && Enabled(s, Finish)
    ensures LogOk(Apply(s, Finish))
  {
    assert s.fates[s.running.value].Running?;
  }

  lemma FinishKeepsHanded(s: State)
    requires LogOk(s) && HandedOk(s) && Enabled(s, Finish)
    ensures HandedOk(Apply(s, Finish))
  {
    var e := s.running.value;
    assert s.fates[e].Running?;
    HandedOfFrame(s.log[..s.taken], s.fates, Apply(s, Finish).fates);
    assert s.executed + [e] + RunningSeq(None) == s.executed + RunningSeq(Some(e));
  }

  lemma FinishKeeps(s: State)
    requires Inv(s) && Enabled(s, Finish)
    ensures Inv(Apply(s, Finish))
  {
    FinishKeepsLog(s);
    FinishKeepsHanded(s);
  }

  lemma BeginKeepsLog(s: State)
    requires LogOk(s)
    ensures LogOk(Apply(s, Begin))
  {
  }

  lemma BeginKeepsHanded(s: State)
    requires LogOk(s) && HandedOk(s)
    ensures HandedOk(Apply(s, Begin))
  {
    HandedOfFrame(s.log[..s.taken], s.fates, Apply(s, Begin).fates);
  }

  lemma BeginKeeps(s: State)
    requires Inv(s)
    ensures Inv(Apply(s, Begin))
  {
    BeginKeepsLog(s);
    BeginKeepsHanded(s);
  }

  lemma StepKeeps(s: State, step: Step)
    requires Inv(s) && Enabled(s, step)
    ensures Inv(Apply(s, step))
  {
    match step
    case Begin => BeginKeeps(s);
    case TrySend(e) =>
      if s.chClosed {
        ProducerKeeps(s, e, Lost);
      } else if |s.queue| < s.cap {
        EnqueueKeeps(s, e);
      } else {
        ProducerKeeps(s, e, Full);
      }
    case TryDrop(e) =>
      if s.queue != [] {
        DropKeeps(s);
        ProducerKeeps(Pop(s, DroppedOld), e, Retrying(|s.log|));
      } else {
        ProducerKeeps(s, e, Retrying(|s.log|));
      }
    case TryAgain(e) =>
      if s.chClosed {
        ProducerKeeps(s, e, Lost);
      } else if |s.queue| < s.cap {
        EnqueueKeeps(s, e);
      } else {
        ProducerKeeps(s, e, DroppedNew);
      }
    case Take => TakeKeeps(s);
    case Finish => FinishKeeps(s);
    case CloseFlag =>
    case CloseChannel =>
  }

  lemma {:induction false} RunKeeps(s: State, run: seq<Step>)
    requires Inv(s) && IsRun(s, run)
    ensures Inv(After(s, run))
    decreases |run|
  {
    if run != [] {
      StepKeeps(s, run[0]);
      RunKeeps(Apply(s, run[0]), run[1..]);
    }
  }

  // ---------------------------------------------------------------- what a run guarantees

  /** Executed events are exactly those handed to the consumer and finished, in enqueue order. */
  predicate ExecutedInOrder(s: State) {
    && s.taken <= |s.log|
    && s.executed + RunningSeq(s.running) == HandedOf(s.log[..s.taken], s.fates)
  }

  lemma {:induction false} HandedOfMembers(log: seq<nat>, fates: seq<Fate>, e: nat)
    ensures e in HandedOf(log, fates) <==> e in log && e < |fates| && Handed(fates[e])
  {
    if log != [] {
      HandedOfMembers(log[..|log| - 1], fates, e);
    }
  }

  /** `a` was enqueued before `b`. */
  ghost predicate Before(log: seq<nat>, a: nat, b: nat) {
    exists p, q :: 0 <= p < q < |log| && log[p] == a && log[q] == b
  }

  lemma BeforeStays(log: seq<nat>, e: nat, a: nat, b: nat)
    requires Before(log, a, b)
    ensures Before(log + [e], a, b)
  {
    var p, q :| 0 <= p < q < |log| && log[p] == a && log[q] == b;
    assert (log + [e])[p] == a && (log + [e])[q] == b;
  }

  lemma LastComesAfter(log: seq<nat>, e: nat, a: nat)
    requires a in log
    ensures Before(log + [e], a, e)
  {
    var p :| 0 <= p < |log| && log[p] == a;
    assert (log + [e])[p] == a && (log + [e])[|log|] == e;
  }

  lemma {:induction false} HandedOfInOrder(log: seq<nat>, fates: seq<Fate>, i: nat, j: nat)
    requires i < j < |HandedOf(log, fates)|
    ensures Before(log, HandedOf(log, fates)[i], HandedOf(log, fates)[j])
  {
    var front, e := log[..|log| - 1], log[|log| - 1];
    var handed := HandedOf(front, fates);
    assert log == front + [e];
    if j < |handed| {
      HandedOfInOrder(front, fates, i, j);
      BeforeStays(front, e, handed[i], handed[j]);
    } else {
      HandedOfMembers(front, fates, handed[i]);
      LastComesAfter(front, e, handed[i]);
    }
  }

  lemma {:induction false} HandedOfDistinct(log: seq<nat>, fates: seq<Fate>)
    requires Distinct(log)
    ensures Distinct(HandedOf(log, fates))
  {
    if log != [] {
      var front, e := log[..|log| - 1], log[|log| - 1];
      HandedOfDistinct(front, fates);
      HandedOfMembers(front, fates, e);
      assert e !in front;
    }
  }

  lemma Reached(cap: nat, run: seq<Step>)
    requires 0 < cap && IsRun(Initial(cap), run)
    ensures Inv(After(Initial(cap), run))
  {
    RunKeeps(Initial(cap), run);
  }

  /** Of any two executed events the one executed first was enqueued first; an event that is running comes
      after all that have been executed. */
  lemma ExecutedInEnqueueOrder(cap: nat, run: seq<Step>, i: nat, j: nat)
    requires 0 < cap && IsRun(Initial(cap), run)
    requires var s := After(Initial(cap), run); i < j < |s.executed + RunningSeq(s.running)|
    ensures var s := After(Initial(cap), run);
            var order := s.executed + RunningSeq(s.running);
            Before(s.log, order[i], order[j])
  {
    Reached(cap, run);
    var s := After(Initial(cap), run);
    var gone, rest := s.log[..s.taken], s.log[s.taken..];
    HandedOfInOrder(gone, s.fates, i, j);
    BeforeInFront(gone, rest, HandedOf(gone, s.fates)[i], HandedOf(gone, s.fates)[j]);
    assert s.log == gone + rest;
  }

  lemma BeforeInFront(front: seq<nat>, rest: seq<nat>, a: nat, b: nat)
    requires Before(front, a, b)
    ensures Before(front + rest, a, b)
  {
    var p, q :| 0 <= p < q < |front| && front[p] == a && front[q] == b;
    assert (front + rest)[p] == a && (front + rest)[q] == b;
  }

  /** Accounting over every run with any number of producers: the queue keeps its bound; it is the
      newest part of the enqueue order; events are executed in that order, each at most once; and the
      one fate of every event says where it is. */
  lemma Accounting(cap: nat, run: seq<Step>)
    requires 0 < cap && IsRun(Initial(cap), run)
    ensures var s := After(Initial(cap), run);
            && |s.queue| <= cap
            && Distinct(s.log) && s.taken <= |s.log| && s.queue == s.log[s.taken..]
            && ExecutedInOrder(s) && Distinct(s.executed)
            && forall e | 0 <= e < |s.fates| ::
                 && (s.fates[e].Queued? <==> e in s.queue)
                 && (s.fates[e].Executed? <==> e in s.executed)
                 && (s.fates[e].Running? <==> s.running == Some(e))
                 && (Left(s.fates[e]) <==> e in s.log[..s.taken])
  {
    Reached(cap, run);
    CapKept(Initial(cap), run);
    AccountingOf(After(Initial(cap), run));
  }

  lemma {:induction false} CapKept(s: State, run: seq<Step>)
    requires IsRun(s, run)
    ensures After(s, run).cap == s.cap
    decreases |run|
  {
    if run != [] {
      CapKept(Apply(s, run[0]), run[1..]);
    }
  }

  lemma AccountingOf(s: State)
    requires Inv(s)
    ensures Distinct(s.executed)
    ensures forall e | 0 <= e < |s.fates| ::
              && (s.fates[e].Queued? <==> e in s.queue)
              && (s.fates[e].Executed? <==> e in s.executed)
              && (Left(s.fates[e]) <==> e in s.log[..s.taken])
  {
    var gone := s.log[..s.taken];
    HandedOfDistinct(gone, s.fates);
    assert forall i | 0 <= i < |s.executed| :: s.executed[i] == HandedOf(gone, s.fates)[i];
    forall e | 0 <= e < |s.fates|
      ensures s.fates[e].Queued? <==> e in s.queue
      ensures s.fates[e].Executed? <==> e in s.executed
      ensures Left(s.fates[e]) <==> e in gone
    {
      WhereQueued(s, e);
      WhereExecuted(s, e);
    }
  }

  lemma WhereQueued(s: State, e: nat)
    requires LogOk(s) && e < |s.fates|
    ensures s.fates[e].Queued? <==> e in s.queue
    ensures Left(s.fates[e]) <==> e in s.log[..s.taken]
  {
    assert s.log == s.log[..s.taken] + s.queue;
  }

  lemma WhereExecuted(s: State, e: nat)
    requires LogOk(s) && HandedOk(s) && e < |s.fates|
    ensures s.fates[e].Executed? <==> e in s.executed
  {
    var gone := s.log[..s.taken];
    var handed := HandedOf(gone, s.fates);
    WhereQueued(s, e);
    HandedOfDistinct(gone, s.fates);
    HandedOfMembers(gone, s.fates, e);
    assert forall i | 0 <= i < |s.executed| :: s.executed[i] == handed[i];
    if s.running == Some(e) {
      assert handed[|s.executed|] == e;
    } else {
      assert e in handed <==> e in s.executed;
    }
  }

  /** An event is dropped as new only if some other producer has enqueued since it made room. */
  lemma DroppedNewExactly(cap: nat, run: seq<Step>, e: nat)
    requires 0 < cap && IsRun(Initial(cap), run) && Enabled(After(Initial(cap), run), TryAgain(e))
    ensures var s := After(Initial(cap), run);
            var t := Apply(s, TryAgain(e));
            && (t.fates[e].DroppedNew? <==> !s.chClosed && |s.queue| == cap)
            && (t.fates[e].DroppedNew? ==> s.fates[e].mark < |s.log|)
  {
    Reached(cap, run);
    CapKept(Initial(cap), run);
  }

  /** How an event is lost, in every run: a new one at once if the dispatcher is closed; one on its way when
      its next try finds the channel closed; a queued one as the oldest when another producer makes room; one
      that has made room when its place is taken. It is executed when it finishes, and none of this changes
      any more. */
  lemma LossesExactly(cap: nat, run: seq<Step>, step: Step, e: nat)
    requires 0 < cap && IsRun(Initial(cap), run) && Enabled(After(Initial(cap), run), step)
    requires e < |After(Initial(cap), run).fates|
    ensures var s := After(Initial(cap), run);
            var t := Apply(s, step);
            && e < |t.fates|
            && (t.fates[e].Lost? <==> s.fates[e].Lost? || (s.chClosed && (step == TrySend(e) || step == TryAgain(e))))
            && (t.fates[e].DroppedOld? <==>
                  s.fates[e].DroppedOld? || (step.TryDrop? && s.queue != [] && s.queue[0] == e))
            && (t.fates[e].DroppedNew? <==>
                  s.fates[e].DroppedNew? || (step == TryAgain(e) && !s.chClosed && |s.queue| == cap))
            && (t.fates[e].Executed? <==> s.fates[e].Executed? || (step == Finish && s.running == Some(e)))
            && (step == Begin ==> t.fates == s.fates + [if s.closed then Lost else Trying])
            && (s.chClosed ==> s.closed)
  {
    Reached(cap, run);
    CapKept(Initial(cap), run);
    LossesAt(After(Initial(cap), run), step, e);
  }

  lemma LossesAt(s: State, step: Step, e: nat)
    requires Inv(s) && Enabled(s, step) && e < |s.fates|
    ensures var t := Apply(s, step);
            && e < |t.fates|
            && (t.fates[e].Lost? <==> s.fates[e].Lost? || (s.chClosed && (step == TrySend(e) || step == TryAgain(e))))
            && (t.fates[e].DroppedOld? <==>
                  s.fates[e].DroppedOld? || (step.TryDrop? && s.queue != [] && s.queue[0] == e))
            && (t.fates[e].DroppedNew? <==>
                  s.fates[e].DroppedNew? || (step == TryAgain(e) && !s.chClosed && |s.queue| == s.cap))
            && (t.fates[e].Executed? <==> s.fates[e].Executed? || (step == Finish && s.running == Some(e)))
  {
    assert s.queue != [] ==> s.queue[0] == s.log[s.taken] && s.fates[s.log[s.taken]].Queued?;
  }

  predicate Leads(s: State, run: seq<Step>, end: State) { IsRun(s, run) && After(s, run) == end }

  lemma Prepend(s: State, step: Step, run: seq<Step>, end: State)
    requires Enabled(s, step) && Leads(Apply(s, step), run, end)
    ensures Leads(s, [step] + run, end)
  {
    assert ([step] + run)[1..] == run;
  }

  /** With a second producer an event can be dropped as new: it loses the place it has made to event 2. */
  lemma SecondProducerTakesPlace() returns (run: seq<Step>)
    ensures IsRun(Initial(1), run) && After(Initial(1), run).fates == [DroppedOld, DroppedNew, Queued]
  {
    var s2 := Apply(Apply(Initial(1), Begin), TrySend(0));
    var s4 := Apply(Apply(s2, Begin), TrySend(1));
    var s5 := Apply(s4, TryDrop(1));
    run := PlaceIsTaken(s5);
    var end := After(s5, run);
    Prepend(s4, TryDrop(1), run, end);
    run := [TryDrop(1)] + run;
    Prepend(Apply(s2, Begin), TrySend(1), run, end);
    run := [TrySend(1)] + run;
    Prepend(s2, Begin, run, end);
    run := [Begin] + run;
    Prepend(Apply(Initial(1), Begin), TrySend(0), run, end);
    run := [TrySend(0)] + run;
    Prepend(Initial(1), Begin, run, end);
    run := [Begin] + run;
  }

  lemma PlaceIsTaken(s: State) returns (run: seq<Step>)
    requires s == State(1, [], None, [], false, false, [DroppedOld, Retrying(1)], [0], 1)
    ensures IsRun(s, run) && After(s, run).fates == [DroppedOld, DroppedNew, Queued]
  {
    var s6 := Apply(s, Begin);
    var s7 := Apply(s6, TrySend(2));
    var end := Apply(s7, TryAgain(1));
    Prepend(s7, TryAgain(1), [], end);
    Prepend(s6, TrySend(2), [TryAgain(1)] + [], end);
    Prepend(s, Begin, [TrySend(2)] + ([TryAgain(1)] + []), end);
    run := [Begin] + ([TrySend(2)] + ([TryAgain(1)] + []));
  }

  // ---------------------------------------------------------------- a lone producer

  predicate Flying(f: Fate) { f.Trying? || f.Full? || f.Retrying? }

  predicate AtMostOneFlying(s: State) {
    forall i, j | 0 <= i < |s.fates| && 0 <= j < |s.fates| && Flying(s.fates[i]) && Flying(s.fates[j]) :: i == j
  }

  /** A run in which a Submit never begins before the one before it has returned. */
  predicate LoneRun(s: State, run: seq<Step>)
    requires IsRun(s, run)
    decreases |run|
  {
    AtMostOneFlying(s) && (run == [] || LoneRun(Apply(s, run[0]), run[1..]))
  }

  /** Before Close: the flying event is the newest, a retry finds room, and the newest is not dropped. */
  predicate LoneOk(s: State) {
    && (forall e {:trigger s.fates[e]} | 0 <= e < |s.fates| && Flying(s.fates[e]) :: e == |s.fates| - 1)
    && (forall e {:trigger s.fates[e]} | 0 <= e < |s.fates| :: s.fates[e].Retrying? ==> |s.queue| < s.cap)
    && (s.fates != [] ==> Safe(s.fates[|s.fates| - 1]))
  }

  predicate Safe(f: Fate) { !f.DroppedOld? && !f.DroppedNew? && !f.Lost? }

  lemma LoneBegin(s: State)
    requires LoneOk(s) && !s.closed && AtMostOneFlying(Apply(s, Begin))
    ensures LoneOk(Apply(s, Begin))
  {
    var t, n := Apply(s, Begin), |s.fates|;
    assert t.fates[n].Trying?;
    assert forall e | 0 <= e < n :: t.fates[e] == s.fates[e] && !Flying(t.fates[e]);
  }

  lemma LoneSend(s: State, e: nat, step: Step)
    requires Inv(s) && LoneOk(s) && !s.closed && Enabled(s, step) && (step == TrySend(e) || step == TryAgain(e))
    ensures LoneOk(Apply(s, step))
  {
    assert Flying(s.fates[e]);
  }

  lemma LoneDrop(s: State, e: nat)
    requires Inv(s) && LoneOk(s) && Enabled(s, TryDrop(e))
    ensures LoneOk(Apply(s, TryDrop(e)))
  {
    assert Flying(s.fates[e]);
    if s.queue != [] {
      assert s.log[s.taken] == s.queue[0];
    }
  }

  /** Moving an event on, once enqueued, and shortening the queue. */
  lemma LoneMove(s: State, e: nat, f: Fate, queue: seq<nat>)
    requires LoneOk(s) && e < |s.fates| && Handed(f) && |queue| <= |s.queue|
    ensures LoneOk(WithFate(s, e, f).(queue := queue))
  {
  }

  lemma LoneRest(s: State, step: Step)
    requires LoneOk(s) && Enabled(s, step) && (step.Take? || step.Finish? || step.CloseChannel?)
    ensures LoneOk(Apply(s, step))
  {
    match step
    case Take => LoneMove(s, s.queue[0], Running, s.queue[1..]);
    case Finish => LoneMove(s, s.running.value, Executed, s.queue);
    case CloseChannel =>
  }

  lemma LoneStep(s: State, step: Step)
    requires Inv(s) && LoneOk(s) && Enabled(s, step)
    requires !Apply(s, step).closed && AtMostOneFlying(Apply(s, step))
    ensures LoneOk(Apply(s, step))
  {
    match step
    case Begin => LoneBegin(s);
    case TrySend(e) => LoneSend(s, e, step);
    case TryDrop(e) => LoneDrop(s, e);
    case TryAgain(e) => LoneSend(s, e, step);
    case CloseFlag =>
    case _ => LoneRest(s, step);
  }

  lemma {:induction false} LoneKept(s: State, run: seq<Step>)
    requires Inv(s) && LoneOk(s) && IsRun(s, run) && LoneRun(s, run) && !After(s, run).closed
    ensures LoneOk(After(s, run))
    decreases |run|
  {
    if run != [] {
      var t := Apply(s, run[0]);
      StepKeeps(s, run[0]);
      if t.closed {
        StaysClosed(t, run[1..]);
      }
      LoneStep(s, run[0]);
      LoneKept(t, run[1..]);
    }
  }

  lemma {:induction false} StaysClosed(s: State, run: seq<Step>)
    requires IsRun(s, run) && s.closed
    ensures After(s, run).closed
    decreases |run|
  {
    if run != [] {
      StaysClosed(Apply(s, run[0]), run[1..]);
    }
  }

  /** The newest event of a lone producer is not dropped before Close. */
  lemma LoneNewestIsKept(cap: nat, run: seq<Step>)
    requires 0 < cap && IsRun(Initial(cap), run) && LoneRun(Initial(cap), run)
    requires !After(Initial(cap), run).closed && After(Initial(cap), run).fates != []
    ensures var s := After(Initial(cap), run); Safe(s.fates[|s.fates| - 1])
  {
    LoneKept(Initial(cap), run);
  }

  // ---------------------------------------------------------------- the object

  /** What an undisturbed Submit makes of the queue. */
  function Submitted(ch: seq<nat>, cap: nat, e: nat): seq<nat>
    requires 0 < cap
  {
    if |ch| < cap then ch + [e] else ch[1..] + [e]
  }

  function SubmittedAll(ch: seq<nat>, cap: nat, es: seq<nat>): seq<nat>
    requires 0 < cap
    decreases |es|
  {
    if es == [] then ch else SubmittedAll(Submitted(ch, cap, es[0]), cap, es[1..])
  }

  function Newest(es: seq<nat>, n: nat): seq<nat> {
    if |es| <= n then es else es[|es| - n..]
  }

  /** Undisturbed submissions to a consumer that is busy leave the newest `cap` events, in order. */
  lemma {:induction false} BusyConsumerKeepsNewest(ch: seq<nat>, cap: nat, es: seq<nat>)
    requires 0 < cap && |ch| <= cap
    ensures SubmittedAll(ch, cap, es) == Newest(ch + es, cap)
    decreases |es|
  {
    if es == [] {
      assert ch + [] == ch;
    } else {
      BusyConsumerKeepsNewest(Submitted(ch, cap, es[0]), cap, es[1..]);
      SubmittedKeepsNewest(ch, cap, es[0], es[1..]);
      assert es == [es[0]] + es[1..];
    }
  }

  lemma SubmittedKeepsNewest(ch: seq<nat>, cap: nat, e: nat, rest: seq<nat>)
    requires 0 < cap && |ch| <= cap
    ensures Newest(Submitted(ch, cap, e) + rest, cap) == Newest(ch + ([e] + rest), cap)
  {
    if |ch| < cap {
      assert ch + [e] + rest == ch + ([e] + rest);
    } else {
      assert ch[1..] + [e] + rest == (ch + ([e] + rest))[1..];
    }
  }

  /** The steps of a Submit that nobody disturbs do to the queue what `Submitted` says. */
  lemma SubmitSteps(s: State)
    requires Inv(s) && !s.closed
    ensures var e := |s.fates|;
            var t := Apply(Apply(s, Begin), TrySend(e));
            && (|s.queue| < s.cap ==> t.queue == Submitted(s.queue, s.cap, e))
            && (|s.queue| == s.cap ==>
                  var u := Apply(Apply(t, TryDrop(e)), TryAgain(e));
                  u.queue == Submitted(s.queue, s.cap, e) && u.fates[s.queue[0]].DroppedOld?)
  {
    if |s.queue| == s.cap {
      assert s.log[s.taken] == s.queue[0];
    }
  }

  datatype Sent = Ok | NoRoom | Panics

  class Queue {
    const cap: nat
    var ch: seq<nat>
    var closed: bool
    var chClosed: bool
    var executed: seq<nat>

    ghost predicate Valid()
      reads this
    {
      0 < cap && |ch| <= cap && closed == chClosed
    }

    constructor (bufSize: int)
      ensures Valid() && ch == [] && executed == [] && !closed
      ensures cap == if bufSize <= 0 then 256 else bufSize
    {
      cap := if bufSize <= 0 then 256 else bufSize;
      ch, closed, chClosed, executed := [], false, false, [];
    }

    /** A non-blocking send. */
    method Send(e: nat) returns (r: Sent)
      modifies this`ch
      ensures r == if chClosed then Panics else if |old(ch)| < cap then Ok else NoRoom
      ensures ch == if r == Ok then old(ch) + [e] else old(ch)
    {
      if chClosed {
        return Panics;
      }
      if |ch| < cap {
        ch := ch + [e];
        return Ok;
      }
      r := NoRoom;
    }

    /** A non-blocking receive whose value is thrown away. */
    method DropOldest()
      modifies this`ch
      ensures ch == if old(ch) == [] then [] else old(ch)[1..]
    {
      if ch != [] {
        ch := ch[1..];
      }
    }

    method Submit(e: nat)
      requires Valid()
      modifies this`ch
      ensures Valid() && ch == if closed then old(ch) else Submitted(old(ch), cap, e)
    {
      if closed {
        return;
      }
      var r := Send(e);
      if r == NoRoom {
        DropOldest();
        r := Send(e);
      }
    }

    /** The loop goroutine, from a moment on when nothing is submitted any more, until the queue is empty. */
    method Drain()
      requires Valid()
      modifies this`ch, this`executed
      ensures Valid() && ch == [] && executed == old(executed) + old(ch)
    {
      while ch != []
        invariant executed + ch == old(executed) + old(ch) && |ch| <= cap
      {
        executed, ch := executed + [ch[0]], ch[1..];
      }
    }

    /** Close runs everything that is still queued before it returns. */
    method Close()
      requires Valid()
      modifies this
      ensures Valid() && closed && ch == [] && executed == old(executed) + old(ch)
    {
      closed, chClosed := true, true;
      Drain();
    }
  }
}
